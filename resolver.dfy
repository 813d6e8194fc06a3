/** The position resolver of `close_trade`: a first-match scan of the trader's
    live positions for the loosely typed id the caller supplied, and the
    (pair id, trade index) that is submitted once a position matches. */
module Resolver {
  import opened Wrappers
  import opened PyText

  /** One entry of the live-position list. Field values are their `str(...)`
      rendering; `None` is an absent key. */
  datatype PositionRecord =
    | Unreadable   // an entry whose fields cannot be read (not a mapping, or a null `pair`): reading it raises
    | Position(tradeId: Option<string>, pairId: Option<string>, nestedPairId: Option<string>, index: Option<string>)

  /** `str(pos.get(key, ""))`. */
  function Text(o: Option<string>): string {
    o.GetOr("")
  }

  /** The candidate equals the trade id, the pair id or the nested `pair.id`. */
  predicate Matches(p: PositionRecord, candidate: string)
    requires p.Position?
  {
    Text(p.tradeId) == candidate || Text(p.pairId) == candidate || Text(p.nestedPairId) == candidate
  }

  /** A readable position that does not match: the scan moves past it. */
  predicate Skipped(p: PositionRecord, candidate: string) {
    p.Position? && !Matches(p, candidate)
  }

  /** Position `k` is the first match, every earlier entry having been skipped. */
  predicate FirstMatchAt(ps: seq<PositionRecord>, candidate: string, k: int) {
    && 0 <= k < |ps|
    && ps[k].Position?
    && Matches(ps[k], candidate)
    && forall j :: 0 <= j < k ==> Skipped(ps[j], candidate)
  }

  /** How a scan ends: a match with the ids to submit, no match, or an exception
      raised while reading an entry. */
  datatype Resolution = Found(pairId: string, tradeIndex: Option<string>) | NotFound | ScanRaised

  /** The ids submitted for a matched position: the nested `pair.id` when it is
      non-empty, else `pairId`, else the candidate; the position's `index` when
      present, else the caller's index. */
  function Rewrite(p: PositionRecord, candidate: string, tradeIndex: Option<string>): Resolution
    requires p.Position?
  {
    var pairId := if Text(p.nestedPairId) != "" then Text(p.nestedPairId) else p.pairId.GetOr(candidate);
    Found(pairId, if p.index.Some? then p.index else tradeIndex)
  }

  /** The specification of the scan. */
  function Resolve(ps: seq<PositionRecord>, candidate: string, tradeIndex: Option<string>): (r: Resolution)
    ensures r.Found? ==> exists j :: 0 <= j < |ps| && ps[j].Position? && Matches(ps[j], candidate)
    ensures r.Found? ==> r.tradeIndex == tradeIndex || exists j :: 0 <= j < |ps| && ps[j].Position? && r.tradeIndex == ps[j].index
    decreases |ps|
  {
    if ps == [] then NotFound
    else if ps[0].Unreadable? then ScanRaised
    else if Matches(ps[0], candidate) then Rewrite(ps[0], candidate, tradeIndex)
    else
      var rest := Resolve(ps[1..], candidate, tradeIndex);
      assert forall j :: 0 <= j < |ps[1..]| ==> ps[1..][j] == ps[j + 1];
      rest
  }

  /** The loop of `close_trade` over the live positions, with its flags and its
      `break` on the first match. */
  method ScanPositions(ps: seq<PositionRecord>, candidate: string, tradeIndex: Option<string>)
    returns (r: Resolution)
    ensures r == Resolve(ps, candidate, tradeIndex)
  {
    var positionExists := false;
    var actualPairId := "";
    var actualTradeIndex: Option<string> := None;
    var i := 0;
    while i < |ps|
      invariant 0 <= i <= |ps|
      invariant Resolve(ps[i..], candidate, tradeIndex) == Resolve(ps, candidate, tradeIndex)
      invariant !positionExists
    {
      var pos := ps[i];
      assert ps[i..][0] == pos && ps[i..][1..] == ps[i + 1..];
      if pos.Unreadable? {
        return ScanRaised;
      }
      if Matches(pos, candidate) {
        positionExists := true;
        actualPairId := if Text(pos.nestedPairId) != "" then Text(pos.nestedPairId) else pos.pairId.GetOr(candidate);
        actualTradeIndex := if pos.index.Some? then pos.index else tradeIndex;
        break;
      }
      i := i + 1;
    }
    if !positionExists {
      return NotFound;
    }
    r := Found(actualPairId, actualTradeIndex);
  }

  /** The first matching position decides: its ids are the ones submitted,
      whatever comes after it. */
  lemma {:induction false} ResolveAtFirstMatch(ps: seq<PositionRecord>, candidate: string, tradeIndex: Option<string>, k: int)
    requires FirstMatchAt(ps, candidate, k)
    ensures Resolve(ps, candidate, tradeIndex) == Rewrite(ps[k], candidate, tradeIndex)
    decreases k
  {
    if k > 0 {
      assert FirstMatchAt(ps[1..], candidate, k - 1) by {
        forall j | 0 <= j < k - 1
          ensures Skipped(ps[1..][j], candidate)
        {
          assert ps[1..][j] == ps[j + 1];
        }
      }
      ResolveAtFirstMatch(ps[1..], candidate, tradeIndex, k - 1);
    }
  }

  /** A match is always a first match of some position. */
  lemma {:induction false} FoundHasFirstMatch(ps: seq<PositionRecord>, candidate: string, tradeIndex: Option<string>)
    requires Resolve(ps, candidate, tradeIndex).Found?
    ensures exists k :: FirstMatchAt(ps, candidate, k)
    decreases |ps|
  {
    if !Matches(ps[0], candidate) {
      FoundHasFirstMatch(ps[1..], candidate, tradeIndex);
      var k :| FirstMatchAt(ps[1..], candidate, k);
      assert FirstMatchAt(ps, candidate, k + 1) by {
        forall j | 0 <= j < k + 1
          ensures Skipped(ps[j], candidate)
        {
          if j > 0 {
            assert ps[j] == ps[1..][j - 1];
          }
        }
      }
    } else {
      assert FirstMatchAt(ps, candidate, 0);
    }
  }

  /** "Not found" exactly when every live position is readable and none matches. */
  lemma {:induction false} NotFoundIffNoMatch(ps: seq<PositionRecord>, candidate: string, tradeIndex: Option<string>)
    ensures Resolve(ps, candidate, tradeIndex) == NotFound <==> forall j :: 0 <= j < |ps| ==> Skipped(ps[j], candidate)
    decreases |ps|
  {
    if ps != [] {
      NotFoundIffNoMatch(ps[1..], candidate, tradeIndex);
      assert forall j :: 1 <= j < |ps| ==> ps[j] == ps[1..][j - 1];
    }
  }

  /** The scan raises exactly when it reaches an unreadable entry before any match. */
  lemma {:induction false} RaisedIffUnreadableFirst(ps: seq<PositionRecord>, candidate: string, tradeIndex: Option<string>)
    ensures Resolve(ps, candidate, tradeIndex) == ScanRaised
            <==> exists k :: 0 <= k < |ps| && ps[k].Unreadable? && forall j :: 0 <= j < k ==> Skipped(ps[j], candidate)
    decreases |ps|
  {
    if ps != [] && !ps[0].Unreadable? {
      RaisedIffUnreadableFirst(ps[1..], candidate, tradeIndex);
      if Resolve(ps, candidate, tradeIndex) == ScanRaised {
        var k :| 0 <= k < |ps[1..]| && ps[1..][k].Unreadable? && forall j :: 0 <= j < k ==> Skipped(ps[1..][j], candidate);
        assert ps[k + 1].Unreadable?;
        forall j | 0 <= j < k + 1
          ensures Skipped(ps[j], candidate)
        {
          if j > 0 {
            assert ps[j] == ps[1..][j - 1];
          }
        }
      }
      if exists k :: 0 <= k < |ps| && ps[k].Unreadable? && forall j :: 0 <= j < k ==> Skipped(ps[j], candidate) {
        var k :| 0 <= k < |ps| && ps[k].Unreadable? && forall j :: 0 <= j < k ==> Skipped(ps[j], candidate);
        assert k > 0;
        assert ps[1..][k - 1].Unreadable?;
        forall j | 0 <= j < k - 1
          ensures Skipped(ps[1..][j], candidate)
        {
          assert ps[1..][j] == ps[j + 1];
        }
      }
    }
  }

  /** With a non-empty candidate, an absent field never produces a match. */
  lemma AbsentFieldsNeverMatch(p: PositionRecord, candidate: string)
    requires p.Position? && candidate != ""
    requires p.tradeId == None && p.pairId == None && p.nestedPairId == None
    ensures !Matches(p, candidate)
  {
  }

  /** A position listed with trade id "7" and pair id "3" is found under either
      id, and both resolve to pair "3"; "99" is not found. */
  lemma ResolveExample(tradeIndex: Option<string>)
    ensures Resolve([Position(Some("7"), Some("3"), None, None)], "3", tradeIndex) == Found("3", tradeIndex)
    ensures Resolve([Position(Some("7"), Some("3"), None, None)], "7", tradeIndex) == Found("3", tradeIndex)
    ensures Resolve([Position(Some("7"), Some("3"), None, None)], "99", tradeIndex) == NotFound
  {
  }
}
