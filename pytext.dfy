/** The few Python built-in behaviours the service leans on: truthiness of an
    optional string, the `or` operator on optional strings, `int(...)` applied to
    text, `str(...)` applied to an integer, and the ordering `sorted` uses on
    strings. */
module PyText {
  import opened Wrappers

  /** `bool(x)` for an optional string: `None` and `""` are falsy. */
  predicate Truthy(o: Option<string>) {
    o.Some? && o.value != ""
  }

  /** Python's `a or b`: `a` when it is truthy, otherwise `b` (whatever `b` is). */
  function Or(a: Option<string>, b: Option<string>): (r: Option<string>)
    ensures Truthy(r) <==> Truthy(a) || Truthy(b)
    ensures Truthy(a) ==> r == a
  {
    if Truthy(a) then a else b
  }

  // ---------------------------------------------------------------------------
  // int(text) and str(int)

  predicate IsDigit(c: char) {
    '0' <= c <= '9'
  }

  /** The characters `int(...)` strips from both ends of its argument (ASCII only). */
  predicate IsSpace(c: char) {
    c == ' ' || (9 <= c as int <= 13) || (28 <= c as int <= 31)
  }

  function DigitValue(c: char): (d: nat)
    requires IsDigit(c)
    ensures d < 10
  {
    c as int - '0' as int
  }

  function DigitChar(d: nat): (c: char)
    requires d < 10
    ensures IsDigit(c) && DigitValue(c) == d
  {
    (d + '0' as int) as char
  }

  function TrimLeft(s: string): (t: string)
    ensures |t| <= |s|
    ensures t == s[|s| - |t|..]
    ensures t != [] ==> !IsSpace(t[0])
  {
    if s != [] && IsSpace(s[0]) then TrimLeft(s[1..]) else s
  }

  function TrimRight(s: string): (t: string)
    ensures |t| <= |s|
    ensures t == s[..|t|]
    ensures t != [] ==> !IsSpace(t[|t| - 1])
  {
    if s != [] && IsSpace(s[|s| - 1]) then TrimRight(s[..|s| - 1]) else s
  }

  /** The value of a non-empty run of decimal digits, or `None` when `s` is empty
      or holds anything but digits. */
  function ParseDigits(s: string): (r: Option<nat>)
    ensures r.Some? <==> s != [] && forall i :: 0 <= i < |s| ==> IsDigit(s[i])
  {
    if s == [] || !IsDigit(s[|s| - 1]) then None
    else if |s| == 1 then Some(DigitValue(s[0]))
    else match ParseDigits(s[..|s| - 1])
      case None => None
      case Some(v) => Some(v * 10 + DigitValue(s[|s| - 1]))
  }

  /** An optional sign followed by a non-empty run of decimal digits. */
  predicate IsIntText(t: string) {
    if t != [] && (t[0] == '-' || t[0] == '+') then
      |t| >= 2 && forall i :: 1 <= i < |t| ==> IsDigit(t[i])
    else
      t != [] && forall i :: 0 <= i < |t| ==> IsDigit(t[i])
  }

  /** Python's `int(s)` for a string: surrounding whitespace, an optional sign,
      then decimal digits. `None` stands for the `ValueError` it raises otherwise. */
  function ParseInt(s: string): (r: Option<int>)
    ensures r.Some? <==> IsIntText(TrimRight(TrimLeft(s)))
    ensures r.Some? && TrimRight(TrimLeft(s))[0] == '-' ==> r.value <= 0
    ensures r.Some? && TrimRight(TrimLeft(s))[0] != '-' ==> r.value >= 0
  {
    var t := TrimRight(TrimLeft(s));
    if t != [] && (t[0] == '-' || t[0] == '+') then
      assert IsIntText(t) <==> ParseDigits(t[1..]).Some?;
      match ParseDigits(t[1..])
      case None => None
      case Some(v) =>
        var n: int := if t[0] == '-' then -(v as int) else v;
        Some(n)
    else
      assert IsIntText(t) <==> ParseDigits(t).Some?;
      match ParseDigits(t)
      case None => None
      case Some(v) =>
        var n: int := v;
        Some(n)
  }

  /** Python's `str(n)` for a natural number: its decimal digits, no leading zero. */
  function ShowNat(n: nat): (s: string)
    ensures s != [] && forall i :: 0 <= i < |s| ==> IsDigit(s[i])
  {
    if n < 10 then [DigitChar(n)] else ShowNat(n / 10) + [DigitChar(n % 10)]
  }

  /** Python's `str(n)` for any integer. */
  function ShowInt(n: int): (s: string)
    ensures s != []
  {
    if n < 0 then "-" + ShowNat(-n) else ShowNat(n)
  }

  lemma {:induction false} ParseShowNat(n: nat)
    ensures ParseDigits(ShowNat(n)) == Some(n)
  {
    if n >= 10 {
      var s := ShowNat(n);
      assert s[..|s| - 1] == ShowNat(n / 10);
      ParseShowNat(n / 10);
    }
  }

  /** `int(str(n)) == n`: the text of an integer parses back to it. */
  lemma ParseShowInt(n: int)
    ensures ParseInt(ShowInt(n)) == Some(n)
  {
    var s := ShowInt(n);
    var d := if n < 0 then -n else n;
    ParseShowNat(d);
    assert TrimLeft(s) == s by {
      assert !IsSpace(s[0]);
    }
    assert TrimRight(s) == s by {
      assert IsDigit(ShowNat(d)[|ShowNat(d)| - 1]);
      assert !IsSpace(s[|s| - 1]);
    }
    if n < 0 {
      assert s[1..] == ShowNat(d);
    }
  }

  /** A sign in front of the text of a natural number gives it that sign. */
  lemma ParseSigned(n: nat)
    ensures ParseInt("-" + ShowNat(n)) == Some(-(n as int))
    ensures ParseInt("+" + ShowNat(n)) == Some(n)
  {
    ParseShowNat(n);
    var d := ShowNat(n);
    assert IsDigit(d[|d| - 1]);
    var minus := "-" + d;
    assert TrimLeft(minus) == minus by { assert !IsSpace(minus[0]); }
    assert TrimRight(minus) == minus by { assert minus[|minus| - 1] == d[|d| - 1]; }
    assert minus[1..] == d;
    var plus := "+" + d;
    assert TrimLeft(plus) == plus by { assert !IsSpace(plus[0]); }
    assert TrimRight(plus) == plus by { assert plus[|plus| - 1] == d[|d| - 1]; }
    assert plus[1..] == d;
  }

  /** Trailing text after the digits is refused, as is a space between digits. */
  lemma ParseRejectsTrailing()
    ensures ParseInt("3a") == None
    ensures ParseInt("1 2") == None
  {
    assert TrimLeft("3a") == "3a" && TrimRight("3a") == "3a";
    assert !IsDigit("3a"[1]);
    assert TrimLeft("1 2") == "1 2" && TrimRight("1 2") == "1 2";
    assert !IsDigit("1 2"[1]);
  }

  /** Surrounding whitespace is ignored. */
  lemma ParseIgnoresPadding()
    ensures ParseInt(" 42 ") == Some(42)
  {
    assert TrimLeft(" 42 ") == "42 " by { assert " 42 "[1..] == "42 "; }
    assert TrimRight("42 ") == "42" by { assert "42 "[..2] == "42"; }
    assert ParseDigits("42") == Some(42) by { assert "42"[..1] == "4"; }
  }

  // ---------------------------------------------------------------------------
  // The order `sorted` puts strings in: lexicographic by code point, a proper
  // prefix first.

  predicate Below(a: string, b: string)
    decreases |a|
  {
    if a == [] then b != []
    else if b == [] then false
    else if a[0] != b[0] then a[0] < b[0]
    else Below(a[1..], b[1..])
  }

  lemma {:induction false} BelowIrreflexive(a: string)
    ensures !Below(a, a)
    decreases |a|
  {
    if a != [] {
      BelowIrreflexive(a[1..]);
    }
  }

  lemma {:induction false} BelowTransitive(a: string, b: string, c: string)
    requires Below(a, b) && Below(b, c)
    ensures Below(a, c)
    decreases |a|
  {
    if a != [] && a[0] == b[0] && b[0] == c[0] {
      BelowTransitive(a[1..], b[1..], c[1..]);
    }
  }

  lemma {:induction false} BelowTotal(a: string, b: string)
    requires a != b
    ensures Below(a, b) || Below(b, a)
    decreases |a|
  {
    if a != [] && b != [] && a[0] == b[0] {
      assert a == [a[0]] + a[1..] && b == [b[0]] + b[1..];
      BelowTotal(a[1..], b[1..]);
    }
  }

  /** Strictly ascending: sorted, and therefore without repetitions. */
  predicate Ascending(s: seq<string>) {
    forall i, j :: 0 <= i < j < |s| ==> Below(s[i], s[j])
  }

  lemma {:induction false} LeastExists(s: set<string>)
    requires s != {}
    ensures exists m :: m in s && forall x :: x in s && x != m ==> Below(m, x)
    decreases |s|
  {
    var y :| y in s;
    var rest := s - {y};
    if rest != {} {
      LeastExists(rest);
      var m :| m in rest && forall x :: x in rest && x != m ==> Below(m, x);
      if Below(m, y) {
        forall x | x in s && x != m
          ensures Below(m, x)
        {
        }
      } else {
        BelowTotal(m, y);
        forall x | x in s && x != y
          ensures Below(y, x)
        {
          if x != m {
            BelowTransitive(y, m, x);
          }
        }
      }
    }
  }

  /** Python's `sorted(list(s))` for a set of strings. */
  method SortedList(s: set<string>) returns (r: seq<string>)
    ensures Ascending(r)
    ensures forall x :: x in r <==> x in s
    ensures |r| == |s|
  {
    var rest := s;
    r := [];
    while rest != {}
      invariant rest <= s
      invariant forall x :: x in r <==> x in s && x !in rest
      invariant Ascending(r)
      invariant forall i, x :: 0 <= i < |r| && x in rest ==> Below(r[i], x)
      invariant |r| + |rest| == |s|
      decreases |rest|
    {
      LeastExists(rest);
      var m :| m in rest && forall x :: x in rest && x != m ==> Below(m, x);
      r := r + [m];
      rest := rest - {m};
    }
  }
}
