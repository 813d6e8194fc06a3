/** The numeric encoder of `close_trade`: the pair id, the trade index and the
    close percentage are brought into the venue's unsigned widths by clamping,
    with a default substituted for an absent value. */
module Encoder {
  import opened Wrappers

  const U16_MAX: nat := 65535
  const U8_MAX: nat := 255

  /** `min(max(v, 0), hi)`. */
  function Clamp(v: int, hi: nat): (r: nat)
    ensures r <= hi
    ensures 0 <= v <= hi ==> r == v
    ensures v < 0 ==> r == 0
    ensures v > hi ==> r == hi
  {
    if v < 0 then 0 else if v > hi then hi else v
  }

  /** The market (pair) id as a u16; an absent id becomes 0. */
  function EncodePairId(v: Option<int>): (r: nat)
    ensures r <= U16_MAX
    ensures v == None ==> r == 0
    ensures v.Some? && 0 <= v.value <= U16_MAX ==> r == v.value
  {
    Clamp(v.GetOr(0), U16_MAX)
  }

  /** The slot (trade) index as a u8; an absent index becomes 0. */
  function EncodeTradeIndex(v: Option<int>): (r: nat)
    ensures r <= U8_MAX
    ensures v == None ==> r == 0
    ensures v.Some? && 0 <= v.value <= U8_MAX ==> r == v.value
  {
    Clamp(v.GetOr(0), U8_MAX)
  }

  /** The close percentage as a u16; an absent percentage means a full close, 100. */
  function EncodePercentage(v: Option<int>): (r: nat)
    ensures r <= U16_MAX
    ensures v == None ==> r == 100
    ensures v.Some? && 0 <= v.value <= U16_MAX ==> r == v.value
  {
    Clamp(v.GetOr(100), U16_MAX)
  }

  /** Encoding is idempotent: an encoded value encodes to itself. */
  lemma EncodeIdempotent(v: Option<int>)
    ensures EncodePairId(Some(EncodePairId(v))) == EncodePairId(v)
    ensures EncodeTradeIndex(Some(EncodeTradeIndex(v))) == EncodeTradeIndex(v)
    ensures EncodePercentage(Some(EncodePercentage(v))) == EncodePercentage(v)
  {
  }

  /** Clamping is monotone, so it never reorders two ids. */
  lemma ClampMonotone(a: int, b: int, hi: nat)
    requires a <= b
    ensures Clamp(a, hi) <= Clamp(b, hi)
  {
  }

  lemma EncoderExamples()
    ensures EncodePairId(Some(70000)) == 65535
    ensures EncodePairId(Some(-5)) == 0
    ensures EncodeTradeIndex(Some(300)) == 255
    ensures EncodePercentage(None) == 100
  {
  }
}
