/** as_mixed_radix_bigint / padded_mixed_radix_bigint: the decomposition over an
    unbounded integer, whose digits are narrowed to u16 through the little-endian
    magnitude bytes of each remainder (u16_from_bigint). */
module BigIntRadix {
  import opened Errors
  import opened Arith
  import opened MixedRadix

  /** The magnitude bytes of a BigInt as to_bytes_le returns them: least significant
      first, no trailing zero byte, and the single byte 0 for zero. */
  function LeBytes(n: nat): (bs: seq<nat>)
    ensures |bs| >= 1 && AllBelow(bs, 256)
    ensures BaseQValue(bs, 256) == n
    ensures |bs| > 1 ==> bs[|bs| - 1] != 0
    ensures (|bs| == 1) == (n < 256)
    decreases n
  {
    if n < 256 then [n]
    else
      var rest := LeBytes(n / 256);
      assert ([n % 256] + rest)[1..] == rest;
      [n % 256] + rest
  }

  /** The first two bytes of a value of at least 256; exactly two below 2^16. */
  lemma TwoBytes(d: nat)
    requires d >= 256
    ensures |LeBytes(d)| >= 2
    ensures LeBytes(d)[0] == d % 256 && LeBytes(d)[1] == (d / 256) % 256
    ensures d < U16_LIMIT ==> LeBytes(d) == [d % 256, d / 256]
  {
    var hi := d / 256;
    if hi < 256 {
      DivModUnique(hi, 256, 0, hi);
    }
    if d < U16_LIMIT {
      DivModUnique(d, U16_LIMIT, 0, d);
    }
  }

  /** u16_from_bigint as written: it reads bs[1] unconditionally, which is out of bounds
      for every value below 256, and it shifts a u16 left by 16.  rustc's
      arithmetic_overflow lint normally rejects that constant shift; a build that
      accepts it either aborts on the shift (overflow checks on) or masks the shift
      amount to 0 and adds the second byte unshifted, which is what is modelled. */
  function U16FromBigintAsWritten(d: nat): (r: Option<nat>)
    ensures r.Some? <==> d >= 256
    ensures 256 <= d < U16_LIMIT ==> r.Some? && r.value == d % 256 + d / 256
  {
    var bs := LeBytes(d);
    if |bs| < 2 then None
    else
      TwoBytes(d);
      Some(bs[0] + bs[1])
  }

  /** Concrete inputs: one-byte digits abort, and the digit 256 comes out as 1. */
  lemma U16FromBigintAsWrittenCounterexamples()
    ensures U16FromBigintAsWritten(1) == None
    ensures U16FromBigintAsWritten(256) == Some(1)
  {
  }

  /** The evidently intended conversion: the low byte plus the second byte shifted by 8,
      which is the value truncated to 16 bits. */
  function U16FromBigint(d: nat): (r: nat)
    ensures r == d % U16_LIMIT
    ensures d < U16_LIMIT ==> r == d
  {
    var bs := LeBytes(d);
    if |bs| < 2 then
      DivModUnique(d, U16_LIMIT, 0, d);
      bs[0]
    else
      TwoBytes(d);
      ModSplit(d, 256, 256);
      bs[0] + 256 * bs[1]
  }

  /** as_mixed_radix_bigint with the corrected digit conversion. */
  function AsMixedRadixBigint(x: nat, ms: seq<nat>): (ds: seq<nat>)
    requires AllPositive(ms) && AllBelow(ms, U16_LIMIT)
    ensures ds == AsMixedRadix(x, ms)
    decreases |ms|
  {
    if |ms| == 0 then []
    else
      TailPositive(ms);
      assert AllBelow(ms[1..], U16_LIMIT) by {
        forall i | 0 <= i < |ms| - 1
          ensures ms[1..][i] < U16_LIMIT
        {
          assert ms[1..][i] == ms[i + 1];
        }
      }
      if x >= ms[0] then
        [U16FromBigint(x % ms[0])] + AsMixedRadixBigint(x / ms[0], ms[1..])
      else
        [U16FromBigint(x)]
  }

  /** padded_mixed_radix_bigint with the corrected digit conversion. */
  function PaddedMixedRadixBigint(x: nat, ms: seq<nat>): (ds: seq<nat>)
    requires AllPositive(ms) && AllBelow(ms, U16_LIMIT)
    ensures ds == PaddedMixedRadix(x, ms)
  {
    var short := AsMixedRadixBigint(x, ms);
    short + Repeat(0, |ms| - |short|)
  }

  /** as_mixed_radix_bigint as written: None where u16_from_bigint aborts. */
  function AsMixedRadixBigintAsWritten(x: nat, ms: seq<nat>): (r: Option<seq<nat>>)
    requires AllPositive(ms)
    ensures r.Some? ==> |r.value| == |AsMixedRadix(x, ms)|
    decreases |ms|
  {
    if |ms| == 0 then Some([])
    else
      TailPositive(ms);
      if x >= ms[0] then
        match U16FromBigintAsWritten(x % ms[0])
        case None => None
        case Some(d) =>
          match AsMixedRadixBigintAsWritten(x / ms[0], ms[1..])
          case None => None
          case Some(rest) => Some([d] + rest)
      else
        match U16FromBigintAsWritten(x)
        case None => None
        case Some(d) => Some([d])
  }

  /** As written, the conversion aborts on the value 0 and misreads 256. */
  lemma AsMixedRadixBigintAsWrittenCounterexamples()
    ensures AsMixedRadix(0, [2]) == [0] && AsMixedRadixBigintAsWritten(0, [2]) == None
    ensures AsMixedRadix(256, [257]) == [256]
    ensures AsMixedRadixBigintAsWritten(256, [257]) == Some([1])
  {
    assert LeBytes(0) == [0];
    assert LeBytes(256) == [0, 1];
  }
}
