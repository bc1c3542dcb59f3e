/** to_bits and u128_from_bits: the base-2 case of the digit codec. */
module Bits {
  import opened Errors
  import opened Arith
  import opened MixedRadix

  /** to_bits: the n low bits of x, least significant first.  Each step keeps y & 1,
      subtracts it and halves y; bits beyond position n are dropped. */
  function ToBits(x: nat, n: nat): (bs: seq<nat>)
    ensures Pow(2, n) > 0
    ensures |bs| == n && AllBelow(bs, 2)
    ensures BaseQValue(bs, 2) == x % Pow(2, n)
    decreases n
  {
    PowPositive(2, n);
    if n == 0 then []
    else
      PowPositive(2, n - 1);
      ModSplit(x, 2, Pow(2, n - 1));
      [x % 2] + ToBits(x / 2, n - 1)
  }

  /** to_bits agrees with the padded base-2 encoding. */
  lemma ToBitsIsPaddedBaseQ(x: nat, n: nat)
    ensures ToBits(x, n) == PaddedBaseQ(x, 2, n)
  {
    var bs := ToBits(x, n);
    PaddedBaseQOfValue(bs, 2);
    PaddedMixedRadixMod(x, Repeat(2, n));
    ProdRepeat(2, n);
  }

  /** The loop of u128_from_bits over bs[1..], most significant bit first: add the bit,
      then double.  The result is twice the value of the bits; every step is checked
      u128 arithmetic. */
  function DoubledValue(ts: seq<nat>): (r: Result<nat>)
    ensures r.Ok? <==> 2 * BaseQValue(ts, 2) < U128_LIMIT
    ensures r.Ok? ==> r.value == 2 * BaseQValue(ts, 2)
    ensures r.Err? ==> r.error == Overflow
    decreases |ts|
  {
    if |ts| == 0 then Ok(0)
    else
      match DoubledValue(ts[1..])
      case Err(e) => Err(e)
      case Ok(h) =>
        if h + ts[0] >= U128_LIMIT then Err(Overflow)
        else if (h + ts[0]) * 2 >= U128_LIMIT then Err(Overflow)
        else Ok((h + ts[0]) * 2)
  }

  /** u128_from_bits: the value of a little-endian bit vector.  The first bit is read
      unconditionally, so an empty vector is an error; a value past u128 is an
      arithmetic overflow. */
  function U128FromBits(bs: seq<nat>): (r: Result<nat>)
    ensures r.Ok? <==> |bs| > 0 && BaseQValue(bs, 2) < U128_LIMIT
    ensures r.Ok? ==> r.value == BaseQValue(bs, 2)
    ensures |bs| == 0 ==> r == Err(EmptyInput)
    ensures |bs| > 0 && r.Err? ==> r.error == Overflow
  {
    if |bs| == 0 then Err(EmptyInput)
    else
      match DoubledValue(bs[1..])
      case Err(e) => Err(e)
      case Ok(h) => if h + bs[0] >= U128_LIMIT then Err(Overflow) else Ok(h + bs[0])
  }

  /** The bits round trip: any u128 survives to_bits(x, 128) then u128_from_bits. */
  lemma BitsRoundTrip(x: nat)
    requires x < U128_LIMIT
    ensures U128FromBits(ToBits(x, 128)) == Ok(x)
  {
    Pow2To128();
    DivModUnique(x, U128_LIMIT, 0, x);
  }

  /** The other direction: a non-empty vector of at most 128 bits decodes, and
      re-encoding to the same width gives it back. */
  lemma BitsRoundTripFromBits(bs: seq<nat>)
    requires 0 < |bs| <= 128 && AllBelow(bs, 2)
    ensures U128FromBits(bs).Ok?
    ensures ToBits(U128FromBits(bs).value, |bs|) == bs
  {
    BaseQValueBound(bs, 2);
    PowMonotone(2, |bs|, 128);
    Pow2To128();
    ToBitsIsPaddedBaseQ(BaseQValue(bs, 2), |bs|);
    PaddedBaseQOfValue(bs, 2);
  }
}
