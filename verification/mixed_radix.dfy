/** The mixed-radix and uniform base-q digit codecs of src/numbers.rs.

    Digits are little-endian: digit i is weighted by the product of the moduli
    before it.  The library works on u16 digits and moduli and a u128 value; the
    decomposition only ever shrinks its value, so the model runs it over nat and
    keeps the u128 limit where the library can overflow (the Horner evaluation). */
module MixedRadix {
  import opened Errors
  import opened Arith

  // ---------------------------------------------------------------------------
  // Reference definitions

  /** The value of the digits ds against the moduli ms: the sum of ds[i] * Prod(ms[..i]). */
  function MixedValue(ds: seq<nat>, ms: seq<nat>): nat
    requires |ds| <= |ms|
    decreases |ds|
  {
    if |ds| == 0 then 0 else ds[0] + ms[0] * MixedValue(ds[1..], ms[1..])
  }

  /** ds is a digit vector for ms: no longer than ms and each digit below its modulus. */
  predicate FitsModuli(ds: seq<nat>, ms: seq<nat>)
  {
    |ds| <= |ms| && forall i :: 0 <= i < |ds| ==> ds[i] < ms[i]
  }

  lemma AllBelowWeaken(ds: seq<nat>, a: nat, b: nat)
    requires AllBelow(ds, a) && a <= b
    ensures AllBelow(ds, b)
  {
  }

  lemma TailPositive(ms: seq<nat>)
    requires |ms| > 0 && AllPositive(ms)
    ensures AllPositive(ms[1..])
  {
    forall i | 0 <= i < |ms| - 1
      ensures ms[1..][i] > 0
    {
      assert ms[1..][i] == ms[i + 1];
    }
  }

  // ---------------------------------------------------------------------------
  // as_mixed_radix / padded_mixed_radix

  /** as_mixed_radix: peel off one digit per modulus, stopping as soon as the
      remaining quotient fits below the next modulus.  A zero modulus would be a
      division by zero in the library, hence the precondition. */
  function AsMixedRadix(x: nat, ms: seq<nat>): (ds: seq<nat>)
    requires AllPositive(ms)
    ensures Prod(ms) > 0
    ensures FitsModuli(ds, ms)
    ensures |ms| > 0 ==> |ds| > 0
    ensures MixedValue(ds, ms) == x % Prod(ms)
    decreases |ms|
  {
    ProdPositive(ms);
    if |ms| == 0 then []
    else
      TailPositive(ms);
      ProdPositive(ms[1..]);
      if x >= ms[0] then
        ModSplit(x, ms[0], Prod(ms[1..]));
        [x % ms[0]] + AsMixedRadix(x / ms[0], ms[1..])
      else
        MulAtLeast(Prod(ms[1..]), ms[0]);
        DivModUnique(x, Prod(ms), 0, x);
        [x]
  }

  /** Where the decomposition stops: it continues past position k - 1 only while the
      value reaches Prod(ms[..k]), and it stops short of |ms| only once the value is
      below the product of the moduli it has used. */
  lemma {:induction false} AsMixedRadixLength(x: nat, ms: seq<nat>)
    requires AllPositive(ms)
    ensures forall k :: 1 <= k < |AsMixedRadix(x, ms)| ==> Prod(ms[..k]) <= x
    ensures |AsMixedRadix(x, ms)| < |ms| ==> x < Prod(ms[..|AsMixedRadix(x, ms)|])
    decreases |ms|
  {
    if |ms| > 0 {
      var m, rest := ms[0], ms[1..];
      TailPositive(ms);
      if x >= m {
        var ds' := AsMixedRadix(x / m, rest);
        AsMixedRadixLength(x / m, rest);
        assert |AsMixedRadix(x, ms)| == |ds'| + 1;
        forall k | 1 <= k < |ds'| + 1
          ensures Prod(ms[..k]) <= x
        {
          PrefixProd(ms, k);
          if k > 1 {
            MulAtMostDiv(m, Prod(rest[..k - 1]), x);
          } else {
            assert rest[..0] == [];
          }
        }
        if |ds'| < |rest| {
          PrefixProd(ms, |ds'| + 1);
          DivBelowMul(m, Prod(rest[..|ds'|]), x);
        }
      } else {
        assert ms[..1] == [m];
      }
    }
  }

  lemma MulAtMostDiv(m: nat, p: nat, x: nat)
    requires m > 0 && p <= x / m
    ensures m * p <= x
  {
    assert m * p <= m * (x / m);
  }

  lemma DivBelowMul(m: nat, p: nat, x: nat)
    requires m > 0 && x / m < p
    ensures x < m * p
  {
    assert m * (x / m + 1) <= m * p;
  }

  /** The product of a non-empty prefix is its head times the next prefix of the tail. */
  lemma PrefixProd(ms: seq<nat>, k: nat)
    requires 1 <= k <= |ms|
    ensures Prod(ms[..k]) == ms[0] * Prod(ms[1..][..k - 1])
  {
    assert ms[..k][1..] == ms[1..][..k - 1];
  }

  /** The closed form of each digit: digit i is the quotient by the earlier moduli,
      reduced modulo ms[i]. */
  lemma {:induction false} AsMixedRadixDigit(x: nat, ms: seq<nat>, i: nat)
    requires AllPositive(ms) && i < |AsMixedRadix(x, ms)|
    ensures Prod(ms[..i]) > 0 && AsMixedRadix(x, ms)[i] == (x / Prod(ms[..i])) % ms[i]
    decreases i
  {
    var m, rest := ms[0], ms[1..];
    TailPositive(ms);
    var ds := AsMixedRadix(x, ms);
    if i == 0 {
      assert ms[..0] == [];
      DivModUnique(x, 1, x, 0);
      if x < m {
        DivModUnique(x, m, 0, x);
      }
    } else {
      assert x >= m;
      var p := Prod(rest[..i - 1]);
      AsMixedRadixDigit(x / m, rest, i - 1);
      PrefixProd(ms, i);
      assert Prod(ms[..i]) == m * p;
      DivDiv(x, m, p);
      assert ds[i] == AsMixedRadix(x / m, rest)[i - 1];
      assert rest[i - 1] == ms[i];
    }
  }

  /** padded_mixed_radix: the decomposition followed by zeros up to |ms| digits. */
  function PaddedMixedRadix(x: nat, ms: seq<nat>): (ds: seq<nat>)
    requires AllPositive(ms)
    ensures |ds| == |ms| && FitsModuli(ds, ms)
    ensures ds[..|AsMixedRadix(x, ms)|] == AsMixedRadix(x, ms)
    ensures forall i :: |AsMixedRadix(x, ms)| <= i < |ms| ==> ds[i] == 0
    ensures MixedValue(ds, ms) == x % Prod(ms)
  {
    var short := AsMixedRadix(x, ms);
    MixedValueAppendZeros(short, |ms| - |short|, ms);
    short + Repeat(0, |ms| - |short|)
  }

  /** Trailing zero digits do not change a value. */
  lemma {:induction false} MixedValueAppendZeros(ds: seq<nat>, k: nat, ms: seq<nat>)
    requires |ds| + k <= |ms|
    ensures MixedValue(ds + Repeat(0, k), ms) == MixedValue(ds, ms)
    decreases |ds| + k
  {
    if |ds| > 0 {
      assert (ds + Repeat(0, k))[1..] == ds[1..] + Repeat(0, k);
      MixedValueAppendZeros(ds[1..], k, ms[1..]);
    } else {
      assert ds + Repeat(0, k) == Repeat(0, k);
      MixedValueZeros(k, ms);
    }
  }

  lemma {:induction false} MixedValueZeros(k: nat, ms: seq<nat>)
    requires k <= |ms|
    ensures MixedValue(Repeat(0, k), ms) == 0
    decreases k
  {
    if k > 0 {
      assert Repeat(0, k)[1..] == Repeat(0, k - 1);
      MixedValueZeros(k - 1, ms[1..]);
    }
  }

  /** A value of zero over positive moduli has only zero digits. */
  lemma {:induction false} MixedValueZero(ds: seq<nat>, ms: seq<nat>)
    requires |ds| <= |ms| && AllPositive(ms) && MixedValue(ds, ms) == 0
    ensures ds == Repeat(0, |ds|)
    decreases |ds|
  {
    if |ds| > 0 {
      TailPositive(ms);
      MulAtLeast(ms[0], MixedValue(ds[1..], ms[1..]));
      MixedValueZero(ds[1..], ms[1..]);
      assert ds == [0] + ds[1..];
    }
  }

  /** Decoding then re-encoding: a full-length digit vector is recovered from its value,
      so the padded encoding is the unique representation below Prod(ms). */
  lemma {:induction false} PaddedMixedRadixOfValue(ds: seq<nat>, ms: seq<nat>)
    requires AllPositive(ms) && |ds| == |ms| && FitsModuli(ds, ms)
    ensures PaddedMixedRadix(MixedValue(ds, ms), ms) == ds
    decreases |ms|
  {
    if |ms| > 0 {
      var m, rest := ms[0], ms[1..];
      var v := MixedValue(ds[1..], rest);
      var x := MixedValue(ds, ms);
      TailPositive(ms);
      assert x == ds[0] + m * v;
      if x >= m {
        assert v > 0;
        DivModUnique(x, m, v, ds[0]);
        assert FitsModuli(ds[1..], rest) by {
          forall i | 0 <= i < |rest|
            ensures ds[1..][i] < rest[i]
          {
            assert ds[1..][i] == ds[i + 1];
          }
        }
        PaddedMixedRadixOfValue(ds[1..], rest);
        var tail := AsMixedRadix(v, rest);
        assert AsMixedRadix(x, ms) == [ds[0]] + tail;
        assert PaddedMixedRadix(x, ms) == [ds[0]] + (tail + Repeat(0, |rest| - |tail|));
        assert ds == [ds[0]] + ds[1..];
      } else {
        if v > 0 {
          MulAtLeast(v, m);
          assert false;
        }
        MixedValueZero(ds[1..], rest);
        assert AsMixedRadix(x, ms) == [ds[0]];
        assert ds == [ds[0]] + Repeat(0, |ms| - 1);
      }
    }
  }

  /** The padded encoding only depends on the value modulo Prod(ms). */
  lemma PaddedMixedRadixMod(x: nat, ms: seq<nat>)
    requires AllPositive(ms)
    ensures Prod(ms) > 0
    ensures PaddedMixedRadix(x % Prod(ms), ms) == PaddedMixedRadix(x, ms)
  {
    ProdPositive(ms);
    PaddedMixedRadixOfValue(PaddedMixedRadix(x, ms), ms);
  }

  // ---------------------------------------------------------------------------
  // Uniform base q

  /** Against n copies of q, the mixed-radix value is the base-q value. */
  lemma {:induction false} MixedValueUniform(ds: seq<nat>, q: nat, n: nat)
    requires |ds| <= n
    ensures MixedValue(ds, Repeat(q, n)) == BaseQValue(ds, q)
    decreases |ds|
  {
    if |ds| > 0 {
      assert Repeat(q, n)[1..] == Repeat(q, n - 1);
      MixedValueUniform(ds[1..], q, n - 1);
    }
  }

  /** padded_base_q: exactly n base-q digits of x; whatever does not fit is dropped. */
  function PaddedBaseQ(x: nat, q: nat, n: nat): (ds: seq<nat>)
    requires q > 0
    ensures Pow(q, n) > 0
    ensures |ds| == n && AllBelow(ds, q)
    ensures BaseQValue(ds, q) == x % Pow(q, n)
  {
    var ms := Repeat(q, n);
    PowPositive(q, n);
    var ds := PaddedMixedRadix(x, ms);
    MixedValueUniform(ds, q, n);
    ProdRepeat(q, n);
    ds
  }

  /** Re-encoding a full-length base-q digit vector gives it back. */
  lemma PaddedBaseQOfValue(ds: seq<nat>, q: nat)
    requires q > 0 && AllBelow(ds, q)
    ensures PaddedBaseQ(BaseQValue(ds, q), q, |ds|) == ds
  {
    var ms := Repeat(q, |ds|);
    MixedValueUniform(ds, q, |ds|);
    PaddedMixedRadixOfValue(ds, ms);
  }

  /** The least k with 2^k >= q: the integer stand-in for the rounded-up base-2
      logarithm that digits_per_u128 computes in floating point. */
  function CeilLog2(q: nat): (k: nat)
    requires q >= 1
    ensures Pow(2, k) >= q
    ensures k > 0 ==> Pow(2, k - 1) < q
  {
    if q <= 1 then 0
    else
      var k := 1 + CeilLog2((q + 1) / 2);
      assert Pow(2, k) == 2 * Pow(2, k - 1);
      k
  }

  /** digits_per_u128: how many base-q digits of width CeilLog2(q) bits fit in 128
      bits, so that every vector of that many digits has a u128 value. */
  function DigitsPerU128(q: nat): (n: nat)
    requires 2 <= q < U16_LIMIT
    ensures n >= 1
    ensures Pow(q, n) <= U128_LIMIT
  {
    var c := CeilLog2(q);
    DigitsPerU128Fits(q, c);
    128 / c
  }

  lemma DigitsPerU128Fits(q: nat, c: nat)
    requires 2 <= q < U16_LIMIT && c == CeilLog2(q)
    ensures 1 <= c <= 16 && 128 / c >= 1
    ensures Pow(q, 128 / c) <= U128_LIMIT
  {
    CeilLog2Small(q, c);
    var n := 128 / c;
    DivAtLeastOne(128, c);
    DivMulAtMost(128, c);
    PowFits(q, c, n);
  }

  /** A base below 2^16 needs at most 16 bits. */
  lemma CeilLog2Small(q: nat, c: nat)
    requires 2 <= q < U16_LIMIT && c == CeilLog2(q)
    ensures 1 <= c <= 16
  {
    if c > 16 {
      PowMonotone(2, 16, c - 1);
      Pow2To16();
    }
  }

  /** n digits of at most c bits each fit in 128 bits when c * n <= 128. */
  lemma PowFits(q: nat, c: nat, n: nat)
    requires q <= Pow(2, c) && c * n <= 128
    ensures Pow(q, n) <= U128_LIMIT
  {
    var pc := Pow(2, c);
    PowBaseMonotone(q, pc, n);
    PowPow(2, c, n);
    PowMonotone(2, c * n, 128);
    Pow2To128();
  }

  lemma DivAtLeastOne(a: nat, c: nat)
    requires 0 < c <= a
    ensures a / c >= 1
  {
  }

  lemma DivMulAtMost(a: nat, c: nat)
    requires c > 0
    ensures c * (a / c) <= a
  {
  }

  /** Raising a larger base to the same power gives a larger result. */
  lemma {:induction false} PowBaseMonotone(a: nat, b: nat, e: nat)
    requires a <= b
    ensures Pow(a, e) <= Pow(b, e)
    decreases e
  {
    if e > 0 {
      PowBaseMonotone(a, b, e - 1);
      var pa, pb := Pow(a, e - 1), Pow(b, e - 1);
      MulMonotone(a, b, pa);
      MulMonotone(pa, pb, b);
      assert pa * b == b * pa;
    }
  }

  /** A power of a power multiplies the exponents. */
  lemma {:induction false} PowPow(b: nat, c: nat, n: nat)
    ensures Pow(Pow(b, c), n) == Pow(b, c * n)
    decreases n
  {
    if n > 0 {
      PowPow(b, c, n - 1);
      PowAdd(b, c, c * (n - 1));
      assert c * n == c + c * (n - 1);
    }
  }

  /** as_base_q: the unpadded base-q digits of x, over DigitsPerU128(q) positions.  The
      library asserts that x is below q^n; the model returns OutOfRange instead. */
  function AsBaseQ(x: nat, q: nat): (r: Result<seq<nat>>)
    requires 2 <= q < U16_LIMIT
    ensures r.Ok? <==> x < Pow(q, DigitsPerU128(q))
    ensures r.Ok? ==> |r.value| <= DigitsPerU128(q) && AllBelow(r.value, q)
    ensures r.Ok? ==> BaseQValue(r.value, q) == x
  {
    var n := DigitsPerU128(q);
    if x >= Pow(q, n) then Err(OutOfRange)
    else
      var ds := AsMixedRadix(x, Repeat(q, n));
      MixedValueUniform(ds, q, n);
      ProdRepeat(q, n);
      DivModUnique(x, Pow(q, n), 0, x);
      Ok(ds)
  }

  /** padded_base_q_128: padded_base_q over DigitsPerU128(q) positions. */
  function PaddedBaseQ128(x: nat, q: nat): (ds: seq<nat>)
    requires 2 <= q < U16_LIMIT
    ensures Pow(q, DigitsPerU128(q)) > 0
    ensures |ds| == DigitsPerU128(q) && AllBelow(ds, q)
    ensures BaseQValue(ds, q) == x % Pow(q, DigitsPerU128(q))
  {
    PaddedBaseQ(x, q, DigitsPerU128(q))
  }

  // ---------------------------------------------------------------------------
  // from_base_q

  /** from_base_q: Horner evaluation from the most significant digit down.  Each step
      multiplies the accumulator by q and adds the next digit; the library asserts
      when the multiplication leaves u128 (and the addition is checked arithmetic),
      which the model reports as Overflow. */
  function FromBaseQ(ds: seq<nat>, q: nat): (r: Result<nat>)
    requires AllBelow(ds, U16_LIMIT)
    ensures r.Ok? <==> BaseQValue(ds, q) < U128_LIMIT
    ensures r.Ok? ==> r.value == BaseQValue(ds, q)
    ensures r.Err? ==> r.error == Overflow
    decreases |ds|
  {
    if |ds| == 0 then Ok(0)
    else
      match FromBaseQ(ds[1..], q)
      case Err(e) =>
        OverflowPersists(ds, q);
        Err(e)
      case Ok(h) =>
        if h * q >= U128_LIMIT then Err(Overflow)
        else if h * q + ds[0] >= U128_LIMIT then Err(Overflow)
        else Ok(h * q + ds[0])
  }

  /** Once a suffix of u16 digits is out of u128 range, so is the whole vector. */
  lemma OverflowPersists(ds: seq<nat>, q: nat)
    requires |ds| > 0 && AllBelow(ds, U16_LIMIT)
    ensures BaseQValue(ds[1..], q) >= U128_LIMIT ==> BaseQValue(ds, q) >= U128_LIMIT
  {
    var v := BaseQValue(ds[1..], q);
    if q == 0 && |ds| > 1 {
      assert v == ds[1] + 0 * BaseQValue(ds[2..], q);
    } else if q > 0 {
      MulAtLeast(q, v);
    }
  }

  /** Padding then evaluating gives back any u128 value below q^n. */
  lemma FromPaddedBaseQ(x: nat, q: nat, n: nat)
    requires 0 < q < U16_LIMIT && x < Pow(q, n) && x < U128_LIMIT
    ensures FromBaseQ(PaddedBaseQ(x, q, n), q) == Ok(x)
  {
    DivModUnique(x, Pow(q, n), 0, x);
    AllBelowWeaken(PaddedBaseQ(x, q, n), q, U16_LIMIT);
  }

  /** The base_q_conversion round trip: as_base_q then from_base_q is the identity on
      the values as_base_q accepts. */
  lemma FromAsBaseQ(x: nat, q: nat)
    requires 2 <= q < U16_LIMIT && x < Pow(q, DigitsPerU128(q))
    ensures AsBaseQ(x, q).Ok? && FromBaseQ(AsBaseQ(x, q).value, q) == Ok(x)
  {
    AllBelowWeaken(AsBaseQ(x, q).value, q, U16_LIMIT);
  }

  /** The padded_base_q_conversion round trip; the 128-bit width never overflows, so
      evaluation gives back x reduced below q^n for every x. */
  lemma FromPaddedBaseQ128(x: nat, q: nat)
    requires 2 <= q < U16_LIMIT
    ensures FromBaseQ(PaddedBaseQ128(x, q), q) == Ok(x % Pow(q, DigitsPerU128(q)))
    ensures x < Pow(q, DigitsPerU128(q)) ==> FromBaseQ(PaddedBaseQ128(x, q), q) == Ok(x)
  {
    var n := DigitsPerU128(q);
    PowPositive(q, n);
    AllBelowWeaken(PaddedBaseQ128(x, q), q, U16_LIMIT);
    BaseQValueBound(PaddedBaseQ128(x, q), q);
    if x < Pow(q, n) {
      DivModUnique(x, Pow(q, n), 0, x);
    }
  }
}
