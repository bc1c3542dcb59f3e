/** base_q_add_eq and base_q_add: schoolbook addition of little-endian base-q digit
    vectors, with the carry dropped past the end of the longer operand. */
module CarryAdd {
  import opened Errors
  import opened Arith

  /** The u16 additions of base_q_add_eq cannot overflow: every position of ys may
      receive its digit plus a carry, every later position of xs a carry. */
  predicate NoDigitOverflow(xs: seq<nat>, ys: seq<nat>)
    requires |ys| <= |xs|
  {
    (forall i :: 0 <= i < |ys| ==> xs[i] + ys[i] + 1 < U16_LIMIT) &&
    (forall i :: |ys| <= i < |xs| ==> xs[i] + 1 < U16_LIMIT)
  }

  /** One digit step of the adder: digit d with carry out cOut stands for the digit
      sum s plus carry in cIn, at place value p. */
  lemma CarryStep(z: int, d: int, cOut: int, cIn: int, s: int, q: int, p: int)
    requires d + q * cOut == s + cIn
    ensures z + d * p + cOut * (q * p) == (z + cIn * p) + s * p
  {
    assert cOut * (q * p) == (q * cOut) * p;
    assert d * p + (q * cOut) * p == (d + q * cOut) * p;
  }

  /** A value split at position i. */
  lemma ValueSplit(ds: seq<nat>, i: nat, q: nat)
    requires i <= |ds|
    ensures BaseQValue(ds, q) == BaseQValue(ds[..i], q) + Pow(q, i) * BaseQValue(ds[i..], q)
  {
    assert ds == ds[..i] + ds[i..];
    BaseQValueAppend(ds[..i], ds[i..], q);
  }

  /** One position of either loop: writing digit d with carry out cOut at position i,
      where d + q * cOut is the old digit plus s plus the carry in, keeps the running
      equation between the processed prefix and the operands. */
  lemma PrefixStep(zs: seq<nat>, xs: seq<nat>, i: nat, q: nat, c: nat, d: nat, cOut: nat,
                   s: nat, a: int, a': int)
    requires i < |zs| == |xs| && zs[i..] == xs[i..]
    requires BaseQValue(zs[..i], q) + c * Pow(q, i) == BaseQValue(xs[..i], q) + a
    requires d + q * cOut == xs[i] + s + c
    requires a' == a + s * Pow(q, i)
    ensures zs[i := d][..i] == zs[..i] && zs[i := d][i + 1..] == xs[i + 1..]
    ensures BaseQValue(zs[i := d][..i + 1], q) + cOut * Pow(q, i + 1) ==
            BaseQValue(xs[..i + 1], q) + a'
  {
    var zs' := zs[i := d];
    assert zs'[..i] == zs[..i];
    assert zs'[i + 1..] == zs[i + 1..];
    assert zs[i] == xs[i];
    BaseQValuePrefixStep(zs', i, q);
    BaseQValuePrefixStep(xs, i, q);
    CarryStep(BaseQValue(zs[..i], q), d, cOut, c, xs[i] + s, q, Pow(q, i));
  }

  /** After the loops: the untouched suffix is xs's own, so the whole value is the sum
      less the dropped carry, which for digits below q is the sum modulo q^|xs|. */
  lemma Finish(zs: seq<nat>, xs: seq<nat>, ys: seq<nat>, i: nat, q: nat, c: nat)
    requires i <= |zs| == |xs| && zs[i..] == xs[i..] && c <= 1 && (c == 1 ==> i == |xs|)
    requires BaseQValue(zs[..i], q) + c * Pow(q, i) == BaseQValue(xs[..i], q) + BaseQValue(ys, q)
    requires q > 0 && AllBelow(xs, q) && AllBelow(ys, q)
    requires forall j :: 0 <= j < i ==> zs[j] < q
    ensures BaseQValue(zs, q) + c * Pow(q, |xs|) == BaseQValue(xs, q) + BaseQValue(ys, q)
    ensures Pow(q, |xs|) > 0 && AllBelow(zs, q)
    ensures BaseQValue(zs, q) == (BaseQValue(xs, q) + BaseQValue(ys, q)) % Pow(q, |xs|)
  {
    var vz, vx, vy, n := BaseQValue(zs, q), BaseQValue(xs, q), BaseQValue(ys, q), Pow(q, |xs|);
    assert vz + c * n == vx + vy by {
      ValueSplit(zs, i, q);
      ValueSplit(xs, i, q);
      assert c * Pow(q, i) == c * n by {
        if c == 1 {
          assert i == |xs|;
        }
      }
    }
    assert AllBelow(zs, q) by {
      forall j | i <= j < |zs|
        ensures zs[j] < q
      {
        assert zs[j] == zs[i..][j - i] == xs[j];
      }
    }
    assert 0 < n by {
      PowPositive(q, |xs|);
    }
    assert vz < n by {
      BaseQValueBound(zs, q);
    }
    SumModulo(zs, xs, ys, q, c);
  }

  /** The value left after dropping the carry is the sum modulo q^|xs|. */
  lemma SumModulo(zs: seq<nat>, xs: seq<nat>, ys: seq<nat>, q: nat, c: nat)
    requires 0 <= BaseQValue(zs, q) < Pow(q, |xs|)
    requires BaseQValue(zs, q) + c * Pow(q, |xs|) == BaseQValue(xs, q) + BaseQValue(ys, q)
    ensures BaseQValue(zs, q) == (BaseQValue(xs, q) + BaseQValue(ys, q)) % Pow(q, |xs|)
  {
    DivModUnique(BaseQValue(xs, q) + BaseQValue(ys, q), Pow(q, |xs|), c, BaseQValue(zs, q));
  }


  /** The first loop of base_q_add_eq: adds ys into the first |ys| digits of xs,
      subtracting q and carrying 1 whenever a digit reaches q. */
  method AddDigits(xs: seq<nat>, ys: seq<nat>, q: nat) returns (zs: seq<nat>, c: nat)
    requires |ys| <= |xs|
    requires NoDigitOverflow(xs, ys)
    ensures |zs| == |xs| && c <= 1 && zs[|ys|..] == xs[|ys|..]
    ensures BaseQValue(zs[..|ys|], q) + c * Pow(q, |ys|) ==
            BaseQValue(xs[..|ys|], q) + BaseQValue(ys, q)
    ensures q > 0 && AllBelow(xs, q) && AllBelow(ys, q) ==>
      forall j :: 0 <= j < |ys| ==> zs[j] < q
  {
    var proper := q > 0 && AllBelow(xs, q) && AllBelow(ys, q);
    zs := xs;
    c := 0;
    var i := 0;
    assert ys[..0] == [] && xs[..0] == [];
    while i < |ys|
      invariant i <= |ys| && |zs| == |xs| && c <= 1
      invariant zs[i..] == xs[i..]
      invariant BaseQValue(zs[..i], q) + c * Pow(q, i) ==
                BaseQValue(xs[..i], q) + BaseQValue(ys[..i], q)
      invariant proper ==> forall j :: 0 <= j < i ==> zs[j] < q
    {
      assert zs[i] == xs[i];
      var d := zs[i] + ys[i] + c;
      var cOut: nat := 0;
      if d >= q {
        d := d - q;
        cOut := 1;
      }
      BaseQValuePrefixStep(ys, i, q);
      PrefixStep(zs, xs, i, q, c, d, cOut, ys[i], BaseQValue(ys[..i], q), BaseQValue(ys[..i + 1], q));
      zs := zs[i := d];
      c := cOut;
      i := i + 1;
    }
    assert ys[..i] == ys;
  }

  /** The second loop of base_q_add_eq: from position |ys| on, keeps adding the carry
      until a digit absorbs it or xs ends.  A digit that reaches q drops by q and the
      carry stays; the loop stops at the first digit that stays below q. */
  method CarryOn(zs0: seq<nat>, xs: seq<nat>, ys: seq<nat>, q: nat, c0: nat)
      returns (zs: seq<nat>, i: nat, c: nat)
    requires |ys| <= |xs| && |zs0| == |xs| && c0 <= 1 && zs0[|ys|..] == xs[|ys|..]
    requires forall j :: |ys| <= j < |xs| ==> xs[j] + 1 < U16_LIMIT
    requires q > 0 && AllBelow(xs, q) && AllBelow(ys, q) ==>
      BaseQValue(zs0[..|ys|], q) + c0 * Pow(q, |ys|) ==
        BaseQValue(xs[..|ys|], q) + BaseQValue(ys, q) &&
      forall j :: 0 <= j < |ys| ==> zs0[j] < q
    ensures |ys| <= i <= |zs| == |xs| && c <= 1 && (c == 1 ==> i == |xs|)
    ensures zs[i..] == xs[i..]
    ensures q > 0 && AllBelow(xs, q) && AllBelow(ys, q) ==>
      BaseQValue(zs[..i], q) + c * Pow(q, i) == BaseQValue(xs[..i], q) + BaseQValue(ys, q) &&
      forall j :: 0 <= j < i ==> zs[j] < q
  {
    var proper := q > 0 && AllBelow(xs, q) && AllBelow(ys, q);
    zs, i, c := zs0, |ys|, c0;
    while i < |zs|
      invariant |ys| <= i <= |zs| && |zs| == |xs| && c <= 1
      invariant zs[i..] == xs[i..]
      invariant proper ==> BaseQValue(zs[..i], q) + c * Pow(q, i) ==
                           BaseQValue(xs[..i], q) + BaseQValue(ys, q)
      invariant proper ==> forall j :: 0 <= j < i ==> zs[j] < q
    {
      assert zs[i] == xs[i];
      var d := zs[i] + c;
      if d >= q {
        if proper {
          PrefixStep(zs, xs, i, q, c, d - q, 1, 0, BaseQValue(ys, q), BaseQValue(ys, q));
        }
        zs := zs[i := d - q];
        assert zs[i + 1..] == xs[i + 1..];
      } else {
        if proper {
          PrefixStep(zs, xs, i, q, c, d, 0, 0, BaseQValue(ys, q), BaseQValue(ys, q));
        }
        zs := zs[i := d];
        c := 0;
        i := i + 1;
        return;
      }
      i := i + 1;
    }
  }

  /** base_q_add_eq on a copy of xs: adds ys into xs digit by digit, then keeps carrying
      into the rest of xs until a digit absorbs the carry or xs ends.  An operand ys
      longer than xs fails the library's length assertion (in a release build, the
      read of xs[i] past its end), reported as LengthMismatch.  When every digit is
      below q the result is the sum modulo q^|xs| (a final carry is dropped).  The
      library does not check the digits; for other digits the second loop subtracts q
      without carrying, and nothing is promised beyond the length. */
  method BaseQAddEq(xs: seq<nat>, ys: seq<nat>, q: nat) returns (r: Result<seq<nat>>)
    requires |ys| <= |xs| ==> NoDigitOverflow(xs, ys)
    ensures r.Err? <==> |ys| > |xs|
    ensures r.Err? ==> r.error == LengthMismatch
    ensures r.Ok? ==> |r.value| == |xs|
    ensures r.Ok? && q > 0 && AllBelow(xs, q) && AllBelow(ys, q) ==>
      Pow(q, |xs|) > 0 && AllBelow(r.value, q) &&
      BaseQValue(r.value, q) == (BaseQValue(xs, q) + BaseQValue(ys, q)) % Pow(q, |xs|)
  {
    if |ys| > |xs| {
      return Err(LengthMismatch);
    }
    var zs0, c0 := AddDigits(xs, ys, q);
    var zs, i, c := CarryOn(zs0, xs, ys, q, c0);
    if q > 0 && AllBelow(xs, q) && AllBelow(ys, q) {
      Finish(zs, xs, ys, i, q, c);
    }
    r := Ok(zs);
  }

  /** base_q_add: copies the longer operand and adds the shorter one into it, so the
      length assertion of base_q_add_eq always holds. */
  method BaseQAdd(xs: seq<nat>, ys: seq<nat>, q: nat) returns (zs: seq<nat>)
    requires |ys| <= |xs| ==> NoDigitOverflow(xs, ys)
    requires |ys| > |xs| ==> NoDigitOverflow(ys, xs)
    ensures |zs| == if |xs| >= |ys| then |xs| else |ys|
    ensures q > 0 && AllBelow(xs, q) && AllBelow(ys, q) ==>
      Pow(q, |zs|) > 0 && AllBelow(zs, q) &&
      BaseQValue(zs, q) == (BaseQValue(xs, q) + BaseQValue(ys, q)) % Pow(q, |zs|)
    decreases if |ys| > |xs| then 1 else 0
  {
    if |ys| > |xs| {
      zs := BaseQAdd(ys, xs, q);
      return;
    }
    var r := BaseQAddEq(xs, ys, q);
    zs := r.value;
  }

  /** The length assertion: a two-digit operand cannot be added into one digit. */
  method LongerOperand() returns (r: Result<seq<nat>>)
    ensures r == Err(LengthMismatch)
  {
    r := BaseQAddEq([1], [1, 1], 5);
  }

  /** Adding 4 to 3 in base 5 on one-digit operands gives [2]: the carry out of the
      only position is dropped, not appended. */
  method DroppedCarry() returns (zs: seq<nat>)
    ensures zs == [2]
  {
    zs := BaseQAdd([3], [4], 5);
    assert BaseQValue([3], 5) == 3 && BaseQValue([4], 5) == 4;
    assert BaseQValue(zs, 5) == 2;
    assert zs[0] < 5 && BaseQValue(zs, 5) == zs[0] + 5 * BaseQValue(zs[1..], 5);
  }
}
