/** crt / crt_inv: residue encoding of a value against a list of moduli, and its
    reconstruction by the Chinese Remainder Theorem. */
module Crt {
  import opened Errors
  import opened Arith
  import opened NumberTheory
  import opened ModInverse

  /** crt: the residue of x modulo each modulus. */
  function Crt(ps: seq<nat>, x: nat): (rs: seq<nat>)
    requires AllPositive(ps)
    ensures |rs| == |ps|
    ensures forall i :: 0 <= i < |ps| ==> rs[i] < ps[i] && rs[i] == x % ps[i]
    decreases |ps|
  {
    if |ps| == 0 then []
    else
      assert forall i :: 1 <= i < |ps| ==> ps[1..][i - 1] == ps[i];
      [x % ps[0]] + Crt(ps[1..], x)
  }

  /** M / ps[i] is the product of the other moduli, so every other modulus divides it. */
  lemma QuotientDivisible(ps: seq<nat>, i: nat, j: nat)
    requires AllPositive(ps) && i < |ps| && j < |ps| && i != j
    ensures (Prod(ps) / ps[i]) % ps[j] == 0
  {
    var rest := ps[..i] + ps[i + 1..];
    ProdWithout(ps, i);
    DivModUnique(Prod(ps), ps[i], Prod(rest), 0);
    if j < i {
      assert rest[j] == ps[j];
      ProdDivisible(rest, j);
    } else {
      assert rest[j - 1] == ps[j];
      ProdDivisible(rest, j - 1);
    }
  }

  /** For pairwise coprime moduli, each modulus is coprime to the product of the others,
      so inv_ref(M / p, p) is defined. */
  lemma QuotientCoprime(ps: seq<nat>, i: nat)
    requires AllPositive(ps) && PairwiseCoprime(ps) && i < |ps|
    ensures Gcd(Prod(ps) / ps[i], ps[i]) == 1
  {
    var rest := ps[..i] + ps[i + 1..];
    ProdWithout(ps, i);
    DivModUnique(Prod(ps), ps[i], Prod(rest), 0);
    forall k | 0 <= k < |rest|
      ensures Gcd(rest[k], ps[i]) == 1
    {
      if k < i {
        assert rest[k] == ps[k];
      } else {
        assert rest[k] == ps[k + 1];
      }
    }
    CoprimeProd(rest, ps[i]);
  }

  /** The residue target of position j: the given residue, or 0 past the end of xs
      (zip stops at the shorter list). */
  function Target(xs: seq<nat>, j: nat): nat
  {
    if j < |xs| then xs[j] else 0
  }

  /** What crt_inv needs of inv_ref: each M / p is invertible modulo its p. */
  predicate Invertible(ps: seq<nat>, xs: seq<nat>)
    requires AllPositive(ps)
  {
    ProdPositive(ps);
    forall i :: 0 <= i < |ps| && i < |xs| ==> Gcd(Prod(ps) / ps[i], ps[i]) == 1
  }

  /** One term a * inv_ref(M / p, p) * (M / p) is congruent to a modulo p. */
  lemma TermResidue(a: nat, q: nat, p: nat)
    requires p >= 1 && Gcd(q, p) == 1
    ensures (a * InvRef(q, p).value * q) % p == a % p
  {
    var v := InvRef(q, p).value;
    if p == 1 {
      DivModUnique(a * v * q, 1, a * v * q, 0);
      DivModUnique(a, 1, a, 0);
    } else {
      var w := q * v;
      assert w % p == 1;
      Rearrange(a, v, q);
      assert a * v * q == (v * q) * a;
      assert v * q == w;
      ModMul(w, a, p);
      assert (w % p) * a == a;
    }
  }

  /** The loop of crt_inv, one call per position: add a * inv_ref(M / p, p) * (M / p)
      and reduce modulo M.  Positions before i carry their residue, later ones 0. */
  function CrtInvLoop(ps: seq<nat>, xs: seq<nat>, m: nat, i: nat, ret: nat): (r: nat)
    requires AllPositive(ps) && m == Prod(ps) && m > 0 && Invertible(ps, xs)
    requires i <= |ps| && ret < m
    requires forall j :: 0 <= j < |ps| ==> ret % ps[j] == (if j < i then Target(xs, j) else 0) % ps[j]
    ensures r < m
    ensures forall j :: 0 <= j < |ps| ==> r % ps[j] == Target(xs, j) % ps[j]
    decreases |ps| - i
  {
    if i >= |ps| || i >= |xs| then
      assert forall j :: i <= j < |ps| ==> Target(xs, j) == 0;
      ret
    else
      CrtInvNext(ps, xs, i, ret);
      var q := m / ps[i];
      CrtInvLoop(ps, xs, m, i + 1, (ret + xs[i] * InvRef(q, ps[i]).value * q) % m)
  }

  /** After adding position i's term every residue up to i is in place. */
  lemma CrtInvNext(ps: seq<nat>, xs: seq<nat>, i: nat, ret: nat)
    requires AllPositive(ps) && Prod(ps) > 0 && Invertible(ps, xs)
    requires i < |ps| && i < |xs|
    requires forall j :: 0 <= j < |ps| ==> ret % ps[j] == (if j < i then Target(xs, j) else 0) % ps[j]
    ensures InvRef(Prod(ps) / ps[i], ps[i]).Some?
    ensures var q := Prod(ps) / ps[i];
      forall j :: 0 <= j < |ps| ==>
        ((ret + xs[i] * InvRef(q, ps[i]).value * q) % Prod(ps)) % ps[j] ==
        (if j < i + 1 then Target(xs, j) else 0) % ps[j]
  {
    var q := Prod(ps) / ps[i];
    assert Gcd(q, ps[i]) == 1;
    var v := InvRef(q, ps[i]).value;
    forall j | 0 <= j < |ps|
      ensures ((ret + xs[i] * v * q) % Prod(ps)) % ps[j] ==
        (if j < i + 1 then Target(xs, j) else 0) % ps[j]
    {
      CrtInvStep(ps, xs, i, ret, j, q, v);
    }
  }

  /** Adding position i's term fixes the residue at i and leaves the others alone. */
  lemma CrtInvStep(ps: seq<nat>, xs: seq<nat>, i: nat, ret: nat, j: nat, q: nat, v: int)
    requires AllPositive(ps) && Prod(ps) > 0
    requires i < |ps| && i < |xs| && j < |ps|
    requires q == Prod(ps) / ps[i] && Gcd(q, ps[i]) == 1 && v == InvRef(q, ps[i]).value
    requires ret % ps[j] == (if j < i then Target(xs, j) else 0) % ps[j]
    ensures ((ret + xs[i] * v * q) % Prod(ps)) % ps[j] ==
      (if j < i + 1 then Target(xs, j) else 0) % ps[j]
  {
    var m, p := Prod(ps), ps[i];
    var t := xs[i] * v * q;
    ProdDivisible(ps, j);
    ModOfModMultiple(ret + t, m, ps[j]);
    ModAdd(ret, t, ps[j]);
    if j == i {
      TermResidue(xs[i], q, p);
      ModAdd(0, xs[i], ps[j]);
    } else {
      QuotientDivisible(ps, i, j);
      MulOfMultiple(xs[i] * v, q, ps[j]);
      ModAdd(ret, 0, ps[j]);
    }
  }

  /** The BigInt value crt_inv computes: below the product of the moduli and with the
      given residues. */
  function CrtInvValue(ps: seq<nat>, xs: seq<nat>): (r: nat)
    requires AllPositive(ps) && Invertible(ps, xs)
    ensures r < Prod(ps)
    ensures forall j :: 0 <= j < |ps| && j < |xs| ==> r % ps[j] == xs[j] % ps[j]
    ensures forall j :: |xs| <= j < |ps| ==> r % ps[j] == 0
  {
    ProdPositive(ps);
    forall j | 0 <= j < |ps|
      ensures 0 % ps[j] == 0
    {
      DivModUnique(0, ps[j], 0, 0);
    }
    var r := CrtInvLoop(ps, xs, Prod(ps), 0, 0);
    assert forall j :: 0 <= j < |ps| ==> r % ps[j] == Target(xs, j) % ps[j];
    forall j | |xs| <= j < |ps|
      ensures r % ps[j] == 0
    {
      assert Target(xs, j) == 0;
    }
    r
  }

  /** crt_inv: the reconstruction, converted to u128 (the library unwraps the
      conversion, which aborts on a value of 2^128 or more). */
  function CrtInv(ps: seq<nat>, xs: seq<nat>): (r: Result<nat>)
    requires AllPositive(ps) && Invertible(ps, xs)
    ensures r.Ok? <==> CrtInvValue(ps, xs) < U128_LIMIT
    ensures Prod(ps) <= U128_LIMIT ==> r.Ok?
    ensures r.Ok? ==> r.value == CrtInvValue(ps, xs)
    ensures r.Err? ==> r.error == Overflow
  {
    var v := CrtInvValue(ps, xs);
    if v < U128_LIMIT then Ok(v) else Err(Overflow)
  }

  /** Pairwise coprime moduli make every quotient invertible. */
  lemma PairwiseCoprimeInvertible(ps: seq<nat>, xs: seq<nat>)
    requires AllPositive(ps) && PairwiseCoprime(ps)
    ensures Invertible(ps, xs)
  {
    forall i | 0 <= i < |ps| && i < |xs|
      ensures Gcd(Prod(ps) / ps[i], ps[i]) == 1
    {
      QuotientCoprime(ps, i);
    }
  }

  /** The crt_conversion round trip: for pairwise coprime moduli, a u128 value below
      their product is recovered from its residues. */
  lemma CrtRoundTrip(ps: seq<nat>, x: nat)
    requires AllPositive(ps) && PairwiseCoprime(ps)
    requires x < Prod(ps) && x < U128_LIMIT
    ensures Invertible(ps, Crt(ps, x))
    ensures CrtInv(ps, Crt(ps, x)) == Ok(x)
  {
    var rs := Crt(ps, x);
    PairwiseCoprimeInvertible(ps, rs);
    var v := CrtInvValue(ps, rs);
    forall j | 0 <= j < |ps|
      ensures v % ps[j] == x % ps[j]
    {
      DivModUnique(rs[j], ps[j], 0, rs[j]);
    }
    CrtUnique(ps, v, x);
  }

  /** The other direction: residues below their moduli are recovered by crt from the
      reconstructed value. */
  lemma CrtOfCrtInv(ps: seq<nat>, xs: seq<nat>)
    requires AllPositive(ps) && PairwiseCoprime(ps)
    requires |xs| == |ps| && forall i :: 0 <= i < |ps| ==> xs[i] < ps[i]
    ensures Invertible(ps, xs)
    ensures Crt(ps, CrtInvValue(ps, xs)) == xs
  {
    PairwiseCoprimeInvertible(ps, xs);
    var v := CrtInvValue(ps, xs);
    forall j | 0 <= j < |ps|
      ensures Crt(ps, v)[j] == xs[j]
    {
      DivModUnique(xs[j], ps[j], 0, xs[j]);
    }
  }
}
