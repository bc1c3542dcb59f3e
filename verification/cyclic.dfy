/** Discrete-logarithm and exponent tables for a prime modulus, as abstract laws: what
    follows from an exponent table that steps by a fixed root and a logarithm table
    that undoes it.  The counting argument (an injective map between two sets of the
    same size is onto) turns the one-way law "dl[ex[k]] == k" into the two-way one. */
module CyclicTables {
  import opened Arith

  /** The laws a discrete-logarithm table dl and an exponent table ex for modulus p
      and root g satisfy: ex starts at 1, steps by one multiplication by g and wraps
      back to 1 at position p - 1, and dl takes each exponent below p - 1 back to its
      position (dl[0] is the placeholder 0). */
  predicate TableLaws(dl: seq<nat>, ex: seq<nat>, g: nat, p: nat)
  {
    p >= 2 && |dl| == p && |ex| == p && ex[0] == 1 && ex[p - 1] == 1 && dl[0] == 0 &&
    (forall k :: 0 <= k < p - 1 ==> ex[k + 1] == (ex[k] * g) % p) &&
    (forall k :: 0 <= k < p - 1 ==> ex[k] < p && dl[ex[k]] == k)
  }

  // ---------------------------------------------------------------------------
  // Counting

  /** The values ex[0], ..., ex[n - 1]. */
  function Image(ex: seq<nat>, n: nat): set<nat>
    requires n <= |ex|
  {
    if n == 0 then {} else Image(ex, n - 1) + {ex[n - 1]}
  }

  /** The numbers lo, ..., hi - 1. */
  function Interval(lo: nat, hi: nat): set<nat>
    decreases hi
  {
    if hi <= lo then {} else Interval(lo, hi - 1) + {hi - 1}
  }

  lemma {:induction false} ImageMembers(ex: seq<nat>, n: nat, x: nat)
    requires n <= |ex|
    ensures x in Image(ex, n) <==> exists k :: 0 <= k < n && ex[k] == x
    decreases n
  {
    if n > 0 {
      ImageMembers(ex, n - 1, x);
    }
  }

  lemma {:induction false} IntervalMembers(lo: nat, hi: nat, x: nat)
    ensures x in Interval(lo, hi) <==> lo <= x < hi
    decreases hi
  {
    if hi > lo {
      IntervalMembers(lo, hi - 1, x);
    }
  }

  lemma {:induction false} IntervalSize(lo: nat, hi: nat)
    requires lo <= hi
    ensures |Interval(lo, hi)| == hi - lo
    decreases hi
  {
    if hi > lo {
      IntervalSize(lo, hi - 1);
      IntervalMembers(lo, hi - 1, hi - 1);
    }
  }

  /** n distinct values make a set of n elements. */
  lemma {:induction false} ImageSize(ex: seq<nat>, n: nat)
    requires n <= |ex|
    requires forall j, k :: 0 <= j < k < n ==> ex[j] != ex[k]
    ensures |Image(ex, n)| == n
    decreases n
  {
    if n > 0 {
      ImageSize(ex, n - 1);
      ImageMembers(ex, n - 1, ex[n - 1]);
    }
  }

  /** A subset as large as its superset is the whole superset. */
  lemma SubsetSameSize(a: set<nat>, b: set<nat>)
    requires a <= b && |a| == |b|
    ensures a == b
  {
    assert a * b == a;
    assert |b - a| == 0;
    assert b - a == {};
  }

  // ---------------------------------------------------------------------------
  // The laws

  /** The exponent table lists the powers of the root. */
  lemma {:induction false} ExpPower(dl: seq<nat>, ex: seq<nat>, g: nat, p: nat, k: nat)
    requires TableLaws(dl, ex, g, p) && k < p
    ensures ex[k] == Pow(g, k) % p
    decreases k
  {
    if k > 0 {
      ExpPower(dl, ex, g, p, k - 1);
      var t := Pow(g, k - 1);
      assert ex[k] == (ex[k - 1] * g) % p;
      ModMul(t, g, p);
      assert Pow(g, k) == t * g;
    }
  }

  /** The first p - 1 exponents are units: none is 0 and none reaches p. */
  lemma ExpUnit(dl: seq<nat>, ex: seq<nat>, g: nat, p: nat, k: nat)
    requires TableLaws(dl, ex, g, p) && k < p - 1
    ensures 1 <= ex[k] < p
  {
  }

  /** The first p - 1 exponents are distinct. */
  lemma ExpInjective(dl: seq<nat>, ex: seq<nat>, g: nat, p: nat)
    requires TableLaws(dl, ex, g, p)
    ensures forall j, k :: 0 <= j < k < p - 1 ==> ex[j] != ex[k]
  {
    forall j, k | 0 <= j < k < p - 1
      ensures ex[j] != ex[k]
    {
      assert dl[ex[j]] == j && dl[ex[k]] == k;
    }
  }

  /** The first p - 1 exponents are exactly the units 1, ..., p - 1. */
  lemma ExpImage(dl: seq<nat>, ex: seq<nat>, g: nat, p: nat)
    requires TableLaws(dl, ex, g, p)
    ensures Image(ex, p - 1) == Interval(1, p)
  {
    ExpInjective(dl, ex, g, p);
    ImageSize(ex, p - 1);
    IntervalSize(1, p);
    forall x | x in Image(ex, p - 1)
      ensures x in Interval(1, p)
    {
      ImageMembers(ex, p - 1, x);
      var k :| 0 <= k < p - 1 && ex[k] == x;
      ExpUnit(dl, ex, g, p, k);
      IntervalMembers(1, p, x);
    }
    SubsetSameSize(Image(ex, p - 1), Interval(1, p));
  }

  /** Every unit is one of the first p - 1 exponents. */
  lemma ExpOnto(dl: seq<nat>, ex: seq<nat>, g: nat, p: nat, x: nat)
    requires TableLaws(dl, ex, g, p) && 1 <= x < p
    ensures exists k :: 0 <= k < p - 1 && ex[k] == x
  {
    ExpImage(dl, ex, g, p);
    IntervalMembers(1, p, x);
    ImageMembers(ex, p - 1, x);
  }

  /** The logarithm of a unit is an exponent below p - 1 that gives the unit back. */
  lemma DlogInverse(dl: seq<nat>, ex: seq<nat>, g: nat, p: nat, x: nat)
    requires TableLaws(dl, ex, g, p) && 1 <= x < p
    ensures dl[x] < p - 1 && ex[dl[x]] == x
  {
    ExpOnto(dl, ex, g, p, x);
    var k :| 0 <= k < p - 1 && ex[k] == x;
    assert dl[x] == k;
  }

  /** For a unit x and an exponent k below p - 1, the tables agree both ways. */
  lemma DlogIff(dl: seq<nat>, ex: seq<nat>, g: nat, p: nat, x: nat, k: nat)
    requires TableLaws(dl, ex, g, p) && 1 <= x < p && k < p - 1
    ensures dl[x] == k <==> ex[k] == x
  {
    DlogInverse(dl, ex, g, p, x);
  }

  /** g is a primitive root: every unit is a power g^k with k below p - 1, g^(p-1) is 1
      and no smaller positive power is. */
  lemma PrimitiveRoot(dl: seq<nat>, ex: seq<nat>, g: nat, p: nat)
    requires TableLaws(dl, ex, g, p)
    ensures forall x :: 1 <= x < p ==> Pow(g, dl[x]) % p == x
    ensures Pow(g, p - 1) % p == 1
    ensures forall k :: 0 < k < p - 1 ==> Pow(g, k) % p != 1
  {
    forall x | 1 <= x < p
      ensures Pow(g, dl[x]) % p == x
    {
      DlogInverse(dl, ex, g, p, x);
      ExpPower(dl, ex, g, p, dl[x]);
    }
    ExpPower(dl, ex, g, p, p - 1);
    ExpInjective(dl, ex, g, p);
    forall k | 0 < k < p - 1
      ensures Pow(g, k) % p != 1
    {
      ExpPower(dl, ex, g, p, k);
    }
  }
}
