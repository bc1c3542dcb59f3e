/** The prime tables of src/numbers.rs and the routines built on them: factor,
    base_modulus_with_width / modulus_with_width(_skip2) and product. */
module Primes {
  import opened Errors
  import opened Arith
  import opened NumberTheory

  /** The number of entries in each table. */
  const NPRIMES: nat := 29

  /** The first 29 primes. */
  const PRIMES: seq<nat> := [
    2, 3, 5, 7, 11, 13, 17, 19, 23, 29, 31, 37, 41, 43, 47, 53, 59, 61, 67, 71,
    73, 79, 83, 89, 97, 101, 103, 107, 109
  ]

  /** The first 29 odd primes. */
  const PRIMES_SKIP_2: seq<nat> := [
    3, 5, 7, 11, 13, 17, 19, 23, 29, 31, 37, 41, 43, 47, 53, 59, 61, 67, 71,
    73, 79, 83, 89, 97, 101, 103, 107, 109, 113
  ]

  /** PRIMITIVE_ROOTS[i] generates the multiplicative group modulo PRIMES_SKIP_2[i]. */
  const PRIMITIVE_ROOTS: seq<nat> := [
    2, 2, 3, 2, 2, 3, 2, 5, 2, 3, 2, 6, 3, 5, 2, 2, 2, 2, 7, 5, 3, 2, 3, 5, 2,
    5, 2, 6, 3
  ]

  predicate IsPrime(n: nat)
  {
    n >= 2 && forall d :: 2 <= d < n ==> n % d != 0
  }

  predicate StrictlyIncreasing(ps: seq<nat>)
  {
    forall i, j :: 0 <= i < j < |ps| ==> ps[i] < ps[j]
  }

  // ---------------------------------------------------------------------------
  // The tables

  /** Below 121, a number with no factor among 2, 3, 5 and 7 (other than itself) is
      prime. */
  predicate SmallFactorFree(n: nat)
  {
    2 <= n < 121 && (n == 2 || n % 2 != 0) && (n == 3 || n % 3 != 0) &&
    (n == 5 || n % 5 != 0) && (n == 7 || n % 7 != 0)
  }

  lemma SmallPrime(n: nat)
    requires SmallFactorFree(n)
    ensures IsPrime(n)
  {
    forall d | 2 <= d < n
      ensures n % d != 0
    {
      if n % d == 0 {
        var f := SmallCofactor(n, d);
        SmallDivisorHasSmallPrime(n, f);
        assert false;
      }
    }
  }

  /** A proper divisor of n below 121 pairs with a cofactor, and the smaller of the two
      is at most 10. */
  lemma SmallCofactor(n: nat, d: nat) returns (f: nat)
    requires 2 <= d < n < 121 && n % d == 0
    ensures 2 <= f <= 10 && f < n && n % f == 0
  {
    var e := n / d;
    assert n == d * e by {
      DivExact(n, d);
    }
    assert e >= 2;
    if d <= e {
      f := d;
      SmallerOfPair(d, e, n);
    } else {
      f := e;
      assert e * d == n;
      SmallerOfPair(e, d, n);
      MulMod(e, d);
    }
  }

  /** The smaller of two factors of a number below 121 is at most 10. */
  lemma SmallerOfPair(a: nat, b: nat, n: nat)
    requires 1 <= a <= b && a * b == n < 121
    ensures a <= 10
  {
    if a >= 11 {
      MulMonotone(11, a, b);
    }
  }


  /** Every number from 2 to 10 is a multiple of 2, 3, 5 or 7, so a divisor f of n
      in that range passes one of them on to n. */
  lemma SmallDivisorHasSmallPrime(n: nat, f: nat)
    requires 2 <= f <= 10 && f < n && n % f == 0
    ensures (n % 2 == 0 && n != 2) || (n % 3 == 0 && n != 3) ||
            (n % 5 == 0 && n != 5) || (n % 7 == 0 && n != 7)
  {
    var g := if f % 2 == 0 then 2 else if f % 3 == 0 then 3 else if f % 5 == 0 then 5 else 7;
    assert f % g == 0 && g <= f;
    var k := n / f;
    assert n == k * f;
    MulOfMultiple(k, f, g);
  }

  /** The shape of the tables: 29 entries each, all prime, strictly increasing, and
      PRIMES_SKIP_2 is PRIMES without 2 and with the next prime, 113. */
  lemma Tables()
    ensures |PRIMES| == |PRIMES_SKIP_2| == |PRIMITIVE_ROOTS| == NPRIMES
    ensures forall i :: 0 <= i < |PRIMES| ==> IsPrime(PRIMES[i])
    ensures forall i :: 0 <= i < |PRIMES_SKIP_2| ==> IsPrime(PRIMES_SKIP_2[i])
    ensures StrictlyIncreasing(PRIMES) && StrictlyIncreasing(PRIMES_SKIP_2)
    ensures PRIMES_SKIP_2 == PRIMES[1..] + [113]
  {
    PrimesTable();
    Skip2Table();
    Skip2Shift();
  }

  /** One root per odd prime of PRIMES_SKIP_2, each a proper residue of at least 2. */
  lemma RootsTable()
    ensures |PRIMITIVE_ROOTS| == |PRIMES_SKIP_2| == NPRIMES
    ensures forall i :: 0 <= i < |PRIMITIVE_ROOTS| ==> 2 <= PRIMITIVE_ROOTS[i] < PRIMES_SKIP_2[i]
  {
  }

  lemma PrimesTable()
    ensures |PRIMES| == NPRIMES
    ensures forall i :: 0 <= i < |PRIMES| ==> IsPrime(PRIMES[i])
    ensures StrictlyIncreasing(PRIMES)
  {
    PrimesFactorFree();
    AllPrime(PRIMES);
    PrimesAdjacent();
    AdjacentIncreasing(PRIMES);
  }

  lemma PrimesFactorFree()
    ensures forall i :: 0 <= i < |PRIMES| ==> SmallFactorFree(PRIMES[i])
  {
  }

  lemma PrimesAdjacent()
    ensures forall i :: 0 <= i < |PRIMES| - 1 ==> PRIMES[i] < PRIMES[i + 1]
  {
  }

  lemma Skip2Table()
    ensures |PRIMES_SKIP_2| == |PRIMITIVE_ROOTS| == NPRIMES
    ensures forall i :: 0 <= i < |PRIMES_SKIP_2| ==> IsPrime(PRIMES_SKIP_2[i])
    ensures StrictlyIncreasing(PRIMES_SKIP_2)
  {
    Skip2FactorFree();
    AllPrime(PRIMES_SKIP_2);
    Skip2Adjacent();
    AdjacentIncreasing(PRIMES_SKIP_2);
  }

  lemma Skip2FactorFree()
    ensures forall i :: 0 <= i < |PRIMES_SKIP_2| ==> SmallFactorFree(PRIMES_SKIP_2[i])
  {
  }

  lemma Skip2Adjacent()
    ensures forall i :: 0 <= i < |PRIMES_SKIP_2| - 1 ==> PRIMES_SKIP_2[i] < PRIMES_SKIP_2[i + 1]
  {
  }

  lemma Skip2Shift()
    ensures PRIMES_SKIP_2 == PRIMES[1..] + [113]
  {
  }

  lemma AllPrime(ps: seq<nat>)
    requires forall i :: 0 <= i < |ps| ==> SmallFactorFree(ps[i])
    ensures forall i :: 0 <= i < |ps| ==> IsPrime(ps[i])
  {
    forall i | 0 <= i < |ps|
      ensures IsPrime(ps[i])
    {
      SmallPrime(ps[i]);
    }
  }

  lemma AdjacentIncreasing(ps: seq<nat>)
    requires forall i :: 0 <= i < |ps| - 1 ==> ps[i] < ps[i + 1]
    ensures StrictlyIncreasing(ps)
  {
    forall i, j | 0 <= i < j < |ps|
      ensures ps[i] < ps[j]
    {
      var k := i;
      while k < j
        invariant i <= k <= j && ps[i] <= ps[k]
        invariant k > i ==> ps[i] < ps[k]
      {
        k := k + 1;
      }
    }
  }

  lemma DivisorAtMost(g: nat, p: nat)
    requires g > 0 && p > 0 && p % g == 0
    ensures g <= p
  {
    var k := p / g;
    assert p == k * g;
    assert k != 0;
    MulAtLeast(k, g);
  }

  /** Distinct primes are coprime. */
  lemma DistinctPrimesCoprime(p: nat, q: nat)
    requires IsPrime(p) && IsPrime(q) && p != q
    ensures Gcd(p, q) == 1
  {
    var g := Gcd(p, q);
    if g == 0 {
      GcdZero(p, q);
    }
    GcdDivides(p, q);
    DivisorAtMost(g, p);
    DivisorAtMost(g, q);
  }

  /** Strictly increasing primes are pairwise coprime. */
  lemma IncreasingPrimesCoprime(ps: seq<nat>)
    requires StrictlyIncreasing(ps) && forall i :: 0 <= i < |ps| ==> IsPrime(ps[i])
    ensures PairwiseCoprime(ps) && AllPositive(ps)
  {
    forall i, j | 0 <= i < |ps| && 0 <= j < |ps| && i != j
      ensures Gcd(ps[i], ps[j]) == 1
    {
      DistinctPrimesCoprime(ps[i], ps[j]);
    }
  }

  // ---------------------------------------------------------------------------
  // factor

  /** fs is ps with some entries left out, in the same order. */
  predicate Subseq(fs: seq<nat>, ps: seq<nat>)
    decreases |ps|
  {
    if |fs| == 0 then true
    else if |ps| == 0 then false
    else (fs[0] == ps[0] && Subseq(fs[1..], ps[1..])) || Subseq(fs, ps[1..])
  }

  /** The entries of ps whose mask bit is set, in order. */
  function Pick(ps: seq<nat>, mask: seq<bool>): (fs: seq<nat>)
    requires |mask| == |ps|
    ensures Subseq(fs, ps)
    decreases |ps|
  {
    if |ps| == 0 then []
    else if mask[0] then [ps[0]] + Pick(ps[1..], mask[1..])
    else
      var fs := Pick(ps[1..], mask[1..]);
      PickLike(fs, ps);
      fs
  }

  /** Every entry of a subsequence is an entry of ps at or after its own position. */
  lemma {:induction false} SubseqIn(fs: seq<nat>, ps: seq<nat>)
    requires Subseq(fs, ps)
    ensures forall k :: 0 <= k < |fs| ==> exists j :: 0 <= j < |ps| && fs[k] == ps[j]
    decreases |ps|
  {
    if |fs| > 0 {
      if fs[0] == ps[0] && Subseq(fs[1..], ps[1..]) {
        SubseqIn(fs[1..], ps[1..]);
        forall k | 1 <= k < |fs|
          ensures exists j :: 0 <= j < |ps| && fs[k] == ps[j]
        {
          assert fs[k] == fs[1..][k - 1];
          var j :| 0 <= j < |ps| - 1 && fs[1..][k - 1] == ps[1..][j];
          assert fs[k] == ps[j + 1];
        }
        assert fs[0] == ps[0];
      } else {
        SubseqIn(fs, ps[1..]);
        forall k | 0 <= k < |fs|
          ensures exists j :: 0 <= j < |ps| && fs[k] == ps[j]
        {
          var j :| 0 <= j < |ps| - 1 && fs[k] == ps[1..][j];
          assert fs[k] == ps[j + 1];
        }
      }
    }
  }

  /** A subsequence of a strictly increasing sequence is strictly increasing. */
  lemma {:induction false} SubseqIncreasing(fs: seq<nat>, ps: seq<nat>)
    requires Subseq(fs, ps) && StrictlyIncreasing(ps)
    ensures StrictlyIncreasing(fs)
    decreases |ps|
  {
    if |fs| > 0 {
      if fs[0] == ps[0] && Subseq(fs[1..], ps[1..]) {
        SubseqIncreasing(fs[1..], ps[1..]);
        SubseqIn(fs[1..], ps[1..]);
        forall i, j | 0 <= i < j < |fs|
          ensures fs[i] < fs[j]
        {
          if i == 0 {
            var k :| 0 <= k < |ps| - 1 && fs[1..][j - 1] == ps[1..][k];
            assert fs[j] == ps[k + 1];
          } else {
            assert fs[i] == fs[1..][i - 1] && fs[j] == fs[1..][j - 1];
          }
        }
      } else {
        SubseqIncreasing(fs, ps[1..]);
      }
    }
  }

  /** The loop of factor over the prime list ps: divide once by every prime that divides
      what is left.  Returns the primes used and what is left over. */
  function FactorLoop(ps: seq<nat>, x: nat): (r: (seq<nat>, nat))
    requires AllPositive(ps)
    ensures x == Prod(r.0) * r.1
    ensures Subseq(r.0, ps)
    decreases |ps|
  {
    if |ps| == 0 then ([], x)
    else
      assert AllPositive(ps[1..]) by {
        forall i | 0 <= i < |ps| - 1
          ensures ps[1..][i] > 0
        {
          assert ps[1..][i] == ps[i + 1];
        }
      }
      var p := ps[0];
      if x % p == 0 then
        var r := FactorLoop(ps[1..], x / p);
        DividedOut(x, p, Prod(r.0), r.1);
        ProdCons(p, r.0);
        ([p] + r.0, r.1)
      else
        var r := FactorLoop(ps[1..], x);
        PickLike(r.0, ps);
        r
  }

  /** Dividing out p and factoring the quotient as a * b factors x as (p * a) * b. */
  lemma DividedOut(x: nat, p: nat, a: nat, b: nat)
    requires p > 0 && x % p == 0 && x / p == a * b
    ensures x == (p * a) * b
  {
    var y := x / p;
    assert x == p * y;
    MulAssoc(p, a, b);
  }

  lemma PickLike(fs: seq<nat>, ps: seq<nat>)
    requires |ps| > 0 && Subseq(fs, ps[1..])
    ensures Subseq(fs, ps)
  {
  }

  /** factor: the primes of the table that divide x, each divided out once; anything
      left over (a repeated prime, a prime outside the table, the value 0) is
      NonFactorable. */
  function Factor(x: nat): (r: Result<seq<nat>>)
    ensures r.Ok? ==> Prod(r.value) == x && Subseq(r.value, PRIMES)
    ensures r.Err? ==> r.error == NonFactorable
  {
    Tables();
    IncreasingPrimesCoprime(PRIMES);
    var (fs, rest) := FactorLoop(PRIMES, x);
    if rest != 1 then Err(NonFactorable) else Ok(fs)
  }

  /** Every entry of a picked subsequence of ps[1..] is coprime to ps[0]. */
  lemma PickTailCoprime(ps: seq<nat>, mask: seq<bool>)
    requires |mask| == |ps| > 0 && PairwiseCoprime(ps)
    ensures Gcd(Prod(Pick(ps[1..], mask[1..])), ps[0]) == 1
  {
    var fs := Pick(ps[1..], mask[1..]);
    SubseqIn(fs, ps[1..]);
    forall k | 0 <= k < |fs|
      ensures Gcd(fs[k], ps[0]) == 1
    {
      var j :| 0 <= j < |ps| - 1 && fs[k] == ps[1..][j];
      assert fs[k] == ps[j + 1];
    }
    CoprimeProd(fs, ps[0]);
  }

  /** On a product of picked primes, the loop finds exactly those primes and leaves 1. */
  lemma {:induction false} FactorLoopPick(ps: seq<nat>, mask: seq<bool>)
    requires |mask| == |ps| && AllPositive(ps) && PairwiseCoprime(ps)
    requires forall i :: 0 <= i < |ps| ==> ps[i] >= 2
    ensures FactorLoop(ps, Prod(Pick(ps, mask))) == (Pick(ps, mask), 1)
    decreases |ps|
  {
    if |ps| > 0 {
      var p, rest := ps[0], ps[1..];
      var tail := Pick(rest, mask[1..]);
      assert AllPositive(rest) && forall i :: 0 <= i < |rest| ==> rest[i] >= 2 by {
        forall i | 0 <= i < |rest|
          ensures rest[i] == ps[i + 1]
        {
        }
      }
      if |ps| > 1 {
        PairwiseCoprimeTail(ps);
      }
      FactorLoopPick(rest, mask[1..]);
      if mask[0] {
        PickedHead(ps, mask);
      } else {
        PickTailCoprime(ps, mask);
        CoprimeSymmetric(Prod(tail), p);
        CoprimeNotDivides(p, Prod(tail));
        assert Pick(ps, mask) == tail;
      }
    }
  }

  /** A picked head is divided out first, leaving the product of the rest. */
  lemma PickedHead(ps: seq<nat>, mask: seq<bool>)
    requires |mask| == |ps| > 0 && mask[0] && AllPositive(ps)
    requires FactorLoop(ps[1..], Prod(Pick(ps[1..], mask[1..]))) == (Pick(ps[1..], mask[1..]), 1)
    ensures FactorLoop(ps, Prod(Pick(ps, mask))) == (Pick(ps, mask), 1)
  {
    var p, tail := ps[0], Pick(ps[1..], mask[1..]);
    var t := Prod(tail);
    assert Pick(ps, mask) == [p] + tail;
    ProdCons(p, tail);
    var x := p * t;
    ExactDiv(p, t);
    assert FactorLoop(ps, x) == ([p] + FactorLoop(ps[1..], t).0, FactorLoop(ps[1..], t).1);
  }

  /** The factoring test's law: on a product of distinct table primes, factor returns
      exactly those primes in ascending order. */
  lemma FactorPick(mask: seq<bool>)
    requires |mask| == |PRIMES|
    ensures Factor(Prod(Pick(PRIMES, mask))) == Ok(Pick(PRIMES, mask))
  {
    Tables();
    IncreasingPrimesCoprime(PRIMES);
    FactorLoopPick(PRIMES, mask);
  }

  /** factor(1) is the empty list. */
  lemma FactorOne()
    ensures Factor(1) == Ok([])
  {
    var none := seq(|PRIMES|, _ => false);
    NothingPicked(PRIMES, none);
    FactorPick(none);
  }

  lemma {:induction false} NothingPicked(ps: seq<nat>, mask: seq<bool>)
    requires |mask| == |ps| && forall i :: 0 <= i < |mask| ==> !mask[i]
    ensures Pick(ps, mask) == []
    decreases |ps|
  {
    if |ps| > 0 {
      assert forall i :: 0 <= i < |mask| - 1 ==> mask[1..][i] == mask[i + 1];
      NothingPicked(ps[1..], mask[1..]);
    }
  }

  /** What factor returns is a list of distinct table primes. */
  lemma FactorResultPrimes(x: nat)
    requires Factor(x).Ok?
    ensures StrictlyIncreasing(Factor(x).value)
    ensures forall k :: 0 <= k < |Factor(x).value| ==> IsPrime(Factor(x).value[k])
  {
    var fs := Factor(x).value;
    Tables();
    SubseqIncreasing(fs, PRIMES);
    SubseqIn(fs, PRIMES);
    forall k | 0 <= k < |fs|
      ensures IsPrime(fs[k])
    {
      var j :| 0 <= j < |PRIMES| && fs[k] == PRIMES[j];
    }
  }

  /** 0 is not factorable. */
  lemma FactorZero()
    ensures Factor(0).Err?
  {
    if Factor(0).Ok? {
      FactorResultPrimes(0);
      ProdPositive(Factor(0).value);
    }
  }

  /** A product of primes different from the prime r is not a multiple of r. */
  lemma ForeignPrimeNotDividing(r: nat, fs: seq<nat>)
    requires IsPrime(r) && forall k :: 0 <= k < |fs| ==> IsPrime(fs[k]) && fs[k] != r
    ensures Prod(fs) % r != 0
  {
    forall k | 0 <= k < |fs|
      ensures Gcd(fs[k], r) == 1
    {
      DistinctPrimesCoprime(fs[k], r);
    }
    CoprimeProd(fs, r);
    CoprimeSymmetric(Prod(fs), r);
    CoprimeNotDivides(r, Prod(fs));
  }

  /** A multiple of a prime outside the table is not factorable. */
  lemma FactorForeignPrime(r: nat, k: nat)
    requires IsPrime(r) && r !in PRIMES
    ensures Factor(r * k).Err?
  {
    var n := r * k;
    assert n % r == 0 by {
      MulMod(r, k);
    }
    if Factor(n).Ok? {
      var fs := Factor(n).value;
      FactorResultPrimes(n);
      NotInSubseq(fs, PRIMES, r);
      ForeignPrimeNotDividing(r, fs);
    }
  }

  /** A value missing from ps is missing from every subsequence of ps. */
  lemma NotInSubseq(fs: seq<nat>, ps: seq<nat>, r: nat)
    requires Subseq(fs, ps) && r !in ps
    ensures forall k :: 0 <= k < |fs| ==> fs[k] != r
  {
    SubseqIn(fs, ps);
  }


  /** A product of distinct primes is square-free. */
  lemma SquareFree(fs: seq<nat>, p: nat)
    requires StrictlyIncreasing(fs) && forall k :: 0 <= k < |fs| ==> IsPrime(fs[k])
    requires IsPrime(p)
    ensures Prod(fs) % (p * p) != 0
  {
    if j :| 0 <= j < |fs| && fs[j] == p {
      var others := fs[..j] + fs[j + 1..];
      ProdWithout(fs, j);
      forall m | 0 <= m < |others|
        ensures IsPrime(others[m]) && others[m] != p
      {
        if m < j {
          assert others[m] == fs[m];
        } else {
          assert others[m] == fs[m + 1];
        }
      }
      ForeignPrimeNotDividing(p, others);
      OnceNotTwice(Prod(fs), Prod(others), p);
    } else {
      ForeignPrimeNotDividing(p, fs);
      NotOnceNotTwice(Prod(fs), p);
    }
  }

  /** p * m with m not a multiple of p is not a multiple of p * p. */
  lemma OnceNotTwice(n: nat, m: nat, p: nat)
    requires p > 0 && n == p * m && m % p != 0
    ensures n % (p * p) != 0
  {
    if n % (p * p) == 0 {
      var t := n / (p * p);
      assert n == p * (p * t) by {
        assert n == t * (p * p);
      }
      CancelMul(p, m, p * t);
      MulMod(p, t);
    }
  }

  /** A number that is not a multiple of p is not a multiple of p * p. */
  lemma NotOnceNotTwice(n: nat, p: nat)
    requires p > 0 && n % p != 0
    ensures n % (p * p) != 0
  {
    if n % (p * p) == 0 {
      var t := n / (p * p);
      assert n == p * (p * t) by {
        assert n == t * (p * p);
      }
      MulMod(p, p * t);
    }
  }

  lemma CancelMul(p: nat, a: nat, b: nat)
    requires p > 0 && p * a == p * b
    ensures a == b
  {
    if a < b {
      assert p * (b - a) == p * b - p * a;
      MulAtLeast(p, b - a);
    } else if a > b {
      assert p * (a - b) == p * a - p * b;
      MulAtLeast(p, a - b);
    }
  }

  /** A multiple of the square of a table prime is not factorable: factor divides by
      each prime once. */
  lemma FactorSquare(p: nat, n: nat)
    requires p in PRIMES && n % (p * p) == 0
    ensures Factor(n).Err?
  {
    if Factor(n).Ok? {
      var fs := Factor(n).value;
      FactorResultPrimes(n);
      Tables();
      SquareFree(fs, p);
    }
  }

  // ---------------------------------------------------------------------------
  // base_modulus_with_width and product

  /** Prefix k of ps is the first whose product reaches 2^nbits. */
  predicate ShortestReaching(ps: seq<nat>, nbits: nat, k: nat)
  {
    1 <= k <= |ps| && Prod(ps[..k]) >= Pow(2, nbits) &&
    forall j :: 1 <= j < k ==> Prod(ps[..j]) < Pow(2, nbits)
  }

  /** Some prefix reaches 2^nbits exactly when a shortest one does. */
  lemma ShortestReachingExists(ps: seq<nat>, nbits: nat, j: nat) returns (k: nat)
    requires 1 <= j <= |ps| && Prod(ps[..j]) >= Pow(2, nbits)
    ensures ShortestReaching(ps, nbits, k) && k <= j
    decreases j
  {
    if i :| 1 <= i < j && Prod(ps[..i]) >= Pow(2, nbits) {
      k := ShortestReachingExists(ps, nbits, i);
    } else {
      k := j;
    }
  }

  /** The loop of base_modulus_with_width: multiply in ps[i], stop once the product
      shifted right by nbits is non-zero, fail when ps runs out.  The multiplication is
      checked u128 arithmetic. */
  function WidthLoop(nbits: nat, ps: seq<nat>, i: nat, acc: nat): (r: Result<nat>)
    requires nbits < 128 && i < |ps| && acc == Prod(ps[..i])
    requires forall j :: 1 <= j <= i ==> Prod(ps[..j]) < Pow(2, nbits)
    ensures forall k: nat :: ShortestReaching(ps, nbits, k) ==>
      r == if Prod(ps[..k]) < U128_LIMIT then Ok(Prod(ps[..k])) else Err(Overflow)
    ensures (forall j :: 1 <= j <= |ps| ==> Prod(ps[..j]) < Pow(2, nbits)) ==> r == Err(Exhausted)
    decreases |ps| - i
  {
    ProdPrefixStep(ps, i);
    PowMonotone(2, nbits, 128);
    Pow2To128();
    var res := acc * ps[i];
    if res >= U128_LIMIT then
      assert ShortestReaching(ps, nbits, i + 1);
      Err(Overflow)
    else if res >= Pow(2, nbits) then
      assert ShortestReaching(ps, nbits, i + 1);
      Ok(res)
    else if i + 1 >= |ps| then Err(Exhausted)
    else WidthLoop(nbits, ps, i + 1, res)
  }

  /** base_modulus_with_width: the product of the shortest prefix of ps reaching
      2^nbits, or Overflow if that product leaves u128; Exhausted when no prefix reaches
      it (including an empty list, whose first entry is read unconditionally).  A shift
      by 128 or more aborts in the library, hence nbits < 128. */
  function BaseModulusWithWidth(nbits: nat, ps: seq<nat>): (r: Result<nat>)
    requires nbits < 128
    ensures forall k: nat :: ShortestReaching(ps, nbits, k) ==>
      r == if Prod(ps[..k]) < U128_LIMIT then Ok(Prod(ps[..k])) else Err(Overflow)
    ensures (forall j :: 1 <= j <= |ps| ==> Prod(ps[..j]) < Pow(2, nbits)) ==> r == Err(Exhausted)
  {
    if |ps| == 0 then Err(Exhausted)
    else
      assert ps[..0] == [];
      WidthLoop(nbits, ps, 0, 1)
  }

  /** modulus_with_width over PRIMES. */
  function ModulusWithWidth(nbits: nat): (r: Result<nat>)
    requires nbits < 128
    ensures forall k: nat :: ShortestReaching(PRIMES, nbits, k) ==>
      r == if Prod(PRIMES[..k]) < U128_LIMIT then Ok(Prod(PRIMES[..k])) else Err(Overflow)
    ensures (forall j :: 1 <= j <= |PRIMES| ==> Prod(PRIMES[..j]) < Pow(2, nbits)) ==>
      r == Err(Exhausted)
  {
    BaseModulusWithWidth(nbits, PRIMES)
  }

  /** modulus_with_width_skip2 over PRIMES_SKIP_2. */
  function ModulusWithWidthSkip2(nbits: nat): (r: Result<nat>)
    requires nbits < 128
    ensures forall k: nat :: ShortestReaching(PRIMES_SKIP_2, nbits, k) ==>
      r == if Prod(PRIMES_SKIP_2[..k]) < U128_LIMIT then Ok(Prod(PRIMES_SKIP_2[..k])) else Err(Overflow)
    ensures (forall j :: 1 <= j <= |PRIMES_SKIP_2| ==> Prod(PRIMES_SKIP_2[..j]) < Pow(2, nbits)) ==>
      r == Err(Exhausted)
  {
    BaseModulusWithWidth(nbits, PRIMES_SKIP_2)
  }

  /** The fold of product: acc * x from the left, in checked u128 arithmetic. */
  function ProductLoop(xs: seq<nat>, i: nat, acc: nat): (r: Result<nat>)
    requires i <= |xs| && acc == Prod(xs[..i])
    requires forall j :: 0 <= j <= i ==> Prod(xs[..j]) < U128_LIMIT
    ensures r.Ok? <==> forall j :: 0 <= j <= |xs| ==> Prod(xs[..j]) < U128_LIMIT
    ensures r.Ok? ==> r.value == Prod(xs)
    ensures r.Err? ==> r.error == Overflow
    decreases |xs| - i
  {
    if i == |xs| then
      assert xs[..i] == xs;
      Ok(acc)
    else
      ProdPrefixStep(xs, i);
      if acc * xs[i] >= U128_LIMIT then Err(Overflow)
      else ProductLoop(xs, i + 1, acc * xs[i])
  }

  /** product: the product of xs, or Overflow if a partial product leaves u128. */
  function Product(xs: seq<nat>): (r: Result<nat>)
    ensures r.Ok? <==> forall j :: 0 <= j <= |xs| ==> Prod(xs[..j]) < U128_LIMIT
    ensures r.Ok? ==> r.value == Prod(xs)
    ensures r.Err? ==> r.error == Overflow
  {
    assert xs[..0] == [];
    ProductLoop(xs, 0, 1)
  }

  /** For positive factors the partial products only grow, so product succeeds exactly
      when the full product fits in u128. */
  lemma ProductPositive(xs: seq<nat>)
    requires AllPositive(xs)
    ensures Product(xs).Ok? <==> Prod(xs) < U128_LIMIT
  {
    assert xs[..|xs|] == xs;
    forall j | 0 <= j <= |xs|
      ensures Prod(xs[..j]) <= Prod(xs)
    {
      ProdPrefixMonotone(xs, j, |xs|);
    }
  }
}
