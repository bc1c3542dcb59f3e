/** Greatest common divisors, Bezout coefficients and the coprimality facts behind
    the Chinese Remainder Theorem. */
module NumberTheory {
  import opened Arith

  /** Greatest common divisor by Euclid's recurrence (Gcd(0, 0) == 0). */
  function Gcd(a: nat, b: nat): nat
    decreases b
  {
    if b == 0 then a else Gcd(b, a % b)
  }

  /** No two distinct positions of ps share a factor. */
  predicate PairwiseCoprime(ps: seq<nat>)
  {
    forall i, j :: 0 <= i < |ps| && 0 <= j < |ps| && i != j ==> Gcd(ps[i], ps[j]) == 1
  }

  /** Coefficients (s, t) with s * a + t * b == Gcd(a, b). */
  ghost function Bezout(a: nat, b: nat): (st: (int, int))
    ensures st.0 * a + st.1 * b == Gcd(a, b)
    decreases b
  {
    if b == 0 then (1, 0)
    else
      var st := Bezout(b, a % b);
      var q := a / b;
      assert a % b == a - q * b;
      assert st.1 * (a - q * b) == st.1 * a - (q * st.1) * b;
      (st.1, st.0 - q * st.1)
  }

  lemma {:induction false} GcdZero(a: nat, b: nat)
    requires Gcd(a, b) == 0
    ensures a == 0 && b == 0
    decreases b
  {
    if b != 0 {
      GcdZero(b, a % b);
    }
  }

  /** The gcd divides both arguments. */
  lemma {:induction false} GcdDivides(a: nat, b: nat)
    requires Gcd(a, b) > 0
    ensures a % Gcd(a, b) == 0 && b % Gcd(a, b) == 0
    decreases b
  {
    var g := Gcd(a, b);
    if b == 0 {
      MulMod(a, 1);
    } else {
      GcdDivides(b, a % b);
      assert a == (a / b) * b + a % b;
      MulOfMultiple(a / b, b, g);
      SumOfMultiples((a / b) * b, a % b, g);
    }
  }

  /** A common divisor of a and b divides every integer combination of them. */
  lemma CombinationDivisible(a: int, b: int, s: int, t: int, d: int)
    requires d > 0 && a % d == 0 && b % d == 0
    ensures (s * a + t * b) % d == 0
  {
    MulOfMultiple(s, a, d);
    MulOfMultiple(t, b, d);
    SumOfMultiples(s * a, t * b, d);
  }

  /** Two numbers with a combination equal to 1 are coprime. */
  lemma CoprimeFromBezout(a: nat, b: nat, s: int, t: int)
    requires s * a + t * b == 1
    ensures Gcd(a, b) == 1
  {
    var g := Gcd(a, b);
    if g == 0 {
      GcdZero(a, b);
    } else {
      GcdDivides(a, b);
      CombinationDivisible(a, b, s, t, g);
      assert 1 % g == 0;
    }
  }

  lemma CoprimeSymmetric(a: nat, b: nat)
    requires Gcd(a, b) == 1
    ensures Gcd(b, a) == 1
  {
    var st := Bezout(a, b);
    CoprimeFromBezout(b, a, st.1, st.0);
  }

  /** A product of two numbers coprime to c is coprime to c. */
  lemma CoprimeMul(a: nat, b: nat, c: nat)
    requires Gcd(a, c) == 1 && Gcd(b, c) == 1
    ensures Gcd(a * b, c) == 1
  {
    var st1 := Bezout(a, c);
    var st2 := Bezout(b, c);
    var s1, t1, s2, t2 := st1.0, st1.1, st2.0, st2.1;
    var u, v := s1 * a, s2 * b;
    ProductOfUnits(u, v, t1, t2, c);
    assert u * v == (s1 * s2) * (a * b);
    CoprimeFromBezout(a * b, c, s1 * s2, t1 + t2 - t1 * t2 * c);
  }

  /** (1 - x c)(1 - y c) is 1 plus a multiple of c. */
  lemma ProductOfUnits(u: int, v: int, x: int, y: int, c: int)
    requires u + x * c == 1 && v + y * c == 1
    ensures u * v + (x + y - x * y * c) * c == 1
  {
    assert u == 1 - x * c && v == 1 - y * c;
    assert u * v == (1 - x * c) * (1 - y * c);
  }

  /** A product of numbers each coprime to c is coprime to c. */
  lemma {:induction false} CoprimeProd(xs: seq<nat>, c: nat)
    requires forall i :: 0 <= i < |xs| ==> Gcd(xs[i], c) == 1
    ensures Gcd(Prod(xs), c) == 1
    decreases |xs|
  {
    if |xs| == 0 {
      CoprimeFromBezout(1, c, 1, 0);
    } else {
      CoprimeProd(xs[1..], c);
      CoprimeMul(xs[0], Prod(xs[1..]), c);
    }
  }

  /** If coprime a and b both divide n, so does a * b. */
  lemma CoprimeDivides(a: nat, b: nat, n: int)
    requires a > 0 && b > 0 && Gcd(a, b) == 1
    requires n % a == 0 && n % b == 0
    ensures n % (a * b) == 0
  {
    var st := Bezout(a, b);
    var s, t := st.0, st.1;
    var k, l := n / a, n / b;
    DivExact(n, a);
    DivExact(n, b);
    CombinationOfMultiples(a, b, s, t, k, l, n);
    DivModUnique(n, a * b, s * l + t * k, 0);
  }

  /** With s a + t b == 1 and n == a k == b l: n == (s l + t k)(a b). */
  lemma CombinationOfMultiples(a: int, b: int, s: int, t: int, k: int, l: int, n: int)
    requires s * a + t * b == 1 && n == a * k && n == b * l
    ensures n == (s * l + t * k) * (a * b)
  {
    calc {
      n;
      (s * a + t * b) * n;
      s * a * n + t * b * n;
      s * a * (b * l) + t * b * (a * k);
      (s * l + t * k) * (a * b);
    }
  }

  /** A number above 1 does not divide anything it is coprime to. */
  lemma CoprimeNotDivides(p: nat, n: nat)
    requires p >= 2 && Gcd(p, n) == 1
    ensures n % p != 0
  {
    if n % p == 0 {
      var st := Bezout(p, n);
      MulMod(p, 1);
      CombinationDivisible(p, n, st.0, st.1, p);
      assert false;
    }
  }

  /** Dropping the head keeps a sequence pairwise coprime. */
  lemma PairwiseCoprimeTail(ps: seq<nat>)
    requires |ps| > 0 && PairwiseCoprime(ps)
    ensures PairwiseCoprime(ps[1..])
  {
    forall i, j | 0 <= i < |ps| - 1 && 0 <= j < |ps| - 1 && i != j
      ensures Gcd(ps[1..][i], ps[1..][j]) == 1
    {
      assert ps[1..][i] == ps[i + 1] && ps[1..][j] == ps[j + 1];
    }
  }

  /** The head of a pairwise coprime sequence is coprime to the product of the rest. */
  lemma HeadCoprimeToRest(ps: seq<nat>)
    requires |ps| > 0 && PairwiseCoprime(ps)
    ensures Gcd(ps[0], Prod(ps[1..])) == 1
  {
    forall i | 0 <= i < |ps| - 1
      ensures Gcd(ps[1..][i], ps[0]) == 1
    {
      assert ps[1..][i] == ps[i + 1];
    }
    CoprimeProd(ps[1..], ps[0]);
    CoprimeSymmetric(Prod(ps[1..]), ps[0]);
  }

  /** A multiple of every member of a pairwise coprime sequence is a multiple of the product. */
  lemma {:induction false} ProdDividesCommonMultiple(ps: seq<nat>, n: int)
    requires AllPositive(ps) && PairwiseCoprime(ps)
    requires forall j :: 0 <= j < |ps| ==> n % ps[j] == 0
    ensures Prod(ps) > 0
    ensures n % Prod(ps) == 0
    decreases |ps|
  {
    ProdPositive(ps);
    if |ps| > 0 {
      PairwiseCoprimeTail(ps);
      forall j | 0 <= j < |ps| - 1
        ensures n % ps[1..][j] == 0
      {
        assert ps[1..][j] == ps[j + 1];
      }
      ProdDividesCommonMultiple(ps[1..], n);
      HeadCoprimeToRest(ps);
      ProdPositive(ps[1..]);
      CoprimeDivides(ps[0], Prod(ps[1..]), n);
    }
  }

  /** Uniqueness half of the Chinese Remainder Theorem: below the product of pairwise
      coprime moduli, a value is determined by its residues. */
  lemma CrtUnique(ps: seq<nat>, x: nat, y: nat)
    requires AllPositive(ps) && PairwiseCoprime(ps)
    requires x < Prod(ps) && y < Prod(ps)
    requires forall j :: 0 <= j < |ps| ==> x % ps[j] == y % ps[j]
    ensures x == y
  {
    forall j | 0 <= j < |ps|
      ensures (x - y) % ps[j] == 0
    {
      CongruentIffDiffMultiple(x, y, ps[j]);
    }
    ProdDividesCommonMultiple(ps, x - y);
    var m := Prod(ps);
    var d := x - y;
    assert d == (d / m) * m;
    if d / m >= 1 {
      MulAtLeast(d / m, m);
    } else if d / m <= -1 {
      MulAtLeast(-(d / m), m);
    }
  }
}
