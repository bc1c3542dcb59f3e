/** Reference arithmetic shared by the encodings: powers, products, little-endian
    positional values and the modular facts the proofs lean on. */
module Arith {

  /** b to the power e. */
  function Pow(b: nat, e: nat): nat
    decreases e
  {
    if e == 0 then 1 else b * Pow(b, e - 1)
  }

  /** The number of values an unsigned 128-bit integer can hold. */
  const U128_LIMIT: nat := 0x1_0000_0000_0000_0000_0000_0000_0000_0000

  /** The number of values an unsigned 16-bit integer can hold. */
  const U16_LIMIT: nat := 0x1_0000

  /** The product of a sequence (1 for the empty sequence). */
  function Prod(xs: seq<nat>): nat
    decreases |xs|
  {
    if |xs| == 0 then 1 else xs[0] * Prod(xs[1..])
  }

  /** n copies of q: the modulus sequence of a uniform base. */
  function Repeat(q: nat, n: nat): (r: seq<nat>)
    ensures |r| == n
    ensures forall i :: 0 <= i < n ==> r[i] == q
    decreases n
  {
    if n == 0 then [] else [q] + Repeat(q, n - 1)
  }

  /** The value of a little-endian digit vector in the uniform base q. */
  function BaseQValue(ds: seq<nat>, q: nat): nat
    decreases |ds|
  {
    if |ds| == 0 then 0 else ds[0] + q * BaseQValue(ds[1..], q)
  }

  /** Every entry of ds is below q. */
  predicate AllBelow(ds: seq<nat>, q: nat)
  {
    forall i :: 0 <= i < |ds| ==> ds[i] < q
  }

  /** Every entry of ds is positive. */
  predicate AllPositive(ds: seq<nat>)
  {
    forall i :: 0 <= i < |ds| ==> ds[i] > 0
  }

  // ---------------------------------------------------------------------------
  // Powers and products

  lemma {:induction false} PowPositive(b: nat, e: nat)
    requires b > 0
    ensures Pow(b, e) > 0
    decreases e
  {
    if e > 0 {
      PowPositive(b, e - 1);
    }
  }

  lemma {:induction false} PowAdd(b: nat, e1: nat, e2: nat)
    ensures Pow(b, e1 + e2) == Pow(b, e1) * Pow(b, e2)
    decreases e1
  {
    if e1 > 0 {
      PowAdd(b, e1 - 1, e2);
      assert Pow(b, e1 + e2) == b * Pow(b, e1 - 1 + e2);
    }
  }

  lemma {:induction false} PowMonotone(b: nat, e1: nat, e2: nat)
    requires b > 0 && e1 <= e2
    ensures Pow(b, e1) <= Pow(b, e2)
  {
    PowAdd(b, e1, e2 - e1);
    PowPositive(b, e2 - e1);
    MulAtLeast(Pow(b, e2 - e1), Pow(b, e1));
  }

  lemma {:induction false} PowSquare(x: nat, k: nat)
    ensures Pow(x * x, k) == Pow(x, 2 * k)
    decreases k
  {
    if k > 0 {
      PowSquare(x, k - 1);
      PowAdd(x, 2, 2 * (k - 1));
      assert Pow(x, 2) == x * x;
    }
  }

  /** 2^16 is the u16 range. */
  lemma Pow2To16()
    ensures Pow(2, 16) == U16_LIMIT
  {
    PowSquare(2, 8);
    PowSquare(4, 4);
    PowSquare(16, 2);
  }

  /** 2^128 is the u128 range. */
  lemma Pow2To128()
    ensures Pow(2, 128) == U128_LIMIT
  {
    PowSquare(2, 64);
    PowSquare(4, 32);
    PowSquare(16, 16);
    PowSquare(256, 8);
    PowSquare(0x1_0000, 4);
    PowSquare(0x1_0000_0000, 2);
    PowSquare(0x1_0000_0000_0000_0000, 1);
    assert Pow(0x1_0000_0000_0000_0000_0000_0000_0000_0000, 1) == U128_LIMIT;
  }

  lemma {:induction false} ProdRepeat(q: nat, n: nat)
    ensures Prod(Repeat(q, n)) == Pow(q, n)
    decreases n
  {
    if n > 0 {
      ProdRepeat(q, n - 1);
      assert Repeat(q, n)[1..] == Repeat(q, n - 1);
    }
  }

  lemma {:induction false} ProdPositive(xs: seq<nat>)
    requires AllPositive(xs)
    ensures Prod(xs) > 0
    decreases |xs|
  {
    if |xs| > 0 {
      ProdPositive(xs[1..]);
    }
  }

  lemma {:induction false} ProdAppend(xs: seq<nat>, ys: seq<nat>)
    ensures Prod(xs + ys) == Prod(xs) * Prod(ys)
    decreases |xs|
  {
    if |xs| > 0 {
      ProdAppend(xs[1..], ys);
      assert (xs + ys)[1..] == xs[1..] + ys;
      assert (xs + ys)[0] == xs[0];
      assert Prod(xs + ys) == xs[0] * Prod(xs[1..] + ys);
      MulAssoc(xs[0], Prod(xs[1..]), Prod(ys));
    } else {
      assert xs + ys == ys;
    }
  }

  /** Putting p in front multiplies the product by p. */
  lemma ProdCons(p: nat, xs: seq<nat>)
    ensures Prod([p] + xs) == p * Prod(xs)
  {
    assert ([p] + xs)[1..] == xs;
  }

  /** Extending a prefix by one element multiplies the product by that element. */
  lemma ProdPrefixStep(xs: seq<nat>, k: nat)
    requires k < |xs|
    ensures Prod(xs[..k + 1]) == Prod(xs[..k]) * xs[k]
  {
    assert xs[..k + 1] == xs[..k] + [xs[k]];
    ProdAppend(xs[..k], [xs[k]]);
  }

  /** A prefix product of positive factors never exceeds a longer prefix product. */
  lemma {:induction false} ProdPrefixMonotone(xs: seq<nat>, j: nat, k: nat)
    requires AllPositive(xs) && j <= k <= |xs|
    ensures Prod(xs[..j]) <= Prod(xs[..k])
    decreases k - j
  {
    if j < k {
      ProdPrefixMonotone(xs, j, k - 1);
      ProdPrefixStep(xs, k - 1);
      var a, x := Prod(xs[..k - 1]), xs[k - 1];
      assert x >= 1;
      MulAtLeast(x, a);
      assert a * x == x * a;
    }
  }

  /** Every factor divides the product. */
  lemma {:induction false} ProdDivisible(xs: seq<nat>, j: nat)
    requires j < |xs| && xs[j] > 0
    ensures Prod(xs) % xs[j] == 0
    decreases |xs|
  {
    if j == 0 {
      MulMod(xs[0], Prod(xs[1..]));
    } else {
      ProdDivisible(xs[1..], j - 1);
      MulOfMultiple(xs[0], Prod(xs[1..]), xs[j]);
    }
  }

  // ---------------------------------------------------------------------------
  // Division and remainder

  /** Removing one entry divides the product by it. */
  lemma ProdWithout(ps: seq<nat>, i: nat)
    requires i < |ps|
    ensures Prod(ps) == ps[i] * Prod(ps[..i] + ps[i + 1..])
  {
    var left, right := ps[..i], ps[i + 1..];
    var l, x, r := Prod(left), ps[i], Prod(right);
    assert Prod(ps) == l * (x * r) by {
      assert ps == left + ([ps[i]] + right);
      ProdAppend(left, [ps[i]] + right);
      assert ([ps[i]] + right)[1..] == right;
    }
    assert Prod(left + right) == l * r by {
      ProdAppend(left, right);
    }
    Rearrange(l, x, r);
  }

  lemma Rearrange(a: int, p: int, b: int)
    ensures a * (p * b) == p * (a * b) && a * p * b == (p * b) * a
  {
  }

  lemma MulAtLeast(d: int, n: int)
    requires d >= 1 && n >= 0
    ensures d * n >= n
  {
    assert d * n == n + (d - 1) * n;
  }

  lemma DivExact(n: int, d: int)
    requires d > 0 && n % d == 0
    ensures n == d * (n / d)
  {
  }

  lemma MulMonotone(x: nat, y: nat, z: nat)
    requires x <= y
    ensures x * z <= y * z
  {
    assert y * z == x * z + (y - x) * z;
  }

  lemma Distribute(a: int, b: int, c: int)
    ensures a * (b + c) == a * b + a * c
  {
  }

  lemma MulAssoc(a: int, b: int, c: int)
    ensures a * (b * c) == (a * b) * c
  {
  }

  /** Division with remainder is unique. */
  lemma DivModUnique(x: int, n: int, q: int, r: int)
    requires n > 0 && 0 <= r < n && x == q * n + r
    ensures x / n == q && x % n == r
  {
    var q0, r0 := x / n, x % n;
    assert x == q0 * n + r0;
    if q0 > q {
      var d := q0 - q;
      assert d * n == q0 * n - q * n;
      assert d * n == r - r0;
      MulAtLeast(d, n);
      assert false;
    } else if q0 < q {
      var d := q - q0;
      assert d * n == q * n - q0 * n;
      assert d * n == r0 - r;
      MulAtLeast(d, n);
      assert false;
    }
  }

  /** Dividing p * t by p gives t exactly. */
  lemma ExactDiv(p: nat, t: nat)
    requires p > 0
    ensures (p * t) / p == t && (p * t) % p == 0
  {
    DivModUnique(p * t, p, t, 0);
  }

  lemma MulMod(a: nat, b: nat)
    requires a > 0
    ensures (a * b) % a == 0 && (b * a) % a == 0
  {
    DivModUnique(a * b, a, b, 0);
  }

  /** A multiple of a multiple of n is a multiple of n. */
  lemma MulOfMultiple(a: int, b: int, n: int)
    requires n > 0 && b % n == 0
    ensures (a * b) % n == 0
  {
    var k := b / n;
    assert b == k * n;
    assert a * b == (a * k) * n;
    DivModUnique(a * b, n, a * k, 0);
  }

  /** Sums and differences of multiples of n are multiples of n. */
  lemma SumOfMultiples(a: int, b: int, n: int)
    requires n > 0 && a % n == 0 && b % n == 0
    ensures (a + b) % n == 0 && (a - b) % n == 0
  {
    var ka, kb := a / n, b / n;
    assert a == ka * n && b == kb * n;
    DivModUnique(a + b, n, ka + kb, 0);
    DivModUnique(a - b, n, ka - kb, 0);
  }

  /** Two integers are congruent modulo n exactly when their difference is a multiple of n. */
  lemma CongruentIffDiffMultiple(a: int, b: int, n: int)
    requires n > 0
    ensures a % n == b % n <==> (a - b) % n == 0
  {
    var qa, ra := a / n, a % n;
    var qb, rb := b / n, b % n;
    assert a == qa * n + ra && b == qb * n + rb;
    if ra == rb {
      DivModUnique(a - b, n, qa - qb, 0);
    } else {
      if ra > rb {
        DivModUnique(a - b, n, qa - qb, ra - rb);
      } else {
        DivModUnique(a - b, n, qa - qb - 1, n + ra - rb);
      }
    }
  }

  /** Adding a multiple of n does not change the remainder. */
  lemma ModAddMultiple(a: int, k: int, n: int)
    requires n > 0
    ensures (a + k * n) % n == a % n
  {
    DivModUnique(a + k * n, n, a / n + k, a % n);
  }

  /** Remainders may be taken before adding. */
  lemma ModAdd(a: int, b: int, n: int)
    requires n > 0
    ensures (a + b) % n == (a % n + b % n) % n
  {
    ModAddMultiple(a % n + b % n, a / n + b / n, n);
    assert a % n + b % n + (a / n + b / n) * n == a + b;
  }

  /** Remainders may be taken before multiplying. */
  lemma ModMul(a: int, b: int, n: int)
    requires n > 0
    ensures (a * b) % n == ((a % n) * b) % n
  {
    var q := a / n;
    assert a == q * n + a % n;
    assert a * b == (a % n) * b + (q * b) * n;
    ModAddMultiple((a % n) * b, q * b, n);
  }

  /** Reducing modulo a multiple of n first does not change the remainder modulo n. */
  lemma ModOfModMultiple(a: int, m: int, n: int)
    requires n > 0 && m > 0 && m % n == 0
    ensures (a % m) % n == a % n
  {
    var k := m / n;
    assert m == k * n;
    assert a == (a % m) + (a / m) * m;
    assert (a / m) * m == ((a / m) * k) * n;
    ModAddMultiple(a % m, (a / m) * k, n);
  }

  /** Splitting the remainder modulo m * p into a digit below m and a remainder modulo p. */
  lemma ModSplit(x: nat, m: nat, p: nat)
    requires m > 0 && p > 0
    ensures x % (m * p) == x % m + m * ((x / m) % p)
  {
    var d, y := x % m, x / m;
    assert x == y * m + d;
    assert y == (y / p) * p + y % p;
    assert x == (y / p) * (m * p) + (d + m * (y % p));
    assert m * (y % p) <= m * (p - 1);
    DivModUnique(x, m * p, y / p, d + m * (y % p));
  }

  /** Dividing twice is dividing by the product. */
  lemma DivDiv(x: nat, a: nat, b: nat)
    requires a > 0 && b > 0
    ensures x / a / b == x / (a * b)
  {
    var y := x / a;
    assert x == y * a + x % a;
    assert y == (y / b) * b + y % b;
    assert x == (y / b) * (a * b) + (a * (y % b) + x % a);
    assert a * (y % b) <= a * (b - 1);
    DivModUnique(x, a * b, y / b, a * (y % b) + x % a);
  }

  // ---------------------------------------------------------------------------
  // Positional values

  lemma {:induction false} BaseQValueAppend(xs: seq<nat>, ys: seq<nat>, q: nat)
    ensures BaseQValue(xs + ys, q) == BaseQValue(xs, q) + Pow(q, |xs|) * BaseQValue(ys, q)
    decreases |xs|
  {
    if |xs| > 0 {
      BaseQValueAppend(xs[1..], ys, q);
      var a, p, b := BaseQValue(xs[1..], q), Pow(q, |xs| - 1), BaseQValue(ys, q);
      assert BaseQValue(xs + ys, q) == xs[0] + q * (a + p * b) by {
        assert (xs + ys)[1..] == xs[1..] + ys;
        assert (xs + ys)[0] == xs[0];
      }
      assert Pow(q, |xs|) == q * p;
      ShiftedSum(xs[0], q, a, p, b);
    } else {
      assert xs + ys == ys;
    }
  }

  /** x + q (a + p b) == (x + q a) + (q p) b. */
  lemma ShiftedSum(x: int, q: int, a: int, p: int, b: int)
    ensures x + q * (a + p * b) == (x + q * a) + (q * p) * b
  {
    Distribute(q, a, p * b);
    MulAssoc(q, p, b);
  }

  /** Extending a prefix by one digit adds that digit at its place value. */
  lemma BaseQValuePrefixStep(ds: seq<nat>, i: nat, q: nat)
    requires i < |ds|
    ensures BaseQValue(ds[..i + 1], q) == BaseQValue(ds[..i], q) + ds[i] * Pow(q, i)
  {
    assert ds[..i + 1] == ds[..i] + [ds[i]];
    BaseQValueAppend(ds[..i], [ds[i]], q);
    assert BaseQValue([ds[i]], q) == ds[i];
  }

  /** Digits below q give a value below q^n. */
  lemma {:induction false} BaseQValueBound(ds: seq<nat>, q: nat)
    requires AllBelow(ds, q)
    ensures BaseQValue(ds, q) < Pow(q, |ds|)
    decreases |ds|
  {
    if |ds| > 0 {
      BaseQValueBound(ds[1..], q);
      assert BaseQValue(ds[1..], q) + 1 <= Pow(q, |ds| - 1);
      assert q * (BaseQValue(ds[1..], q) + 1) <= q * Pow(q, |ds| - 1);
    }
  }

  /** Zero digits contribute nothing. */
  lemma {:induction false} BaseQValueZeros(n: nat, q: nat)
    ensures BaseQValue(Repeat(0, n), q) == 0
    decreases n
  {
    if n > 0 {
      BaseQValueZeros(n - 1, q);
      assert Repeat(0, n)[1..] == Repeat(0, n - 1);
    }
  }
}
