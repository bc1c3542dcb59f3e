/** inv_ref: the modular inverse by the extended Euclidean algorithm. */
module ModInverse {
  import opened Arith
  import opened Errors
  import opened NumberTheory

  function Abs(x: int): nat
  {
    if x < 0 then -x else x
  }

  /** The coefficient bookkeeping of one Euclid step: with x0 and x1 of opposite signs,
      the new coefficient x1 - q * x0 has magnitude |x1| + q * |x0|, which keeps the
      weighted sum |x0| * a + |x1| * b unchanged. */
  lemma EuclidStep(a: nat, b: nat, x0: int, x1: int, M: nat)
    requires b > 0 && x0 * x1 <= 0
    requires Abs(x0) * a + Abs(x1) * b == M
    ensures Abs(x1 - (a / b) * x0) * b + Abs(x0) * (a % b) == M
    ensures (x1 - (a / b) * x0) * x0 <= 0
  {
    var q, r := a / b, a % b;
    OppositeSigns(x0, x1, q);
    Regroup(Abs(x0), Abs(x1), q, b, r);
  }

  /** Subtracting q times x0 from an x1 of the opposite sign adds magnitudes. */
  lemma OppositeSigns(x0: int, x1: int, q: nat)
    requires x0 * x1 <= 0
    ensures Abs(x1 - q * x0) == Abs(x1) + q * Abs(x0)
    ensures (x1 - q * x0) * x0 <= 0
  {
    var t := q * x0;
    if x0 >= 0 {
      assert t >= 0;
      assert x1 <= 0 || x0 == 0;
      assert (x1 - t) * x0 == x1 * x0 - q * (x0 * x0);
    } else {
      assert t <= 0 && -t == q * -x0;
      assert x1 >= 0;
      assert (x1 - t) * x0 == x1 * x0 - q * (x0 * x0);
    }
  }

  lemma Regroup(u: nat, v: nat, q: nat, b: nat, r: nat)
    ensures (v + q * u) * b + u * r == v * b + u * (q * b + r)
  {
  }

  /** The congruence bookkeeping of one Euclid step (a == q * b + r): x1 * A == a and
      x0 * A == b modulo M carry over to the next pair (b, r). */
  lemma EuclidCongruence(A: nat, M: nat, a: nat, b: nat, q: int, r: int, x0: int, x1: int)
    requires M > 0 && a == q * b + r
    requires (x1 * A - a) % M == 0 && (x0 * A - b) % M == 0
    ensures ((x1 - q * x0) * A - r) % M == 0
  {
    var u, v := x1 * A - a, x0 * A - b;
    MulOfMultiple(q, v, M);
    SumOfMultiples(u, q * v, M);
    RegroupCongruence(x0, x1, A, a, b, q, r);
  }

  lemma DivModParts(a: nat, b: nat)
    requires b > 0
    ensures a == (a / b) * b + a % b
  {
  }

  lemma RegroupCongruence(x0: int, x1: int, A: int, a: int, b: int, q: int, r: int)
    requires a == q * b + r
    ensures (x1 - q * x0) * A - r == (x1 * A - a) - q * (x0 * A - b)
  {
  }

  /** The loop invariant of inv_ref: x1 * A and x0 * A are congruent to a and b modulo
      M, a and b stay coprime, and the coefficients stay small enough that a final
      correction by M lands in [0, M). */
  predicate LoopInvariant(A: nat, M: nat, a: nat, b: nat, x0: int, x1: int)
  {
    M >= 2 && a >= 1 && Gcd(a, b) == 1 &&
    (x1 * A - a) % M == 0 && (x0 * A - b) % M == 0 &&
    Abs(x0) * a + Abs(x1) * b == M && x0 * x1 <= 0 &&
    (x1 == 1 || 2 * Abs(x1) <= M)
  }

  /** One iteration keeps the invariant. */
  lemma LoopStep(A: nat, M: nat, a: nat, b: nat, x0: int, x1: int)
    requires LoopInvariant(A, M, a, b, x0, x1) && a > 1
    ensures b > 0 && LoopInvariant(A, M, b, a % b, x1 - (a / b) * x0, x0)
  {
    assert b != 0;
    var q, r := a / b, a % b;
    var x0' := x1 - q * x0;
    assert Gcd(b, r) == 1;
    assert Abs(x0') * b + Abs(x0) * r == M && x0' * x0 <= 0 by {
      EuclidStep(a, b, x0, x1, M);
    }
    assert (x0' * A - r) % M == 0 by {
      DivModParts(a, b);
      EuclidCongruence(A, M, a, b, q, r, x0, x1);
    }
    assert x0 == 1 || 2 * Abs(x0) <= M by {
      HalfBound(Abs(x0), a, Abs(x1) * b, M);
    }
  }

  lemma HalfBound(x: nat, a: nat, y: nat, M: nat)
    requires a >= 2 && x * a + y == M
    ensures 2 * x <= M
  {
    MulAtLeast(a - 1, x);
    assert x * a == (a - 1) * x + x;
  }

  lemma GcdZeroLeft(m: nat)
    ensures Gcd(0, m) == m
  {
    if m > 0 {
      assert Gcd(0, m) == Gcd(m, 0);
    }
  }

  /** The loop of inv_ref, one call per iteration, as the library runs it: it stops
      once a is at most 1, and an iteration with b == 0 divides by zero, which aborts
      (None).  Euclid's recurrence keeps Gcd(a, b), so the loop finishes exactly when a
      starts at most 1 or coprime to b. */
  function InvSteps(a: nat, b: nat, x0: int, x1: int): (r: Option<int>)
    ensures r.Some? <==> a <= 1 || Gcd(a, b) == 1
    decreases b
  {
    if a <= 1 then Some(x1)
    else if b == 0 then None
    else
      assert Gcd(a, b) == Gcd(b, a % b);
      assert b == 1 ==> Gcd(b, a % b) == 1 by {
        if b == 1 {
          assert a % b == 0;
        }
      }
      InvSteps(b, a % b, x1 - (a / b) * x0, x0)
  }

  /** Under the loop invariant the loop finishes with a coefficient x1 such that
      x1 * A is 1 modulo M, small enough for one correction by M. */
  lemma {:induction false} InvStepsSolve(A: nat, M: nat, a: nat, b: nat, x0: int, x1: int)
    requires LoopInvariant(A, M, a, b, x0, x1)
    ensures InvSteps(a, b, x0, x1).Some?
    ensures var r := InvSteps(a, b, x0, x1).value;
      (r * A - 1) % M == 0 && (r == 1 || 2 * Abs(r) <= M)
    decreases b
  {
    if a > 1 {
      LoopStep(A, M, a, b, x0, x1);
      InvStepsSolve(A, M, b, a % b, x1 - (a / b) * x0, x0);
    }
  }

  /** The invariant holds on entry: a == 1 * a and m == 0 * a modulo m. */
  lemma InitialInvariant(a: nat, m: nat)
    requires m > 1 && Gcd(a, m) == 1
    ensures LoopInvariant(a, m, a, m, 0, 1)
  {
    assert a >= 1 by {
      GcdZeroLeft(m);
    }
    assert (1 * a - a) % m == 0 by {
      assert 1 * a - a == 0 * m + 0;
      DivModUnique(1 * a - a, m, 0, 0);
    }
    assert (0 * a - m) % m == 0 by {
      assert 0 * a - m == -1 * m + 0;
      DivModUnique(0 * a - m, m, -1, 0);
    }
  }

  /** Moving a small negative coefficient up by m gives the inverse in [0, m). */
  lemma Corrected(a: nat, m: nat, x1: int)
    requires m > 1 && (x1 * a - 1) % m == 0 && (x1 == 1 || 2 * Abs(x1) <= m)
    ensures var r := if x1 < 0 then x1 + m else x1; 0 <= r < m && (a * r) % m == 1
  {
    var r := if x1 < 0 then x1 + m else x1;
    assert (r * a - 1) % m == 0 by {
      if x1 < 0 {
        assert r * a - 1 == (x1 * a - 1) + a * m;
        MulMod(m, a);
        SumOfMultiples(x1 * a - 1, a * m, m);
      }
    }
    CongruentIffDiffMultiple(r * a, 1, m);
    assert a * r == r * a;
    DivModUnique(1, m, 0, 1);
  }

  lemma GcdOne(a: nat)
    ensures Gcd(a, 1) == 1
  {
    assert a % 1 == 0;
  }

  /** inv_ref(a, m) on non-negative arguments.  A modulus of 1 returns 1 straight away;
      otherwise the loop runs and a negative coefficient is moved into [0, m).  The
      call aborts (None) unless a is at most 1 or coprime to m, and for m > 1 and a
      coprime to m the result is the inverse of a in [0, m).  For a <= 1 the loop never
      runs and the result is 1, even for a == 0, which has no inverse. */
  function InvRef(a: nat, m: nat): (r: Option<int>)
    ensures r.Some? <==> a <= 1 || Gcd(a, m) == 1
    ensures m == 1 || a <= 1 ==> r == Some(1)
    ensures m > 1 && Gcd(a, m) == 1 ==> r.Some? && 0 <= r.value < m && (a * r.value) % m == 1
  {
    if m == 1 then
      GcdOne(a);
      Some(1)
    else
      var s := InvSteps(a, m, 0, 1);
      if s.None? then None
      else
        var x1 := s.value;
        assert m > 1 && Gcd(a, m) == 1 ==>
          0 <= (if x1 < 0 then x1 + m else x1) < m &&
          (a * (if x1 < 0 then x1 + m else x1)) % m == 1 by {
          if m > 1 && Gcd(a, m) == 1 {
            InitialInvariant(a, m);
            InvStepsSolve(a, m, a, m, 0, 1);
            Corrected(a, m, x1);
          }
        }
        Some(if x1 < 0 then x1 + m else x1)
  }

  /** The inverse is unique in [0, m): any r' with a * r' == 1 modulo m is InvRef(a, m). */
  lemma InvRefUnique(a: nat, m: nat, r': int)
    requires m > 1 && Gcd(a, m) == 1
    requires 0 <= r' < m && (a * r') % m == 1
    ensures InvRef(a, m) == Some(r')
  {
    var r := InvRef(a, m).value;
    InversesAgree(a, m, r, r');
    DivModUnique(r', m, 0, r');
    DivModUnique(r, m, 0, r);
  }

  /** Two inverses of a are congruent: r == r * (a * r') == (a * r) * r' == r' modulo m. */
  lemma InversesAgree(a: int, m: nat, r: int, r': int)
    requires m > 1 && (a * r) % m == 1 && (a * r') % m == 1
    ensures r % m == r' % m
  {
    DivModUnique(1, m, 0, 1);
    CongruentIffDiffMultiple(a * r', 1, m);
    CongruentIffDiffMultiple(a * r, 1, m);
    var u, v := a * r' - 1, a * r - 1;
    MulOfMultiple(r, u, m);
    MulOfMultiple(r', v, m);
    SwapDifference(a, r, r');
    SumOfMultiples(r * u, r' * v, m);
    CongruentIffDiffMultiple(r', r, m);
  }

  lemma SwapDifference(a: int, r: int, r': int)
    ensures r * (a * r' - 1) - r' * (a * r - 1) == r' - r
  {
    assert r * (a * r') == r' * (a * r);
  }

  /** An inverse modulo m > 1 exists exactly for the a coprime to m. */
  lemma InverseExistsIffCoprime(a: nat, m: nat)
    requires m > 1
    ensures Gcd(a, m) == 1 <==> exists r: int :: 0 <= r < m && (a * r) % m == 1
  {
    if Gcd(a, m) == 1 {
      var r := InvRef(a, m).value;
      assert 0 <= r < m && (a * r) % m == 1;
    }
    if r: int :| 0 <= r < m && (a * r) % m == 1 {
      var k := (a * r) / m;
      assert a * r == k * m + 1;
      assert r * a + (-k) * m == 1;
      CoprimeFromBezout(a, m, r, -k);
    }
  }
}
