/** Modular exponentiation (powm) and the discrete-logarithm laws of the truth tables
    of src/numbers.rs. */
module Dlog {
  import opened Errors
  import opened Arith
  import opened Primes
  import opened DlogTables
  import opened CyclicTables

  // ---------------------------------------------------------------------------
  // powm

  /** The square-and-multiply loop of powm in u16 arithmetic: an even exponent squares
      the base, an odd one multiplies it into the accumulator.  A product that leaves
      u16 is reported as Overflow; a reduction by a zero modulus, which the loop only
      reaches while the exponent is positive, as DivisionByZero. */
  function PowmLoop(x: nat, z: nat, n: nat, m: nat): (r: Result<nat>)
    ensures n == 0 ==> r == Ok(z)
    ensures r.Ok? && m > 0 ==> r.value == if n == 0 then z else (z * Pow(x, n)) % m
    ensures r.Err? ==> r.error == Overflow || (r.error == DivisionByZero && m == 0 && n > 0)
    ensures m == 0 && n > 0 ==> r.Err?
    ensures x < 256 && z < 256 && 0 < m <= 256 ==> r.Ok?
    decreases n
  {
    if n == 0 then Ok(z)
    else if n % 2 == 0 then
      if x * x >= U16_LIMIT then Err(Overflow)
      else if m == 0 then Err(DivisionByZero)
      else
        EvenStep(x, z, n, m);
        PowmLoop((x * x) % m, z, n / 2, m)
    else
      if x * z >= U16_LIMIT then Err(Overflow)
      else if m == 0 then Err(DivisionByZero)
      else
        OddStep(x, z, n, m);
        PowmLoop(x, (x * z) % m, n - 1, m)
  }

  /** Squaring the base and halving an even exponent keeps z * x^n mod m. */
  lemma EvenStep(x: nat, z: nat, n: nat, m: nat)
    requires m > 0 && n > 0 && n % 2 == 0
    ensures (z * Pow((x * x) % m, n / 2)) % m == (z * Pow(x, n)) % m
  {
    var k := n / 2;
    PowMod(x * x, k, m);
    ModMulRight(z, Pow((x * x) % m, k), m);
    ModMulRight(z, Pow(x * x, k), m);
    PowSquare(x, k);
  }

  /** Multiplying the base into the accumulator and decrementing the exponent keeps
      z * x^n mod m. */
  lemma OddStep(x: nat, z: nat, n: nat, m: nat)
    requires m > 0 && n > 0
    ensures n - 1 == 0 ==> (x * z) % m == (z * Pow(x, n)) % m
    ensures ((x * z) % m * Pow(x, n - 1)) % m == (z * Pow(x, n)) % m
  {
    var t := Pow(x, n - 1);
    assert Pow(x, n) == x * t;
    ModMul(x * z, t, m);
    assert (x * z) * t == z * (x * t);
  }

  /** Reducing the base does not change a power modulo m. */
  lemma {:induction false} PowMod(a: nat, k: nat, m: nat)
    requires m > 0
    ensures Pow(a % m, k) % m == Pow(a, k) % m
    decreases k
  {
    if k > 0 {
      PowMod(a, k - 1, m);
      var u, v := Pow(a % m, k - 1), Pow(a, k - 1);
      ModMul(a, v, m);
      ModMulRight(a % m, u, m);
      ModMulRight(a % m, v, m);
    }
  }

  /** Reducing the right factor does not change a product modulo m. */
  lemma ModMulRight(a: int, b: int, m: int)
    requires m > 0
    ensures (a * b) % m == (a * (b % m)) % m
  {
    ModMul(b, a, m);
    assert a * b == b * a && a * (b % m) == (b % m) * a;
  }

  /** powm: inp^pow mod modulus by square-and-multiply.  An exponent of 0 returns 1
      without reducing it, whatever the modulus; a positive exponent with a zero
      modulus divides by zero.  For bases below 256 and moduli from 1 to 256 no u16
      product overflows. */
  function Powm(b: nat, e: nat, m: nat): (r: Result<nat>)
    ensures e == 0 ==> r == Ok(1)
    ensures r.Ok? && m > 0 ==> r.value == if e == 0 then 1 else Pow(b, e) % m
    ensures r.Err? ==> r.error == Overflow || (r.error == DivisionByZero && m == 0)
    ensures m == 0 && e > 0 ==> r.Err?
    ensures b < 256 && 0 < m <= 256 ==> r.Ok?
  {
    PowmLoop(b, 1, e, m)
  }

  /** The zero-modulus path: exponent 0 still returns 1, a positive exponent fails. */
  lemma PowmZeroModulus()
    ensures Powm(3, 0, 0) == Ok(1)
    ensures Powm(3, 1, 0) == Err(DivisionByZero)
    ensures Powm(256, 2, 0) == Err(Overflow)
  {
  }

  /** The overflow path is reachable: squaring 256 leaves u16. */
  lemma PowmOverflows()
    ensures Powm(256, 2, 257) == Err(Overflow)
  {
  }

  // ---------------------------------------------------------------------------
  // From the row-by-row checks to the laws of the flat tables

  /** Laid end to end, well-shaped rows give the table At reads. */
  lemma {:induction false} FlattenShaped(rows: seq<seq<nat>>, p: nat, r: nat)
    requires ShapedFrom(rows, p, r)
    ensures r < |rows| && ROW * r <= p
    ensures |Flatten(rows[r..])| == p - ROW * r
    ensures forall i :: ROW * r <= i < p ==> Flatten(rows[r..])[i - ROW * r] == At(rows, i)
    decreases |rows| - r
  {
    var row := rows[r];
    assert rows[r..][1..] == rows[r + 1..];
    assert Flatten(rows[r..]) == row + Flatten(rows[r + 1..]);
    if r == |rows| - 1 {
      assert rows[r + 1..] == [];
    } else {
      FlattenShaped(rows, p, r + 1);
    }
    forall i | ROW * r <= i < p
      ensures Flatten(rows[r..])[i - ROW * r] == At(rows, i)
    {
      if i < ROW * r + |row| {
        DivModUnique(i, ROW, r, i - ROW * r);
      }
    }
  }

  /** StepsBetween gives StepAt at each of its positions. */
  lemma {:induction false} StepsBetweenAll(dl: seq<seq<nat>>, ex: seq<seq<nat>>, g: nat, p: nat, k: nat, n: nat)
    requires StepsBetween(dl, ex, g, p, k, n)
    ensures forall j :: k <= j < k + n ==> StepAt(dl, ex, g, p, j)
    decreases n
  {
    if n > 0 {
      StepsBetweenAll(dl, ex, g, p, k + 1, n - 1);
    }
  }

  /** StepsFrom gives StepAt at every position from k on. */
  lemma {:induction false} StepsFromAll(dl: seq<seq<nat>>, ex: seq<seq<nat>>, g: nat, p: nat, k: nat)
    requires StepsFrom(dl, ex, g, p, k)
    ensures forall j :: k <= j < p ==> StepAt(dl, ex, g, p, j)
    decreases p - k
  {
    if k < p {
      StepsBetweenAll(dl, ex, g, p, k, 4);
      StepsFromAll(dl, ex, g, p, k + 4);
    }
  }

  /** Checked rows flatten to tables that satisfy the laws. */
  lemma CheckedLaws(dlr: seq<seq<nat>>, exr: seq<seq<nat>>, g: nat, p: nat)
    requires Checked(dlr, exr, g, p)
    ensures |dlr| > 0 && |exr| > 0
    ensures TableLaws(Flatten(dlr), Flatten(exr), g, p)
  {
    var dl, ex := Flatten(dlr), Flatten(exr);
    assert |dl| == p && forall i :: 0 <= i < p ==> dl[i] == At(dlr, i) by {
      FlattenShaped(dlr, p, 0);
      assert dlr[0..] == dlr;
    }
    assert |ex| == p && forall i :: 0 <= i < p ==> ex[i] == At(exr, i) by {
      FlattenShaped(exr, p, 0);
      assert exr[0..] == exr;
    }
    StepsFromAll(dlr, exr, g, p, 0);
    forall k | 0 <= k < p - 1
      ensures ex[k + 1] == (ex[k] * g) % p && ex[k] < p && dl[ex[k]] == k
    {
      FlatStep(dl, ex, dlr, exr, g, p, k);
    }
  }

  /** One position of the laws, read through At. */
  lemma FlatStep(dl: seq<nat>, ex: seq<nat>, dlr: seq<seq<nat>>, exr: seq<seq<nat>>, g: nat, p: nat, k: nat)
    requires p >= 2 && |dl| == p && |ex| == p && k < p - 1
    requires forall i :: 0 <= i < p ==> dl[i] == At(dlr, i)
    requires forall i :: 0 <= i < p ==> ex[i] == At(exr, i)
    requires StepAt(dlr, exr, g, p, k)
    requires k == 0 ==> At(exr, 0) == 1
    requires k > 0 ==> StepAt(dlr, exr, g, p, k - 1)
    ensures ex[k + 1] == (ex[k] * g) % p && ex[k] < p && dl[ex[k]] == k
  {
    assert ex[k] == At(exr, k) && ex[k + 1] == At(exr, k + 1);
    assert ex[k] < p by {
      if k > 0 {
        assert At(exr, k) == (At(exr, k - 1) * g) % p;
      }
    }
    assert dl[ex[k]] == At(dlr, ex[k]);
  }

  /** The tables of every catalogue modulus satisfy the laws with its root. */
  lemma CatalogueLaws(m: nat)
    requires Supported(m)
    ensures DlogTruthTable(m).Ok? && ExpTruthTable(m).Ok?
    ensures TableLaws(DlogTruthTable(m).value, ExpTruthTable(m).value, Root(m), m)
  {
    var dlr, exr := CatalogueRows(m);
    CheckedLaws(dlr, exr, Root(m), m);
    assert DlogTruthTable(m) == Ok(Flatten(dlr));
    assert ExpTruthTable(m) == Ok(Flatten(exr));
  }

  /** powm of the root reproduces the exponent table entry by entry. */
  lemma ExpTableIsPowm(m: nat, k: nat)
    requires Supported(m) && k < m
    ensures ExpTruthTable(m).Ok? && |ExpTruthTable(m).value| == m
    ensures Powm(Root(m), k, m) == Ok(ExpTruthTable(m).value[k])
  {
    CatalogueLaws(m);
    var dl, ex := DlogTruthTable(m).value, ExpTruthTable(m).value;
    ExpPower(dl, ex, Root(m), m, k);
  }

  /** For a catalogue modulus m, a unit x and an exponent k below m - 1, the
      discrete-logarithm table gives k at x exactly when the root to the power k is x. */
  lemma CatalogueDlogIff(m: nat, x: nat, k: nat)
    requires Supported(m) && 1 <= x < m && k < m - 1
    ensures DlogTruthTable(m).Ok? && |DlogTruthTable(m).value| == m
    ensures DlogTruthTable(m).value[x] == k <==> Pow(Root(m), k) % m == x
  {
    CatalogueLaws(m);
    var dl, ex := DlogTruthTable(m).value, ExpTruthTable(m).value;
    DlogIff(dl, ex, Root(m), m, x, k);
    ExpPower(dl, ex, Root(m), m, k);
  }

  /** The discrete-logarithm law for the odd primes of the table: for the i-th odd
      prime q with primitive root g and a unit x, the logarithm of x is below q - 1,
      the exponent table takes it back to x, and so does powm. */
  lemma DiscreteLog(i: nat, x: nat)
    requires i < NPRIMES && 1 <= x < PRIMES_SKIP_2[i]
    ensures DlogTruthTable(PRIMES_SKIP_2[i]).Ok? && ExpTruthTable(PRIMES_SKIP_2[i]).Ok?
    ensures |DlogTruthTable(PRIMES_SKIP_2[i]).value| == PRIMES_SKIP_2[i]
    ensures |ExpTruthTable(PRIMES_SKIP_2[i]).value| == PRIMES_SKIP_2[i]
    ensures var q, d := PRIMES_SKIP_2[i], DlogTruthTable(PRIMES_SKIP_2[i]).value[x];
      d < q - 1 && ExpTruthTable(q).value[d] == x && Powm(PRIMITIVE_ROOTS[i], d, q) == Ok(x)
  {
    var q := PRIMES_SKIP_2[i];
    SupportedModuli(q);
    RootsAgree(i);
    CatalogueLaws(q);
    var dl, ex := DlogTruthTable(q).value, ExpTruthTable(q).value;
    DlogInverse(dl, ex, Root(q), q, x);
    ExpTableIsPowm(q, dl[x]);
  }
}
