/** The discrete-logarithm and exponent truth tables of src/numbers.rs, held in rows
    of eight, and the position-by-position checks of their defining relations. */
module DlogTables {
  import opened Errors
  import opened Primes

  /** The width of a table row. */
  const ROW: nat := 8

  /** The moduli with tables: 2 and the 29 odd primes of PRIMES_SKIP_2. */
  predicate Supported(m: nat)
  {
    m == 2 || m == 3 || m == 5 || m == 7 || m == 11 || m == 13 || m == 17 || m == 19 ||
    m == 23 || m == 29 || m == 31 || m == 37 || m == 41 || m == 43 || m == 47 || m == 53 ||
    m == 59 || m == 61 || m == 67 || m == 71 || m == 73 || m == 79 || m == 83 || m == 89 ||
    m == 97 || m == 101 || m == 103 || m == 107 || m == 109 || m == 113
  }

  /** The catalogue is 2 followed by PRIMES_SKIP_2. */
  lemma SupportedModuli(m: nat)
    ensures Supported(m) <==> m == 2 || m in PRIMES_SKIP_2
  {
  }

  /** The rows of a table laid end to end. */
  function Flatten(rows: seq<seq<nat>>): seq<nat>
  {
    if |rows| == 0 then [] else rows[0] + Flatten(rows[1..])
  }

  /** The rows of the discrete-logarithm table for modulus m; none outside the
      catalogue. */
  function DlogRows(m: nat): seq<seq<nat>>
  {
    match m
    case 2 => DLOG_2
    case 3 => DLOG_3
    case 5 => DLOG_5
    case 7 => DLOG_7
    case 11 => DLOG_11
    case 13 => DLOG_13
    case 17 => DLOG_17
    case 19 => DLOG_19
    case 23 => DLOG_23
    case 29 => DLOG_29
    case 31 => DLOG_31
    case 37 => DLOG_37
    case 41 => DLOG_41
    case 43 => DLOG_43
    case 47 => DLOG_47
    case 53 => DLOG_53
    case 59 => DLOG_59
    case 61 => DLOG_61
    case 67 => DLOG_67
    case 71 => DLOG_71
    case 73 => DLOG_73
    case 79 => DLOG_79
    case 83 => DLOG_83
    case 89 => DLOG_89
    case 97 => DLOG_97
    case 101 => DLOG_101
    case 103 => DLOG_103
    case 107 => DLOG_107
    case 109 => DLOG_109
    case 113 => DLOG_113
    case _ => []
  }

  /** The rows of the exponent table for modulus m; none outside the catalogue. */
  function ExpRows(m: nat): seq<seq<nat>>
  {
    match m
    case 2 => EXP_2
    case 3 => EXP_3
    case 5 => EXP_5
    case 7 => EXP_7
    case 11 => EXP_11
    case 13 => EXP_13
    case 17 => EXP_17
    case 19 => EXP_19
    case 23 => EXP_23
    case 29 => EXP_29
    case 31 => EXP_31
    case 37 => EXP_37
    case 41 => EXP_41
    case 43 => EXP_43
    case 47 => EXP_47
    case 53 => EXP_53
    case 59 => EXP_59
    case 61 => EXP_61
    case 67 => EXP_67
    case 71 => EXP_71
    case 73 => EXP_73
    case 79 => EXP_79
    case 83 => EXP_83
    case 89 => EXP_89
    case 97 => EXP_97
    case 101 => EXP_101
    case 103 => EXP_103
    case 107 => EXP_107
    case 109 => EXP_109
    case 113 => EXP_113
    case _ => []
  }

  /** dlog_truth_table: entry x is the discrete logarithm of x to the modulus's root
      (entry 0 is a placeholder, since 0 has no logarithm); a modulus outside the
      catalogue is refused. */
  function DlogTruthTable(m: nat): (r: Result<seq<nat>>)
    ensures r.Ok? <==> Supported(m)
    ensures r.Err? ==> r.error == UnsupportedModulus
  {
    var rows := DlogRows(m);
    if |rows| == 0 then Err(UnsupportedModulus) else Ok(Flatten(rows))
  }

  /** exp_truth_table: entry k is the modulus's root to the power k; a modulus outside
      the catalogue is refused. */
  function ExpTruthTable(m: nat): (r: Result<seq<nat>>)
    ensures r.Ok? <==> Supported(m)
    ensures r.Err? ==> r.error == UnsupportedModulus
  {
    var rows := ExpRows(m);
    if |rows| == 0 then Err(UnsupportedModulus) else Ok(Flatten(rows))
  }

  /** The generator each modulus's tables are built on: 1 for modulus 2 (its group of
      units has one element) and the matching PRIMITIVE_ROOTS entry for the odd primes. */
  function Root(m: nat): (g: nat)
    ensures Supported(m) ==> 0 < g < m
  {
    match m
    case 2 => 1
    case 3 => 2
    case 5 => 2
    case 7 => 3
    case 11 => 2
    case 13 => 2
    case 17 => 3
    case 19 => 2
    case 23 => 5
    case 29 => 2
    case 31 => 3
    case 37 => 2
    case 41 => 6
    case 43 => 3
    case 47 => 5
    case 53 => 2
    case 59 => 2
    case 61 => 2
    case 67 => 2
    case 71 => 7
    case 73 => 5
    case 79 => 3
    case 83 => 2
    case 89 => 3
    case 97 => 5
    case 101 => 2
    case 103 => 5
    case 107 => 2
    case 109 => 6
    case 113 => 3
    case _ => 0
  }

  /** Root agrees with PRIMITIVE_ROOTS position by position. */
  lemma RootsAgree(i: nat)
    requires i < NPRIMES
    ensures Root(PRIMES_SKIP_2[i]) == PRIMITIVE_ROOTS[i]
  {
    if i < 10 {
      RootsAgreeLow(i);
    } else if i < 20 {
      RootsAgreeMiddle(i);
    } else {
      RootsAgreeHigh(i);
    }
  }

  lemma RootsAgreeLow(i: nat)
    requires i < 10
    ensures Root(PRIMES_SKIP_2[i]) == PRIMITIVE_ROOTS[i]
  {
  }

  lemma RootsAgreeMiddle(i: nat)
    requires 10 <= i < 20
    ensures Root(PRIMES_SKIP_2[i]) == PRIMITIVE_ROOTS[i]
  {
  }

  lemma RootsAgreeHigh(i: nat)
    requires 20 <= i < NPRIMES
    ensures Root(PRIMES_SKIP_2[i]) == PRIMITIVE_ROOTS[i]
  {
  }

  // ---------------------------------------------------------------------------
  // Checking the tables position by position

  /** Entry i of a table held in rows of ROW entries (0 past the end). */
  function At(rows: seq<seq<nat>>, i: nat): nat
  {
    if i / ROW < |rows| && i % ROW < |rows[i / ROW]| then rows[i / ROW][i % ROW] else 0
  }

  /** At position k below p - 1: the exponent table steps by one multiplication by g,
      and the logarithm of the exponent at k is k. */
  predicate StepAt(dl: seq<seq<nat>>, ex: seq<seq<nat>>, g: nat, p: nat, k: nat)
  {
    k + 1 >= p || (At(ex, k + 1) == (At(ex, k) * g) % p && At(dl, At(ex, k)) == k)
  }

  /** StepAt holds at the n positions from k. */
  predicate StepsBetween(dl: seq<seq<nat>>, ex: seq<seq<nat>>, g: nat, p: nat, k: nat, n: nat)
    decreases n
  {
    n == 0 || (StepAt(dl, ex, g, p, k) && StepsBetween(dl, ex, g, p, k + 1, n - 1))
  }

  /** StepAt holds from position k on, checked four positions at a time. */
  predicate StepsFrom(dl: seq<seq<nat>>, ex: seq<seq<nat>>, g: nat, p: nat, k: nat)
    decreases p - k
  {
    k >= p || (StepsBetween(dl, ex, g, p, k, 4) && StepsFrom(dl, ex, g, p, k + 4))
  }

  /** From row r on, every row but the last holds ROW entries, and the rows hold p
      entries in all. */
  predicate ShapedFrom(rows: seq<seq<nat>>, p: nat, r: nat)
    decreases |rows| - r
  {
    r < |rows| &&
    if r == |rows| - 1 then 0 < |rows[r]| <= ROW && p == ROW * r + |rows[r]|
    else |rows[r]| == ROW && ShapedFrom(rows, p, r + 1)
  }

  /** What the checks establish about a pair of tables for modulus p and root g. */
  predicate Checked(dl: seq<seq<nat>>, ex: seq<seq<nat>>, g: nat, p: nat)
  {
    p >= 2 && ShapedFrom(dl, p, 0) && ShapedFrom(ex, p, 0) && At(ex, 0) == 1 &&
    At(ex, p - 1) == 1 && At(dl, 0) == 0 && StepsFrom(dl, ex, g, p, 0)
  }

  const DLOG_2: seq<seq<nat>> := [
    [0, 0]
  ]

  const EXP_2: seq<seq<nat>> := [
    [1, 1]
  ]

  lemma Check2Block0()
    ensures StepsBetween(DLOG_2, EXP_2, 1, 2, 0, 4)
  {
  }

  lemma Check2From0()
    ensures StepsFrom(DLOG_2, EXP_2, 1, 2, 0)
  {
    Check2Block0();
    assert StepsFrom(DLOG_2, EXP_2, 1, 2, 0);
  }

  lemma Shape2()
    ensures ShapedFrom(DLOG_2, 2, 0) && ShapedFrom(EXP_2, 2, 0)
  {
  }

  lemma Wrap2()
    ensures At(EXP_2, 1) == 1
  {
  }

  lemma Check2()
    ensures Checked(DLOG_2, EXP_2, 1, 2)
  {
    Shape2();
    Wrap2();
    Check2From0();
  }

  const DLOG_3: seq<seq<nat>> := [
    [0, 0, 1]
  ]

  const EXP_3: seq<seq<nat>> := [
    [1, 2, 1]
  ]

  lemma Check3Block0()
    ensures StepsBetween(DLOG_3, EXP_3, 2, 3, 0, 4)
  {
  }

  lemma Check3From0()
    ensures StepsFrom(DLOG_3, EXP_3, 2, 3, 0)
  {
    Check3Block0();
    assert StepsFrom(DLOG_3, EXP_3, 2, 3, 0);
  }

  lemma Shape3()
    ensures ShapedFrom(DLOG_3, 3, 0) && ShapedFrom(EXP_3, 3, 0)
  {
  }

  lemma Wrap3()
    ensures At(EXP_3, 2) == 1
  {
  }

  lemma Check3()
    ensures Checked(DLOG_3, EXP_3, 2, 3)
  {
    Shape3();
    Wrap3();
    Check3From0();
  }

  const DLOG_5: seq<seq<nat>> := [
    [0, 0, 1, 3, 2]
  ]

  const EXP_5: seq<seq<nat>> := [
    [1, 2, 4, 3, 1]
  ]

  lemma Check5Block0()
    ensures StepsBetween(DLOG_5, EXP_5, 2, 5, 0, 4)
  {
  }

  lemma Check5Block4()
    ensures StepsBetween(DLOG_5, EXP_5, 2, 5, 4, 4)
  {
  }

  lemma Check5From0()
    ensures StepsFrom(DLOG_5, EXP_5, 2, 5, 0)
  {
    Check5Block4();
    assert StepsFrom(DLOG_5, EXP_5, 2, 5, 4);
    Check5Block0();
    assert StepsFrom(DLOG_5, EXP_5, 2, 5, 0);
  }

  lemma Shape5()
    ensures ShapedFrom(DLOG_5, 5, 0) && ShapedFrom(EXP_5, 5, 0)
  {
  }

  lemma Wrap5()
    ensures At(EXP_5, 4) == 1
  {
  }

  lemma Check5()
    ensures Checked(DLOG_5, EXP_5, 2, 5)
  {
    Shape5();
    Wrap5();
    Check5From0();
  }

  const DLOG_7: seq<seq<nat>> := [
    [0, 0, 2, 1, 4, 5, 3]
  ]

  const EXP_7: seq<seq<nat>> := [
    [1, 3, 2, 6, 4, 5, 1]
  ]

  lemma Check7Block0()
    ensures StepsBetween(DLOG_7, EXP_7, 3, 7, 0, 4)
  {
  }

  lemma Check7Block4()
    ensures StepsBetween(DLOG_7, EXP_7, 3, 7, 4, 4)
  {
  }

  lemma Check7From0()
    ensures StepsFrom(DLOG_7, EXP_7, 3, 7, 0)
  {
    Check7Block4();
    assert StepsFrom(DLOG_7, EXP_7, 3, 7, 4);
    Check7Block0();
    assert StepsFrom(DLOG_7, EXP_7, 3, 7, 0);
  }

  lemma Shape7()
    ensures ShapedFrom(DLOG_7, 7, 0) && ShapedFrom(EXP_7, 7, 0)
  {
  }

  lemma Wrap7()
    ensures At(EXP_7, 6) == 1
  {
  }

  lemma Check7()
    ensures Checked(DLOG_7, EXP_7, 3, 7)
  {
    Shape7();
    Wrap7();
    Check7From0();
  }

  const DLOG_11: seq<seq<nat>> := [
    [0, 0, 1, 8, 2, 4, 9, 7], [3, 6, 5]
  ]

  const EXP_11: seq<seq<nat>> := [
    [1, 2, 4, 8, 5, 10, 9, 7], [3, 6, 1]
  ]

  lemma Check11Block0()
    ensures StepsBetween(DLOG_11, EXP_11, 2, 11, 0, 4)
  {
  }

  lemma Check11Block4()
    ensures StepsBetween(DLOG_11, EXP_11, 2, 11, 4, 4)
  {
  }

  lemma Check11Block8()
    ensures StepsBetween(DLOG_11, EXP_11, 2, 11, 8, 4)
  {
  }

  lemma Check11From0()
    ensures StepsFrom(DLOG_11, EXP_11, 2, 11, 0)
  {
    Check11Block8();
    assert StepsFrom(DLOG_11, EXP_11, 2, 11, 8);
    Check11Block4();
    assert StepsFrom(DLOG_11, EXP_11, 2, 11, 4);
    Check11Block0();
    assert StepsFrom(DLOG_11, EXP_11, 2, 11, 0);
  }

  lemma Shape11()
    ensures ShapedFrom(DLOG_11, 11, 0) && ShapedFrom(EXP_11, 11, 0)
  {
  }

  lemma Wrap11()
    ensures At(EXP_11, 10) == 1
  {
  }

  lemma Check11()
    ensures Checked(DLOG_11, EXP_11, 2, 11)
  {
    Shape11();
    Wrap11();
    Check11From0();
  }

  const DLOG_13: seq<seq<nat>> := [
    [0, 0, 1, 4, 2, 9, 5, 11], [3, 8, 10, 7, 6]
  ]

  const EXP_13: seq<seq<nat>> := [
    [1, 2, 4, 8, 3, 6, 12, 11], [9, 5, 10, 7, 1]
  ]

  lemma Check13Block0()
    ensures StepsBetween(DLOG_13, EXP_13, 2, 13, 0, 4)
  {
  }

  lemma Check13Block4()
    ensures StepsBetween(DLOG_13, EXP_13, 2, 13, 4, 4)
  {
  }

  lemma Check13Block8()
    ensures StepsBetween(DLOG_13, EXP_13, 2, 13, 8, 4)
  {
  }

  lemma Check13Block12()
    ensures StepsBetween(DLOG_13, EXP_13, 2, 13, 12, 4)
  {
  }

  lemma Check13From0()
    ensures StepsFrom(DLOG_13, EXP_13, 2, 13, 0)
  {
    Check13Block12();
    assert StepsFrom(DLOG_13, EXP_13, 2, 13, 12);
    Check13Block8();
    assert StepsFrom(DLOG_13, EXP_13, 2, 13, 8);
    Check13Block4();
    assert StepsFrom(DLOG_13, EXP_13, 2, 13, 4);
    Check13Block0();
    assert StepsFrom(DLOG_13, EXP_13, 2, 13, 0);
  }

  lemma Shape13()
    ensures ShapedFrom(DLOG_13, 13, 0) && ShapedFrom(EXP_13, 13, 0)
  {
  }

  lemma Wrap13()
    ensures At(EXP_13, 12) == 1
  {
  }

  lemma Check13()
    ensures Checked(DLOG_13, EXP_13, 2, 13)
  {
    Shape13();
    Wrap13();
    Check13From0();
  }

  const DLOG_17: seq<seq<nat>> := [
    [0, 0, 14, 1, 12, 5, 15, 11], [10, 2, 3, 7, 13, 4, 9, 6],
    [8]
  ]

  const EXP_17: seq<seq<nat>> := [
    [1, 3, 9, 10, 13, 5, 15, 11], [16, 14, 8, 7, 4, 12, 2, 6],
    [1]
  ]

  lemma Check17Block0()
    ensures StepsBetween(DLOG_17, EXP_17, 3, 17, 0, 4)
  {
  }

  lemma Check17Block4()
    ensures StepsBetween(DLOG_17, EXP_17, 3, 17, 4, 4)
  {
  }

  lemma Check17Block8()
    ensures StepsBetween(DLOG_17, EXP_17, 3, 17, 8, 4)
  {
  }

  lemma Check17Block12()
    ensures StepsBetween(DLOG_17, EXP_17, 3, 17, 12, 4)
  {
  }

  lemma Check17Block16()
    ensures StepsBetween(DLOG_17, EXP_17, 3, 17, 16, 4)
  {
  }

  lemma Check17From0()
    ensures StepsFrom(DLOG_17, EXP_17, 3, 17, 0)
  {
    Check17Block16();
    assert StepsFrom(DLOG_17, EXP_17, 3, 17, 16);
    Check17Block12();
    assert StepsFrom(DLOG_17, EXP_17, 3, 17, 12);
    Check17Block8();
    assert StepsFrom(DLOG_17, EXP_17, 3, 17, 8);
    Check17Block4();
    assert StepsFrom(DLOG_17, EXP_17, 3, 17, 4);
    Check17Block0();
    assert StepsFrom(DLOG_17, EXP_17, 3, 17, 0);
  }

  lemma Shape17()
    ensures ShapedFrom(DLOG_17, 17, 0) && ShapedFrom(EXP_17, 17, 0)
  {
  }

  lemma Wrap17()
    ensures At(EXP_17, 16) == 1
  {
  }

  lemma Check17()
    ensures Checked(DLOG_17, EXP_17, 3, 17)
  {
    Shape17();
    Wrap17();
    Check17From0();
  }

  const DLOG_19: seq<seq<nat>> := [
    [0, 0, 1, 13, 2, 16, 14, 6], [3, 8, 17, 12, 15, 5, 7, 11],
    [4, 10, 9]
  ]

  const EXP_19: seq<seq<nat>> := [
    [1, 2, 4, 8, 16, 13, 7, 14], [9, 18, 17, 15, 11, 3, 6, 12],
    [5, 10, 1]
  ]

  lemma Check19Block0()
    ensures StepsBetween(DLOG_19, EXP_19, 2, 19, 0, 4)
  {
  }

  lemma Check19Block4()
    ensures StepsBetween(DLOG_19, EXP_19, 2, 19, 4, 4)
  {
  }

  lemma Check19Block8()
    ensures StepsBetween(DLOG_19, EXP_19, 2, 19, 8, 4)
  {
  }

  lemma Check19Block12()
    ensures StepsBetween(DLOG_19, EXP_19, 2, 19, 12, 4)
  {
  }

  lemma Check19Block16()
    ensures StepsBetween(DLOG_19, EXP_19, 2, 19, 16, 4)
  {
  }

  lemma Check19From0()
    ensures StepsFrom(DLOG_19, EXP_19, 2, 19, 0)
  {
    Check19Block16();
    assert StepsFrom(DLOG_19, EXP_19, 2, 19, 16);
    Check19Block12();
    assert StepsFrom(DLOG_19, EXP_19, 2, 19, 12);
    Check19Block8();
    assert StepsFrom(DLOG_19, EXP_19, 2, 19, 8);
    Check19Block4();
    assert StepsFrom(DLOG_19, EXP_19, 2, 19, 4);
    Check19Block0();
    assert StepsFrom(DLOG_19, EXP_19, 2, 19, 0);
  }

  lemma Shape19()
    ensures ShapedFrom(DLOG_19, 19, 0) && ShapedFrom(EXP_19, 19, 0)
  {
  }

  lemma Wrap19()
    ensures At(EXP_19, 18) == 1
  {
  }

  lemma Check19()
    ensures Checked(DLOG_19, EXP_19, 2, 19)
  {
    Shape19();
    Wrap19();
    Check19From0();
  }

  const DLOG_23: seq<seq<nat>> := [
    [0, 0, 2, 16, 4, 1, 18, 19], [6, 10, 3, 9, 20, 14, 21, 17],
    [8, 7, 12, 15, 5, 13, 11]
  ]

  const EXP_23: seq<seq<nat>> := [
    [1, 5, 2, 10, 4, 20, 8, 17], [16, 11, 9, 22, 18, 21, 13, 19],
    [3, 15, 6, 7, 12, 14, 1]
  ]

  lemma Check23Block0()
    ensures StepsBetween(DLOG_23, EXP_23, 5, 23, 0, 4)
  {
  }

  lemma Check23Block4()
    ensures StepsBetween(DLOG_23, EXP_23, 5, 23, 4, 4)
  {
  }

  lemma Check23Block8()
    ensures StepsBetween(DLOG_23, EXP_23, 5, 23, 8, 4)
  {
  }

  lemma Check23Block12()
    ensures StepsBetween(DLOG_23, EXP_23, 5, 23, 12, 4)
  {
  }

  lemma Check23Block16()
    ensures StepsBetween(DLOG_23, EXP_23, 5, 23, 16, 4)
  {
  }

  lemma Check23Block20()
    ensures StepsBetween(DLOG_23, EXP_23, 5, 23, 20, 4)
  {
  }

  lemma Check23From0()
    ensures StepsFrom(DLOG_23, EXP_23, 5, 23, 0)
  {
    Check23Block20();
    assert StepsFrom(DLOG_23, EXP_23, 5, 23, 20);
    Check23Block16();
    assert StepsFrom(DLOG_23, EXP_23, 5, 23, 16);
    Check23Block12();
    assert StepsFrom(DLOG_23, EXP_23, 5, 23, 12);
    Check23Block8();
    assert StepsFrom(DLOG_23, EXP_23, 5, 23, 8);
    Check23Block4();
    assert StepsFrom(DLOG_23, EXP_23, 5, 23, 4);
    Check23Block0();
    assert StepsFrom(DLOG_23, EXP_23, 5, 23, 0);
  }

  lemma Shape23()
    ensures ShapedFrom(DLOG_23, 23, 0) && ShapedFrom(EXP_23, 23, 0)
  {
  }

  lemma Wrap23()
    ensures At(EXP_23, 22) == 1
  {
  }

  lemma Check23()
    ensures Checked(DLOG_23, EXP_23, 5, 23)
  {
    Shape23();
    Wrap23();
    Check23From0();
  }

  const DLOG_29: seq<seq<nat>> := [
    [0, 0, 1, 5, 2, 22, 6, 12], [3, 10, 23, 25, 7, 18, 13, 27],
    [4, 21, 11, 9, 24, 17, 26, 20], [8, 16, 19, 15, 14]
  ]

  const EXP_29: seq<seq<nat>> := [
    [1, 2, 4, 8, 16, 3, 6, 12], [24, 19, 9, 18, 7, 14, 28, 27],
    [25, 21, 13, 26, 23, 17, 5, 10], [20, 11, 22, 15, 1]
  ]

  lemma Check29Block0()
    ensures StepsBetween(DLOG_29, EXP_29, 2, 29, 0, 4)
  {
  }

  lemma Check29Block4()
    ensures StepsBetween(DLOG_29, EXP_29, 2, 29, 4, 4)
  {
  }

  lemma Check29Block8()
    ensures StepsBetween(DLOG_29, EXP_29, 2, 29, 8, 4)
  {
  }

  lemma Check29Block12()
    ensures StepsBetween(DLOG_29, EXP_29, 2, 29, 12, 4)
  {
  }

  lemma Check29Block16()
    ensures StepsBetween(DLOG_29, EXP_29, 2, 29, 16, 4)
  {
  }

  lemma Check29Block20()
    ensures StepsBetween(DLOG_29, EXP_29, 2, 29, 20, 4)
  {
  }

  lemma Check29Block24()
    ensures StepsBetween(DLOG_29, EXP_29, 2, 29, 24, 4)
  {
  }

  lemma Check29Block28()
    ensures StepsBetween(DLOG_29, EXP_29, 2, 29, 28, 4)
  {
  }

  lemma Check29From0()
    ensures StepsFrom(DLOG_29, EXP_29, 2, 29, 0)
  {
    Check29Block28();
    assert StepsFrom(DLOG_29, EXP_29, 2, 29, 28);
    Check29Block24();
    assert StepsFrom(DLOG_29, EXP_29, 2, 29, 24);
    Check29Block20();
    assert StepsFrom(DLOG_29, EXP_29, 2, 29, 20);
    Check29Block16();
    assert StepsFrom(DLOG_29, EXP_29, 2, 29, 16);
    Check29Block12();
    assert StepsFrom(DLOG_29, EXP_29, 2, 29, 12);
    Check29Block8();
    assert StepsFrom(DLOG_29, EXP_29, 2, 29, 8);
    Check29Block4();
    assert StepsFrom(DLOG_29, EXP_29, 2, 29, 4);
    Check29Block0();
    assert StepsFrom(DLOG_29, EXP_29, 2, 29, 0);
  }

  lemma Shape29()
    ensures ShapedFrom(DLOG_29, 29, 0) && ShapedFrom(EXP_29, 29, 0)
  {
  }

  lemma Wrap29()
    ensures At(EXP_29, 28) == 1
  {
  }

  lemma Check29()
    ensures Checked(DLOG_29, EXP_29, 2, 29)
  {
    Shape29();
    Wrap29();
    Check29From0();
  }

  const DLOG_31: seq<seq<nat>> := [
    [0, 0, 24, 1, 18, 20, 25, 28], [12, 2, 14, 23, 19, 11, 22, 21],
    [6, 7, 26, 4, 8, 29, 17, 27], [13, 10, 5, 3, 16, 9, 15]
  ]

  const EXP_31: seq<seq<nat>> := [
    [1, 3, 9, 27, 19, 26, 16, 17], [20, 29, 25, 13, 8, 24, 10, 30],
    [28, 22, 4, 12, 5, 15, 14, 11], [2, 6, 18, 23, 7, 21, 1]
  ]

  lemma Check31Block0()
    ensures StepsBetween(DLOG_31, EXP_31, 3, 31, 0, 4)
  {
  }

  lemma Check31Block4()
    ensures StepsBetween(DLOG_31, EXP_31, 3, 31, 4, 4)
  {
  }

  lemma Check31Block8()
    ensures StepsBetween(DLOG_31, EXP_31, 3, 31, 8, 4)
  {
  }

  lemma Check31Block12()
    ensures StepsBetween(DLOG_31, EXP_31, 3, 31, 12, 4)
  {
  }

  lemma Check31Block16()
    ensures StepsBetween(DLOG_31, EXP_31, 3, 31, 16, 4)
  {
  }

  lemma Check31Block20()
    ensures StepsBetween(DLOG_31, EXP_31, 3, 31, 20, 4)
  {
  }

  lemma Check31Block24()
    ensures StepsBetween(DLOG_31, EXP_31, 3, 31, 24, 4)
  {
  }

  lemma Check31Block28()
    ensures StepsBetween(DLOG_31, EXP_31, 3, 31, 28, 4)
  {
  }

  lemma Check31From0()
    ensures StepsFrom(DLOG_31, EXP_31, 3, 31, 0)
  {
    Check31Block28();
    assert StepsFrom(DLOG_31, EXP_31, 3, 31, 28);
    Check31Block24();
    assert StepsFrom(DLOG_31, EXP_31, 3, 31, 24);
    Check31Block20();
    assert StepsFrom(DLOG_31, EXP_31, 3, 31, 20);
    Check31Block16();
    assert StepsFrom(DLOG_31, EXP_31, 3, 31, 16);
    Check31Block12();
    assert StepsFrom(DLOG_31, EXP_31, 3, 31, 12);
    Check31Block8();
    assert StepsFrom(DLOG_31, EXP_31, 3, 31, 8);
    Check31Block4();
    assert StepsFrom(DLOG_31, EXP_31, 3, 31, 4);
    Check31Block0();
    assert StepsFrom(DLOG_31, EXP_31, 3, 31, 0);
  }

  lemma Shape31()
    ensures ShapedFrom(DLOG_31, 31, 0) && ShapedFrom(EXP_31, 31, 0)
  {
  }

  lemma Wrap31()
    ensures At(EXP_31, 30) == 1
  {
  }

  lemma Check31()
    ensures Checked(DLOG_31, EXP_31, 3, 31)
  {
    Shape31();
    Wrap31();
    Check31From0();
  }

  const DLOG_37: seq<seq<nat>> := [
    [0, 0, 1, 26, 2, 23, 27, 32], [3, 16, 24, 30, 28, 11, 33, 13],
    [4, 7, 17, 35, 25, 22, 31, 15], [29, 10, 12, 6, 34, 21, 14, 9],
    [5, 20, 8, 19, 18]
  ]

  const EXP_37: seq<seq<nat>> := [
    [1, 2, 4, 8, 16, 32, 27, 17], [34, 31, 25, 13, 26, 15, 30, 23],
    [9, 18, 36, 35, 33, 29, 21, 5], [10, 20, 3, 6, 12, 24, 11, 22],
    [7, 14, 28, 19, 1]
  ]

  lemma Check37Block0()
    ensures StepsBetween(DLOG_37, EXP_37, 2, 37, 0, 4)
  {
  }

  lemma Check37Block4()
    ensures StepsBetween(DLOG_37, EXP_37, 2, 37, 4, 4)
  {
  }

  lemma Check37Block8()
    ensures StepsBetween(DLOG_37, EXP_37, 2, 37, 8, 4)
  {
  }

  lemma Check37Block12()
    ensures StepsBetween(DLOG_37, EXP_37, 2, 37, 12, 4)
  {
  }

  lemma Check37Block16()
    ensures StepsBetween(DLOG_37, EXP_37, 2, 37, 16, 4)
  {
  }

  lemma Check37Block20()
    ensures StepsBetween(DLOG_37, EXP_37, 2, 37, 20, 4)
  {
  }

  lemma Check37Block24()
    ensures StepsBetween(DLOG_37, EXP_37, 2, 37, 24, 4)
  {
  }

  lemma Check37Block28()
    ensures StepsBetween(DLOG_37, EXP_37, 2, 37, 28, 4)
  {
  }

  lemma Check37Block32()
    ensures StepsBetween(DLOG_37, EXP_37, 2, 37, 32, 4)
  {
  }

  lemma Check37Block36()
    ensures StepsBetween(DLOG_37, EXP_37, 2, 37, 36, 4)
  {
  }

  lemma Check37From32()
    ensures StepsFrom(DLOG_37, EXP_37, 2, 37, 32)
  {
    Check37Block36();
    assert StepsFrom(DLOG_37, EXP_37, 2, 37, 36);
    Check37Block32();
    assert StepsFrom(DLOG_37, EXP_37, 2, 37, 32);
  }

  lemma Check37From0()
    ensures StepsFrom(DLOG_37, EXP_37, 2, 37, 0)
  {
    Check37From32();
    Check37Block28();
    assert StepsFrom(DLOG_37, EXP_37, 2, 37, 28);
    Check37Block24();
    assert StepsFrom(DLOG_37, EXP_37, 2, 37, 24);
    Check37Block20();
    assert StepsFrom(DLOG_37, EXP_37, 2, 37, 20);
    Check37Block16();
    assert StepsFrom(DLOG_37, EXP_37, 2, 37, 16);
    Check37Block12();
    assert StepsFrom(DLOG_37, EXP_37, 2, 37, 12);
    Check37Block8();
    assert StepsFrom(DLOG_37, EXP_37, 2, 37, 8);
    Check37Block4();
    assert StepsFrom(DLOG_37, EXP_37, 2, 37, 4);
    Check37Block0();
    assert StepsFrom(DLOG_37, EXP_37, 2, 37, 0);
  }

  lemma Shape37()
    ensures ShapedFrom(DLOG_37, 37, 0) && ShapedFrom(EXP_37, 37, 0)
  {
  }

  lemma Wrap37()
    ensures At(EXP_37, 36) == 1
  {
  }

  lemma Check37()
    ensures Checked(DLOG_37, EXP_37, 2, 37)
  {
    Shape37();
    Wrap37();
    Check37From0();
  }

  const DLOG_41: seq<seq<nat>> := [
    [0, 0, 26, 15, 12, 22, 1, 39], [38, 30, 8, 3, 27, 31, 25, 37],
    [24, 33, 16, 9, 34, 14, 29, 36], [13, 4, 17, 5, 11, 7, 23, 28],
    [10, 18, 19, 21, 2, 32, 35, 6], [20]
  ]

  const EXP_41: seq<seq<nat>> := [
    [1, 6, 36, 11, 25, 27, 39, 29], [10, 19, 32, 28, 4, 24, 21, 3],
    [18, 26, 33, 34, 40, 35, 5, 30], [16, 14, 2, 12, 31, 22, 9, 13],
    [37, 17, 20, 38, 23, 15, 8, 7], [1]
  ]

  lemma Check41Block0()
    ensures StepsBetween(DLOG_41, EXP_41, 6, 41, 0, 4)
  {
  }

  lemma Check41Block4()
    ensures StepsBetween(DLOG_41, EXP_41, 6, 41, 4, 4)
  {
  }

  lemma Check41Block8()
    ensures StepsBetween(DLOG_41, EXP_41, 6, 41, 8, 4)
  {
  }

  lemma Check41Block12()
    ensures StepsBetween(DLOG_41, EXP_41, 6, 41, 12, 4)
  {
  }

  lemma Check41Block16()
    ensures StepsBetween(DLOG_41, EXP_41, 6, 41, 16, 4)
  {
  }

  lemma Check41Block20()
    ensures StepsBetween(DLOG_41, EXP_41, 6, 41, 20, 4)
  {
  }

  lemma Check41Block24()
    ensures StepsBetween(DLOG_41, EXP_41, 6, 41, 24, 4)
  {
  }

  lemma Check41Block28()
    ensures StepsBetween(DLOG_41, EXP_41, 6, 41, 28, 4)
  {
  }

  lemma Check41Block32()
    ensures StepsBetween(DLOG_41, EXP_41, 6, 41, 32, 4)
  {
  }

  lemma Check41Block36()
    ensures StepsBetween(DLOG_41, EXP_41, 6, 41, 36, 4)
  {
  }

  lemma Check41Block40()
    ensures StepsBetween(DLOG_41, EXP_41, 6, 41, 40, 4)
  {
  }

  lemma Check41From32()
    ensures StepsFrom(DLOG_41, EXP_41, 6, 41, 32)
  {
    Check41Block40();
    assert StepsFrom(DLOG_41, EXP_41, 6, 41, 40);
    Check41Block36();
    assert StepsFrom(DLOG_41, EXP_41, 6, 41, 36);
    Check41Block32();
    assert StepsFrom(DLOG_41, EXP_41, 6, 41, 32);
  }

  lemma Check41From0()
    ensures StepsFrom(DLOG_41, EXP_41, 6, 41, 0)
  {
    Check41From32();
    Check41Block28();
    assert StepsFrom(DLOG_41, EXP_41, 6, 41, 28);
    Check41Block24();
    assert StepsFrom(DLOG_41, EXP_41, 6, 41, 24);
    Check41Block20();
    assert StepsFrom(DLOG_41, EXP_41, 6, 41, 20);
    Check41Block16();
    assert StepsFrom(DLOG_41, EXP_41, 6, 41, 16);
    Check41Block12();
    assert StepsFrom(DLOG_41, EXP_41, 6, 41, 12);
    Check41Block8();
    assert StepsFrom(DLOG_41, EXP_41, 6, 41, 8);
    Check41Block4();
    assert StepsFrom(DLOG_41, EXP_41, 6, 41, 4);
    Check41Block0();
    assert StepsFrom(DLOG_41, EXP_41, 6, 41, 0);
  }

  lemma Shape41()
    ensures ShapedFrom(DLOG_41, 41, 0) && ShapedFrom(EXP_41, 41, 0)
  {
  }

  lemma Wrap41()
    ensures At(EXP_41, 40) == 1
  {
  }

  lemma Check41()
    ensures Checked(DLOG_41, EXP_41, 6, 41)
  {
    Shape41();
    Wrap41();
    Check41From0();
  }

  const DLOG_43: seq<seq<nat>> := [
    [0, 0, 27, 1, 12, 25, 28, 35], [39, 2, 10, 30, 13, 32, 20, 26],
    [24, 38, 29, 19, 37, 36, 15, 16], [40, 8, 17, 3, 5, 41, 11, 34],
    [9, 31, 23, 18, 14, 7, 4, 33], [22, 6, 21]
  ]

  const EXP_43: seq<seq<nat>> := [
    [1, 3, 9, 27, 38, 28, 41, 37], [25, 32, 10, 30, 4, 12, 36, 22],
    [23, 26, 35, 19, 14, 42, 40, 34], [16, 5, 15, 2, 6, 18, 11, 33],
    [13, 39, 31, 7, 21, 20, 17, 8], [24, 29, 1]
  ]

  lemma Check43Block0()
    ensures StepsBetween(DLOG_43, EXP_43, 3, 43, 0, 4)
  {
  }

  lemma Check43Block4()
    ensures StepsBetween(DLOG_43, EXP_43, 3, 43, 4, 4)
  {
  }

  lemma Check43Block8()
    ensures StepsBetween(DLOG_43, EXP_43, 3, 43, 8, 4)
  {
  }

  lemma Check43Block12()
    ensures StepsBetween(DLOG_43, EXP_43, 3, 43, 12, 4)
  {
  }

  lemma Check43Block16()
    ensures StepsBetween(DLOG_43, EXP_43, 3, 43, 16, 4)
  {
  }

  lemma Check43Block20()
    ensures StepsBetween(DLOG_43, EXP_43, 3, 43, 20, 4)
  {
  }

  lemma Check43Block24()
    ensures StepsBetween(DLOG_43, EXP_43, 3, 43, 24, 4)
  {
  }

  lemma Check43Block28()
    ensures StepsBetween(DLOG_43, EXP_43, 3, 43, 28, 4)
  {
  }

  lemma Check43Block32()
    ensures StepsBetween(DLOG_43, EXP_43, 3, 43, 32, 4)
  {
  }

  lemma Check43Block36()
    ensures StepsBetween(DLOG_43, EXP_43, 3, 43, 36, 4)
  {
  }

  lemma Check43Block40()
    ensures StepsBetween(DLOG_43, EXP_43, 3, 43, 40, 4)
  {
  }

  lemma Check43From32()
    ensures StepsFrom(DLOG_43, EXP_43, 3, 43, 32)
  {
    Check43Block40();
    assert StepsFrom(DLOG_43, EXP_43, 3, 43, 40);
    Check43Block36();
    assert StepsFrom(DLOG_43, EXP_43, 3, 43, 36);
    Check43Block32();
    assert StepsFrom(DLOG_43, EXP_43, 3, 43, 32);
  }

  lemma Check43From0()
    ensures StepsFrom(DLOG_43, EXP_43, 3, 43, 0)
  {
    Check43From32();
    Check43Block28();
    assert StepsFrom(DLOG_43, EXP_43, 3, 43, 28);
    Check43Block24();
    assert StepsFrom(DLOG_43, EXP_43, 3, 43, 24);
    Check43Block20();
    assert StepsFrom(DLOG_43, EXP_43, 3, 43, 20);
    Check43Block16();
    assert StepsFrom(DLOG_43, EXP_43, 3, 43, 16);
    Check43Block12();
    assert StepsFrom(DLOG_43, EXP_43, 3, 43, 12);
    Check43Block8();
    assert StepsFrom(DLOG_43, EXP_43, 3, 43, 8);
    Check43Block4();
    assert StepsFrom(DLOG_43, EXP_43, 3, 43, 4);
    Check43Block0();
    assert StepsFrom(DLOG_43, EXP_43, 3, 43, 0);
  }

  lemma Shape43()
    ensures ShapedFrom(DLOG_43, 43, 0) && ShapedFrom(EXP_43, 43, 0)
  {
  }

  lemma Wrap43()
    ensures At(EXP_43, 42) == 1
  {
  }

  lemma Check43()
    ensures Checked(DLOG_43, EXP_43, 3, 43)
  {
    Shape43();
    Wrap43();
    Check43From0();
  }

  const DLOG_47: seq<seq<nat>> := [
    [0, 0, 18, 20, 36, 1, 38, 32], [8, 40, 19, 7, 10, 11, 4, 21],
    [26, 16, 12, 45, 37, 6, 25, 5], [28, 2, 29, 14, 22, 35, 39, 3],
    [44, 27, 34, 33, 30, 42, 17, 31], [9, 15, 24, 13, 43, 41, 23]
  ]

  const EXP_47: seq<seq<nat>> := [
    [1, 5, 25, 31, 14, 23, 21, 11], [8, 40, 12, 13, 18, 43, 27, 41],
    [17, 38, 2, 10, 3, 15, 28, 46], [42, 22, 16, 33, 24, 26, 36, 39],
    [7, 35, 34, 29, 4, 20, 6, 30], [9, 45, 37, 44, 32, 19, 1]
  ]

  lemma Check47Block0()
    ensures StepsBetween(DLOG_47, EXP_47, 5, 47, 0, 4)
  {
  }

  lemma Check47Block4()
    ensures StepsBetween(DLOG_47, EXP_47, 5, 47, 4, 4)
  {
  }

  lemma Check47Block8()
    ensures StepsBetween(DLOG_47, EXP_47, 5, 47, 8, 4)
  {
  }

  lemma Check47Block12()
    ensures StepsBetween(DLOG_47, EXP_47, 5, 47, 12, 4)
  {
  }

  lemma Check47Block16()
    ensures StepsBetween(DLOG_47, EXP_47, 5, 47, 16, 4)
  {
  }

  lemma Check47Block20()
    ensures StepsBetween(DLOG_47, EXP_47, 5, 47, 20, 4)
  {
  }

  lemma Check47Block24()
    ensures StepsBetween(DLOG_47, EXP_47, 5, 47, 24, 4)
  {
  }

  lemma Check47Block28()
    ensures StepsBetween(DLOG_47, EXP_47, 5, 47, 28, 4)
  {
  }

  lemma Check47Block32()
    ensures StepsBetween(DLOG_47, EXP_47, 5, 47, 32, 4)
  {
  }

  lemma Check47Block36()
    ensures StepsBetween(DLOG_47, EXP_47, 5, 47, 36, 4)
  {
  }

  lemma Check47Block40()
    ensures StepsBetween(DLOG_47, EXP_47, 5, 47, 40, 4)
  {
  }

  lemma Check47Block44()
    ensures StepsBetween(DLOG_47, EXP_47, 5, 47, 44, 4)
  {
  }

  lemma Check47From32()
    ensures StepsFrom(DLOG_47, EXP_47, 5, 47, 32)
  {
    Check47Block44();
    assert StepsFrom(DLOG_47, EXP_47, 5, 47, 44);
    Check47Block40();
    assert StepsFrom(DLOG_47, EXP_47, 5, 47, 40);
    Check47Block36();
    assert StepsFrom(DLOG_47, EXP_47, 5, 47, 36);
    Check47Block32();
    assert StepsFrom(DLOG_47, EXP_47, 5, 47, 32);
  }

  lemma Check47From0()
    ensures StepsFrom(DLOG_47, EXP_47, 5, 47, 0)
  {
    Check47From32();
    Check47Block28();
    assert StepsFrom(DLOG_47, EXP_47, 5, 47, 28);
    Check47Block24();
    assert StepsFrom(DLOG_47, EXP_47, 5, 47, 24);
    Check47Block20();
    assert StepsFrom(DLOG_47, EXP_47, 5, 47, 20);
    Check47Block16();
    assert StepsFrom(DLOG_47, EXP_47, 5, 47, 16);
    Check47Block12();
    assert StepsFrom(DLOG_47, EXP_47, 5, 47, 12);
    Check47Block8();
    assert StepsFrom(DLOG_47, EXP_47, 5, 47, 8);
    Check47Block4();
    assert StepsFrom(DLOG_47, EXP_47, 5, 47, 4);
    Check47Block0();
    assert StepsFrom(DLOG_47, EXP_47, 5, 47, 0);
  }

  lemma Shape47()
    ensures ShapedFrom(DLOG_47, 47, 0) && ShapedFrom(EXP_47, 47, 0)
  {
  }

  lemma Wrap47()
    ensures At(EXP_47, 46) == 1
  {
  }

  lemma Check47()
    ensures Checked(DLOG_47, EXP_47, 5, 47)
  {
    Shape47();
    Wrap47();
    Check47From0();
  }

  const DLOG_53: seq<seq<nat>> := [
    [0, 0, 1, 17, 2, 47, 18, 14], [3, 34, 48, 6, 19, 24, 15, 12],
    [4, 10, 35, 37, 49, 31, 7, 39], [20, 42, 25, 51, 16, 46, 13, 33],
    [5, 23, 11, 9, 36, 30, 38, 41], [50, 45, 32, 22, 8, 29, 40, 44],
    [21, 28, 43, 27, 26]
  ]

  const EXP_53: seq<seq<nat>> := [
    [1, 2, 4, 8, 16, 32, 11, 22], [44, 35, 17, 34, 15, 30, 7, 14],
    [28, 3, 6, 12, 24, 48, 43, 33], [13, 26, 52, 51, 49, 45, 37, 21],
    [42, 31, 9, 18, 36, 19, 38, 23], [46, 39, 25, 50, 47, 41, 29, 5],
    [10, 20, 40, 27, 1]
  ]

  lemma Check53Block0()
    ensures StepsBetween(DLOG_53, EXP_53, 2, 53, 0, 4)
  {
  }

  lemma Check53Block4()
    ensures StepsBetween(DLOG_53, EXP_53, 2, 53, 4, 4)
  {
  }

  lemma Check53Block8()
    ensures StepsBetween(DLOG_53, EXP_53, 2, 53, 8, 4)
  {
  }

  lemma Check53Block12()
    ensures StepsBetween(DLOG_53, EXP_53, 2, 53, 12, 4)
  {
  }

  lemma Check53Block16()
    ensures StepsBetween(DLOG_53, EXP_53, 2, 53, 16, 4)
  {
  }

  lemma Check53Block20()
    ensures StepsBetween(DLOG_53, EXP_53, 2, 53, 20, 4)
  {
  }

  lemma Check53Block24()
    ensures StepsBetween(DLOG_53, EXP_53, 2, 53, 24, 4)
  {
  }

  lemma Check53Block28()
    ensures StepsBetween(DLOG_53, EXP_53, 2, 53, 28, 4)
  {
  }

  lemma Check53Block32()
    ensures StepsBetween(DLOG_53, EXP_53, 2, 53, 32, 4)
  {
  }

  lemma Check53Block36()
    ensures StepsBetween(DLOG_53, EXP_53, 2, 53, 36, 4)
  {
  }

  lemma Check53Block40()
    ensures StepsBetween(DLOG_53, EXP_53, 2, 53, 40, 4)
  {
  }

  lemma Check53Block44()
    ensures StepsBetween(DLOG_53, EXP_53, 2, 53, 44, 4)
  {
  }

  lemma Check53Block48()
    ensures StepsBetween(DLOG_53, EXP_53, 2, 53, 48, 4)
  {
  }

  lemma Check53Block52()
    ensures StepsBetween(DLOG_53, EXP_53, 2, 53, 52, 4)
  {
  }

  lemma Check53From32()
    ensures StepsFrom(DLOG_53, EXP_53, 2, 53, 32)
  {
    Check53Block52();
    assert StepsFrom(DLOG_53, EXP_53, 2, 53, 52);
    Check53Block48();
    assert StepsFrom(DLOG_53, EXP_53, 2, 53, 48);
    Check53Block44();
    assert StepsFrom(DLOG_53, EXP_53, 2, 53, 44);
    Check53Block40();
    assert StepsFrom(DLOG_53, EXP_53, 2, 53, 40);
    Check53Block36();
    assert StepsFrom(DLOG_53, EXP_53, 2, 53, 36);
    Check53Block32();
    assert StepsFrom(DLOG_53, EXP_53, 2, 53, 32);
  }

  lemma Check53From0()
    ensures StepsFrom(DLOG_53, EXP_53, 2, 53, 0)
  {
    Check53From32();
    Check53Block28();
    assert StepsFrom(DLOG_53, EXP_53, 2, 53, 28);
    Check53Block24();
    assert StepsFrom(DLOG_53, EXP_53, 2, 53, 24);
    Check53Block20();
    assert StepsFrom(DLOG_53, EXP_53, 2, 53, 20);
    Check53Block16();
    assert StepsFrom(DLOG_53, EXP_53, 2, 53, 16);
    Check53Block12();
    assert StepsFrom(DLOG_53, EXP_53, 2, 53, 12);
    Check53Block8();
    assert StepsFrom(DLOG_53, EXP_53, 2, 53, 8);
    Check53Block4();
    assert StepsFrom(DLOG_53, EXP_53, 2, 53, 4);
    Check53Block0();
    assert StepsFrom(DLOG_53, EXP_53, 2, 53, 0);
  }

  lemma Shape53()
    ensures ShapedFrom(DLOG_53, 53, 0) && ShapedFrom(EXP_53, 53, 0)
  {
  }

  lemma Wrap53()
    ensures At(EXP_53, 52) == 1
  {
  }

  lemma Check53()
    ensures Checked(DLOG_53, EXP_53, 2, 53)
  {
    Shape53();
    Wrap53();
    Check53From0();
  }

  const DLOG_59: seq<seq<nat>> := [
    [0, 0, 1, 50, 2, 6, 51, 18], [3, 42, 7, 25, 52, 45, 19, 56],
    [4, 40, 43, 38, 8, 10, 26, 15], [53, 12, 46, 34, 20, 28, 57, 49],
    [5, 17, 41, 24, 44, 55, 39, 37], [9, 14, 11, 33, 27, 48, 16, 23],
    [54, 36, 13, 32, 47, 22, 35, 31], [21, 30, 29]
  ]

  const EXP_59: seq<seq<nat>> := [
    [1, 2, 4, 8, 16, 32, 5, 10], [20, 40, 21, 42, 25, 50, 41, 23],
    [46, 33, 7, 14, 28, 56, 53, 47], [35, 11, 22, 44, 29, 58, 57, 55],
    [51, 43, 27, 54, 49, 39, 19, 38], [17, 34, 9, 18, 36, 13, 26, 52],
    [45, 31, 3, 6, 12, 24, 48, 37], [15, 30, 1]
  ]

  lemma Check59Block0()
    ensures StepsBetween(DLOG_59, EXP_59, 2, 59, 0, 4)
  {
  }

  lemma Check59Block4()
    ensures StepsBetween(DLOG_59, EXP_59, 2, 59, 4, 4)
  {
  }

  lemma Check59Block8()
    ensures StepsBetween(DLOG_59, EXP_59, 2, 59, 8, 4)
  {
  }

  lemma Check59Block12()
    ensures StepsBetween(DLOG_59, EXP_59, 2, 59, 12, 4)
  {
  }

  lemma Check59Block16()
    ensures StepsBetween(DLOG_59, EXP_59, 2, 59, 16, 4)
  {
  }

  lemma Check59Block20()
    ensures StepsBetween(DLOG_59, EXP_59, 2, 59, 20, 4)
  {
  }

  lemma Check59Block24()
    ensures StepsBetween(DLOG_59, EXP_59, 2, 59, 24, 4)
  {
  }

  lemma Check59Block28()
    ensures StepsBetween(DLOG_59, EXP_59, 2, 59, 28, 4)
  {
  }

  lemma Check59Block32()
    ensures StepsBetween(DLOG_59, EXP_59, 2, 59, 32, 4)
  {
  }

  lemma Check59Block36()
    ensures StepsBetween(DLOG_59, EXP_59, 2, 59, 36, 4)
  {
  }

  lemma Check59Block40()
    ensures StepsBetween(DLOG_59, EXP_59, 2, 59, 40, 4)
  {
  }

  lemma Check59Block44()
    ensures StepsBetween(DLOG_59, EXP_59, 2, 59, 44, 4)
  {
  }

  lemma Check59Block48()
    ensures StepsBetween(DLOG_59, EXP_59, 2, 59, 48, 4)
  {
  }

  lemma Check59Block52()
    ensures StepsBetween(DLOG_59, EXP_59, 2, 59, 52, 4)
  {
  }

  lemma Check59Block56()
    ensures StepsBetween(DLOG_59, EXP_59, 2, 59, 56, 4)
  {
  }

  lemma Check59From32()
    ensures StepsFrom(DLOG_59, EXP_59, 2, 59, 32)
  {
    Check59Block56();
    assert StepsFrom(DLOG_59, EXP_59, 2, 59, 56);
    Check59Block52();
    assert StepsFrom(DLOG_59, EXP_59, 2, 59, 52);
    Check59Block48();
    assert StepsFrom(DLOG_59, EXP_59, 2, 59, 48);
    Check59Block44();
    assert StepsFrom(DLOG_59, EXP_59, 2, 59, 44);
    Check59Block40();
    assert StepsFrom(DLOG_59, EXP_59, 2, 59, 40);
    Check59Block36();
    assert StepsFrom(DLOG_59, EXP_59, 2, 59, 36);
    Check59Block32();
    assert StepsFrom(DLOG_59, EXP_59, 2, 59, 32);
  }

  lemma Check59From0()
    ensures StepsFrom(DLOG_59, EXP_59, 2, 59, 0)
  {
    Check59From32();
    Check59Block28();
    assert StepsFrom(DLOG_59, EXP_59, 2, 59, 28);
    Check59Block24();
    assert StepsFrom(DLOG_59, EXP_59, 2, 59, 24);
    Check59Block20();
    assert StepsFrom(DLOG_59, EXP_59, 2, 59, 20);
    Check59Block16();
    assert StepsFrom(DLOG_59, EXP_59, 2, 59, 16);
    Check59Block12();
    assert StepsFrom(DLOG_59, EXP_59, 2, 59, 12);
    Check59Block8();
    assert StepsFrom(DLOG_59, EXP_59, 2, 59, 8);
    Check59Block4();
    assert StepsFrom(DLOG_59, EXP_59, 2, 59, 4);
    Check59Block0();
    assert StepsFrom(DLOG_59, EXP_59, 2, 59, 0);
  }

  lemma Shape59()
    ensures ShapedFrom(DLOG_59, 59, 0) && ShapedFrom(EXP_59, 59, 0)
  {
  }

  lemma Wrap59()
    ensures At(EXP_59, 58) == 1
  {
  }

  lemma Check59()
    ensures Checked(DLOG_59, EXP_59, 2, 59)
  {
    Shape59();
    Wrap59();
    Check59From0();
  }

  const DLOG_61: seq<seq<nat>> := [
    [0, 0, 1, 6, 2, 22, 7, 49], [3, 12, 23, 15, 8, 40, 50, 28],
    [4, 47, 13, 26, 24, 55, 16, 57], [9, 44, 41, 18, 51, 35, 29, 59],
    [5, 21, 48, 11, 14, 39, 27, 46], [25, 54, 56, 43, 17, 34, 58, 20],
    [10, 38, 45, 53, 42, 33, 19, 37], [52, 32, 36, 31, 30]
  ]

  const EXP_61: seq<seq<nat>> := [
    [1, 2, 4, 8, 16, 32, 3, 6], [12, 24, 48, 35, 9, 18, 36, 11],
    [22, 44, 27, 54, 47, 33, 5, 10], [20, 40, 19, 38, 15, 30, 60, 59],
    [57, 53, 45, 29, 58, 55, 49, 37], [13, 26, 52, 43, 25, 50, 39, 17],
    [34, 7, 14, 28, 56, 51, 41, 21], [42, 23, 46, 31, 1]
  ]

  lemma Check61Block0()
    ensures StepsBetween(DLOG_61, EXP_61, 2, 61, 0, 4)
  {
  }

  lemma Check61Block4()
    ensures StepsBetween(DLOG_61, EXP_61, 2, 61, 4, 4)
  {
  }

  lemma Check61Block8()
    ensures StepsBetween(DLOG_61, EXP_61, 2, 61, 8, 4)
  {
  }

  lemma Check61Block12()
    ensures StepsBetween(DLOG_61, EXP_61, 2, 61, 12, 4)
  {
  }

  lemma Check61Block16()
    ensures StepsBetween(DLOG_61, EXP_61, 2, 61, 16, 4)
  {
  }

  lemma Check61Block20()
    ensures StepsBetween(DLOG_61, EXP_61, 2, 61, 20, 4)
  {
  }

  lemma Check61Block24()
    ensures StepsBetween(DLOG_61, EXP_61, 2, 61, 24, 4)
  {
  }

  lemma Check61Block28()
    ensures StepsBetween(DLOG_61, EXP_61, 2, 61, 28, 4)
  {
  }

  lemma Check61Block32()
    ensures StepsBetween(DLOG_61, EXP_61, 2, 61, 32, 4)
  {
  }

  lemma Check61Block36()
    ensures StepsBetween(DLOG_61, EXP_61, 2, 61, 36, 4)
  {
  }

  lemma Check61Block40()
    ensures StepsBetween(DLOG_61, EXP_61, 2, 61, 40, 4)
  {
  }

  lemma Check61Block44()
    ensures StepsBetween(DLOG_61, EXP_61, 2, 61, 44, 4)
  {
  }

  lemma Check61Block48()
    ensures StepsBetween(DLOG_61, EXP_61, 2, 61, 48, 4)
  {
  }

  lemma Check61Block52()
    ensures StepsBetween(DLOG_61, EXP_61, 2, 61, 52, 4)
  {
  }

  lemma Check61Block56()
    ensures StepsBetween(DLOG_61, EXP_61, 2, 61, 56, 4)
  {
  }

  lemma Check61Block60()
    ensures StepsBetween(DLOG_61, EXP_61, 2, 61, 60, 4)
  {
  }

  lemma Check61From32()
    ensures StepsFrom(DLOG_61, EXP_61, 2, 61, 32)
  {
    Check61Block60();
    assert StepsFrom(DLOG_61, EXP_61, 2, 61, 60);
    Check61Block56();
    assert StepsFrom(DLOG_61, EXP_61, 2, 61, 56);
    Check61Block52();
    assert StepsFrom(DLOG_61, EXP_61, 2, 61, 52);
    Check61Block48();
    assert StepsFrom(DLOG_61, EXP_61, 2, 61, 48);
    Check61Block44();
    assert StepsFrom(DLOG_61, EXP_61, 2, 61, 44);
    Check61Block40();
    assert StepsFrom(DLOG_61, EXP_61, 2, 61, 40);
    Check61Block36();
    assert StepsFrom(DLOG_61, EXP_61, 2, 61, 36);
    Check61Block32();
    assert StepsFrom(DLOG_61, EXP_61, 2, 61, 32);
  }

  lemma Check61From0()
    ensures StepsFrom(DLOG_61, EXP_61, 2, 61, 0)
  {
    Check61From32();
    Check61Block28();
    assert StepsFrom(DLOG_61, EXP_61, 2, 61, 28);
    Check61Block24();
    assert StepsFrom(DLOG_61, EXP_61, 2, 61, 24);
    Check61Block20();
    assert StepsFrom(DLOG_61, EXP_61, 2, 61, 20);
    Check61Block16();
    assert StepsFrom(DLOG_61, EXP_61, 2, 61, 16);
    Check61Block12();
    assert StepsFrom(DLOG_61, EXP_61, 2, 61, 12);
    Check61Block8();
    assert StepsFrom(DLOG_61, EXP_61, 2, 61, 8);
    Check61Block4();
    assert StepsFrom(DLOG_61, EXP_61, 2, 61, 4);
    Check61Block0();
    assert StepsFrom(DLOG_61, EXP_61, 2, 61, 0);
  }

  lemma Shape61()
    ensures ShapedFrom(DLOG_61, 61, 0) && ShapedFrom(EXP_61, 61, 0)
  {
  }

  lemma Wrap61()
    ensures At(EXP_61, 60) == 1
  {
  }

  lemma Check61()
    ensures Checked(DLOG_61, EXP_61, 2, 61)
  {
    Shape61();
    Wrap61();
    Check61From0();
  }

  const DLOG_67: seq<seq<nat>> := [
    [0, 0, 1, 39, 2, 15, 40, 23], [3, 12, 16, 59, 41, 19, 24, 54],
    [4, 64, 13, 10, 17, 62, 60, 28], [42, 30, 20, 51, 25, 44, 55, 47],
    [5, 32, 65, 38, 14, 22, 11, 58], [18, 53, 63, 9, 61, 27, 29, 50],
    [43, 46, 31, 37, 21, 57, 52, 8], [26, 49, 45, 36, 56, 7, 48, 35],
    [6, 34, 33]
  ]

  const EXP_67: seq<seq<nat>> := [
    [1, 2, 4, 8, 16, 32, 64, 61], [55, 43, 19, 38, 9, 18, 36, 5],
    [10, 20, 40, 13, 26, 52, 37, 7], [14, 28, 56, 45, 23, 46, 25, 50],
    [33, 66, 65, 63, 59, 51, 35, 3], [6, 12, 24, 48, 29, 58, 49, 31],
    [62, 57, 47, 27, 54, 41, 15, 30], [60, 53, 39, 11, 22, 44, 21, 42],
    [17, 34, 1]
  ]

  lemma Check67Block0()
    ensures StepsBetween(DLOG_67, EXP_67, 2, 67, 0, 4)
  {
  }

  lemma Check67Block4()
    ensures StepsBetween(DLOG_67, EXP_67, 2, 67, 4, 4)
  {
  }

  lemma Check67Block8()
    ensures StepsBetween(DLOG_67, EXP_67, 2, 67, 8, 4)
  {
  }

  lemma Check67Block12()
    ensures StepsBetween(DLOG_67, EXP_67, 2, 67, 12, 4)
  {
  }

  lemma Check67Block16()
    ensures StepsBetween(DLOG_67, EXP_67, 2, 67, 16, 4)
  {
  }

  lemma Check67Block20()
    ensures StepsBetween(DLOG_67, EXP_67, 2, 67, 20, 4)
  {
  }

  lemma Check67Block24()
    ensures StepsBetween(DLOG_67, EXP_67, 2, 67, 24, 4)
  {
  }

  lemma Check67Block28()
    ensures StepsBetween(DLOG_67, EXP_67, 2, 67, 28, 4)
  {
  }

  lemma Check67Block32()
    ensures StepsBetween(DLOG_67, EXP_67, 2, 67, 32, 4)
  {
  }

  lemma Check67Block36()
    ensures StepsBetween(DLOG_67, EXP_67, 2, 67, 36, 4)
  {
  }

  lemma Check67Block40()
    ensures StepsBetween(DLOG_67, EXP_67, 2, 67, 40, 4)
  {
  }

  lemma Check67Block44()
    ensures StepsBetween(DLOG_67, EXP_67, 2, 67, 44, 4)
  {
  }

  lemma Check67Block48()
    ensures StepsBetween(DLOG_67, EXP_67, 2, 67, 48, 4)
  {
  }

  lemma Check67Block52()
    ensures StepsBetween(DLOG_67, EXP_67, 2, 67, 52, 4)
  {
  }

  lemma Check67Block56()
    ensures StepsBetween(DLOG_67, EXP_67, 2, 67, 56, 4)
  {
  }

  lemma Check67Block60()
    ensures StepsBetween(DLOG_67, EXP_67, 2, 67, 60, 4)
  {
  }

  lemma Check67Block64()
    ensures StepsBetween(DLOG_67, EXP_67, 2, 67, 64, 4)
  {
  }

  lemma Check67From64()
    ensures StepsFrom(DLOG_67, EXP_67, 2, 67, 64)
  {
    Check67Block64();
    assert StepsFrom(DLOG_67, EXP_67, 2, 67, 64);
  }

  lemma Check67From32()
    ensures StepsFrom(DLOG_67, EXP_67, 2, 67, 32)
  {
    Check67From64();
    Check67Block60();
    assert StepsFrom(DLOG_67, EXP_67, 2, 67, 60);
    Check67Block56();
    assert StepsFrom(DLOG_67, EXP_67, 2, 67, 56);
    Check67Block52();
    assert StepsFrom(DLOG_67, EXP_67, 2, 67, 52);
    Check67Block48();
    assert StepsFrom(DLOG_67, EXP_67, 2, 67, 48);
    Check67Block44();
    assert StepsFrom(DLOG_67, EXP_67, 2, 67, 44);
    Check67Block40();
    assert StepsFrom(DLOG_67, EXP_67, 2, 67, 40);
    Check67Block36();
    assert StepsFrom(DLOG_67, EXP_67, 2, 67, 36);
    Check67Block32();
    assert StepsFrom(DLOG_67, EXP_67, 2, 67, 32);
  }

  lemma Check67From0()
    ensures StepsFrom(DLOG_67, EXP_67, 2, 67, 0)
  {
    Check67From32();
    Check67Block28();
    assert StepsFrom(DLOG_67, EXP_67, 2, 67, 28);
    Check67Block24();
    assert StepsFrom(DLOG_67, EXP_67, 2, 67, 24);
    Check67Block20();
    assert StepsFrom(DLOG_67, EXP_67, 2, 67, 20);
    Check67Block16();
    assert StepsFrom(DLOG_67, EXP_67, 2, 67, 16);
    Check67Block12();
    assert StepsFrom(DLOG_67, EXP_67, 2, 67, 12);
    Check67Block8();
    assert StepsFrom(DLOG_67, EXP_67, 2, 67, 8);
    Check67Block4();
    assert StepsFrom(DLOG_67, EXP_67, 2, 67, 4);
    Check67Block0();
    assert StepsFrom(DLOG_67, EXP_67, 2, 67, 0);
  }

  lemma Shape67()
    ensures ShapedFrom(DLOG_67, 67, 0) && ShapedFrom(EXP_67, 67, 0)
  {
  }

  lemma Wrap67()
    ensures At(EXP_67, 66) == 1
  {
  }

  lemma Check67()
    ensures Checked(DLOG_67, EXP_67, 2, 67)
  {
    Shape67();
    Wrap67();
    Check67From0();
  }

  const DLOG_71: seq<seq<nat>> := [
    [0, 0, 6, 26, 12, 28, 32, 1], [18, 52, 34, 31, 38, 39, 7, 54],
    [24, 49, 58, 16, 40, 27, 37, 15], [44, 56, 45, 8, 13, 68, 60, 11],
    [30, 57, 55, 29, 64, 20, 22, 65], [46, 25, 33, 48, 43, 10, 21, 9],
    [50, 2, 62, 5, 51, 23, 14, 59], [19, 42, 4, 3, 66, 69, 17, 53],
    [36, 67, 63, 47, 61, 41, 35]
  ]

  const EXP_71: seq<seq<nat>> := [
    [1, 7, 49, 59, 58, 51, 2, 14], [27, 47, 45, 31, 4, 28, 54, 23],
    [19, 62, 8, 56, 37, 46, 38, 53], [16, 41, 3, 21, 5, 35, 32, 11],
    [6, 42, 10, 70, 64, 22, 12, 13], [20, 69, 57, 44, 24, 26, 40, 67],
    [43, 17, 48, 52, 9, 63, 15, 34], [25, 33, 18, 55, 30, 68, 50, 66],
    [36, 39, 60, 65, 29, 61, 1]
  ]

  lemma Check71Block0()
    ensures StepsBetween(DLOG_71, EXP_71, 7, 71, 0, 4)
  {
  }

  lemma Check71Block4()
    ensures StepsBetween(DLOG_71, EXP_71, 7, 71, 4, 4)
  {
  }

  lemma Check71Block8()
    ensures StepsBetween(DLOG_71, EXP_71, 7, 71, 8, 4)
  {
  }

  lemma Check71Block12()
    ensures StepsBetween(DLOG_71, EXP_71, 7, 71, 12, 4)
  {
  }

  lemma Check71Block16()
    ensures StepsBetween(DLOG_71, EXP_71, 7, 71, 16, 4)
  {
  }

  lemma Check71Block20()
    ensures StepsBetween(DLOG_71, EXP_71, 7, 71, 20, 4)
  {
  }

  lemma Check71Block24()
    ensures StepsBetween(DLOG_71, EXP_71, 7, 71, 24, 4)
  {
  }

  lemma Check71Block28()
    ensures StepsBetween(DLOG_71, EXP_71, 7, 71, 28, 4)
  {
  }

  lemma Check71Block32()
    ensures StepsBetween(DLOG_71, EXP_71, 7, 71, 32, 4)
  {
  }

  lemma Check71Block36()
    ensures StepsBetween(DLOG_71, EXP_71, 7, 71, 36, 4)
  {
  }

  lemma Check71Block40()
    ensures StepsBetween(DLOG_71, EXP_71, 7, 71, 40, 4)
  {
  }

  lemma Check71Block44()
    ensures StepsBetween(DLOG_71, EXP_71, 7, 71, 44, 4)
  {
  }

  lemma Check71Block48()
    ensures StepsBetween(DLOG_71, EXP_71, 7, 71, 48, 4)
  {
  }

  lemma Check71Block52()
    ensures StepsBetween(DLOG_71, EXP_71, 7, 71, 52, 4)
  {
  }

  lemma Check71Block56()
    ensures StepsBetween(DLOG_71, EXP_71, 7, 71, 56, 4)
  {
  }

  lemma Check71Block60()
    ensures StepsBetween(DLOG_71, EXP_71, 7, 71, 60, 4)
  {
  }

  lemma Check71Block64()
    ensures StepsBetween(DLOG_71, EXP_71, 7, 71, 64, 4)
  {
  }

  lemma Check71Block68()
    ensures StepsBetween(DLOG_71, EXP_71, 7, 71, 68, 4)
  {
  }

  lemma Check71From64()
    ensures StepsFrom(DLOG_71, EXP_71, 7, 71, 64)
  {
    Check71Block68();
    assert StepsFrom(DLOG_71, EXP_71, 7, 71, 68);
    Check71Block64();
    assert StepsFrom(DLOG_71, EXP_71, 7, 71, 64);
  }

  lemma Check71From32()
    ensures StepsFrom(DLOG_71, EXP_71, 7, 71, 32)
  {
    Check71From64();
    Check71Block60();
    assert StepsFrom(DLOG_71, EXP_71, 7, 71, 60);
    Check71Block56();
    assert StepsFrom(DLOG_71, EXP_71, 7, 71, 56);
    Check71Block52();
    assert StepsFrom(DLOG_71, EXP_71, 7, 71, 52);
    Check71Block48();
    assert StepsFrom(DLOG_71, EXP_71, 7, 71, 48);
    Check71Block44();
    assert StepsFrom(DLOG_71, EXP_71, 7, 71, 44);
    Check71Block40();
    assert StepsFrom(DLOG_71, EXP_71, 7, 71, 40);
    Check71Block36();
    assert StepsFrom(DLOG_71, EXP_71, 7, 71, 36);
    Check71Block32();
    assert StepsFrom(DLOG_71, EXP_71, 7, 71, 32);
  }

  lemma Check71From0()
    ensures StepsFrom(DLOG_71, EXP_71, 7, 71, 0)
  {
    Check71From32();
    Check71Block28();
    assert StepsFrom(DLOG_71, EXP_71, 7, 71, 28);
    Check71Block24();
    assert StepsFrom(DLOG_71, EXP_71, 7, 71, 24);
    Check71Block20();
    assert StepsFrom(DLOG_71, EXP_71, 7, 71, 20);
    Check71Block16();
    assert StepsFrom(DLOG_71, EXP_71, 7, 71, 16);
    Check71Block12();
    assert StepsFrom(DLOG_71, EXP_71, 7, 71, 12);
    Check71Block8();
    assert StepsFrom(DLOG_71, EXP_71, 7, 71, 8);
    Check71Block4();
    assert StepsFrom(DLOG_71, EXP_71, 7, 71, 4);
    Check71Block0();
    assert StepsFrom(DLOG_71, EXP_71, 7, 71, 0);
  }

  lemma Shape71()
    ensures ShapedFrom(DLOG_71, 71, 0) && ShapedFrom(EXP_71, 71, 0)
  {
  }

  lemma Wrap71()
    ensures At(EXP_71, 70) == 1
  {
  }

  lemma Check71()
    ensures Checked(DLOG_71, EXP_71, 7, 71)
  {
    Shape71();
    Wrap71();
    Check71From0();
  }

  const DLOG_73: seq<seq<nat>> := [
    [0, 0, 8, 6, 16, 1, 14, 33], [24, 12, 9, 55, 22, 59, 41, 7],
    [32, 21, 20, 62, 17, 39, 63, 46], [30, 2, 67, 18, 49, 35, 15, 11],
    [40, 61, 29, 34, 28, 64, 70, 65], [25, 4, 47, 51, 71, 13, 54, 31],
    [38, 66, 10, 27, 3, 53, 26, 56], [57, 68, 43, 5, 23, 58, 19, 45],
    [48, 60, 69, 50, 37, 52, 42, 44], [36]
  ]

  const EXP_73: seq<seq<nat>> := [
    [1, 5, 25, 52, 41, 59, 3, 15], [2, 10, 50, 31, 9, 45, 6, 30],
    [4, 20, 27, 62, 18, 17, 12, 60], [8, 40, 54, 51, 36, 34, 24, 47],
    [16, 7, 35, 29, 72, 68, 48, 21], [32, 14, 70, 58, 71, 63, 23, 42],
    [64, 28, 67, 43, 69, 53, 46, 11], [55, 56, 61, 13, 65, 33, 19, 22],
    [37, 39, 49, 26, 57, 66, 38, 44], [1]
  ]

  lemma Check73Block0()
    ensures StepsBetween(DLOG_73, EXP_73, 5, 73, 0, 4)
  {
  }

  lemma Check73Block4()
    ensures StepsBetween(DLOG_73, EXP_73, 5, 73, 4, 4)
  {
  }

  lemma Check73Block8()
    ensures StepsBetween(DLOG_73, EXP_73, 5, 73, 8, 4)
  {
  }

  lemma Check73Block12()
    ensures StepsBetween(DLOG_73, EXP_73, 5, 73, 12, 4)
  {
  }

  lemma Check73Block16()
    ensures StepsBetween(DLOG_73, EXP_73, 5, 73, 16, 4)
  {
  }

  lemma Check73Block20()
    ensures StepsBetween(DLOG_73, EXP_73, 5, 73, 20, 4)
  {
  }

  lemma Check73Block24()
    ensures StepsBetween(DLOG_73, EXP_73, 5, 73, 24, 4)
  {
  }

  lemma Check73Block28()
    ensures StepsBetween(DLOG_73, EXP_73, 5, 73, 28, 4)
  {
  }

  lemma Check73Block32()
    ensures StepsBetween(DLOG_73, EXP_73, 5, 73, 32, 4)
  {
  }

  lemma Check73Block36()
    ensures StepsBetween(DLOG_73, EXP_73, 5, 73, 36, 4)
  {
  }

  lemma Check73Block40()
    ensures StepsBetween(DLOG_73, EXP_73, 5, 73, 40, 4)
  {
  }

  lemma Check73Block44()
    ensures StepsBetween(DLOG_73, EXP_73, 5, 73, 44, 4)
  {
  }

  lemma Check73Block48()
    ensures StepsBetween(DLOG_73, EXP_73, 5, 73, 48, 4)
  {
  }

  lemma Check73Block52()
    ensures StepsBetween(DLOG_73, EXP_73, 5, 73, 52, 4)
  {
  }

  lemma Check73Block56()
    ensures StepsBetween(DLOG_73, EXP_73, 5, 73, 56, 4)
  {
  }

  lemma Check73Block60()
    ensures StepsBetween(DLOG_73, EXP_73, 5, 73, 60, 4)
  {
  }

  lemma Check73Block64()
    ensures StepsBetween(DLOG_73, EXP_73, 5, 73, 64, 4)
  {
  }

  lemma Check73Block68()
    ensures StepsBetween(DLOG_73, EXP_73, 5, 73, 68, 4)
  {
  }

  lemma Check73Block72()
    ensures StepsBetween(DLOG_73, EXP_73, 5, 73, 72, 4)
  {
  }

  lemma Check73From64()
    ensures StepsFrom(DLOG_73, EXP_73, 5, 73, 64)
  {
    Check73Block72();
    assert StepsFrom(DLOG_73, EXP_73, 5, 73, 72);
    Check73Block68();
    assert StepsFrom(DLOG_73, EXP_73, 5, 73, 68);
    Check73Block64();
    assert StepsFrom(DLOG_73, EXP_73, 5, 73, 64);
  }

  lemma Check73From32()
    ensures StepsFrom(DLOG_73, EXP_73, 5, 73, 32)
  {
    Check73From64();
    Check73Block60();
    assert StepsFrom(DLOG_73, EXP_73, 5, 73, 60);
    Check73Block56();
    assert StepsFrom(DLOG_73, EXP_73, 5, 73, 56);
    Check73Block52();
    assert StepsFrom(DLOG_73, EXP_73, 5, 73, 52);
    Check73Block48();
    assert StepsFrom(DLOG_73, EXP_73, 5, 73, 48);
    Check73Block44();
    assert StepsFrom(DLOG_73, EXP_73, 5, 73, 44);
    Check73Block40();
    assert StepsFrom(DLOG_73, EXP_73, 5, 73, 40);
    Check73Block36();
    assert StepsFrom(DLOG_73, EXP_73, 5, 73, 36);
    Check73Block32();
    assert StepsFrom(DLOG_73, EXP_73, 5, 73, 32);
  }

  lemma Check73From0()
    ensures StepsFrom(DLOG_73, EXP_73, 5, 73, 0)
  {
    Check73From32();
    Check73Block28();
    assert StepsFrom(DLOG_73, EXP_73, 5, 73, 28);
    Check73Block24();
    assert StepsFrom(DLOG_73, EXP_73, 5, 73, 24);
    Check73Block20();
    assert StepsFrom(DLOG_73, EXP_73, 5, 73, 20);
    Check73Block16();
    assert StepsFrom(DLOG_73, EXP_73, 5, 73, 16);
    Check73Block12();
    assert StepsFrom(DLOG_73, EXP_73, 5, 73, 12);
    Check73Block8();
    assert StepsFrom(DLOG_73, EXP_73, 5, 73, 8);
    Check73Block4();
    assert StepsFrom(DLOG_73, EXP_73, 5, 73, 4);
    Check73Block0();
    assert StepsFrom(DLOG_73, EXP_73, 5, 73, 0);
  }

  lemma Shape73()
    ensures ShapedFrom(DLOG_73, 73, 0) && ShapedFrom(EXP_73, 73, 0)
  {
  }

  lemma Wrap73()
    ensures At(EXP_73, 72) == 1
  {
  }

  lemma Check73()
    ensures Checked(DLOG_73, EXP_73, 5, 73)
  {
    Shape73();
    Wrap73();
    Check73From0();
  }

  const DLOG_79: seq<seq<nat>> := [
    [0, 0, 4, 1, 8, 62, 5, 53], [12, 2, 66, 68, 9, 34, 57, 63],
    [16, 21, 6, 32, 70, 54, 72, 26], [13, 46, 38, 3, 61, 11, 67, 56],
    [20, 69, 25, 37, 10, 19, 36, 35], [74, 75, 58, 49, 76, 64, 30, 59],
    [17, 28, 50, 22, 42, 77, 7, 52], [65, 33, 15, 31, 71, 45, 60, 55],
    [24, 18, 73, 48, 29, 27, 41, 51], [14, 44, 23, 47, 40, 43, 39]
  ]

  const EXP_79: seq<seq<nat>> := [
    [1, 3, 9, 27, 2, 6, 18, 54], [4, 12, 36, 29, 8, 24, 72, 58],
    [16, 48, 65, 37, 32, 17, 51, 74], [64, 34, 23, 69, 49, 68, 46, 59],
    [19, 57, 13, 39, 38, 35, 26, 78], [76, 70, 52, 77, 73, 61, 25, 75],
    [67, 43, 50, 71, 55, 7, 21, 63], [31, 14, 42, 47, 62, 28, 5, 15],
    [45, 56, 10, 30, 11, 33, 20, 60], [22, 66, 40, 41, 44, 53, 1]
  ]

  lemma Check79Block0()
    ensures StepsBetween(DLOG_79, EXP_79, 3, 79, 0, 4)
  {
  }

  lemma Check79Block4()
    ensures StepsBetween(DLOG_79, EXP_79, 3, 79, 4, 4)
  {
  }

  lemma Check79Block8()
    ensures StepsBetween(DLOG_79, EXP_79, 3, 79, 8, 4)
  {
  }

  lemma Check79Block12()
    ensures StepsBetween(DLOG_79, EXP_79, 3, 79, 12, 4)
  {
  }

  lemma Check79Block16()
    ensures StepsBetween(DLOG_79, EXP_79, 3, 79, 16, 4)
  {
  }

  lemma Check79Block20()
    ensures StepsBetween(DLOG_79, EXP_79, 3, 79, 20, 4)
  {
  }

  lemma Check79Block24()
    ensures StepsBetween(DLOG_79, EXP_79, 3, 79, 24, 4)
  {
  }

  lemma Check79Block28()
    ensures StepsBetween(DLOG_79, EXP_79, 3, 79, 28, 4)
  {
  }

  lemma Check79Block32()
    ensures StepsBetween(DLOG_79, EXP_79, 3, 79, 32, 4)
  {
  }

  lemma Check79Block36()
    ensures StepsBetween(DLOG_79, EXP_79, 3, 79, 36, 4)
  {
  }

  lemma Check79Block40()
    ensures StepsBetween(DLOG_79, EXP_79, 3, 79, 40, 4)
  {
  }

  lemma Check79Block44()
    ensures StepsBetween(DLOG_79, EXP_79, 3, 79, 44, 4)
  {
  }

  lemma Check79Block48()
    ensures StepsBetween(DLOG_79, EXP_79, 3, 79, 48, 4)
  {
  }

  lemma Check79Block52()
    ensures StepsBetween(DLOG_79, EXP_79, 3, 79, 52, 4)
  {
  }

  lemma Check79Block56()
    ensures StepsBetween(DLOG_79, EXP_79, 3, 79, 56, 4)
  {
  }

  lemma Check79Block60()
    ensures StepsBetween(DLOG_79, EXP_79, 3, 79, 60, 4)
  {
  }

  lemma Check79Block64()
    ensures StepsBetween(DLOG_79, EXP_79, 3, 79, 64, 4)
  {
  }

  lemma Check79Block68()
    ensures StepsBetween(DLOG_79, EXP_79, 3, 79, 68, 4)
  {
  }

  lemma Check79Block72()
    ensures StepsBetween(DLOG_79, EXP_79, 3, 79, 72, 4)
  {
  }

  lemma Check79Block76()
    ensures StepsBetween(DLOG_79, EXP_79, 3, 79, 76, 4)
  {
  }

  lemma Check79From64()
    ensures StepsFrom(DLOG_79, EXP_79, 3, 79, 64)
  {
    Check79Block76();
    assert StepsFrom(DLOG_79, EXP_79, 3, 79, 76);
    Check79Block72();
    assert StepsFrom(DLOG_79, EXP_79, 3, 79, 72);
    Check79Block68();
    assert StepsFrom(DLOG_79, EXP_79, 3, 79, 68);
    Check79Block64();
    assert StepsFrom(DLOG_79, EXP_79, 3, 79, 64);
  }

  lemma Check79From32()
    ensures StepsFrom(DLOG_79, EXP_79, 3, 79, 32)
  {
    Check79From64();
    Check79Block60();
    assert StepsFrom(DLOG_79, EXP_79, 3, 79, 60);
    Check79Block56();
    assert StepsFrom(DLOG_79, EXP_79, 3, 79, 56);
    Check79Block52();
    assert StepsFrom(DLOG_79, EXP_79, 3, 79, 52);
    Check79Block48();
    assert StepsFrom(DLOG_79, EXP_79, 3, 79, 48);
    Check79Block44();
    assert StepsFrom(DLOG_79, EXP_79, 3, 79, 44);
    Check79Block40();
    assert StepsFrom(DLOG_79, EXP_79, 3, 79, 40);
    Check79Block36();
    assert StepsFrom(DLOG_79, EXP_79, 3, 79, 36);
    Check79Block32();
    assert StepsFrom(DLOG_79, EXP_79, 3, 79, 32);
  }

  lemma Check79From0()
    ensures StepsFrom(DLOG_79, EXP_79, 3, 79, 0)
  {
    Check79From32();
    Check79Block28();
    assert StepsFrom(DLOG_79, EXP_79, 3, 79, 28);
    Check79Block24();
    assert StepsFrom(DLOG_79, EXP_79, 3, 79, 24);
    Check79Block20();
    assert StepsFrom(DLOG_79, EXP_79, 3, 79, 20);
    Check79Block16();
    assert StepsFrom(DLOG_79, EXP_79, 3, 79, 16);
    Check79Block12();
    assert StepsFrom(DLOG_79, EXP_79, 3, 79, 12);
    Check79Block8();
    assert StepsFrom(DLOG_79, EXP_79, 3, 79, 8);
    Check79Block4();
    assert StepsFrom(DLOG_79, EXP_79, 3, 79, 4);
    Check79Block0();
    assert StepsFrom(DLOG_79, EXP_79, 3, 79, 0);
  }

  lemma Shape79()
    ensures ShapedFrom(DLOG_79, 79, 0) && ShapedFrom(EXP_79, 79, 0)
  {
  }

  lemma Wrap79()
    ensures At(EXP_79, 78) == 1
  {
  }

  lemma Check79()
    ensures Checked(DLOG_79, EXP_79, 3, 79)
  {
    Shape79();
    Wrap79();
    Check79From0();
  }

  const DLOG_83: seq<seq<nat>> := [
    [0, 0, 1, 72, 2, 27, 73, 8], [3, 62, 28, 24, 74, 77, 9, 17],
    [4, 56, 63, 47, 29, 80, 25, 60], [75, 54, 78, 52, 10, 12, 18, 38],
    [5, 14, 57, 35, 64, 20, 48, 67], [30, 40, 81, 71, 26, 7, 61, 23],
    [76, 16, 55, 46, 79, 59, 53, 51], [11, 37, 13, 34, 19, 66, 39, 70],
    [6, 22, 15, 45, 58, 50, 36, 33], [65, 69, 21, 44, 49, 32, 68, 43],
    [31, 42, 41]
  ]

  const EXP_83: seq<seq<nat>> := [
    [1, 2, 4, 8, 16, 32, 64, 45], [7, 14, 28, 56, 29, 58, 33, 66],
    [49, 15, 30, 60, 37, 74, 65, 47], [11, 22, 44, 5, 10, 20, 40, 80],
    [77, 71, 59, 35, 70, 57, 31, 62], [41, 82, 81, 79, 75, 67, 51, 19],
    [38, 76, 69, 55, 27, 54, 25, 50], [17, 34, 68, 53, 23, 46, 9, 18],
    [36, 72, 61, 39, 78, 73, 63, 43], [3, 6, 12, 24, 48, 13, 26, 52],
    [21, 42, 1]
  ]

  lemma Check83Block0()
    ensures StepsBetween(DLOG_83, EXP_83, 2, 83, 0, 4)
  {
  }

  lemma Check83Block4()
    ensures StepsBetween(DLOG_83, EXP_83, 2, 83, 4, 4)
  {
  }

  lemma Check83Block8()
    ensures StepsBetween(DLOG_83, EXP_83, 2, 83, 8, 4)
  {
  }

  lemma Check83Block12()
    ensures StepsBetween(DLOG_83, EXP_83, 2, 83, 12, 4)
  {
  }

  lemma Check83Block16()
    ensures StepsBetween(DLOG_83, EXP_83, 2, 83, 16, 4)
  {
  }

  lemma Check83Block20()
    ensures StepsBetween(DLOG_83, EXP_83, 2, 83, 20, 4)
  {
  }

  lemma Check83Block24()
    ensures StepsBetween(DLOG_83, EXP_83, 2, 83, 24, 4)
  {
  }

  lemma Check83Block28()
    ensures StepsBetween(DLOG_83, EXP_83, 2, 83, 28, 4)
  {
  }

  lemma Check83Block32()
    ensures StepsBetween(DLOG_83, EXP_83, 2, 83, 32, 4)
  {
  }

  lemma Check83Block36()
    ensures StepsBetween(DLOG_83, EXP_83, 2, 83, 36, 4)
  {
  }

  lemma Check83Block40()
    ensures StepsBetween(DLOG_83, EXP_83, 2, 83, 40, 4)
  {
  }

  lemma Check83Block44()
    ensures StepsBetween(DLOG_83, EXP_83, 2, 83, 44, 4)
  {
  }

  lemma Check83Block48()
    ensures StepsBetween(DLOG_83, EXP_83, 2, 83, 48, 4)
  {
  }

  lemma Check83Block52()
    ensures StepsBetween(DLOG_83, EXP_83, 2, 83, 52, 4)
  {
  }

  lemma Check83Block56()
    ensures StepsBetween(DLOG_83, EXP_83, 2, 83, 56, 4)
  {
  }

  lemma Check83Block60()
    ensures StepsBetween(DLOG_83, EXP_83, 2, 83, 60, 4)
  {
  }

  lemma Check83Block64()
    ensures StepsBetween(DLOG_83, EXP_83, 2, 83, 64, 4)
  {
  }

  lemma Check83Block68()
    ensures StepsBetween(DLOG_83, EXP_83, 2, 83, 68, 4)
  {
  }

  lemma Check83Block72()
    ensures StepsBetween(DLOG_83, EXP_83, 2, 83, 72, 4)
  {
  }

  lemma Check83Block76()
    ensures StepsBetween(DLOG_83, EXP_83, 2, 83, 76, 4)
  {
  }

  lemma Check83Block80()
    ensures StepsBetween(DLOG_83, EXP_83, 2, 83, 80, 4)
  {
  }

  lemma Check83From64()
    ensures StepsFrom(DLOG_83, EXP_83, 2, 83, 64)
  {
    Check83Block80();
    assert StepsFrom(DLOG_83, EXP_83, 2, 83, 80);
    Check83Block76();
    assert StepsFrom(DLOG_83, EXP_83, 2, 83, 76);
    Check83Block72();
    assert StepsFrom(DLOG_83, EXP_83, 2, 83, 72);
    Check83Block68();
    assert StepsFrom(DLOG_83, EXP_83, 2, 83, 68);
    Check83Block64();
    assert StepsFrom(DLOG_83, EXP_83, 2, 83, 64);
  }

  lemma Check83From32()
    ensures StepsFrom(DLOG_83, EXP_83, 2, 83, 32)
  {
    Check83From64();
    Check83Block60();
    assert StepsFrom(DLOG_83, EXP_83, 2, 83, 60);
    Check83Block56();
    assert StepsFrom(DLOG_83, EXP_83, 2, 83, 56);
    Check83Block52();
    assert StepsFrom(DLOG_83, EXP_83, 2, 83, 52);
    Check83Block48();
    assert StepsFrom(DLOG_83, EXP_83, 2, 83, 48);
    Check83Block44();
    assert StepsFrom(DLOG_83, EXP_83, 2, 83, 44);
    Check83Block40();
    assert StepsFrom(DLOG_83, EXP_83, 2, 83, 40);
    Check83Block36();
    assert StepsFrom(DLOG_83, EXP_83, 2, 83, 36);
    Check83Block32();
    assert StepsFrom(DLOG_83, EXP_83, 2, 83, 32);
  }

  lemma Check83From0()
    ensures StepsFrom(DLOG_83, EXP_83, 2, 83, 0)
  {
    Check83From32();
    Check83Block28();
    assert StepsFrom(DLOG_83, EXP_83, 2, 83, 28);
    Check83Block24();
    assert StepsFrom(DLOG_83, EXP_83, 2, 83, 24);
    Check83Block20();
    assert StepsFrom(DLOG_83, EXP_83, 2, 83, 20);
    Check83Block16();
    assert StepsFrom(DLOG_83, EXP_83, 2, 83, 16);
    Check83Block12();
    assert StepsFrom(DLOG_83, EXP_83, 2, 83, 12);
    Check83Block8();
    assert StepsFrom(DLOG_83, EXP_83, 2, 83, 8);
    Check83Block4();
    assert StepsFrom(DLOG_83, EXP_83, 2, 83, 4);
    Check83Block0();
    assert StepsFrom(DLOG_83, EXP_83, 2, 83, 0);
  }

  lemma Shape83()
    ensures ShapedFrom(DLOG_83, 83, 0) && ShapedFrom(EXP_83, 83, 0)
  {
  }

  lemma Wrap83()
    ensures At(EXP_83, 82) == 1
  {
  }

  lemma Check83()
    ensures Checked(DLOG_83, EXP_83, 2, 83)
  {
    Shape83();
    Wrap83();
    Check83From0();
  }

  const DLOG_89: seq<seq<nat>> := [
    [0, 0, 16, 1, 32, 70, 17, 81], [48, 2, 86, 84, 33, 23, 9, 71],
    [64, 6, 18, 35, 14, 82, 12, 57], [49, 52, 39, 3, 25, 59, 87, 31],
    [80, 85, 22, 63, 34, 11, 51, 24], [30, 21, 10, 29, 28, 72, 73, 54],
    [65, 74, 68, 7, 55, 78, 19, 66], [41, 36, 75, 43, 15, 69, 47, 83],
    [8, 5, 13, 56, 38, 58, 79, 62], [50, 20, 27, 53, 67, 77, 40, 42],
    [46, 4, 37, 61, 26, 76, 45, 60], [44]
  ]

  const EXP_89: seq<seq<nat>> := [
    [1, 3, 9, 27, 81, 65, 17, 51], [64, 14, 42, 37, 22, 66, 20, 60],
    [2, 6, 18, 54, 73, 41, 34, 13], [39, 28, 84, 74, 44, 43, 40, 31],
    [4, 12, 36, 19, 57, 82, 68, 26], [78, 56, 79, 59, 88, 86, 80, 62],
    [8, 24, 72, 38, 25, 75, 47, 52], [67, 23, 69, 29, 87, 83, 71, 35],
    [16, 48, 55, 76, 50, 61, 5, 15], [45, 46, 49, 58, 85, 77, 53, 70],
    [32, 7, 21, 63, 11, 33, 10, 30], [1]
  ]

  lemma Check89Block0()
    ensures StepsBetween(DLOG_89, EXP_89, 3, 89, 0, 4)
  {
  }

  lemma Check89Block4()
    ensures StepsBetween(DLOG_89, EXP_89, 3, 89, 4, 4)
  {
  }

  lemma Check89Block8()
    ensures StepsBetween(DLOG_89, EXP_89, 3, 89, 8, 4)
  {
  }

  lemma Check89Block12()
    ensures StepsBetween(DLOG_89, EXP_89, 3, 89, 12, 4)
  {
  }

  lemma Check89Block16()
    ensures StepsBetween(DLOG_89, EXP_89, 3, 89, 16, 4)
  {
  }

  lemma Check89Block20()
    ensures StepsBetween(DLOG_89, EXP_89, 3, 89, 20, 4)
  {
  }

  lemma Check89Block24()
    ensures StepsBetween(DLOG_89, EXP_89, 3, 89, 24, 4)
  {
  }

  lemma Check89Block28()
    ensures StepsBetween(DLOG_89, EXP_89, 3, 89, 28, 4)
  {
  }

  lemma Check89Block32()
    ensures StepsBetween(DLOG_89, EXP_89, 3, 89, 32, 4)
  {
  }

  lemma Check89Block36()
    ensures StepsBetween(DLOG_89, EXP_89, 3, 89, 36, 4)
  {
  }

  lemma Check89Block40()
    ensures StepsBetween(DLOG_89, EXP_89, 3, 89, 40, 4)
  {
  }

  lemma Check89Block44()
    ensures StepsBetween(DLOG_89, EXP_89, 3, 89, 44, 4)
  {
  }

  lemma Check89Block48()
    ensures StepsBetween(DLOG_89, EXP_89, 3, 89, 48, 4)
  {
  }

  lemma Check89Block52()
    ensures StepsBetween(DLOG_89, EXP_89, 3, 89, 52, 4)
  {
  }

  lemma Check89Block56()
    ensures StepsBetween(DLOG_89, EXP_89, 3, 89, 56, 4)
  {
  }

  lemma Check89Block60()
    ensures StepsBetween(DLOG_89, EXP_89, 3, 89, 60, 4)
  {
  }

  lemma Check89Block64()
    ensures StepsBetween(DLOG_89, EXP_89, 3, 89, 64, 4)
  {
  }

  lemma Check89Block68()
    ensures StepsBetween(DLOG_89, EXP_89, 3, 89, 68, 4)
  {
  }

  lemma Check89Block72()
    ensures StepsBetween(DLOG_89, EXP_89, 3, 89, 72, 4)
  {
  }

  lemma Check89Block76()
    ensures StepsBetween(DLOG_89, EXP_89, 3, 89, 76, 4)
  {
  }

  lemma Check89Block80()
    ensures StepsBetween(DLOG_89, EXP_89, 3, 89, 80, 4)
  {
  }

  lemma Check89Block84()
    ensures StepsBetween(DLOG_89, EXP_89, 3, 89, 84, 4)
  {
  }

  lemma Check89Block88()
    ensures StepsBetween(DLOG_89, EXP_89, 3, 89, 88, 4)
  {
  }

  lemma Check89From64()
    ensures StepsFrom(DLOG_89, EXP_89, 3, 89, 64)
  {
    Check89Block88();
    assert StepsFrom(DLOG_89, EXP_89, 3, 89, 88);
    Check89Block84();
    assert StepsFrom(DLOG_89, EXP_89, 3, 89, 84);
    Check89Block80();
    assert StepsFrom(DLOG_89, EXP_89, 3, 89, 80);
    Check89Block76();
    assert StepsFrom(DLOG_89, EXP_89, 3, 89, 76);
    Check89Block72();
    assert StepsFrom(DLOG_89, EXP_89, 3, 89, 72);
    Check89Block68();
    assert StepsFrom(DLOG_89, EXP_89, 3, 89, 68);
    Check89Block64();
    assert StepsFrom(DLOG_89, EXP_89, 3, 89, 64);
  }

  lemma Check89From32()
    ensures StepsFrom(DLOG_89, EXP_89, 3, 89, 32)
  {
    Check89From64();
    Check89Block60();
    assert StepsFrom(DLOG_89, EXP_89, 3, 89, 60);
    Check89Block56();
    assert StepsFrom(DLOG_89, EXP_89, 3, 89, 56);
    Check89Block52();
    assert StepsFrom(DLOG_89, EXP_89, 3, 89, 52);
    Check89Block48();
    assert StepsFrom(DLOG_89, EXP_89, 3, 89, 48);
    Check89Block44();
    assert StepsFrom(DLOG_89, EXP_89, 3, 89, 44);
    Check89Block40();
    assert StepsFrom(DLOG_89, EXP_89, 3, 89, 40);
    Check89Block36();
    assert StepsFrom(DLOG_89, EXP_89, 3, 89, 36);
    Check89Block32();
    assert StepsFrom(DLOG_89, EXP_89, 3, 89, 32);
  }

  lemma Check89From0()
    ensures StepsFrom(DLOG_89, EXP_89, 3, 89, 0)
  {
    Check89From32();
    Check89Block28();
    assert StepsFrom(DLOG_89, EXP_89, 3, 89, 28);
    Check89Block24();
    assert StepsFrom(DLOG_89, EXP_89, 3, 89, 24);
    Check89Block20();
    assert StepsFrom(DLOG_89, EXP_89, 3, 89, 20);
    Check89Block16();
    assert StepsFrom(DLOG_89, EXP_89, 3, 89, 16);
    Check89Block12();
    assert StepsFrom(DLOG_89, EXP_89, 3, 89, 12);
    Check89Block8();
    assert StepsFrom(DLOG_89, EXP_89, 3, 89, 8);
    Check89Block4();
    assert StepsFrom(DLOG_89, EXP_89, 3, 89, 4);
    Check89Block0();
    assert StepsFrom(DLOG_89, EXP_89, 3, 89, 0);
  }

  lemma Shape89()
    ensures ShapedFrom(DLOG_89, 89, 0) && ShapedFrom(EXP_89, 89, 0)
  {
  }

  lemma Wrap89()
    ensures At(EXP_89, 88) == 1
  {
  }

  lemma Check89()
    ensures Checked(DLOG_89, EXP_89, 3, 89)
  {
    Shape89();
    Wrap89();
    Check89From0();
  }

  const DLOG_97: seq<seq<nat>> := [
    [0, 0, 34, 70, 68, 1, 8, 31], [6, 44, 35, 86, 42, 25, 65, 71],
    [40, 89, 78, 81, 69, 5, 24, 77], [76, 2, 59, 18, 3, 13, 9, 46],
    [74, 60, 27, 32, 16, 91, 19, 95], [7, 85, 39, 4, 58, 45, 15, 84],
    [14, 62, 36, 63, 93, 10, 52, 87], [37, 55, 47, 67, 43, 64, 80, 75],
    [12, 26, 94, 57, 61, 51, 66, 11], [50, 28, 29, 72, 53, 21, 33, 30],
    [41, 88, 23, 17, 73, 90, 38, 83], [92, 54, 79, 56, 49, 20, 22, 82],
    [48]
  ]

  const EXP_97: seq<seq<nat>> := [
    [1, 5, 25, 28, 43, 21, 8, 40], [6, 30, 53, 71, 64, 29, 48, 46],
    [36, 83, 27, 38, 93, 77, 94, 82], [22, 13, 65, 34, 73, 74, 79, 7],
    [35, 78, 2, 10, 50, 56, 86, 42], [16, 80, 12, 60, 9, 45, 31, 58],
    [96, 92, 72, 69, 54, 76, 89, 57], [91, 67, 44, 26, 33, 68, 49, 51],
    [61, 14, 70, 59, 4, 20, 3, 15], [75, 84, 32, 63, 24, 23, 18, 90],
    [62, 19, 95, 87, 47, 41, 11, 55], [81, 17, 85, 37, 88, 52, 66, 39],
    [1]
  ]

  lemma Check97Block0()
    ensures StepsBetween(DLOG_97, EXP_97, 5, 97, 0, 4)
  {
  }

  lemma Check97Block4()
    ensures StepsBetween(DLOG_97, EXP_97, 5, 97, 4, 4)
  {
  }

  lemma Check97Block8()
    ensures StepsBetween(DLOG_97, EXP_97, 5, 97, 8, 4)
  {
  }

  lemma Check97Block12()
    ensures StepsBetween(DLOG_97, EXP_97, 5, 97, 12, 4)
  {
  }

  lemma Check97Block16()
    ensures StepsBetween(DLOG_97, EXP_97, 5, 97, 16, 4)
  {
  }

  lemma Check97Block20()
    ensures StepsBetween(DLOG_97, EXP_97, 5, 97, 20, 4)
  {
  }

  lemma Check97Block24()
    ensures StepsBetween(DLOG_97, EXP_97, 5, 97, 24, 4)
  {
  }

  lemma Check97Block28()
    ensures StepsBetween(DLOG_97, EXP_97, 5, 97, 28, 4)
  {
  }

  lemma Check97Block32()
    ensures StepsBetween(DLOG_97, EXP_97, 5, 97, 32, 4)
  {
  }

  lemma Check97Block36()
    ensures StepsBetween(DLOG_97, EXP_97, 5, 97, 36, 4)
  {
  }

  lemma Check97Block40()
    ensures StepsBetween(DLOG_97, EXP_97, 5, 97, 40, 4)
  {
  }

  lemma Check97Block44()
    ensures StepsBetween(DLOG_97, EXP_97, 5, 97, 44, 4)
  {
  }

  lemma Check97Block48()
    ensures StepsBetween(DLOG_97, EXP_97, 5, 97, 48, 4)
  {
  }

  lemma Check97Block52()
    ensures StepsBetween(DLOG_97, EXP_97, 5, 97, 52, 4)
  {
  }

  lemma Check97Block56()
    ensures StepsBetween(DLOG_97, EXP_97, 5, 97, 56, 4)
  {
  }

  lemma Check97Block60()
    ensures StepsBetween(DLOG_97, EXP_97, 5, 97, 60, 4)
  {
  }

  lemma Check97Block64()
    ensures StepsBetween(DLOG_97, EXP_97, 5, 97, 64, 4)
  {
  }

  lemma Check97Block68()
    ensures StepsBetween(DLOG_97, EXP_97, 5, 97, 68, 4)
  {
  }

  lemma Check97Block72()
    ensures StepsBetween(DLOG_97, EXP_97, 5, 97, 72, 4)
  {
  }

  lemma Check97Block76()
    ensures StepsBetween(DLOG_97, EXP_97, 5, 97, 76, 4)
  {
  }

  lemma Check97Block80()
    ensures StepsBetween(DLOG_97, EXP_97, 5, 97, 80, 4)
  {
  }

  lemma Check97Block84()
    ensures StepsBetween(DLOG_97, EXP_97, 5, 97, 84, 4)
  {
  }

  lemma Check97Block88()
    ensures StepsBetween(DLOG_97, EXP_97, 5, 97, 88, 4)
  {
  }

  lemma Check97Block92()
    ensures StepsBetween(DLOG_97, EXP_97, 5, 97, 92, 4)
  {
  }

  lemma Check97Block96()
    ensures StepsBetween(DLOG_97, EXP_97, 5, 97, 96, 4)
  {
  }

  lemma Check97From96()
    ensures StepsFrom(DLOG_97, EXP_97, 5, 97, 96)
  {
    Check97Block96();
    assert StepsFrom(DLOG_97, EXP_97, 5, 97, 96);
  }

  lemma Check97From64()
    ensures StepsFrom(DLOG_97, EXP_97, 5, 97, 64)
  {
    Check97From96();
    Check97Block92();
    assert StepsFrom(DLOG_97, EXP_97, 5, 97, 92);
    Check97Block88();
    assert StepsFrom(DLOG_97, EXP_97, 5, 97, 88);
    Check97Block84();
    assert StepsFrom(DLOG_97, EXP_97, 5, 97, 84);
    Check97Block80();
    assert StepsFrom(DLOG_97, EXP_97, 5, 97, 80);
    Check97Block76();
    assert StepsFrom(DLOG_97, EXP_97, 5, 97, 76);
    Check97Block72();
    assert StepsFrom(DLOG_97, EXP_97, 5, 97, 72);
    Check97Block68();
    assert StepsFrom(DLOG_97, EXP_97, 5, 97, 68);
    Check97Block64();
    assert StepsFrom(DLOG_97, EXP_97, 5, 97, 64);
  }

  lemma Check97From32()
    ensures StepsFrom(DLOG_97, EXP_97, 5, 97, 32)
  {
    Check97From64();
    Check97Block60();
    assert StepsFrom(DLOG_97, EXP_97, 5, 97, 60);
    Check97Block56();
    assert StepsFrom(DLOG_97, EXP_97, 5, 97, 56);
    Check97Block52();
    assert StepsFrom(DLOG_97, EXP_97, 5, 97, 52);
    Check97Block48();
    assert StepsFrom(DLOG_97, EXP_97, 5, 97, 48);
    Check97Block44();
    assert StepsFrom(DLOG_97, EXP_97, 5, 97, 44);
    Check97Block40();
    assert StepsFrom(DLOG_97, EXP_97, 5, 97, 40);
    Check97Block36();
    assert StepsFrom(DLOG_97, EXP_97, 5, 97, 36);
    Check97Block32();
    assert StepsFrom(DLOG_97, EXP_97, 5, 97, 32);
  }

  lemma Check97From0()
    ensures StepsFrom(DLOG_97, EXP_97, 5, 97, 0)
  {
    Check97From32();
    Check97Block28();
    assert StepsFrom(DLOG_97, EXP_97, 5, 97, 28);
    Check97Block24();
    assert StepsFrom(DLOG_97, EXP_97, 5, 97, 24);
    Check97Block20();
    assert StepsFrom(DLOG_97, EXP_97, 5, 97, 20);
    Check97Block16();
    assert StepsFrom(DLOG_97, EXP_97, 5, 97, 16);
    Check97Block12();
    assert StepsFrom(DLOG_97, EXP_97, 5, 97, 12);
    Check97Block8();
    assert StepsFrom(DLOG_97, EXP_97, 5, 97, 8);
    Check97Block4();
    assert StepsFrom(DLOG_97, EXP_97, 5, 97, 4);
    Check97Block0();
    assert StepsFrom(DLOG_97, EXP_97, 5, 97, 0);
  }

  lemma Shape97()
    ensures ShapedFrom(DLOG_97, 97, 0) && ShapedFrom(EXP_97, 97, 0)
  {
  }

  lemma Wrap97()
    ensures At(EXP_97, 96) == 1
  {
  }

  lemma Check97()
    ensures Checked(DLOG_97, EXP_97, 5, 97)
  {
    Shape97();
    Wrap97();
    Check97From0();
  }

  const DLOG_101: seq<seq<nat>> := [
    [0, 0, 1, 69, 2, 24, 70, 9], [3, 38, 25, 13, 71, 66, 10, 93],
    [4, 30, 39, 96, 26, 78, 14, 86], [72, 48, 67, 7, 11, 91, 94, 84],
    [5, 82, 31, 33, 40, 56, 97, 35], [27, 45, 79, 42, 15, 62, 87, 58],
    [73, 18, 49, 99, 68, 23, 8, 37], [12, 65, 92, 29, 95, 77, 85, 47],
    [6, 90, 83, 81, 32, 55, 34, 44], [41, 61, 57, 17, 98, 22, 36, 64],
    [28, 76, 46, 89, 80, 54, 43, 60], [16, 21, 63, 75, 88, 53, 59, 20],
    [74, 52, 19, 51, 50]
  ]

  const EXP_101: seq<seq<nat>> := [
    [1, 2, 4, 8, 16, 32, 64, 27], [54, 7, 14, 28, 56, 11, 22, 44],
    [88, 75, 49, 98, 95, 89, 77, 53], [5, 10, 20, 40, 80, 59, 17, 34],
    [68, 35, 70, 39, 78, 55, 9, 18], [36, 72, 43, 86, 71, 41, 82, 63],
    [25, 50, 100, 99, 97, 93, 85, 69], [37, 74, 47, 94, 87, 73, 45, 90],
    [79, 57, 13, 26, 52, 3, 6, 12], [24, 48, 96, 91, 81, 61, 21, 42],
    [84, 67, 33, 66, 31, 62, 23, 46], [92, 83, 65, 29, 58, 15, 30, 60],
    [19, 38, 76, 51, 1]
  ]

  lemma Check101Block0()
    ensures StepsBetween(DLOG_101, EXP_101, 2, 101, 0, 4)
  {
  }

  lemma Check101Block4()
    ensures StepsBetween(DLOG_101, EXP_101, 2, 101, 4, 4)
  {
  }

  lemma Check101Block8()
    ensures StepsBetween(DLOG_101, EXP_101, 2, 101, 8, 4)
  {
  }

  lemma Check101Block12()
    ensures StepsBetween(DLOG_101, EXP_101, 2, 101, 12, 4)
  {
  }

  lemma Check101Block16()
    ensures StepsBetween(DLOG_101, EXP_101, 2, 101, 16, 4)
  {
  }

  lemma Check101Block20()
    ensures StepsBetween(DLOG_101, EXP_101, 2, 101, 20, 4)
  {
  }

  lemma Check101Block24()
    ensures StepsBetween(DLOG_101, EXP_101, 2, 101, 24, 4)
  {
  }

  lemma Check101Block28()
    ensures StepsBetween(DLOG_101, EXP_101, 2, 101, 28, 4)
  {
  }

  lemma Check101Block32()
    ensures StepsBetween(DLOG_101, EXP_101, 2, 101, 32, 4)
  {
  }

  lemma Check101Block36()
    ensures StepsBetween(DLOG_101, EXP_101, 2, 101, 36, 4)
  {
  }

  lemma Check101Block40()
    ensures StepsBetween(DLOG_101, EXP_101, 2, 101, 40, 4)
  {
  }

  lemma Check101Block44()
    ensures StepsBetween(DLOG_101, EXP_101, 2, 101, 44, 4)
  {
  }

  lemma Check101Block48()
    ensures StepsBetween(DLOG_101, EXP_101, 2, 101, 48, 4)
  {
  }

  lemma Check101Block52()
    ensures StepsBetween(DLOG_101, EXP_101, 2, 101, 52, 4)
  {
  }

  lemma Check101Block56()
    ensures StepsBetween(DLOG_101, EXP_101, 2, 101, 56, 4)
  {
  }

  lemma Check101Block60()
    ensures StepsBetween(DLOG_101, EXP_101, 2, 101, 60, 4)
  {
  }

  lemma Check101Block64()
    ensures StepsBetween(DLOG_101, EXP_101, 2, 101, 64, 4)
  {
  }

  lemma Check101Block68()
    ensures StepsBetween(DLOG_101, EXP_101, 2, 101, 68, 4)
  {
  }

  lemma Check101Block72()
    ensures StepsBetween(DLOG_101, EXP_101, 2, 101, 72, 4)
  {
  }

  lemma Check101Block76()
    ensures StepsBetween(DLOG_101, EXP_101, 2, 101, 76, 4)
  {
  }

  lemma Check101Block80()
    ensures StepsBetween(DLOG_101, EXP_101, 2, 101, 80, 4)
  {
  }

  lemma Check101Block84()
    ensures StepsBetween(DLOG_101, EXP_101, 2, 101, 84, 4)
  {
  }

  lemma Check101Block88()
    ensures StepsBetween(DLOG_101, EXP_101, 2, 101, 88, 4)
  {
  }

  lemma Check101Block92()
    ensures StepsBetween(DLOG_101, EXP_101, 2, 101, 92, 4)
  {
  }

  lemma Check101Block96()
    ensures StepsBetween(DLOG_101, EXP_101, 2, 101, 96, 4)
  {
  }

  lemma Check101Block100()
    ensures StepsBetween(DLOG_101, EXP_101, 2, 101, 100, 4)
  {
  }

  lemma Check101From96()
    ensures StepsFrom(DLOG_101, EXP_101, 2, 101, 96)
  {
    Check101Block100();
    assert StepsFrom(DLOG_101, EXP_101, 2, 101, 100);
    Check101Block96();
    assert StepsFrom(DLOG_101, EXP_101, 2, 101, 96);
  }

  lemma Check101From64()
    ensures StepsFrom(DLOG_101, EXP_101, 2, 101, 64)
  {
    Check101From96();
    Check101Block92();
    assert StepsFrom(DLOG_101, EXP_101, 2, 101, 92);
    Check101Block88();
    assert StepsFrom(DLOG_101, EXP_101, 2, 101, 88);
    Check101Block84();
    assert StepsFrom(DLOG_101, EXP_101, 2, 101, 84);
    Check101Block80();
    assert StepsFrom(DLOG_101, EXP_101, 2, 101, 80);
    Check101Block76();
    assert StepsFrom(DLOG_101, EXP_101, 2, 101, 76);
    Check101Block72();
    assert StepsFrom(DLOG_101, EXP_101, 2, 101, 72);
    Check101Block68();
    assert StepsFrom(DLOG_101, EXP_101, 2, 101, 68);
    Check101Block64();
    assert StepsFrom(DLOG_101, EXP_101, 2, 101, 64);
  }

  lemma Check101From32()
    ensures StepsFrom(DLOG_101, EXP_101, 2, 101, 32)
  {
    Check101From64();
    Check101Block60();
    assert StepsFrom(DLOG_101, EXP_101, 2, 101, 60);
    Check101Block56();
    assert StepsFrom(DLOG_101, EXP_101, 2, 101, 56);
    Check101Block52();
    assert StepsFrom(DLOG_101, EXP_101, 2, 101, 52);
    Check101Block48();
    assert StepsFrom(DLOG_101, EXP_101, 2, 101, 48);
    Check101Block44();
    assert StepsFrom(DLOG_101, EXP_101, 2, 101, 44);
    Check101Block40();
    assert StepsFrom(DLOG_101, EXP_101, 2, 101, 40);
    Check101Block36();
    assert StepsFrom(DLOG_101, EXP_101, 2, 101, 36);
    Check101Block32();
    assert StepsFrom(DLOG_101, EXP_101, 2, 101, 32);
  }

  lemma Check101From0()
    ensures StepsFrom(DLOG_101, EXP_101, 2, 101, 0)
  {
    Check101From32();
    Check101Block28();
    assert StepsFrom(DLOG_101, EXP_101, 2, 101, 28);
    Check101Block24();
    assert StepsFrom(DLOG_101, EXP_101, 2, 101, 24);
    Check101Block20();
    assert StepsFrom(DLOG_101, EXP_101, 2, 101, 20);
    Check101Block16();
    assert StepsFrom(DLOG_101, EXP_101, 2, 101, 16);
    Check101Block12();
    assert StepsFrom(DLOG_101, EXP_101, 2, 101, 12);
    Check101Block8();
    assert StepsFrom(DLOG_101, EXP_101, 2, 101, 8);
    Check101Block4();
    assert StepsFrom(DLOG_101, EXP_101, 2, 101, 4);
    Check101Block0();
    assert StepsFrom(DLOG_101, EXP_101, 2, 101, 0);
  }

  lemma Shape101()
    ensures ShapedFrom(DLOG_101, 101, 0) && ShapedFrom(EXP_101, 101, 0)
  {
  }

  lemma Wrap101()
    ensures At(EXP_101, 100) == 1
  {
  }

  lemma Check101()
    ensures Checked(DLOG_101, EXP_101, 2, 101)
  {
    Shape101();
    Wrap101();
    Check101From0();
  }

  const DLOG_103: seq<seq<nat>> := [
    [0, 0, 44, 39, 88, 1, 83, 4], [30, 78, 45, 61, 25, 72, 48, 40],
    [74, 70, 20, 80, 89, 43, 3, 24], [69, 2, 14, 15, 92, 86, 84, 57],
    [16, 100, 12, 5, 64, 93, 22, 9], [31, 50, 87, 77, 47, 79, 68, 85],
    [11, 8, 46, 7, 58, 97, 59, 62], [34, 17, 28, 98, 26, 36, 101, 82],
    [60, 73, 42, 13, 56, 63, 49, 67], [6, 33, 35, 41, 66, 65, 53, 18],
    [75, 54, 94, 38, 29, 71, 19, 23], [91, 99, 21, 76, 10, 96, 27, 81],
    [55, 32, 52, 37, 90, 95, 51]
  ]

  const EXP_103: seq<seq<nat>> := [
    [1, 5, 25, 22, 7, 35, 72, 51], [49, 39, 92, 48, 34, 67, 26, 27],
    [32, 57, 79, 86, 18, 90, 38, 87], [23, 12, 60, 94, 58, 84, 8, 40],
    [97, 73, 56, 74, 61, 99, 83, 3], [15, 75, 66, 21, 2, 10, 50, 44],
    [14, 70, 41, 102, 98, 78, 81, 96], [68, 31, 52, 54, 64, 11, 55, 69],
    [36, 77, 76, 71, 46, 24, 17, 85], [13, 65, 16, 80, 91, 43, 9, 45],
    [19, 95, 63, 6, 30, 47, 29, 42], [4, 20, 100, 88, 28, 37, 82, 101],
    [93, 53, 59, 89, 33, 62, 1]
  ]

  lemma Check103Block0()
    ensures StepsBetween(DLOG_103, EXP_103, 5, 103, 0, 4)
  {
  }

  lemma Check103Block4()
    ensures StepsBetween(DLOG_103, EXP_103, 5, 103, 4, 4)
  {
  }

  lemma Check103Block8()
    ensures StepsBetween(DLOG_103, EXP_103, 5, 103, 8, 4)
  {
  }

  lemma Check103Block12()
    ensures StepsBetween(DLOG_103, EXP_103, 5, 103, 12, 4)
  {
  }

  lemma Check103Block16()
    ensures StepsBetween(DLOG_103, EXP_103, 5, 103, 16, 4)
  {
  }

  lemma Check103Block20()
    ensures StepsBetween(DLOG_103, EXP_103, 5, 103, 20, 4)
  {
  }

  lemma Check103Block24()
    ensures StepsBetween(DLOG_103, EXP_103, 5, 103, 24, 4)
  {
  }

  lemma Check103Block28()
    ensures StepsBetween(DLOG_103, EXP_103, 5, 103, 28, 4)
  {
  }

  lemma Check103Block32()
    ensures StepsBetween(DLOG_103, EXP_103, 5, 103, 32, 4)
  {
  }

  lemma Check103Block36()
    ensures StepsBetween(DLOG_103, EXP_103, 5, 103, 36, 4)
  {
  }

  lemma Check103Block40()
    ensures StepsBetween(DLOG_103, EXP_103, 5, 103, 40, 4)
  {
  }

  lemma Check103Block44()
    ensures StepsBetween(DLOG_103, EXP_103, 5, 103, 44, 4)
  {
  }

  lemma Check103Block48()
    ensures StepsBetween(DLOG_103, EXP_103, 5, 103, 48, 4)
  {
  }

  lemma Check103Block52()
    ensures StepsBetween(DLOG_103, EXP_103, 5, 103, 52, 4)
  {
  }

  lemma Check103Block56()
    ensures StepsBetween(DLOG_103, EXP_103, 5, 103, 56, 4)
  {
  }

  lemma Check103Block60()
    ensures StepsBetween(DLOG_103, EXP_103, 5, 103, 60, 4)
  {
  }

  lemma Check103Block64()
    ensures StepsBetween(DLOG_103, EXP_103, 5, 103, 64, 4)
  {
  }

  lemma Check103Block68()
    ensures StepsBetween(DLOG_103, EXP_103, 5, 103, 68, 4)
  {
  }

  lemma Check103Block72()
    ensures StepsBetween(DLOG_103, EXP_103, 5, 103, 72, 4)
  {
  }

  lemma Check103Block76()
    ensures StepsBetween(DLOG_103, EXP_103, 5, 103, 76, 4)
  {
  }

  lemma Check103Block80()
    ensures StepsBetween(DLOG_103, EXP_103, 5, 103, 80, 4)
  {
  }

  lemma Check103Block84()
    ensures StepsBetween(DLOG_103, EXP_103, 5, 103, 84, 4)
  {
  }

  lemma Check103Block88()
    ensures StepsBetween(DLOG_103, EXP_103, 5, 103, 88, 4)
  {
  }

  lemma Check103Block92()
    ensures StepsBetween(DLOG_103, EXP_103, 5, 103, 92, 4)
  {
  }

  lemma Check103Block96()
    ensures StepsBetween(DLOG_103, EXP_103, 5, 103, 96, 4)
  {
  }

  lemma Check103Block100()
    ensures StepsBetween(DLOG_103, EXP_103, 5, 103, 100, 4)
  {
  }

  lemma Check103From96()
    ensures StepsFrom(DLOG_103, EXP_103, 5, 103, 96)
  {
    Check103Block100();
    assert StepsFrom(DLOG_103, EXP_103, 5, 103, 100);
    Check103Block96();
    assert StepsFrom(DLOG_103, EXP_103, 5, 103, 96);
  }

  lemma Check103From64()
    ensures StepsFrom(DLOG_103, EXP_103, 5, 103, 64)
  {
    Check103From96();
    Check103Block92();
    assert StepsFrom(DLOG_103, EXP_103, 5, 103, 92);
    Check103Block88();
    assert StepsFrom(DLOG_103, EXP_103, 5, 103, 88);
    Check103Block84();
    assert StepsFrom(DLOG_103, EXP_103, 5, 103, 84);
    Check103Block80();
    assert StepsFrom(DLOG_103, EXP_103, 5, 103, 80);
    Check103Block76();
    assert StepsFrom(DLOG_103, EXP_103, 5, 103, 76);
    Check103Block72();
    assert StepsFrom(DLOG_103, EXP_103, 5, 103, 72);
    Check103Block68();
    assert StepsFrom(DLOG_103, EXP_103, 5, 103, 68);
    Check103Block64();
    assert StepsFrom(DLOG_103, EXP_103, 5, 103, 64);
  }

  lemma Check103From32()
    ensures StepsFrom(DLOG_103, EXP_103, 5, 103, 32)
  {
    Check103From64();
    Check103Block60();
    assert StepsFrom(DLOG_103, EXP_103, 5, 103, 60);
    Check103Block56();
    assert StepsFrom(DLOG_103, EXP_103, 5, 103, 56);
    Check103Block52();
    assert StepsFrom(DLOG_103, EXP_103, 5, 103, 52);
    Check103Block48();
    assert StepsFrom(DLOG_103, EXP_103, 5, 103, 48);
    Check103Block44();
    assert StepsFrom(DLOG_103, EXP_103, 5, 103, 44);
    Check103Block40();
    assert StepsFrom(DLOG_103, EXP_103, 5, 103, 40);
    Check103Block36();
    assert StepsFrom(DLOG_103, EXP_103, 5, 103, 36);
    Check103Block32();
    assert StepsFrom(DLOG_103, EXP_103, 5, 103, 32);
  }

  lemma Check103From0()
    ensures StepsFrom(DLOG_103, EXP_103, 5, 103, 0)
  {
    Check103From32();
    Check103Block28();
    assert StepsFrom(DLOG_103, EXP_103, 5, 103, 28);
    Check103Block24();
    assert StepsFrom(DLOG_103, EXP_103, 5, 103, 24);
    Check103Block20();
    assert StepsFrom(DLOG_103, EXP_103, 5, 103, 20);
    Check103Block16();
    assert StepsFrom(DLOG_103, EXP_103, 5, 103, 16);
    Check103Block12();
    assert StepsFrom(DLOG_103, EXP_103, 5, 103, 12);
    Check103Block8();
    assert StepsFrom(DLOG_103, EXP_103, 5, 103, 8);
    Check103Block4();
    assert StepsFrom(DLOG_103, EXP_103, 5, 103, 4);
    Check103Block0();
    assert StepsFrom(DLOG_103, EXP_103, 5, 103, 0);
  }

  lemma Shape103()
    ensures ShapedFrom(DLOG_103, 103, 0) && ShapedFrom(EXP_103, 103, 0)
  {
  }

  lemma Wrap103()
    ensures At(EXP_103, 102) == 1
  {
  }

  lemma Check103()
    ensures Checked(DLOG_103, EXP_103, 5, 103)
  {
    Shape103();
    Wrap103();
    Check103From0();
  }

  const DLOG_107: seq<seq<nat>> := [
    [0, 0, 1, 70, 2, 47, 71, 43], [3, 34, 48, 22, 72, 14, 44, 11],
    [4, 29, 35, 78, 49, 7, 23, 62], [73, 94, 15, 104, 45, 32, 12, 27],
    [5, 92, 30, 90, 36, 38, 79, 84], [50, 40, 8, 59, 24, 81, 63, 66],
    [74, 86, 95, 99, 16, 52, 105, 69], [46, 42, 33, 21, 13, 10, 28, 77],
    [6, 61, 93, 103, 31, 26, 91, 89], [37, 83, 39, 58, 80, 65, 85, 98],
    [51, 68, 41, 20, 9, 76, 60, 102], [25, 88, 82, 57, 64, 97, 67, 19],
    [75, 101, 87, 56, 96, 18, 100, 55], [17, 54, 53]
  ]

  const EXP_107: seq<seq<nat>> := [
    [1, 2, 4, 8, 16, 32, 64, 21], [42, 84, 61, 15, 30, 60, 13, 26],
    [52, 104, 101, 95, 83, 59, 11, 22], [44, 88, 69, 31, 62, 17, 34, 68],
    [29, 58, 9, 18, 36, 72, 37, 74], [41, 82, 57, 7, 14, 28, 56, 5],
    [10, 20, 40, 80, 53, 106, 105, 103], [99, 91, 75, 43, 86, 65, 23, 46],
    [92, 77, 47, 94, 81, 55, 3, 6], [12, 24, 48, 96, 85, 63, 19, 38],
    [76, 45, 90, 73, 39, 78, 49, 98], [89, 71, 35, 70, 33, 66, 25, 50],
    [100, 93, 79, 51, 102, 97, 87, 67], [27, 54, 1]
  ]

  lemma Check107Block0()
    ensures StepsBetween(DLOG_107, EXP_107, 2, 107, 0, 4)
  {
  }

  lemma Check107Block4()
    ensures StepsBetween(DLOG_107, EXP_107, 2, 107, 4, 4)
  {
  }

  lemma Check107Block8()
    ensures StepsBetween(DLOG_107, EXP_107, 2, 107, 8, 4)
  {
  }

  lemma Check107Block12()
    ensures StepsBetween(DLOG_107, EXP_107, 2, 107, 12, 4)
  {
  }

  lemma Check107Block16()
    ensures StepsBetween(DLOG_107, EXP_107, 2, 107, 16, 4)
  {
  }

  lemma Check107Block20()
    ensures StepsBetween(DLOG_107, EXP_107, 2, 107, 20, 4)
  {
  }

  lemma Check107Block24()
    ensures StepsBetween(DLOG_107, EXP_107, 2, 107, 24, 4)
  {
  }

  lemma Check107Block28()
    ensures StepsBetween(DLOG_107, EXP_107, 2, 107, 28, 4)
  {
  }

  lemma Check107Block32()
    ensures StepsBetween(DLOG_107, EXP_107, 2, 107, 32, 4)
  {
  }

  lemma Check107Block36()
    ensures StepsBetween(DLOG_107, EXP_107, 2, 107, 36, 4)
  {
  }

  lemma Check107Block40()
    ensures StepsBetween(DLOG_107, EXP_107, 2, 107, 40, 4)
  {
  }

  lemma Check107Block44()
    ensures StepsBetween(DLOG_107, EXP_107, 2, 107, 44, 4)
  {
  }

  lemma Check107Block48()
    ensures StepsBetween(DLOG_107, EXP_107, 2, 107, 48, 4)
  {
  }

  lemma Check107Block52()
    ensures StepsBetween(DLOG_107, EXP_107, 2, 107, 52, 4)
  {
  }

  lemma Check107Block56()
    ensures StepsBetween(DLOG_107, EXP_107, 2, 107, 56, 4)
  {
  }

  lemma Check107Block60()
    ensures StepsBetween(DLOG_107, EXP_107, 2, 107, 60, 4)
  {
  }

  lemma Check107Block64()
    ensures StepsBetween(DLOG_107, EXP_107, 2, 107, 64, 4)
  {
  }

  lemma Check107Block68()
    ensures StepsBetween(DLOG_107, EXP_107, 2, 107, 68, 4)
  {
  }

  lemma Check107Block72()
    ensures StepsBetween(DLOG_107, EXP_107, 2, 107, 72, 4)
  {
  }

  lemma Check107Block76()
    ensures StepsBetween(DLOG_107, EXP_107, 2, 107, 76, 4)
  {
  }

  lemma Check107Block80()
    ensures StepsBetween(DLOG_107, EXP_107, 2, 107, 80, 4)
  {
  }

  lemma Check107Block84()
    ensures StepsBetween(DLOG_107, EXP_107, 2, 107, 84, 4)
  {
  }

  lemma Check107Block88()
    ensures StepsBetween(DLOG_107, EXP_107, 2, 107, 88, 4)
  {
  }

  lemma Check107Block92()
    ensures StepsBetween(DLOG_107, EXP_107, 2, 107, 92, 4)
  {
  }

  lemma Check107Block96()
    ensures StepsBetween(DLOG_107, EXP_107, 2, 107, 96, 4)
  {
  }

  lemma Check107Block100()
    ensures StepsBetween(DLOG_107, EXP_107, 2, 107, 100, 4)
  {
  }

  lemma Check107Block104()
    ensures StepsBetween(DLOG_107, EXP_107, 2, 107, 104, 4)
  {
  }

  lemma Check107From96()
    ensures StepsFrom(DLOG_107, EXP_107, 2, 107, 96)
  {
    Check107Block104();
    assert StepsFrom(DLOG_107, EXP_107, 2, 107, 104);
    Check107Block100();
    assert StepsFrom(DLOG_107, EXP_107, 2, 107, 100);
    Check107Block96();
    assert StepsFrom(DLOG_107, EXP_107, 2, 107, 96);
  }

  lemma Check107From64()
    ensures StepsFrom(DLOG_107, EXP_107, 2, 107, 64)
  {
    Check107From96();
    Check107Block92();
    assert StepsFrom(DLOG_107, EXP_107, 2, 107, 92);
    Check107Block88();
    assert StepsFrom(DLOG_107, EXP_107, 2, 107, 88);
    Check107Block84();
    assert StepsFrom(DLOG_107, EXP_107, 2, 107, 84);
    Check107Block80();
    assert StepsFrom(DLOG_107, EXP_107, 2, 107, 80);
    Check107Block76();
    assert StepsFrom(DLOG_107, EXP_107, 2, 107, 76);
    Check107Block72();
    assert StepsFrom(DLOG_107, EXP_107, 2, 107, 72);
    Check107Block68();
    assert StepsFrom(DLOG_107, EXP_107, 2, 107, 68);
    Check107Block64();
    assert StepsFrom(DLOG_107, EXP_107, 2, 107, 64);
  }

  lemma Check107From32()
    ensures StepsFrom(DLOG_107, EXP_107, 2, 107, 32)
  {
    Check107From64();
    Check107Block60();
    assert StepsFrom(DLOG_107, EXP_107, 2, 107, 60);
    Check107Block56();
    assert StepsFrom(DLOG_107, EXP_107, 2, 107, 56);
    Check107Block52();
    assert StepsFrom(DLOG_107, EXP_107, 2, 107, 52);
    Check107Block48();
    assert StepsFrom(DLOG_107, EXP_107, 2, 107, 48);
    Check107Block44();
    assert StepsFrom(DLOG_107, EXP_107, 2, 107, 44);
    Check107Block40();
    assert StepsFrom(DLOG_107, EXP_107, 2, 107, 40);
    Check107Block36();
    assert StepsFrom(DLOG_107, EXP_107, 2, 107, 36);
    Check107Block32();
    assert StepsFrom(DLOG_107, EXP_107, 2, 107, 32);
  }

  lemma Check107From0()
    ensures StepsFrom(DLOG_107, EXP_107, 2, 107, 0)
  {
    Check107From32();
    Check107Block28();
    assert StepsFrom(DLOG_107, EXP_107, 2, 107, 28);
    Check107Block24();
    assert StepsFrom(DLOG_107, EXP_107, 2, 107, 24);
    Check107Block20();
    assert StepsFrom(DLOG_107, EXP_107, 2, 107, 20);
    Check107Block16();
    assert StepsFrom(DLOG_107, EXP_107, 2, 107, 16);
    Check107Block12();
    assert StepsFrom(DLOG_107, EXP_107, 2, 107, 12);
    Check107Block8();
    assert StepsFrom(DLOG_107, EXP_107, 2, 107, 8);
    Check107Block4();
    assert StepsFrom(DLOG_107, EXP_107, 2, 107, 4);
    Check107Block0();
    assert StepsFrom(DLOG_107, EXP_107, 2, 107, 0);
  }

  lemma Shape107()
    ensures ShapedFrom(DLOG_107, 107, 0) && ShapedFrom(EXP_107, 107, 0)
  {
  }

  lemma Wrap107()
    ensures At(EXP_107, 106) == 1
  {
  }

  lemma Check107()
    ensures Checked(DLOG_107, EXP_107, 2, 107)
  {
    Shape107();
    Wrap107();
    Check107From0();
  }

  const DLOG_109: seq<seq<nat>> := [
    [0, 0, 57, 52, 6, 76, 1, 40], [63, 104, 25, 83, 58, 67, 97, 20],
    [12, 93, 53, 75, 82, 92, 32, 33], [7, 44, 16, 48, 46, 34, 77, 14],
    [69, 27, 42, 8, 2, 5, 24, 11], [31, 45, 41, 30, 89, 72, 90, 17],
    [64, 80, 101, 37, 73, 49, 105, 51], [103, 19, 91, 47, 26, 10, 71, 36],
    [18, 35, 84, 95, 99, 85, 65, 78], [59, 56, 62, 96, 81, 15, 68, 23],
    [88, 100, 102, 70, 98, 61, 87, 86], [38, 28, 21, 107, 39, 66, 74, 43],
    [13, 4, 29, 79, 50, 9, 94, 55], [22, 60, 106, 3, 54]
  ]

  const EXP_109: seq<seq<nat>> := [
    [1, 6, 36, 107, 97, 37, 4, 24], [35, 101, 61, 39, 16, 96, 31, 77],
    [26, 47, 64, 57, 15, 90, 104, 79], [38, 10, 60, 33, 89, 98, 43, 40],
    [22, 23, 29, 65, 63, 51, 88, 92], [7, 42, 34, 95, 25, 41, 28, 59],
    [27, 53, 100, 55, 3, 18, 108, 103], [73, 2, 12, 72, 105, 85, 74, 8],
    [48, 70, 93, 13, 78, 32, 83, 62], [45, 52, 94, 19, 5, 30, 71, 99],
    [49, 76, 20, 11, 66, 69, 87, 86], [80, 44, 46, 58, 21, 17, 102, 67],
    [75, 14, 84, 68, 81, 50, 82, 56], [9, 54, 106, 91, 1]
  ]

  lemma Check109Block0()
    ensures StepsBetween(DLOG_109, EXP_109, 6, 109, 0, 4)
  {
  }

  lemma Check109Block4()
    ensures StepsBetween(DLOG_109, EXP_109, 6, 109, 4, 4)
  {
  }

  lemma Check109Block8()
    ensures StepsBetween(DLOG_109, EXP_109, 6, 109, 8, 4)
  {
  }

  lemma Check109Block12()
    ensures StepsBetween(DLOG_109, EXP_109, 6, 109, 12, 4)
  {
  }

  lemma Check109Block16()
    ensures StepsBetween(DLOG_109, EXP_109, 6, 109, 16, 4)
  {
  }

  lemma Check109Block20()
    ensures StepsBetween(DLOG_109, EXP_109, 6, 109, 20, 4)
  {
  }

  lemma Check109Block24()
    ensures StepsBetween(DLOG_109, EXP_109, 6, 109, 24, 4)
  {
  }

  lemma Check109Block28()
    ensures StepsBetween(DLOG_109, EXP_109, 6, 109, 28, 4)
  {
  }

  lemma Check109Block32()
    ensures StepsBetween(DLOG_109, EXP_109, 6, 109, 32, 4)
  {
  }

  lemma Check109Block36()
    ensures StepsBetween(DLOG_109, EXP_109, 6, 109, 36, 4)
  {
  }

  lemma Check109Block40()
    ensures StepsBetween(DLOG_109, EXP_109, 6, 109, 40, 4)
  {
  }

  lemma Check109Block44()
    ensures StepsBetween(DLOG_109, EXP_109, 6, 109, 44, 4)
  {
  }

  lemma Check109Block48()
    ensures StepsBetween(DLOG_109, EXP_109, 6, 109, 48, 4)
  {
  }

  lemma Check109Block52()
    ensures StepsBetween(DLOG_109, EXP_109, 6, 109, 52, 4)
  {
  }

  lemma Check109Block56()
    ensures StepsBetween(DLOG_109, EXP_109, 6, 109, 56, 4)
  {
  }

  lemma Check109Block60()
    ensures StepsBetween(DLOG_109, EXP_109, 6, 109, 60, 4)
  {
  }

  lemma Check109Block64()
    ensures StepsBetween(DLOG_109, EXP_109, 6, 109, 64, 4)
  {
  }

  lemma Check109Block68()
    ensures StepsBetween(DLOG_109, EXP_109, 6, 109, 68, 4)
  {
  }

  lemma Check109Block72()
    ensures StepsBetween(DLOG_109, EXP_109, 6, 109, 72, 4)
  {
  }

  lemma Check109Block76()
    ensures StepsBetween(DLOG_109, EXP_109, 6, 109, 76, 4)
  {
  }

  lemma Check109Block80()
    ensures StepsBetween(DLOG_109, EXP_109, 6, 109, 80, 4)
  {
  }

  lemma Check109Block84()
    ensures StepsBetween(DLOG_109, EXP_109, 6, 109, 84, 4)
  {
  }

  lemma Check109Block88()
    ensures StepsBetween(DLOG_109, EXP_109, 6, 109, 88, 4)
  {
  }

  lemma Check109Block92()
    ensures StepsBetween(DLOG_109, EXP_109, 6, 109, 92, 4)
  {
  }

  lemma Check109Block96()
    ensures StepsBetween(DLOG_109, EXP_109, 6, 109, 96, 4)
  {
  }

  lemma Check109Block100()
    ensures StepsBetween(DLOG_109, EXP_109, 6, 109, 100, 4)
  {
  }

  lemma Check109Block104()
    ensures StepsBetween(DLOG_109, EXP_109, 6, 109, 104, 4)
  {
  }

  lemma Check109Block108()
    ensures StepsBetween(DLOG_109, EXP_109, 6, 109, 108, 4)
  {
  }

  lemma Check109From96()
    ensures StepsFrom(DLOG_109, EXP_109, 6, 109, 96)
  {
    Check109Block108();
    assert StepsFrom(DLOG_109, EXP_109, 6, 109, 108);
    Check109Block104();
    assert StepsFrom(DLOG_109, EXP_109, 6, 109, 104);
    Check109Block100();
    assert StepsFrom(DLOG_109, EXP_109, 6, 109, 100);
    Check109Block96();
    assert StepsFrom(DLOG_109, EXP_109, 6, 109, 96);
  }

  lemma Check109From64()
    ensures StepsFrom(DLOG_109, EXP_109, 6, 109, 64)
  {
    Check109From96();
    Check109Block92();
    assert StepsFrom(DLOG_109, EXP_109, 6, 109, 92);
    Check109Block88();
    assert StepsFrom(DLOG_109, EXP_109, 6, 109, 88);
    Check109Block84();
    assert StepsFrom(DLOG_109, EXP_109, 6, 109, 84);
    Check109Block80();
    assert StepsFrom(DLOG_109, EXP_109, 6, 109, 80);
    Check109Block76();
    assert StepsFrom(DLOG_109, EXP_109, 6, 109, 76);
    Check109Block72();
    assert StepsFrom(DLOG_109, EXP_109, 6, 109, 72);
    Check109Block68();
    assert StepsFrom(DLOG_109, EXP_109, 6, 109, 68);
    Check109Block64();
    assert StepsFrom(DLOG_109, EXP_109, 6, 109, 64);
  }

  lemma Check109From32()
    ensures StepsFrom(DLOG_109, EXP_109, 6, 109, 32)
  {
    Check109From64();
    Check109Block60();
    assert StepsFrom(DLOG_109, EXP_109, 6, 109, 60);
    Check109Block56();
    assert StepsFrom(DLOG_109, EXP_109, 6, 109, 56);
    Check109Block52();
    assert StepsFrom(DLOG_109, EXP_109, 6, 109, 52);
    Check109Block48();
    assert StepsFrom(DLOG_109, EXP_109, 6, 109, 48);
    Check109Block44();
    assert StepsFrom(DLOG_109, EXP_109, 6, 109, 44);
    Check109Block40();
    assert StepsFrom(DLOG_109, EXP_109, 6, 109, 40);
    Check109Block36();
    assert StepsFrom(DLOG_109, EXP_109, 6, 109, 36);
    Check109Block32();
    assert StepsFrom(DLOG_109, EXP_109, 6, 109, 32);
  }

  lemma Check109From0()
    ensures StepsFrom(DLOG_109, EXP_109, 6, 109, 0)
  {
    Check109From32();
    Check109Block28();
    assert StepsFrom(DLOG_109, EXP_109, 6, 109, 28);
    Check109Block24();
    assert StepsFrom(DLOG_109, EXP_109, 6, 109, 24);
    Check109Block20();
    assert StepsFrom(DLOG_109, EXP_109, 6, 109, 20);
    Check109Block16();
    assert StepsFrom(DLOG_109, EXP_109, 6, 109, 16);
    Check109Block12();
    assert StepsFrom(DLOG_109, EXP_109, 6, 109, 12);
    Check109Block8();
    assert StepsFrom(DLOG_109, EXP_109, 6, 109, 8);
    Check109Block4();
    assert StepsFrom(DLOG_109, EXP_109, 6, 109, 4);
    Check109Block0();
    assert StepsFrom(DLOG_109, EXP_109, 6, 109, 0);
  }

  lemma Shape109()
    ensures ShapedFrom(DLOG_109, 109, 0) && ShapedFrom(EXP_109, 109, 0)
  {
  }

  lemma Wrap109()
    ensures At(EXP_109, 108) == 1
  {
  }

  lemma Check109()
    ensures Checked(DLOG_109, EXP_109, 6, 109)
  {
    Shape109();
    Wrap109();
    Check109From0();
  }

  const DLOG_113: seq<seq<nat>> := [
    [0, 0, 12, 1, 24, 83, 13, 8], [36, 2, 95, 74, 25, 22, 20, 84],
    [48, 5, 14, 99, 107, 9, 86, 41], [37, 54, 34, 3, 32, 89, 96, 50],
    [60, 75, 17, 91, 26, 67, 111, 23], [7, 94, 21, 47, 98, 85, 53, 31],
    [49, 16, 66, 6, 46, 52, 15, 45], [44, 100, 101, 71, 108, 102, 62, 10],
    [72, 105, 87, 109, 29, 42, 103, 77], [38, 63, 79, 55, 11, 82, 35, 73],
    [19, 4, 106, 40, 33, 88, 59, 90], [110, 93, 97, 30, 65, 51, 43, 70],
    [61, 104, 28, 76, 78, 81, 18, 39], [58, 92, 64, 69, 27, 80, 57, 68],
    [56]
  ]

  const EXP_113: seq<seq<nat>> := [
    [1, 3, 9, 27, 81, 17, 51, 40], [7, 21, 63, 76, 2, 6, 18, 54],
    [49, 34, 102, 80, 14, 42, 13, 39], [4, 12, 36, 108, 98, 68, 91, 47],
    [28, 84, 26, 78, 8, 24, 72, 103], [83, 23, 69, 94, 56, 55, 52, 43],
    [16, 48, 31, 93, 53, 46, 25, 75], [112, 110, 104, 86, 32, 96, 62, 73],
    [106, 92, 50, 37, 111, 107, 95, 59], [64, 79, 11, 33, 99, 71, 100, 74],
    [109, 101, 77, 5, 15, 45, 22, 66], [85, 29, 87, 35, 105, 89, 41, 10],
    [30, 90, 44, 19, 57, 58, 61, 70], [97, 65, 82, 20, 60, 67, 88, 38],
    [1]
  ]

  lemma Check113Block0()
    ensures StepsBetween(DLOG_113, EXP_113, 3, 113, 0, 4)
  {
  }

  lemma Check113Block4()
    ensures StepsBetween(DLOG_113, EXP_113, 3, 113, 4, 4)
  {
  }

  lemma Check113Block8()
    ensures StepsBetween(DLOG_113, EXP_113, 3, 113, 8, 4)
  {
  }

  lemma Check113Block12()
    ensures StepsBetween(DLOG_113, EXP_113, 3, 113, 12, 4)
  {
  }

  lemma Check113Block16()
    ensures StepsBetween(DLOG_113, EXP_113, 3, 113, 16, 4)
  {
  }

  lemma Check113Block20()
    ensures StepsBetween(DLOG_113, EXP_113, 3, 113, 20, 4)
  {
  }

  lemma Check113Block24()
    ensures StepsBetween(DLOG_113, EXP_113, 3, 113, 24, 4)
  {
  }

  lemma Check113Block28()
    ensures StepsBetween(DLOG_113, EXP_113, 3, 113, 28, 4)
  {
  }

  lemma Check113Block32()
    ensures StepsBetween(DLOG_113, EXP_113, 3, 113, 32, 4)
  {
  }

  lemma Check113Block36()
    ensures StepsBetween(DLOG_113, EXP_113, 3, 113, 36, 4)
  {
  }

  lemma Check113Block40()
    ensures StepsBetween(DLOG_113, EXP_113, 3, 113, 40, 4)
  {
  }

  lemma Check113Block44()
    ensures StepsBetween(DLOG_113, EXP_113, 3, 113, 44, 4)
  {
  }

  lemma Check113Block48()
    ensures StepsBetween(DLOG_113, EXP_113, 3, 113, 48, 4)
  {
  }

  lemma Check113Block52()
    ensures StepsBetween(DLOG_113, EXP_113, 3, 113, 52, 4)
  {
  }

  lemma Check113Block56()
    ensures StepsBetween(DLOG_113, EXP_113, 3, 113, 56, 4)
  {
  }

  lemma Check113Block60()
    ensures StepsBetween(DLOG_113, EXP_113, 3, 113, 60, 4)
  {
  }

  lemma Check113Block64()
    ensures StepsBetween(DLOG_113, EXP_113, 3, 113, 64, 4)
  {
  }

  lemma Check113Block68()
    ensures StepsBetween(DLOG_113, EXP_113, 3, 113, 68, 4)
  {
  }

  lemma Check113Block72()
    ensures StepsBetween(DLOG_113, EXP_113, 3, 113, 72, 4)
  {
  }

  lemma Check113Block76()
    ensures StepsBetween(DLOG_113, EXP_113, 3, 113, 76, 4)
  {
  }

  lemma Check113Block80()
    ensures StepsBetween(DLOG_113, EXP_113, 3, 113, 80, 4)
  {
  }

  lemma Check113Block84()
    ensures StepsBetween(DLOG_113, EXP_113, 3, 113, 84, 4)
  {
  }

  lemma Check113Block88()
    ensures StepsBetween(DLOG_113, EXP_113, 3, 113, 88, 4)
  {
  }

  lemma Check113Block92()
    ensures StepsBetween(DLOG_113, EXP_113, 3, 113, 92, 4)
  {
  }

  lemma Check113Block96()
    ensures StepsBetween(DLOG_113, EXP_113, 3, 113, 96, 4)
  {
  }

  lemma Check113Block100()
    ensures StepsBetween(DLOG_113, EXP_113, 3, 113, 100, 4)
  {
  }

  lemma Check113Block104()
    ensures StepsBetween(DLOG_113, EXP_113, 3, 113, 104, 4)
  {
  }

  lemma Check113Block108()
    ensures StepsBetween(DLOG_113, EXP_113, 3, 113, 108, 4)
  {
  }

  lemma Check113Block112()
    ensures StepsBetween(DLOG_113, EXP_113, 3, 113, 112, 4)
  {
  }

  lemma Check113From96()
    ensures StepsFrom(DLOG_113, EXP_113, 3, 113, 96)
  {
    Check113Block112();
    assert StepsFrom(DLOG_113, EXP_113, 3, 113, 112);
    Check113Block108();
    assert StepsFrom(DLOG_113, EXP_113, 3, 113, 108);
    Check113Block104();
    assert StepsFrom(DLOG_113, EXP_113, 3, 113, 104);
    Check113Block100();
    assert StepsFrom(DLOG_113, EXP_113, 3, 113, 100);
    Check113Block96();
    assert StepsFrom(DLOG_113, EXP_113, 3, 113, 96);
  }

  lemma Check113From64()
    ensures StepsFrom(DLOG_113, EXP_113, 3, 113, 64)
  {
    Check113From96();
    Check113Block92();
    assert StepsFrom(DLOG_113, EXP_113, 3, 113, 92);
    Check113Block88();
    assert StepsFrom(DLOG_113, EXP_113, 3, 113, 88);
    Check113Block84();
    assert StepsFrom(DLOG_113, EXP_113, 3, 113, 84);
    Check113Block80();
    assert StepsFrom(DLOG_113, EXP_113, 3, 113, 80);
    Check113Block76();
    assert StepsFrom(DLOG_113, EXP_113, 3, 113, 76);
    Check113Block72();
    assert StepsFrom(DLOG_113, EXP_113, 3, 113, 72);
    Check113Block68();
    assert StepsFrom(DLOG_113, EXP_113, 3, 113, 68);
    Check113Block64();
    assert StepsFrom(DLOG_113, EXP_113, 3, 113, 64);
  }

  lemma Check113From32()
    ensures StepsFrom(DLOG_113, EXP_113, 3, 113, 32)
  {
    Check113From64();
    Check113Block60();
    assert StepsFrom(DLOG_113, EXP_113, 3, 113, 60);
    Check113Block56();
    assert StepsFrom(DLOG_113, EXP_113, 3, 113, 56);
    Check113Block52();
    assert StepsFrom(DLOG_113, EXP_113, 3, 113, 52);
    Check113Block48();
    assert StepsFrom(DLOG_113, EXP_113, 3, 113, 48);
    Check113Block44();
    assert StepsFrom(DLOG_113, EXP_113, 3, 113, 44);
    Check113Block40();
    assert StepsFrom(DLOG_113, EXP_113, 3, 113, 40);
    Check113Block36();
    assert StepsFrom(DLOG_113, EXP_113, 3, 113, 36);
    Check113Block32();
    assert StepsFrom(DLOG_113, EXP_113, 3, 113, 32);
  }

  lemma Check113From0()
    ensures StepsFrom(DLOG_113, EXP_113, 3, 113, 0)
  {
    Check113From32();
    Check113Block28();
    assert StepsFrom(DLOG_113, EXP_113, 3, 113, 28);
    Check113Block24();
    assert StepsFrom(DLOG_113, EXP_113, 3, 113, 24);
    Check113Block20();
    assert StepsFrom(DLOG_113, EXP_113, 3, 113, 20);
    Check113Block16();
    assert StepsFrom(DLOG_113, EXP_113, 3, 113, 16);
    Check113Block12();
    assert StepsFrom(DLOG_113, EXP_113, 3, 113, 12);
    Check113Block8();
    assert StepsFrom(DLOG_113, EXP_113, 3, 113, 8);
    Check113Block4();
    assert StepsFrom(DLOG_113, EXP_113, 3, 113, 4);
    Check113Block0();
    assert StepsFrom(DLOG_113, EXP_113, 3, 113, 0);
  }

  lemma Shape113()
    ensures ShapedFrom(DLOG_113, 113, 0) && ShapedFrom(EXP_113, 113, 0)
  {
  }

  lemma Wrap113()
    ensures At(EXP_113, 112) == 1
  {
  }

  lemma Check113()
    ensures Checked(DLOG_113, EXP_113, 3, 113)
  {
    Shape113();
    Wrap113();
    Check113From0();
  }

  /** Modulus 2 selects its own rows and root from the catalogue. */
  lemma CatalogueEntry2(m: nat)
    requires m == 2
    ensures DlogRows(m) == DLOG_2 && ExpRows(m) == EXP_2 && Root(m) == 1
  {
  }

  /** Modulus 2's catalogue rows pass the checks. */
  lemma CatalogueChecked2(m: nat) returns (dl: seq<seq<nat>>, ex: seq<seq<nat>>)
    requires m == 2
    ensures dl == DlogRows(m) && ex == ExpRows(m) && Checked(dl, ex, Root(m), m)
  {
    dl, ex := DLOG_2, EXP_2;
    Check2();
    CatalogueEntry2(m);
  }

  /** Modulus 3 selects its own rows and root from the catalogue. */
  lemma CatalogueEntry3(m: nat)
    requires m == 3
    ensures DlogRows(m) == DLOG_3 && ExpRows(m) == EXP_3 && Root(m) == 2
  {
  }

  /** Modulus 3's catalogue rows pass the checks. */
  lemma CatalogueChecked3(m: nat) returns (dl: seq<seq<nat>>, ex: seq<seq<nat>>)
    requires m == 3
    ensures dl == DlogRows(m) && ex == ExpRows(m) && Checked(dl, ex, Root(m), m)
  {
    dl, ex := DLOG_3, EXP_3;
    Check3();
    CatalogueEntry3(m);
  }

  /** Modulus 5 selects its own rows and root from the catalogue. */
  lemma CatalogueEntry5(m: nat)
    requires m == 5
    ensures DlogRows(m) == DLOG_5 && ExpRows(m) == EXP_5 && Root(m) == 2
  {
  }

  /** Modulus 5's catalogue rows pass the checks. */
  lemma CatalogueChecked5(m: nat) returns (dl: seq<seq<nat>>, ex: seq<seq<nat>>)
    requires m == 5
    ensures dl == DlogRows(m) && ex == ExpRows(m) && Checked(dl, ex, Root(m), m)
  {
    dl, ex := DLOG_5, EXP_5;
    Check5();
    CatalogueEntry5(m);
  }

  /** Modulus 7 selects its own rows and root from the catalogue. */
  lemma CatalogueEntry7(m: nat)
    requires m == 7
    ensures DlogRows(m) == DLOG_7 && ExpRows(m) == EXP_7 && Root(m) == 3
  {
  }

  /** Modulus 7's catalogue rows pass the checks. */
  lemma CatalogueChecked7(m: nat) returns (dl: seq<seq<nat>>, ex: seq<seq<nat>>)
    requires m == 7
    ensures dl == DlogRows(m) && ex == ExpRows(m) && Checked(dl, ex, Root(m), m)
  {
    dl, ex := DLOG_7, EXP_7;
    Check7();
    CatalogueEntry7(m);
  }

  /** Modulus 11 selects its own rows and root from the catalogue. */
  lemma CatalogueEntry11(m: nat)
    requires m == 11
    ensures DlogRows(m) == DLOG_11 && ExpRows(m) == EXP_11 && Root(m) == 2
  {
  }

  /** Modulus 11's catalogue rows pass the checks. */
  lemma CatalogueChecked11(m: nat) returns (dl: seq<seq<nat>>, ex: seq<seq<nat>>)
    requires m == 11
    ensures dl == DlogRows(m) && ex == ExpRows(m) && Checked(dl, ex, Root(m), m)
  {
    dl, ex := DLOG_11, EXP_11;
    Check11();
    CatalogueEntry11(m);
  }

  /** Modulus 13 selects its own rows and root from the catalogue. */
  lemma CatalogueEntry13(m: nat)
    requires m == 13
    ensures DlogRows(m) == DLOG_13 && ExpRows(m) == EXP_13 && Root(m) == 2
  {
  }

  /** Modulus 13's catalogue rows pass the checks. */
  lemma CatalogueChecked13(m: nat) returns (dl: seq<seq<nat>>, ex: seq<seq<nat>>)
    requires m == 13
    ensures dl == DlogRows(m) && ex == ExpRows(m) && Checked(dl, ex, Root(m), m)
  {
    dl, ex := DLOG_13, EXP_13;
    Check13();
    CatalogueEntry13(m);
  }

  /** Modulus 17 selects its own rows and root from the catalogue. */
  lemma CatalogueEntry17(m: nat)
    requires m == 17
    ensures DlogRows(m) == DLOG_17 && ExpRows(m) == EXP_17 && Root(m) == 3
  {
  }

  /** Modulus 17's catalogue rows pass the checks. */
  lemma CatalogueChecked17(m: nat) returns (dl: seq<seq<nat>>, ex: seq<seq<nat>>)
    requires m == 17
    ensures dl == DlogRows(m) && ex == ExpRows(m) && Checked(dl, ex, Root(m), m)
  {
    dl, ex := DLOG_17, EXP_17;
    Check17();
    CatalogueEntry17(m);
  }

  /** Modulus 19 selects its own rows and root from the catalogue. */
  lemma CatalogueEntry19(m: nat)
    requires m == 19
    ensures DlogRows(m) == DLOG_19 && ExpRows(m) == EXP_19 && Root(m) == 2
  {
  }

  /** Modulus 19's catalogue rows pass the checks. */
  lemma CatalogueChecked19(m: nat) returns (dl: seq<seq<nat>>, ex: seq<seq<nat>>)
    requires m == 19
    ensures dl == DlogRows(m) && ex == ExpRows(m) && Checked(dl, ex, Root(m), m)
  {
    dl, ex := DLOG_19, EXP_19;
    Check19();
    CatalogueEntry19(m);
  }

  /** Modulus 23 selects its own rows and root from the catalogue. */
  lemma CatalogueEntry23(m: nat)
    requires m == 23
    ensures DlogRows(m) == DLOG_23 && ExpRows(m) == EXP_23 && Root(m) == 5
  {
  }

  /** Modulus 23's catalogue rows pass the checks. */
  lemma CatalogueChecked23(m: nat) returns (dl: seq<seq<nat>>, ex: seq<seq<nat>>)
    requires m == 23
    ensures dl == DlogRows(m) && ex == ExpRows(m) && Checked(dl, ex, Root(m), m)
  {
    dl, ex := DLOG_23, EXP_23;
    Check23();
    CatalogueEntry23(m);
  }

  /** Modulus 29 selects its own rows and root from the catalogue. */
  lemma CatalogueEntry29(m: nat)
    requires m == 29
    ensures DlogRows(m) == DLOG_29 && ExpRows(m) == EXP_29 && Root(m) == 2
  {
  }

  /** Modulus 29's catalogue rows pass the checks. */
  lemma CatalogueChecked29(m: nat) returns (dl: seq<seq<nat>>, ex: seq<seq<nat>>)
    requires m == 29
    ensures dl == DlogRows(m) && ex == ExpRows(m) && Checked(dl, ex, Root(m), m)
  {
    dl, ex := DLOG_29, EXP_29;
    Check29();
    CatalogueEntry29(m);
  }

  /** Modulus 31 selects its own rows and root from the catalogue. */
  lemma CatalogueEntry31(m: nat)
    requires m == 31
    ensures DlogRows(m) == DLOG_31 && ExpRows(m) == EXP_31 && Root(m) == 3
  {
  }

  /** Modulus 31's catalogue rows pass the checks. */
  lemma CatalogueChecked31(m: nat) returns (dl: seq<seq<nat>>, ex: seq<seq<nat>>)
    requires m == 31
    ensures dl == DlogRows(m) && ex == ExpRows(m) && Checked(dl, ex, Root(m), m)
  {
    dl, ex := DLOG_31, EXP_31;
    Check31();
    CatalogueEntry31(m);
  }

  /** Modulus 37 selects its own rows and root from the catalogue. */
  lemma CatalogueEntry37(m: nat)
    requires m == 37
    ensures DlogRows(m) == DLOG_37 && ExpRows(m) == EXP_37 && Root(m) == 2
  {
  }

  /** Modulus 37's catalogue rows pass the checks. */
  lemma CatalogueChecked37(m: nat) returns (dl: seq<seq<nat>>, ex: seq<seq<nat>>)
    requires m == 37
    ensures dl == DlogRows(m) && ex == ExpRows(m) && Checked(dl, ex, Root(m), m)
  {
    dl, ex := DLOG_37, EXP_37;
    Check37();
    CatalogueEntry37(m);
  }

  /** Modulus 41 selects its own rows and root from the catalogue. */
  lemma CatalogueEntry41(m: nat)
    requires m == 41
    ensures DlogRows(m) == DLOG_41 && ExpRows(m) == EXP_41 && Root(m) == 6
  {
  }

  /** Modulus 41's catalogue rows pass the checks. */
  lemma CatalogueChecked41(m: nat) returns (dl: seq<seq<nat>>, ex: seq<seq<nat>>)
    requires m == 41
    ensures dl == DlogRows(m) && ex == ExpRows(m) && Checked(dl, ex, Root(m), m)
  {
    dl, ex := DLOG_41, EXP_41;
    Check41();
    CatalogueEntry41(m);
  }

  /** Modulus 43 selects its own rows and root from the catalogue. */
  lemma CatalogueEntry43(m: nat)
    requires m == 43
    ensures DlogRows(m) == DLOG_43 && ExpRows(m) == EXP_43 && Root(m) == 3
  {
  }

  /** Modulus 43's catalogue rows pass the checks. */
  lemma CatalogueChecked43(m: nat) returns (dl: seq<seq<nat>>, ex: seq<seq<nat>>)
    requires m == 43
    ensures dl == DlogRows(m) && ex == ExpRows(m) && Checked(dl, ex, Root(m), m)
  {
    dl, ex := DLOG_43, EXP_43;
    Check43();
    CatalogueEntry43(m);
  }

  /** Modulus 47 selects its own rows and root from the catalogue. */
  lemma CatalogueEntry47(m: nat)
    requires m == 47
    ensures DlogRows(m) == DLOG_47 && ExpRows(m) == EXP_47 && Root(m) == 5
  {
  }

  /** Modulus 47's catalogue rows pass the checks. */
  lemma CatalogueChecked47(m: nat) returns (dl: seq<seq<nat>>, ex: seq<seq<nat>>)
    requires m == 47
    ensures dl == DlogRows(m) && ex == ExpRows(m) && Checked(dl, ex, Root(m), m)
  {
    dl, ex := DLOG_47, EXP_47;
    Check47();
    CatalogueEntry47(m);
  }

  /** Modulus 53 selects its own rows and root from the catalogue. */
  lemma CatalogueEntry53(m: nat)
    requires m == 53
    ensures DlogRows(m) == DLOG_53 && ExpRows(m) == EXP_53 && Root(m) == 2
  {
  }

  /** Modulus 53's catalogue rows pass the checks. */
  lemma CatalogueChecked53(m: nat) returns (dl: seq<seq<nat>>, ex: seq<seq<nat>>)
    requires m == 53
    ensures dl == DlogRows(m) && ex == ExpRows(m) && Checked(dl, ex, Root(m), m)
  {
    dl, ex := DLOG_53, EXP_53;
    Check53();
    CatalogueEntry53(m);
  }

  /** Modulus 59 selects its own rows and root from the catalogue. */
  lemma CatalogueEntry59(m: nat)
    requires m == 59
    ensures DlogRows(m) == DLOG_59 && ExpRows(m) == EXP_59 && Root(m) == 2
  {
  }

  /** Modulus 59's catalogue rows pass the checks. */
  lemma CatalogueChecked59(m: nat) returns (dl: seq<seq<nat>>, ex: seq<seq<nat>>)
    requires m == 59
    ensures dl == DlogRows(m) && ex == ExpRows(m) && Checked(dl, ex, Root(m), m)
  {
    dl, ex := DLOG_59, EXP_59;
    Check59();
    CatalogueEntry59(m);
  }

  /** Modulus 61 selects its own rows and root from the catalogue. */
  lemma CatalogueEntry61(m: nat)
    requires m == 61
    ensures DlogRows(m) == DLOG_61 && ExpRows(m) == EXP_61 && Root(m) == 2
  {
  }

  /** Modulus 61's catalogue rows pass the checks. */
  lemma CatalogueChecked61(m: nat) returns (dl: seq<seq<nat>>, ex: seq<seq<nat>>)
    requires m == 61
    ensures dl == DlogRows(m) && ex == ExpRows(m) && Checked(dl, ex, Root(m), m)
  {
    dl, ex := DLOG_61, EXP_61;
    Check61();
    CatalogueEntry61(m);
  }

  /** Modulus 67 selects its own rows and root from the catalogue. */
  lemma CatalogueEntry67(m: nat)
    requires m == 67
    ensures DlogRows(m) == DLOG_67 && ExpRows(m) == EXP_67 && Root(m) == 2
  {
  }

  /** Modulus 67's catalogue rows pass the checks. */
  lemma CatalogueChecked67(m: nat) returns (dl: seq<seq<nat>>, ex: seq<seq<nat>>)
    requires m == 67
    ensures dl == DlogRows(m) && ex == ExpRows(m) && Checked(dl, ex, Root(m), m)
  {
    dl, ex := DLOG_67, EXP_67;
    Check67();
    CatalogueEntry67(m);
  }

  /** Modulus 71 selects its own rows and root from the catalogue. */
  lemma CatalogueEntry71(m: nat)
    requires m == 71
    ensures DlogRows(m) == DLOG_71 && ExpRows(m) == EXP_71 && Root(m) == 7
  {
  }

  /** Modulus 71's catalogue rows pass the checks. */
  lemma CatalogueChecked71(m: nat) returns (dl: seq<seq<nat>>, ex: seq<seq<nat>>)
    requires m == 71
    ensures dl == DlogRows(m) && ex == ExpRows(m) && Checked(dl, ex, Root(m), m)
  {
    dl, ex := DLOG_71, EXP_71;
    Check71();
    CatalogueEntry71(m);
  }

  /** Modulus 73 selects its own rows and root from the catalogue. */
  lemma CatalogueEntry73(m: nat)
    requires m == 73
    ensures DlogRows(m) == DLOG_73 && ExpRows(m) == EXP_73 && Root(m) == 5
  {
  }

  /** Modulus 73's catalogue rows pass the checks. */
  lemma CatalogueChecked73(m: nat) returns (dl: seq<seq<nat>>, ex: seq<seq<nat>>)
    requires m == 73
    ensures dl == DlogRows(m) && ex == ExpRows(m) && Checked(dl, ex, Root(m), m)
  {
    dl, ex := DLOG_73, EXP_73;
    Check73();
    CatalogueEntry73(m);
  }

  /** Modulus 79 selects its own rows and root from the catalogue. */
  lemma CatalogueEntry79(m: nat)
    requires m == 79
    ensures DlogRows(m) == DLOG_79 && ExpRows(m) == EXP_79 && Root(m) == 3
  {
  }

  /** Modulus 79's catalogue rows pass the checks. */
  lemma CatalogueChecked79(m: nat) returns (dl: seq<seq<nat>>, ex: seq<seq<nat>>)
    requires m == 79
    ensures dl == DlogRows(m) && ex == ExpRows(m) && Checked(dl, ex, Root(m), m)
  {
    dl, ex := DLOG_79, EXP_79;
    Check79();
    CatalogueEntry79(m);
  }

  /** Modulus 83 selects its own rows and root from the catalogue. */
  lemma CatalogueEntry83(m: nat)
    requires m == 83
    ensures DlogRows(m) == DLOG_83 && ExpRows(m) == EXP_83 && Root(m) == 2
  {
  }

  /** Modulus 83's catalogue rows pass the checks. */
  lemma CatalogueChecked83(m: nat) returns (dl: seq<seq<nat>>, ex: seq<seq<nat>>)
    requires m == 83
    ensures dl == DlogRows(m) && ex == ExpRows(m) && Checked(dl, ex, Root(m), m)
  {
    dl, ex := DLOG_83, EXP_83;
    Check83();
    CatalogueEntry83(m);
  }

  /** Modulus 89 selects its own rows and root from the catalogue. */
  lemma CatalogueEntry89(m: nat)
    requires m == 89
    ensures DlogRows(m) == DLOG_89 && ExpRows(m) == EXP_89 && Root(m) == 3
  {
  }

  /** Modulus 89's catalogue rows pass the checks. */
  lemma CatalogueChecked89(m: nat) returns (dl: seq<seq<nat>>, ex: seq<seq<nat>>)
    requires m == 89
    ensures dl == DlogRows(m) && ex == ExpRows(m) && Checked(dl, ex, Root(m), m)
  {
    dl, ex := DLOG_89, EXP_89;
    Check89();
    CatalogueEntry89(m);
  }

  /** Modulus 97 selects its own rows and root from the catalogue. */
  lemma CatalogueEntry97(m: nat)
    requires m == 97
    ensures DlogRows(m) == DLOG_97 && ExpRows(m) == EXP_97 && Root(m) == 5
  {
  }

  /** Modulus 97's catalogue rows pass the checks. */
  lemma CatalogueChecked97(m: nat) returns (dl: seq<seq<nat>>, ex: seq<seq<nat>>)
    requires m == 97
    ensures dl == DlogRows(m) && ex == ExpRows(m) && Checked(dl, ex, Root(m), m)
  {
    dl, ex := DLOG_97, EXP_97;
    Check97();
    CatalogueEntry97(m);
  }

  /** Modulus 101 selects its own rows and root from the catalogue. */
  lemma CatalogueEntry101(m: nat)
    requires m == 101
    ensures DlogRows(m) == DLOG_101 && ExpRows(m) == EXP_101 && Root(m) == 2
  {
  }

  /** Modulus 101's catalogue rows pass the checks. */
  lemma CatalogueChecked101(m: nat) returns (dl: seq<seq<nat>>, ex: seq<seq<nat>>)
    requires m == 101
    ensures dl == DlogRows(m) && ex == ExpRows(m) && Checked(dl, ex, Root(m), m)
  {
    dl, ex := DLOG_101, EXP_101;
    Check101();
    CatalogueEntry101(m);
  }

  /** Modulus 103 selects its own rows and root from the catalogue. */
  lemma CatalogueEntry103(m: nat)
    requires m == 103
    ensures DlogRows(m) == DLOG_103 && ExpRows(m) == EXP_103 && Root(m) == 5
  {
  }

  /** Modulus 103's catalogue rows pass the checks. */
  lemma CatalogueChecked103(m: nat) returns (dl: seq<seq<nat>>, ex: seq<seq<nat>>)
    requires m == 103
    ensures dl == DlogRows(m) && ex == ExpRows(m) && Checked(dl, ex, Root(m), m)
  {
    dl, ex := DLOG_103, EXP_103;
    Check103();
    CatalogueEntry103(m);
  }

  /** Modulus 107 selects its own rows and root from the catalogue. */
  lemma CatalogueEntry107(m: nat)
    requires m == 107
    ensures DlogRows(m) == DLOG_107 && ExpRows(m) == EXP_107 && Root(m) == 2
  {
  }

  /** Modulus 107's catalogue rows pass the checks. */
  lemma CatalogueChecked107(m: nat) returns (dl: seq<seq<nat>>, ex: seq<seq<nat>>)
    requires m == 107
    ensures dl == DlogRows(m) && ex == ExpRows(m) && Checked(dl, ex, Root(m), m)
  {
    dl, ex := DLOG_107, EXP_107;
    Check107();
    CatalogueEntry107(m);
  }

  /** Modulus 109 selects its own rows and root from the catalogue. */
  lemma CatalogueEntry109(m: nat)
    requires m == 109
    ensures DlogRows(m) == DLOG_109 && ExpRows(m) == EXP_109 && Root(m) == 6
  {
  }

  /** Modulus 109's catalogue rows pass the checks. */
  lemma CatalogueChecked109(m: nat) returns (dl: seq<seq<nat>>, ex: seq<seq<nat>>)
    requires m == 109
    ensures dl == DlogRows(m) && ex == ExpRows(m) && Checked(dl, ex, Root(m), m)
  {
    dl, ex := DLOG_109, EXP_109;
    Check109();
    CatalogueEntry109(m);
  }

  /** Modulus 113 selects its own rows and root from the catalogue. */
  lemma CatalogueEntry113(m: nat)
    requires m == 113
    ensures DlogRows(m) == DLOG_113 && ExpRows(m) == EXP_113 && Root(m) == 3
  {
  }

  /** Modulus 113's catalogue rows pass the checks. */
  lemma CatalogueChecked113(m: nat) returns (dl: seq<seq<nat>>, ex: seq<seq<nat>>)
    requires m == 113
    ensures dl == DlogRows(m) && ex == ExpRows(m) && Checked(dl, ex, Root(m), m)
  {
    dl, ex := DLOG_113, EXP_113;
    Check113();
    CatalogueEntry113(m);
  }

  /** Every catalogue modulus's rows pass the checks. */
  lemma CatalogueRows(m: nat) returns (dl: seq<seq<nat>>, ex: seq<seq<nat>>)
    requires Supported(m)
    ensures dl == DlogRows(m) && ex == ExpRows(m) && Checked(dl, ex, Root(m), m)
  {
    match m
    case 2 => dl, ex := CatalogueChecked2(m);
    case 3 => dl, ex := CatalogueChecked3(m);
    case 5 => dl, ex := CatalogueChecked5(m);
    case 7 => dl, ex := CatalogueChecked7(m);
    case 11 => dl, ex := CatalogueChecked11(m);
    case 13 => dl, ex := CatalogueChecked13(m);
    case 17 => dl, ex := CatalogueChecked17(m);
    case 19 => dl, ex := CatalogueChecked19(m);
    case 23 => dl, ex := CatalogueChecked23(m);
    case 29 => dl, ex := CatalogueChecked29(m);
    case 31 => dl, ex := CatalogueChecked31(m);
    case 37 => dl, ex := CatalogueChecked37(m);
    case 41 => dl, ex := CatalogueChecked41(m);
    case 43 => dl, ex := CatalogueChecked43(m);
    case 47 => dl, ex := CatalogueChecked47(m);
    case 53 => dl, ex := CatalogueChecked53(m);
    case 59 => dl, ex := CatalogueChecked59(m);
    case 61 => dl, ex := CatalogueChecked61(m);
    case 67 => dl, ex := CatalogueChecked67(m);
    case 71 => dl, ex := CatalogueChecked71(m);
    case 73 => dl, ex := CatalogueChecked73(m);
    case 79 => dl, ex := CatalogueChecked79(m);
    case 83 => dl, ex := CatalogueChecked83(m);
    case 89 => dl, ex := CatalogueChecked89(m);
    case 97 => dl, ex := CatalogueChecked97(m);
    case 101 => dl, ex := CatalogueChecked101(m);
    case 103 => dl, ex := CatalogueChecked103(m);
    case 107 => dl, ex := CatalogueChecked107(m);
    case 109 => dl, ex := CatalogueChecked109(m);
    case 113 => dl, ex := CatalogueChecked113(m);
  }
}
