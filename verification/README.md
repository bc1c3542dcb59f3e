# numbers.rs in Dafny

A Dafny model of `src/numbers.rs`. This is the number-theoretic core of a garbled-circuit library. It has these parts:

- **Mixed-radix codec:** `as_mixed_radix`, `padded_mixed_radix`, their BigInt twins, `padded_base_q`, `as_base_q` and `from_base_q`.
- **Base-q carry adder:** `base_q_add_eq` and `base_q_add`.
- **Bit codec:** `to_bits` and `u128_from_bits`.
- **Modular inverse:** `inv_ref`, the extended Euclidean algorithm.
- **Residue number system:** `crt` and `crt_inv`.
- **Prime tables and helpers:** `PRIMES`, `PRIMES_SKIP_2`, `PRIMITIVE_ROOTS`, `factor`, `base_modulus_with_width`, `modulus_with_width(_skip2)` and `product`.
- **Modular exponentiation:** `powm`.
- **Truth tables:** the discrete-logarithm and exponent tables of the 30 supported moduli.

## How the model works

Fixed-width integers are `nat`. An `assert!`, an `unwrap`, a checked-arithmetic overflow, an out-of-range index or a `panic!` becomes a `Result` error or an `Option` `None` wherever callers can reach it with ordinary values:

- `from_base_q`, `u128_from_bits`, `factor`, `base_modulus_with_width`, `product`, `crt_inv`, `powm` and the two truth tables return a `Result`.
- `u16_from_bigint` and `inv_ref` return an `Option`.

Loops are tail-recursive functions, one call per iteration. The loop invariant is the helper's precondition. The in-place adder is a method over sequences: the returned sequence is the slice after the call.

Modules follow the file's structure:

| module | file | contents |
|---|---|---|
| `Errors` | `errors.dfy` | `Result`, `Option` and error kinds |
| `Arith` | `arith.dfy` | powers, products, little-endian value |
| `NumberTheory` | `numtheory.dfy` | gcd, Bezout, uniqueness half of the CRT |
| `MixedRadix` | `mixed_radix.dfy` | the mixed-radix and base-q codec |
| `Bits` | `bits.dfy` | the bit codec |
| `BigIntRadix` | `bigint.dfy` | the BigInt codec |
| `CarryAdd` | `carry_add.dfy` | the adder |
| `ModInverse` | `mod_inverse.dfy` | `inv_ref` |
| `Crt` | `crt.dfy` | `crt` and `crt_inv` |
| `Primes` | `primes.dfy` | prime tables and helpers |
| `DlogTables` | `dlog_tables.dfy` | the literal tables and their entry-by-entry checks |
| `CyclicTables` | `cyclic.dfy` | what the table laws imply |
| `Dlog` | `dlog.dfy` | `powm` and the table laws |

### The truth tables

The tables are the library's literals, transcribed as rows of eight entries. Each modulus is checked entry by entry against three laws:

- each exponent entry is the previous one times the root, modulo the modulus;
- the logarithm table takes every exponent back to its position;
- the exponent table wraps to 1 at position p - 1.

`CyclicTables` then derives the two-way law from these: every unit is the root raised to its logarithm, and the logarithm is the unique such exponent below p - 1. The proof is a counting argument.

### The dropped carry

`base_q_add` drops the carry out of the last position of the longer operand: in base 5, `[3] + [4]` gives `[2]` (`CarryAdd.DroppedCarry`).

## Model

| member | source | states |
|---|---|---|
| MixedRadix.AsMixedRadix | src/numbers.rs:63-78 | Every digit is below its modulus, there are at most as many digits as moduli, the list is non-empty when moduli are given, and the digits' mixed-radix value is x modulo the product of the moduli: the quotient left after the last modulus is dropped. |
| MixedRadix.AsMixedRadixDigit | src/numbers.rs:63-78 | Digit i is x divided by the product of the first i moduli, taken modulo ms[i]. |
| MixedRadix.AsMixedRadixLength | src/numbers.rs:66-75 | The early stop. Every prefix product before the last digit is at most x. A list shorter than the moduli means x is below the product of the moduli it covers. |
| MixedRadix.PaddedMixedRadix | src/numbers.rs:80-86 | The padded digits have exactly one digit per modulus. They are the unpadded digits followed by zeros, each below its modulus, with value x modulo the product. |
| MixedRadix.PaddedMixedRadixOfValue | src/numbers.rs:80-86 | Round trip: padding-decomposing the value of any in-range digit vector returns that vector. |
| MixedRadix.PaddedMixedRadixMod | src/numbers.rs:63-86 | Decomposition depends only on x modulo the product of the moduli. |
| MixedRadix.PaddedBaseQ | src/numbers.rs:134-137 | Exactly n base-q digits, each below q, whose value is x modulo q^n. |
| MixedRadix.PaddedBaseQOfValue | src/numbers.rs:134-137 | Round trip: the n-digit base-q decomposition of the value of n digits below q is those digits. |
| MixedRadix.DigitsPerU128 | src/numbers.rs:7-9 | The number of base-q digits per u128 is at least 1, and q to that power does not exceed 2^128. |
| MixedRadix.AsBaseQ | src/numbers.rs:55-61 | Succeeds exactly when x is below q^digits_per_u128(q), the bound the library asserts. It then returns at most that many digits below q whose value is x. |
| MixedRadix.PaddedBaseQ128 | src/numbers.rs:139-143 | Exactly digits_per_u128(q) digits below q whose value is x modulo q^digits_per_u128(q). |
| MixedRadix.FromBaseQ | src/numbers.rs:122-132 | Horner reconstruction succeeds exactly when the value sum ds[i]*q^i fits in u128. It then returns that value, and otherwise reports Overflow. |
| MixedRadix.OverflowPersists | src/numbers.rs:125-130 | Once the value of a suffix leaves u128, so does the value of the whole vector. An intermediate product that overflows therefore means the result overflows. |
| MixedRadix.FromPaddedBaseQ | src/numbers.rs:122-137 | Round trip: from_base_q(padded_base_q(x, q, n), q) == x for x < q^n in u128. |
| MixedRadix.FromAsBaseQ | src/numbers.rs:55-61 | Round trip: from_base_q(as_base_q(x, q), q) == x whenever as_base_q accepts x. |
| MixedRadix.FromPaddedBaseQ128 | src/numbers.rs:139-143 | from_base_q of padded_base_q_128 recovers x modulo q^digits_per_u128(q). For x below that bound it recovers x. |
| Bits.ToBits | src/numbers.rs:145-166 | Exactly n bits, each 0 or 1, whose binary value is x modulo 2^n. |
| Bits.ToBitsIsPaddedBaseQ | src/numbers.rs:145-166 | to_bits is the base-2 instance of padded_base_q. |
| Bits.U128FromBits | src/numbers.rs:168-177 | Succeeds exactly on a non-empty list whose binary value fits in u128, and returns that value. An empty list is EmptyInput (bs[0] is out of range). A value that leaves u128 is Overflow. |
| Bits.BitsRoundTrip | src/numbers.rs:145-177 | u128_from_bits(to_bits(x, 128)) == x for every u128 x. |
| Bits.BitsRoundTripFromBits | src/numbers.rs:145-177 | The other direction: to_bits(u128_from_bits(bs), \|bs\|) == bs for 1 to 128 bits. |
| BigIntRadix.LeBytes | src/numbers.rs:89 | The little-endian bytes of a magnitude: at least one byte, no trailing zero, value n, and a single byte exactly when n < 256. |
| BigIntRadix.U16FromBigintAsWritten | src/numbers.rs:88-94 | As written, the conversion is defined only for values of at least two bytes. For 256 <= d < 2^16 it yields the low byte plus the high byte unshifted. |
| BigIntRadix.U16FromBigintAsWrittenCounterexamples | src/numbers.rs:88-94 | The digit 1 has no result (bs[1] is out of range), and 256 converts to 1. |
| BigIntRadix.U16FromBigint | src/numbers.rs:88-94 | The intended conversion: d modulo 2^16, hence d itself for every digit. |
| BigIntRadix.AsMixedRadixBigint | src/numbers.rs:96-112 | With the intended conversion, the BigInt decomposition equals as_mixed_radix on the same value. |
| BigIntRadix.PaddedMixedRadixBigint | src/numbers.rs:114-120 | The padded BigInt decomposition equals padded_mixed_radix. |
| BigIntRadix.AsMixedRadixBigintAsWritten | src/numbers.rs:96-112 | As written, a decomposition that finishes has the length of as_mixed_radix's. |
| BigIntRadix.AsMixedRadixBigintAsWrittenCounterexamples | src/numbers.rs:96-112 | As written, 0 over [2] aborts where as_mixed_radix gives [0], and 256 over [257] gives [1] where it gives [256]. |
| CarryAdd.AddDigits | src/numbers.rs:31-40 | The first loop. The length is kept, the carry is 0 or 1, and positions past ys are untouched. The first \|ys\| digits plus the carry at q^\|ys\| are worth the two prefixes' sum. With digits below q, the new digits are below q. |
| CarryAdd.CarryOn | src/numbers.rs:42-52 | The second loop stops at the first position that absorbs the carry, or at the end of xs. Later positions are untouched. With digits below q, the value equation and the digit bound carry through. |
| CarryAdd.BaseQAddEq | src/numbers.rs:20-53 | It fails with LengthMismatch exactly when ys is longer than xs: the length assertion, or in a release build the read of xs[i] past its end. Otherwise the result has xs's length. With all digits below q, every digit stays below q and the value is (val(xs) + val(ys)) mod q^\|xs\|: the final carry is dropped. |
| CarryAdd.BaseQAdd | src/numbers.rs:11-18 | The result is as long as the longer operand. With digits below q, it is the sum modulo q^length, whichever operand is longer. |
| CarryAdd.DroppedCarry | src/numbers.rs:11-53 | In base 5, [3] + [4] is [2]. |
| CarryAdd.LongerOperand | src/numbers.rs:20-32 | Adding a two-digit operand into a one-digit vector fails with LengthMismatch. |
| ModInverse.InvSteps | src/numbers.rs:228-240 | The Euclid loop finishes, without dividing by zero, exactly when a starts at most 1 or coprime to b. |
| ModInverse.InvStepsSolve | src/numbers.rs:225-240 | Under the loop invariant, the final coefficient x1 satisfies x1 * a == 1 modulo m. It is small enough (1, or at most m/2 in magnitude) for one correction by m. |
| ModInverse.InvRef | src/numbers.rs:217-247 | inv_ref returns a result exactly when a <= 1 or gcd(a, m) == 1, and aborts otherwise. A modulus of 1 gives 1 at once, and so does a <= 1 (for a == 0 that 1 is no inverse). For m > 1 and a coprime to m, the result r satisfies 0 <= r < m and a*r == 1 modulo m. |
| ModInverse.InvRefUnique | src/numbers.rs:217-247 | The inverse is unique in [0, m). Any r' there with a*r' == 1 modulo m is inv_ref's result. |
| ModInverse.InverseExistsIffCoprime | src/numbers.rs:217-247 | An inverse modulo m > 1 exists exactly for the a coprime to m, the inputs on which inv_ref succeeds with a proper result. |
| Crt.Crt | src/numbers.rs:196-200 | One residue per modulus: crt(ps, x)[i] == x mod ps[i], below ps[i]. |
| Crt.TermResidue | src/numbers.rs:209-210 | A term a * inv_ref(M/p, p) * (M/p) is congruent to a modulo p. |
| Crt.CrtInvValue | src/numbers.rs:202-213 | The reconstruction lies in [0, product of ps) and has residue xs[j] modulo every ps[j] that has a residue. Moduli past the end of xs (zip stops there) get residue 0. |
| Crt.CrtInv | src/numbers.rs:202-215 | crt_inv succeeds exactly when the reconstruction fits in u128, always when the product of the moduli does, and otherwise reports Overflow. |
| Crt.PairwiseCoprimeInvertible | src/numbers.rs:208-210 | For pairwise coprime moduli every inv_ref call of crt_inv has a coprime argument. |
| Crt.CrtRoundTrip | src/numbers.rs:196-215 | crt_inv(ps, crt(ps, x)) == x for pairwise coprime ps and x below their product. |
| Crt.CrtOfCrtInv | src/numbers.rs:196-215 | crt(ps, crt_inv(ps, xs)) == xs for residues below their moduli. |
| Primes.Tables | src/numbers.rs:253-263 | PRIMES and PRIMES_SKIP_2 both have 29 entries, as does PRIMITIVE_ROOTS (src/numbers.rs:292-295). All entries are prime and strictly increasing, and PRIMES_SKIP_2 is PRIMES without 2, followed by 113. |
| Primes.RootsTable | src/numbers.rs:292-295 | PRIMITIVE_ROOTS has one entry per prime of PRIMES_SKIP_2, and each root is at least 2 and below its prime. |
| Primes.Factor | src/numbers.rs:180-194 | A successful factor returns table primes in table order whose product is the input. The only failure is NonFactorable. |
| Primes.FactorPick | src/numbers.rs:180-194 | On a product of distinct table primes, factor returns exactly those primes in ascending order. |
| Primes.FactorOne | src/numbers.rs:180-194 | factor(1) is the empty list. |
| Primes.FactorZero | src/numbers.rs:180-194 | factor(0) fails. |
| Primes.FactorResultPrimes | src/numbers.rs:180-194 | What factor returns is strictly increasing and prime. |
| Primes.FactorForeignPrime | src/numbers.rs:180-194 | Any multiple of a prime outside the table fails. |
| Primes.FactorSquare | src/numbers.rs:180-194 | Any multiple of the square of a table prime fails: each prime is divided out once. |
| Primes.BaseModulusWithWidth | src/numbers.rs:273-286 | Returns the product of the shortest prefix of ps reaching 2^nbits, or Overflow when that product leaves u128. If no prefix reaches it, the result is Exhausted. |
| Primes.ModulusWithWidth | src/numbers.rs:265-267 | The same over PRIMES. |
| Primes.ModulusWithWidthSkip2 | src/numbers.rs:269-271 | The same over PRIMES_SKIP_2. |
| Primes.Product | src/numbers.rs:288-290 | Succeeds exactly when every partial product fits in u128, and then returns the product. Otherwise it reports Overflow. |
| Primes.ProductPositive | src/numbers.rs:288-290 | For positive factors, product succeeds exactly when the full product fits in u128. |
| Dlog.PowmLoop | src/numbers.rs:446-455 | With exponent 0 the loop returns z untouched, for any modulus. Otherwise it keeps z*x^n modulo m. It fails by u16 overflow, which cannot happen with x and z below 256 and 0 < m <= 256, or by a remainder with modulus 0, which always fails once the exponent is positive. |
| Dlog.Powm | src/numbers.rs:443-457 | powm(b, e, m) is 1 for e == 0, whatever m, and b^e mod m for e > 0. It fails on a u16 overflow, impossible for b < 256 and 0 < m <= 256, and on a zero modulus with e > 0. |
| Dlog.PowmZeroModulus | src/numbers.rs:443-457 | With modulus 0, powm(3, 0, 0) is 1 and powm(3, 1, 0) divides by zero; powm(256, 2, 0) overflows before the remainder is taken. |
| Dlog.PowmOverflows | src/numbers.rs:449 | The overflow is real: squaring 256 leaves u16. |
| DlogTables.DlogTruthTable | src/numbers.rs:298-441 | Exactly the 30 catalogue moduli have a table. Any other modulus is UnsupportedModulus. |
| DlogTables.ExpTruthTable | src/numbers.rs:459-602 | Exactly the 30 catalogue moduli have a table. Any other modulus is UnsupportedModulus. |
| DlogTables.SupportedModuli | src/numbers.rs:260-263 | The catalogue is 2 together with PRIMES_SKIP_2. |
| DlogTables.RootsAgree | src/numbers.rs:292-295 | The root each table is built on is PRIMITIVE_ROOTS[i] for modulus PRIMES_SKIP_2[i]. |
| DlogTables.CatalogueRows | src/numbers.rs:298-602 | Every catalogue modulus's literal rows pass the entry-by-entry checks: shape, stepping by the root, wrap to 1, and the logarithm undoing the exponent. |
| Dlog.CatalogueLaws | src/numbers.rs:298-602 | For every catalogue modulus both tables exist and satisfy the table laws with its root. |
| Dlog.ExpTableIsPowm | src/numbers.rs:443-602 | The exponent table has length m, and entry k is powm(root, k, m). |
| Dlog.CatalogueDlogIff | src/numbers.rs:298-602 | The logarithm table has length m. For a unit x and k < m - 1, entry x is k exactly when root^k mod m == x. |
| Dlog.DiscreteLog | src/numbers.rs:292-602 | For q = PRIMES_SKIP_2[i] and 1 <= x < q, both tables have length q, and d = dlog[x] is below q - 1. Then exp[d] == x and powm(PRIMITIVE_ROOTS[i], d, q) == x. |
| CyclicTables.ExpPower | src/numbers.rs:459-602 | A table obeying the laws lists the powers of its root: ex[k] == g^k mod p. |
| CyclicTables.ExpImage | src/numbers.rs:459-602 | The first p - 1 exponents are exactly the units 1..p-1. |
| CyclicTables.DlogInverse | src/numbers.rs:298-441 | The logarithm of every unit is below p - 1 and the exponent table takes it back to the unit. |
| CyclicTables.DlogIff | src/numbers.rs:298-602 | For a unit x and k < p - 1: dl[x] == k exactly when ex[k] == x. |
| CyclicTables.PrimitiveRoot | src/numbers.rs:292-602 | The root is primitive: every unit is g^dl[x] mod p, g^(p-1) == 1, and no smaller positive power is 1. |

## Left out

- DigitsPerU128: `digits_per_u128` (src/numbers.rs:7-9) computes floor(128 / ceil(log2 q)) in `f64`. The model uses an integer ceiling log2 (`CeilLog2`) in its place. No claim is made that the two agree for every q. It requires 2 <= q < 2^16: for q = 0 and q = 1 the float ceiling is negative infinity or 0, which is not modelled. `AsBaseQ` and `PaddedBaseQ128` inherit this requirement.
- `num_carry_digits_to_add_n_digits` (src/numbers.rs:613-615) is entirely `f64` arithmetic and is not modelled.
- `is_power_of_2` (src/numbers.rs:604-609) is a generic bit trick that the codecs do not use.
- The `println!` in `as_base_q` is output only.
- The test module (src/numbers.rs:617-740) and its random inputs are not modelled. Its round trips are lemmas instead: `CrtRoundTrip` (crt_conversion), `FactorPick` (factoring), `DiscreteLog` (discrete_log), `BitsRoundTrip` (bits), `FromAsBaseQ` (base_q_conversion), `FromPaddedBaseQ128` (padded_base_q_conversion), and the contracts of `BaseQAdd` and `BaseQAddEq` with `FromPaddedBaseQ` (base_q_addition).
- Generic trait plumbing:
  - `to_bits` is modelled for non-negative integers only.
  - `inv` (src/numbers.rs:249-251) is `inv_ref` on copies and is not modelled separately.
- InvRef: negative arguments of the signed generic `inv_ref` are not modelled.
- Overflow is an `Overflow` error result, where a debug build aborts. This covers u128 overflow in `from_base_q` (the final `+ d` included), `u128_from_bits`, `base_modulus_with_width`, `product` and `crt_inv`'s `unwrap`, and u16 overflow in `powm`. Release-build wrap-around of those operations is not modelled.
- BaseModulusWithWidth: requires nbits < 128, because a shift of a u128 by 128 or more aborts in a debug build. That abort is not modelled. `ModulusWithWidth` and `ModulusWithWidthSkip2` inherit the requirement.
- AsMixedRadix: requires every modulus to be positive. A zero modulus that the loop reaches aborts on the remainder, and that abort is not modelled. `AllPositive` also excludes zero moduli that the loop never reaches, because it stops first; for those the library returns normally (as_mixed_radix(5, [10, 0]) is [5]). `PaddedMixedRadix`, `Crt` and `CrtInv` carry the same requirement. So does `PaddedBaseQ` through `q > 0`: with q = 0 and n > 0, padded_base_q aborts on the remainder by zero.
- CrtInv: requires every quotient M/p that meets a residue to be coprime to p. That is when every `inv_ref` call returns an inverse. For other positive moduli some quotient M/p >= 2 shares a factor with p. `inv_ref` then runs Euclid's loop down to b == 0 and divides by zero (src/numbers.rs:229-232), so crt_inv aborts. `InvRef` models that abort as None, but the reconstruction does not. `CrtInvValue` carries the same requirement.
- AsMixedRadixBigint: takes a natural number, while the library takes a signed BigInt. For a negative value, the first comparison with a modulus already ends the loop. The one digit is then converted from the bytes of the magnitude, because `to_bytes_le` returns the sign separately and the sign is discarded. Negative values are not modelled. `PaddedMixedRadixBigint` and `AsMixedRadixBigintAsWritten` are the same.
- FromBaseQ: requires digits below 2^16, as the library's `u16` digits are.
- BaseQAddEq: requires `NoDigitOverflow`, which leaves room for a carry in every u16 digit addition. This is stricter than the additions the library performs. For digits not below q, only the length of the result is stated. `BaseQAdd`, `AddDigits` and `CarryOn` are the same.
- AddDigits: requires |ys| <= |xs|. It is the first loop of `BaseQAddEq`, which reports a longer ys as LengthMismatch before the loop starts. `CarryOn` also runs only after that check.
- The truth tables are held as rows of eight entries laid end to end. How the library stores its literal vectors is not modelled.

## Findings

| source | as written | input that shows it | evidently intended | confidence | as-written member | corrected member |
|---|---|---|---|---|---|---|
| src/numbers.rs:88-94 | `u16_from_bigint` reads `bs[1]` unconditionally and adds `(bs[1] as u16) << 16`, shifting a u16 by its own width | d = 1: `to_bytes_le` gives one byte and `bs[1]` is out of range (abort). d = 256: bytes [0, 1], and the shift by 16 overflows a u16 (a debug abort; rustc's deny-by-default `arithmetic_overflow` lint would normally reject the constant shift outright, and a build that accepts it masks the shift amount to 0, giving 0 + 1 = 1) | convert the digit, which is below 2^16, to u16 unchanged: bs[0] + bs[1] * 256 | high, not executed | BigIntRadix.U16FromBigintAsWritten, BigIntRadix.U16FromBigintAsWrittenCounterexamples, BigIntRadix.AsMixedRadixBigintAsWrittenCounterexamples | BigIntRadix.U16FromBigint, BigIntRadix.AsMixedRadixBigint |
