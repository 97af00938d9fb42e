// The weight-to-fee polynomial of the runtime (lib.rs) over the constants it is built from.
module WeightFees {
  import opened Decimals

  // Balances, in indivisible units.
  const MILLIUNIT: nat := 1_000_000_000
  const MICROUNIT: nat := 1_000_000

  const BILLION: nat := 1_000_000_000
  const U64_MAX: nat := 0xFFFF_FFFF_FFFF_FFFF
  const U128_MAX: nat := 0xFFFF_FFFF_FFFF_FFFF_FFFF_FFFF_FFFF_FFFF

  // extrinsic_weights.rs: 125 000 ns of reference time at 1000 units a nanosecond.
  const WEIGHT_REF_TIME_PER_NANOS: nat := 1_000
  const EXTRINSIC_BASE_WEIGHT: nat := WEIGHT_REF_TIME_PER_NANOS * 125_000

  // Perbill::from_rational rounds down, Perbill multiplication to the nearest with ties down.
  function PerbillFromRational(p: nat, q: nat): nat
    requires q > 0
  {
    Quotient(p * BILLION, q)
  }

  function MulPerbill(parts: nat, x: nat): nat {
    Quotient(parts * x, BILLION) + (if 2 * Remainder(parts * x, BILLION) > BILLION then 1 else 0)
  }

  // The one coefficient the polynomial has.
  datatype Coefficient = Coefficient(integer: nat, parts: nat)

  function Polynomial(p: nat, q: nat): Coefficient
    requires q > 0
  {
    Coefficient(Quotient(p, q), PerbillFromRational(Remainder(p, q), q))
  }

  function Fee(c: Coefficient, w: nat): nat { c.integer * w + MulPerbill(c.parts, w) }

  // As computed on u128, where each operation saturates.
  function Saturate(n: nat): nat { if n <= U128_MAX then n else U128_MAX }

  function SaturatingFee(c: Coefficient, w: nat): nat {
    Saturate(Saturate(c.integer * w) + MulPerbill(c.parts, w))
  }

  function RuntimeCoefficient(): Coefficient { Polynomial(MILLIUNIT / 10, 100 * EXTRINSIC_BASE_WEIGHT) }

  // ---- Rounding ----

  lemma NearestBound(parts: nat, x: nat)
    ensures 2 * BILLION * MulPerbill(parts, x) <= 2 * (parts * x) + BILLION
    ensures 2 * (parts * x) <= 2 * BILLION * MulPerbill(parts, x) + BILLION
  {
    var r := Remainder(parts * x, BILLION);
  }

  // The slope the coefficient stands for, in billionths.
  function Slope(c: Coefficient): nat { c.integer * BILLION + c.parts }

  lemma FeeBySlope(c: Coefficient, w: nat)
    ensures 2 * BILLION * Fee(c, w) <= 2 * (Slope(c) * w) + BILLION
    ensures 2 * (Slope(c) * w) <= 2 * BILLION * Fee(c, w) + BILLION
  {
    NearestBound(c.parts, w);
    Distribute(c.integer, BILLION, c.parts, w);
  }

  lemma Distribute(a: nat, b: nat, c: nat, w: nat)
    ensures (a * b + c) * w == b * (a * w) + c * w
  {
  }

  lemma SlopeBound(p: nat, q: nat)
    requires q > 0
    ensures Slope(Polynomial(p, q)) * q <= p * BILLION < (Slope(Polynomial(p, q)) + 1) * q
  {
    var i, r := Quotient(p, q), Remainder(p, q);
    var parts, rest := Quotient(r * BILLION, q), Remainder(r * BILLION, q);
    assert p * BILLION == i * q * BILLION + r * BILLION;
    Distribute(i, BILLION, parts, q);
    assert i * q * BILLION == BILLION * (i * q);
  }

  lemma ScaleUp(x: int, y: int, m: nat)
    requires x <= y
    ensures x * m <= y * m
  {
  }

  // w*p/q - w/10^9 - 1/2 <= fee(w) <= w*p/q + 1/2, for all p, q > 0 and w, without fractions.
  lemma FeeErrorBound(p: nat, q: nat, w: nat)
    requires q > 0
    ensures var fee := Fee(Polynomial(p, q), w);
      && 2 * BILLION * (fee * q) <= 2 * BILLION * (w * p) + BILLION * q
      && 2 * BILLION * (w * p) <= 2 * BILLION * (fee * q) + 2 * (w * q) + BILLION * q
  {
    var c := Polynomial(p, q);
    FeeBySlope(c, w);
    SlopeBound(p, q);
    CombineBounds(Fee(c, w), Slope(c), p, q, w);
  }

  lemma CombineBounds(fee: nat, m: nat, p: nat, q: nat, w: nat)
    requires 2 * BILLION * fee <= 2 * (m * w) + BILLION && 2 * (m * w) <= 2 * BILLION * fee + BILLION
    requires m * q <= p * BILLION <= (m + 1) * q
    ensures 2 * BILLION * (fee * q) <= 2 * BILLION * (w * p) + BILLION * q
    ensures 2 * BILLION * (w * p) <= 2 * BILLION * (fee * q) + 2 * (w * q) + BILLION * q
  {
    RoundingSides(fee, m * w, q);
    SlopeSides(m, p, q, w);
    Chain(BILLION * (fee * q), m * w * q, BILLION * (w * p), w * q, BILLION * q);
  }

  // fee*q and w*p, both in billionths, are close because both are close to the exact slope.
  lemma Chain(fee: int, exact: int, target: int, slack: int, half: int)
    requires 2 * fee <= 2 * exact + half && 2 * exact <= 2 * fee + half
    requires exact <= target <= exact + slack
    ensures 2 * fee <= 2 * target + half && 2 * target <= 2 * fee + 2 * slack + half
  {
  }

  lemma RoundingSides(fee: nat, x: nat, q: nat)
    requires 2 * BILLION * fee <= 2 * x + BILLION && 2 * x <= 2 * BILLION * fee + BILLION
    ensures 2 * BILLION * (fee * q) <= 2 * (x * q) + BILLION * q
    ensures 2 * (x * q) <= 2 * BILLION * (fee * q) + BILLION * q
  {
    ScaleUp(2 * BILLION * fee, 2 * x + BILLION, q);
    ScaleUp(2 * x, 2 * BILLION * fee + BILLION, q);
  }

  lemma SlopeSides(m: nat, p: nat, q: nat, w: nat)
    requires m * q <= p * BILLION <= (m + 1) * q
    ensures m * w * q <= BILLION * (w * p) <= m * w * q + w * q
  {
    ScaleUp(m * q, p * BILLION, w);
    ScaleUp(p * BILLION, (m + 1) * q, w);
    Swap(m, q, w);
    Swap(p, BILLION, w);
    NextMultiple(m, q, w);
  }

  lemma NextMultiple(m: nat, q: nat, w: nat)
    ensures (m + 1) * q * w == m * w * q + w * q
  {
  }

  lemma Swap(a: nat, b: nat, c: nat)
    ensures a * b * c == a * c * b == b * (c * a)
  {
  }

  // ---- Algebra, for every coefficient ----

  lemma FeeMonotone(c: Coefficient, a: nat, b: nat)
    requires a <= b
    ensures Fee(c, a) <= Fee(c, b)
  {
    ScaleUp(a, b, c.integer);
    ScaleUp(a, b, c.parts);
    NearestMonotone(c.parts * a, c.parts * b);
  }

  lemma NearestMonotone(x: nat, y: nat)
    requires x <= y
    ensures Quotient(x, BILLION) + (if 2 * Remainder(x, BILLION) > BILLION then 1 else 0)
         <= Quotient(y, BILLION) + (if 2 * Remainder(y, BILLION) > BILLION then 1 else 0)
  {
  }

  // Splitting a weight changes the fee by at most one indivisible unit.
  lemma FeeNearlyAdditive(c: Coefficient, a: nat, b: nat)
    ensures -1 <= Fee(c, a + b) - Fee(c, a) - Fee(c, b) <= 1
  {
    FeeBySlope(c, a);
    FeeBySlope(c, b);
    FeeBySlope(c, a + b);
    assert Slope(c) * (a + b) == Slope(c) * a + Slope(c) * b;
  }

  // ---- The runtime's constants ----

  lemma RuntimeValues()
    ensures RuntimeCoefficient() == Coefficient(0, 8_000_000)
  {
  }

  // One unit of fee for every 125 of weight, rounded to the nearest; a tie cannot occur.
  lemma RuntimeFee(w: nat)
    ensures Fee(RuntimeCoefficient(), w) == (w + 62) / 125
  {
    RuntimeValues();
  }

  // A hundred times the base weight, not the base weight itself, costs a tenth of a MILLIUNIT.
  lemma RuntimeFeeOfBaseWeights(k: nat)
    ensures Fee(RuntimeCoefficient(), k * (100 * EXTRINSIC_BASE_WEIGHT)) == k * (MILLIUNIT / 10)
    ensures Fee(RuntimeCoefficient(), k * EXTRINSIC_BASE_WEIGHT) == k * MICROUNIT
  {
    RuntimeFeeOfMultiple(k * (MILLIUNIT / 10), k * (100 * EXTRINSIC_BASE_WEIGHT));
    RuntimeFeeOfMultiple(k * MICROUNIT, k * EXTRINSIC_BASE_WEIGHT);
  }

  lemma RuntimeFeeOfMultiple(n: nat, w: nat)
    requires w == 125 * n
    ensures Fee(RuntimeCoefficient(), w) == n
  {
    RuntimeFee(w);
    NearestMultiple(n);
  }

  lemma NearestMultiple(n: nat)
    ensures (125 * n + 62) / 125 == n
  {
  }

  // No 64-bit weight reaches the saturation of the 128-bit arithmetic.
  lemma RuntimeFeeNeverSaturates(w: nat)
    requires w <= U64_MAX
    ensures SaturatingFee(RuntimeCoefficient(), w) == Fee(RuntimeCoefficient(), w) <= U64_MAX
  {
    RuntimeFee(w);
    RuntimeValues();
  }
}
