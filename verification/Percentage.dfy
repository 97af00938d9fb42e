// The percentage buttons (setPercentage) in exact rational arithmetic, and what sending the amount
// they fill in then transfers.
module Percentages {
  import opened Decimals
  import opened Amounts

  const MAX_SAFE_INTEGER: nat := 9007199254740991

  // The share of the balance is balance * percent / 100 raw units.
  predicate SafeShare(balance: nat, percent: nat) {
    Remainder(balance * percent, 100) == 0 && Quotient(balance * percent, 100) <= MAX_SAFE_INTEGER
  }

  // The share as an amount, or rounded down to thousandths of a token when the raw share is no safe integer.
  function PercentageText(balance: nat, percent: nat, d: nat): string {
    if SafeShare(balance, percent) then ShowAmount(Quotient(balance * percent, 100), d)
    else ShowAmount(Quotient(10 * (balance * percent), Pow10(d)), 3)
  }

  lemma RescaledText(k: nat, places: nat, significand: nat, raw: nat, f: nat, p: nat)
    requires significand * 1000 == k * f && raw * f == significand * p && f > 0
    ensures raw * 1000 == k * p
  {
  }

  lemma ThousandthsBound(raw: nat, k: nat, p: nat, share: nat, r: nat)
    requires raw * 1000 == k * p && 10 * share == k * p + r && r < p
    ensures raw * 100 <= share && 1000 * (share - raw * 100) < 100 * p
  {
  }

  // For every balance and percentage, with at least three decimals, the intended conversion of the text is
  // the share itself if that is a whole number of units up to 2^53 - 1, and otherwise the largest whole
  // number of thousandths of a token that is at most the share.
  lemma PercentageBound(balance: nat, percent: nat, d: nat)
    requires d >= 3
    ensures IsAmount(PercentageText(balance, percent, d)) && Places(PercentageText(balance, percent, d)) <= d
    ensures Digits(ExactAmount(PercentageText(balance, percent, d), d))
    ensures var raw, share := Value(ExactAmount(PercentageText(balance, percent, d), d)), balance * percent;
      if share % 100 == 0 && share / 100 <= 9_007_199_254_740_991 then raw * 100 == share
      else raw == Quotient(share, 100 * Pow10(d - 3)) * Pow10(d - 3) && raw * 100 <= share < (raw + Pow10(d - 3)) * 100
  {
    if SafeShare(balance, percent) {
      SafeShareExact(balance * percent, d);
    } else {
      ThousandthsOf(balance * percent, d);
    }
  }

  lemma SafeShareExact(share: nat, d: nat)
    requires Remainder(share, 100) == 0
    ensures var s := ShowAmount(Quotient(share, 100), d);
      IsAmount(s) && Places(s) <= d && Digits(ExactAmount(s, d)) && Value(ExactAmount(s, d)) * 100 == share
  {
    ShownAmount(Quotient(share, 100), d);
    ExactRoundTrip(Quotient(share, 100), d);
  }

  lemma ThousandthsOf(share: nat, d: nat)
    requires d >= 3
    ensures var s := ShowAmount(Quotient(10 * share, Pow10(d)), 3);
      && IsAmount(s) && Places(s) <= 3 && Digits(ExactAmount(s, d))
      && var raw := Value(ExactAmount(s, d));
         raw == Quotient(share, 100 * Pow10(d - 3)) * Pow10(d - 3) && raw * 100 <= share < (raw + Pow10(d - 3)) * 100
  {
    var p := Pow10(d);
    var k, r := Quotient(10 * share, p), Remainder(10 * share, p);
    var s := ShowAmount(k, 3);
    ThousandthsText(k, d);
    ThousandthsBound(Value(ExactAmount(s, d)), k, p, share, r);
    assert p == 1000 * Pow10(d - 3) by { ThousandOf(d); }
    WholeThousandths(Value(ExactAmount(s, d)), k, Pow10(d - 3), share);
  }

  lemma WholeThousandths(raw: nat, k: nat, p: nat, share: nat)
    requires raw * 1000 == k * (1000 * p) && p > 0 && raw * 100 <= share < (raw + p) * 100
    ensures raw == Quotient(share, 100 * p) * p
  {
    assert raw == k * p;
    assert k * (100 * p) == raw * 100 && (k + 1) * (100 * p) == (raw + p) * 100;
    QuotientIs(share, 100 * p, k);
  }

  lemma QuotientIs(n: nat, m: nat, k: nat)
    requires m > 0 && k * m <= n < (k + 1) * m
    ensures Quotient(n, m) == k
  {
    var q, r := Quotient(n, m), Remainder(n, m);
    ScaleOrder(q, k + 1, m);
    assert n < (q + 1) * m by { assert (q + 1) * m == q * m + m; }
    ScaleOrder(k, q + 1, m);
  }

  lemma ThousandOf(d: nat)
    requires d >= 3
    ensures Pow10(d) == 1000 * Pow10(d - 3)
  {
    PowAdd(3, d - 3);
    assert Pow10(3) == 1000;
  }

  lemma ThousandthsText(k: nat, d: nat)
    requires d >= 3
    ensures var s := ShowAmount(k, 3);
      && IsAmount(s) && Places(s) <= 3 && Digits(ExactAmount(s, d))
      && Value(ExactAmount(s, d)) * 1000 == k * Pow10(d)
  {
    var s := ShowAmount(k, 3);
    ShownAmount(k, 3);
    ExactAmountExactIff(s, d);
    assert Pow10(3) == 1000;
    RescaledText(k, Places(s), Significand(s), Value(ExactAmount(s, d)), Pow10(Places(s)), Pow10(d));
  }

  // A non-zero amount whose fraction is longer than its whole part (capped by the decimals).
  predicate Overpads(s: string, d: nat) {
    HasDot(s) && IsAmount(s) && Significand(s) != 0 && Places(s) > Min(|Whole(s)|, d)
  }

  // The code's conversion of an amount that fits the decimals agrees with the intended one exactly when
  // the text has no dot, is zero, or has as many fraction digits as whole digits (capped by the decimals).
  lemma CodeSendsIntendedIff(s: string, d: nat)
    requires IsAmount(s) && Places(s) <= d
    ensures Digits(RawAmount(s, d)) && Digits(ExactAmount(s, d))
    ensures Value(RawAmount(s, d)) == Value(ExactAmount(s, d)) <==>
      !HasDot(s) || Significand(s) == 0 || Places(s) == Min(|Whole(s)|, d)
    ensures Value(RawAmount(s, d)) > Value(ExactAmount(s, d)) <==> Overpads(s, d)
  {
    RawAmountExactIff(s, d);
    ExactAmountExactIff(s, d);
    ScaleOrder(Value(RawAmount(s, d)), Value(ExactAmount(s, d)), Pow10(Places(s)));
  }

  // An amount that over-pads is sent at least ten times too large: raw * 10^m = intended * 10^f with f > m.
  lemma OverpadsTenfold(s: string, d: nat)
    requires IsAmount(s) && Places(s) <= d && Overpads(s, d)
    ensures Digits(RawAmount(s, d)) && Digits(ExactAmount(s, d))
    ensures Value(RawAmount(s, d)) >= 10 * Value(ExactAmount(s, d)) > 0
  {
    CodeSendsIntendedIff(s, d);
    var f, m := Places(s), Min(|Whole(s)|, d);
    var raw, intended := Value(RawAmount(s, d)), Value(ExactAmount(s, d));
    assert raw * Pow10(m) == Significand(s) * Pow10(d) by { RawAmountComputes(s, d); }
    assert intended * Pow10(f) == Significand(s) * Pow10(d) by { ExactAmountExactIff(s, d); }
    assert Pow10(f) == Pow10(m) * Pow10(f - m) by { PowAdd(m, f - m); }
    PowAtLeastTen(f - m);
    Tenfold(raw, intended, Significand(s), Pow10(d), Pow10(m), Pow10(f - m), Pow10(f));
  }

  lemma PowAtLeastTen(n: nat)
    requires n > 0
    ensures Pow10(n) >= 10
  {
    PowOrder(0, n - 1);
  }

  lemma Positive(x: nat, y: nat)
    requires x > 0 && y > 0
    ensures x * y > 0
  {
  }

  lemma Tenfold(raw: nat, intended: nat, y: nat, p: nat, m: nat, g: nat, f: nat)
    requires raw * m == y * p && intended * f == y * p && f == m * g
    requires y > 0 && p > 0 && m > 0 && g >= 10
    ensures raw >= 10 * intended > 0
  {
    Positive(y, p);
    Regroup(intended, m, g);
    ScaleOrder(raw, intended * g, m);
    AtLeastTenTimes(intended, g);
  }

  lemma Regroup(x: nat, m: nat, g: nat)
    ensures x * (m * g) == x * g * m
  {
  }

  lemma AtLeastTenTimes(x: nat, g: nat)
    requires g >= 10
    ensures x * g >= 10 * x
  {
  }

  // A non-zero rounded amount is at least half of the share: it falls short by less than a thousandth
  // of a token and is itself a positive number of thousandths.
  lemma RoundedIsMostOfTheShare(share: nat, d: nat)
    requires d >= 3
    ensures var s := ShowAmount(Quotient(10 * share, Pow10(d)), 3);
      Digits(ExactAmount(s, d)) &&
      (Value(ExactAmount(s, d)) > 0 ==> share < 2 * (Value(ExactAmount(s, d)) * 100))
  {
    var k, p := Quotient(10 * share, Pow10(d)), Pow10(d - 3);
    var s := ShowAmount(k, 3);
    ThousandthsOf(share, d);
    ThousandthsText(k, d);
    ThousandOf(d);
    MostOf(Value(ExactAmount(s, d)), k, p, share);
  }

  lemma MostOf(raw: nat, k: nat, p: nat, share: nat)
    requires raw * 1000 == k * (1000 * p) && raw * 100 <= share && share - raw * 100 < 100 * p
    ensures raw > 0 ==> share < 2 * (raw * 100)
  {
    assert raw == k * p;
    if k > 0 { assert k * p >= p; }
  }

  // Pressing a percentage button and sending: the code transfers more than the share of the balance
  // exactly when the text over-pads.
  lemma PressThenSendIff(balance: nat, percent: nat, d: nat)
    requires d >= 3
    ensures Digits(RawAmount(PercentageText(balance, percent, d), d))
    ensures Value(RawAmount(PercentageText(balance, percent, d), d)) * 100 > balance * percent
      <==> Overpads(PercentageText(balance, percent, d), d)
  {
    var s, share := PercentageText(balance, percent, d), balance * percent;
    PercentageBound(balance, percent, d);
    CodeSendsIntendedIff(s, d);
    if Overpads(s, d) {
      OverpadsTenfold(s, d);
      if !SafeShare(balance, percent) { RoundedIsMostOfTheShare(share, d); }
    }
  }

  // All of a balance of 1.25 tokens, sent by the code, is ten times the balance.
  lemma AllOfTheBalanceOverdraws()
    ensures PercentageText(1_250_000_000_000, 100, 12) == "1.25"
    ensures Digits(RawAmount("1.25", 12)) && Value(RawAmount("1.25", 12)) == 10 * 1_250_000_000_000
  {
    assert Pow10(11) == 100_000_000_000 && Pow10(12) == 1_000_000_000_000 by { PowAdd(6, 5); PowAdd(6, 6); }
    AllOfTheBalanceText();
    MispaddedAmounts();
    ValuePadded(Show(125), 11);
    ShowValue(125);
  }

  lemma AllOfTheBalanceText()
    requires Pow10(12) == 1_000_000_000_000
    ensures PercentageText(1_250_000_000_000, 100, 12) == "1.25"
  {
    var raw := 1_250_000_000_000;
    assert Quotient(raw, Pow10(12)) == 1 && Remainder(raw, Pow10(12)) == 250_000_000_000;
    QuarterDigits();
    TrimAppendedZeros("25", 10);
    assert Show(1) == "1";
    assert ShowAmount(raw, 12) == "1" + "." + "25";
    assert Quotient(raw * 100, 100) == raw && Remainder(raw * 100, 100) == 0;
  }

  lemma QuarterDigits()
    ensures ShowFixed(250_000_000_000, 12) == "25" + Zeros(10)
  {
    assert Pow10(10) == 10_000_000_000 by { PowAdd(5, 5); }
    FixedPadded(25, 2, 10);
    assert ShowFixed(25, 2) == "25";
  }

  lemma ShiftUp(n: nat, p: nat, m: nat)
    requires m == n * p
    ensures n * (10 * p) == 10 * m && (10 * m) / 10 == m && (10 * m) % 10 == 0
  {
  }

  lemma {:induction false} FixedPadded(n: nat, width: nat, zeros: nat)
    ensures ShowFixed(n * Pow10(zeros), width + zeros) == ShowFixed(n, width) + Zeros(zeros)
    decreases zeros
  {
    if zeros > 0 {
      var m := n * Pow10(zeros - 1);
      ShiftUp(n, Pow10(zeros - 1), m);
      assert n * Pow10(zeros) == 10 * m;
      FixedPadded(n, width, zeros - 1);
      assert Zeros(zeros) == Zeros(zeros - 1) + "0";
    } else {
      assert n * Pow10(0) == n;
      assert ShowFixed(n, width) + Zeros(0) == ShowFixed(n, width);
    }
  }

  lemma {:induction false} TrimAppendedZeros(s: string, n: nat)
    requires Digits(s) && (s == "" || s[|s| - 1] != '0')
    ensures Digits(s + Zeros(n)) && TrimZeros(s + Zeros(n)) == s
    decreases n
  {
    if n > 0 {
      TrimAppendedZeros(s, n - 1);
      assert (s + Zeros(n))[..|s| + n - 1] == s + Zeros(n - 1);
    } else {
      assert s + Zeros(0) == s;
    }
  }
}
