// The amount arithmetic of the transfer page (Transfer.tsx): decimal text to raw integer text, and the
// text the percentage buttons produce.
module Amounts {
  import opened Decimals

  // ---- The conversion, on any string ----

  // The index of the first dot, or |s| if there is none.
  function DotIndex(s: string): (i: nat)
    ensures i <= |s| && (i < |s| ==> s[i] == '.') && forall k :: 0 <= k < i ==> s[k] != '.'
  {
    if s == "" || s[0] == '.' then 0 else 1 + DotIndex(s[1..])
  }

  predicate HasDot(s: string) { DotIndex(s) < |s| }

  function PadEnd(s: string, length: int): string {
    if |s| < length then s + Zeros(length - |s|) else s
  }

  function Whole(s: string): string { s[..DotIndex(s)] }

  function Fraction(s: string): string { if HasDot(s) then s[DotIndex(s) + 1..] else "" }

  // Lines 193-195: `replace` removes the first dot, and the pad target counts the fraction digits.
  function RawAmount(amount: string, decimals: nat): string {
    if HasDot(amount)
    then PadEnd(Whole(amount) + Fraction(amount), |amount| - DotIndex(amount) - 1 + decimals)
    else amount + Zeros(decimals)
  }

  // The conversion the surrounding comment asks for: the pad target counts the whole digits.
  function ExactAmount(amount: string, decimals: nat): string {
    if HasDot(amount)
    then PadEnd(Whole(amount) + Fraction(amount), DotIndex(amount) + decimals)
    else amount + Zeros(decimals)
  }

  // ---- What the text means ----

  // Digits with at most one dot.
  predicate IsAmount(s: string) { Digits(Whole(s)) && Digits(Fraction(s)) }

  // The amount is Significand / 10^places.
  function Significand(s: string): nat
    requires IsAmount(s)
  {
    Value(Whole(s) + Fraction(s))
  }

  function Places(s: string): nat { |Fraction(s)| }

  function Min(a: nat, b: nat): nat { if a <= b then a else b }

  // raw = amount * 10^decimals, without division.
  predicate Exact(s: string, decimals: nat, raw: nat)
    requires IsAmount(s)
  {
    raw * Pow10(Places(s)) == Significand(s) * Pow10(decimals)
  }

  // ---- What the code computes ----

  lemma PadScales(digits: string, n: nat, d: nat)
    requires Digits(digits) && n <= d
    ensures Digits(digits + Zeros(d - n)) && Value(digits + Zeros(d - n)) * Pow10(n) == Value(digits) * Pow10(d)
  {
    var x := PadBy(digits, d - n);
    var p := SplitPower(n, d);
    ScaleTwice(Value(digits), x, p, Pow10(n), Pow10(d));
  }

  lemma PadBy(digits: string, k: nat) returns (x: nat)
    requires Digits(digits)
    ensures Digits(digits + Zeros(k)) && x == Value(digits + Zeros(k)) == Value(digits) * Pow10(k)
  {
    ValuePadded(digits, k);
    x := Value(digits + Zeros(k));
  }

  lemma SplitPower(n: nat, d: nat) returns (p: nat)
    requires n <= d
    ensures p == Pow10(d - n) && p * Pow10(n) == Pow10(d)
  {
    PowAdd(d - n, n);
    p := Pow10(d - n);
  }

  lemma RawText(s: string, d: nat)
    requires IsAmount(s)
    ensures var n := |Whole(s)|;
      RawAmount(s, d) == Whole(s) + Fraction(s) + Zeros(if !HasDot(s) then d else if n < d then d - n else 0)
  {
  }

  // For every amount text, the result is amount * 10^places * 10^decimals / 10^min(whole digits, decimals)
  // when there is a dot, and exactly amount * 10^decimals when there is none.
  lemma RawAmountComputes(s: string, d: nat)
    requires IsAmount(s)
    ensures Digits(RawAmount(s, d))
    ensures HasDot(s) ==> Value(RawAmount(s, d)) * Pow10(Min(|Whole(s)|, d)) == Significand(s) * Pow10(d)
    ensures !HasDot(s) ==> Exact(s, d, Value(RawAmount(s, d)))
  {
    RawText(s, d);
    PadScales(Whole(s) + Fraction(s), if HasDot(s) then Min(|Whole(s)|, d) else 0, d);
  }

  // Exactly when the code is exact: no dot, a zero amount, or as many fraction digits as whole digits
  // (capped by the decimals). Otherwise it is too small with fewer fraction digits, too large with more.
  lemma RawAmountExactIff(s: string, d: nat)
    requires IsAmount(s)
    ensures Digits(RawAmount(s, d))
    ensures Exact(s, d, Value(RawAmount(s, d))) <==>
      !HasDot(s) || Significand(s) == 0 || Places(s) == Min(|Whole(s)|, d)
    ensures Value(RawAmount(s, d)) * Pow10(Places(s)) < Significand(s) * Pow10(d) <==>
      HasDot(s) && Significand(s) != 0 && Places(s) < Min(|Whole(s)|, d)
  {
    RawAmountComputes(s, d);
    if HasDot(s) {
      var f, m := Places(s), Min(|Whole(s)|, d);
      PowOrder(f, m);
      PowOrder(m, f);
      CompareProducts(Value(RawAmount(s, d)), Pow10(f), Pow10(m), Significand(s), Pow10(d));
    }
  }

  // x * m = y * p says how x * f compares with y * p.
  lemma CompareProducts(x: nat, f: nat, m: nat, y: nat, p: nat)
    requires x * m == y * p && m > 0 && p > 0
    ensures x * f == y * p <==> y == 0 || f == m
    ensures x * f < y * p <==> y != 0 && f < m
  {
  }

  // The intended conversion is exact unless a non-zero amount has more fraction digits than decimals.
  lemma ExactAmountExactIff(s: string, d: nat)
    requires IsAmount(s)
    ensures Digits(ExactAmount(s, d))
    ensures Exact(s, d, Value(ExactAmount(s, d))) <==> Significand(s) == 0 || Places(s) <= d
  {
    var n, f := |Whole(s)|, Places(s);
    var digits := Whole(s) + Fraction(s);
    if !HasDot(s) {
      assert digits == s;
      ValuePadded(s, d);
    } else if f < d {
      assert ExactAmount(s, d) == digits + Zeros(d - f);
      PadScales(digits, f, d);
    } else {
      assert ExactAmount(s, d) == digits;
      PowOrder(f, d);
      PowOrder(d, f);
      CompareProducts(Value(digits), Pow10(f), Pow10(d), Value(digits), Pow10(d));
    }
  }

  // The code and the intended conversion produce the same text exactly when they pad alike.
  lemma SameTextIff(s: string, d: nat)
    requires IsAmount(s)
    ensures RawAmount(s, d) == ExactAmount(s, d) <==>
      !HasDot(s) || Places(s) == |Whole(s)| || (d <= Places(s) && d <= |Whole(s)|)
  {
  }

  // ---- Round trip ----

  // A raw integer as an amount with d decimals, without trailing zeros in the fraction.
  function ShowAmount(raw: nat, d: nat): string {
    var fraction := TrimZeros(ShowFixed(Remainder(raw, Pow10(d)), d));
    Show(Quotient(raw, Pow10(d))) + (if fraction == "" then "" else "." + fraction)
  }

  lemma DigitsHaveNoDot(s: string)
    requires Digits(s)
    ensures DotIndex(s) == |s|
  {
  }

  lemma SplitAtDot(whole: string, fraction: string)
    requires Digits(whole) && Digits(fraction)
    ensures var s := whole + "." + fraction;
      HasDot(s) && IsAmount(s) && Whole(s) == whole && Fraction(s) == fraction
  {
    var s := whole + "." + fraction;
    assert s[|whole|] == '.';
    assert forall k :: 0 <= k < |whole| ==> s[k] == whole[k] && IsDigit(whole[k]);
    assert DotIndex(s) == |whole|;
  }

  lemma ShownParts(raw: nat, d: nat)
    ensures var s, fraction := ShowAmount(raw, d), TrimZeros(ShowFixed(Remainder(raw, Pow10(d)), d));
      && IsAmount(s) && Whole(s) == Show(Quotient(raw, Pow10(d))) && Fraction(s) == fraction
      && (HasDot(s) <==> fraction != "")
  {
    var whole, fraction := Show(Quotient(raw, Pow10(d))), TrimZeros(ShowFixed(Remainder(raw, Pow10(d)), d));
    if fraction == "" {
      DigitsHaveNoDot(whole);
      assert ShowAmount(raw, d) == whole && Whole(whole) == whole;
    } else {
      assert ShowAmount(raw, d) == whole + "." + fraction;
      SplitAtDot(whole, fraction);
    }
  }

  lemma ShownAmount(raw: nat, d: nat)
    ensures var s := ShowAmount(raw, d);
      && IsAmount(s) && Places(s) <= d
      && (HasDot(s) <==> Remainder(raw, Pow10(d)) != 0)
      && Significand(s) * Pow10(d) == raw * Pow10(Places(s))
  {
    var whole, rest := Quotient(raw, Pow10(d)), Remainder(raw, Pow10(d));
    var fixed := ShowFixed(rest, d);
    var fraction := TrimZeros(fixed);
    ShownParts(raw, d);
    ShowFixedValue(rest, d);
    TrimmedValue(fixed);
    ShownSignificand(raw, d);
  }

  lemma ShownSignificand(raw: nat, d: nat)
    ensures var s := ShowAmount(raw, d); IsAmount(s) && Significand(s) * Pow10(d) == raw * Pow10(Places(s))
  {
    var whole, rest := Quotient(raw, Pow10(d)), Remainder(raw, Pow10(d));
    var fraction := TrimZeros(ShowFixed(rest, d));
    ShownParts(raw, d);
    var b := ShownFraction(rest, d);
    var significand := JoinedValue(whole, fraction);
    Recombine(whole, Value(fraction), rest, Pow10(|fraction|), b, Pow10(d));
  }

  lemma JoinedValue(whole: nat, fraction: string) returns (v: nat)
    requires Digits(fraction)
    ensures v == Value(Show(whole) + fraction) == whole * Pow10(|fraction|) + Value(fraction)
  {
    ValueConcat(Show(whole), fraction);
    ShowValue(whole);
    v := Value(Show(whole) + fraction);
  }

  // The trimmed fraction digits are rest / 10^d.
  lemma ShownFraction(rest: nat, d: nat) returns (b: nat)
    requires rest < Pow10(d)
    ensures var fraction := TrimZeros(ShowFixed(rest, d));
      Value(fraction) * b == rest && Pow10(d) == Pow10(|fraction|) * b
  {
    var fraction := TrimZeros(ShowFixed(rest, d));
    b := Pow10(d - |fraction|);
    TrimmedValue(ShowFixed(rest, d));
    ShowFixedValue(rest, d);
    PowAdd(|fraction|, d - |fraction|);
  }

  lemma Recombine(whole: nat, fraction: nat, rest: nat, a: nat, b: nat, p: nat)
    requires p == a * b && fraction * b == rest
    ensures (whole * a + fraction) * p == (whole * p + rest) * a
  {
  }

  // Printing a raw integer and reading it back with the intended conversion gives the integer back.
  lemma ExactRoundTrip(raw: nat, d: nat)
    ensures Digits(ExactAmount(ShowAmount(raw, d), d))
    ensures Value(ExactAmount(ShowAmount(raw, d), d)) == raw
  {
    var s := ShowAmount(raw, d);
    ShownAmount(raw, d);
    ExactAmountExactIff(s, d);
    ScaleOrder(Value(ExactAmount(s, d)), raw, Pow10(Places(s)));
  }

  // With the code's conversion it does so exactly when the printed text has no dot or has as many
  // fraction digits as whole digits (capped by the decimals).
  lemma CodeRoundTripIff(raw: nat, d: nat)
    ensures Digits(RawAmount(ShowAmount(raw, d), d))
    ensures var s := ShowAmount(raw, d);
      Value(RawAmount(s, d)) == raw <==> !HasDot(s) || Places(s) == Min(|Whole(s)|, d)
  {
    var s := ShowAmount(raw, d);
    ShownAmount(raw, d);
    RawAmountExactIff(s, d);
    ScaleOrder(Value(RawAmount(s, d)), raw, Pow10(Places(s)));
    if HasDot(s) { DottedIsPositive(Significand(s), raw, Pow10(d), Pow10(Places(s))); }
  }

  lemma DottedIsPositive(significand: nat, raw: nat, p: nat, f: nat)
    requires significand * p == raw * f && raw > 0 && p > 0 && f > 0
    ensures significand > 0
  {
  }

  // 1.25 of a token with 12 decimals goes out as 12.5 of it, and 10.5 as 1.05.
  lemma MispaddedAmounts()
    ensures RawAmount("1.25", 12) == Show(125) + Zeros(11)
    ensures RawAmount("10.5", 12) == Show(105) + Zeros(10)
  {
    assert DotIndex("1.25") == 1 && DotIndex("10.5") == 2;
    assert Whole("1.25") == "1" && Fraction("1.25") == "25" && Whole("10.5") == "10" && Fraction("10.5") == "5";
    assert Show(125) == "125" && Show(105) == "105";
  }
}
