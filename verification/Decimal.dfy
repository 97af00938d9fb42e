// Decimal text: digit strings, the numbers they denote, and powers of ten.
module Decimals {
  predicate IsDigit(c: char) { '0' <= c <= '9' }

  predicate Digits(s: string) { forall i :: 0 <= i < |s| ==> IsDigit(s[i]) }

  function DigitValue(c: char): nat
    requires IsDigit(c)
  {
    c as int - '0' as int
  }

  function DigitChar(n: nat): (c: char)
    requires n < 10
    ensures IsDigit(c) && DigitValue(c) == n
  {
    (n + '0' as int) as char
  }

  function Pow10(n: nat): (r: nat)
    ensures r > 0
  {
    if n == 0 then 1 else 10 * Pow10(n - 1)
  }

  // The number a digit string denotes, most significant digit first; 0 for the empty string.
  function Value(s: string): nat
    requires Digits(s)
  {
    if s == "" then 0 else 10 * Value(s[..|s| - 1]) + DigitValue(s[|s| - 1])
  }

  function Zeros(n: nat): (s: string)
    ensures |s| == n && Digits(s) && forall i :: 0 <= i < n ==> s[i] == '0'
  {
    seq(n, _ => '0')
  }

  // ---- Powers ----

  lemma {:induction false} PowAdd(a: nat, b: nat)
    ensures Pow10(a + b) == Pow10(a) * Pow10(b)
  {
    if a > 0 {
      PowAdd(a - 1, b);
      assert Pow10(a + b) == 10 * (Pow10(a - 1) * Pow10(b));
    }
  }

  lemma {:induction false} PowGrows(a: nat, b: nat)
    requires a < b
    ensures Pow10(a) < Pow10(b)
    decreases b
  {
    if a < b - 1 { PowGrows(a, b - 1); }
  }

  lemma PowOrder(a: nat, b: nat)
    ensures Pow10(a) < Pow10(b) <==> a < b
  {
    if a < b { PowGrows(a, b); } else if b < a { PowGrows(b, a); }
  }

  // ---- Products, kept apart from the functions that produce the factors ----

  lemma ScaleTwice(v: int, x: int, a: int, b: int, p: int)
    requires x == v * a && a * b == p
    ensures x * b == v * p
  {
  }

  function Quotient(n: nat, m: nat): nat
    requires m > 0
  {
    n / m
  }

  function Remainder(n: nat, m: nat): (r: nat)
    requires m > 0
    ensures r < m && n == Quotient(n, m) * m + r
  {
    n % m
  }

  lemma AppendDigit(a: int, p: int, b: int, c: int)
    ensures 10 * (a * p + b) + c == a * (10 * p) + (10 * b + c)
  {
  }

  lemma ScaleOrder(x: nat, y: nat, m: nat)
    requires m > 0
    ensures x * m < y * m <==> x < y
    ensures x * m == y * m <==> x == y
  {
  }

  // ---- Values ----

  lemma {:induction false} ValueConcat(a: string, b: string)
    requires Digits(a) && Digits(b)
    ensures Digits(a + b) && Value(a + b) == Value(a) * Pow10(|b|) + Value(b)
    decreases |b|
  {
    if b == "" {
      assert a + b == a;
    } else {
      var b', c := b[..|b| - 1], b[|b| - 1];
      assert (a + b)[..|a + b| - 1] == a + b' && (a + b)[|a + b| - 1] == c;
      ValueConcat(a, b');
      assert IsDigit(c);
      AppendDigit(Value(a), Pow10(|b'|), Value(b'), DigitValue(c));
    }
  }

  lemma {:induction false} ValueZeros(n: nat)
    ensures Value(Zeros(n)) == 0
  {
    if n > 0 {
      assert Zeros(n)[..n - 1] == Zeros(n - 1);
      ValueZeros(n - 1);
    }
  }

  lemma ValuePadded(s: string, n: nat)
    requires Digits(s)
    ensures Digits(s + Zeros(n)) && Value(s + Zeros(n)) == Value(s) * Pow10(n)
  {
    ValueConcat(s, Zeros(n));
    ValueZeros(n);
  }

  // ---- Printing ----

  // The decimal text of a natural number, without leading zeros.
  function Show(n: nat): (s: string)
    ensures Digits(s) && |s| > 0
  {
    if n < 10 then [DigitChar(n)] else Show(n / 10) + [DigitChar(n % 10)]
  }

  lemma {:induction false} ShowValue(n: nat)
    ensures Value(Show(n)) == n
  {
    if n >= 10 {
      ShowValue(n / 10);
      assert Show(n)[..|Show(n)| - 1] == Show(n / 10);
    } else {
      assert Value([DigitChar(n)][..0]) == 0;
    }
  }

  // The last `width` digits of n, with leading zeros.
  function ShowFixed(n: nat, width: nat): (s: string)
    ensures Digits(s) && |s| == width
  {
    if width == 0 then "" else ShowFixed(n / 10, width - 1) + [DigitChar(n % 10)]
  }

  lemma {:induction false} ShowFixedValue(n: nat, width: nat)
    requires n < Pow10(width)
    ensures Value(ShowFixed(n, width)) == n
  {
    if width > 0 {
      LastDigit(n, Pow10(width - 1));
      ShowFixedValue(n / 10, width - 1);
      FixedStep(n, width);
    }
  }

  lemma LastDigit(n: nat, p: nat)
    ensures n < 10 * p ==> n / 10 < p
    ensures n == 10 * (n / 10) + n % 10
  {
  }

  lemma FixedStep(n: nat, width: nat)
    requires width > 0
    ensures Value(ShowFixed(n, width)) == 10 * Value(ShowFixed(n / 10, width - 1)) + n % 10
  {
    var fixed := ShowFixed(n, width);
    assert fixed[..width - 1] == ShowFixed(n / 10, width - 1) && fixed[width - 1] == DigitChar(n % 10);
  }

  function TrimZeros(s: string): (t: string)
    requires Digits(s)
    ensures Digits(t) && |t| <= |s|
    ensures t == "" || t[|t| - 1] != '0'
  {
    if s != "" && s[|s| - 1] == '0' then TrimZeros(s[..|s| - 1]) else s
  }

  lemma {:induction false} TrimmedValue(s: string)
    requires Digits(s)
    ensures Value(TrimZeros(s)) * Pow10(|s| - |TrimZeros(s)|) == Value(s)
    ensures TrimZeros(s) == "" <==> Value(s) == 0
    decreases |s|
  {
    if s != "" && s[|s| - 1] == '0' {
      var r := s[..|s| - 1];
      TrimmedValue(r);
      var t := TrimZeros(r);
      AppendDigit(Value(t), Pow10(|r| - |t|), 0, 0);
    } else if s != "" {
      assert DigitValue(s[|s| - 1]) > 0;
    }
  }
}
