/** The decimal text layer: plain nonnegative decimals carried as strings, never as floats.
    Texts are parsed, canonicalised, compared, subtracted and printed digit by digit; `Value`
    is the independent meaning (a real number) every one of those operations is proved against. */
module DecimalText {
  import opened Wrappers
  import RiskPolicy

  // ---------------------------------------------------------------- grammar

  predicate IsDigit(c: char) { '0' <= c <= '9' }

  predicate AllDigits(s: string) { forall i :: 0 <= i < |s| ==> IsDigit(s[i]) }

  /** Index of the first dot, or the length when there is none. */
  function DotIndex(s: string): (i: nat)
    ensures i <= |s|
    ensures i < |s| ==> s[i] == '.'
    ensures forall j :: 0 <= j < i ==> s[j] != '.'
  {
    if s == "" || s[0] == '.' then 0 else 1 + DotIndex(s[1..])
  }

  /** First two parts of `value.split(".")`, with the source's defaults. */
  function Whole(s: string): string { s[..DotIndex(s)] }

  function Fraction(s: string): string {
    if DotIndex(s) == |s| then ""
    else var rest := s[DotIndex(s) + 1..]; rest[..DotIndex(rest)]
  }

  /** The pattern `^(?:0|[1-9]\d*)(?:\.\d+)?$`. */
  predicate IsPlain(s: string) {
    var w := Whole(s);
    && w != "" && AllDigits(w) && (w == "0" || w[0] != '0')
    && (DotIndex(s) < |s| ==> |s| > DotIndex(s) + 1 && AllDigits(s[DotIndex(s) + 1..]))
  }

  // ---------------------------------------------------------------- meaning

  function Digit(c: char): (d: nat)
    requires IsDigit(c)
    ensures d <= 9
  {
    (c - '0') as nat
  }

  function Glyph(d: nat): (c: char)
    requires d <= 9
    ensures IsDigit(c) && Digit(c) == d
  {
    '0' + d as char
  }

  function Nat(s: string): nat
    requires AllDigits(s)
  {
    if s == "" then 0 else 10 * Nat(s[..|s| - 1]) + Digit(s[|s| - 1])
  }

  function Frac(s: string): (r: real)
    requires AllDigits(s)
    ensures 0.0 <= r < 1.0
  {
    if s == "" then 0.0 else (Digit(s[0]) as real + Frac(s[1..])) / 10.0
  }

  /** What a plain decimal text denotes. */
  function Value(s: string): (r: real)
    requires IsPlain(s)
    ensures r >= 0.0
  {
    PlainParts(s);
    Nat(Whole(s)) as real + Frac(Fraction(s))
  }

  lemma {:induction false} DotFreeDigits(s: string)
    requires AllDigits(s)
    ensures DotIndex(s) == |s|
  {
    if s != "" {
      assert IsDigit(s[0]);
      DotFreeDigits(s[1..]);
    }
  }

  lemma {:induction false} DotAfterDigits(w: string, rest: string)
    requires AllDigits(w)
    ensures DotIndex(w + "." + rest) == |w|
  {
    var s := w + "." + rest;
    if w != "" {
      assert s[0] == w[0] && IsDigit(w[0]);
      assert s[1..] == w[1..] + "." + rest;
      DotAfterDigits(w[1..], rest);
    }
  }

  lemma {:induction false} PlainParts(s: string)
    requires IsPlain(s)
    ensures AllDigits(Whole(s)) && AllDigits(Fraction(s))
    ensures DotIndex(s) == |s| ==> s == Whole(s) && Fraction(s) == ""
    ensures DotIndex(s) < |s| ==> s == Whole(s) + "." + Fraction(s) && Fraction(s) != ""
  {
    if DotIndex(s) < |s| {
      var rest := s[DotIndex(s) + 1..];
      DotFreeDigits(rest);
      assert Fraction(s) == rest;
      assert s == s[..DotIndex(s)] + [s[DotIndex(s)]] + rest;
    }
  }

  /** Assembling a text from its two parts and splitting it again. */
  lemma {:induction false} JoinParts(w: string, f: string)
    requires w != "" && AllDigits(w) && (w == "0" || w[0] != '0') && AllDigits(f)
    ensures IsPlain(Join(w, f)) && Whole(Join(w, f)) == w && Fraction(Join(w, f)) == f
    ensures Value(Join(w, f)) == Nat(w) as real + Frac(f)
  {
    var s := Join(w, f);
    if f == "" {
      DotFreeDigits(w);
    } else {
      DotAfterDigits(w, f);
      DotFreeDigits(f);
      assert s[|w| + 1..] == f;
    }
  }

  function Join(whole: string, fraction: string): string {
    if |fraction| > 0 then whole + "." + fraction else whole
  }

  // ---------------------------------------------------------------- digit strings

  /** `replace(/0+$/, "")`. */
  function TrimZeros(s: string): (t: string)
    ensures t <= s
    ensures AllDigits(s) ==> AllDigits(t)
    ensures t != "" ==> t[|t| - 1] != '0'
  {
    if s != "" && s[|s| - 1] == '0' then TrimZeros(s[..|s| - 1]) else s
  }

  function Zeros(n: nat): (z: string)
    ensures |z| == n && AllDigits(z)
    ensures forall i :: 0 <= i < n ==> z[i] == '0'
  {
    seq(n, _ => '0')
  }

  function PadEnd(s: string, n: nat): (p: string)
    ensures AllDigits(s) ==> AllDigits(p)
    ensures |p| == if |s| < n then n else |s|
  {
    if |s| < n then s + Zeros(n - |s|) else s
  }

  function PadStart(s: string, n: nat): (p: string)
    ensures AllDigits(s) ==> AllDigits(p)
    ensures |p| == if |s| < n then n else |s|
  {
    if |s| < n then Zeros(n - |s|) + s else s
  }

  /** n times ten to the k. */
  function Shift(n: nat, k: nat): nat {
    if k == 0 then n else 10 * Shift(n, k - 1)
  }

  function Pow10(k: nat): (p: nat)
    ensures p >= 1
  {
    if k == 0 then 1 else 10 * Pow10(k - 1)
  }

  /** x times ten to the k, kept free of products of two variables. */
  function Scale(x: real, k: nat): real {
    if k == 0 then x else 10.0 * Scale(x, k - 1)
  }

  /** `String(n)` for a nonnegative integer. */
  function NatText(n: nat): (s: string)
    ensures s != "" && AllDigits(s) && Nat(s) == n
    ensures s == "0" || s[0] != '0'
    ensures n == 0 <==> s == "0"
  {
    if n < 10 then
      var s := [Glyph(n)];
      assert s[..0] == "" && Nat(s) == 10 * Nat(s[..0]) + Digit(s[0]);
      assert n > 0 ==> s[0] != '0' by { if s[0] == '0' { assert Digit(s[0]) == 0; } }
      s
    else
      var h := NatText(n / 10);
      var s := h + [Glyph(n % 10)];
      assert s[..|s| - 1] == h;
      s
  }

  lemma {:induction false} ShiftIsProduct(n: nat, k: nat)
    ensures Shift(n, k) == n * Pow10(k)
  {
    if k > 0 {
      ShiftIsProduct(n, k - 1);
      assert 10 * (n * Pow10(k - 1)) == n * (10 * Pow10(k - 1));
    }
  }

  lemma {:induction false} ShiftIsScale(n: nat, k: nat)
    ensures Shift(n, k) as real == Scale(n as real, k)
  {
    if k > 0 { ShiftIsScale(n, k - 1); }
  }

  lemma {:induction false} ScaleAdds(x: real, y: real, k: nat)
    ensures Scale(x + y, k) == Scale(x, k) + Scale(y, k)
    ensures Scale(x - y, k) == Scale(x, k) - Scale(y, k)
  {
    if k > 0 { ScaleAdds(x, y, k - 1); }
  }

  lemma {:induction false} ScaleOrder(x: real, y: real, k: nat)
    ensures Scale(x, k) < Scale(y, k) <==> x < y
    ensures Scale(x, k) == Scale(y, k) <==> x == y
  {
    if k > 0 { ScaleOrder(x, y, k - 1); }
  }

  lemma {:induction false} ScaleStep(x: real, k: nat)
    ensures Scale(x, k + 1) == 10.0 * Scale(x, k)
  {}

  /** Dividing by ten first, then scaling one step further. */
  lemma {:induction false} ScaleTenth(x: real, k: nat)
    ensures Scale(x / 10.0, k + 1) == Scale(x, k)
  {
    if k > 0 { ScaleTenth(x, k - 1); }
  }

  lemma {:induction false} NatBound(s: string)
    requires AllDigits(s)
    ensures Nat(s) < Pow10(|s|)
  {
    if s != "" { NatBound(s[..|s| - 1]); }
  }

  lemma {:induction false} NatSplit(a: string, b: string)
    requires AllDigits(a) && AllDigits(b)
    ensures AllDigits(a + b) && Nat(a + b) == Shift(Nat(a), |b|) + Nat(b)
  {
    if b == "" {
      assert a + b == a;
    } else {
      var i := b[..|b| - 1];
      NatSplit(a, i);
      assert (a + b)[..|a + b| - 1] == a + i;
    }
  }

  lemma {:induction false} NatOfZeros(n: nat)
    ensures Nat(Zeros(n)) == 0
  {
    if n > 0 {
      assert Zeros(n)[..n - 1] == Zeros(n - 1);
      NatOfZeros(n - 1);
    }
  }

  lemma {:induction false} LastDigit(s: string)
    requires s != "" && AllDigits(s)
    ensures AllDigits(s[..|s| - 1]) && IsDigit(s[|s| - 1])
    ensures Nat(s) / 10 == Nat(s[..|s| - 1]) && Nat(s) % 10 == Digit(s[|s| - 1])
  {}

  lemma {:induction false} DigitInjective(c: char, d: char)
    requires IsDigit(c) && IsDigit(d) && Digit(c) == Digit(d)
    ensures c == d
  {}

  /** Leading zeros do not change the number; a text without them is determined by it. */
  lemma {:induction false} NatInjective(a: string, b: string)
    requires AllDigits(a) && AllDigits(b) && |a| == |b| && Nat(a) == Nat(b)
    ensures a == b
  {
    hide Nat, Digit;
    if a != "" {
      LastDigit(a);
      LastDigit(b);
      NatInjective(a[..|a| - 1], b[..|b| - 1]);
      DigitInjective(a[|a| - 1], b[|b| - 1]);
      assert a == a[..|a| - 1] + [a[|a| - 1]] && b == b[..|b| - 1] + [b[|b| - 1]];
    }
  }

  lemma {:induction false} NatLowerBound(s: string)
    requires s != "" && AllDigits(s) && s[0] != '0'
    ensures Nat(s) >= Pow10(|s| - 1)
  {
    var i := s[..|s| - 1];
    if i != "" {
      NatLowerBound(i);
    } else {
      assert Digit(s[0]) != 0;
    }
  }

  lemma {:induction false} Pow10Monotone(j: nat, k: nat)
    requires j <= k
    ensures Pow10(j) <= Pow10(k)
    decreases k
  {
    if j < k { Pow10Monotone(j, k - 1); }
  }

  lemma {:induction false} WholeInjective(a: string, b: string)
    requires a != "" && AllDigits(a) && (a == "0" || a[0] != '0')
    requires b != "" && AllDigits(b) && (b == "0" || b[0] != '0')
    requires Nat(a) == Nat(b)
    ensures a == b
  {
    if |a| < |b| { LongerIsLarger(a, b); }
    if |b| < |a| { LongerIsLarger(b, a); }
    NatInjective(a, b);
  }

  lemma {:induction false} LongerIsLarger(a: string, b: string)
    requires AllDigits(a)
    requires b != "" && AllDigits(b) && (b == "0" || b[0] != '0')
    requires |a| < |b| && a != ""
    ensures Nat(a) < Nat(b)
  {
    NatBound(a);
    NatLowerBound(b);
    Pow10Monotone(|a|, |b| - 1);
  }

  // ---------------------------------------------------------------- fractions

  predicate AnyNonZero(s: string) { exists i :: 0 <= i < |s| && s[i] != '0' }

  /** Scaling a fraction moves its leading digits before the point. */
  lemma {:induction false} FracSplit(a: string, b: string)
    requires AllDigits(a) && AllDigits(b)
    ensures AllDigits(a + b)
    ensures Scale(Frac(a + b), |a|) == Nat(a) as real + Frac(b)
  {
    if a == "" {
      assert a + b == b;
    } else {
      var c, t := a[..1], a[1..];
      FracSplit(t, b);
      assert (a + b)[1..] == t + b;
      NatSplit(c, t);
      assert a == c + t && c[..0] == "" && Nat(c) == Digit(a[0]);
      var d, x := Digit(a[0]), Frac(t + b);
      assert Frac(a + b) == (d as real + x) / 10.0;
      ScaleTenth(d as real + x, |t|);
      ScaleAdds(d as real, x, |t|);
      ShiftIsScale(d, |t|);
    }
  }

  lemma {:induction false} FracNat(f: string)
    requires AllDigits(f)
    ensures Scale(Frac(f), |f|) == Nat(f) as real
  {
    FracSplit(f, "");
    assert f + "" == f;
  }

  lemma {:induction false} FracZeroIff(f: string)
    requires AllDigits(f)
    ensures Frac(f) == 0.0 <==> !AnyNonZero(f)
  {
    if f != "" {
      FracZeroIff(f[1..]);
      assert IsDigit(f[0]);
      if AnyNonZero(f) {
        var i :| 0 <= i < |f| && f[i] != '0';
        if i > 0 { assert f[1..][i - 1] == f[i]; }
      }
      if AnyNonZero(f[1..]) {
        var i :| 0 <= i < |f[1..]| && f[1..][i] != '0';
        assert f[i + 1] != '0';
      }
    }
  }

  lemma {:induction false} FracOfPadded(f: string, n: nat)
    requires AllDigits(f)
    ensures Frac(f + Zeros(n)) == Frac(f)
  {
    FracSplit(f, Zeros(n));
    FracNat(f);
    FracZeroIff(Zeros(n));
    ScaleOrder(Frac(f + Zeros(n)), Frac(f), |f|);
  }

  lemma {:induction false} TrimIsUnpadded(f: string)
    ensures f == TrimZeros(f) + Zeros(|f| - |TrimZeros(f)|)
  {
    if f != "" && f[|f| - 1] == '0' {
      TrimIsUnpadded(f[..|f| - 1]);
      var i := f[..|f| - 1];
      assert f == i + "0";
      assert Zeros(|f| - |TrimZeros(f)|) == Zeros(|i| - |TrimZeros(i)|) + "0";
    }
  }

  lemma {:induction false} FracOfTrim(f: string)
    requires AllDigits(f)
    ensures Frac(TrimZeros(f)) == Frac(f)
  {
    TrimIsUnpadded(f);
    FracOfPadded(TrimZeros(f), |f| - |TrimZeros(f)|);
  }

  /** A fraction without trailing zeros is determined by its value. */
  lemma {:induction false} FracInjective(a: string, b: string)
    requires AllDigits(a) && AllDigits(b) && |a| <= |b| && Frac(a) == Frac(b)
    requires b == "" || b[|b| - 1] != '0'
    ensures a == b
  {
    var n := |b| - |a|;
    FracOfPadded(a, n);
    FracNat(a + Zeros(n));
    FracNat(b);
    assert n > 0 ==> (a + Zeros(n))[|a| + n - 1] == '0';
    NatInjective(a + Zeros(n), b);
    assert a + Zeros(0) == a;
  }

  // ---------------------------------------------------------------- canonical form

  function CanonicalDecimal(s: string): string {
    Join(Whole(s), TrimZeros(Fraction(s)))
  }

  /** `canonicalPositiveDecimal`, with a thrown error as None. */
  function CanonicalPositive(s: string): Option<string> {
    if !IsPlain(s) then None
    else if CanonicalDecimal(s) == "0" then None
    else Some(CanonicalDecimal(s))
  }

  predicate IsCanonical(s: string) { IsPlain(s) && CanonicalDecimal(s) == s }

  predicate IsCanonicalPositive(s: string) { CanonicalPositive(s) == Some(s) }

  lemma {:induction false} CanonicalIsPlain(s: string)
    requires IsCanonical(s)
    ensures IsPlain(s) && CanonicalDecimal(s) == s
  {}

  /** Canonicalisation keeps the value and is idempotent. */
  lemma {:induction false} CanonicalIsFaithful(s: string)
    requires IsPlain(s)
    ensures IsCanonical(CanonicalDecimal(s)) && Value(CanonicalDecimal(s)) == Value(s)
  {
    hide Nat, Frac, DotIndex, Whole, Fraction;
    PlainParts(s);
    var w, f := Whole(s), TrimZeros(Fraction(s));
    JoinParts(w, f);
    FracOfTrim(Fraction(s));
    assert TrimZeros(f) == f;
  }

  lemma {:induction false} PartsDetermined(wa: string, fa: string, wb: string, fb: string)
    requires wa != "" && AllDigits(wa) && (wa == "0" || wa[0] != '0') && AllDigits(fa)
    requires wb != "" && AllDigits(wb) && (wb == "0" || wb[0] != '0') && AllDigits(fb)
    requires Nat(wa) as real + Frac(fa) == Nat(wb) as real + Frac(fb)
    ensures wa == wb && TrimZeros(fa) == TrimZeros(fb)
  {
    WholeInjective(wa, wb);
    FracOfTrim(fa);
    FracOfTrim(fb);
    var ta, tb := TrimZeros(fa), TrimZeros(fb);
    if |ta| <= |tb| { FracInjective(ta, tb); } else { FracInjective(tb, ta); }
  }

  /** Two plain texts have one canonical form exactly when they denote one number. */
  lemma {:induction false} CanonicalDecides(a: string, b: string)
    requires IsPlain(a) && IsPlain(b)
    ensures CanonicalDecimal(a) == CanonicalDecimal(b) <==> Value(a) == Value(b)
  {
    CanonicalIsFaithful(a);
    CanonicalIsFaithful(b);
    if Value(a) == Value(b) {
      PlainParts(a);
      PlainParts(b);
      PartsDetermined(Whole(a), Fraction(a), Whole(b), Fraction(b));
    }
  }

  /** The positive canonical form exists exactly for plain texts of positive value. */
  lemma {:induction false} CanonicalPositiveIff(s: string)
    ensures CanonicalPositive(s).Some? <==> IsPlain(s) && Value(s) > 0.0
    ensures CanonicalPositive(s).Some? ==>
      var c := CanonicalPositive(s).value;
      IsCanonical(c) && IsCanonicalPositive(c) && Value(c) == Value(s)
  {
    if IsPlain(s) {
      CanonicalIsFaithful(s);
      JoinParts("0", "");
      assert "0"[..0] == "" && Nat("0") == 0;
      CanonicalDecides(s, "0");
      assert CanonicalDecimal("0") == "0";
    }
  }

  /** `decimalEquals`: the left text is checked, the right one is trusted. */
  predicate DecimalEquals(left: string, right: string) {
    IsPlain(left) && CanonicalDecimal(left) == CanonicalDecimal(right)
  }

  /** On plain texts `decimalEquals` decides numeric equality. */
  lemma {:induction false} DecimalEqualsDecides(left: string, right: string)
    requires IsPlain(right)
    ensures DecimalEquals(left, right) <==> IsPlain(left) && Value(left) == Value(right)
  {
    if IsPlain(left) { CanonicalDecides(left, right); }
  }

  // ---------------------------------------------------------------- scaled integers

  datatype Rounding = Exact | Floor | Ceil

  function Kept(s: string, digits: nat): string {
    var f := Fraction(s);
    PadEnd(if |f| < digits then f else f[..digits], digits)
  }

  function Discarded(s: string, digits: nat): string {
    var f := Fraction(s);
    if |f| < digits then "" else f[digits..]
  }

  /** `nonNegativeScaled` and `decimalToScaled`: an integer count of 10^-digits units. */
  function ParseScaled(s: string, digits: nat, mode: Rounding): Option<nat> {
    if !IsPlain(s) then None
    else
      PlainParts(s);
      var inexact := AnyNonZero(Discarded(s, digits));
      if mode.Exact? && inexact then None
      else
        var scaled := Shift(Nat(Whole(s)), digits) + Nat(Kept(s, digits));
        Some(if mode.Ceil? && inexact then scaled + 1 else scaled)
  }

  lemma {:induction false} FractionAtScale(s: string, digits: nat)
    requires AllDigits(Fraction(s))
    ensures AllDigits(Kept(s, digits)) && AllDigits(Discarded(s, digits))
    ensures Scale(Frac(Fraction(s)), digits) == Nat(Kept(s, digits)) as real + Frac(Discarded(s, digits))
  {
    var f := Fraction(s);
    if |f| < digits {
      FracOfPadded(f, digits - |f|);
      FracNat(Kept(s, digits));
    } else {
      assert f == f[..digits] + f[digits..];
      FracSplit(f[..digits], f[digits..]);
    }
  }

  /** The value splits at any scale into the kept units and a remainder below one unit. */
  lemma {:induction false} ScaledValue(s: string, digits: nat)
    requires IsPlain(s)
    ensures AllDigits(Whole(s)) && AllDigits(Kept(s, digits)) && AllDigits(Discarded(s, digits))
    ensures Scale(Value(s), digits) ==
      (Shift(Nat(Whole(s)), digits) + Nat(Kept(s, digits))) as real + Frac(Discarded(s, digits))
    ensures AnyNonZero(Discarded(s, digits)) <==> Frac(Discarded(s, digits)) > 0.0
  {
    hide IsPlain;
    PlainParts(s);
    FractionAtScale(s, digits);
    FracZeroIff(Discarded(s, digits));
    ScaleAdds(Nat(Whole(s)) as real, Frac(Fraction(s)), digits);
    ShiftIsScale(Nat(Whole(s)), digits);
  }

  /** What each rounding mode returns, for every text and every scale. */
  lemma {:induction false} ParseScaledMeaning(s: string, digits: nat)
    requires IsPlain(s)
    ensures var x := Scale(Value(s), digits);
      && ParseScaled(s, digits, Floor) == Some(x.Floor)
      && ParseScaled(s, digits, Ceil) == Some(if x == x.Floor as real then x.Floor else x.Floor + 1)
      && ParseScaled(s, digits, Exact) == if x == x.Floor as real then Some(x.Floor) else None
  {
    ScaledValue(s, digits);
  }

  // ---------------------------------------------------------------- printing

  /** n divided by ten to the k, digit by digit; `DropDigitsIsDivision` says that it is that quotient. */
  function DropDigits(n: nat, k: nat): nat {
    if k == 0 then n else DropDigits(n / 10, k - 1)
  }

  lemma {:induction false} DropDigitsBounds(n: nat, k: nat)
    ensures Shift(DropDigits(n, k), k) <= n < Shift(DropDigits(n, k), k) + Pow10(k)
  {
    if k > 0 { DropDigitsBounds(n / 10, k - 1); }
  }

  lemma {:induction false} DropDigitsIsDivision(n: nat, k: nat)
    ensures DropDigits(n, k) == n / Pow10(k)
    ensures n - Shift(DropDigits(n, k), k) == n % Pow10(k)
  {
    DropDigitsBounds(n, k);
    ShiftIsProduct(DropDigits(n, k), k);
    DivisionUnique(n, Pow10(k), DropDigits(n, k));
  }

  lemma {:induction false} DivisionUnique(n: nat, p: nat, q: nat)
    requires p > 0 && q * p <= n < q * p + p
    ensures q == n / p && n - q * p == n % p
  {
    var d, r := n / p - q, n % p;
    assert n == (n / p) * p + r;
    assert d * p == (n / p) * p - q * p;
    assert d >= 1 ==> d * p >= p;
    assert d <= -1 ==> d * p + p <= 0;
  }

  /** `scaledString`, `quantityString`, `centsString` and the printer inside `subtractPositiveDecimal`. */
  function Print(n: nat, digits: nat): string {
    DropDigitsBounds(n, digits);
    var whole := DropDigits(n, digits);
    PrintParts(whole, n - Shift(whole, digits), digits)
  }

  function PrintParts(whole: nat, units: nat, digits: nat): string {
    Join(NatText(whole), TrimZeros(PadStart(NatText(units), digits)))
  }

  lemma {:induction false} PaddedNat(t: string, digits: nat)
    requires AllDigits(t) && |t| <= digits
    ensures |PadStart(t, digits)| == digits && Nat(PadStart(t, digits)) == Nat(t)
  {
    hide Nat;
    if |t| < digits {
      NatSplit(Zeros(digits - |t|), t);
      NatOfZeros(digits - |t|);
      ShiftIsProduct(0, |t|);
    }
  }

  /** A remainder has at most as many digits as were dropped. */
  lemma {:induction false} RemainderLength(r: nat, digits: nat)
    requires r < Pow10(digits) && digits > 0
    ensures |NatText(r)| <= digits
  {
    hide NatText;
    var t := NatText(r);
    if |t| > digits {
      NatLowerBound(t);
      Pow10Monotone(digits, |t| - 1);
    }
  }

  lemma {:induction false} PaddedRemainder(r: nat, digits: nat)
    requires r < Pow10(digits)
    ensures Scale(Frac(TrimZeros(PadStart(NatText(r), digits))), digits) == r as real
  {
    hide NatText, TrimZeros, Nat, Frac;
    var t := NatText(r);
    var f := PadStart(t, digits);
    FracOfTrim(f);
    if digits == 0 {
      FracZeroIff(t);
    } else {
      RemainderLength(r, digits);
      PaddedNat(t, digits);
      FracNat(f);
    }
  }

  lemma {:induction false} JoinTrimmed(w: string, f: string)
    requires w != "" && AllDigits(w) && (w == "0" || w[0] != '0') && AllDigits(f)
    ensures var s := Join(w, TrimZeros(f));
      IsCanonical(s) && Value(s) == Nat(w) as real + Frac(f)
  {
    var t := TrimZeros(f);
    JoinParts(w, t);
    FracOfTrim(f);
    assert TrimZeros(t) == t;
  }

  lemma {:induction false} PrintPartsMeaning(whole: nat, units: nat, digits: nat)
    requires units < Pow10(digits)
    ensures IsCanonical(PrintParts(whole, units, digits))
    ensures Scale(Value(PrintParts(whole, units, digits)), digits) == (Shift(whole, digits) + units) as real
  {
    hide IsCanonical, IsPlain, Value;
    var w, f := NatText(whole), PadStart(NatText(units), digits);
    JoinTrimmed(w, f);
    PaddedRemainder(units, digits);
    FracOfTrim(f);
    ScaleAdds(whole as real, Frac(f), digits);
    ShiftIsScale(whole, digits);
  }

  /** Printing is exact and canonical. */
  lemma {:induction false} PrintMeaning(n: nat, digits: nat)
    ensures IsCanonical(Print(n, digits))
    ensures Scale(Value(Print(n, digits)), digits) == n as real
  {
    hide IsCanonical, IsPlain, Value, Scale, PrintParts, DropDigits, Shift, Pow10;
    DropDigitsBounds(n, digits);
    var whole := DropDigits(n, digits);
    PrintPartsMeaning(whole, n - Shift(whole, digits), digits);
  }

  /** Printing then parsing gives the number back; parsing then printing gives the canonical text back. */
  lemma {:induction false} PrintParseRoundTrip(n: nat, digits: nat)
    ensures ParseScaled(Print(n, digits), digits, Exact) == Some(n)
  {
    PrintMeaning(n, digits);
    ParseScaledMeaning(Print(n, digits), digits);
  }

  lemma {:induction false} ParsePrintRoundTrip(s: string, digits: nat)
    requires ParseScaled(s, digits, Exact).Some?
    ensures Print(ParseScaled(s, digits, Exact).value, digits) == CanonicalDecimal(s)
  {
    var n := ParseScaled(s, digits, Exact).value;
    PrintMeaning(n, digits);
    ParseScaledMeaning(s, digits);
    ScaleOrder(Value(Print(n, digits)), Value(s), digits);
    CanonicalDecides(Print(n, digits), s);
  }

  // ---------------------------------------------------------------- subtraction and order

  function Max(a: nat, b: nat): nat { if a < b then b else a }

  /** `decimalToScaledInteger` at a scale that holds every fraction digit. */
  function ScaledInteger(s: string, digits: nat): nat
    requires IsPlain(s)
  {
    PlainParts(s);
    Shift(Nat(Whole(s)), digits) + Nat(PadEnd(Fraction(s), digits))
  }

  lemma {:induction false} ScaledIntegerValue(s: string, digits: nat)
    requires IsPlain(s) && |Fraction(s)| <= digits
    ensures ScaledInteger(s, digits) as real == Scale(Value(s), digits)
  {
    ScaledValue(s, digits);
    var f := Fraction(s);
    assert Kept(s, digits) == PadEnd(f, digits) by { assert f[..|f|] == f; }
    assert Discarded(s, digits) == "";
  }

  function ScaledDifference(l: string, r: string): Option<string>
    requires IsPlain(l) && IsPlain(r)
  {
    var digits := Max(|Fraction(l)|, |Fraction(r)|);
    var difference := ScaledInteger(l, digits) - ScaledInteger(r, digits);
    if difference <= 0 then None else Some(Print(difference, digits))
  }

  lemma {:induction false} ScaledIntegersSubtract(l: string, r: string, digits: nat) returns (difference: int)
    requires IsPlain(l) && IsPlain(r) && |Fraction(l)| <= digits && |Fraction(r)| <= digits
    ensures difference == ScaledInteger(l, digits) - ScaledInteger(r, digits)
    ensures difference as real == Scale(Value(l) - Value(r), digits)
    ensures difference > 0 <==> Value(l) > Value(r)
  {
    ScaledIntegerValue(l, digits);
    ScaledIntegerValue(r, digits);
    ScaleAdds(Value(l), Value(r), digits);
    ScaleOrder(Value(r), Value(l), digits);
    difference := ScaledInteger(l, digits) - ScaledInteger(r, digits);
  }

  lemma {:induction false} PrintedValue(n: nat, digits: nat, x: real) returns (d: string)
    requires Scale(x, digits) == n as real
    ensures d == Print(n, digits) && IsCanonical(d) && Value(d) == x
  {
    d := Print(n, digits);
    PrintMeaning(n, digits);
    ScaleOrder(Value(d), x, digits);
  }

  lemma {:induction false} ScaledDifferenceMeaning(l: string, r: string)
    requires IsPlain(l) && IsPlain(r)
    ensures ScaledDifference(l, r).Some? <==> Value(l) > Value(r)
    ensures ScaledDifference(l, r).Some? ==>
      var d := ScaledDifference(l, r).value;
      IsCanonical(d) && Value(d) == Value(l) - Value(r)
  {
    hide IsCanonical, IsPlain, Value, Print, ScaledInteger, Scale;
    var digits := Max(|Fraction(l)|, |Fraction(r)|);
    var difference := ScaledIntegersSubtract(l, r, digits);
    if difference > 0 {
      var d := PrintedValue(difference, digits, Value(l) - Value(r));
    }
  }

  /** `subtractPositiveDecimal`, with its thrown errors as None. */
  function SubtractPositive(minuend: string, subtrahend: string): Option<string> {
    var left := CanonicalPositive(minuend);
    var right := CanonicalPositive(subtrahend);
    if left.None? || right.None? then None
    else
      CanonicalPositiveIff(minuend);
      CanonicalPositiveIff(subtrahend);
      ScaledDifference(left.value, right.value)
  }

  /** Subtraction succeeds exactly when the difference is positive, and prints it exactly. */
  lemma {:induction false} SubtractMeaning(a: string, b: string)
    requires CanonicalPositive(a).Some? && CanonicalPositive(b).Some?
    ensures IsPlain(a) && IsPlain(b)
    ensures SubtractPositive(a, b).Some? <==> Value(a) > Value(b)
    ensures SubtractPositive(a, b).Some? ==>
      var d := SubtractPositive(a, b).value;
      IsCanonicalPositive(d) && IsPlain(d) && Value(d) == Value(a) - Value(b)
  {
    hide IsCanonical, IsPlain, Value, ScaledDifference, CanonicalPositive, IsCanonicalPositive;
    CanonicalPositiveIff(a);
    CanonicalPositiveIff(b);
    var l, r := CanonicalPositive(a).value, CanonicalPositive(b).value;
    ScaledDifferenceMeaning(l, r);
    var difference := ScaledDifference(l, r);
    if difference.Some? { CanonicalIsFixed(difference.value); }
  }

  lemma {:induction false} CanonicalIsFixed(d: string)
    requires IsCanonical(d) && Value(d) > 0.0
    ensures IsPlain(d) && IsCanonicalPositive(d)
  {
    CanonicalPositiveIff(d);
  }

  /** `comparePositiveDecimals`: -1, 0 or 1. */
  function ComparePositive(left: string, right: string): int
    requires IsPlain(left) && IsPlain(right)
  {
    var digits := Max(|Fraction(left)|, |Fraction(right)|);
    var l, r := ScaledInteger(left, digits), ScaledInteger(right, digits);
    if l < r then -1 else if l > r then 1 else 0
  }

  /** The comparison decides the numeric order, written out for texts of any two lengths. */
  lemma {:induction false} CompareDecides(a: string, b: string)
    requires IsPlain(a) && IsPlain(b)
    ensures ComparePositive(a, b) < 0 <==> Value(a) < Value(b)
    ensures ComparePositive(a, b) == 0 <==> Value(a) == Value(b)
    ensures ComparePositive(a, b) > 0 <==> Value(a) > Value(b)
  {
    var digits := Max(|Fraction(a)|, |Fraction(b)|);
    ScaledIntegerValue(a, digits);
    ScaledIntegerValue(b, digits);
    ScaleOrder(Value(a), Value(b), digits);
    ScaleOrder(Value(b), Value(a), digits);
  }

  // ---------------------------------------------------------------- signed cents

  /** `signedDecimalToCentsFloor`: nothing for a malformed text, nor outside the safe range on either side. */
  function SignedCentsFloor(s: string): Option<int> {
    var negative := s != "" && s[0] == '-';
    var absolute := if negative then s[1..] else s;
    match ParseScaled(absolute, 2, if negative then Ceil else Floor)
    case None => None
    case Some(magnitude) => var m: int := magnitude; WhenSafe(if negative then -m else m)
  }

  function WhenSafe(cents: int): Option<int> { if RiskPolicy.IsSafe(cents) then Some(cents) else None }

  /** Truncating digits rounds towards zero; the source still returns the floor of a negative amount, whenever
      that floor is a safe integer. */
  lemma {:induction false} SignedCentsIsFloor(s: string)
    requires IsPlain(s)
    ensures SignedCentsFloor(s) == WhenSafe((Value(s) * 100.0).Floor)
    ensures SignedCentsFloor("-" + s) == WhenSafe((-Value(s) * 100.0).Floor)
  {
    assert s[0] != '-' by { PlainParts(s); assert s[0] == Whole(s)[0] && IsDigit(Whole(s)[0]); }
    ParseScaledMeaning(s, 2);
    assert Scale(Value(s), 2) == 10.0 * Scale(Value(s), 1) == Value(s) * 100.0;
    assert ("-" + s)[1..] == s;
    var x := Value(s) * 100.0;
    assert -Value(s) * 100.0 == -x;
  }
}
