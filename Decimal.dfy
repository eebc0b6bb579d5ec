/** Exact decimal arithmetic standing in for the source's `Double`s:
    powers of ten, the integer-part digit count that `floor(log10(x)) + 1`
    computes, and the rendering done by `DecimalFormat("0.###")` and
    `DecimalFormat("0.##")`, applied to a value held as a whole number of
    10^-places units. `ParseDecimal` reads such a rendering back. */
module Decimal {
  import opened Wrappers

  function Pow10(n: nat): (r: nat)
    ensures r >= 1
  {
    if n == 0 then 1 else 10 * Pow10(n - 1)
  }

  lemma {:induction false} Pow10Add(a: nat, b: nat)
    ensures Pow10(a + b) == Pow10(a) * Pow10(b)
  {
    if a > 0 {
      Pow10Add(a - 1, b);
      assert Pow10(a + b) == 10 * Pow10(a - 1 + b);
    }
  }

  lemma {:induction false} Pow10Monotone(a: nat, b: nat)
    requires a < b
    ensures Pow10(a) < Pow10(b)
  {
    if a + 1 < b {
      Pow10Monotone(a, b - 1);
    }
  }

  lemma MulAssoc(a: nat, b: nat, c: nat)
    ensures a * (b * c) == (a * b) * c == b * (a * c)
  {
  }

  /** Multiplying both sides of x <= y by the same a, on either side. */
  lemma MulMonotone(a: nat, x: nat, y: nat)
    requires x <= y
    ensures a * x <= a * y && x * a <= y * a
  {
  }

  /** The number of decimal digits of x, zero for x == 0: for a real value
      v >= 1 with integer part x this is floor(log10(v)) + 1, and for
      0 <= v < 1 it is 0 (log10 gives a result below 1 there). */
  function DigitCount(x: nat): (n: nat)
    ensures n == 0 <==> x == 0
    ensures n > 0 ==> Pow10(n - 1) <= x < Pow10(n)
  {
    if x == 0 then 0 else 1 + DigitCount(x / 10)
  }

  /** Any x between 10^(n-1) and 10^n has exactly n digits. */
  lemma {:induction false} DigitCountUnique(x: nat, n: nat)
    requires n > 0 && Pow10(n - 1) <= x < Pow10(n)
    ensures DigitCount(x) == n
  {
    var k := DigitCount(x);
    if k < n {
      Pow10Monotone(k, n - 1);
      assert false;
    } else if k > n {
      Pow10Monotone(n, k - 1);
      assert false;
    }
  }

  // -------------------------------------------------------------- digits

  predicate IsDigitChar(c: char) {
    '0' <= c <= '9'
  }

  predicate AllDigits(s: string) {
    forall i :: 0 <= i < |s| ==> IsDigitChar(s[i])
  }

  function DigitChar(d: nat): (c: char)
    requires d < 10
    ensures IsDigitChar(c) && c as int - '0' as int == d
  {
    (d + '0' as int) as char
  }

  /** The value of a string of decimal digits, most significant first. */
  function DigitsValue(s: string): nat
    requires AllDigits(s)
  {
    if s == [] then 0 else DigitsValue(s[..|s| - 1]) * 10 + (s[|s| - 1] as int - '0' as int)
  }

  /** The shortest decimal rendering of n (Kotlin's n.toString()). */
  function NatToString(n: nat): (s: string)
    ensures |s| >= 1 && AllDigits(s)
    ensures |s| > 1 ==> s[0] != '0'
  {
    if n < 10 then [DigitChar(n)] else NatToString(n / 10) + [DigitChar(n % 10)]
  }

  lemma {:induction false} NatToStringValue(n: nat)
    ensures DigitsValue(NatToString(n)) == n
  {
    if n >= 10 {
      NatToStringValue(n / 10);
      var s := NatToString(n);
      assert s[..|s| - 1] == NatToString(n / 10);
    }
  }

  /** n written with exactly w digits, leading zeros kept (n < 10^w). */
  function FixedDigits(n: nat, w: nat): (s: string)
    ensures |s| == w && AllDigits(s)
  {
    if w == 0 then [] else FixedDigits(n / 10, w - 1) + [DigitChar(n % 10)]
  }

  lemma {:induction false} FixedDigitsValue(n: nat, w: nat)
    requires n < Pow10(w)
    ensures DigitsValue(FixedDigits(n, w)) == n
  {
    if w > 0 {
      FixedDigitsValue(n / 10, w - 1);
      var s := FixedDigits(n, w);
      assert s[..|s| - 1] == FixedDigits(n / 10, w - 1);
    }
  }

  /** s without its trailing '0' characters. */
  function TrimTrailingZeros(s: string): (t: string)
    ensures |t| <= |s| && t == s[..|t|]
    ensures t == [] || t[|t| - 1] != '0'
    ensures forall i :: |t| <= i < |s| ==> s[i] == '0'
  {
    if s != [] && s[|s| - 1] == '0' then TrimTrailingZeros(s[..|s| - 1]) else s
  }

  lemma {:induction false} TrimTrailingZerosValue(s: string)
    requires AllDigits(s)
    ensures DigitsValue(s) == DigitsValue(TrimTrailingZeros(s)) * Pow10(|s| - |TrimTrailingZeros(s)|)
  {
    if s != [] && s[|s| - 1] == '0' {
      var s' := s[..|s| - 1];
      TrimTrailingZerosValue(s');
      var t := TrimTrailingZeros(s');
      assert TrimTrailingZeros(s) == t;
      var v, p := DigitsValue(t), Pow10(|s'| - |t|);
      assert DigitsValue(s) == DigitsValue(s') * 10;
      assert Pow10(|s| - |t|) == 10 * p;
      MulShift(v, p);
    }
  }

  lemma MulShift(v: nat, p: nat)
    ensures (v * p) * 10 == v * (10 * p)
  {
  }

  // ---------------------------------------------------------- rendering

  /** `DecimalFormat("0.#…#")` with `places` optional fraction digits, applied
      to the exact value units / 10^places: at least one integer digit, no
      grouping, and a point followed by the fraction without its trailing
      zeros only when the fraction is not zero. */
  function FormatDecimal(units: nat, places: nat): string {
    var p := Pow10(places);
    DivMod(units, p);
    FormatParts(units / p, units % p, places)
  }

  /** The rendering of whole + frac / 10^places, for frac < 10^places. */
  function FormatParts(whole: nat, frac: nat, places: nat): string {
    NatToString(whole) + (if frac == 0 then "" else "." + TrimTrailingZeros(FixedDigits(frac, places)))
  }

  /** The index of the first '.' in s, or |s| when there is none. */
  function IndexOfPoint(s: string): (i: nat)
    ensures i <= |s|
    ensures forall j :: 0 <= j < i ==> s[j] != '.'
    ensures i < |s| ==> s[i] == '.'
  {
    if s == [] then 0 else if s[0] == '.' then 0 else 1 + IndexOfPoint(s[1..])
  }

  /** Reads "<digits>" or "<digits>.<1..places digits>" as a whole number
      of 10^-places units; anything else is rejected. */
  function ParseDecimal(s: string, places: nat): Option<nat> {
    var i := IndexOfPoint(s);
    var whole := s[..i];
    if whole == [] || !AllDigits(whole) then None
    else if i == |s| then Some(DigitsValue(whole) * Pow10(places))
    else
      var frac := s[i + 1..];
      if frac == [] || |frac| > places || !AllDigits(frac) then None
      else Some(DigitsValue(whole) * Pow10(places) + DigitsValue(frac) * Pow10(places - |frac|))
  }

  /** A string of digits followed by nothing or by a point has its first
      point right after the digits. */
  lemma {:induction false} IndexOfPointAfterDigits(w: string, rest: string)
    requires AllDigits(w)
    requires rest == [] || rest[0] == '.'
    ensures IndexOfPoint(w + rest) == |w|
  {
    if w != [] {
      assert (w + rest)[1..] == w[1..] + rest;
      IndexOfPointAfterDigits(w[1..], rest);
    }
  }

  lemma {:induction false} ParseWhole(w: string, places: nat)
    requires w != [] && AllDigits(w)
    ensures ParseDecimal(w, places) == Some(DigitsValue(w) * Pow10(places))
  {
    IndexOfPointAfterDigits(w, []);
    assert w + [] == w;
    assert w[..|w|] == w;
  }

  lemma {:induction false} ParseWithFraction(w: string, t: string, places: nat)
    requires w != [] && AllDigits(w)
    requires t != [] && |t| <= places && AllDigits(t)
    ensures ParseDecimal(w + "." + t, places)
         == Some(DigitsValue(w) * Pow10(places) + DigitsValue(t) * Pow10(places - |t|))
  {
    var s := w + "." + t;
    assert s == w + ("." + t);
    IndexOfPointAfterDigits(w, "." + t);
    assert s[..|w|] == w;
    assert s[|w| + 1..] == t;
  }

  /** Reading the rendering back gives the exact value: `FormatDecimal` loses
      nothing, so the number shown is the number computed. */
  lemma {:induction false} FormatDecimalRoundTrip(units: nat, places: nat)
    ensures ParseDecimal(FormatDecimal(units, places), places) == Some(units)
  {
    var p := Pow10(places);
    DivMod(units, p);
    FormatPartsRoundTrip(units / p, units % p, places);
  }

  lemma {:induction false} FormatPartsRoundTrip(whole: nat, frac: nat, places: nat)
    requires frac < Pow10(places)
    ensures ParseDecimal(FormatParts(whole, frac, places), places) == Some(whole * Pow10(places) + frac)
  {
    var w := NatToString(whole);
    NatToStringValue(whole);
    var s := FormatParts(whole, frac, places);
    if frac == 0 {
      assert s == w;
      ParseWhole(w, places);
      assert ParseDecimal(s, places) == Some(DigitsValue(w) * Pow10(places));
      assert DigitsValue(w) * Pow10(places) == whole * Pow10(places) + frac;
    } else {
      var t := TrimTrailingZeros(FixedDigits(frac, places));
      assert s == w + "." + t;
      FractionDigits(frac, places);
      ParseWithFraction(w, t, places);
      assert ParseDecimal(s, places)
          == Some(DigitsValue(w) * Pow10(places) + DigitsValue(t) * Pow10(places - |t|));
      assert DigitsValue(w) * Pow10(places) + DigitsValue(t) * Pow10(places - |t|)
          == whole * Pow10(places) + frac;
    }
  }

  lemma {:induction false} DivMod(n: nat, d: nat)
    requires d > 0
    ensures 0 <= n / d && 0 <= n % d < d
    ensures n == n / d * d + n % d
  {
  }

  /** The trimmed fraction digits of a non-zero fraction are a non-empty
      digit string that still denotes the fraction. */
  lemma {:induction false} FractionDigits(frac: nat, places: nat)
    requires 0 < frac < Pow10(places)
    ensures var t := TrimTrailingZeros(FixedDigits(frac, places));
      && t != [] && |t| <= places && AllDigits(t)
      && DigitsValue(t) * Pow10(places - |t|) == frac
  {
    var d := FixedDigits(frac, places);
    var t := TrimTrailingZeros(d);
    FixedDigitsValue(frac, places);
    TrimTrailingZerosValue(d);
    assert AllDigits(t) by {
      forall j | 0 <= j < |t| ensures IsDigitChar(t[j]) {
        assert t[j] == d[j];
      }
    }
  }
}
