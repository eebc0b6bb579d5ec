/** `decodeOhms` of MainActivity.kt, on exact numbers. The source multiplies
    the significant digits by 10.0.pow(ordinal - 3), picks an SI prefix from
    floor(log10(ohms)) + 1, divides by the prefix and prints with
    DecimalFormat("0.###"). Here the resistance is held in milliohms,
    digits * 10^ordinal, which is a whole number for every multiplier. */
module OhmsDecoder {
  import opened Wrappers
  import opened Colors
  import opened Decimal
  import opened ResistorBands

  /** The significant digits as one number: two digits, or three when
      `fiveSixBands` holds. */
  function Significand(b: Bands, fiveSix: bool): (d: nat)
    ensures d < if fiveSix then 1000 else 100
  {
    if !fiveSix then BandOrdinal(b.band1) * 10 + BandOrdinal(b.band2)
    else BandOrdinal(b.band1) * 100 + BandOrdinal(b.band2) * 10 + BandOrdinal(b.band3)
  }

  /** The resistance in milliohms. */
  function Milliohms(b: Bands, fiveSix: bool): nat {
    Significand(b, fiveSix) * Pow10(MultiplierOrdinal(b.multiplier))
  }

  /** The resistance is digits * 10^(ordinal - 3) ohms, with the same offset 3
      whether there are two or three digit bands. */
  lemma ResistanceOffset(b: Bands, fiveSix: bool)
    ensures var e := MultiplierOrdinal(b.multiplier);
      && (e >= 3 ==> Milliohms(b, fiveSix) == 1000 * (Significand(b, fiveSix) * Pow10(e - 3)))
      && (e < 3 ==> Milliohms(b, fiveSix) * Pow10(3 - e) == 1000 * Significand(b, fiveSix))
  {
    var e := MultiplierOrdinal(b.multiplier);
    var d := Significand(b, fiveSix);
    assert Pow10(3) == 1000;
    if e >= 3 {
      Pow10Add(3, e - 3);
      MulAssoc(d, 1000, Pow10(e - 3));
    } else {
      Pow10Add(e, 3 - e);
      MulAssoc(d, Pow10(e), Pow10(3 - e));
    }
  }

  /** The bucket of the `when` over floor(log10(ohms)) + 1: up to 3 digits no
      prefix, 4..6 kilo, 7..9 mega, more giga. */
  function PrefixIndex(n: nat): (k: nat)
    ensures k <= 3
  {
    if n <= 3 then 0 else if n <= 6 then 1 else if n <= 9 then 2 else 3
  }

  function PrefixName(k: nat): string
    requires k <= 3
  {
    ["", "K", "M", "G"][k]
  }

  /** The number to print (in thousandths) and the prefix it goes with. */
  datatype Reading = Reading(thousandths: nat, prefix: nat)

  /** The prefix is chosen from the digit count of the integer part of the
      resistance; dividing by it is exact, and the number printed keeps
      between one and three integer digits whenever there is a prefix. */
  function OhmsReading(b: Bands, fiveSix: bool): (r: Reading)
    ensures r.prefix == PrefixIndex(DigitCount(Milliohms(b, fiveSix) / 1000))
    ensures r.thousandths * Pow10(3 * r.prefix) == Milliohms(b, fiveSix)
    ensures r.prefix == 0 ==> r.thousandths < 1000 * 1000
    ensures r.prefix > 0 ==> 1000 <= r.thousandths < 1000 * 1000
  {
    ReadingExact(Significand(b, fiveSix), MultiplierOrdinal(b.multiplier));
    ReadingOf(Milliohms(b, fiveSix))
  }

  /** Scaling a resistance in milliohms by the prefix its integer part
      calls for. */
  function ReadingOf(milli: nat): Reading {
    var k := PrefixIndex(DigitCount(milli / 1000));
    Reading(milli / Pow10(3 * k), k)
  }

  /** ReadingOf as `decodeOhms` computes it: one of three fixed divisions. */
  lemma ReadingOfByDivision(m: nat)
    ensures var k := PrefixIndex(DigitCount(m / 1000));
      ReadingOf(m) == Reading(if k == 0 then m else if k == 1 then m / 1000
                              else if k == 2 then m / 1000000 else m / 1000000000, k)
  {
    assert Pow10(0) == 1 && Pow10(3) == 1000 && Pow10(6) == 1000000 && Pow10(9) == 1000000000;
  }

  /** The prefix bucket by magnitude: the integer part x has at most three
      digits below 1000, four to six below 10^6, seven to nine below 10^9. */
  lemma PrefixByMagnitude(x: nat)
    ensures PrefixIndex(DigitCount(x)) ==
      if x < 1000 then 0 else if x < 1000000 then 1 else if x < 1000000000 then 2 else 3
  {
    var n := DigitCount(x);
    assert Pow10(3) == 1000 && Pow10(6) == 1000000 && Pow10(9) == 1000000000;
    if n > 3 { Pow10Le(3, n - 1); }
    if n > 6 { Pow10Le(6, n - 1); }
    if n > 9 { Pow10Le(9, n - 1); }
    if 0 < n <= 3 { Pow10Le(n, 3); }
    if 3 < n <= 6 { Pow10Le(n, 6); }
    if 6 < n <= 9 { Pow10Le(n, 9); }
  }

  lemma Pow10Le(a: nat, b: nat)
    requires a <= b
    ensures Pow10(a) <= Pow10(b)
  {
    if a < b { Pow10Monotone(a, b); }
  }

  /** A significand below 1000 times 10^e reaches 1000 * 10^j only if e > j,
      and then 10^j divides it. */
  lemma SplitPower(d: nat, e: nat, j: nat)
    requires d < 1000 && d * Pow10(e) >= 1000 * Pow10(j)
    ensures e > j
    ensures d * Pow10(e) == (d * Pow10(e - j)) * Pow10(j)
  {
    if e <= j {
      Pow10Le(e, j);
      MulMonotone(d, Pow10(e), Pow10(j));
      MulStrict(d, 1000, Pow10(j));
      assert false;
    }
    Pow10Add(j, e - j);
    MulAssoc(d, Pow10(j), Pow10(e - j));
  }

  lemma MulStrict(a: nat, b: nat, p: nat)
    requires a < b && p > 0
    ensures a * p < b * p
  {
  }

  /** The arithmetic behind OhmsReading, for a significand below 1000 and an
      exponent up to 12 (WHITE). */
  lemma ReadingExact(d: nat, e: nat)
    requires d < 1000 && e <= 12
    ensures var m := d * Pow10(e);
      var k := PrefixIndex(DigitCount(m / 1000));
      && m / Pow10(3 * k) * Pow10(3 * k) == m
      && (k == 0 ==> m < 1000 * 1000)
      && (k > 0 ==> 1000 <= m / Pow10(3 * k) < 1000 * 1000)
  {
    var m := d * Pow10(e);
    PrefixByMagnitude(m / 1000);
    assert Pow10(0) == 1 && Pow10(3) == 1000 && Pow10(6) == 1000000 && Pow10(9) == 1000000000;
    var k := PrefixIndex(DigitCount(m / 1000));
    if k == 1 {
      ScaledReading(d, e, 3);
    } else if k == 2 {
      ScaledReading(d, e, 6);
    } else if k == 3 {
      Pow10Le(e, 12);
      assert Pow10(12) == 1000000000000;
      MulMonotone(d, Pow10(e), Pow10(12));
      ScaledReading(d, e, 9);
    }
  }

  /** A resistance of 1000 to 10^6 units of 10^j milliohms divides by 10^j
      exactly into a number with four to six integer digits. */
  lemma ScaledReading(d: nat, e: nat, j: nat)
    requires d < 1000
    requires 1000 * Pow10(j) <= d * Pow10(e) < 1000000 * Pow10(j)
    ensures var m, p := d * Pow10(e), Pow10(j);
      m / p * p == m && 1000 <= m / p < 1000000
  {
    SplitPower(d, e, j);
    MulNonNegative(d, Pow10(e - j));
    DivideExactly(d * Pow10(e), d * Pow10(e - j), Pow10(j));
  }

  /** m = q * p with q between 1000 and 10^6 divides by p exactly, into q. */
  lemma DivideExactly(m: nat, q: nat, p: nat)
    requires p > 0 && m == q * p && 1000 * p <= m < 1000000 * p
    ensures m / p * p == m && 1000 <= m / p < 1000000
  {
    ExactDivision(q, p);
    if q < 1000 {
      MulStrict(q, 1000, p);
    }
  }

  lemma MulNonNegative(a: nat, b: nat)
    ensures a * b >= 0
  {
  }

  lemma ExactDivision(q: nat, p: nat)
    requires p > 0
    ensures (q * p) / p == q
  {
    var m := q * p;
    DivMod(m, p);
    var s, r := m / p, m % p;
    if s < q {
      MulMonotone(p, s + 1, q);
    }
  }

  /** The tolerance percentages of the 11 tolerance colours. */
  function ToleranceText(t: ToleranceBandColor): string {
    match t
    case None => "20" case Silver => "10" case Gold => "5" case Brown => "1"
    case Red => "2" case Orange => "0.05" case Yellow => "0.02" case Green => "0.5"
    case Blue => "0.25" case Violet => "0.1" case Grey => "0.01"
  }

  /** The temperature coefficients in ppm/K of the nine temp-coef colours. */
  function TempCoefText(t: TempCoefBandColor): string {
    match t
    case Black => "250" case Brown => "100" case Red => "50" case Orange => "15"
    case Yellow => "25" case Green => "20" case Blue => "10" case Violet => "5"
    case Grey => "1"
  }

  /** The text `decodeOhms` puts in the ohms TextView. */
  function OhmsDisplay(b: Bands, fiveSix: bool, six: bool): string {
    DisplayText(ReadingOf(Milliohms(b, fiveSix)), b.tolerance, b.tempCoef, fiveSix && six)
  }

  /** The value with its prefix, the tolerance, and the temperature
      coefficient on a second line when six bands are shown. */
  function DisplayText(r: Reading, tol: ToleranceBandColor, tc: TempCoefBandColor, withTempCoef: bool): string
    requires r.prefix <= 3
  {
    FormatDecimal(r.thousandths, 3) + " " + PrefixName(r.prefix) + "Ω ±"
      + ToleranceText(tol) + "%"
      + (if withTempCoef then "\n" + TempCoefText(tc) + "ppm/K" else "")
  }

  /** The number printed before the prefix, as `DecimalFormat("0.###")`
      renders the scaled resistance. */
  function ShownNumber(b: Bands, fiveSix: bool): string {
    FormatDecimal(OhmsReading(b, fiveSix).thousandths, 3)
  }

  /** Reading the printed number back and multiplying by the prefix gives
      the resistance exactly: no digit is lost by the three decimals. */
  lemma ShownNumberIsExact(b: Bands, fiveSix: bool, six: bool)
    ensures var r := OhmsReading(b, fiveSix);
      && OhmsDisplay(b, fiveSix, six)[..|ShownNumber(b, fiveSix)| + 1] == ShownNumber(b, fiveSix) + " "
      && ParseDecimal(ShownNumber(b, fiveSix), 3) == Some(r.thousandths)
      && r.thousandths * Pow10(3 * r.prefix) == Milliohms(b, fiveSix)
  {
    var r := OhmsReading(b, fiveSix);
    DisplayTextStartsWithNumber(r, b.tolerance, b.tempCoef, fiveSix && six);
    FormatDecimalRoundTrip(r.thousandths, 3);
  }

  /** The text begins with the number and a space. */
  lemma DisplayTextStartsWithNumber(r: Reading, tol: ToleranceBandColor, tc: TempCoefBandColor, withTempCoef: bool)
    requires r.prefix <= 3
    ensures var n := FormatDecimal(r.thousandths, 3);
      DisplayText(r, tol, tc, withTempCoef)[..|n| + 1] == n + " "
  {
    var a := FormatDecimal(r.thousandths, 3) + " ";
    var u1 := a + PrefixName(r.prefix);
    var u2 := u1 + "Ω ±";
    var u3 := u2 + ToleranceText(tol);
    var u4 := u3 + "%";
    var x := if withTempCoef then "\n" + TempCoefText(tc) + "ppm/K" else "";
    assert DisplayText(r, tol, tc, withTempCoef) == u4 + x;
    var k := |a|;
    PrefixOfConcat(u4, x, k);
    PrefixOfConcat(u3, "%", k);
    PrefixOfConcat(u2, ToleranceText(tol), k);
    PrefixOfConcat(u1, "Ω ±", k);
    PrefixOfConcat(a, PrefixName(r.prefix), k);
    assert a[..k] == a;
  }

  lemma PrefixOfConcat(u: string, x: string, k: nat)
    requires k <= |u|
    ensures (u + x)[..k] == u[..k]
  {
  }

  /** The reading is the only one with the properties OhmsReading promises:
      a prefix and a number of thousandths that give back the resistance,
      with one to three integer digits whenever there is a prefix. */
  lemma ReadingUnique(m: nat, t: nat, k: nat)
    requires k <= 3 && t * Pow10(3 * k) == m
    requires k == 0 ==> t < 1000 * 1000
    requires k > 0 ==> 1000 <= t < 1000 * 1000
    ensures ReadingOf(m) == Reading(t, k)
  {
    if k == 0 {
      assert m == t;
      PrefixByMagnitude(m / 1000);
    } else if k == 1 {
      assert Pow10(3) == 1000;
      KiloReadingUnique(m, t);
    } else if k == 2 {
      assert Pow10(6) == 1000000;
      MegaReadingUnique(m, t);
    } else {
      assert Pow10(9) == 1000000000;
      GigaReadingUnique(m, t);
    }
  }

  lemma KiloReadingUnique(m: nat, t: nat)
    requires t * 1000 == m && 1000 <= t < 1000 * 1000
    ensures ReadingOf(m) == Reading(t, 1)
  {
    assert Pow10(3) == 1000;
    ExactDivision(t, 1000);
    PrefixByMagnitude(m / 1000);
  }

  lemma MegaReadingUnique(m: nat, t: nat)
    requires t * 1000000 == m && 1000 <= t < 1000 * 1000
    ensures ReadingOf(m) == Reading(t, 2)
  {
    assert Pow10(6) == 1000000;
    ExactDivision(t, 1000000);
    ExactDivision(t * 1000, 1000);
    PrefixByMagnitude(m / 1000);
  }

  lemma GigaReadingUnique(m: nat, t: nat)
    requires t * 1000000000 == m && 1000 <= t < 1000 * 1000
    ensures ReadingOf(m) == Reading(t, 3)
  {
    assert Pow10(9) == 1000000000;
    ExactDivision(t, 1000000000);
    ExactDivision(t * 1000000, 1000);
    PrefixByMagnitude(m / 1000);
  }

  /** The text on the screen for a reading found by ReadingUnique. */
  lemma DisplayOf(b: Bands, fiveSix: bool, six: bool, t: nat, k: nat)
    requires k <= 3 && t * Pow10(3 * k) == Milliohms(b, fiveSix)
    requires k == 0 ==> t < 1000 * 1000
    requires k > 0 ==> 1000 <= t < 1000 * 1000
    ensures OhmsDisplay(b, fiveSix, six) == DisplayText(Reading(t, k), b.tolerance, b.tempCoef, fiveSix && six)
  {
    ReadingUnique(Milliohms(b, fiveSix), t, k);
  }

  lemma InitialDisplayNumber()
    ensures FormatDecimal(6800, 3) == "6.8"
  {
    assert Pow10(3) == 1000;
    assert FormatDecimal(6800, 3) == FormatParts(6, 800, 3);
    InitialDisplayFraction();
  }

  lemma InitialDisplayFraction()
    ensures TrimTrailingZeros(FixedDigits(800, 3)) == "8"
  {
    assert FixedDigits(800, 3) == "800";
    assert TrimTrailingZeros("800") == "8";
  }

  /** The text for the reading of InitialDisplay: the fraction's trailing zeros are dropped. */
  lemma InitialDisplayText()
    ensures DisplayText(Reading(6800, 1), ToleranceBandColor.Gold, TempCoefBandColor.Black, false) == "6.8 KΩ ±5%"
  {
    InitialDisplayNumber();
  }

  /** The screen as it opens: blue, grey, red, gold reads 6.8 kilohms. */
  lemma InitialDisplay()
    ensures OhmsDisplay(InitialBands, false, false)
      == "6.8 KΩ ±5%"
  {
    assert Milliohms(InitialBands, false) == 6800 * Pow10(3) by {
      assert Significand(InitialBands, false) == 68;
      assert Pow10(5) == 100000 && Pow10(3) == 1000;
    }
    DisplayOf(InitialBands, false, false, 6800, 1);
    InitialDisplayText();
  }

  lemma RedRedBrownGoldNumber()
    ensures FormatDecimal(220000, 3) == "220"
  {
    assert Pow10(3) == 1000;
    assert NatToString(220) == "220";
  }

  /** The text for the reading of RedRedBrownGold: a whole number prints without a point and with no prefix. */
  lemma RedRedBrownGoldText()
    ensures DisplayText(Reading(220000, 0), ToleranceBandColor.Gold, TempCoefBandColor.Black, false) == "220 Ω ±5%"
  {
    RedRedBrownGoldNumber();
  }

  /** Red, red, brown, gold is 220 ohms: brown is the multiplier 10^1. */
  lemma RedRedBrownGold()
    ensures OhmsDisplay(Bands(BandColor.Red, BandColor.Red, BandColor.Blue,
      MultiplierBandColor.Brown, ToleranceBandColor.Gold, TempCoefBandColor.Black), false, false)
      == "220 Ω ±5%"
  {
    var b := Bands(BandColor.Red, BandColor.Red, BandColor.Blue,
      MultiplierBandColor.Brown, ToleranceBandColor.Gold, TempCoefBandColor.Black);
    assert Milliohms(b, false) == 220000 * Pow10(0) by {
      assert Significand(b, false) == 22;
      assert Pow10(4) == 10000;
    }
    DisplayOf(b, false, false, 220000, 0);
    RedRedBrownGoldText();
  }

  lemma SmallestMultiplierNumber()
    ensures FormatDecimal(47, 3) == "0.047"
  {
    assert Pow10(3) == 1000;
    assert FixedDigits(47, 3) == "047";
    assert TrimTrailingZeros("047") == "047";
  }

  /** The text for the reading of SmallestMultiplier: a value below one keeps its leading zero and all three decimals. */
  lemma SmallestMultiplierText()
    ensures DisplayText(Reading(47, 0), ToleranceBandColor.Silver, TempCoefBandColor.Black, false) == "0.047 Ω ±10%"
  {
    SmallestMultiplierNumber();
  }

  /** Pink is the multiplier 10^-3: yellow, violet, pink reads 0.047 ohms. */
  lemma SmallestMultiplier()
    ensures OhmsDisplay(Bands(BandColor.Yellow, BandColor.Violet, BandColor.Blue,
      MultiplierBandColor.Pink, ToleranceBandColor.Silver, TempCoefBandColor.Black), false, false)
      == "0.047 Ω ±10%"
  {
    var b := Bands(BandColor.Yellow, BandColor.Violet, BandColor.Blue,
      MultiplierBandColor.Pink, ToleranceBandColor.Silver, TempCoefBandColor.Black);
    assert Milliohms(b, false) == 47 * Pow10(0) by {
      assert Significand(b, false) == 47;
    }
    DisplayOf(b, false, false, 47, 0);
    SmallestMultiplierText();
  }

  lemma SixBandDisplayNumber()
    ensures FormatDecimal(100000, 3) == "100"
  {
    assert Pow10(3) == 1000;
    assert NatToString(100) == "100";
  }

  /** The text for the reading of SixBandDisplay: the temperature coefficient goes on a second line. */
  lemma SixBandDisplayText()
    ensures DisplayText(Reading(100000, 0), ToleranceBandColor.Brown, TempCoefBandColor.Red, true) == "100 Ω ±1%\n50ppm/K"
  {
    SixBandFirstLine();
    assert "\n" + TempCoefText(TempCoefBandColor.Red) + "ppm/K" == "\n50ppm/K";
  }

  lemma SixBandFirstLine()
    ensures FormatDecimal(100000, 3) + " " + PrefixName(0) + "Ω ±" + ToleranceText(ToleranceBandColor.Brown) + "%"
            == "100 Ω ±1%"
  {
    SixBandDisplayNumber();
  }

  /** Five bands read three digits, and with six bands the temperature
      coefficient follows on a second line. */
  lemma SixBandDisplay()
    ensures OhmsDisplay(Bands(BandColor.Brown, BandColor.Black, BandColor.Black,
      MultiplierBandColor.Black, ToleranceBandColor.Brown, TempCoefBandColor.Red), true, true)
      == "100 Ω ±1%\n50ppm/K"
  {
    var b := Bands(BandColor.Brown, BandColor.Black, BandColor.Black,
      MultiplierBandColor.Black, ToleranceBandColor.Brown, TempCoefBandColor.Red);
    SixBandMilliohms(b);
    DisplayOf(b, true, true, 100000, 0);
    SixBandDisplayText();
  }

  lemma LargestMultiplierNumber()
    ensures FormatDecimal(99000, 3) == "99"
  {
    assert Pow10(3) == 1000;
    assert NatToString(99) == "99";
  }

  lemma SixBandMilliohms(b: Bands)
    requires b.band1 == BandColor.Brown && b.band2 == b.band3 == BandColor.Black
    requires b.multiplier == MultiplierBandColor.Black
    ensures Milliohms(b, true) == 100000 * Pow10(0)
  {
    assert Significand(b, true) == 100;
    assert Pow10(3) == 1000;
  }

  /** The text for the reading of LargestMultiplier: the giga prefix. */
  lemma LargestMultiplierText()
    ensures DisplayText(Reading(99000, 3), ToleranceBandColor.Gold, TempCoefBandColor.Black, false) == "99 GΩ ±5%"
  {
    LargestMultiplierNumber();
  }

  /** White is 10^9: white, white, white reads 99 gigaohms. */
  lemma LargestMultiplier()
    ensures OhmsDisplay(Bands(BandColor.White, BandColor.White, BandColor.Blue,
      MultiplierBandColor.White, ToleranceBandColor.Gold, TempCoefBandColor.Black), false, false)
      == "99 GΩ ±5%"
  {
    var b := Bands(BandColor.White, BandColor.White, BandColor.Blue,
      MultiplierBandColor.White, ToleranceBandColor.Gold, TempCoefBandColor.Black);
    LargestMultiplierMilliohms(b);
    DisplayOf(b, false, false, 99000, 3);
    LargestMultiplierText();
  }

  lemma LargestMultiplierMilliohms(b: Bands)
    requires b.band1 == b.band2 == BandColor.White && b.multiplier == MultiplierBandColor.White
    ensures Milliohms(b, false) == 99000 * Pow10(9)
  {
    assert Significand(b, false) == 99;
    assert Pow10(12) == 1000000000000 && Pow10(9) == 1000000000;
  }
}
