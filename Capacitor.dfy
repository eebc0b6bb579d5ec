/** CapacitorActivity.kt: the three-digit ceramic capacitor code. Two
    significant digits and a multiplier digit m give (10 d1 + d2) * 10^m
    picofarads; `decodeFarads` shows that value scaled to pico, nano, micro
    or milli. The digit states are changed by taps, by the long-press popups
    and by swipes through the E12 series. */
module Capacitor {
  import opened Wrappers
  import opened Decimal
  import opened ESeries

  // ------------------------------------------------------------- decoding

  /** The micro sign as the source spells it: the two characters U+00C2
      U+00B5, a UTF-8 encoded "µ" read back as Latin-1. */
  const Micro: string := "\U{00C2}\U{00B5}"

  /** The `when (digitMultiplierState)` of decodeFarads; None is its
      `else -> return`. */
  function FaradPrefix(m: int): (p: Option<string>)
    ensures p.Some? <==> 0 <= m <= 9
  {
    if 0 <= m <= 1 then Some("p")
    else if 2 <= m <= 4 then Some("n")
    else if 5 <= m <= 7 then Some(Micro)
    else if 8 <= m <= 9 then Some("m")
    else None
  }

  /** Which power of 1000 picofarads the prefix for m stands for. */
  function PrefixPower(m: nat): nat {
    (m + 1) / 3
  }

  /** The shown value, (10 d1 + d2) * 10^((m + 1) % 3 - 1), in hundredths
      (the two places of `DecimalFormat("0.##")`). */
  function Hundredths(d1: nat, d2: nat, m: nat): nat {
    (10 * d1 + d2) * Pow10((m + 1) % 3 + 1)
  }

  /** The number printed before the prefix. */
  function FaradsNumber(d1: nat, d2: nat, m: nat): string {
    FormatDecimal(Hundredths(d1, d2, m), 2)
  }

  /** The text decodeFarads writes, or None when it returns early. */
  function FaradsText(d1: nat, d2: nat, m: int): (r: Option<string>)
    ensures r.Some? <==> 0 <= m <= 9
  {
    match FaradPrefix(m)
    case None => None
    case Some(p) => Some(FaradsNumber(d1, d2, m) + " " + p + "F")
  }

  /** The shown value scaled back by its prefix is the coded capacitance:
      (10 d1 + d2) * 10^m picofarads, here in hundredths of a picofarad. */
  lemma FaradsScaling(d1: nat, d2: nat, m: nat)
    requires m <= 9
    ensures Hundredths(d1, d2, m) * Pow10(3 * PrefixPower(m)) == (10 * d1 + d2) * Pow10(m) * 100
  {
    var e := (m + 1) % 3 + 1;
    var k := 3 * PrefixPower(m);
    assert e + k == m + 2;
    Pow10Add(e, k);
    Pow10Add(m, 2);
    assert Pow10(2) == 100;
    MulAssoc(10 * d1 + d2, Pow10(e), Pow10(k));
    MulAssoc(10 * d1 + d2, Pow10(m), 100);
  }

  /** The prefixes come in the order of their powers: pico, nano, micro,
      milli for 1000^0 … 1000^3 picofarads. */
  lemma PrefixMatchesPower(m: nat)
    requires m <= 9
    ensures FaradPrefix(m) == Some(["p", "n", Micro, "m"][PrefixPower(m)])
  {
  }

  /** The text is the number, a space, the prefix and "F", and the number
      reads back as the exact value with at most two decimals. */
  lemma FaradsTextExact(d1: nat, d2: nat, m: nat)
    requires m <= 9
    ensures FaradsText(d1, d2, m) == Some(FaradsNumber(d1, d2, m) + " " + FaradPrefix(m).value + "F")
    ensures ParseDecimal(FaradsNumber(d1, d2, m), 2) == Some(Hundredths(d1, d2, m))
  {
    FormatDecimalRoundTrip(Hundredths(d1, d2, m), 2);
  }

  lemma InitialFaradsNumber()
    ensures FaradsNumber(2, 2, 2) == "2.2"
  {
    assert Hundredths(2, 2, 2) == 220 by {
      assert Pow10(1) == 10;
    }
    assert Pow10(2) == 100;
    assert FixedDigits(20, 2) == "20";
    assert TrimTrailingZeros("20") == "2";
    assert FormatDecimal(220, 2) == FormatParts(2, 20, 2);
  }

  /** The initial digits 2, 2, 2 show "2.2 nF". */
  lemma InitialFarads()
    ensures FaradsText(2, 2, 2) == Some("2.2 nF")
  {
    InitialFaradsNumber();
    assert FaradPrefix(2) == Some("n");
    assert FaradsText(2, 2, 2) == Some(FaradsNumber(2, 2, 2) + " " + "n" + "F");
    assert "2.2" + " " + "n" + "F" == "2.2 nF";
  }

  // ----------------------------------------------------------------- taps

  /** A tap on a significant digit: 0, 1, …, 9, 0. */
  function NextDigit(d: nat): nat {
    if d == 9 then 0 else d + 1
  }

  /** A tap on the multiplier: any state from 6 up goes back to 0. */
  function NextMultiplierDigit(m: int): int {
    if m >= 6 then 0 else m + 1
  }

  /** n taps on a significant digit. */
  function DigitTaps(d: nat, n: nat): nat
    decreases n
  {
    if n == 0 then d else DigitTaps(NextDigit(d), n - 1)
  }

  /** n taps on the multiplier. */
  function MultiplierTaps(m: int, n: nat): int
    decreases n
  {
    if n == 0 then m else MultiplierTaps(NextMultiplierDigit(m), n - 1)
  }

  /** Taps count a digit modulo ten. */
  lemma {:induction false} DigitTapsCount(d: nat, n: nat)
    requires d < 10
    ensures DigitTaps(d, n) == (d + n) % 10
    decreases n
  {
    if n > 0 {
      DigitTapsCount(NextDigit(d), n - 1);
      assert NextDigit(d) == (d + 1) % 10;
    }
  }

  /** From 0..6 taps count the multiplier modulo seven, and after any tap
      the multiplier is at most 6: 7, 8 and 9 are reached only through the
      popup. */
  lemma {:induction false} MultiplierTapsCount(m: int, n: nat)
    requires 0 <= m <= 6
    ensures MultiplierTaps(m, n) == (m + n) % 7
    decreases n
  {
    if n > 0 {
      MultiplierTapsCount(NextMultiplierDigit(m), n - 1);
      assert NextMultiplierDigit(m) == (m + 1) % 7;
    }
  }

  lemma MultiplierTapsStayBelowSeven(m: int, n: nat)
    requires m >= 0 && n > 0
    ensures 0 <= MultiplierTaps(m, n) <= 6
  {
    MultiplierTapsCount(NextMultiplierDigit(m), n - 1);
  }

  // --------------------------------------------------------------- swipes

  /** Where a swipe moves the two digits in e12: the next entry above them or
      else the first, the last entry below them or else the last. */
  function SwipeDigits(t: seq<Digits>, key: Digits, d: Direction): (r: Digits)
    requires IsTable(t, 2)
    ensures IsDigits(r, 2)
  {
    var s := if d == Next then NextStep(t, key) else PrevStep(t, key);
    assert s.entry in t;
    s.entry
  }

  /** In a sorted table a swipe and the opposite swipe bring the digits back
      to the entry they started on, at either end of the table too. */
  lemma SwipeRoundTrip(t: seq<Digits>, i: nat)
    requires IsTable(t, 2) && StrictlyIncreasing(t) && i < |t|
    ensures SwipeDigits(t, SwipeDigits(t, t[i], Next), Previous) == t[i]
    ensures SwipeDigits(t, SwipeDigits(t, t[i], Previous), Next) == t[i]
  {
    NextThenPrev(t, i);
    PrevThenNext(t, i);
  }

  // --------------------------------------------------------------- screen

  /** The capacitor screen: the three digit states, the text of
      farads_text_view and the e12 table. */
  class CapacitorScreen {
    var digit1: nat
    var digit2: nat
    var digitMultiplier: int
    var display: string
    const e12: seq<Digits>

    /** Between events the digits are 0..9, the table is usable and the
        text shows the digits. */
    predicate Valid()
      reads this
    {
      && digit1 < 10 && digit2 < 10 && 0 <= digitMultiplier <= 9
      && IsTable(e12, 2)
      && Some(display) == FaradsText(digit1, digit2, digitMultiplier)
    }

    /** onCreate: the digits 2, 2, 2, decoded once. */
    constructor (e12: seq<Digits>)
      requires IsTable(e12, 2)
      ensures Valid() && this.e12 == e12
      ensures (digit1, digit2, digitMultiplier) == (2, 2, 2)
      ensures display == "2.2 nF"
    {
      digit1, digit2, digitMultiplier := 2, 2, 2;
      display := "";
      this.e12 := e12;
      new;
      DecodeFarads();
      InitialFarads();
    }

    /** decodeFarads: writes the text, or returns early and leaves it. */
    method DecodeFarads()
      modifies this`display
      ensures display == FaradsText(digit1, digit2, digitMultiplier).GetOr(old(display))
    {
      var multiplier: string;
      if 0 <= digitMultiplier <= 1 {
        multiplier := "p";
      } else if 2 <= digitMultiplier <= 4 {
        multiplier := "n";
      } else if 5 <= digitMultiplier <= 7 {
        multiplier := Micro;
      } else if 8 <= digitMultiplier <= 9 {
        multiplier := "m";
      } else {
        return;
      }
      var hundredths := (digit1 * 10 + digit2) * Pow10((digitMultiplier + 1) % 3 + 1);
      display := FormatDecimal(hundredths, 2) + " " + multiplier + "F";
    }

    /** A tap on the first digit. */
    method TapDigit1()
      requires Valid()
      modifies this`digit1, this`display
      ensures Valid() && digit1 == NextDigit(old(digit1))
    {
      digit1 := if digit1 == 9 then 0 else digit1 + 1;
      DecodeFarads();
    }

    /** A tap on the second digit. */
    method TapDigit2()
      requires Valid()
      modifies this`digit2, this`display
      ensures Valid() && digit2 == NextDigit(old(digit2))
    {
      digit2 := if digit2 == 9 then 0 else digit2 + 1;
      DecodeFarads();
    }

    /** A tap on the multiplier digit. */
    method TapMultiplier()
      requires Valid()
      modifies this`digitMultiplier, this`display
      ensures Valid() && digitMultiplier == NextMultiplierDigit(old(digitMultiplier))
    {
      digitMultiplier := if digitMultiplier >= 6 then 0 else digitMultiplier + 1;
      DecodeFarads();
    }

    /** An item chosen from the digit popup of the first digit: digit_0 …
        digit_9 give their digit, any other item keeps the state. */
    method SelectDigit1(item: Option<nat>)
      requires Valid() && (item.Some? ==> item.value < 10)
      modifies this`digit1, this`display
      ensures Valid() && digit1 == item.GetOr(old(digit1))
    {
      digit1 := item.GetOr(digit1);
      DecodeFarads();
    }

    /** The same for the second digit. */
    method SelectDigit2(item: Option<nat>)
      requires Valid() && (item.Some? ==> item.value < 10)
      modifies this`digit2, this`display
      ensures Valid() && digit2 == item.GetOr(old(digit2))
    {
      digit2 := item.GetOr(digit2);
      DecodeFarads();
    }

    /** An item chosen from the multiplier popup, which offers 0 … 9. */
    method SelectMultiplier(item: Option<nat>)
      requires Valid() && (item.Some? ==> item.value < 10)
      modifies this`digitMultiplier, this`display
      ensures Valid() && digitMultiplier == item.GetOr(old(digitMultiplier) as nat)
    {
      digitMultiplier := item.GetOr(digitMultiplier as nat);
      DecodeFarads();
    }

    /** ACTION_UP: a swipe moves the two digits through e12 and leaves the
        multiplier alone; anything else changes nothing. */
    method ActionUp(swipe: Option<Direction>)
      requires Valid()
      modifies this`digit1, this`digit2, this`display
      ensures Valid()
      ensures [digit1, digit2] == match swipe
        case None => old([digit1, digit2])
        case Some(d) => SwipeDigits(e12, old([digit1, digit2]), d)
    {
      if swipe.Some? {
        var key := [digit1, digit2];
        var entry: Digits;
        if swipe.value == Previous {
          var found := FindLastBelow(e12, key);
          entry := if found.Some? then e12[found.value] else e12[|e12| - 1];
        } else {
          var found := FindFirstAbove(e12, key);
          entry := if found.Some? then e12[found.value] else e12[0];
        }
        assert entry == SwipeDigits(e12, key, swipe.value);
        digit1 := entry[0];
        digit2 := entry[1];
        assert [digit1, digit2] == entry;
        UpdateAll();
      }
    }

    /** updateAll: the digit labels (not modelled) and the text. */
    method UpdateAll()
      requires digit1 < 10 && digit2 < 10 && 0 <= digitMultiplier <= 9 && IsTable(e12, 2)
      modifies this`display
      ensures Valid()
    {
      DecodeFarads();
    }
  }
}
