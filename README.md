# Ohms Now: resistor and capacitor code decoding in Dafny

Ohms Now is an Android app with two screens.

The resistor screen shows a resistor with four, five or six colour bands
(the IEC 60062 colour code). A tap on a band moves it to the next colour. A
long press opens a popup of colours. A horizontal swipe over no band steps
the significant digits to the neighbouring value of an IEC 60063 preferred
number series (E6 … E192), carrying into the multiplier band when the table
runs out. The text under the resistor shows the resistance with an SI
prefix, the tolerance and, on six-band resistors, the temperature
coefficient.

The capacitor screen shows a three-digit ceramic capacitor code. The digits
change by tap, by popup, or by a swipe through E12. The text shows the
capacitance with a p, n, micro or m prefix.

The model has these modules:

- `Colors`: the five enumerations with their ordinals and argb values.
- `Decimal`: exact decimal arithmetic in place of the app's `Double`s. It
  covers powers of ten, the digit count that `floor(log10(x)) + 1`
  computes, and the rendering of `DecimalFormat("0.###")` and `"0.##"`. A
  parser is proved to invert the rendering.
- `ESeries`: the order on digit tuples and the first-above / last-below
  searches, as loop methods proved against recursive specification
  functions. It also holds the stepping and wrap-around of a swipe and the
  swipe direction.
- `ResistorBands`: the pure parts of the resistor screen:
  - the tap cycles;
  - the body colour;
  - the choice of table;
  - the map between physical band views and logical band roles;
  - the cascade of hit tests;
  - the effect of a tap or a swipe on the six bands.
- `OhmsDecoder`: the text the resistor screen shows, computed from the bands
  on exact milliohms.
- `Resistor`: the resistor screen as a class. Its fields are the band
  states, the mode flags, the views that play the multiplier and tolerance
  roles, the body tint and the text. Each event handler is a method proved
  against the pure modules.
- `Capacitor`: the capacitor code decoder and the capacitor screen as a
  class.

Two things in the source are not part of this model:

- The E-series tables `e6` … `e192`.
- The ordering of `Pair`/`Triple`.

So a table is a parameter, and the order is lexicographic on digit
sequences of one width. The tables must be non-empty with components
0..9. The round-trip lemmas also require them to be strictly increasing.

Three facts of the code the model keeps as written:

- Both resistor modes use the exponent offset 3 (`ordinal - 3`).
- In MultiplierBandColors, RED has ordinal 5 and BLACK has ordinal 3.
- The micro prefix of the capacitor screen is the two characters
  U+00C2 U+00B5 ("Âµ").

## Model

| member | source | states |
|---|---|---|
| Colors.BandOrdinal | app/src/main/java/com/ktprograms/ohmsnow/Colors.kt:25-36 | a digit colour's ordinal is below 10 |
| Colors.BandAt | app/src/main/java/com/ktprograms/ohmsnow/Colors.kt:25-36 | `BandColors.values()[i]` has ordinal i |
| Colors.BandOrdinalIsPosition | app/src/main/java/com/ktprograms/ohmsnow/Colors.kt:25-36 | every digit colour sits in `values()` at its ordinal |
| Colors.MultiplierOrdinal | app/src/main/java/com/ktprograms/ohmsnow/Colors.kt:38-52 | a multiplier's ordinal is below 13 |
| Colors.MultiplierOrdinalIsPosition | app/src/main/java/com/ktprograms/ohmsnow/Colors.kt:38-52 | every multiplier colour sits in `values()` at its ordinal |
| Colors.ToleranceOrdinal | app/src/main/java/com/ktprograms/ohmsnow/Colors.kt:54-66 | a tolerance's ordinal is below 11 |
| Colors.ToleranceOrdinalIsPosition | app/src/main/java/com/ktprograms/ohmsnow/Colors.kt:54-66 | every tolerance colour sits in `values()` at its ordinal |
| Colors.BodyOrdinal | app/src/main/java/com/ktprograms/ohmsnow/Colors.kt:68-71 | a body colour's ordinal is below 2 |
| Colors.BodyOrdinalIsPosition | app/src/main/java/com/ktprograms/ohmsnow/Colors.kt:68-71 | each body colour sits in `values()` at its ordinal |
| Colors.TempCoefOrdinal | app/src/main/java/com/ktprograms/ohmsnow/Colors.kt:73-83 | a temperature-coefficient colour's ordinal is below 9 |
| Colors.TempCoefAt | app/src/main/java/com/ktprograms/ohmsnow/Colors.kt:73-83 | `TempCoefBandColors.values()[i]` has ordinal i |
| Colors.TempCoefOrdinalIsPosition | app/src/main/java/com/ktprograms/ohmsnow/Colors.kt:73-83 | every temperature-coefficient colour sits in `values()` at its ordinal |
| Colors.BandColorsAreDigits | app/src/main/java/com/ktprograms/ohmsnow/Colors.kt:25-36 | exactly ten digit colours, BLACK first and WHITE last, each ordinal equal to its position, so the ordinal is the digit |
| Colors.MultiplierExponents | app/src/main/java/com/ktprograms/ohmsnow/Colors.kt:38-52 | 13 multipliers: PINK, SILVER, GOLD at 0..2, BLACK at 3, WHITE at 12. So ordinal − 3 spans −3..9, and a multiplier named like a digit colour has exponent equal to that digit |
| Colors.ToleranceLayout | app/src/main/java/com/ktprograms/ohmsnow/Colors.kt:54-66 | 11 tolerances, the first three being NONE, SILVER, GOLD |
| Colors.TempCoefLayout | app/src/main/java/com/ktprograms/ohmsnow/Colors.kt:73-83 | nine temperature coefficients, BLACK first and GREY last |
| Colors.BodyLayout | app/src/main/java/com/ktprograms/ohmsnow/Colors.kt:68-71 | the body colours are exactly BEIGE and BLUE |
| Colors.NoToleranceIsBodyBeige | app/src/main/java/com/ktprograms/ohmsnow/Colors.kt:54-71 | the NONE tolerance and the BEIGE body have the same argb, 0xFFFAD6A5 |
| Colors.SharedNamesShareArgb | app/src/main/java/com/ktprograms/ohmsnow/Colors.kt:25-83 | a colour name shared by band enumerations has one argb everywhere (BROWN is 0xFF964B00); the body's BLUE differs from the band BLUE |
| Decimal.Pow10 | app/src/main/java/com/ktprograms/ohmsnow/MainActivity.kt:299-301 | the power of ten that stands for `10.0.pow` is positive |
| Decimal.Pow10Add | app/src/main/java/com/ktprograms/ohmsnow/MainActivity.kt:299-301 | 10^(a+b) = 10^a · 10^b |
| Decimal.Pow10Monotone | app/src/main/java/com/ktprograms/ohmsnow/MainActivity.kt:299-301 | powers of ten grow strictly with the exponent |
| Decimal.DigitCount | app/src/main/java/com/ktprograms/ohmsnow/MainActivity.kt:304 | the digit count n that `floor(log10(x)) + 1` gives: 10^(n−1) ≤ x < 10^n, and n is 0 exactly when x is 0 |
| Decimal.DigitCountUnique | app/src/main/java/com/ktprograms/ohmsnow/MainActivity.kt:304 | any x between 10^(n−1) and 10^n has exactly n digits |
| Decimal.NatToString | app/src/main/java/com/ktprograms/ohmsnow/MainActivity.kt:349 | the integer part prints as a non-empty digit string with no leading zero |
| Decimal.NatToStringValue | app/src/main/java/com/ktprograms/ohmsnow/MainActivity.kt:349 | the printed integer part reads back as its value |
| Decimal.FixedDigits | app/src/main/java/com/ktprograms/ohmsnow/MainActivity.kt:349 | the fraction is printed with exactly `places` digits |
| Decimal.FixedDigitsValue | app/src/main/java/com/ktprograms/ohmsnow/MainActivity.kt:349 | those digits read back as the fraction |
| Decimal.TrimTrailingZeros | app/src/main/java/com/ktprograms/ohmsnow/MainActivity.kt:349 | the optional `#` places drop exactly the trailing zeros, keeping a prefix of the digits |
| Decimal.TrimTrailingZerosValue | app/src/main/java/com/ktprograms/ohmsnow/MainActivity.kt:349 | dropping k trailing zeros divides the digits' value by 10^k exactly |
| Decimal.FormatDecimalRoundTrip | app/src/main/java/com/ktprograms/ohmsnow/MainActivity.kt:349 | the rendering parses back to the exact value: no digit is lost |
| Decimal.FormatPartsRoundTrip | app/src/main/java/com/ktprograms/ohmsnow/CapacitorActivity.kt:225 | a whole part and a fraction below 10^places render to text that parses back to whole · 10^places + fraction |
| ESeries.LexLessIsNumericOrder | app/src/main/java/com/ktprograms/ohmsnow/MainActivity.kt:159 | the `<` on Pair/Triple of digits is the numeric order of the values they spell |
| ESeries.FirstAbove | app/src/main/java/com/ktprograms/ohmsnow/MainActivity.kt:192-194 | the index found is the first entry above the key; None exactly when no entry is above it |
| ESeries.LastBelow | app/src/main/java/com/ktprograms/ohmsnow/MainActivity.kt:158-160 | the index found is the last entry below the key; None exactly when no entry is below it |
| ESeries.FindFirstAbove | app/src/main/java/com/ktprograms/ohmsnow/MainActivity.kt:192-197 | the scan of `firstOrNull` finds what FirstAbove specifies |
| ESeries.FindLastBelow | app/src/main/java/com/ktprograms/ohmsnow/MainActivity.kt:158-163 | the scan of `lastOrNull` finds what LastBelow specifies |
| ESeries.SwipeOfMirror | app/src/main/java/com/ktprograms/ohmsnow/MainActivity.kt:150-184 | moving the finger the other way swaps Previous and Next; a move of at most MIN_DISTANCE either way is no swipe |
| ESeries.FirstAboveEntry | app/src/main/java/com/ktprograms/ohmsnow/MainActivity.kt:192-197 | in a sorted table the entry above t[i] is t[i+1], and there is none above the last |
| ESeries.LastBelowEntry | app/src/main/java/com/ktprograms/ohmsnow/MainActivity.kt:158-163 | in a sorted table the entry below t[i] is t[i−1], and there is none below the first |
| ESeries.NextIsLeastAbove | app/src/main/java/com/ktprograms/ohmsnow/MainActivity.kt:186-217 | Next takes the least entry above the key and does not wrap when one exists |
| ESeries.PrevIsGreatestBelow | app/src/main/java/com/ktprograms/ohmsnow/MainActivity.kt:152-183 | Previous takes the greatest entry below the key and does not wrap when one exists |
| ESeries.NextThenPrev | app/src/main/java/com/ktprograms/ohmsnow/MainActivity.kt:150-217 | Previous after Next returns to the entry, and wraps exactly when Next wrapped, which is exactly at the last entry |
| ESeries.PrevThenNext | app/src/main/java/com/ktprograms/ohmsnow/MainActivity.kt:150-217 | Next after Previous returns to the entry, and wraps exactly when Previous wrapped, which is exactly at the first entry |
| ResistorBands.NextColor | app/src/main/java/com/ktprograms/ohmsnow/MainActivity.kt:357-362 | a tap on a digit band moves its ordinal to ordinal + 1 mod 10: WHITE goes round to BLACK |
| ResistorBands.NextMultiplierColor | app/src/main/java/com/ktprograms/ohmsnow/MainActivity.kt:363-374 | one step up the cycle BLACK … VIOLET, VIOLET going to BLACK; PINK, SILVER, GOLD, GREY and WHITE go to BLACK |
| ResistorBands.PrevMultiplierColor | app/src/main/java/com/ktprograms/ohmsnow/MainActivity.kt:375-386 | one step down the same cycle, BLACK going to VIOLET; the five other colours go to BLACK |
| ResistorBands.MultiplierStepsInverse | app/src/main/java/com/ktprograms/ohmsnow/MainActivity.kt:363-386 | on BLACK … VIOLET the two steps are inverse to each other |
| ResistorBands.NextTempCoefColor | app/src/main/java/com/ktprograms/ohmsnow/MainActivity.kt:387-392 | the temperature coefficient's ordinal moves to ordinal + 1 mod 9: GREY goes round to BLACK |
| ResistorBands.NextToleranceColor | app/src/main/java/com/ktprograms/ohmsnow/MainActivity.kt:393-402 | NONE → SILVER → GOLD → BROWN → RED → GREEN → NONE; every other tolerance goes to NONE |
| ResistorBands.FiveSixBandsByOrdinal | app/src/main/java/com/ktprograms/ohmsnow/MainActivity.kt:546-563 | three digit bands exactly for tolerance ordinals 3 and up, i.e. outside NONE, SILVER, GOLD |
| ResistorBands.BodyColorByOrdinal | app/src/main/java/com/ktprograms/ohmsnow/MainActivity.kt:405-409 | the body is beige exactly for the first three tolerances |
| ResistorBands.BodyColorMatchesMode | app/src/main/java/com/ktprograms/ohmsnow/MainActivity.kt:405-409 | the body is beige exactly when the resistor has two digit bands |
| ResistorBands.SeriesForMode | app/src/main/java/com/ktprograms/ohmsnow/MainActivity.kt:150-217 | the table chosen has the mode's width; with the mode derived from the tolerance, it is always one of e6 … e192, so the fallback `[(1, 0)]` is never used |
| ResistorBands.RoleSlotInverse | app/src/main/java/com/ktprograms/ohmsnow/MainActivity.kt:549-575 | a view shows a role exactly when that role is drawn in that view (band_3/band_4 for the multiplier, band_5/band_6 for the tolerance) |
| ResistorBands.ViewHitIsRoleAt | app/src/main/java/com/ktprograms/ohmsnow/MainActivity.kt:269-285 | the role `bandClicked` records for a view, remapping included, is the role drawn there |
| ResistorBands.TouchedSingleView | app/src/main/java/com/ktprograms/ohmsnow/MainActivity.kt:124-137 | a finger over one view touches the role drawn there, and over no view touches nothing |
| ResistorBands.CascadeOnly | app/src/main/java/com/ktprograms/ohmsnow/MainActivity.kt:127-137 | with one view under the finger, the chain of calls ends on that view's role |
| ResistorBands.CascadeMiss | app/src/main/java/com/ktprograms/ohmsnow/MainActivity.kt:127-137 | views not under the finger leave the touched band alone |
| ResistorBands.TouchedIsUnderFinger | app/src/main/java/com/ktprograms/ohmsnow/MainActivity.kt:124-137 | any band ACTION_DOWN records is drawn in a view under the finger |
| ResistorBands.CascadeUnderFinger | app/src/main/java/com/ktprograms/ohmsnow/MainActivity.kt:127-137 | the chain of calls keeps the invariant that the touched role is under the finger |
| ResistorBands.DigitKey | app/src/main/java/com/ktprograms/ohmsnow/MainActivity.kt:159-174 | the search key is a Pair or, with three digit bands, a Triple of digits 0..9 |
| ResistorBands.SwipeStep | app/src/main/java/com/ktprograms/ohmsnow/MainActivity.kt:150-217 | a swipe lands on digits of the mode's width, so indexing `BandColors.values()` with them is safe |
| ResistorBands.SwipeFrame | app/src/main/java/com/ktprograms/ohmsnow/MainActivity.kt:150-217 | a swipe leaves the tolerance and the temperature coefficient alone, and band 3 as well in two-digit mode |
| ResistorBands.SwipeNextThenPrevious | app/src/main/java/com/ktprograms/ohmsnow/MainActivity.kt:150-217 | from a table value with a multiplier in BLACK … VIOLET, Next then Previous restores every band, multiplier included |
| ResistorBands.SwipePreviousThenNext | app/src/main/java/com/ktprograms/ohmsnow/MainActivity.kt:150-217 | and so does Previous then Next |
| OhmsDecoder.Significand | app/src/main/java/com/ktprograms/ohmsnow/MainActivity.kt:298-302 | the digits form a number below 100, or below 1000 with three digit bands |
| OhmsDecoder.ResistanceOffset | app/src/main/java/com/ktprograms/ohmsnow/MainActivity.kt:298-302 | the resistance is digits · 10^(ordinal − 3) ohms, with the same offset 3 in both modes |
| OhmsDecoder.PrefixIndex | app/src/main/java/com/ktprograms/ohmsnow/MainActivity.kt:303-320 | one of four prefix buckets: none, K, M, G |
| OhmsDecoder.OhmsReading | app/src/main/java/com/ktprograms/ohmsnow/MainActivity.kt:303-320 | the prefix follows the integer part's digit count. Dividing by it is exact, and the printed number keeps one to three integer digits whenever there is a prefix |
| OhmsDecoder.ReadingOfByDivision | app/src/main/java/com/ktprograms/ohmsnow/MainActivity.kt:303-320 | the scaling is the source's division by 1, 1000, 10^6 or 10^9 |
| OhmsDecoder.PrefixByMagnitude | app/src/main/java/com/ktprograms/ohmsnow/MainActivity.kt:304-319 | the bucket by value: below 10^3 none, below 10^6 K, below 10^9 M, else G; zero and values below one ohm get no prefix |
| OhmsDecoder.ReadingExact | app/src/main/java/com/ktprograms/ohmsnow/MainActivity.kt:303-320 | for every significand and multiplier the division leaves no remainder, and the scaled number has at most three integer digits |
| OhmsDecoder.ReadingUnique | app/src/main/java/com/ktprograms/ohmsnow/MainActivity.kt:303-320 | a prefix and number that give the resistance back, with one to three integer digits, are the ones the decoder picks |
| OhmsDecoder.ShownNumberIsExact | app/src/main/java/com/ktprograms/ohmsnow/MainActivity.kt:347-353 | the text starts with the number and a space, and the number read back and multiplied by its prefix is the resistance exactly |
| OhmsDecoder.DisplayOf | app/src/main/java/com/ktprograms/ohmsnow/MainActivity.kt:321-353 | the text is the value with its prefix and Ω, ± the tolerance in %, and the temperature coefficient on a second line exactly in six-band mode |
| OhmsDecoder.InitialDisplayText | app/src/main/java/com/ktprograms/ohmsnow/MainActivity.kt:347-353 | 6.800 K prints as "6.8 KΩ ±5%" |
| OhmsDecoder.InitialDisplay | app/src/main/java/com/ktprograms/ohmsnow/MainActivity.kt:68-73 | the initial bands show "6.8 KΩ ±5%" |
| OhmsDecoder.RedRedBrownGoldText | app/src/main/java/com/ktprograms/ohmsnow/MainActivity.kt:347-353 | a whole number prints without a point and with no prefix |
| OhmsDecoder.RedRedBrownGold | app/src/main/java/com/ktprograms/ohmsnow/MainActivity.kt:297-353 | red, red, brown, gold shows "220 Ω ±5%" |
| OhmsDecoder.SmallestMultiplierText | app/src/main/java/com/ktprograms/ohmsnow/MainActivity.kt:347-353 | a value below one prints with its leading zero and three decimals |
| OhmsDecoder.SmallestMultiplier | app/src/main/java/com/ktprograms/ohmsnow/MainActivity.kt:297-353 | the PINK multiplier is 10^−3: yellow, violet, pink, silver shows "0.047 Ω ±10%" |
| OhmsDecoder.SixBandDisplayText | app/src/main/java/com/ktprograms/ohmsnow/MainActivity.kt:347-349 | in six-band mode the temperature coefficient follows on a second line |
| OhmsDecoder.SixBandDisplay | app/src/main/java/com/ktprograms/ohmsnow/MainActivity.kt:297-353 | brown, black, black, black, brown, red on six bands shows "100 Ω ±1%\n50ppm/K" |
| OhmsDecoder.LargestMultiplierText | app/src/main/java/com/ktprograms/ohmsnow/MainActivity.kt:316-319 | a value in the giga bucket prints with G |
| OhmsDecoder.LargestMultiplier | app/src/main/java/com/ktprograms/ohmsnow/MainActivity.kt:297-353 | the WHITE multiplier is 10^9: white, white, white, gold shows "99 GΩ ±5%" |
| Resistor.ResistorScreen.constructor | app/src/main/java/com/ktprograms/ohmsnow/MainActivity.kt:68-91 | the screen opens with blue, grey, green, red, gold, black; four bands; no touched band; the tap armed; the text showing those bands; all invariants holding |
| Resistor.ResistorScreen.DecodeOhms | app/src/main/java/com/ktprograms/ohmsnow/MainActivity.kt:297-354 | the text becomes the decoded display of the current bands and mode |
| Resistor.ResistorScreen.ScaleOhms | app/src/main/java/com/ktprograms/ohmsnow/MainActivity.kt:298-320 | the in-place division of `ohms` yields the exact reading and its prefix letter |
| Resistor.ResistorScreen.UpdateBandTolerance | app/src/main/java/com/ktprograms/ohmsnow/MainActivity.kt:545-579 | the mode follows the tolerance, the multiplier and tolerance move to the views the mode gives them, and the body is tinted by the tolerance |
| Resistor.ResistorScreen.UpdateAll | app/src/main/java/com/ktprograms/ohmsnow/MainActivity.kt:582-591 | after an update every invariant holds and the text shows the bands |
| Resistor.ResistorScreen.BandClicked | app/src/main/java/com/ktprograms/ohmsnow/MainActivity.kt:266-293 | for a view under the finger it records the role (with the band_3 and band_6 remapping) and whether to stop; otherwise it changes nothing and goes on |
| Resistor.ResistorScreen.ActionDown | app/src/main/java/com/ktprograms/ohmsnow/MainActivity.kt:124-139 | the touched band is the one the hit test chain finds, and the tap is armed |
| Resistor.ResistorScreen.HitTest | app/src/main/java/com/ktprograms/ohmsnow/MainActivity.kt:127-137 | the nested `bandClicked` calls compute TouchedBand |
| Resistor.ResistorScreen.ActionUp | app/src/main/java/com/ktprograms/ohmsnow/MainActivity.kt:140-223 | without a long press the bands change as the touch or swipe says and all invariants are restored; after a long press nothing changes |
| Resistor.ResistorScreen.Release | app/src/main/java/com/ktprograms/ohmsnow/MainActivity.kt:142-220 | a touched band cycles; with no touched band, a swipe steps through the table |
| Resistor.ResistorScreen.SwipeBands | app/src/main/java/com/ktprograms/ohmsnow/MainActivity.kt:150-218 | the search through the selected table and the multiplier carry give the Swipe of the old bands |
| Resistor.ResistorScreen.LongClick | app/src/main/java/com/ktprograms/ohmsnow/MainActivity.kt:230-259 | the tap is disarmed and the popup offered is that of the touched band |
| Resistor.ResistorScreen.SelectDigit | app/src/main/java/com/ktprograms/ohmsnow/MainActivity.kt:233-244 | the chosen colour goes to that digit band (an unknown item keeps it), nothing else changes, and the screen is updated |
| Resistor.ResistorScreen.SelectMultiplier | app/src/main/java/com/ktprograms/ohmsnow/MainActivity.kt:245-248 | the same for the multiplier |
| Resistor.ResistorScreen.SelectTempCoef | app/src/main/java/com/ktprograms/ohmsnow/MainActivity.kt:249-252 | the same for the temperature coefficient |
| Resistor.ResistorScreen.SelectTolerance | app/src/main/java/com/ktprograms/ohmsnow/MainActivity.kt:253-256 | the same for the tolerance, and the mode becomes three-digit exactly outside NONE, SILVER, GOLD |
| Resistor.ResistorScreen.ToggleSixBands | app/src/main/java/com/ktprograms/ohmsnow/MainActivity.kt:604-627 | six-band mode flips and the digit mode stays; the tolerance sits in band_5 exactly when both modes are on |
| Capacitor.FaradPrefix | app/src/main/java/com/ktprograms/ohmsnow/CapacitorActivity.kt:217-223 | a prefix exists exactly for multiplier states 0..9 |
| Capacitor.FaradsText | app/src/main/java/com/ktprograms/ohmsnow/CapacitorActivity.kt:216-226 | there is a text exactly for multiplier states 0..9; outside that decodeFarads returns early |
| Capacitor.FaradsScaling | app/src/main/java/com/ktprograms/ohmsnow/CapacitorActivity.kt:224 | the shown value times 1000^((m+1) div 3) is (10·d1 + d2)·10^m picofarads |
| Capacitor.PrefixMatchesPower | app/src/main/java/com/ktprograms/ohmsnow/CapacitorActivity.kt:217-224 | the prefix is p, n, micro, m for 1000^0 … 1000^3 picofarads, matching that scaling |
| Capacitor.FaradsTextExact | app/src/main/java/com/ktprograms/ohmsnow/CapacitorActivity.kt:224-225 | the text is the number, a space, the prefix and F, and the number reads back exactly with at most two decimals |
| Capacitor.InitialFarads | app/src/main/java/com/ktprograms/ohmsnow/CapacitorActivity.kt:49-51 | the digits 2, 2, 2 show "2.2 nF" |
| Capacitor.DigitTapsCount | app/src/main/java/com/ktprograms/ohmsnow/CapacitorActivity.kt:113-122 | n taps on a digit count it up modulo 10 |
| Capacitor.MultiplierTapsCount | app/src/main/java/com/ktprograms/ohmsnow/CapacitorActivity.kt:123-127 | from 0..6, n taps on the multiplier count it up modulo 7 |
| Capacitor.MultiplierTapsStayBelowSeven | app/src/main/java/com/ktprograms/ohmsnow/CapacitorActivity.kt:123-127 | after any tap the multiplier is at most 6, so 7..9 are reached only through the popup |
| Capacitor.SwipeDigits | app/src/main/java/com/ktprograms/ohmsnow/CapacitorActivity.kt:89-107 | a swipe lands on two digits 0..9 of e12 |
| Capacitor.SwipeRoundTrip | app/src/main/java/com/ktprograms/ohmsnow/CapacitorActivity.kt:89-107 | in a sorted e12, a swipe and the opposite swipe return to the starting entry, at the ends too |
| Capacitor.CapacitorScreen.constructor | app/src/main/java/com/ktprograms/ohmsnow/CapacitorActivity.kt:49-51 | the screen opens on 2, 2, 2 showing "2.2 nF" |
| Capacitor.CapacitorScreen.DecodeFarads | app/src/main/java/com/ktprograms/ohmsnow/CapacitorActivity.kt:216-226 | the text becomes FaradsText of the digits, or stays as it was when the multiplier is outside 0..9 |
| Capacitor.CapacitorScreen.TapDigit1 | app/src/main/java/com/ktprograms/ohmsnow/CapacitorActivity.kt:113-117 | the first digit moves to the next, 9 going to 0, and the text follows |
| Capacitor.CapacitorScreen.TapDigit2 | app/src/main/java/com/ktprograms/ohmsnow/CapacitorActivity.kt:118-122 | the same for the second digit |
| Capacitor.CapacitorScreen.TapMultiplier | app/src/main/java/com/ktprograms/ohmsnow/CapacitorActivity.kt:123-127 | the multiplier moves up by one, states from 6 up going to 0, and the text follows |
| Capacitor.CapacitorScreen.SelectDigit1 | app/src/main/java/com/ktprograms/ohmsnow/CapacitorActivity.kt:129-136 | the popup's digit becomes the first digit, and an unknown item keeps it |
| Capacitor.CapacitorScreen.SelectDigit2 | app/src/main/java/com/ktprograms/ohmsnow/CapacitorActivity.kt:137-144 | the same for the second digit |
| Capacitor.CapacitorScreen.SelectMultiplier | app/src/main/java/com/ktprograms/ohmsnow/CapacitorActivity.kt:145-152 | the same for the multiplier, which the popup can set to 0..9 |
| Capacitor.CapacitorScreen.ActionUp | app/src/main/java/com/ktprograms/ohmsnow/CapacitorActivity.kt:88-108 | a swipe moves the two digits to the neighbouring e12 entry (wrapping at the ends), the multiplier never changes, and no swipe changes nothing |
| Capacitor.CapacitorScreen.UpdateAll | app/src/main/java/com/ktprograms/ohmsnow/CapacitorActivity.kt:159-164 | the text is brought back in line with the digits |

## Left out

- Android view plumbing is not modelled: `findViewById`, colour filters, visibility, popup inflation, menu icons and item visibility, and the digit TextViews of the capacitor screen. The model keeps the state these views show and the decoded text.
- Pixel hit testing (`drawToBitmap().getPixel`, and the IllegalArgumentException it may throw) is an input. The set of views whose pixel under the finger is opaque is a parameter of ActionDown; a view that throws counts as not under the finger.
- Touch coordinates are not modelled: ACTION_UP receives the swipe direction. `ESeries.SwipeOf` states how the direction follows from the two x positions, on whole pixels instead of floats.
- Shared-preference persistence and the switch between the two screens (`Intent`s, the menu_capacitor item) are I/O and navigation.
- The app-bar icon chosen by night mode is UI only.
- `Double` arithmetic is replaced by exact integers. That covers `10.0.pow`, `log10`, and the rounding of `DecimalFormat`. Every value the app can show has at most three (resistor) or two (capacitor) decimals, so under the locale modelled below `DecimalFormat` only trims zeros there. The rounding error of IEEE doubles themselves is not modelled.
- The E-series tables come from a file that is not part of this model. They are parameters: non-empty, with components 0..9, and strictly increasing where a lemma needs it. The `Pair`/`Triple` order is taken to be lexicographic (`ESeries.LexLess`).
- `DecimalFormat` takes its symbols from the device's default locale. The model fixes the decimal separator to '.' and the digits to ASCII, as in an English locale. Other locales (a ',' separator, native digits) are not modelled, and the literal texts of `OhmsDecoder.InitialDisplay`, `Capacitor.InitialFarads` and the other example lemmas hold only in such a locale.
- Colors.kt stores each `argb` as a signed `Int` (`.toInt()` of the hexadecimal literal). The model keeps the unsigned 32-bit pattern as a `nat` (0xFFFAD6A5 rather than its negative `Int`). The two carry the same bits, and the model only compares them for equality.
- The popups return the state captured when the long press happened for an unknown item. The Select methods keep the current state instead. Nothing changes the band between the long press and the choice, so the two agree.
- The body tint before the first update comes from the layout, which is not part of this model. `Resistor.ResistorScreen.constructor` leaves it as None.
- Resistor.ResistorScreen.constructor: states the initial text as the decoded display of the initial bands, not as the literal "6.8 KΩ ±5%". `OhmsDecoder.InitialDisplay` proves that this display is that literal.
