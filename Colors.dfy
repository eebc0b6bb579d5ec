/** The colour enumerations of Colors.kt. Each Kotlin `enum class` is a
    datatype; its `values()` array is a constant sequence in declaration
    order; `ordinal` is a function whose contract says that it is the
    position of the colour in `values()`. `argb` is the unsigned 32-bit
    pattern of the colour (Kotlin stores the same bits as a signed Int). */
module Colors {

  // ---------------------------------------------------------------- digits

  /** BandColors: the colour of a significant-digit band. */
  datatype BandColor = Black | Brown | Red | Orange | Yellow | Green | Blue | Violet | Grey | White

  /** BandColors.values() */
  const BandColorValues: seq<BandColor> :=
    [BandColor.Black, BandColor.Brown, BandColor.Red, BandColor.Orange, BandColor.Yellow,
     BandColor.Green, BandColor.Blue, BandColor.Violet, BandColor.Grey, BandColor.White]

  /** BandColors.ordinal, which the decoder uses as the digit's value. */
  function BandOrdinal(c: BandColor): (i: nat)
    ensures i < 10
  {
    match c
    case Black => 0 case Brown => 1 case Red => 2 case Orange => 3 case Yellow => 4
    case Green => 5 case Blue => 6 case Violet => 7 case Grey => 8 case White => 9
  }

  /** BandColors.values()[i]. */
  function BandAt(i: nat): (c: BandColor)
    requires i < |BandColorValues|
    ensures BandOrdinal(c) == i
  {
    BandColorValues[i]
  }

  /** The ordinal is the colour's position in `values()`. */
  lemma BandOrdinalIsPosition(c: BandColor)
    ensures BandColorValues[BandOrdinal(c)] == c && BandAt(BandOrdinal(c)) == c
  {
  }

  function BandName(c: BandColor): string {
    match c
    case Black => "BLACK" case Brown => "BROWN" case Red => "RED" case Orange => "ORANGE"
    case Yellow => "YELLOW" case Green => "GREEN" case Blue => "BLUE" case Violet => "VIOLET"
    case Grey => "GREY" case White => "WHITE"
  }

  function BandArgb(c: BandColor): nat {
    match c
    case Black => 0xFF000000 case Brown => 0xFF964B00 case Red => 0xFFFF0000
    case Orange => 0xFFFF7F50 case Yellow => 0xFFFFFF00 case Green => 0xFF32CD32
    case Blue => 0xFF0000FF case Violet => 0xFF9400D3 case Grey => 0xFF808080
    case White => 0xFFFFFFFF
  }

  // ------------------------------------------------------------ multiplier

  /** MultiplierBandColors: the multiplier band; ordinal - 3 is the power of ten. */
  datatype MultiplierBandColor =
    Pink | Silver | Gold | Black | Brown | Red | Orange | Yellow | Green | Blue | Violet | Grey | White

  const MultiplierBandColorValues: seq<MultiplierBandColor> :=
    [MultiplierBandColor.Pink, MultiplierBandColor.Silver, MultiplierBandColor.Gold,
     MultiplierBandColor.Black, MultiplierBandColor.Brown, MultiplierBandColor.Red,
     MultiplierBandColor.Orange, MultiplierBandColor.Yellow, MultiplierBandColor.Green,
     MultiplierBandColor.Blue, MultiplierBandColor.Violet, MultiplierBandColor.Grey,
     MultiplierBandColor.White]

  function MultiplierOrdinal(c: MultiplierBandColor): (i: nat)
    ensures i < 13
  {
    match c
    case Pink => 0 case Silver => 1 case Gold => 2 case Black => 3 case Brown => 4
    case Red => 5 case Orange => 6 case Yellow => 7 case Green => 8 case Blue => 9
    case Violet => 10 case Grey => 11 case White => 12
  }

  lemma MultiplierOrdinalIsPosition(c: MultiplierBandColor)
    ensures MultiplierBandColorValues[MultiplierOrdinal(c)] == c
  {
  }

  function MultiplierName(c: MultiplierBandColor): string {
    match c
    case Pink => "PINK" case Silver => "SILVER" case Gold => "GOLD" case Black => "BLACK"
    case Brown => "BROWN" case Red => "RED" case Orange => "ORANGE" case Yellow => "YELLOW"
    case Green => "GREEN" case Blue => "BLUE" case Violet => "VIOLET" case Grey => "GREY"
    case White => "WHITE"
  }

  function MultiplierArgb(c: MultiplierBandColor): nat {
    match c
    case Pink => 0xFFFF1493 case Silver => 0xFFC0C0C0 case Gold => 0xFFD4AF37
    case Black => 0xFF000000 case Brown => 0xFF964B00 case Red => 0xFFFF0000
    case Orange => 0xFFFF7F50 case Yellow => 0xFFFFFF00 case Green => 0xFF32CD32
    case Blue => 0xFF0000FF case Violet => 0xFF9400D3 case Grey => 0xFF808080
    case White => 0xFFFFFFFF
  }

  // ------------------------------------------------------------- tolerance

  /** ToleranceBandColors; NONE is "no band", drawn in the body colour. */
  datatype ToleranceBandColor =
    None | Silver | Gold | Brown | Red | Orange | Yellow | Green | Blue | Violet | Grey

  const ToleranceBandColorValues: seq<ToleranceBandColor> :=
    [ToleranceBandColor.None, ToleranceBandColor.Silver, ToleranceBandColor.Gold,
     ToleranceBandColor.Brown, ToleranceBandColor.Red, ToleranceBandColor.Orange,
     ToleranceBandColor.Yellow, ToleranceBandColor.Green, ToleranceBandColor.Blue,
     ToleranceBandColor.Violet, ToleranceBandColor.Grey]

  function ToleranceOrdinal(c: ToleranceBandColor): (i: nat)
    ensures i < 11
  {
    match c
    case None => 0 case Silver => 1 case Gold => 2 case Brown => 3 case Red => 4
    case Orange => 5 case Yellow => 6 case Green => 7 case Blue => 8 case Violet => 9
    case Grey => 10
  }

  lemma ToleranceOrdinalIsPosition(c: ToleranceBandColor)
    ensures ToleranceBandColorValues[ToleranceOrdinal(c)] == c
  {
  }

  function ToleranceName(c: ToleranceBandColor): string {
    match c
    case None => "NONE" case Silver => "SILVER" case Gold => "GOLD" case Brown => "BROWN"
    case Red => "RED" case Orange => "ORANGE" case Yellow => "YELLOW" case Green => "GREEN"
    case Blue => "BLUE" case Violet => "VIOLET" case Grey => "GREY"
  }

  function ToleranceArgb(c: ToleranceBandColor): nat {
    match c
    case None => 0xFFFAD6A5 case Silver => 0xFFC0C0C0 case Gold => 0xFFD4AF37
    case Brown => 0xFF964B00 case Red => 0xFFFF0000 case Orange => 0xFFFF7F50
    case Yellow => 0xFFFFFF00 case Green => 0xFF32CD32 case Blue => 0xFF0000FF
    case Violet => 0xFF9400D3 case Grey => 0xFF808080
  }

  // ------------------------------------------------------------------ body

  /** BodyColors: the resistor body, beige for 4-band and blue for 5/6-band parts. */
  datatype BodyColor = Beige | Blue

  const BodyColorValues: seq<BodyColor> := [BodyColor.Beige, BodyColor.Blue]

  function BodyOrdinal(c: BodyColor): (i: nat)
    ensures i < 2
  {
    match c
    case Beige => 0 case Blue => 1
  }

  lemma BodyOrdinalIsPosition(c: BodyColor)
    ensures BodyColorValues[BodyOrdinal(c)] == c
  {
  }

  function BodyName(c: BodyColor): string {
    match c
    case Beige => "BEIGE" case Blue => "BLUE"
  }

  function BodyArgb(c: BodyColor): nat {
    match c
    case Beige => 0xFFFAD6A5 case Blue => 0xFF00BFFF
  }

  // ---------------------------------------------- temperature coefficient

  /** TempCoefBandColors: the sixth band of a six-band resistor. */
  datatype TempCoefBandColor = Black | Brown | Red | Orange | Yellow | Green | Blue | Violet | Grey

  const TempCoefBandColorValues: seq<TempCoefBandColor> :=
    [TempCoefBandColor.Black, TempCoefBandColor.Brown, TempCoefBandColor.Red,
     TempCoefBandColor.Orange, TempCoefBandColor.Yellow, TempCoefBandColor.Green,
     TempCoefBandColor.Blue, TempCoefBandColor.Violet, TempCoefBandColor.Grey]

  function TempCoefOrdinal(c: TempCoefBandColor): (i: nat)
    ensures i < 9
  {
    match c
    case Black => 0 case Brown => 1 case Red => 2 case Orange => 3 case Yellow => 4
    case Green => 5 case Blue => 6 case Violet => 7 case Grey => 8
  }

  /** TempCoefBandColors.values()[i]. */
  function TempCoefAt(i: nat): (c: TempCoefBandColor)
    requires i < |TempCoefBandColorValues|
    ensures TempCoefOrdinal(c) == i
  {
    TempCoefBandColorValues[i]
  }

  lemma TempCoefOrdinalIsPosition(c: TempCoefBandColor)
    ensures TempCoefBandColorValues[TempCoefOrdinal(c)] == c && TempCoefAt(TempCoefOrdinal(c)) == c
  {
  }

  function TempCoefName(c: TempCoefBandColor): string {
    match c
    case Black => "BLACK" case Brown => "BROWN" case Red => "RED" case Orange => "ORANGE"
    case Yellow => "YELLOW" case Green => "GREEN" case Blue => "BLUE" case Violet => "VIOLET"
    case Grey => "GREY"
  }

  function TempCoefArgb(c: TempCoefBandColor): nat {
    match c
    case Black => 0xFF000000 case Brown => 0xFF964B00 case Red => 0xFFFF0000
    case Orange => 0xFFFF7F50 case Yellow => 0xFFFFFF00 case Green => 0xFF32CD32
    case Blue => 0xFF0000FF case Violet => 0xFF9400D3 case Grey => 0xFF808080
  }

  // ---------------------------------------------------------------- lemmas

  /** BandColors has exactly ten values, BLACK first and WHITE last, and
      `values()[i]` has ordinal i, so the ordinal is the digit 0..9. */
  lemma BandColorsAreDigits()
    ensures |BandColorValues| == 10
    ensures BandColorValues[0] == BandColor.Black && BandColorValues[9] == BandColor.White
    ensures forall i :: 0 <= i < |BandColorValues| ==> BandOrdinal(BandColorValues[i]) == i
  {
  }

  /** MultiplierBandColors has 13 values: PINK, SILVER, GOLD at 0..2, BLACK at 3
      and WHITE at 12, so the exponent ordinal - 3 runs over -3..9; a multiplier
      named like a digit colour multiplies by ten to that colour's digit. */
  lemma MultiplierExponents()
    ensures |MultiplierBandColorValues| == 13
    ensures MultiplierOrdinal(MultiplierBandColor.Pink) == 0
    ensures MultiplierOrdinal(MultiplierBandColor.Silver) == 1
    ensures MultiplierOrdinal(MultiplierBandColor.Gold) == 2
    ensures MultiplierOrdinal(MultiplierBandColor.Black) == 3
    ensures MultiplierOrdinal(MultiplierBandColor.White) == 12
    ensures forall m :: -3 <= MultiplierOrdinal(m) - 3 <= 9
    ensures forall m, b | MultiplierName(m) == BandName(b) ::
              MultiplierOrdinal(m) - 3 == BandOrdinal(b)
  {
  }

  /** ToleranceBandColors has 11 values and its first three are NONE, SILVER, GOLD. */
  lemma ToleranceLayout()
    ensures |ToleranceBandColorValues| == 11
    ensures ToleranceBandColorValues[..3] ==
            [ToleranceBandColor.None, ToleranceBandColor.Silver, ToleranceBandColor.Gold]
  {
  }

  /** TempCoefBandColors has nine values, BLACK first and GREY last. */
  lemma TempCoefLayout()
    ensures |TempCoefBandColorValues| == 9
    ensures TempCoefBandColorValues[0] == TempCoefBandColor.Black
    ensures TempCoefBandColorValues[8] == TempCoefBandColor.Grey
  {
  }

  /** BodyColors has exactly the two values BEIGE and BLUE. */
  lemma BodyLayout()
    ensures BodyColorValues == [BodyColor.Beige, BodyColor.Blue]
    ensures forall c :: BodyOrdinal(c) < 2
  {
  }

  /** The "no tolerance band" colour is painted exactly like the beige body. */
  lemma NoToleranceIsBodyBeige()
    ensures ToleranceArgb(ToleranceBandColor.None) == BodyArgb(BodyColor.Beige) == 0xFFFAD6A5
  {
  }

  /** A colour name shared by the band enumerations carries the same argb in
      each of them (BROWN is 0xFF964B00 everywhere). The body's BLUE is the
      one exception: it is a lighter blue than the band BLUE. */
  lemma SharedNamesShareArgb()
    ensures forall b, m | BandName(b) == MultiplierName(m) :: BandArgb(b) == MultiplierArgb(m)
    ensures forall b, t | BandName(b) == ToleranceName(t) :: BandArgb(b) == ToleranceArgb(t)
    ensures forall b, t | BandName(b) == TempCoefName(t) :: BandArgb(b) == TempCoefArgb(t)
    ensures forall m, t | MultiplierName(m) == ToleranceName(t) :: MultiplierArgb(m) == ToleranceArgb(t)
    ensures BandArgb(BandColor.Brown) == 0xFF964B00
    ensures BodyArgb(BodyColor.Blue) != BandArgb(BandColor.Blue)
  {
  }
}
