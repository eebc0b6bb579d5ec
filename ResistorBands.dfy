/** The pure part of MainActivity.kt: the tap cycles (`nextColor` and its
    siblings), the body colour, the choice of E-series table, the map
    between physical band slots and the roles they play, and the change a
    tap or a swipe makes to the six band colours. */
module ResistorBands {
  import opened Wrappers
  import opened Colors
  import opened ESeries

  /** The six band colours (band1State … bandTempCoefState). */
  datatype Bands = Bands(band1: BandColor, band2: BandColor, band3: BandColor,
                         multiplier: MultiplierBandColor, tolerance: ToleranceBandColor,
                         tempCoef: TempCoefBandColor)

  /** The colours the activity starts with: 6.8 kΩ, 5 %. */
  const InitialBands: Bands := Bands(BandColor.Blue, BandColor.Grey, BandColor.Green,
                                     MultiplierBandColor.Red, ToleranceBandColor.Gold,
                                     TempCoefBandColor.Black)

  // ------------------------------------------------------------ tap cycles

  /** nextColor: the following digit colour, WHITE going round to BLACK. */
  function NextColor(c: BandColor): (r: BandColor)
    ensures BandOrdinal(r) == (BandOrdinal(c) + 1) % 10
  {
    var i := BandOrdinal(c) + 1;
    if i < |BandColorValues| then BandAt(i) else BandAt(0)
  }

  /** The multipliers a tap or a swipe wrap moves between: BLACK … VIOLET. */
  predicate IsCycleMultiplier(c: MultiplierBandColor) {
    3 <= MultiplierOrdinal(c) <= 10
  }

  /** nextMultiplierColor: one power of ten up on BLACK … VIOLET, VIOLET going
      round to BLACK; PINK, SILVER, GOLD, GREY and WHITE go to BLACK. */
  function NextMultiplierColor(c: MultiplierBandColor): (r: MultiplierBandColor)
    ensures IsCycleMultiplier(r)
    ensures IsCycleMultiplier(c) ==> MultiplierOrdinal(r) == 3 + (MultiplierOrdinal(c) - 3 + 1) % 8
    ensures !IsCycleMultiplier(c) ==> r == MultiplierBandColor.Black
  {
    match c
    case Black => MultiplierBandColor.Brown
    case Brown => MultiplierBandColor.Red
    case Red => MultiplierBandColor.Orange
    case Orange => MultiplierBandColor.Yellow
    case Yellow => MultiplierBandColor.Green
    case Green => MultiplierBandColor.Blue
    case Blue => MultiplierBandColor.Violet
    case Violet => MultiplierBandColor.Black
    case _ => MultiplierBandColor.Black
  }

  /** prevMultiplierColor: one power of ten down on BLACK … VIOLET, BLACK
      going round to VIOLET; the other five colours go to BLACK. */
  function PrevMultiplierColor(c: MultiplierBandColor): (r: MultiplierBandColor)
    ensures IsCycleMultiplier(r)
    ensures IsCycleMultiplier(c) ==> MultiplierOrdinal(r) == 3 + (MultiplierOrdinal(c) - 3 + 7) % 8
    ensures !IsCycleMultiplier(c) ==> r == MultiplierBandColor.Black
  {
    match c
    case Violet => MultiplierBandColor.Blue
    case Blue => MultiplierBandColor.Green
    case Green => MultiplierBandColor.Yellow
    case Yellow => MultiplierBandColor.Orange
    case Orange => MultiplierBandColor.Red
    case Red => MultiplierBandColor.Brown
    case Brown => MultiplierBandColor.Black
    case Black => MultiplierBandColor.Violet
    case _ => MultiplierBandColor.Black
  }

  /** On BLACK … VIOLET the two multiplier steps undo each other. */
  lemma MultiplierStepsInverse(c: MultiplierBandColor)
    requires IsCycleMultiplier(c)
    ensures PrevMultiplierColor(NextMultiplierColor(c)) == c
    ensures NextMultiplierColor(PrevMultiplierColor(c)) == c
  {
  }

  /** nextTempCoefColor: the following colour, GREY going round to BLACK. */
  function NextTempCoefColor(c: TempCoefBandColor): (r: TempCoefBandColor)
    ensures TempCoefOrdinal(r) == (TempCoefOrdinal(c) + 1) % 9
  {
    var i := TempCoefOrdinal(c) + 1;
    if i < |TempCoefBandColorValues| then TempCoefAt(i) else TempCoefAt(0)
  }

  /** The tolerances a tap cycles through, in order. */
  const ToleranceTapCycle: seq<ToleranceBandColor> :=
    [ToleranceBandColor.None, ToleranceBandColor.Silver, ToleranceBandColor.Gold,
     ToleranceBandColor.Brown, ToleranceBandColor.Red, ToleranceBandColor.Green]

  /** nextToleranceColor: NONE → SILVER → GOLD → BROWN → RED → GREEN → NONE;
      every other tolerance goes to NONE. */
  function NextToleranceColor(c: ToleranceBandColor): (r: ToleranceBandColor)
    ensures forall i {:trigger ToleranceTapCycle[i]} :: 0 <= i < |ToleranceTapCycle| && ToleranceTapCycle[i] == c ==>
              r == ToleranceTapCycle[(i + 1) % |ToleranceTapCycle|]
    ensures c !in ToleranceTapCycle ==> r == ToleranceBandColor.None
  {
    match c
    case None => ToleranceBandColor.Silver
    case Silver => ToleranceBandColor.Gold
    case Gold => ToleranceBandColor.Brown
    case Brown => ToleranceBandColor.Red
    case Red => ToleranceBandColor.Green
    case Green => ToleranceBandColor.None
    case _ => ToleranceBandColor.None
  }

  // ------------------------------------------------------------------ mode

  /** The value `updateBandTolerance` gives `fiveSixBands`: a resistor with
      a tolerance other than NONE, SILVER or GOLD has three digit bands. */
  predicate FiveSixBandsFor(t: ToleranceBandColor) {
    match t
    case None | Silver | Gold => false
    case _ => true
  }

  /** The three tolerances that keep two digit bands are exactly the first
      three of ToleranceBandColors. */
  lemma FiveSixBandsByOrdinal(t: ToleranceBandColor)
    ensures FiveSixBandsFor(t) <==> ToleranceOrdinal(t) >= 3
  {
  }

  /** decodeBodyColor: beige for NONE, SILVER, GOLD, blue otherwise. */
  function DecodeBodyColor(t: ToleranceBandColor): BodyColor {
    match t
    case None | Silver | Gold => BodyColor.Beige
    case _ => BodyColor.Blue
  }

  /** The body is beige exactly for the first three tolerances. */
  lemma BodyColorByOrdinal(t: ToleranceBandColor)
    ensures DecodeBodyColor(t) == BodyColor.Beige <==> ToleranceOrdinal(t) < 3
  {
  }

  /** The body is beige exactly in two-digit mode. */
  lemma BodyColorMatchesMode(t: ToleranceBandColor)
    ensures DecodeBodyColor(t) == BodyColor.Beige <==> !FiveSixBandsFor(t)
  {
  }

  // ------------------------------------------------------------- E series

  /** The table a swipe steps through. In two-digit mode NONE, SILVER and GOLD
      select E6, E12 and E24 and any other tolerance falls back to the
      one-entry table [1, 0]; in three-digit mode RED and BROWN select E48 and
      E96 and any other tolerance E192. */
  function SeriesFor(t: ToleranceBandColor, fiveSix: bool, tables: Tables): seq<Digits> {
    if !fiveSix then
      match t
      case None => tables.e6
      case Silver => tables.e12
      case Gold => tables.e24
      case _ => [[1, 0]]
    else
      match t
      case Red => tables.e48
      case Brown => tables.e96
      case _ => tables.e192
  }

  /** The table chosen always suits the mode; and once `fiveSixBands` has been
      derived from the tolerance, the fallback [1, 0] is never chosen. */
  lemma SeriesForMode(t: ToleranceBandColor, fiveSix: bool, tables: Tables)
    requires tables.WellFormed()
    ensures IsTable(SeriesFor(t, fiveSix, tables), if fiveSix then 3 else 2)
    ensures fiveSix == FiveSixBandsFor(t) ==>
              SeriesFor(t, fiveSix, tables) in [tables.e6, tables.e12, tables.e24,
                                                tables.e48, tables.e96, tables.e192]
  {
  }

  // ------------------------------------------------------------ slot/role

  /** The physical band views R.id.band_1 … R.id.band_6. */
  datatype Slot = Band1 | Band2 | Band3 | Band4 | Band5 | Band6

  /** The logical bands; `touchedBand` numbers them 0 … 5 in this order. */
  datatype Role = Digit1 | Digit2 | Digit3 | Multiplier | TempCoef | Tolerance

  /** The view `bandMultiplier` refers to: band_4 with three digits, else band_3. */
  function MultiplierSlotFor(fiveSix: bool): Slot {
    if fiveSix then Slot.Band4 else Slot.Band3
  }

  /** The view `bandTolerance` refers to: band_5 on a six-band resistor, else band_6. */
  function ToleranceSlotFor(fiveSix: bool, six: bool): Slot {
    if fiveSix && six then Slot.Band5 else Slot.Band6
  }

  /** The role shown in each slot, if the slot is drawn at all. */
  function RoleAt(s: Slot, fiveSix: bool, six: bool): Option<Role> {
    match s
    case Band1 => Some(Role.Digit1)
    case Band2 => Some(Role.Digit2)
    case Band3 => Some(if fiveSix then Role.Digit3 else Role.Multiplier)
    case Band4 => if fiveSix then Some(Role.Multiplier) else Option.None
    case Band5 => if fiveSix && six then Some(Role.Tolerance) else Option.None
    case Band6 => Some(if fiveSix && six then Role.TempCoef else Role.Tolerance)
  }

  /** The slot each role is drawn in, if it is drawn at all. */
  function SlotOf(r: Role, fiveSix: bool, six: bool): Option<Slot> {
    match r
    case Digit1 => Some(Slot.Band1)
    case Digit2 => Some(Slot.Band2)
    case Digit3 => if fiveSix then Some(Slot.Band3) else Option.None
    case Multiplier => Some(MultiplierSlotFor(fiveSix))
    case Tolerance => Some(ToleranceSlotFor(fiveSix, six))
    case TempCoef => if fiveSix && six then Some(Slot.Band6) else Option.None
  }

  /** The two maps are inverse: a slot shows a role exactly when that role is
      drawn in that slot. */
  lemma RoleSlotInverse(s: Slot, r: Role, fiveSix: bool, six: bool)
    ensures RoleAt(s, fiveSix, six) == Some(r) <==> SlotOf(r, fiveSix, six) == Some(s)
  {
  }

  // ------------------------------------------------------------- hit test

  /** The views `bandClicked` is asked about on ACTION_DOWN, in that order:
      bandTolerance, bandTempCoef (always band_6), bandMultiplier, band3,
      band2, band1. */
  function HitOrder(fiveSix: bool, six: bool): seq<Slot> {
    [ToleranceSlotFor(fiveSix, six), Slot.Band6, MultiplierSlotFor(fiveSix),
     Slot.Band3, Slot.Band2, Slot.Band1]
  }

  /** What `bandClicked` does once the pixel under the finger is underFinger in
      view v: the touched band it records, and whether the search stops.
      In two-digit mode band_3 is the multiplier and without six bands band_6
      is the tolerance; both record their role and let the search go on. */
  function ViewHit(v: Slot, fiveSix: bool, six: bool): (Option<Role>, bool) {
    if !fiveSix && v == Slot.Band3 then (Some(Role.Multiplier), false)
    else if !(fiveSix && six) && v == Slot.Band6 then (Some(Role.Tolerance), false)
    else if v == Slot.Band1 then (Some(Role.Digit1), true)
    else if v == Slot.Band2 then (Some(Role.Digit2), true)
    else if v == Slot.Band3 then (Some(Role.Digit3), true)
    else if v == MultiplierSlotFor(fiveSix) then (Some(Role.Multiplier), true)
    else if v == Slot.Band6 then (Some(Role.TempCoef), true)
    else if v == ToleranceSlotFor(fiveSix, six) then (Some(Role.Tolerance), true)
    else (Option.None, true)
  }

  /** The cascade of `bandClicked` calls over the views still to ask. */
  function Cascade(views: seq<Slot>, underFinger: set<Slot>, fiveSix: bool, six: bool,
                   touched: Option<Role>): Option<Role>
  {
    if views == [] then touched
    else if views[0] in underFinger then
      var (r, stop) := ViewHit(views[0], fiveSix, six);
      if stop then r else Cascade(views[1..], underFinger, fiveSix, six, r)
    else Cascade(views[1..], underFinger, fiveSix, six, touched)
  }

  /** The band ACTION_DOWN records, given the views whose pixel under the
      finger is not transparent. */
  function TouchedBand(underFinger: set<Slot>, fiveSix: bool, six: bool): Option<Role> {
    Cascade(HitOrder(fiveSix, six), underFinger, fiveSix, six, Option.None)
  }

  /** Every view the cascade asks about records the role RoleAt gives it. */
  lemma ViewHitIsRoleAt(v: Slot, fiveSix: bool, six: bool)
    requires v in HitOrder(fiveSix, six)
    ensures ViewHit(v, fiveSix, six).0 == RoleAt(v, fiveSix, six)
  {
  }

  /** A finger over exactly one view touches the role drawn there, and a
      finger over nothing touches no band. */
  lemma TouchedSingleView(s: Slot, fiveSix: bool, six: bool)
    ensures TouchedBand({s}, fiveSix, six) == RoleAt(s, fiveSix, six)
    ensures TouchedBand({}, fiveSix, six) == Option.None
  {
    CascadeOnly(HitOrder(fiveSix, six), s, fiveSix, six, Option.None);
    CascadeMiss(HitOrder(fiveSix, six), {}, fiveSix, six, Option.None);
  }

  lemma {:induction false} CascadeOnly(views: seq<Slot>, s: Slot, fiveSix: bool, six: bool,
                                       touched: Option<Role>)
    requires forall v :: v in views ==> v in HitOrder(fiveSix, six)
    ensures Cascade(views, {s}, fiveSix, six, touched)
            == if s in views then RoleAt(s, fiveSix, six) else touched
  {
    if views != [] {
      if views[0] == s {
        ViewHitIsRoleAt(s, fiveSix, six);
        CascadeOnly(views[1..], s, fiveSix, six, RoleAt(s, fiveSix, six));
      } else {
        CascadeOnly(views[1..], s, fiveSix, six, touched);
        assert s in views <==> s in views[1..];
      }
    }
  }

  lemma {:induction false} CascadeMiss(views: seq<Slot>, underFinger: set<Slot>, fiveSix: bool, six: bool,
                                       touched: Option<Role>)
    requires forall v :: v in views ==> v !in underFinger
    ensures Cascade(views, underFinger, fiveSix, six, touched) == touched
  {
    if views != [] {
      CascadeMiss(views[1..], underFinger, fiveSix, six, touched);
    }
  }

  /** Whatever band is recorded is drawn in a view under the finger. */
  lemma TouchedIsUnderFinger(underFinger: set<Slot>, fiveSix: bool, six: bool)
    ensures var t := TouchedBand(underFinger, fiveSix, six);
      t.Some? ==> SlotOf(t.value, fiveSix, six).Some? && SlotOf(t.value, fiveSix, six).value in underFinger
  {
    CascadeUnderFinger(HitOrder(fiveSix, six), underFinger, fiveSix, six, Option.None);
  }

  lemma {:induction false} CascadeUnderFinger(views: seq<Slot>, underFinger: set<Slot>, fiveSix: bool, six: bool,
                                              touched: Option<Role>)
    requires forall v :: v in views ==> v in HitOrder(fiveSix, six)
    requires touched.Some? ==> SlotOf(touched.value, fiveSix, six).Some?
                               && SlotOf(touched.value, fiveSix, six).value in underFinger
    ensures var t := Cascade(views, underFinger, fiveSix, six, touched);
      t.Some? ==> SlotOf(t.value, fiveSix, six).Some? && SlotOf(t.value, fiveSix, six).value in underFinger
  {
    if views != [] {
      var v := views[0];
      if v in underFinger {
        ViewHitIsRoleAt(v, fiveSix, six);
        var r := ViewHit(v, fiveSix, six).0;
        if r.Some? {
          RoleSlotInverse(v, r.value, fiveSix, six);
        }
      }
      CascadeUnderFinger(views[1..], underFinger, fiveSix, six,
        if v in underFinger then ViewHit(v, fiveSix, six).0 else touched);
    }
  }

  // ------------------------------------------------------ taps and swipes

  /** The current significant digits: a Pair, or a Triple with three digits. */
  function DigitKey(b: Bands, fiveSix: bool): (d: Digits)
    ensures IsDigits(d, if fiveSix then 3 else 2)
  {
    if fiveSix then [BandOrdinal(b.band1), BandOrdinal(b.band2), BandOrdinal(b.band3)]
    else [BandOrdinal(b.band1), BandOrdinal(b.band2)]
  }

  /** A tap on a band: the band's colour moves to the next in its cycle. */
  function Tap(b: Bands, r: Role): Bands {
    match r
    case Digit1 => b.(band1 := NextColor(b.band1))
    case Digit2 => b.(band2 := NextColor(b.band2))
    case Digit3 => b.(band3 := NextColor(b.band3))
    case Multiplier => b.(multiplier := NextMultiplierColor(b.multiplier))
    case TempCoef => b.(tempCoef := NextTempCoefColor(b.tempCoef))
    case Tolerance => b.(tolerance := NextToleranceColor(b.tolerance))
  }

  /** Where a swipe lands in the table for the current mode. */
  function SwipeStep(b: Bands, fiveSix: bool, d: Direction, tables: Tables): (s: Step)
    requires tables.WellFormed()
    ensures IsDigits(s.entry, if fiveSix then 3 else 2)
  {
    var t := SeriesFor(b.tolerance, fiveSix, tables);
    SeriesForMode(b.tolerance, fiveSix, tables);
    var key := DigitKey(b, fiveSix);
    var s := if d == Next then NextStep(t, key) else PrevStep(t, key);
    assert s.entry in t;
    s
  }

  /** A swipe over no band: the digits move to the neighbouring table entry
      (band 3 only in three-digit mode), and the multiplier moves one step the
      same way when the table ran out. */
  function Swipe(b: Bands, fiveSix: bool, d: Direction, tables: Tables): Bands
    requires tables.WellFormed()
  {
    var s := SwipeStep(b, fiveSix, d, tables);
    b.(band1 := BandAt(s.entry[0]),
       band2 := BandAt(s.entry[1]),
       band3 := if fiveSix then BandAt(s.entry[2]) else b.band3,
       multiplier := if !s.wrapped then b.multiplier
                     else if d == Next then NextMultiplierColor(b.multiplier)
                     else PrevMultiplierColor(b.multiplier))
  }

  /** What a finger lifted without a long press does to the bands: a touched
      band cycles, a swipe over no band steps through the table, anything
      else changes nothing. */
  function Released(b: Bands, touched: Option<Role>, swipe: Option<Direction>,
                    fiveSix: bool, tables: Tables): Bands
    requires tables.WellFormed()
  {
    match touched
    case Some(r) => Tap(b, r)
    case None => if swipe.Some? then Swipe(b, fiveSix, swipe.value, tables) else b
  }

  /** A swipe touches only the digit bands and the multiplier; band 3 stays
      put in two-digit mode. */
  lemma SwipeFrame(b: Bands, fiveSix: bool, d: Direction, tables: Tables)
    requires tables.WellFormed()
    ensures Swipe(b, fiveSix, d, tables).tolerance == b.tolerance
    ensures Swipe(b, fiveSix, d, tables).tempCoef == b.tempCoef
    ensures !fiveSix ==> Swipe(b, fiveSix, d, tables).band3 == b.band3
  {
  }

  /** Swiping to Next and back to Previous from a value of a sorted table
      restores every band, multiplier included. */
  lemma SwipeNextThenPrevious(b: Bands, fiveSix: bool, tables: Tables)
    requires tables.WellFormed()
    requires StrictlyIncreasing(SeriesFor(b.tolerance, fiveSix, tables))
    requires DigitKey(b, fiveSix) in SeriesFor(b.tolerance, fiveSix, tables)
    requires IsCycleMultiplier(b.multiplier)
    ensures Swipe(Swipe(b, fiveSix, Next, tables), fiveSix, Previous, tables) == b
  {
    var t := SeriesFor(b.tolerance, fiveSix, tables);
    var i :| 0 <= i < |t| && t[i] == DigitKey(b, fiveSix);
    NextThenPrev(t, i);
    var b' := Swipe(b, fiveSix, Next, tables);
    var s := SwipeStep(b, fiveSix, Next, tables);
    assert DigitKey(b', fiveSix) == s.entry;
    MultiplierStepsInverse(b.multiplier);
    BandOrdinalIsPosition(b.band1);
    BandOrdinalIsPosition(b.band2);
    BandOrdinalIsPosition(b.band3);
  }

  /** And Previous then Next restores them as well. */
  lemma SwipePreviousThenNext(b: Bands, fiveSix: bool, tables: Tables)
    requires tables.WellFormed()
    requires StrictlyIncreasing(SeriesFor(b.tolerance, fiveSix, tables))
    requires DigitKey(b, fiveSix) in SeriesFor(b.tolerance, fiveSix, tables)
    requires IsCycleMultiplier(b.multiplier)
    ensures Swipe(Swipe(b, fiveSix, Previous, tables), fiveSix, Next, tables) == b
  {
    var t := SeriesFor(b.tolerance, fiveSix, tables);
    var i :| 0 <= i < |t| && t[i] == DigitKey(b, fiveSix);
    PrevThenNext(t, i);
    var b' := Swipe(b, fiveSix, Previous, tables);
    var s := SwipeStep(b, fiveSix, Previous, tables);
    assert DigitKey(b', fiveSix) == s.entry;
    MultiplierStepsInverse(b.multiplier);
    BandOrdinalIsPosition(b.band1);
    BandOrdinalIsPosition(b.band2);
    BandOrdinalIsPosition(b.band3);
  }
}
