/** The resistor screen of MainActivity.kt as an object: the band states, the
    mode flags, the views that play the multiplier and tolerance roles, and
    the text under the resistor. The touch, long-click and menu handlers are
    its methods; each is proved against the pure transitions of
    ResistorBands and the decoder of OhmsDecoder. */
module Resistor {
  import opened Wrappers
  import opened Colors
  import opened Decimal
  import opened ESeries
  import opened ResistorBands
  import opened OhmsDecoder

  class ResistorScreen {
    var band1: BandColor
    var band2: BandColor
    var band3: BandColor
    var multiplier: MultiplierBandColor
    var tolerance: ToleranceBandColor
    var tempCoef: TempCoefBandColor
    /** `touchedBand`, with -1 as None. */
    var touchedBand: Option<Role>
    var hadNoLongPress: bool
    var fiveSixBands: bool
    var sixBands: bool
    /** The views `bandMultiplier` and `bandTolerance` refer to. */
    var multiplierSlot: Slot
    var toleranceSlot: Slot
    /** The tint last given to the body; None until the first update. */
    var body: Option<BodyColor>
    /** The text of ohms_text_view. */
    var display: string
    /** The E-series tables e6 … e192. */
    const tables: Tables

    /** The six band states as one value. */
    function Current(): Bands
      reads this
    {
      Bands(band1, band2, band3, multiplier, tolerance, tempCoef)
    }

    /** What holds between events: the mode follows the tolerance, the two
        movable roles sit in the views the mode gives them, the body tint
        (once set) follows the tolerance and the text shows the bands. */
    predicate Valid()
      reads this
    {
      Layout() && Shows()
    }

    predicate Layout()
      reads this
    {
      && tables.WellFormed()
      && fiveSixBands == FiveSixBandsFor(tolerance)
      && multiplierSlot == MultiplierSlotFor(fiveSixBands)
      && toleranceSlot == ToleranceSlotFor(fiveSixBands, sixBands)
      && (body == Option.None || body == Some(DecodeBodyColor(tolerance)))
    }

    predicate Shows()
      reads this
    {
      display == OhmsDisplay(Current(), fiveSixBands, sixBands)
    }

    /** onCreate: the initial bands in four-band mode, decoded once. */
    constructor (tables: Tables)
      requires tables.WellFormed()
      ensures Valid() && this.tables == tables
      ensures (Current(), fiveSixBands, sixBands, touchedBand, hadNoLongPress, body)
              == (InitialBands, false, false, Option.None, true, Option.None)
    {
      band1 := BandColor.Blue;
      band2 := BandColor.Grey;
      band3 := BandColor.Green;
      multiplier := MultiplierBandColor.Red;
      tolerance := ToleranceBandColor.Gold;
      tempCoef := TempCoefBandColor.Black;
      touchedBand := Option.None;
      hadNoLongPress := true;
      fiveSixBands := false;
      sixBands := false;
      multiplierSlot := Slot.Band3;
      toleranceSlot := Slot.Band6;
      body := Option.None;
      display := "";
      this.tables := tables;
      new;
      assert Layout();
      DecodeOhms();
    }

    /** decodeOhms: scales the resistance by its prefix in place and writes
        the text. */
    method DecodeOhms()
      modifies this`display
      ensures display == OhmsDisplay(Current(), fiveSixBands, sixBands)
    {
      var thousandths, prefix := ScaleOhms(Current(), fiveSixBands);
      var tol := ToleranceText(tolerance);
      var tc := TempCoefText(tempCoef);
      if fiveSixBands && sixBands {
        display := OhmsLine(thousandths, prefix, tol) + ("\n" + tc + "ppm/K");
      } else {
        display := OhmsLine(thousandths, prefix, tol);
      }
    }

    /** The first half of decodeOhms: the resistance from the digits and
        the multiplier, and the `when` over floor(log10(ohms)) + 1 that
        divides it by its prefix. The source keeps the scaled value as a
        Double; here it is the shown number in thousandths, exact. */
    static method ScaleOhms(b: Bands, fiveSix: bool) returns (thousandths: nat, prefix: string)
      ensures var r := ReadingOf(Milliohms(b, fiveSix));
        thousandths == r.thousandths && prefix == PrefixName(r.prefix)
    {
      var milli := Significand(b, fiveSix) * Pow10(MultiplierOrdinal(b.multiplier));
      var k := PrefixIndex(DigitCount(milli / 1000));
      ReadingOfByDivision(milli);
      if k == 0 {
        thousandths, prefix := milli, "";
      } else if k == 1 {
        thousandths, prefix := milli / 1000, "K";
      } else if k == 2 {
        thousandths, prefix := milli / 1000000, "M";
      } else {
        thousandths, prefix := milli / 1000000000, "G";
      }
    }

    /** The first line of the text: the number, the prefix, the ohm sign and
        the tolerance in percent. */
    static function OhmsLine(thousandths: nat, prefix: string, tol: string): string {
      FormatDecimal(thousandths, 3) + " " + prefix + "Ω ±" + tol + "%"
    }

    /** updateBandTolerance: re-derives the mode from the tolerance, moves
        the multiplier and tolerance to their views and tints the body. */
    method UpdateBandTolerance()
      requires multiplierSlot == Slot.Band3 || multiplierSlot == Slot.Band4
      requires toleranceSlot == Slot.Band5 || toleranceSlot == Slot.Band6
      modifies this`fiveSixBands, this`multiplierSlot, this`toleranceSlot, this`body
      ensures fiveSixBands == FiveSixBandsFor(tolerance)
      ensures multiplierSlot == MultiplierSlotFor(fiveSixBands)
      ensures toleranceSlot == ToleranceSlotFor(fiveSixBands, sixBands)
      ensures body == Some(DecodeBodyColor(tolerance))
    {
      match tolerance {
        case None | Silver | Gold =>
          if multiplierSlot == Slot.Band4 {
            multiplierSlot := Slot.Band3;
          }
          fiveSixBands := false;
        case _ =>
          multiplierSlot := Slot.Band4;
          fiveSixBands := true;
      }
      if sixBands && fiveSixBands {
        toleranceSlot := Slot.Band5;
      } else {
        if toleranceSlot == Slot.Band5 {
          toleranceSlot := Slot.Band6;
        }
      }
      body := Some(DecodeBodyColor(tolerance));
      BodyColorMatchesMode(tolerance);
    }

    /** updateAll: the mode and views first, then the text. */
    method UpdateAll()
      requires tables.WellFormed()
      requires multiplierSlot == Slot.Band3 || multiplierSlot == Slot.Band4
      requires toleranceSlot == Slot.Band5 || toleranceSlot == Slot.Band6
      modifies this`fiveSixBands, this`multiplierSlot, this`toleranceSlot, this`body, this`display
      ensures Valid()
      ensures body.Some?
    {
      UpdateBandTolerance();
      DecodeOhms();
    }

    /** bandClicked for one view, once the hit test has told which views are
        opaque under the finger; `views` are the views the chain has still to
        ask, v first. */
    method BandClicked(underFinger: set<Slot>, v: Slot, ghost views: seq<Slot>) returns (stop: bool)
      modifies this`touchedBand
      requires multiplierSlot == MultiplierSlotFor(fiveSixBands)
      requires toleranceSlot == ToleranceSlotFor(fiveSixBands, sixBands)
      requires views != [] && views[0] == v
      ensures v in underFinger ==> (touchedBand, stop) == ViewHit(v, fiveSixBands, sixBands)
      ensures v !in underFinger ==> touchedBand == old(touchedBand) && !stop
      ensures Cascade(views, underFinger, fiveSixBands, sixBands, old(touchedBand))
              == if stop then touchedBand else Cascade(views[1..], underFinger, fiveSixBands, sixBands, touchedBand)
    {
      if v !in underFinger {
        return false;
      }
      if !fiveSixBands && v == Slot.Band3 {
        touchedBand := Some(Role.Multiplier);
        return false;
      }
      if !(fiveSixBands && sixBands) && v == Slot.Band6 {
        touchedBand := Some(Role.Tolerance);
        return false;
      }
      touchedBand :=
        if v == Slot.Band1 then Some(Role.Digit1)
        else if v == Slot.Band2 then Some(Role.Digit2)
        else if v == Slot.Band3 then Some(Role.Digit3)
        else if v == multiplierSlot then Some(Role.Multiplier)
        else if v == Slot.Band6 then Some(Role.TempCoef)
        else if v == toleranceSlot then Some(Role.Tolerance)
        else Option.None;
      return true;
    }

    /** ACTION_DOWN: forgets the last touch, re-arms the tap and asks the
        views which band is under the finger. */
    method ActionDown(underFinger: set<Slot>)
      requires Valid()
      modifies this`touchedBand, this`hadNoLongPress
      ensures Valid()
      ensures touchedBand == TouchedBand(underFinger, fiveSixBands, sixBands)
      ensures hadNoLongPress
    {
      touchedBand := Option.None;
      hadNoLongPress := true;
      HitTest(underFinger);
    }

    /** The chain of bandClicked calls, tolerance view first, stopping at
        the first call that returns true. */
    method HitTest(underFinger: set<Slot>)
      requires multiplierSlot == MultiplierSlotFor(fiveSixBands)
      requires toleranceSlot == ToleranceSlotFor(fiveSixBands, sixBands)
      requires touchedBand == Option.None
      modifies this`touchedBand
      ensures touchedBand == TouchedBand(underFinger, fiveSixBands, sixBands)
    {
      ghost var views := HitOrder(fiveSixBands, sixBands);
      var stop := BandClicked(underFinger, toleranceSlot, views);
      if !stop {
        views := views[1..];
        stop := BandClicked(underFinger, Slot.Band6, views);
        if !stop {
          views := views[1..];
          stop := BandClicked(underFinger, multiplierSlot, views);
          if !stop {
            views := views[1..];
            stop := BandClicked(underFinger, Slot.Band3, views);
            if !stop {
              views := views[1..];
              stop := BandClicked(underFinger, Slot.Band2, views);
              if !stop {
                views := views[1..];
                stop := BandClicked(underFinger, Slot.Band1, views);
              }
            }
          }
        }
      }
    }

    /** ACTION_UP without a long press: the bands change as the touch or the
        swipe says, then everything is updated. After a long press nothing
        changes. */
    method ActionUp(swipe: Option<Direction>)
      requires Valid()
      modifies this`band1, this`band2, this`band3, this`multiplier, this`tolerance, this`tempCoef
      modifies this`fiveSixBands, this`multiplierSlot, this`toleranceSlot, this`body, this`display
      ensures Valid()
      ensures old(hadNoLongPress) ==>
        Current() == Released(old(Current()), old(touchedBand), swipe, old(fiveSixBands), tables)
      ensures !old(hadNoLongPress) ==> Current() == old(Current()) && body == old(body)
    {
      if hadNoLongPress {
        Release(swipe);
        UpdateAll();
      }
    }

    /** The `when (touchedBand)` of ACTION_UP: a touched band cycles,
        otherwise a swipe steps through the table. */
    method Release(swipe: Option<Direction>)
      requires tables.WellFormed()
      modifies this`band1, this`band2, this`band3, this`multiplier, this`tolerance, this`tempCoef
      ensures Current() == Released(old(Current()), touchedBand, swipe, fiveSixBands, tables)
    {
      match touchedBand {
        case Some(Digit1) => band1 := NextColor(band1);
        case Some(Digit2) => band2 := NextColor(band2);
        case Some(Digit3) => band3 := NextColor(band3);
        case Some(Multiplier) => multiplier := NextMultiplierColor(multiplier);
        case Some(TempCoef) => tempCoef := NextTempCoefColor(tempCoef);
        case Some(Tolerance) => tolerance := NextToleranceColor(tolerance);
        case None =>
          if swipe.Some? {
            SwipeBands(swipe.value);
          }
      }
    }

    /** The swipe branch of ACTION_UP: `lastOrNull { it < key }` or
        `firstOrNull { it > key }` over the table the tolerance selects, the
        end of the table and a multiplier step when there is none. */
    method SwipeBands(d: Direction)
      requires tables.WellFormed()
      modifies this`band1, this`band2, this`band3, this`multiplier
      ensures Current() == Swipe(old(Current()), fiveSixBands, d, tables)
    {
      var l := SeriesFor(tolerance, fiveSixBands, tables);
      SeriesForMode(tolerance, fiveSixBands, tables);
      var key := DigitKey(Current(), fiveSixBands);
      var entry: Digits;
      if d == Previous {
        var found := FindLastBelow(l, key);
        if found.Some? {
          entry := l[found.value];
        } else {
          multiplier := PrevMultiplierColor(multiplier);
          entry := l[|l| - 1];
        }
      } else {
        var found := FindFirstAbove(l, key);
        if found.Some? {
          entry := l[found.value];
        } else {
          multiplier := NextMultiplierColor(multiplier);
          entry := l[0];
        }
      }
      assert entry in l;
      band1 := BandAt(entry[0]);
      band2 := BandAt(entry[1]);
      if fiveSixBands {
        band3 := BandAt(entry[2]);
      }
    }

    /** The long-click listener: no tap follows, and the popup offered is
        that of the touched band, if any. */
    method LongClick() returns (popup: Option<Role>)
      requires Valid()
      modifies this`hadNoLongPress
      ensures Valid()
      ensures !hadNoLongPress && popup == touchedBand
    {
      hadNoLongPress := false;
      popup := touchedBand;
    }

    /** A colour chosen from the digit popup of band 1, 2 or 3; an item the
        popup does not know keeps the band as it was. */
    method SelectDigit(r: Role, item: Option<BandColor>)
      requires Valid() && (r == Role.Digit1 || r == Role.Digit2 || r == Role.Digit3)
      modifies this`band1, this`band2, this`band3, this`fiveSixBands, this`multiplierSlot, this`toleranceSlot, this`body, this`display
      ensures Valid()
      ensures Current() == match r
        case Digit1 => old(Current()).(band1 := item.GetOr(old(band1)))
        case Digit2 => old(Current()).(band2 := item.GetOr(old(band2)))
        case _ => old(Current()).(band3 := item.GetOr(old(band3)))
    {
      var c := item.GetOr(if r == Role.Digit1 then band1 else if r == Role.Digit2 then band2 else band3);
      if r == Role.Digit1 {
        band1 := c;
      } else if r == Role.Digit2 {
        band2 := c;
      } else {
        band3 := c;
      }
      UpdateAll();
    }

    /** A colour chosen from the multiplier popup (the 3/4-band and 5/6-band
        menus offer the same thirteen colours). */
    method SelectMultiplier(item: Option<MultiplierBandColor>)
      requires Valid()
      modifies this`multiplier, this`fiveSixBands, this`multiplierSlot, this`toleranceSlot, this`body, this`display
      ensures Valid()
      ensures Current() == old(Current()).(multiplier := item.GetOr(old(multiplier)))
    {
      multiplier := item.GetOr(multiplier);
      UpdateAll();
    }

    /** A colour chosen from the temperature-coefficient popup. */
    method SelectTempCoef(item: Option<TempCoefBandColor>)
      requires Valid()
      modifies this`tempCoef, this`fiveSixBands, this`multiplierSlot, this`toleranceSlot, this`body, this`display
      ensures Valid()
      ensures Current() == old(Current()).(tempCoef := item.GetOr(old(tempCoef)))
    {
      tempCoef := item.GetOr(tempCoef);
      UpdateAll();
    }

    /** A colour chosen from the tolerance popup; the mode follows it. */
    method SelectTolerance(item: Option<ToleranceBandColor>)
      requires Valid()
      modifies this`tolerance, this`fiveSixBands, this`multiplierSlot, this`toleranceSlot, this`body, this`display
      ensures Valid()
      ensures Current() == old(Current()).(tolerance := item.GetOr(old(tolerance)))
      ensures fiveSixBands == !(item.GetOr(old(tolerance)) in {ToleranceBandColor.None, ToleranceBandColor.Silver, ToleranceBandColor.Gold})
    {
      tolerance := item.GetOr(tolerance);
      UpdateAll();
    }

    /** The menu_num_bands item: flips six-band mode, moving the tolerance
        to band_5 or back to band_6, and updates everything. */
    method ToggleSixBands()
      requires Valid()
      modifies this`sixBands, this`fiveSixBands, this`multiplierSlot, this`toleranceSlot, this`body, this`display
      ensures Valid()
      ensures sixBands == !old(sixBands) && fiveSixBands == old(fiveSixBands)
      ensures toleranceSlot == if fiveSixBands && sixBands then Slot.Band5 else Slot.Band6
    {
      if !sixBands {
        sixBands := true;
        toleranceSlot := Slot.Band5;
      } else {
        sixBands := false;
        if toleranceSlot == Slot.Band5 {
          toleranceSlot := Slot.Band6;
        }
      }
      UpdateAll();
    }
  }
}
