/** Stepping through an IEC 60063 preferred-number table (E6 … E192), as the
    swipe handlers do with `firstOrNull { it > key }` and
    `lastOrNull { it < key }`. The tables and the ordering of `Pair` and
    `Triple` live in files that are not part of this model: a table is a
    parameter, an entry is the sequence of its significant digits, and the
    order is lexicographic on digit sequences of one width. */
module ESeries {
  import opened Wrappers
  import opened Decimal

  /** The significant digits of a preferred value, most significant first. */
  type Digits = seq<nat>

  /** `a < b` for two entries (Pair or Triple comparison). */
  predicate LexLess(a: Digits, b: Digits) {
    |a| > 0 && |b| > 0 && (a[0] < b[0] || (a[0] == b[0] && LexLess(a[1..], b[1..])))
  }

  predicate IsDigits(d: Digits, width: nat) {
    |d| == width && forall k :: 0 <= k < |d| ==> d[k] < 10
  }

  /** What the swipe code needs of a table: `first()`/`last()` exist, every
      entry has the mode's width and every component indexes BandColors. */
  predicate IsTable(t: seq<Digits>, width: nat) {
    |t| > 0 && forall i :: 0 <= i < |t| ==> IsDigits(t[i], width)
  }

  predicate StrictlyIncreasing(t: seq<Digits>) {
    forall i, j :: 0 <= i < j < |t| ==> LexLess(t[i], t[j])
  }

  /** The six series; E6, E12 and E24 are pairs, E48, E96 and E192 triples. */
  datatype Tables = Tables(e6: seq<Digits>, e12: seq<Digits>, e24: seq<Digits>,
                           e48: seq<Digits>, e96: seq<Digits>, e192: seq<Digits>)
  {
    predicate WellFormed() {
      && IsTable(e6, 2) && IsTable(e12, 2) && IsTable(e24, 2)
      && IsTable(e48, 3) && IsTable(e96, 3) && IsTable(e192, 3)
    }
  }

  // ------------------------------------------------- order of digit tuples

  /** The numeric value of a digit tuple (its digits read in base ten). */
  function Value(d: Digits): nat {
    if d == [] then 0 else d[0] * Pow10(|d| - 1) + Value(d[1..])
  }

  lemma {:induction false} ValueBound(d: Digits)
    requires IsDigits(d, |d|)
    ensures Value(d) < Pow10(|d|)
  {
    if d != [] {
      var p := Pow10(|d| - 1);
      ValueBound(d[1..]);
      MulMonotone(p, d[0], 9);
      assert Value(d) == d[0] * p + Value(d[1..]);
      assert Pow10(|d|) == 10 * p;
    }
  }

  /** Lexicographic order on same-width digit tuples is numeric order, so a
      table sorted by `<` on Pair/Triple is sorted by value. */
  lemma {:induction false} LexLessIsNumericOrder(a: Digits, b: Digits)
    requires |a| == |b| && IsDigits(a, |a|) && IsDigits(b, |b|)
    ensures LexLess(a, b) <==> Value(a) < Value(b)
  {
    if a != [] {
      var p := Pow10(|a| - 1);
      var va, vb := Value(a[1..]), Value(b[1..]);
      assert Value(a) == a[0] * p + va;
      assert Value(b) == b[0] * p + vb;
      LexLessIsNumericOrder(a[1..], b[1..]);
      ValueBound(a[1..]);
      ValueBound(b[1..]);
      if a[0] < b[0] {
        MulMonotone(p, a[0] + 1, b[0]);
        assert (a[0] + 1) * p == a[0] * p + p;
      } else if a[0] > b[0] {
        MulMonotone(p, b[0] + 1, a[0]);
        assert (b[0] + 1) * p == b[0] * p + p;
      }
    }
  }

  lemma {:induction false} LexLessIrreflexive(a: Digits)
    ensures !LexLess(a, a)
  {
    if a != [] {
      LexLessIrreflexive(a[1..]);
    }
  }

  lemma {:induction false} LexLessAsymmetric(a: Digits, b: Digits)
    requires LexLess(a, b)
    ensures !LexLess(b, a)
  {
    if a[0] == b[0] {
      LexLessAsymmetric(a[1..], b[1..]);
    }
  }

  // ------------------------------------------------------------ searching

  /** `indexOfFirst { it > key }`: the first entry above key, if any. */
  function FirstAbove(t: seq<Digits>, key: Digits): (r: Option<nat>)
    ensures r.Some? ==> r.value < |t| && LexLess(key, t[r.value])
                        && forall j :: 0 <= j < r.value ==> !LexLess(key, t[j])
    ensures r.None? ==> forall j :: 0 <= j < |t| ==> !LexLess(key, t[j])
  {
    if t == [] then None
    else if LexLess(key, t[0]) then Some(0)
    else match FirstAbove(t[1..], key)
      case None => None
      case Some(i) => Some(i + 1)
  }

  /** `indexOfLast { it < key }`: the last entry below key, if any. */
  function LastBelow(t: seq<Digits>, key: Digits): (r: Option<nat>)
    ensures r.Some? ==> r.value < |t| && LexLess(t[r.value], key)
                        && forall j :: r.value < j < |t| ==> !LexLess(t[j], key)
    ensures r.None? ==> forall j :: 0 <= j < |t| ==> !LexLess(t[j], key)
  {
    if t == [] then None
    else if LexLess(t[|t| - 1], key) then Some(|t| - 1)
    else LastBelow(t[..|t| - 1], key)
  }

  /** The linear scan of `firstOrNull`. */
  method FindFirstAbove(t: seq<Digits>, key: Digits) returns (r: Option<nat>)
    ensures r == FirstAbove(t, key)
  {
    var i := 0;
    while i < |t| && !LexLess(key, t[i])
      invariant 0 <= i <= |t|
      invariant forall j :: 0 <= j < i ==> !LexLess(key, t[j])
    {
      i := i + 1;
    }
    r := if i < |t| then Some(i) else None;
  }

  /** The linear scan of `lastOrNull`, from the end. */
  method FindLastBelow(t: seq<Digits>, key: Digits) returns (r: Option<nat>)
    ensures r == LastBelow(t, key)
  {
    var i := |t|;
    while i > 0 && !LexLess(t[i - 1], key)
      invariant 0 <= i <= |t|
      invariant forall j :: i <= j < |t| ==> !LexLess(t[j], key)
    {
      i := i - 1;
    }
    r := if i > 0 then Some(i - 1) else None;
  }

  // ------------------------------------------------------------- stepping

  /** The swipe directions: Previous when the finger moved left by more than
      MIN_DISTANCE, Next when it moved right by more than that. */
  datatype Direction = Previous | Next

  const MinDistance: int := 100

  /** The swipe an ACTION_UP at x makes after an ACTION_DOWN at previousX
      (whole pixels here; the source compares floats). */
  function SwipeOf(previousX: int, x: int): Option<Direction> {
    if previousX - x > MinDistance then Some(Previous)
    else if x - previousX > MinDistance then Some(Next)
    else None
  }

  /** Moving the finger the other way swaps the two directions, and a move of
      at most MinDistance either way is no swipe. */
  lemma SwipeOfMirror(previousX: int, x: int)
    ensures SwipeOf(previousX, x) == Some(Previous) <==> SwipeOf(x, previousX) == Some(Next)
    ensures SwipeOf(previousX, x) == None <==> -MinDistance <= x - previousX <= MinDistance
  {
  }

  /** Where a swipe lands, and whether it ran off the end of the table (the
      caller then moves the multiplier one step). */
  datatype Step = Step(entry: Digits, wrapped: bool)

  /** Next: the first entry above key, or the first entry with a wrap. */
  function NextStep(t: seq<Digits>, key: Digits): Step
    requires |t| > 0
  {
    match FirstAbove(t, key)
    case Some(i) => Step(t[i], false)
    case None => Step(t[0], true)
  }

  /** Previous: the last entry below key, or the last entry with a wrap. */
  function PrevStep(t: seq<Digits>, key: Digits): Step
    requires |t| > 0
  {
    match LastBelow(t, key)
    case Some(i) => Step(t[i], false)
    case None => Step(t[|t| - 1], true)
  }

  /** In a sorted table the entry after t[i] is t[i + 1], and there is none
      after the last one. */
  lemma FirstAboveEntry(t: seq<Digits>, i: nat)
    requires StrictlyIncreasing(t) && i < |t|
    ensures FirstAbove(t, t[i]) == if i + 1 < |t| then Some(i + 1) else None
  {
    forall j | 0 <= j <= i ensures !LexLess(t[i], t[j]) {
      if j < i { LexLessAsymmetric(t[j], t[i]); } else { LexLessIrreflexive(t[i]); }
    }
  }

  lemma LastBelowEntry(t: seq<Digits>, i: nat)
    requires StrictlyIncreasing(t) && i < |t|
    ensures LastBelow(t, t[i]) == if i > 0 then Some(i - 1) else None
  {
    forall j | i <= j < |t| ensures !LexLess(t[j], t[i]) {
      if j > i { LexLessAsymmetric(t[i], t[j]); } else { LexLessIrreflexive(t[i]); }
    }
  }

  /** In a sorted table, "next" picks the least entry above key: no entry
      above key lies below the one chosen. Symmetrically for "previous". */
  lemma NextIsLeastAbove(t: seq<Digits>, key: Digits, j: nat)
    requires StrictlyIncreasing(t) && j < |t| && LexLess(key, t[j])
    ensures !NextStep(t, key).wrapped
    ensures NextStep(t, key).entry == t[j] || LexLess(NextStep(t, key).entry, t[j])
  {
  }

  lemma PrevIsGreatestBelow(t: seq<Digits>, key: Digits, j: nat)
    requires StrictlyIncreasing(t) && j < |t| && LexLess(t[j], key)
    ensures !PrevStep(t, key).wrapped
    ensures PrevStep(t, key).entry == t[j] || LexLess(t[j], PrevStep(t, key).entry)
  {
  }

  /** Stepping back after stepping forward from a table entry returns to it,
      and wraps exactly when the forward step wrapped. */
  lemma NextThenPrev(t: seq<Digits>, i: nat)
    requires StrictlyIncreasing(t) && i < |t|
    ensures PrevStep(t, NextStep(t, t[i]).entry) == Step(t[i], NextStep(t, t[i]).wrapped)
    ensures NextStep(t, t[i]).wrapped <==> i == |t| - 1
  {
    FirstAboveEntry(t, i);
    if i + 1 < |t| {
      LastBelowEntry(t, i + 1);
    } else {
      LastBelowEntry(t, 0);
    }
  }

  lemma PrevThenNext(t: seq<Digits>, i: nat)
    requires StrictlyIncreasing(t) && i < |t|
    ensures NextStep(t, PrevStep(t, t[i]).entry) == Step(t[i], PrevStep(t, t[i]).wrapped)
    ensures PrevStep(t, t[i]).wrapped <==> i == 0
  {
    LastBelowEntry(t, i);
    if i > 0 {
      FirstAboveEntry(t, i - 1);
    } else {
      FirstAboveEntry(t, |t| - 1);
    }
  }
}
