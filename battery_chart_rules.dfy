/**
 * The side-effect-free rules of the battery chart view: the table of axis labels per model
 * size, which slots can be drawn, hit-testing over the slot bounds, the colour of a slot and
 * the split of the non-clickable curve into runs of drawable slots.
 */
module BatteryChartRules {
  import opened Wrappers
  import opened BatteryChartViewModel

  // ---------------------------------------------------------------------------------------
  // Axis labels
  // ---------------------------------------------------------------------------------------

  predicate StrictlyIncreasing(s: seq<int>) {
    forall i, j :: 0 <= i < j < |s| ==> s[i] < s[j]
  }

  /**
   * A label list fit for a model of `size` points: label positions among the points, from
   * the first point to the last, in increasing order, no more than eight of them.
   */
  predicate LabelIndexesFit(labels: seq<int>, size: int) {
    2 <= |labels| <= 8
    && labels[0] == 0
    && labels[|labels| - 1] == size - 1
    && StrictlyIncreasing(labels)
  }

  /** The fixed table from model size to the indexes of the points that get an axis label. */
  function LabelIndexesMap(): (m: map<int, seq<int>>)
    ensures forall size :: size in m <==> 2 <= size <= 13
    ensures forall size :: size in m ==> LabelIndexesFit(m[size], size)
  {
    map[
      2 := [0, 1],
      3 := [0, 1, 2],
      4 := [0, 1, 2, 3],
      5 := [0, 1, 2, 3, 4],
      6 := [0, 1, 2, 3, 4, 5],
      7 := [0, 1, 2, 3, 4, 5, 6],
      8 := [0, 1, 2, 3, 4, 5, 6, 7],
      9 := [0, 2, 4, 6, 8],
      10 := [0, 3, 6, 9],
      11 := [0, 5, 10],
      12 := [0, 4, 7, 11],
      13 := [0, 4, 8, 12]
    ]
  }

  /** The map lookup: None (a null array) for a size the table has no entry for. */
  function LabelIndexesFor(size: int): (labels: Option<seq<int>>)
    ensures labels.Some? <==> 2 <= size <= 13
    ensures labels.Some? ==> LabelIndexesFit(labels.value, size)
  {
    var m := LabelIndexesMap();
    if size in m then Some(m[size]) else None
  }

  /**
   * Every label of a table entry names a point of the model and has a bounds slot of its
   * own among the eight, so reading the label texts and measuring them stays in range.
   */
  lemma AxisLabelsInBounds(size: int, j: int)
    requires 2 <= size <= 13
    requires 0 <= j < |LabelIndexesFor(size).value|
    ensures j < 8
    ensures 0 <= LabelIndexesFor(size).value[j] < size
  {
    var labels := LabelIndexesFor(size).value;
    assert LabelIndexesFit(labels, size);
    if 0 < j < |labels| - 1 {
      assert labels[0] < labels[j] < labels[|labels| - 1];
    }
  }

  /**
   * The number of axis-label bounds the view allocates: the length of the longest entry of
   * the table, found by a scan over its entries.
   */
  method MaxLabelsLength() returns (n: nat)
    ensures forall size :: size in LabelIndexesMap() ==> |LabelIndexesMap()[size]| <= n
    ensures exists size :: size in LabelIndexesMap() && |LabelIndexesMap()[size]| == n
    ensures n == 8
  {
    var m := LabelIndexesMap();
    assert 2 in m;
    var first :| first in m;
    n := |m[first]|;
    ghost var longest := first;
    var remaining := m.Keys - {first};
    while remaining != {}
      invariant remaining <= m.Keys
      invariant longest in m && |m[longest]| == n
      invariant forall size :: size in m && size !in remaining ==> |m[size]| <= n
      decreases remaining
    {
      var size :| size in remaining;
      if |m[size]| > n {
        n := |m[size]|;
        longest := size;
      }
      remaining := remaining - {size};
    }
    assert |m[8]| == 8;
  }

  // ---------------------------------------------------------------------------------------
  // Drawable slots
  // ---------------------------------------------------------------------------------------

  /** Slot i has a known level at both of its ends. */
  predicate IsTrapezoidValid(vm: ViewModel, i: int)
    requires 0 <= i && i + 1 < vm.Size()
  {
    vm.levels[i].Some? && vm.levels[i + 1].Some?
  }

  /** Slot i exists in a present model and has a known level at both ends. */
  predicate IsValidToDraw(vm: Option<ViewModel>, i: int)
    ensures IsValidToDraw(vm, i) ==> i != SelectedIndexAll && i != SelectedIndexInvalid
  {
    vm.Some? && 0 <= i && i < vm.value.Size() - 1 && IsTrapezoidValid(vm.value, i)
  }

  ghost predicate AnyValidTrapezoid(vm: ViewModel) {
    exists i :: 0 <= i < vm.Size() - 1 && IsTrapezoidValid(vm, i)
  }

  /** Scans the slots in order and stops at the first one that has both levels. */
  method HasAnyValidTrapezoid(vm: ViewModel) returns (r: bool)
    ensures r <==> AnyValidTrapezoid(vm)
    ensures r <==> exists i :: 0 <= i < vm.Size() - 1 && IsValidToDraw(Some(vm), i)
  {
    var i := 0;
    while i < vm.Size() - 1
      invariant 0 <= i
      invariant forall j :: 0 <= j < i && j < vm.Size() - 1 ==> !IsTrapezoidValid(vm, j)
    {
      if IsTrapezoidValid(vm, i) {
        assert IsValidToDraw(Some(vm), i);
        return true;
      }
      i := i + 1;
    }
    return false;
  }

  /** Which slots can be drawn, as a mask over the first `n` slots. */
  function DrawableMask(vm: ViewModel, n: nat): seq<bool> {
    seq(n, i requires 0 <= i < n => IsValidToDraw(Some(vm), i))
  }

  // ---------------------------------------------------------------------------------------
  // Hit-testing
  // ---------------------------------------------------------------------------------------

  /** Left and right x bound of a slot, in pixels. */
  datatype Slot = Slot(left: real, right: real)

  /** x falls on the slot, widened by the horizontal offset on both sides. */
  predicate Hits(slot: Slot, hOffset: real, x: real) {
    slot.left - hOffset <= x <= slot.right + hOffset
  }

  /** The first slot at or after `from` that x hits, or SelectedIndexInvalid. */
  function FirstHitFrom(slots: seq<Slot>, hOffset: real, x: real, from: nat): int
    decreases |slots| - from
  {
    if from >= |slots| then SelectedIndexInvalid
    else if Hits(slots[from], hOffset, x) then from
    else FirstHitFrom(slots, hOffset, x, from + 1)
  }

  /** The slot index that x falls on, as the view's hit test finds it. */
  function TrapezoidIndexAt(slots: seq<Slot>, hOffset: real, x: real): int {
    FirstHitFrom(slots, hOffset, x, 0)
  }

  lemma {:induction false} FirstHitFromIsFirstMatch(slots: seq<Slot>, hOffset: real, x: real, from: nat)
    requires from <= |slots|
    ensures var r := FirstHitFrom(slots, hOffset, x, from);
      (r == SelectedIndexInvalid && forall j :: from <= j < |slots| ==> !Hits(slots[j], hOffset, x))
      || (from <= r < |slots| && Hits(slots[r], hOffset, x)
          && forall j :: from <= j < r ==> !Hits(slots[j], hOffset, x))
    decreases |slots| - from
  {
    if from < |slots| && !Hits(slots[from], hOffset, x) {
      FirstHitFromIsFirstMatch(slots, hOffset, x, from + 1);
    }
  }

  /**
   * The hit test answers the smallest index whose widened interval holds x, and
   * SelectedIndexInvalid exactly when there is none.
   */
  lemma TrapezoidIndexIsFirstMatch(slots: seq<Slot>, hOffset: real, x: real)
    ensures var r := TrapezoidIndexAt(slots, hOffset, x);
      (r == SelectedIndexInvalid <==> forall j :: 0 <= j < |slots| ==> !Hits(slots[j], hOffset, x))
      && (r != SelectedIndexInvalid ==>
            0 <= r < |slots| && Hits(slots[r], hOffset, x)
            && forall j :: 0 <= j < r ==> !Hits(slots[j], hOffset, x))
  {
    FirstHitFromIsFirstMatch(slots, hOffset, x, 0);
  }

  // ---------------------------------------------------------------------------------------
  // Click rule
  // ---------------------------------------------------------------------------------------

  /** Clicking the slot that is already selected selects every slot; any other slot is selected. */
  function SelectionAfterClick(selectedIndex: int, hit: int): int {
    if hit == selectedIndex then SelectedIndexAll else hit
  }

  /**
   * Clicking a slot selects it, and clicking it again once the host has applied that
   * selection selects every slot; one more click selects the slot again.
   */
  lemma ClickTogglesSelection(selectedIndex: int, hit: int)
    requires 0 <= hit && hit != selectedIndex
    ensures SelectionAfterClick(selectedIndex, hit) == hit
    ensures SelectionAfterClick(SelectionAfterClick(selectedIndex, hit), hit) == SelectedIndexAll
    ensures SelectionAfterClick(SelectedIndexAll, hit) == hit
  {
  }

  // ---------------------------------------------------------------------------------------
  // Colours and curve runs
  // ---------------------------------------------------------------------------------------

  /** The fill of a drawn slot: the hover colour, the solid (selected) colour or the dimmed one. */
  datatype SlotColor = Dimmed | Solid | Hover

  /** The colour the view chooses for drawable slot `index`. */
  function TrapezoidColor(vm: ViewModel, slotsClickable: bool, hoveredIndex: int, index: int): SlotColor {
    if slotsClickable && hoveredIndex == index && IsValidToDraw(Some(vm), hoveredIndex) then Hover
    else if slotsClickable && (vm.selectedIndex == index || vm.selectedIndex == SelectedIndexAll) then Solid
    else Dimmed
  }

  /**
   * On a drawable slot: the hover colour exactly when slots are clickable and the slot is
   * the hovered one; otherwise solid exactly when slots are clickable and the slot, or every
   * slot, is selected; dimmed in every other case, in particular whenever slots are not
   * clickable.
   */
  lemma TrapezoidColorMeaning(vm: ViewModel, slotsClickable: bool, hoveredIndex: int, index: int)
    requires IsValidToDraw(Some(vm), index)
    ensures TrapezoidColor(vm, slotsClickable, hoveredIndex, index) == Hover <==>
      slotsClickable && hoveredIndex == index
    ensures TrapezoidColor(vm, slotsClickable, hoveredIndex, index) == Solid <==>
      slotsClickable && hoveredIndex != index
      && (vm.selectedIndex == index || vm.selectedIndex == SelectedIndexAll)
    ensures !slotsClickable ==> TrapezoidColor(vm, slotsClickable, hoveredIndex, index) == Dimmed
  {
  }

  /** A filled trapezoid: the slot, its colour and the levels at its two ends. */
  datatype Trapezoid = Trapezoid(index: nat, color: SlotColor, leftLevel: int, rightLevel: int)

  /** t fills a drawable slot with the levels at its ends and the colour chosen for it. */
  predicate FillsSlot(vm: ViewModel, slotsClickable: bool, hoveredIndex: int, t: Trapezoid) {
    IsValidToDraw(Some(vm), t.index)
    && t.leftLevel == vm.levels[t.index].value
    && t.rightLevel == vm.levels[t.index + 1].value
    && t.color == TrapezoidColor(vm, slotsClickable, hoveredIndex, t.index)
  }

  /**
   * The shapes fill exactly the drawable slots below `index`, one each, in ascending order.
   */
  ghost predicate FilledBelow(vm: ViewModel, slotsClickable: bool, hoveredIndex: int, index: int, shapes: seq<Trapezoid>) {
    (forall k :: 0 <= k < |shapes| ==>
       FillsSlot(vm, slotsClickable, hoveredIndex, shapes[k]) && shapes[k].index < index)
    && (forall k, l :: 0 <= k < l < |shapes| ==> shapes[k].index < shapes[l].index)
    && (forall i {:trigger HasShapeFor(shapes, i)} :: 0 <= i < index && IsValidToDraw(Some(vm), i) ==>
          HasShapeFor(shapes, i))
  }

  /** Some shape fills slot i. */
  predicate HasShapeFor(shapes: seq<Trapezoid>, i: int) {
    exists k :: 0 <= k < |shapes| && shapes[k].index == i
  }

  lemma FillDrawableSlot(vm: ViewModel, slotsClickable: bool, hoveredIndex: int, index: nat, shapes: seq<Trapezoid>)
    requires FilledBelow(vm, slotsClickable, hoveredIndex, index, shapes)
    requires IsValidToDraw(Some(vm), index)
    ensures FilledBelow(vm, slotsClickable, hoveredIndex, index + 1,
      shapes + [Trapezoid(index, TrapezoidColor(vm, slotsClickable, hoveredIndex, index),
                          vm.levels[index].value, vm.levels[index + 1].value)])
  {
    var t := Trapezoid(index, TrapezoidColor(vm, slotsClickable, hoveredIndex, index),
                       vm.levels[index].value, vm.levels[index + 1].value);
    var more := shapes + [t];
    assert forall k :: 0 <= k < |shapes| ==> more[k] == shapes[k];
    assert more[|shapes|] == t;
    forall i | 0 <= i < index + 1 && IsValidToDraw(Some(vm), i)
      ensures HasShapeFor(more, i)
    {
      if i < index {
        assert HasShapeFor(shapes, i);
        var k :| 0 <= k < |shapes| && shapes[k].index == i;
        assert more[k].index == i;
      } else {
        assert more[|shapes|].index == i;
      }
    }
  }

  lemma SkipUndrawableSlot(vm: ViewModel, slotsClickable: bool, hoveredIndex: int, index: nat, shapes: seq<Trapezoid>)
    requires FilledBelow(vm, slotsClickable, hoveredIndex, index, shapes)
    requires !IsValidToDraw(Some(vm), index)
    ensures FilledBelow(vm, slotsClickable, hoveredIndex, index + 1, shapes)
  {
  }

  /** In one draw pass at most one slot gets the hover colour. */
  lemma AtMostOneHoveredShape(vm: ViewModel, slotsClickable: bool, hoveredIndex: int, index: int, shapes: seq<Trapezoid>)
    requires FilledBelow(vm, slotsClickable, hoveredIndex, index, shapes)
    ensures forall k, l :: 0 <= k < l < |shapes| && shapes[k].color == Hover ==> shapes[l].color != Hover
  {
    forall k, l | 0 <= k < l < |shapes| && shapes[k].color == Hover
      ensures shapes[l].color != Hover
    {
      assert FillsSlot(vm, slotsClickable, hoveredIndex, shapes[k]);
      assert FillsSlot(vm, slotsClickable, hoveredIndex, shapes[l]);
      TrapezoidColorMeaning(vm, slotsClickable, hoveredIndex, shapes[k].index);
      TrapezoidColorMeaning(vm, slotsClickable, hoveredIndex, shapes[l].index);
    }
  }

  /**
   * The trapezoids a draw pass fills over the first `index` slots: each drawable slot in
   * turn, in its colour, with the levels at its two ends.
   */
  function FilledShapes(vm: ViewModel, slotsClickable: bool, hoveredIndex: int, index: nat): seq<Trapezoid> {
    if index == 0 then []
    else
      var i := index - 1;
      var before := FilledShapes(vm, slotsClickable, hoveredIndex, i);
      if IsValidToDraw(Some(vm), i) then
        before + [Trapezoid(i, TrapezoidColor(vm, slotsClickable, hoveredIndex, i),
                            vm.levels[i].value, vm.levels[i + 1].value)]
      else before
  }

  /** The pass fills exactly the drawable slots, once each, in ascending order. */
  lemma {:induction false} FilledShapesFillDrawableSlots(vm: ViewModel, slotsClickable: bool, hoveredIndex: int, index: nat)
    ensures FilledBelow(vm, slotsClickable, hoveredIndex, index, FilledShapes(vm, slotsClickable, hoveredIndex, index))
  {
    if index > 0 {
      var i := index - 1;
      FilledShapesFillDrawableSlots(vm, slotsClickable, hoveredIndex, i);
      if IsValidToDraw(Some(vm), i) {
        FillDrawableSlot(vm, slotsClickable, hoveredIndex, i, FilledShapes(vm, slotsClickable, hoveredIndex, i));
      } else {
        SkipUndrawableSlot(vm, slotsClickable, hoveredIndex, i, FilledShapes(vm, slotsClickable, hoveredIndex, i));
      }
    }
  }

  /** When slots cannot be clicked (the only case with a curve), every filled slot is dimmed. */
  lemma NotClickableMeansDimmed(vm: ViewModel, hoveredIndex: int, index: nat)
    ensures forall k :: 0 <= k < |FilledShapes(vm, false, hoveredIndex, index)| ==>
      FilledShapes(vm, false, hoveredIndex, index)[k].color == Dimmed
  {
    var shapes := FilledShapes(vm, false, hoveredIndex, index);
    FilledShapesFillDrawableSlots(vm, false, hoveredIndex, index);
    forall k | 0 <= k < |shapes|
      ensures shapes[k].color == Dimmed
    {
      assert FillsSlot(vm, false, hoveredIndex, shapes[k]);
    }
  }

  /** One curve path, through slots first..last inclusive. */
  datatype Run = Run(first: nat, last: nat)

  predicate InRun(r: Run, i: int) {
    r.first <= i <= r.last
  }

  /** r covers only drawable slots and cannot be extended on either side. */
  predicate IsMaximalRun(d: seq<bool>, r: Run) {
    r.first <= r.last < |d|
    && (forall i :: r.first <= i <= r.last ==> d[i])
    && (r.first == 0 || !d[r.first - 1])
    && (r.last + 1 == |d| || !d[r.last + 1])
  }

  /** Some run covers slot i. */
  predicate CoveredByRun(runs: seq<Run>, i: int) {
    exists k :: 0 <= k < |runs| && InRun(runs[k], i)
  }

  /** The runs are maximal, in ascending order, and together cover every drawable slot. */
  predicate IsRunDecomposition(d: seq<bool>, runs: seq<Run>) {
    (forall k :: 0 <= k < |runs| ==> IsMaximalRun(d, runs[k]))
    && (forall k, l :: 0 <= k < l < |runs| ==> runs[k].last < runs[l].first)
    && (forall i {:trigger CoveredByRun(runs, i)} :: 0 <= i < |d| && d[i] ==> CoveredByRun(runs, i))
  }

  /** Two maximal runs that share a slot are the same run. */
  lemma SameMaximalRun(d: seq<bool>, r: Run, s: Run, i: int)
    requires IsMaximalRun(d, r) && IsMaximalRun(d, s)
    requires InRun(r, i) && InRun(s, i)
    ensures r == s
  {
  }

  /** Every drawable slot lies in exactly one run, and no run covers a slot that is not drawable. */
  lemma EachDrawableSlotInOneRun(d: seq<bool>, runs: seq<Run>, i: int)
    requires IsRunDecomposition(d, runs)
    requires 0 <= i < |d|
    ensures d[i] <==> CoveredByRun(runs, i)
    ensures forall k, l :: 0 <= k < |runs| && 0 <= l < |runs| && InRun(runs[k], i) && InRun(runs[l], i) ==> k == l
  {
    if CoveredByRun(runs, i) {
      var k :| 0 <= k < |runs| && InRun(runs[k], i);
      assert IsMaximalRun(d, runs[k]);
    }
  }

  /**
   * When two decompositions agree before position k, run k of `runs2` starts no later than
   * run k of `runs1`: the first slot of the latter is drawable, so some run of `runs2` holds
   * it, and that run cannot be one of the shared earlier ones.
   */
  lemma RunStartsNoLater(d: seq<bool>, runs1: seq<Run>, runs2: seq<Run>, k: nat)
    requires IsRunDecomposition(d, runs1) && IsRunDecomposition(d, runs2)
    requires k < |runs1| && k < |runs2|
    requires forall j :: 0 <= j < k ==> runs1[j] == runs2[j]
    ensures runs2[k].first <= runs1[k].first
  {
    var a := runs1[k];
    assert IsMaximalRun(d, a) && d[a.first];
    assert CoveredByRun(runs2, a.first);
    var m :| 0 <= m < |runs2| && InRun(runs2[m], a.first);
    if m < k {
      assert false;
    }
  }

  /** Two decompositions of one mask have the same run at every common position. */
  lemma {:induction false} RunDecompositionsAgreeAt(d: seq<bool>, runs1: seq<Run>, runs2: seq<Run>, k: nat)
    requires IsRunDecomposition(d, runs1) && IsRunDecomposition(d, runs2)
    requires k < |runs1| && k < |runs2|
    ensures runs1[k] == runs2[k]
    decreases k
  {
    forall j | 0 <= j < k
      ensures runs1[j] == runs2[j]
    {
      RunDecompositionsAgreeAt(d, runs1, runs2, j);
    }
    RunStartsNoLater(d, runs1, runs2, k);
    RunStartsNoLater(d, runs2, runs1, k);
    assert IsMaximalRun(d, runs1[k]) && IsMaximalRun(d, runs2[k]);
    SameMaximalRun(d, runs1[k], runs2[k], runs1[k].first);
  }

  /** A mask has only one run decomposition: the runs are determined by the drawable slots. */
  lemma RunDecompositionIsUnique(d: seq<bool>, runs1: seq<Run>, runs2: seq<Run>)
    requires IsRunDecomposition(d, runs1) && IsRunDecomposition(d, runs2)
    ensures runs1 == runs2
  {
    forall k | 0 <= k < |runs1| && k < |runs2|
      ensures runs1[k] == runs2[k]
    {
      RunDecompositionsAgreeAt(d, runs1, runs2, k);
    }
    if |runs1| < |runs2| {
      LongerDecompositionImpossible(d, runs1, runs2);
    } else if |runs2| < |runs1| {
      LongerDecompositionImpossible(d, runs2, runs1);
    }
  }

  lemma LongerDecompositionImpossible(d: seq<bool>, short: seq<Run>, long: seq<Run>)
    requires IsRunDecomposition(d, short) && IsRunDecomposition(d, long)
    requires forall k :: 0 <= k < |short| && k < |long| ==> short[k] == long[k]
    ensures |short| >= |long|
  {
    if |short| < |long| {
      var a := long[|short|];
      assert CoveredByRun(short, a.first) by {
        assert IsMaximalRun(d, a) && d[a.first];
      }
    }
  }

  /**
   * The state of the curve after the first `index` slots of `d`: the runs already stroked
   * and the run still open, if the previous slot was drawable.
   */
  ghost predicate CurvesSoFar(d: seq<bool>, index: nat, curves: seq<Run>, open: Option<Run>) {
    index <= |d|
    && (forall k :: 0 <= k < |curves| ==> IsMaximalRun(d, curves[k]) && curves[k].last + 1 < index)
    && (forall k, l :: 0 <= k < l < |curves| ==> curves[k].last < curves[l].first)
    && (open.Some? ==>
          open.value.first <= open.value.last == index - 1
          && (forall i :: open.value.first <= i < index ==> d[i])
          && (open.value.first == 0 || !d[open.value.first - 1])
          && (forall k :: 0 <= k < |curves| ==> curves[k].last < open.value.first))
    && (open.None? ==> index == 0 || !d[index - 1])
    && (forall i {:trigger CoveredByRun(curves, i)} :: 0 <= i < index && d[i] ==>
          CoveredByRun(curves, i) || (open.Some? && open.value.first <= i))
  }

  /** The stroked paths plus the open run, as one list of runs. */
  function WithOpenRun(curves: seq<Run>, open: Option<Run>): seq<Run> {
    if open.Some? then curves + [open.value] else curves
  }

  /** A slot that cannot be drawn strokes the open run, if any, and leaves no run open. */
  lemma CloseRunAtGap(d: seq<bool>, index: nat, curves: seq<Run>, open: Option<Run>)
    requires CurvesSoFar(d, index, curves, open)
    requires index < |d| && !d[index]
    ensures CurvesSoFar(d, index + 1, WithOpenRun(curves, open), None)
  {
    var closed := WithOpenRun(curves, open);
    assert forall k :: 0 <= k < |curves| ==> closed[k] == curves[k];
    if open.Some? {
      assert IsMaximalRun(d, closed[|curves|]);
      forall i | 0 <= i < index + 1 && d[i]
        ensures CoveredByRun(closed, i)
      {
        if open.value.first <= i {
          assert InRun(closed[|curves|], i);
        } else {
          assert CoveredByRun(curves, i);
          var k :| 0 <= k < |curves| && InRun(curves[k], i);
          assert InRun(closed[k], i);
        }
      }
    }
  }

  /** A drawable slot opens a run or extends the open one. */
  lemma ExtendRunAt(d: seq<bool>, index: nat, curves: seq<Run>, open: Option<Run>)
    requires CurvesSoFar(d, index, curves, open)
    requires index < |d| && d[index]
    ensures CurvesSoFar(d, index + 1, curves,
      Some(if open.None? then Run(index, index) else Run(open.value.first, index)))
  {
  }

  /** After the last slot, the stroked paths and the open run are the run decomposition of `d`. */
  lemma CurvesAtEnd(d: seq<bool>, curves: seq<Run>, open: Option<Run>)
    requires CurvesSoFar(d, |d|, curves, open)
    ensures IsRunDecomposition(d, WithOpenRun(curves, open))
  {
    var all := WithOpenRun(curves, open);
    assert forall k :: 0 <= k < |curves| ==> all[k] == curves[k];
    if open.Some? {
      assert IsMaximalRun(d, all[|curves|]);
      forall i | 0 <= i < |d| && d[i]
        ensures CoveredByRun(all, i)
      {
        if open.value.first <= i {
          assert InRun(all[|curves|], i);
        } else {
          assert CoveredByRun(curves, i);
          var k :| 0 <= k < |curves| && InRun(curves[k], i);
          assert InRun(all[k], i);
        }
      }
    }
  }

  /** The curve while a pass draws: the paths already stroked and the path still open. */
  datatype CurveBuilder = CurveBuilder(stroked: seq<Run>, open: Option<Run>)

  /** Visiting slot `index`: a gap strokes the open path; a drawable slot opens or extends it. */
  function CurveStep(b: CurveBuilder, index: nat, drawable: bool): CurveBuilder {
    if !drawable then CurveBuilder(WithOpenRun(b.stroked, b.open), None)
    else CurveBuilder(b.stroked,
      Some(if b.open.None? then Run(index, index) else Run(b.open.value.first, index)))
  }

  /** The curve after the first `index` slots of the mask were visited. */
  function CurveBefore(d: seq<bool>, index: nat): CurveBuilder
    requires index <= |d|
  {
    if index == 0 then CurveBuilder([], None)
    else CurveStep(CurveBefore(d, index - 1), index - 1, d[index - 1])
  }

  /** The paths a pass strokes: those closed at gaps, then the one still open after the last slot. */
  function CurvePaths(d: seq<bool>): seq<Run> {
    var b := CurveBefore(d, |d|);
    WithOpenRun(b.stroked, b.open)
  }

  lemma {:induction false} CurveBeforeSoFar(d: seq<bool>, index: nat)
    requires index <= |d|
    ensures CurvesSoFar(d, index, CurveBefore(d, index).stroked, CurveBefore(d, index).open)
  {
    if index > 0 {
      CurveBeforeSoFar(d, index - 1);
      var b := CurveBefore(d, index - 1);
      if d[index - 1] {
        ExtendRunAt(d, index - 1, b.stroked, b.open);
      } else {
        CloseRunAtGap(d, index - 1, b.stroked, b.open);
      }
    }
  }

  /** The stroked paths are exactly the maximal runs of drawable slots, in ascending order. */
  lemma CurvePathsAreMaximalRuns(d: seq<bool>)
    ensures IsRunDecomposition(d, CurvePaths(d))
  {
    CurveBeforeSoFar(d, |d|);
    var b := CurveBefore(d, |d|);
    CurvesAtEnd(d, b.stroked, b.open);
  }
}
