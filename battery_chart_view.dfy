/**
 * The battery chart view as a state machine: the fields its event handlers update, the
 * hit test over the slot bounds, the click rule, and what a draw pass decides (which
 * trapezoids are filled in which colour, which curve paths are stroked, which axis labels
 * are written). Pixel coordinates are not computed here; slot bounds come in as values.
 */
module BatteryChartView {
  import opened Wrappers
  import opened BatteryChartViewModel
  import opened BatteryChartRules

  /** MotionEvent action codes the view reacts to. */
  const ActionUp: int := 1
  const ActionCancel: int := 3
  const ActionHoverMove: int := 7
  const ActionHoverEnter: int := 9

  /** Float.MIN_VALUE (2^-149, rounded here to 16 digits): the "no touch-up recorded" marker. */
  const FloatMinValue: real := 0.000000000000000000000000000000000000000000001401298464324817

  /**
   * What a click does: nothing at all, or haptic feedback plus, when a listener is set,
   * the selection reported to it.
   */
  datatype ClickResult = Ignored | Clicked(reported: Option<int>)

  class BatteryChartViewV2 {
    var viewModel: Option<ViewModel>
    /** The label table entry for the current model size; None where the table has none. */
    var labelsIndexes: Option<seq<int>>
    /** The slot bounds; null until a view model is first set. */
    var trapezoidSlots: array?<Slot>
    const trapezoidHOffset: real
    /** Whether slots may be clicked at all (the feature is on and no screen reader runs). */
    var isSlotsClickabled: bool
    /** The view's own clickable state, as `setClickable` leaves it. */
    var clickable: bool
    var hoveredIndex: int
    var touchUpEventX: real
    /** Whether the paint for the non-clickable curve exists. */
    var hasTrapezoidCurvePaint: bool
    var hasSelectListener: bool

    ghost predicate Valid()
      reads this
    {
      (viewModel.Some? ==>
         viewModel.value.Size() >= 1
         && trapezoidSlots != null
         && trapezoidSlots.Length == viewModel.value.Size() - 1
         && labelsIndexes == LabelIndexesFor(viewModel.value.Size()))
      && (hasTrapezoidCurvePaint ==> !isSlotsClickabled)
    }

    constructor (trapezoidHOffset: real)
      ensures Valid()
      ensures viewModel == None && labelsIndexes == None && trapezoidSlots == null
      ensures this.trapezoidHOffset == trapezoidHOffset
      ensures !isSlotsClickabled && !clickable && !hasTrapezoidCurvePaint && !hasSelectListener
      ensures hoveredIndex == SelectedIndexInvalid && touchUpEventX == FloatMinValue
    {
      viewModel := None;
      labelsIndexes := None;
      trapezoidSlots := null;
      this.trapezoidHOffset := trapezoidHOffset;
      isSlotsClickabled := false;
      clickable := false;
      hoveredIndex := SelectedIndexInvalid;
      touchUpEventX := FloatMinValue;
      hasTrapezoidCurvePaint := false;
      hasSelectListener := false;
    }

    /** The view is clickable only when slots may be clicked at all. */
    method SetClickable(c: bool)
      modifies this`clickable
      ensures clickable == (isSlotsClickabled && c)
    {
      clickable := isSlotsClickabled && c;
    }

    method SetOnSelectListener(present: bool)
      modifies this`hasSelectListener
      ensures hasSelectListener == present
    {
      hasSelectListener := present;
    }

    /** Allocates `count` slots with zero bounds; a draw pass fills in the real bounds. */
    method InitializeTrapezoidSlots(count: nat)
      modifies this`trapezoidSlots
      ensures trapezoidSlots != null && fresh(trapezoidSlots) && trapezoidSlots.Length == count
      ensures forall i :: 0 <= i < count ==> trapezoidSlots[i] == Slot(0.0, 0.0)
    {
      var slots := new Slot[count];
      var index := 0;
      while index < count
        invariant 0 <= index <= count
        invariant forall i :: 0 <= i < index ==> slots[i] == Slot(0.0, 0.0)
      {
        slots[index] := Slot(0.0, 0.0);
        index := index + 1;
      }
      trapezoidSlots := slots;
    }

    /**
     * A null model only clears the model. Otherwise the label entry and one slot per pair of
     * neighbouring points are set up, and the view becomes clickable exactly when slots may
     * be clicked and some slot has both levels.
     */
    method SetViewModel(vm: Option<ViewModel>)
      requires Valid()
      requires vm.Some? ==> vm.value.Size() >= 1
      modifies this`viewModel, this`labelsIndexes, this`trapezoidSlots, this`clickable
      ensures Valid()
      ensures viewModel == vm
      ensures vm.None? ==>
        labelsIndexes == old(labelsIndexes) && trapezoidSlots == old(trapezoidSlots)
        && clickable == old(clickable)
      ensures vm.Some? ==>
        labelsIndexes == LabelIndexesFor(vm.value.Size())
        && trapezoidSlots != null && fresh(trapezoidSlots)
        && trapezoidSlots.Length == vm.value.Size() - 1
        && (forall i :: 0 <= i < trapezoidSlots.Length ==> trapezoidSlots[i] == Slot(0.0, 0.0))
        && (clickable <==> isSlotsClickabled && AnyValidTrapezoid(vm.value))
    {
      if vm.None? {
        viewModel := None;
        return;
      }
      viewModel := vm;
      labelsIndexes := LabelIndexesFor(vm.value.Size());
      InitializeTrapezoidSlots(vm.value.Size() - 1);
      var anyValid := HasAnyValidTrapezoid(vm.value);
      SetClickable(anyValid);
    }

    /**
     * Takes in the result of the feature and accessibility queries. The curve paint exists
     * exactly when slots are not clickable; turning slots on sets the model again so that the
     * clickable state is recomputed.
     */
    method UpdateClickableState(slotsEnabled: bool)
      requires Valid()
      modifies this`isSlotsClickabled, this`clickable, this`hasTrapezoidCurvePaint,
        this`viewModel, this`labelsIndexes, this`trapezoidSlots
      ensures Valid()
      ensures isSlotsClickabled == slotsEnabled
      ensures hasTrapezoidCurvePaint == !slotsEnabled
      ensures viewModel == old(viewModel)
      ensures !slotsEnabled ==>
        !clickable && labelsIndexes == old(labelsIndexes) && trapezoidSlots == old(trapezoidSlots)
      ensures slotsEnabled && viewModel.None? ==>
        clickable == old(clickable)
        && labelsIndexes == old(labelsIndexes) && trapezoidSlots == old(trapezoidSlots)
      ensures slotsEnabled && viewModel.Some? ==>
        (clickable <==> AnyValidTrapezoid(viewModel.value))
        && trapezoidSlots != null && fresh(trapezoidSlots)
        && trapezoidSlots.Length == viewModel.value.Size() - 1
        && forall i :: 0 <= i < trapezoidSlots.Length ==> trapezoidSlots[i] == Slot(0.0, 0.0)
    {
      isSlotsClickabled := slotsEnabled;
      SetClickable(clickable);
      if !isSlotsClickabled && !hasTrapezoidCurvePaint {
        hasTrapezoidCurvePaint := true;
      } else if isSlotsClickabled {
        hasTrapezoidCurvePaint := false;
        SetViewModel(viewModel);
      }
    }

    /** A touch-up records its x; a cancel forgets it; other actions change nothing. */
    method OnTouchEvent(action: int, x: real)
      requires Valid()
      modifies this`touchUpEventX
      ensures Valid()
      ensures touchUpEventX ==
        if action == ActionUp then x
        else if action == ActionCancel then FloatMinValue
        else old(touchUpEventX)
    {
      if action == ActionUp {
        touchUpEventX := x;
      } else if action == ActionCancel {
        touchUpEventX := FloatMinValue;
      }
    }

    /** Hit test: the first slot whose bounds, widened by the offset, hold x. */
    method GetTrapezoidIndex(x: real) returns (index: int)
      requires trapezoidSlots != null
      ensures index == TrapezoidIndexAt(trapezoidSlots[..], trapezoidHOffset, x)
      ensures index == SelectedIndexInvalid || 0 <= index < trapezoidSlots.Length
    {
      TrapezoidIndexIsFirstMatch(trapezoidSlots[..], trapezoidHOffset, x);
      var i := 0;
      while i < trapezoidSlots.Length
        invariant 0 <= i <= trapezoidSlots.Length
        invariant FirstHitFrom(trapezoidSlots[..], trapezoidHOffset, x, i)
          == TrapezoidIndexAt(trapezoidSlots[..], trapezoidHOffset, x)
      {
        var slot := trapezoidSlots[i];
        if x >= slot.left - trapezoidHOffset && x <= slot.right + trapezoidHOffset {
          return i;
        }
        i := i + 1;
      }
      return SelectedIndexInvalid;
    }

    /** Hover enter and move track the slot under the pointer; other actions change nothing. */
    method OnHoverEvent(action: int, x: real)
      requires Valid()
      requires action == ActionHoverEnter || action == ActionHoverMove ==> trapezoidSlots != null
      modifies this`hoveredIndex
      ensures Valid()
      ensures action == ActionHoverEnter || action == ActionHoverMove ==>
        hoveredIndex == TrapezoidIndexAt(trapezoidSlots[..], trapezoidHOffset, x)
        && (hoveredIndex == SelectedIndexInvalid || 0 <= hoveredIndex < trapezoidSlots.Length)
      ensures action != ActionHoverEnter && action != ActionHoverMove ==>
        hoveredIndex == old(hoveredIndex)
    {
      if action == ActionHoverEnter || action == ActionHoverMove {
        var trapezoidIndex := GetTrapezoidIndex(x);
        if hoveredIndex != trapezoidIndex {
          hoveredIndex := trapezoidIndex;
        }
      }
    }

    /** When hovering ends no slot is hovered any more. */
    method OnHoverChanged(hovered: bool)
      requires Valid()
      modifies this`hoveredIndex
      ensures Valid()
      ensures hoveredIndex == if hovered then old(hoveredIndex) else SelectedIndexInvalid
    {
      if !hovered {
        hoveredIndex := SelectedIndexInvalid;
      }
    }

    /**
     * A click is ignored without a recorded touch-up or when the touch-up missed every
     * drawable slot. Otherwise it reports every slot when the hit slot is the selected one,
     * and the hit slot when it is not.
     */
    method OnClick() returns (result: ClickResult)
      requires Valid()
      requires touchUpEventX != FloatMinValue ==> trapezoidSlots != null
      ensures touchUpEventX == FloatMinValue ==> result == Ignored
      ensures touchUpEventX != FloatMinValue ==>
        var hit := TrapezoidIndexAt(trapezoidSlots[..], trapezoidHOffset, touchUpEventX);
        if hit == SelectedIndexInvalid || !IsValidToDraw(viewModel, hit) then
          result == Ignored
        else
          result == Clicked(
            if !hasSelectListener then None
            else if hit == viewModel.value.selectedIndex then Some(SelectedIndexAll)
            else Some(hit))
      ensures result.Clicked? && result.reported.Some? ==>
        result.reported.value == SelectedIndexAll || IsValidToDraw(viewModel, result.reported.value)
    {
      if touchUpEventX == FloatMinValue {
        return Ignored;
      }
      var trapezoidIndex := GetTrapezoidIndex(touchUpEventX);
      if trapezoidIndex == SelectedIndexInvalid || !IsValidToDraw(viewModel, trapezoidIndex) {
        return Ignored;
      }
      if hasSelectListener {
        result := Clicked(Some(SelectionAfterClick(viewModel.value.selectedIndex, trapezoidIndex)));
      } else {
        result := Clicked(None);
      }
    }

    /** The text of label `labelIndex`: never out of range for a size the table knows. */
    function GetAxisLabelText(labelIndex: int): string
      reads this
      requires Valid() && viewModel.Some? && labelsIndexes.Some?
      requires |viewModel.value.texts| >= viewModel.value.Size()
      requires 0 <= labelIndex < |labelsIndexes.value|
    {
      AxisLabelsInBounds(viewModel.value.Size(), labelIndex);
      viewModel.value.texts[labelsIndexes.value[labelIndex]]
    }

    /**
     * One draw pass over the slots: every drawable slot, in ascending order, is filled in
     * its colour; with the curve paint present, the curve is stroked as one path per maximal
     * run of drawable slots. Nothing is drawn without a model.
     */
    method DrawTrapezoids() returns (shapes: seq<Trapezoid>, curves: seq<Run>)
      requires Valid()
      ensures viewModel.None? ==> shapes == [] && curves == []
      ensures viewModel.Some? ==>
        shapes == FilledShapes(viewModel.value, isSlotsClickabled, hoveredIndex, viewModel.value.Size() - 1)
        && FilledBelow(viewModel.value, isSlotsClickabled, hoveredIndex, viewModel.value.Size() - 1, shapes)
      ensures hasTrapezoidCurvePaint ==> forall k :: 0 <= k < |shapes| ==> shapes[k].color == Dimmed
      ensures viewModel.Some? && hasTrapezoidCurvePaint ==>
        curves == CurvePaths(DrawableMask(viewModel.value, viewModel.value.Size() - 1))
        && IsRunDecomposition(DrawableMask(viewModel.value, viewModel.value.Size() - 1), curves)
      ensures !hasTrapezoidCurvePaint ==> curves == []
    {
      shapes, curves := [], [];
      if viewModel.None? {
        return;
      }
      var vm := viewModel.value;
      var n := trapezoidSlots.Length;
      ghost var d := DrawableMask(vm, n);
      var curve: Option<Run> := None;
      var index := 0;
      while index < n
        invariant 0 <= index <= n
        invariant shapes == FilledShapes(vm, isSlotsClickabled, hoveredIndex, index)
        invariant !hasTrapezoidCurvePaint ==> curves == [] && curve == None
        invariant hasTrapezoidCurvePaint ==> CurveBuilder(curves, curve) == CurveBefore(d, index)
      {
        if !IsValidToDraw(viewModel, index) {
          if hasTrapezoidCurvePaint && curve.Some? {
            curves := curves + [curve.value];
            curve := None;
          }
        } else {
          var color := TrapezoidColor(vm, isSlotsClickabled, hoveredIndex, index);
          shapes := shapes + [Trapezoid(index, color, vm.levels[index].value, vm.levels[index + 1].value)];
          if hasTrapezoidCurvePaint {
            if curve.None? {
              curve := Some(Run(index, index));
            } else {
              curve := Some(Run(curve.value.first, index));
            }
          }
        }
        index := index + 1;
      }
      if hasTrapezoidCurvePaint && curve.Some? {
        curves := curves + [curve.value];
      }
      FilledShapesFillDrawableSlots(vm, isSlotsClickabled, hoveredIndex, n);
      if hasTrapezoidCurvePaint {
        NotClickableMeansDimmed(vm, hoveredIndex, n);
        CurvePathsAreMaximalRuns(d);
      }
    }

    /**
     * Places the slots at the bounds the layout computed, then writes the axis labels
     * in the order the label position calls for. Returns the positions, within the label
     * table entry, of the labels written.
     */
    method DrawVerticalDividers(bounds: seq<Slot>) returns (labelsDrawn: seq<int>)
      requires Valid()
      requires trapezoidSlots != null && |bounds| == trapezoidSlots.Length
      requires viewModel.Some? ==> labelsIndexes.Some?
      modifies trapezoidSlots
      ensures trapezoidSlots[..] == bounds
      ensures viewModel.None? ==> labelsDrawn == []
      ensures viewModel.Some? && viewModel.value.axisLabelPosition == CenterOfTrapezoids ==>
        |labelsDrawn| == |labelsIndexes.value| - 1
        && forall j :: 0 <= j < |labelsDrawn| ==> labelsDrawn[j] == j
      ensures viewModel.Some? && viewModel.value.axisLabelPosition == BetweenTrapezoids ==>
        |labelsDrawn| == |labelsIndexes.value|
        && labelsDrawn[0] == 0 && labelsDrawn[1] == |labelsIndexes.value| - 1
        && forall j :: 2 <= j < |labelsDrawn| ==> labelsDrawn[j] == j - 1
    {
      var dividerCount := trapezoidSlots.Length + 1;
      var index := 0;
      while index < dividerCount
        invariant 0 <= index <= dividerCount
        invariant forall i :: 0 <= i < index && i < trapezoidSlots.Length ==> trapezoidSlots[i] == bounds[i]
      {
        if index < trapezoidSlots.Length {
          trapezoidSlots[index] := bounds[index];
        }
        index := index + 1;
      }
      labelsDrawn := [];
      if viewModel.Some? {
        var labelCount := |labelsIndexes.value|;
        match viewModel.value.axisLabelPosition {
          case CenterOfTrapezoids =>
            labelsDrawn := DrawAxisLabelsCenterOfTrapezoids(labelCount);
          case BetweenTrapezoids =>
            labelsDrawn := DrawAxisLabelsBetweenTrapezoids(labelCount);
        }
      }
    }
  }

  /** Labels centred under the slots: every label but the last, left to right. */
  method DrawAxisLabelsCenterOfTrapezoids(labelCount: nat) returns (drawn: seq<int>)
    ensures |drawn| == if labelCount == 0 then 0 else labelCount - 1
    ensures forall j :: 0 <= j < |drawn| ==> drawn[j] == j
  {
    drawn := [];
    var index := 0;
    while index < labelCount - 1
      invariant 0 <= index
      invariant |drawn| == index
      invariant index <= if labelCount == 0 then 0 else labelCount - 1
      invariant forall j :: 0 <= j < index ==> drawn[j] == j
    {
      drawn := drawn + [index];
      index := index + 1;
    }
  }

  /** Labels on the dividers: the first, the last, then the ones in between, left to right. */
  method DrawAxisLabelsBetweenTrapezoids(labelCount: nat) returns (drawn: seq<int>)
    requires labelCount >= 1
    ensures |drawn| == if labelCount == 1 then 2 else labelCount
    ensures drawn[0] == 0 && drawn[1] == labelCount - 1
    ensures forall j :: 2 <= j < |drawn| ==> drawn[j] == j - 1
  {
    drawn := [0, labelCount - 1];
    var index := 1;
    while index <= labelCount - 2
      invariant 1 <= index
      invariant index <= if labelCount == 1 then 1 else labelCount - 1
      invariant |drawn| == index + 1
      invariant drawn[0] == 0 && drawn[1] == labelCount - 1
      invariant forall j :: 2 <= j < |drawn| ==> drawn[j] == j - 1
    {
      drawn := drawn + [index];
      index := index + 1;
    }
  }
}
