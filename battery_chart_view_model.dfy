/**
 * The view model the battery chart draws. The class itself lives outside this model; the
 * chart relies only on what is stated here: one optional level per point, the label texts,
 * the selected index (a slot index or one of two sentinels) and where the axis labels go.
 */
module BatteryChartViewModel {
  import opened Wrappers

  /** Where the axis labels are placed relative to the trapezoids. */
  datatype AxisLabelPosition = CenterOfTrapezoids | BetweenTrapezoids

  /** Selected index meaning "every slot is selected". */
  const SelectedIndexAll: int := -1

  /** Selected index meaning "no slot" (also the result of a hit test that hits nothing). */
  const SelectedIndexInvalid: int := -2

  /**
   * A chart of `Size()` points; slot i is the trapezoid between points i and i + 1,
   * so there are `Size() - 1` slots. A level is None where the battery level is unknown.
   */
  datatype ViewModel = ViewModel(
    levels: seq<Option<int>>,
    texts: seq<string>,
    selectedIndex: int,
    axisLabelPosition: AxisLabelPosition)
  {
    function Size(): nat { |levels| }
  }

  /** The two sentinels differ from each other and from every slot index. */
  lemma SentinelsAreNotSlots(vm: ViewModel, i: int)
    requires 0 <= i < vm.Size() - 1
    ensures SelectedIndexAll != SelectedIndexInvalid
    ensures i != SelectedIndexAll && i != SelectedIndexInvalid
  {
  }
}
