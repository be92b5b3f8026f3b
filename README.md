# Battery chart and roaming dialog: a Dafny model

This project models two pieces of the Android Settings app and proves properties about them.

**The battery usage chart view (`BatteryChartViewV2`).** The model keeps its decision logic and drops the drawing:
- the table that maps a model size to the points that get an axis label;
- which slots (trapezoids between neighbouring points) can be drawn;
- the first-match hit test over the slot bounds;
- the click rule, where clicking the selected slot selects all;
- the touch and hover bookkeeping;
- the clickable state;
- the colour of each filled slot;
- the split of the non-clickable curve into one path per maximal run of drawable slots.

The view is a class whose fields the event handlers update. The slot bounds are an array that the divider pass writes in place. A draw pass returns what it fills and strokes, as values, instead of painting them.

**The roaming dialog (`RoamingDialogFragment`).** The model covers:
- how the constructor arguments travel through the argument bundle into the fragment's fields;
- which title and message the dialog shows;
- which data-roaming change a button press makes.

The carrier configuration service and the telephony manager are inputs. The roaming change is an output.

Modules:
- `Wrappers`: `Option`.
- `BatteryChartViewModel`: the view model the chart reads. Its class is not part of this model. Only its shape and its two sentinel indexes are stated.
- `BatteryChartRules`: the side-effect-free rules of the chart and the reference definitions the draw pass is proved against.
- `BatteryChartView`: the view class, its event handlers and its draw passes.
- `RoamingDialog`: the bundle, the dialog text table, the click action and the fragment class.

## Model

| member | source | states |
|---|---|---|
| BatteryChartViewModel.SentinelsAreNotSlots | src/com/android/settings/fuelgauge/batteryusage/BatteryChartViewV2.java:252-262 | SELECTED_INDEX_ALL and SELECTED_INDEX_INVALID differ from each other and from every slot index in [0, size-1) |
| BatteryChartRules.LabelIndexesMap | src/com/android/settings/fuelgauge/batteryusage/BatteryChartViewV2.java:615-630 | the table has an entry exactly for sizes 2..13; each entry starts at 0, ends at size-1, strictly increases and has 2 to 8 labels |
| BatteryChartRules.LabelIndexesFor | src/com/android/settings/fuelgauge/batteryusage/BatteryChartViewV2.java:141 | the lookup yields a list exactly for sizes 2..13 (null otherwise), and that list fits the size |
| BatteryChartRules.AxisLabelsInBounds | src/com/android/settings/fuelgauge/batteryusage/BatteryChartViewV2.java:558-560 | every label position j of an entry is below 8 (the number of label bounds) and names a point in [0, size) |
| BatteryChartRules.MaxLabelsLength | src/com/android/settings/fuelgauge/batteryusage/BatteryChartViewV2.java:632-640 | the scan returns the length of the longest entry (no entry is longer, one has that length), which is 8 |
| BatteryChartRules.IsValidToDraw | src/com/android/settings/fuelgauge/batteryusage/BatteryChartViewV2.java:562-573 | a drawable index is never one of the two sentinels |
| BatteryChartRules.HasAnyValidTrapezoid | src/com/android/settings/fuelgauge/batteryusage/BatteryChartViewV2.java:575-583 | the early-return scan answers true iff some slot in [0, size-1) has both levels, i.e. iff some slot is drawable |
| BatteryChartRules.FirstHitFromIsFirstMatch | src/com/android/settings/fuelgauge/batteryusage/BatteryChartViewV2.java:547-556 | scanning from `from`, the result is INVALID with no hit at or after `from`, or the first hitting index |
| BatteryChartRules.TrapezoidIndexIsFirstMatch | src/com/android/settings/fuelgauge/batteryusage/BatteryChartViewV2.java:547-556 | the hit test is INVALID iff no widened interval [left-h, right+h] holds x; otherwise it is the smallest index whose interval holds x |
| BatteryChartRules.ClickTogglesSelection | src/com/android/settings/fuelgauge/batteryusage/BatteryChartViewV2.java:257-262 | clicking an unselected slot selects it; clicking it again selects ALL; once more selects it again |
| BatteryChartRules.TrapezoidColorMeaning | src/com/android/settings/fuelgauge/batteryusage/BatteryChartViewV2.java:505-511 | on a drawable slot: hover colour iff clickable and hovered; solid iff clickable, not hovered and the slot or ALL is selected; dimmed whenever not clickable |
| BatteryChartRules.FillDrawableSlot | src/com/android/settings/fuelgauge/batteryusage/BatteryChartViewV2.java:496-527 | filling a drawable slot with its colour and levels extends "exactly the drawable slots below index, ascending" by one slot |
| BatteryChartRules.SkipUndrawableSlot | src/com/android/settings/fuelgauge/batteryusage/BatteryChartViewV2.java:496-503 | skipping an undrawable slot keeps that property one slot further |
| BatteryChartRules.AtMostOneHoveredShape | src/com/android/settings/fuelgauge/batteryusage/BatteryChartViewV2.java:508-511 | in one pass at most one filled slot gets the hover colour |
| BatteryChartRules.FilledShapesFillDrawableSlots | src/com/android/settings/fuelgauge/batteryusage/BatteryChartViewV2.java:495-528 | the pass's fills are exactly the drawable slots, one each, ascending, each in its chosen colour with the levels at its two ends |
| BatteryChartRules.NotClickableMeansDimmed | src/com/android/settings/fuelgauge/batteryusage/BatteryChartViewV2.java:505-511 | when slots are not clickable every filled slot is dimmed |
| BatteryChartRules.SameMaximalRun | src/com/android/settings/fuelgauge/batteryusage/BatteryChartViewV2.java:494-543 | two maximal runs of drawable slots that share a slot are the same run |
| BatteryChartRules.EachDrawableSlotInOneRun | src/com/android/settings/fuelgauge/batteryusage/BatteryChartViewV2.java:494-543 | in a run decomposition a slot is covered iff it is drawable, and by exactly one run |
| BatteryChartRules.RunStartsNoLater | src/com/android/settings/fuelgauge/batteryusage/BatteryChartViewV2.java:494-543 | when two decompositions of a mask agree before position k, run k of one starts no later than run k of the other |
| BatteryChartRules.RunDecompositionsAgreeAt | src/com/android/settings/fuelgauge/batteryusage/BatteryChartViewV2.java:494-543 | two run decompositions of one mask agree at every common position |
| BatteryChartRules.LongerDecompositionImpossible | src/com/android/settings/fuelgauge/batteryusage/BatteryChartViewV2.java:494-543 | a decomposition that agrees with another on its prefix is not shorter than it |
| BatteryChartRules.RunDecompositionIsUnique | src/com/android/settings/fuelgauge/batteryusage/BatteryChartViewV2.java:494-543 | the run decomposition of a mask is unique, so "the maximal runs in ascending order" names one sequence of paths |
| BatteryChartRules.CloseRunAtGap | src/com/android/settings/fuelgauge/batteryusage/BatteryChartViewV2.java:496-501 | at an undrawable slot, stroking the open path (if any) and closing it keeps the curve state correct one slot further |
| BatteryChartRules.ExtendRunAt | src/com/android/settings/fuelgauge/batteryusage/BatteryChartViewV2.java:529-537 | at a drawable slot, opening a new path or extending the open one keeps the curve state correct one slot further |
| BatteryChartRules.CurvesAtEnd | src/com/android/settings/fuelgauge/batteryusage/BatteryChartViewV2.java:540-543 | after the last slot, stroking the open path yields exactly the maximal runs in ascending order |
| BatteryChartRules.CurveBeforeSoFar | src/com/android/settings/fuelgauge/batteryusage/BatteryChartViewV2.java:494-539 | after any number of slots, the stroked paths are the maximal runs already closed, and the open path is the run ending at the previous slot |
| BatteryChartRules.CurvePathsAreMaximalRuns | src/com/android/settings/fuelgauge/batteryusage/BatteryChartViewV2.java:494-543 | the paths a pass strokes are exactly the maximal runs of consecutive drawable slots, ascending, and cover every drawable slot |
| BatteryChartView.BatteryChartViewV2.constructor | src/com/android/settings/fuelgauge/batteryusage/BatteryChartViewV2.java:74-128 | a new view has no model and no slots; it is not clickable; the hovered index is INVALID; the touch-up x is Float.MIN_VALUE; there is no curve paint and no listener |
| BatteryChartView.BatteryChartViewV2.SetClickable | src/com/android/settings/fuelgauge/batteryusage/BatteryChartViewV2.java:317-320 | the view is clickable iff slots may be clicked and the caller asks for it |
| BatteryChartView.BatteryChartViewV2.SetOnSelectListener | src/com/android/settings/fuelgauge/batteryusage/BatteryChartViewV2.java:148-150 | records whether a listener is present |
| BatteryChartView.BatteryChartViewV2.InitializeTrapezoidSlots | src/com/android/settings/fuelgauge/batteryusage/BatteryChartViewV2.java:327-332 | allocates a fresh array of exactly `count` empty slots |
| BatteryChartView.BatteryChartViewV2.SetViewModel | src/com/android/settings/fuelgauge/batteryusage/BatteryChartViewV2.java:131-145 | a null model only clears the model; otherwise the label entry is the table's, there are size-1 fresh slots all with zero bounds, and the view is clickable iff slots may be clicked and some slot is drawable |
| BatteryChartView.BatteryChartViewV2.UpdateClickableState | src/com/android/settings/fuelgauge/batteryusage/BatteryChartViewV2.java:293-315 | the curve paint exists iff slots are not clickable; turning slots off makes the view unclickable; turning them on recomputes clickability from the model and, with a model, gives size-1 fresh slots all with zero bounds |
| BatteryChartView.BatteryChartViewV2.OnTouchEvent | src/com/android/settings/fuelgauge/batteryusage/BatteryChartViewV2.java:206-219 | ACTION_UP records x, ACTION_CANCEL resets it to Float.MIN_VALUE, other actions leave it |
| BatteryChartView.BatteryChartViewV2.GetTrapezoidIndex | src/com/android/settings/fuelgauge/batteryusage/BatteryChartViewV2.java:547-556 | the loop returns the reference hit test over the current slot bounds, which is INVALID or a slot index |
| BatteryChartView.BatteryChartViewV2.OnHoverEvent | src/com/android/settings/fuelgauge/batteryusage/BatteryChartViewV2.java:221-235 | hover enter and move set the hovered index to the hit test result (INVALID or a slot); other actions leave it |
| BatteryChartView.BatteryChartViewV2.OnHoverChanged | src/com/android/settings/fuelgauge/batteryusage/BatteryChartViewV2.java:237-244 | the end of hovering resets the hovered index to INVALID; otherwise nothing changes |
| BatteryChartView.BatteryChartViewV2.OnClick | src/com/android/settings/fuelgauge/batteryusage/BatteryChartViewV2.java:246-265 | ignored without a touch-up or off a drawable slot; otherwise it reports ALL when the hit slot is the selected one and the hit slot when it is not (to a listener if present); a reported value is ALL or drawable |
| BatteryChartView.BatteryChartViewV2.DrawTrapezoids | src/com/android/settings/fuelgauge/batteryusage/BatteryChartViewV2.java:482-544 | nothing without a model; otherwise exactly the drawable slots are filled, ascending, in their colours; with the curve paint every fill is dimmed and the stroked paths are the maximal runs; without it no path is stroked |
| BatteryChartView.BatteryChartViewV2.DrawVerticalDividers | src/com/android/settings/fuelgauge/batteryusage/BatteryChartViewV2.java:397-435 | the slots take the given bounds in place; labels are written centred (all but the last, in order) or between slots (first, last, then the middle ones) |
| BatteryChartView.DrawAxisLabelsCenterOfTrapezoids | src/com/android/settings/fuelgauge/batteryusage/BatteryChartViewV2.java:463-473 | writes labels 0 .. n-2 in order |
| BatteryChartView.DrawAxisLabelsBetweenTrapezoids | src/com/android/settings/fuelgauge/batteryusage/BatteryChartViewV2.java:437-461 | writes label 0, then label n-1, then labels 1 .. n-2 in order |
| RoamingDialog.NewInstanceArguments | src/com/android/settings/network/telephony/RoamingDialogFragment.java:59-70 | each of the four arguments reads back unchanged from the bundle under its own key |
| RoamingDialog.ToLowerCase | src/com/android/settings/network/telephony/RoamingDialogFragment.java:86 | the lower-cased title has the same length and no capital letter; each capital becomes its small letter in place and every other character is kept |
| RoamingDialog.ToLowerCaseIdempotent | src/com/android/settings/network/telephony/RoamingDialogFragment.java:86 | lower-casing an already lower-cased title changes nothing |
| RoamingDialog.DialogFor | src/com/android/settings/network/telephony/RoamingDialogFragment.java:90-115 | roaming dialog: alert title, and the check-price message iff a carrier config exists with the check-pricing flag set, else the plain warning. C-IWLAN dialog: the title with the lower-cased preference title, and the "will drop" body iff C-IWLAN mode is supported, else "might drop". Other types: no title, no message |
| RoamingDialog.ClickAction | src/com/android/settings/network/telephony/RoamingDialogFragment.java:127-148 | roaming changes iff a telephony manager exists, the positive button was pressed and the type is one of the two; then it is for the fragment's subscription, enabling iff the type is the roaming dialog |
| RoamingDialog.PositiveButtonActsIffDialogHasMessage | src/com/android/settings/network/telephony/RoamingDialogFragment.java:80-148 | the positive button changes roaming iff the dialog shows a message, and enables roaming iff the dialog shows the roaming alert title |
| RoamingDialog.RoamingDialogFragment.constructor | src/com/android/settings/network/telephony/RoamingDialogFragment.java:53-57 | a new fragment has every field at its default |
| RoamingDialog.RoamingDialogFragment.NewInstance | src/com/android/settings/network/telephony/RoamingDialogFragment.java:59-70 | a fresh fragment whose arguments are the bundle holding the four values, with every other field at its default (type 0, subscription 0, C-IWLAN off, no title, no config service) |
| RoamingDialog.RoamingDialogFragment.OnAttach | src/com/android/settings/network/telephony/RoamingDialogFragment.java:72-78 | the subscription is read from the arguments and the carrier config service is kept |
| RoamingDialog.RoamingDialogFragment.OnCreateDialog | src/com/android/settings/network/telephony/RoamingDialogFragment.java:80-120 | title (lower-cased), type and C-IWLAN flag come from the arguments; the dialog is the table's choice for them, with the config for the fragment's subscription |
| RoamingDialog.RoamingDialogFragment.OnClick | src/com/android/settings/network/telephony/RoamingDialogFragment.java:127-148 | the change is the click action for the fragment's type and subscription |
| RoamingDialog.ShowAndPress | src/com/android/settings/network/telephony/RoamingDialogFragment.java:59-148 | create, attach, show and press: the dialog depends only on the creation arguments (title lower-cased) and the carrier config; the change depends only on the type, the subscription, the button and the telephony manager |

## Left out

- Drawing: Canvas, Paint and Path calls are left out, along with colour initialisation, percentage text and horizontal dividers. A draw pass returns the trapezoids it fills and the curve paths it strokes as values.
- Pixel layout: the float arithmetic and `round()` that compute slot bounds, level heights and label positions are left out. Slot bounds enter `DrawVerticalDividers` as an input sequence. Coordinates are exact reals, so float rounding is not modelled.
- `onMeasure`, `getAxisLabelY` and the text-bounds measurement depend on font metrics and are left out. `BatteryChartRules.AxisLabelsInBounds` states the index bounds that measurement relies on.
- Accessibility and feature-flag plumbing are inputs:
  - the feature factory, the accessibility manager, the attach/detach listeners and the 500 ms delayed update are left out;
  - `UpdateClickableState` takes their combined answer as a boolean.
- `setCompanionTextView` and `setClickableForce` are left out: the first only changes text painting, the second is a test hook.
- BatteryChartView.BatteryChartViewV2.SetViewModel: a model of size 0 is excluded by its precondition, because the slot array of length -1 throws in the source. `invalidate` and `requestLayout` are not modelled.
- BatteryChartView.BatteryChartViewV2.DrawVerticalDividers requires a label-table entry whenever a model is set. The table has none for a model of size 1 or of size 14 and above, and the source then throws a null-pointer exception on the label array when it draws (and when it measures). SetViewModel accepts those sizes; a draw pass for them is not modelled.
- BatteryChartView.BatteryChartViewV2.OnHoverEvent and OnClick require the slot array to exist when they hit-test. The source would throw a null-pointer exception before any model has been set.
- BatteryChartView.BatteryChartViewV2.GetAxisLabelText has no contract of its own. Its index bounds are `BatteryChartRules.AxisLabelsInBounds`, which it calls.
- The slot objects (`TrapezoidSlot`) become values in an array. They are private to the view and never shared, so no aliasing is lost.
- The view model class is not part of this model. The sentinel values -1 (ALL) and -2 (INVALID) are assumed, and the proofs use only that they are negative and distinct.
- Float.MIN_VALUE is a real constant close to 2^-149. The model uses it only as a marker that is compared for equality.
- Haptic feedback is the `Clicked` result. The listener call is its `reported` value.
- RoamingDialog.ToLowerCase: only lower-cases A-Z. Java's locale-dependent Unicode case mapping is not modelled.
- RoamingDialog: the builder, resource lookups, icon and button labels are left out. A dialog is its title and message.
- RoamingDialog: `CarrierConfigManager` and `TelephonyManager` calls are inputs.
  - the carrier config is an optional record holding the check-pricing flag, where an absent key reads false;
  - the telephony manager is a boolean saying whether it exists;
  - `setDataRoamingEnabled` is the returned `RoamingChange`.
- RoamingDialog.RoamingDialogFragment.OnCreateDialog requires the preference title to be present, and, for the roaming dialog, the carrier config service. The source throws a null-pointer exception without them.
- `getMetricsCategory` (a constant), the `super` lifecycle calls and the context lookup are left out.
