# Chart.js core, modelled in Dafny

This project models the non-drawing core of a Chart.js 2.x code base and proves properties of that model.

- **Dataset synchronisation.** A chart's data arrays are instrumented so that `push`, `pop`, `shift`, `splice` and `unshift` notify the dataset controllers listening to them. Each controller keeps its element list (`meta.data`) aligned with the data.
- **Elements.** Each element animates its `_view` from a `_start` snapshot towards its `_model`.
- **Scales.**
  - The linear base scale: range options, tick building and tick labels.
  - The linear and logarithmic scales: data limits (stacked and unstacked) and the mapping between values and pixels.
  - The category scale: label windows, and the mapping between indices and pixels.
- **Registries.** The plugin registry (register, unregister, notify with veto) and the scale-type registry (constructors and per-type defaults).
- **Title.** How the title box resolves its options against the global defaults and sizes itself during layout.
- **Chart controller.** The data defaults of a configuration, the lazily created per-chart dataset record, three-state dataset visibility, the visible-dataset count, default axis ids, and the settling of dataset types with combo detection.

The model follows the source's form:
- Objects whose fields the code updates in place are classes whose methods say exactly what they change: `DataArray`, `DatasetController`, `Element`, the scales, the registries, `TitleBox`, `Chart`.
- Loops are `while` loops with invariants, proved against specification functions.
- Pure computations (limits, range adjustment, transitions, pixel maps) are functions, with lemmas relating them to independent characterisations.

Files and modules:

| file | module | models |
|---|---|---|
| js.dfy | Js | JavaScript values and strict equality, `Math.round`/`Math.ceil`, `Array.prototype.splice`/`slice`/`indexOf`/`reverse`, the global default font size |
| core_dataset_controller.dfy | DatasetSync | src/core/core.datasetController.js |
| core_element.dfy | Elements | src/core/core.element.js |
| scale_data.dfy | ScaleData | the data scans shared by the two numeric scales' `determineDataLimits` |
| scale_linearbase.dfy | LinearBase | src/scales/scale.linearbase.js |
| scale_linear.dfy | Linear | src/scales/scale.linear.js |
| scale_logarithmic.dfy | Logarithmic | src/scales/scale.logarithmic.js |
| scale_category.dfy | Category | src/scales/scale.category.js |
| core_plugin.dfy | Plugins | src/core/core.plugin.js |
| core_scale_service.dfy | ScaleService | src/core/core.scaleService.js |
| core_title.dfy | Title | src/core/core.title.js |
| core_controller.dfy | ChartController | the bookkeeping parts of src/core/core.controller.js |

## Model

| member | source | states |
|---|---|---|
| DatasetSync.DataArray.Listen | src/core/core.datasetController.js:11-23 | The first listener creates the stub. Later listeners are appended to it in registration order. The stub exists exactly while it holds a listener. |
| DatasetSync.DataArray.Unlisten | src/core/core.datasetController.js:52-73 | Only the first occurrence of the listener is removed. The stub is dropped once no listener remains. A missing stub stays missing. |
| DatasetSync.DataArray.Invoke | src/core/core.datasetController.js:32-43 | The data becomes the base mutator's result under JavaScript array semantics, and the base return value is passed back. Every listener runs its handler once per registration, in order. A push uses the corrected start of the Findings. Only the listeners' element lists and creation counters change. |
| DatasetSync.NotifyListeners | src/core/core.datasetController.js:36-40 | After the notification loop, a listener registered k times has had its handler applied k times to its element list, a push with the corrected start of the Findings. Nothing else of a listener changes: its observed array and its dataset element stay. |
| DatasetSync.OccurrencesCount | src/core/core.datasetController.js:36-40 | Counting a listener's positions in the listener list gives its multiplicity. |
| DatasetSync.DatasetController.LinkScales | src/core/core.datasetController.js:105-116 | An unset axis id is bound to the dataset's own id, or else to the first axis of that direction. A set id is kept. |
| DatasetSync.DatasetController.Destroy | src/core/core.datasetController.js:137-141 | The controller stops listening to the array it observed. That array's stub stays valid, and its items and everything else stay. |
| DatasetSync.DatasetController.AddElements | src/core/core.datasetController.js:162-174 | The element list equals Added: existing elements are kept and the missing indices below the data length get new elements. The dataset element is created only if absent. |
| DatasetSync.AddedKeepsExisting | src/core/core.datasetController.js:169-171 | After `addElements`, existing elements are untouched. Each missing index i gets a new, non-reset element created for i. The list is as long as the data. |
| DatasetSync.DatasetController.AddElementAndReset | src/core/core.datasetController.js:176-180 | One new reset element is spliced in at the given index. |
| DatasetSync.DatasetController.InsertElements | src/core/core.datasetController.js:262-266 | The loop leaves the list equal to `count` successive single insertions (Inserted). |
| DatasetSync.InsertedLength | src/core/core.datasetController.js:262-266 | Each insertion adds exactly one element and one creation, wherever it lands. A negative count inserts nothing. |
| DatasetSync.InsertedAsBlock | src/core/core.datasetController.js:262-266 | For a non-negative start, the new elements form one contiguous run in creation order, at the start or at the end. Existing elements keep their order around the run. |
| DatasetSync.DatasetController.ResyncElements | src/core/core.datasetController.js:245-257 | The element list becomes Resynced for the current data length. |
| DatasetSync.ResyncedMatchesData | src/core/core.datasetController.js:245-257 | After a resync the list is exactly as long as the data. Elements below both lengths are untouched. Each missing index i gets a new reset element created for i. |
| DatasetSync.DatasetController.BuildOrUpdateElements | src/core/core.datasetController.js:182-203 | A missing data array becomes a fresh empty one. When the array changed, the old array loses this listener and the new one gains it. The list is then resynced to the data length. The data items stay. Only the two arrays' stubs, the dataset's `data` slot and this controller's list and observed array change. |
| DatasetSync.DatasetController.OnDataPush | src/core/core.datasetController.js:271-273 | The pushed values' elements are inserted from the index of the first pushed value. This is the corrected start; see Findings. |
| DatasetSync.PushAppendsAtTail | src/core/core.datasetController.js:271-273 | On a list no longer than the data, a push appends one reset element per value at the tail. On an aligned list, each new element is created for its own value's index. |
| DatasetSync.PushAsWrittenMislabels | src/core/core.datasetController.js:272 | With the start the code uses, pushing two or more values onto an aligned list creates the first new element for the wrong index, and the last one for an index past the data. |
| DatasetSync.DatasetController.OnDataPop | src/core/core.datasetController.js:278-280 | The last element is dropped, if there is one. |
| DatasetSync.DatasetController.OnDataShift | src/core/core.datasetController.js:285-287 | The first element is dropped, if there is one. |
| DatasetSync.DatasetController.OnDataSplice | src/core/core.datasetController.js:292-295 | The same run is removed as from the data, then one element per inserted value is inserted at the start. With a single argument nothing is removed. |
| DatasetSync.DatasetController.OnDataUnshift | src/core/core.datasetController.js:300-302 | One new element per value is inserted at the head. |
| DatasetSync.DatasetController.OnData | src/core/core.datasetController.js:37-38 | The handler chosen by the mutator's name leaves the list equal to Reacted. A push uses the corrected start of the Findings. |
| DatasetSync.TrackedCallKeepsCount | src/core/core.datasetController.js:271-302 | Count invariant: if the list matched the data before a push, pop, shift, splice or unshift, it matches the data after the call and its handler. |
| DatasetSync.UnshiftPrepends | src/core/core.datasetController.js:300-302 | An unshift puts one new reset element per value before the existing ones, in order. |
| DatasetSync.SpliceKeepsAlignment | src/core/core.datasetController.js:292-295 | A splice with a non-negative start removes the same run from the data and from the elements. It inserts runs of equal length at the same place, so the surviving elements stay beside their data. |
| DatasetSync.PopShiftKeepAlignment | src/core/core.datasetController.js:278-287 | Pop and shift remove the same end from the data and from the elements. |
| DatasetSync.SpliceToEndKeepsElements | src/core/core.datasetController.js:292-295 | A one-argument `splice(start)` shortens the data but leaves the elements alone. The next resync trims the elements to the data's new length. |
| Elements.Element.constructor | src/core/core.element.js:9-16 | A new element has a model, and no view or start snapshot. |
| Elements.Element.Pivot | src/core/core.element.js:9-16 | The element's state becomes Pivoted of the old state. |
| Elements.PivotSnapshotsView | src/core/core.element.js:9-16 | `pivot` creates a missing view from the model and snapshots the view as the start. The model is unchanged. Pivoting twice is the same as once. |
| Elements.Element.Transition | src/core/core.element.js:18-69 | The element's state becomes Transitioned of the old state and the ease. |
| Elements.TransitionKeys | src/core/core.element.js:36-66 | The per-key loop computes the same view as the specification TransitionedView, whatever order the keys are visited in. |
| Elements.KeyUpdate | src/core/core.element.js:37-49 | A key is left alone exactly when it is private (`_`-prefixed) or its view value is strictly equal to the model's. |
| Elements.SettleIsIdempotent | src/core/core.element.js:26-30 | An ease of 1 makes the view the model and drops the start snapshot. Settling again changes nothing. |
| Elements.TransitionKeepsSnapshot | src/core/core.element.js:32-34 | An unfinished transition keeps an existing start snapshot, or takes the view as one. The model is unchanged. |
| Elements.PrivateKeysUntouched | src/core/core.element.js:38-39 | Private keys of the view keep their values. |
| Elements.MissingKeyTakesModel | src/core/core.element.js:41-46 | A key missing from the view takes the model's value. |
| Elements.EqualKeyUntouched | src/core/core.element.js:48-49 | A key whose view value strictly equals the model's keeps it. |
| Elements.NonNumericKeySnaps | src/core/core.element.js:51-64 | A non-number key jumps to the model's value. |
| Elements.OtherKeysUntouched | src/core/core.element.js:36-66 | View keys that the model lacks keep their values. |
| Elements.NumericKeyInterpolates | src/core/core.element.js:59-61 | A numeric key moves from its start value towards the model by the ease fraction. For an ease in [0, 1] it stays between the two. |
| Elements.NumericKeyApproachesModel | src/core/core.element.js:59-61 | A larger ease brings a numeric key monotonically closer to the model's value, never past it. |
| Elements.Element.TooltipPosition | src/core/core.element.js:71-76 | The position is the model's `x` and `y`, each present exactly when the model has it. |
| Elements.Element.HasValue | src/core/core.element.js:78-80 | True exactly when the model has numeric `x` and `y`. |
| ScaleData.ScanUnstacked | src/scales/scale.linear.js:81-105 | The nested loops over datasets and samples compute UnstackedLimits: the running min, max and (for the logarithmic scale) minimum non-zero value. |
| ScaleData.UnstackedLimitsBracket | src/scales/scale.linear.js:81-105 | The unstacked min and max are values of visible, bound, non-hidden numeric samples and bracket all of them. Both are absent exactly when there are none. minNotZero is the least non-zero such value. |
| ScaleData.AxisValuesMembers | src/scales/scale.linear.js:84-89 | A value is scanned exactly when its dataset is visible and bound to this axis, and its sample is numeric and not hidden. |
| ScaleData.MinOfIsLeast | src/scales/scale.linear.js:91-95 | The running minimum is an element of the values and at most each of them. |
| ScaleData.MaxOfIsGreatest | src/scales/scale.linear.js:97-101 | The running maximum is an element of the values and at least each of them. |
| ScaleData.ScanStacked | src/scales/scale.linear.js:39-71 | The stacking loops compute StackDatasets: the per-type totals, with types in first-seen order. |
| ScaleData.StackedTotalsAreSums | src/scales/scale.linear.js:39-71 | For every type and index, the stacked positive total is the sum of the non-negative contributions (100 in relative mode) and the negative total is the sum of the negative ones. Indices that no sample touches stay empty. |
| ScaleData.CombineGroups | src/scales/scale.linear.js:73-79 | The loop over type groups computes StackedLimits: the min and max over all groups' totals. |
| ScaleData.CombineGroupsStep | src/scales/scale.linear.js:73-79 | Folding one more group into the running limits is the min and max over the concatenated totals. |
| ScaleData.StackedLinearDomainContainsZero | src/scales/scale.linear.js:59-60 | On the linear scale the stacked domain always contains 0, because every touched index starts both of its totals at 0. |
| LinearBase.ZeroAnchored | src/scales/scale.linearbase.js:19-30 | `beginAtZero` changes the bounds exactly when both bounds share a non-zero sign. |
| LinearBase.ZeroAnchoredReachesZero | src/scales/scale.linearbase.js:19-30 | With `beginAtZero`, the adjusted range contains 0 and the data range, and moves only one bound. |
| LinearBase.Overridden | src/scales/scale.linearbase.js:32-42 | An explicit tick min or max wins. A suggested one can only widen the range, to the suggestion or to the data bound. |
| LinearBase.Widened | src/scales/scale.linearbase.js:44-50 | An empty range is widened: max up by 1, and min down by 1 unless `beginAtZero` is set. The result is never empty. |
| LinearBase.RangeKeptWithoutOptions | src/scales/scale.linearbase.js:11-51 | Without options, a non-empty data range is kept as is. |
| LinearBase.ExplicitBoundsWin | src/scales/scale.linearbase.js:32-42 | Distinct explicit tick min and max are the range, whatever the data. |
| LinearBase.SuggestionsOnlyWiden | src/scales/scale.linearbase.js:34-41 | Suggested bounds never narrow a non-empty data range. |
| LinearBase.LinearScaleBase.HandleTickRangeOptions | src/scales/scale.linearbase.js:11-51 | The range becomes RangeAdjusted of the old range and the tick options. |
| LinearBase.GeneratorOptionsFor | src/scales/scale.linearbase.js:64-72 | The generator is asked for at least 2 ticks. A fixed step size overrides the step size. The min and max are passed through. |
| LinearBase.OrderedTicksCancel | src/scales/scale.linearbase.js:75-83 | A directional reverse and a `reverse` option cancel each other out. Otherwise the ticks are reversed once. |
| LinearBase.OrderedTicksExtremes | src/scales/scale.linearbase.js:79-80 | The min and max of the ticks do not depend on their order. |
| LinearBase.LinearScaleBase.SettleTicks | src/scales/scale.linearbase.js:79-90 | The min and max become the ticks' extremes. `start`/`end` run from min to max, or from max to min when reversed. |
| LinearBase.LinearScaleBase.ConvertTicksToLabels | src/scales/scale.linearbase.js:92-98 | The numeric ticks are kept as a copy. The zero line index is the first index of 0, or -1 exactly when 0 is not a tick. |
| Linear.UnstackedDomainIsSampleSpan | src/scales/scale.linear.js:81-105 | The unstacked data bounds are sample values bracketing every qualifying sample. They are absent exactly when no sample qualifies. |
| Linear.StackedDomainReachesZero | src/scales/scale.linear.js:36-79 | The stacked data bounds are both present or both absent, and when present they bracket 0. |
| Linear.LinearScale.DetermineDataLimits | src/scales/scale.linear.js:20-109 | The range becomes the tick-adjusted data bounds, stacked or unstacked as the options say. |
| Linear.LinearScale.GetTickLimit | src/scales/scale.linear.js:110-124 | The limit is capped by `maxTicksLimit` (11 by default). Below the cap it is a whole number: the least number of 50-pixel (horizontal) or two-font-size (vertical) slots that cover the axis. |
| Linear.LinearScale.HandleDirectionalChanges | src/scales/scale.linear.js:126-131 | Vertical axes reverse the ticks. Horizontal ones keep them. |
| Linear.LinearScale.BuildTicks | src/scales/scale.linearbase.js:55-91 | The ticks are the generator's output in display order. The min and max are the generated extremes, and `start`/`end` follow `reverse`. |
| Linear.LinearScale.GetPixelForValue | src/scales/scale.linear.js:136-153 | The pixel is finite exactly when the range is not empty. |
| Linear.LinearScale.GetValueForPixel | src/scales/scale.linear.js:154-160 | The value is finite exactly when the axis has a non-zero extent. |
| Linear.LinearScale.GetPixelForTick | src/scales/scale.linear.js:161-163 | Out-of-range tick indices give no pixel. In-range ones give one whenever the range is not empty. |
| Linear.LinearScale.PixelsAtEnds | src/scales/scale.linear.js:146-152 | `start` maps to the left (bottom) edge and `end` to the right (top) edge. |
| Linear.LinearScale.ValuesAtEdges | src/scales/scale.linear.js:154-160 | The edges map back to `start` and `end`. |
| Linear.LinearScale.PixelsFollowValues | src/scales/scale.linear.js:146-152 | Larger values lie further right on a horizontal axis and further up on a vertical one. |
| Linear.LinearScale.PixelValuePixel | src/scales/scale.linear.js:136-160 | Mapping a pixel to a value and back gives the rounded pixel. |
| Linear.LinearScale.ValuePixelValue | src/scales/scale.linear.js:136-160 | Mapping a value to a pixel and back lands within half a pixel's worth of the value. |
| Logarithmic.FloorLog10 | src/scales/scale.logarithmic.js:110-111 | `floor(log10 v)` is the unique n with 10^n <= v < 10^(n+1). |
| Logarithmic.Decade | src/scales/scale.logarithmic.js:110-111 | For a positive value, `10^(floor(log10 v) + k)`. For anything else, NaN. |
| Logarithmic.DecadesBracket | src/scales/scale.logarithmic.js:110-111 | The decades below and above a positive value bracket it strictly and are a factor of 100 apart. |
| Logarithmic.Overridden | src/scales/scale.logarithmic.js:105-106 | An explicit tick min or max replaces the data bound. Otherwise the data bound (or null) is kept. |
| Logarithmic.Widened | src/scales/scale.logarithmic.js:108-116 | Equal bounds are widened: null or 0 to [1, 10], other values to the surrounding decades. The result never has equal bounds. |
| Logarithmic.ExplicitLogBoundsWin | src/scales/scale.logarithmic.js:105-106 | Distinct explicit bounds are the range. |
| Logarithmic.SingleValueBracketed | src/scales/scale.logarithmic.js:108-111 | A single positive value gets a range strictly around it, at least a decade on each side. |
| Logarithmic.EmptyOrZeroDomain | src/scales/scale.logarithmic.js:112-115 | No data, or only 0, gives the range [1, 10]. |
| Logarithmic.NegativeValueHasNoDecade | src/scales/scale.logarithmic.js:108-111 | A single negative value gives a NaN range, as `log10` of a negative number does. |
| Logarithmic.UnstackedLogDomain | src/scales/scale.logarithmic.js:75-103 | Unstacked, a non-degenerate range is exactly the span of the qualifying samples. minNotZero is the least non-zero sample. |
| Logarithmic.LogarithmicScale.DetermineDataLimits | src/scales/scale.logarithmic.js:22-117 | The min, max and minNotZero become LogRange of the stacked or unstacked data limits. |
| Logarithmic.LogarithmicScale.BuildTicks | src/scales/scale.logarithmic.js:118-148 | The ticks are the generator's output in display order. The min and max are its extremes, and `start`/`end` follow `reverse`. |
| Logarithmic.LogarithmicScale.ConvertTicksToLabels | src/scales/scale.logarithmic.js:149-153 | The tick values are kept as a copy of the ticks. |
| Logarithmic.LogDistance | src/scales/scale.logarithmic.js:176-181 | A log distance exists exactly when both ends are positive. |
| Logarithmic.LogarithmicScale.GetPixelForValue | src/scales/scale.logarithmic.js:161-212 | 0 sits at the start edge, at the bottom, or at the top when reversed. The least non-zero value sits 2% of the inner size from that edge. |
| Logarithmic.LogarithmicScale.GetPixelForTick | src/scales/scale.logarithmic.js:158-160 | A tick's pixel is its value's pixel. Out-of-range indices give none. |
| Logarithmic.LogarithmicScale.LogEndsAtEdges | src/scales/scale.logarithmic.js:175-208 | `start` and `end` map to the two inner edges of the box, inside the padding. |
| Logarithmic.LogarithmicScale.ZeroAtBottomSpansBox | src/scales/scale.logarithmic.js:187-195 | With 0 at the bottom, `end` still maps to the top inner edge. |
| Logarithmic.LogarithmicScale.ZeroAtTopSpansBox | src/scales/scale.logarithmic.js:196-204 | With 0 at the top, `start` still maps to the bottom inner edge. |
| Logarithmic.LogarithmicScale.ZeroAtBottomKeepsOrder | src/scales/scale.logarithmic.js:187-195 | With 0 at the bottom, the order 0, least non-zero value, larger values runs upwards on screen, for any increasing `log10`. |
| Category.CategoryScale.GetLabels | src/scales/scale.category.js:18-21 | The axis-specific label list wins when present. Otherwise the chart's labels are used. |
| Category.EndIndex | src/scales/scale.category.js:30-40 | A configured end is the first label strictly equal to it, if any. Otherwise the default index is kept. |
| Category.EndsNameLabels | src/scales/scale.category.js:23-44 | On non-empty labels, both end indices name labels and default to the first and last. |
| Category.CategoryScale.DetermineDataLimits | src/scales/scale.category.js:23-44 | The end indices are the found-or-default indices. The min and max are the labels at them. |
| Category.CategoryScale.BuildTicks | src/scales/scale.category.js:46-51 | The ticks are TicksFor the label window. |
| Category.TicksAreLabelRange | src/scales/scale.category.js:46-51 | The ticks are exactly the labels from minIndex through maxIndex, or none when the window is inverted. |
| Category.TickOfIndexIsLabel | src/scales/scale.category.js:46-51 | The tick for a label index inside the window is that label. |
| Category.CategoryScale.GetLabelForIndex | src/scales/scale.category.js:53-62 | A vertical axis with its own labels returns the data value. Otherwise the tick at the index relative to minIndex, present exactly when inside the window. |
| Category.CategoryScale.ResolvedIndex | src/scales/scale.category.js:65-94 | An explicit index wins. A value resolves to a label position holding a strictly equal label. |
| Category.CategoryScale.GetPixelForValue | src/scales/scale.category.js:65-94 | A pixel exists exactly when the value or index resolves to an index. |
| Category.SlotCount | src/scales/scale.category.js:101 | The number of slots is the tick count (minus one without offset grid lines), but at least 1. |
| Category.CategoryScale.GetPixelForTick | src/scales/scale.category.js:95-97 | Every tick index has a pixel. |
| Category.CategoryScale.GetValueForPixel | src/scales/scale.category.js:98-118 | Pixels at or before the first slot map to index 0. Later pixels map to a non-negative index, or to none when the slot width is 0. |
| Category.CategoryScale.GetBasePixel | src/scales/scale.category.js:119-121 | The base pixel is the bottom edge. |
| Category.CategoryScale.FirstIndexAtStart | src/scales/scale.category.js:65-94 | minIndex maps to the start edge when no half-slot offset applies. |
| Category.CategoryScale.LastIndexAtEnd | src/scales/scale.category.js:65-94 | Without offset grid lines, maxIndex maps to the far edge. |
| Category.CategoryScale.PixelsFollowIndices | src/scales/scale.category.js:65-94 | Pixels never decrease as the index grows. |
| Category.CategoryScale.SlotsRoundTrip | src/scales/scale.category.js:65-118 | When slots are wider than a pixel, the pixel of each tick maps back to that tick's index. |
| Plugins.RegisteredProperties | src/core/core.plugin.js:16-23 | Registering keeps the list duplicate-free and keeps the old plugins as its prefix. The members become the old ones plus the added ones. |
| Plugins.PluginRegistry.Register | src/core/core.plugin.js:16-23 | The loop appends each added plugin not already present: the list becomes Registered, and stays duplicate-free with the old list as its prefix. |
| Plugins.UnregisteredIsWithout | src/core/core.plugin.js:29-37 | Removing each plugin's first occurrence in turn gives the old list filtered by the removed set, and keeps it duplicate-free. |
| Plugins.RemoveFirstDistinct | src/core/core.plugin.js:32-35 | In a duplicate-free list, `splice(indexOf(p), 1)` filters p out. |
| Plugins.WithoutMembers | src/core/core.plugin.js:29-37 | Filtering keeps exactly the plugins outside the removed set. |
| Plugins.WithoutTwice | src/core/core.plugin.js:29-37 | Unregistering in two steps is unregistering the union. |
| Plugins.PluginRegistry.Unregister | src/core/core.plugin.js:29-37 | The list becomes the old one without the removed plugins, in the old order, and stays duplicate-free. |
| Plugins.PluginRegistry.Clear | src/core/core.plugin.js:43-45 | The registry becomes empty. |
| Plugins.DistinctSize | src/core/core.plugin.js:52-54 | A duplicate-free list is as long as its set of plugins. |
| Plugins.PluginRegistry.Count | src/core/core.plugin.js:52-54 | The count is the length of the list, which in a valid registry is the number of distinct registered plugins. |
| Plugins.PluginRegistry.GetAll | src/core/core.plugin.js:61-63 | The returned list is duplicate-free and as long as the count. |
| Plugins.ImplementingMembers | src/core/core.plugin.js:78-85 | The plugins implementing a hook are exactly the registered ones that have it. |
| Plugins.NotifyWithoutVeto | src/core/core.plugin.js:78-87 | Without a veto, every implementing plugin is called, in order. |
| Plugins.NotifyStopsAtVeto | src/core/core.plugin.js:78-85 | The first plugin returning `false` is the last one called. The implementing plugins before it were all called. |
| Plugins.PluginRegistry.Notify | src/core/core.plugin.js:73-88 | The loop calls the plugins Notified says. The result is true exactly when no registered plugin vetoes, and then every implementing plugin was called. |
| ScaleService.Extended | src/core/core.scaleService.js:26-31 | `extend` keeps every key of both maps, and the additions win. |
| ScaleService.ScaleRegistry.RegisterScaleType | src/core/core.scaleService.js:15-18 | The type's constructor and defaults are set. Other types' constructors are unchanged. The type's resolved defaults then carry its own values. |
| ScaleService.ScaleRegistry.GetScaleConstructor | src/core/core.scaleService.js:19-21 | A registered type gives its constructor. An unregistered one gives undefined. |
| ScaleService.ScaleRegistry.GetScaleDefaults | src/core/core.scaleService.js:22-25 | An unregistered type gives `{}`. A registered one gives the global scale defaults overridden by its own. |
| ScaleService.ScaleRegistry.UpdateScaleDefaults | src/core/core.scaleService.js:26-31 | Only a registered type's defaults are extended, with the additions winning. Other types and all constructors are unchanged. |
| Title.Merged | src/core/core.title.js:11-21 | Each configured option wins over the global title default: hidden, `top`, padding 10. |
| Title.UnconfiguredTitle | src/core/core.title.js:11-21 | An unconfigured title is hidden, horizontal and takes no space. |
| Title.FontSize | src/core/core.title.js:122 | The font size falls back to the global default of 12. |
| Title.Thickness | src/core/core.title.js:125-131 | A displayed title is one font size plus twice the padding thick. A hidden one is 0. |
| Title.TitleBox.constructor | src/core/core.title.js:25-33 | The options are the configured ones merged over the defaults. |
| Title.TitleBox.BeforeUpdate | src/core/core.title.js:37-42 | The chart's title options, when given, replace the merged options. Only the options change: size, position, margins and paddings stay. |
| Title.TitleBox.SetDimensions | src/core/core.title.js:78-105 | The box spans the space on offer along the title's axis. Paddings and the minimum size are reset. The other axis is unchanged. |
| Title.TitleBox.Fit | src/core/core.title.js:117-136 | The minimum size fills the offered space along the axis and is Thickness across it. The box takes that size. |
| Title.TitleBox.Update | src/core/core.title.js:43-72 | The returned size is the full offered length along the title's axis by Thickness across it. The box spans [0, length] along that axis. |
| Title.TitleBox.IsHorizontal | src/core/core.title.js:140-143 | Horizontal exactly at the top or bottom. |
| ChartController.InitData | src/core/core.controller.js:170-177 | Missing data, datasets or labels become empty. Given ones are kept by reference. |
| ChartController.Chart.constructor | src/core/core.controller.js:175-177 | The chart's datasets are those of the initialised data. |
| ChartController.Chart.GetDatasetMeta | src/core/core.controller.js:623-644 | A dataset's record for this chart is created on first request with its type, `hidden` flag, axis ids and controller null, and returned unchanged afterwards. Visibility is unchanged. |
| ChartController.Visible | src/core/core.controller.js:656-662 | A boolean record flag overrides the dataset's `hidden`. A null one defers to it. |
| ChartController.Chart.IsDatasetVisible | src/core/core.controller.js:656-662 | The result is the dataset's visibility, before and after its record is created. |
| ChartController.Chart.GetVisibleDatasetCount | src/core/core.controller.js:646-654 | The count is CountTrue of the visibility flags, which the call does not change. |
| ChartController.CountTrueIsIndexCount | src/core/core.controller.js:646-654 | CountTrue is the number of indices of visible datasets. |
| ChartController.Chart.EnsureScalesHaveIds | src/core/core.controller.js:322-338 | Each axis keeps a non-empty id, or gets `x-axis-<i>`, `y-axis-<i>` or `scale`. |
| ChartController.WithDefaultIds | src/core/core.controller.js:327-333 | Each entry keeps its non-empty id or gets the default for its index. |
| ChartController.DefaultIdsDistinct | src/core/core.controller.js:328-336 | Default ids never collide: not within a direction, not across directions, not with `scale`. |
| ChartController.DecimalInjective | src/core/core.controller.js:328-332 | Distinct indices give distinct decimal spellings. |
| ChartController.ResolvedType | src/core/core.controller.js:402-404 | A set record type is kept. Otherwise the dataset's type is used, or else the chart's. |
| ChartController.Chart.SettleType | src/core/core.controller.js:401-406 | The record's type becomes ResolvedType and is returned. Only the type changes, so the record's `hidden` flag, axis ids and controller stay and visibility is unchanged. A newly created record has its other modelled fields null. |
| ChartController.Chart.DetectCombo | src/core/core.controller.js:417-424 | `isCombo` is set exactly when two consecutive types differ, and is never reset. |
| ChartController.UniformIsNotMixed | src/core/core.controller.js:417-424 | Datasets of one type are not a combo. |
| ChartController.Chart.BuildOrUpdateControllerTypes | src/core/core.controller.js:395-427 | One settled type per dataset. `isCombo` is as DetectCombo states. |

## Left out

- Drawing, the canvas, events, animation scheduling, tooltips, legends and the layout service are not modelled. This covers `Title.draw`, `addScalesToLayout` and the canvas and event parts of `core.controller.js`.
- `getRightValue` lives in core.scale.js, which is not part of this model. Each data point reaches the numeric scales as an already converted number or NaN (`ScaleData.Sample`). The linear and logarithmic `getLabelForIndex` (`+getRightValue(...)`) are left out for the same reason.
- core.helpers.js is not part of this model.
  - `configMerge`, `scaleMerge`, `extend` and `clone` are taken as a shallow map override in which the later object wins.
  - `sign`, `min` and `max` are written out on the model's numbers.
- Tick generators (`Ticks.generators.linear/logarithmic`) are not part of this model. They are parameters of `BuildTicks`, which requires them to return at least one tick.
- Floating point is modelled with exact reals.
  - `Math.round` and `Math.ceil` are written out.
  - `log10` is a parameter of the logarithmic pixel map.
  - `floor(log10 v)` is computed exactly (FloorLog10), so results of an inexact `log10` at powers of ten are not captured.
- The logarithmic `getValueForPixel` (`Math.pow`) is left out for the same reason.
- ScaleData.StackedLimits: when every type group is empty, the code's `min([])`/`max([])` give ±Infinity. The model gives no bound instead.
- ScaleData.StackedLimits: holes in the sparse per-index totals are skipped rather than propagated as NaN.
- Linear.LinearScale.GetTickLimit: requires a positive tick font size on vertical axes. A zero font size makes the code divide by zero.
- Category.CategoryScale.GetPixelForValue: the index argument is `Option<int>`. JavaScript's other falsy and non-numeric index values are not modelled.
- Aliasing is not modelled.
  - After a transition with ease 1, the code makes `_view` the very `_model` object, so later in-place view updates also write the model. The model keeps the view and the model as separate values.
  - `getAll` returns a copy of the plugin list rather than the live array.
  - The title's `minSize` is a value, not a shared object.
  - The axis options of `ensureScalesHaveIDs` are sequences of ids rather than shared option objects.
- Plugins.PluginRegistry.Notify: a hook's result is a fixed value per plugin and extension. Call arguments and side effects of hooks are not modelled.
- ChartController.Chart.BuildOrUpdateControllerTypes: states only the number of settled types and the combo flag. Controller construction (`new controllers[type]`, `initialize`, `updateIndex`) and the returned `newControllers` are not modelled, because the controller types are outside this model.
- Colour interpolation of string-valued element keys is not modelled (it uses a colour library outside this model). Such keys jump to the model's value (Elements.NonNumericKeySnaps).
- DatasetSync.DatasetController.OnDataSplice: a one-argument `splice(start)` removes nothing from the element list, as in the code. The counts then differ until the next resync (SpliceToEndKeepsElements). With a negative start, each single insertion `splice(start + i, 0, e)` also counts from the end, but of the current list, which the removal has already shortened. Once `start + i` reaches 0 the remaining insertions go to the head: on four aligned elements, `splice(-1, 0, x, y)` puts x's element at index 3 and y's at index 0. Both behaviours are kept as written.
- ScaleData.StackedLinearDomainContainsZero: the stacked linear domain always contains 0, because the code starts both totals of every touched index at 0 (src/scales/scale.linear.js:59-60). The model states this rather than a range that reaches 0 only for negative values.
- Js.ToNumber: every non-empty string counts as not numeric. JavaScript's `Number("5")` is 5, and the model does not parse numeric strings.
- Elements.StartValue: a `_start` value that is a numeric string or the empty string passes the code's `isNaN` test. The code then interpolates with string concatenation and writes a string into `_view`. The model treats a non-empty string start as NaN, so it starts from 0, and an empty-string start as the number 0. Either way it writes a number.
- Elements.Element.HasValue: the `helpers.isNumber` test is read as "a finite number value" (IsFiniteNumber). The helper also accepts numeric strings, which the model does not.
- DatasetSync.DatasetController.OnDataPush: requires `dataset.data` to be set. If the user has set `dataset.data` to null while the old array still notifies, the code throws a TypeError reading `data.length`. The model does not represent that exception.
- DatasetSync.DatasetController.OnData: requires `dataset.data` to be set for a push, for the same reason as OnDataPush.
- DatasetSync.NotifyListeners: requires every listener's `dataset.data` to be set for a push, for the same reason as OnDataPush.
- DatasetSync.DataArray.Invoke: requires every listener's `dataset.data` to be set for a push, for the same reason as OnDataPush.
- DatasetSync.DatasetController.OnDataPush: inserts from `data.length - count`, the corrected start of the Findings, where the code inserts from `data.length - 1` (src/core/core.datasetController.js:272). A push of two or more values therefore creates its elements for other indices than the code does. The code's start is modelled separately (PushedAsWritten, PushAsWrittenMislabels).
- DatasetSync.DatasetController.OnData: a push runs OnDataPush, so it uses the corrected start, not the code's `data.length - 1`.
- DatasetSync.NotifyListeners: a push runs each listener's OnDataPush, so it uses the corrected start, not the code's `data.length - 1`.
- DatasetSync.DataArray.Invoke: an instrumented `push` notifies through OnDataPush, so it uses the corrected start, not the code's `data.length - 1`.
- LinearBase.LinearScaleBase.ConvertTicksToLabels: the inherited label formatting (`Scale.prototype.convertTicksToLabels` in core.scale.js, which is not part of this model) is not modelled. The model's `ticks` keep their numeric values, and only the numeric copy and the zero-line index are stated.
- Logarithmic.LogarithmicScale.ConvertTicksToLabels: the inherited label formatting of core.scale.js is not modelled either. The model's `ticks` keep their numeric values, and only the `tickValues` copy is stated.
- ChartController.Chart.GetDatasetMeta: the record's `data` (created as `[]`) and `dataset` (created as null) fields are not modelled. The record's `data` array is the controller's element list, which lives in `DatasetController.elements`. That alias is not modelled, and the empty list of a new record is not stated.

## Findings

| source | as written | input that shows it | evidently intended | confidence | as-written member | corrected member |
|---|---|---|---|---|---|---|
| src/core/core.datasetController.js:272 | `onDataPush` inserts its new elements from `data.length - 1` | pushing two values onto an empty, aligned dataset: the elements are created for indices 1 and 2, while they sit at 0 and 1 and the data has length 2 | insert from `data.length - arguments.length`, the index of the first pushed value | high; not executed | DatasetSync.PushAsWrittenMislabels | DatasetSync.PushAppendsAtTail |
