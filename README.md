# SwiftCharts core, modelled in Dafny

This project models the geometric core of the SwiftCharts charting library
and proves properties of it:

- **Y axis** (`chart_axis_y.dfy`, module `ChartAxisY`). Maps model scalars
  to screen locations and back. Screen y grows downward, so the map is
  inverted.
- **Fixed non-overlapping axis values generator** (`axis_values_generator.dfy`,
  module `AxisValuesGenerator`). A class with a mutable `values` field. Its
  greedy loop keeps a candidate label only when the running cursor has
  passed the previous label's footprint, then forces the last candidate in.
- **X axis label layout** (`chart_axis_x_layer.dfy`, module
  `ChartAxisXLayer`). Row heights as maxima, row offsets as prefix sums, the
  axis height, and label centring for tick labels and title labels.
- **Chart points layer** (`chart_points_layer.dfy`, module
  `ChartPointsLayer`). A class holding one model per chart point. Its
  methods rebuild the models, update their screen locations in place, and
  answer taps. Pure queries filter points by screen location and compute
  the smallest gap between consecutive points.
- **Stacked bars** (`chart_stacked_bars.dfy`, module `ChartStackedBars`).
  A bar's end is its start plus its quantities. One frame is built per item
  at the running total, and frame lengths telescope.

`chart_types.dfy` (module `ChartTypes`) holds the shared value types and two
folds: an order-preserving `Filter` with its exactness lemma, and sums.

CGFloat and Double are modelled as `real`. The axes' screen maps, the base
layer's `modelLocToScreenLoc`, text
measurement, the label generator, the distance between points and the
tolerant comparison `=~` are function-typed parameters.

## Model

| member | source | states |
|---|---|---|
| ChartAxisY.Length | SwiftCharts/Axis/ChartAxisY.swift:13-15 | the length is positive exactly when the first screen location lies below the last; `lastScreen + length == firstScreen` |
| ChartAxisY.ModelLength | SwiftCharts/Axis/ChartAxisY.swift:17-19 | `first + modelLength == last` |
| ChartAxisY.InnerScreenLocForScalar | SwiftCharts/Axis/ChartAxisY.swift:21-23 | the base axis's linear offset (an assumption) is defined exactly when the model length is non-zero |
| ChartAxisY.ScreenLocForScalar | SwiftCharts/Axis/ChartAxisY.swift:21-23 | the screen location is defined exactly when the model length is non-zero |
| ChartAxisY.ScalarForScreenLoc | SwiftCharts/Axis/ChartAxisY.swift:25-27 | the scalar is defined exactly when the screen length is non-zero (a zero divisor is non-finite in Swift) |
| ChartAxisY.ScalarAtFirstScreen | SwiftCharts/Axis/ChartAxisY.swift:25-27 | `scalarForScreenLoc(firstScreen) == first` |
| ChartAxisY.ScreenLocAtFirst | SwiftCharts/Axis/ChartAxisY.swift:21-23 | `screenLocForScalar(first) == firstScreen` |
| ChartAxisY.ScalarShift | SwiftCharts/Axis/ChartAxisY.swift:25-27 | moving `d` down the screen changes the scalar by `-d * modelLength / length` (affine, inverted) |
| ChartAxisY.RoundTripScalar | SwiftCharts/Axis/ChartAxisY.swift:21-27 | scalar to screen location and back gives the scalar when both lengths are non-zero |
| ChartAxisY.RoundTripScreenLoc | SwiftCharts/Axis/ChartAxisY.swift:21-27 | screen location to scalar and back gives the screen location when both lengths are non-zero |
| ChartAxisY.ScreenLocDecreasing | SwiftCharts/Axis/ChartAxisY.swift:21-23 | with positive lengths, a larger scalar lies strictly higher on screen |
| AxisValuesGenerator.CursorIsProduct | SwiftCharts/Axis/ChartAxisValuesGeneratorFixedNonOverlapping.swift:47-49 | after `m` candidates the cursor is `m * spacePerTick` |
| AxisValuesGenerator.KeptFromBounds | SwiftCharts/Axis/ChartAxisValuesGeneratorFixedNonOverlapping.swift:48-54 | kept positions are candidate positions, strictly increasing |
| AxisValuesGenerator.KeptFromFirst | SwiftCharts/Axis/ChartAxisValuesGeneratorFixedNonOverlapping.swift:49-53 | the first kept candidate is one whose cursor reached the previous label's end; a candidate whose cursor has reached it is kept |
| AxisValuesGenerator.KeptFromSpacing | SwiftCharts/Axis/ChartAxisValuesGeneratorFixedNonOverlapping.swift:49-53 | consecutive kept candidates have cursors at least one footprint apart |
| AxisValuesGenerator.KeptFromSkippedBeforeFirst | SwiftCharts/Axis/ChartAxisValuesGeneratorFixedNonOverlapping.swift:49-53 | a candidate skipped before the first kept one had a cursor short of the previous label's end |
| AxisValuesGenerator.KeptFromSkipped | SwiftCharts/Axis/ChartAxisValuesGeneratorFixedNonOverlapping.swift:49-53 | a candidate skipped after a kept one is less than one footprint past it |
| AxisValuesGenerator.KeptIsGreedy | SwiftCharts/Axis/ChartAxisValuesGeneratorFixedNonOverlapping.swift:43-54 | kept positions `i < j` that are consecutive satisfy `(j - i) * spacePerTick >= labelExtent + spacing`; with non-negative space per tick the first candidate is kept |
| AxisValuesGenerator.KeptSkipsOnlyOverlapping | SwiftCharts/Axis/ChartAxisValuesGeneratorFixedNonOverlapping.swift:49-53 | every skipped candidate `j` after kept `i` has `(j - i) * spacePerTick < labelExtent + spacing` |
| AxisValuesGenerator.ForcedIndicesShape | SwiftCharts/Axis/ChartAxisValuesGeneratorFixedNonOverlapping.swift:56-59 | forcing the last candidate keeps the count, keeps positions increasing and in range, changes only the last position, and makes it the last candidate's |
| AxisValuesGenerator.ReplaceLastIsForced | SwiftCharts/Axis/ChartAxisValuesGeneratorFixedNonOverlapping.swift:56-59 | replacing the last kept value by the last candidate picks the forced positions; if it already is that candidate nothing changes |
| AxisValuesGenerator.SelectionIsSubsequence | SwiftCharts/Axis/ChartAxisValuesGeneratorFixedNonOverlapping.swift:45-61 | the selection is the candidates at strictly increasing positions, also after the replacement, and no longer than the candidates |
| AxisValuesGenerator.SelectionEnds | SwiftCharts/Axis/ChartAxisValuesGeneratorFixedNonOverlapping.swift:47-59 | no candidates give an empty selection; a non-empty selection ends with the last candidate; with a non-negative screen length the first candidate is kept and the selection is non-empty; with a negative screen length no cursor reaches the start and the selection is empty |
| AxisValuesGenerator.SelectionSpacing | SwiftCharts/Axis/ChartAxisValuesGeneratorFixedNonOverlapping.swift:43-58 | for every screen length, consecutive selected positions `i < j` satisfy `(j - i) * spacePerTick >= labelExtent + spacing`, across the replaced last label too |
| AxisValuesGenerator.FixedNonOverlappingGenerator.constructor | SwiftCharts/Axis/ChartAxisValuesGeneratorFixedNonOverlapping.swift:21-29 | the candidates, spacing, orientation and label sizes are fixed; `values` starts as every candidate's scalar |
| AxisValuesGenerator.FixedNonOverlappingGenerator.SelectNonOverlappingAxisLabels | SwiftCharts/Axis/ChartAxisValuesGeneratorFixedNonOverlapping.swift:40-62 | the loop and the in-place replacement compute the selection, that is the candidates at the forced greedy positions |
| AxisValuesGenerator.FixedNonOverlappingGenerator.UpdateAxisValues | SwiftCharts/Axis/ChartAxisValuesGeneratorFixedNonOverlapping.swift:36-38 | `values` becomes the scalars of the selection from the fixed candidates |
| AxisValuesGenerator.FixedNonOverlappingGenerator.Generate | SwiftCharts/Axis/ChartAxisValuesGeneratorFixedNonOverlapping.swift:31-34 | `values` and the result are the selection's scalars, a function of the constant fields and the screen length alone, so generating twice for the same length gives the same values |
| ChartAxisXLayer.PresentExact | SwiftCharts/Axis/ChartAxisXLayerDefault.swift:125 | dropping the empty slots of a row keeps exactly the labels present in it |
| ChartAxisXLayer.MaxHeightFromIsMax | SwiftCharts/Axis/ChartAxisXLayerDefault.swift:125-127 | the `max` fold bounds its start and every height, and equals the start or one of the heights |
| ChartAxisXLayer.RowHeightIsMax | SwiftCharts/Axis/ChartAxisXLayerDefault.swift:123-129 | a row is at least as tall as each of its labels' `textSize.height` and at least -1; it is -1 or the height of one of its labels, and -1 for a row without labels |
| ChartAxisXLayer.RowYIsPrefixSum | SwiftCharts/Axis/ChartAxisXLayerDefault.swift:115-119 | row `r` is at the sum of the heights of rows `0..r-1` plus `r` spacings; row 0 is at 0 |
| ChartAxisXLayer.RowsStackDownward | SwiftCharts/Axis/ChartAxisXLayerDefault.swift:115-119 | with non-negative heights and spacing, a row plus its spacing ends at or above any later row's offset |
| ChartAxisXLayer.TotalFromIsSum | SwiftCharts/Axis/ChartAxisXLayerDefault.swift:18-22 | the fold adds all heights and one spacing per row to its start |
| ChartAxisXLayer.LabelsTotalHeightIsSum | SwiftCharts/Axis/ChartAxisXLayerDefault.swift:18-22 | `labelsTotalHeight` is the sum of the heights plus one spacing per row, which is the offset of a row after the last |
| ChartAxisXLayer.HeightIsSum | SwiftCharts/Axis/ChartAxisXLayerDefault.swift:28-30 | the axis height is the labels' total height plus stroke width, label-to-axis spacing, title spacing and title labels' height |
| ChartAxisXLayer.Width | SwiftCharts/Axis/ChartAxisXLayerDefault.swift:14-16 | `origin.x + width == end.x`; the width is non-negative exactly when the end lies right of the origin |
| ChartAxisXLayer.MaxCountFromIsMax | SwiftCharts/Axis/ChartAxisXLayerDefault.swift:73-75 | the count fold bounds its start and every count, and equals the start or one of the counts |
| ChartAxisXLayer.MaxRowCountIsMax | SwiftCharts/Axis/ChartAxisXLayerDefault.swift:73-75 | the row count is -1 exactly when there are no axis values; otherwise it is the largest label count, reached by some value |
| ChartAxisXLayer.Row | SwiftCharts/Axis/ChartAxisXLayerDefault.swift:76-80 | row `r` holds each value's `r`-th label, in value order, or nothing for a value with fewer labels |
| ChartAxisXLayer.CalculateRowHeightsIsMax | SwiftCharts/Axis/ChartAxisXLayerDefault.swift:66-83 | there are as many rows as the most labels of any value; row `r` is at least as tall as every `r`-th label and is -1 or the height of one of them |
| ChartAxisXLayer.TickLabelDrawers | SwiftCharts/Axis/ChartAxisXLayerDefault.swift:97-109 | label `j` of a value is centred on the tick, `labelX + width / 2 == x`, at `y = origin.y + offset + rowY(j)`, with the label's text and hidden flag |
| ChartAxisXLayer.DirectLabelDrawers | SwiftCharts/Axis/ChartAxisXLayerDefault.swift:85-112 | one group per generated value, in order; each label is centred on `screenLocForScalar(value)` in the row of its position, copying text and hidden flag |
| ChartAxisXLayer.TitleRowHeightsAreLabelHeights | SwiftCharts/Axis/ChartAxisXLayerDefault.swift:49 | each title row is as tall as its one label (or -1 when the label is shorter than -1) |
| ChartAxisXLayer.TitleLabelDrawers | SwiftCharts/Axis/ChartAxisXLayerDefault.swift:47-63 | every title label is centred on the axis midpoint `(origin.x + end.x) / 2`, in its own row, copying text and hidden flag |
| ChartPointsLayer.NewTapHandler | SwiftCharts/Layers/ChartPointsLayer.swift:56 | the radius is the given one, or 30 by default |
| ChartPointsLayer.Copy | SwiftCharts/Layers/ChartPointsLayer.swift:22-28 | each field is the override when given and the original otherwise |
| ChartPointsLayer.CopyLaws | SwiftCharts/Layers/ChartPointsLayer.swift:22-28 | copying without overrides is the identity; a later screen location override replaces an earlier one |
| ChartPointsLayer.ModelsFor | SwiftCharts/Layers/ChartPointsLayer.swift:108-110 | model `i` holds chart point `i`, index `i` and the point's screen location |
| ChartPointsLayer.TappedModelsExact | SwiftCharts/Layers/ChartPointsLayer.swift:88-99 | the tap answer holds exactly the models strictly within the radius, in model order, each relocated and paired with its distance |
| ChartPointsLayer.FilterChartPointsExact | SwiftCharts/Layers/ChartPointsLayer.swift:167-176 | the filter returns, in model order, exactly the points whose screen location satisfies the predicate |
| ChartPointsLayer.ChartPointsForScreenLocExact | SwiftCharts/Layers/ChartPointsLayer.swift:136-138 | a point is returned exactly when it is drawn at the given screen location |
| ChartPointsLayer.ChartPointsForScreenLocXYExact | SwiftCharts/Layers/ChartPointsLayer.swift:140-147 | a point is returned exactly when its screen x (or y) is `=~` the given coordinate |
| ChartPointsLayer.MinAxisScreenSpaceIsMinGap | SwiftCharts/Layers/ChartPointsLayer.swift:150-165 | for the models' screen x (or y) coordinates in model order, as `minXScreenSpace` and `minYScreenSpace` read them: no gap with fewer than two models; otherwise at most the absolute difference of every pair of neighbours, and equal to one of them; the fold's second component ends at the last coordinate |
| ChartPointsLayer.PointsLayer.constructor | SwiftCharts/Layers/ChartPointsLayer.swift:80-86 | the axes, the base layer's model-to-screen map, the chart points, delay and tap handler are stored, and there are no models yet |
| ChartPointsLayer.PointsLayer.ChartInitialized | SwiftCharts/Layers/ChartPointsLayer.swift:105-110 | the models are rebuilt, one per chart point, indexed by position and located by `modelLocToScreenLoc` |
| ChartPointsLayer.PointsLayer.HandleAxisInnerFrameChange | SwiftCharts/Layers/ChartPointsLayer.swift:123-130 | the count and chart points are kept, indices become `0..n-1`, and every location is recomputed with the new `modelLocToScreenLoc` |
| ChartPointsLayer.PointsLayer.UpdateChartPointsScreenLocations | SwiftCharts/Layers/ChartPointsLayer.swift:178-183 | only each model's screen location changes, to its chart point's location read off the two axes directly; length, points and indices stay; when the indices were the positions and `modelLocToScreenLoc` agrees with the axes, the models end up in sync with it |
| ChartPointsLayer.PointsLayer.HandleGlobalTap | SwiftCharts/Layers/ChartPointsLayer.swift:88-99 | nothing happens without a tap handler; otherwise the loop collects exactly the tap answer of `TappedModelsExact` |
| ChartTypes.SumFromIsSum | SwiftCharts/Layers/ChartStackedBarsLayer.swift:20-22 | the `reduce(start) { $0 + $1 }` fold is the start plus the sum |
| ChartStackedBars.NewStackedBarModel | SwiftCharts/Layers/ChartStackedBarsLayer.swift:17-26 | the bar keeps its constant, start and items; its end copies the start's text |
| ChartStackedBars.BarExtentIsTotalQuantity | SwiftCharts/Layers/ChartStackedBarsLayer.swift:17-32 | `axisValue2.scalar == start.scalar + sum of quantities`, and `axisValue2 - axisValue1 == totalQuantity`; with no items both are 0 |
| ChartStackedBars.FrameBuilderGeometry | SwiftCharts/Layers/ChartStackedBarsLayer.swift:50-81 | a frame has its item's colour; its length is `screen(q + quantity) - screen(q)`; it starts at `p0` minus the screen location of `axisValue1`, or of `axisValue2` when the length is not positive; across the axis it starts at 0 and is the bar width |
| ChartStackedBars.StackTotals | SwiftCharts/Layers/ChartStackedBarsLayer.swift:84-87 | one frame per item; the running quantity ends at the start plus all quantities; the total length telescopes to `screen(end) - screen(start)` |
| ChartStackedBars.StackFrameAt | SwiftCharts/Layers/ChartStackedBarsLayer.swift:84-86 | frame `k` is item `k`'s frame at the start plus the quantities before it |
| ChartStackedBars.StackEndsAtAxisValue2 | SwiftCharts/Layers/ChartStackedBarsLayer.swift:84-87 | for a bar built by the initialiser, the running quantity ends at `axisValue2` and the total length is the screen distance between the bar's ends |
| ChartStackedBars.ItemEndIsNextStart | SwiftCharts/Layers/ChartStackedBarsLayer.swift:84-86 | item `k` ends in model space where item `k + 1` starts |
| ChartStackedBars.FramesAbut | SwiftCharts/Layers/ChartStackedBarsLayer.swift:53-78 | when two neighbouring lengths have the same sign (both positive or both not), frame `k` ends along the axis where frame `k + 1` starts; frames carry their items' colours |

## Left out

- The base axis `ChartAxis` is not part of this model. `innerScreenLocForScalar` is assumed to be `(s - first) * length / modelLength`. Pan and zoom are not modelled.
- Floating point: CGFloat and Double are reals. Swift division by zero yields an infinity or NaN. `ChartAxisY` returns `None` for it. `SpacePerTick` returns 0 when there are no candidates, a value the loop never reads.
- `calculateLabelsDimensions` is not part of this model. `maxLabelSize` and `totalLabelSize` are constructor inputs.
- `ChartAxisValuesGeneratorFixed` is not part of this model. Its `generate` is taken to return `values`.
- `isX` is declared `var` but never reassigned, so it is a constant field.
- `ChartAxisValue` and its `!=` are not part of this model. The comparison is structural equality of scalar and text.
- AxisValuesGenerator.FixedNonOverlappingGenerator.SelectNonOverlappingAxisLabels and AxisValuesGenerator.FixedNonOverlappingGenerator.UpdateAxisValues take the screen length, not the axis it comes from.
- Text measurement and rotation (`ChartUtils.textSize`, `ChartAxisLabel.textSize`) are not modelled. Each label carries its measured and its rotated size as given values.
- The X layer's labels generator, the title labels' height and the axis screen map are parameters.
- `generateLineDrawer`, `chartViewDrawing` and all drawing are UI and are left out.
- ChartAxisXLayer.CalculateRowHeights requires at least one current axis value. With none, the row range `0..<-1` traps.
- ChartAxisXLayer.DirectLabelDrawers requires each value to have at most one label more than there are rows. Otherwise `calculateRowY` indexes past the row heights and traps.
- Lazy properties (`rowHeights`, `labelsTotalHeight`, `minXScreenSpace`, `minYScreenSpace`, `totalQuantity`) are modelled as functions. Their memoisation is left out.
- ChartPointsLayer.PointsLayer.HandleAxisInnerFrameChange takes the axes' new screen maps and the new `modelLocToScreenLoc` instead of the frame deltas. The axis layers that turn deltas into new ranges are not part of this model.
- `display`, `dispatch_after` delayed display and `isTransform` are UI timing and are left out.
- The tap handler closure is not invoked. `HandleGlobalTap` returns what it would receive. The layer reference in that value is left out.
- `toLocalCoordinates` returns its argument, and the model uses the tap location directly.
- The distance between screen points, `containerToGlobalScreenLoc` and `=~` are parameters.
- ChartPointsLayer.MinAxisScreenSpaceIsMinGap: the `CGFloat.max` / `-CGFloat.max` start values become an explicit "no gap yet" `None`. The model does not reproduce the floating-point rounding of the first step, `|d0 + CGFloat.max|`.
- Stacked bars: `constantScreenLoc`, `viewPoints`, the bar view, the view generator, `barViews`, `addSubview`, selection updaters and tap closures are UI and are left out.
- The example view controllers, `ChartPointTextCircleView` and `ChartTimeUtils` are demo UI, view styling and clock conversion, and are not part of this model.
- `ChartCoordsSpaceLayer`, the base of the points layer, is not part of this model. Its `modelLocToScreenLoc(x:y:)` is a separate function-typed field and parameter. ChartPointsLayer.PointsLayer.ChartInitialized, ChartPointsLayer.PointsLayer.HandleAxisInnerFrameChange, ChartPointsLayer.PointsLayer.HandleGlobalTap and ChartPointsLayer.FilterChartPoints locate points through it. ChartPointsLayer.PointsLayer.UpdateChartPointsScreenLocations reads the two axes directly. The model does not promise that the two agree. The sync of that method's result with `modelLocToScreenLoc` is promised only under `CoordsAgree`, the condition that the map is the pair of the axes' `screenLocForScalar`.
- ChartStackedBars.NewStackedBarModel: `ChartAxisValue.copy(_:)` is not part of this model. The bar's end is taken to keep the start's text with the new scalar, and the contract's `axisValue2.text == start.text` rests on that assumption.
- The stacked bars' frame builder reads the layer's one-dimensional `modelLocToScreenLoc(x:)` or `(y:)`. That map is the parameter `screenLoc`.
