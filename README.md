# MatPlotOpenCV figure core, modelled in Dafny

MatPlotOpenCV is a small retained-mode 2-D plotting library on top of
OpenCV. A `Figure` accumulates drawing commands (poly-lines, scatter
markers, text and, in the current version, filled and stroked shapes),
axis limits and flags, a title, axis labels and a legend. It turns them
into pixels only when `render`, `show` or `save` is called while the
figure is dirty. Rendering runs in a fixed order:

1. resolve the axis limits (autoscale, padding, non-zero spans, equal scale);
2. compute "nice" ticks;
3. clear the image to white;
4. draw the grid, the axes, the retained commands, the legend, the title and the labels.

This project models both versions of that core:

* the current figure: `src/figure.cpp`, `include/figure.h` and
  `include/axes.h`, with its cached data bounds, padding, shapes, legend
  and cached rotated y label;
* the older header-only figure: `MatPlotOpenCV/include/figure.h`,
  `MatPlotOpenCV/include/plot_command.h` and `MatPlotOpenCV/include/axes.h`.
  It recomputes the data box from the line and scatter commands at every
  render, draws unclipped ticks, has no legend, and its render switch has
  no case for the shape kinds.

Modules, one concept each:

| file | module | what it holds |
|---|---|---|
| `numerics.dfy` | `Numerics` | extended reals for the ±∞ of an empty box; `std::min`/`std::max`; `static_cast<int>` (`Trunc`); C++ integer division (`CDiv`); exact decades for `floor(log10 x)` |
| `plot_command.dfy` | `PlotCommands` | `PlotCommand` with its tag, every payload and the header's defaults; colours |
| `axes.dfy`, `legacy_axes.dfy` | `AxesModel`, `LegacyAxesModel` | the two `Axes` structs as classes whose limits are extended reals, so that `reset()` can store ±∞ |
| `bounds.dfy` | `BoundsModel` | the `Bounds` tracker and its fold over points |
| `ticks.dfy`, `legacy_ticks.dfy` | `Ticks`, `LegacyTicks` | `nice_num` and `make_ticks`, each a specification function plus the loop that is proved against it |
| `layout.dfy` | `Layout` | margins, `data_to_pixel`, text anchoring and the legend anchor |
| `axis_resolution.dfy` | `AxisResolution` | `ensure_nonzero_span`, `fix_ranges`, padding, equal scale and the whole resolution pipeline of both versions |
| `draw_ops.dfy` | `DrawOps` | what a render draws: each OpenCV call becomes a `DrawOp`, and a render is specified as one sequence of them |
| `canvas.dfy` | `CanvasModel` | the image (`cv::Mat canvas_`) as the list of primitives drawn since the last clear, and the drawing loops both figures share |
| `figure.dfy` | `FigureModel` | the current `Figure` class |
| `legacy_figure.dfy` | `LegacyFigureModel` | the older `Figure` class |

Each state-changing method states its whole new state. A render states the
resolved limits as `Resolve(...)` or `LegacyResolve(...)`, and the image
as `FigureOps(...)` or `LegacyFigureOps(...)`. The lemmas are proved about
those functions:

* every resolved rectangle has non-zero spans;
* autoscaled data lands inside the plot rectangle;
* equal scale gives equal spans;
* ticks lie in the window, ascend and are complete;
* the current ticks are the older ticks clipped to the window;
* the legend lists exactly the labelled commands, in order;
* a render of a clean figure changes nothing.

## Model

| member | source | states |
|---|---|---|
| Numerics.Min | include/figure.h:40-41 | `std::min` on extended reals: the result is one of the two and below both |
| Numerics.Max | include/figure.h:40-41 | `std::max` on extended reals: the result is one of the two and above both |
| Numerics.Trunc | src/figure.cpp:476-477 | `static_cast<int>` truncates toward zero: within one below a non-negative value, within one above a negative one |
| Numerics.TruncMonotone | src/figure.cpp:476-477 | truncation never reverses the order of two values |
| Numerics.CDiv | src/figure.cpp:419 | C++ `int` division truncates toward zero, on both signs of the dividend |
| Numerics.CDivOdd | src/figure.cpp:419 | C++ division of a negated dividend is the negated quotient, unlike Euclidean division |
| Numerics.Split | src/figure.cpp:497-498 | every positive value splits into a mantissa in [1, 10) times a power of ten, exactly |
| Numerics.Decade | src/figure.cpp:497 | `floor(log10 x)`: the exponent e with 10^e <= x < 10^(e+1) |
| Numerics.DecadeUnique | src/figure.cpp:497 | that exponent is the only one with this property |
| Numerics.Pow10StrictlyIncreasing | src/figure.cpp:497-498 | powers of ten grow strictly with the exponent |
| PlotCommands.CmdTypeIsClosed | MatPlotOpenCV/include/plot_command.h:13-24 | the command kinds are a closed set of nine distinct tags |
| AxesModel.Axes.constructor | include/axes.h:19-40 | new axes are the unit square, with padding 0.05, autoscale on, equal scale and grid off |
| AxesModel.Axes.Reset | include/axes.h:48-54 | `reset` stores +∞ in the minima and −∞ in the maxima, and leaves the padding and flags alone |
| LegacyAxesModel.LegacyAxes.constructor | MatPlotOpenCV/include/axes.h:9-16 | new older axes are the unit square with autoscale on, and equal scale and grid off |
| LegacyAxesModel.LegacyAxes.Reset | MatPlotOpenCV/include/axes.h:18-24 | `reset` leaves the empty box (±∞) and the flags unchanged |
| BoundsModel.Bounds.constructor | include/figure.h:33-36 | a new tracker is the empty box and is not `valid()` |
| BoundsModel.Bounds.Expand | include/figure.h:38-42 | `expand` gives the smallest widening: the box now contains the point, contains the old box, and a consistent box becomes valid |
| BoundsModel.ExpandBoxProperties | include/figure.h:38-43 | one expansion contains the point and the old box; each new side is the old side or the point's coordinate |
| BoundsModel.ExpandFirstCovers | src/figure.cpp:626-629 | folding `expand` over the first n points contains each of them and the starting box; n > 0 points make a consistent box valid |
| BoundsModel.ExpandAllCovers | src/figure.cpp:626-629 | the same for `expand_bounds` over all points |
| BoundsModel.ExpandFirstTight | src/figure.cpp:626-629 | from the empty box, each side of the folded box is attained by some point, so the box is the tightest one |
| BoundsModel.WithinTransitive | include/figure.h:38-42 | box containment is transitive, so expansions accumulate |
| Ticks.NiceFactor | src/figure.cpp:500-514 | the nice factor is 1, 2, 5 or 10. The "ceiling" table gives a factor at least the mantissa and less than 2.5 times it; the "round" table gives a factor above 2/3 of the mantissa and at most 5/3 of it. 1, 2 and 5 are kept unchanged |
| Ticks.Guarded | src/figure.cpp:496 | a non-positive range becomes 1, and a positive one is kept |
| Ticks.NiceTable | src/figure.cpp:500-515 | the scaled factor is 1, 2, 5 or 10 times the decade |
| Ticks.NiceTableIsFactorOfMantissa | src/figure.cpp:498-515 | the threshold tests on the range are the tests on the mantissa `f` |
| Ticks.NiceNum | src/figure.cpp:494-516 | `nice_num` is positive |
| Ticks.NiceNumIsTableOfMantissa | src/figure.cpp:494-516 | `nice_num` is the nice factor of the mantissa times its decade |
| Ticks.NiceNumOfNonPositive | src/figure.cpp:496 | a non-positive range gives 1 |
| Ticks.NiceNumCovers | src/figure.cpp:508-514 | without rounding, the nice number is at least the range and less than 2.5 times it |
| Ticks.NiceNumRoundsNear | src/figure.cpp:501-507 | with rounding, the nice number is between 2/3 and 5/3 of the range |
| Ticks.NiceNumIsFixedPoint | src/figure.cpp:494-516 | a nice number is its own nice number, with or without rounding |
| Ticks.Decimals | src/figure.cpp:531 | labels get one decimal exactly when the step is below 1, otherwise none |
| Ticks.TickStep | src/figure.cpp:520-521 | the tick step is positive |
| Ticks.CandidateIsMultiple | src/figure.cpp:522-526 | every candidate tick is an integer multiple of the step |
| Ticks.CandidateIncreasing | src/figure.cpp:526 | candidates strictly increase |
| Ticks.GuardIff | src/figure.cpp:523-526 | the loop guard `v <= graph_hi + step/2` holds exactly for the candidates up to `ceil(hi/step)` |
| Ticks.WalkStep | src/figure.cpp:526 | one `v += step` moves to the next candidate, and the guard then holds exactly while the index is in range |
| Ticks.KeptLabels | src/figure.cpp:529-532 | there is one label per kept tick, formatted with `Decimals(step)` |
| Ticks.KeptInWindow | src/figure.cpp:528 | every kept tick lies within [lo − 1e-12, hi + 1e-12] |
| Ticks.KeptAscending | src/figure.cpp:526-529 | kept ticks are multiples of the step, in strictly ascending order |
| Ticks.KeptComplete | src/figure.cpp:526-529 | every candidate inside the window is kept |
| Ticks.TicksShape | src/figure.cpp:518-535 | `make_ticks` yields as many labels as locations, all in the window, all ascending multiples of the step |
| Ticks.TicksComplete | src/figure.cpp:518-535 | every multiple of the step between lo and hi is a tick |
| Ticks.MakeTicks | src/figure.cpp:518-535 | the method returns `TicksFor(lo, hi, target)` |
| Ticks.WalkCandidates | src/figure.cpp:522-534 | the tick loop produces exactly the window's multiples of the step, from `floor(lo/step)` to `ceil(hi/step)` |
| LegacyTicks.LegacyNiceNum | MatPlotOpenCV/include/figure.h:373-383 | the older `nice_num` (no range guard) is positive on a positive range |
| LegacyTicks.LegacyNiceNumAgrees | MatPlotOpenCV/include/figure.h:373-383 | on a positive range it agrees with the current `nice_num` |
| LegacyTicks.LegacyTickStep | MatPlotOpenCV/include/figure.h:388-389 | the older step is positive |
| LegacyTicks.LegacyTickStepAgrees | MatPlotOpenCV/include/figure.h:388-389 | the older step equals the current one |
| LegacyTicks.Run | MatPlotOpenCV/include/figure.h:394-400 | an unclipped run has one label per location |
| LegacyTicks.RunShape | MatPlotOpenCV/include/figure.h:394-400 | the i-th tick of a run is candidate a+i, and its label is formatted with `Decimals(step)` |
| LegacyTicks.LegacyTicksBracket | MatPlotOpenCV/include/figure.h:390-400 | the older ticks run from `floor(lo/step)·step` up to `ceil(hi/step)·step` in equal steps, so they bracket [lo, hi] and may fall outside it |
| LegacyTicks.Clip | src/figure.cpp:528 | clipping keeps a subsequence of the values |
| LegacyTicks.KeptIsClippedRun | src/figure.cpp:528 | the current loop keeps exactly the older run clipped to the window |
| LegacyTicks.CurrentTicksAreClippedLegacy | src/figure.cpp:518-535 | current ticks are the older ticks, clipped to [lo, hi] ± 1e-12 |
| LegacyTicks.CurrentMakeTicksIsClippedLegacy | src/figure.cpp:518-535 | the same holds for `make_ticks` as a whole |
| LegacyTicks.LegacyMakeTicks | MatPlotOpenCV/include/figure.h:386-402 | the older method returns `LegacyTicksFor(lo, hi, target)` |
| LegacyTicks.LegacyWalk | MatPlotOpenCV/include/figure.h:393-400 | the older tick loop produces every candidate from `floor(lo/step)` to `ceil(hi/step)` |
| Layout.OffsetEnds | src/figure.cpp:476-477 | the fractions 0 and 1 map to the first and last pixel of the extent |
| Layout.OffsetMonotone | src/figure.cpp:476-477 | the pixel offset is monotone in the fraction |
| Layout.OffsetNearest | src/figure.cpp:476-477 | `static_cast<int>(f·w + 0.5)` rounds to within half a pixel and stays in [0, w] |
| Layout.FracInUnit | src/figure.cpp:474-475 | a value inside the limits has its fraction in [0, 1] |
| Layout.FracMonotone | src/figure.cpp:474-475 | the fraction is monotone in the value |
| Layout.DataToPixelCorners | src/figure.cpp:472-479 | the lower-left corner of the limits maps to the bottom-left plot corner, and the upper-right to the top-right |
| Layout.DataToPixelMonotone | src/figure.cpp:472-479 | pixel x grows with data x; pixel y shrinks as data y grows (the y flip) |
| Layout.DataToPixelInPlot | src/figure.cpp:472-479 | a point inside the limits maps into the plot rectangle, within half a pixel of its exact position |
| Layout.LegacyMappableWhenOrdered | MatPlotOpenCV/include/figure.h:346-347 | the older mapper's `span + 1e-12` divisor is non-zero whenever the limits are ordered |
| Layout.LegacyDataToPixelInPlot | MatPlotOpenCV/include/figure.h:344-352 | with ordered limits, a point inside them maps into the plot rectangle |
| Layout.LegacyDataToPixelOrigin | MatPlotOpenCV/include/figure.h:344-352 | the older mapper sends the lower-left corner of the limits to the bottom-left plot corner |
| Layout.AnchoredTextPos | src/figure.cpp:595-610 | the alignment cases. Left and baseline keep the anchor; right subtracts the width; top adds the height; bottom subtracts the baseline; the centres shift by half the size, truncated |
| Layout.LegendAnchorFallback | src/figure.cpp:631-650 | an unknown location keyword anchors the legend like "southEast" |
| Layout.LegendAnchorFits | src/figure.cpp:631-650 | for every keyword, a box no larger than the plot lies inside the plot rectangle |
| AxisResolution.SpanEps | src/figure.cpp:614-615 | the widening of a zero span is positive |
| AxisResolution.SpanEpsIsNotMax | src/figure.cpp:614-615 | the widening is |lo|·1e-3 when |lo| > 1e-12, which differs from max(|lo|·1e-3, 1e-3) (see below) |
| AxisResolution.NonzeroSpan | src/figure.cpp:612-618 | `ensure_nonzero_span` keeps a non-zero span, and widens a zero span symmetrically around its value |
| AxisResolution.FixLimits | src/figure.cpp:620-624 | `fix_ranges` gives non-zero spans, keeps non-zero spans and their order, only widens, and turns ordered limits into strictly ordered ones |
| AxisResolution.FixLimitsIdempotent | src/figure.cpp:620-624 | `fix_ranges` is idempotent, and leaves reversed limits reversed |
| AxisResolution.PadScalesSpans | src/figure.cpp:195-201 | padding multiplies each span by 1 + 2·pad and keeps its midpoint |
| AxisResolution.PadWidens | src/figure.cpp:195-201 | a non-negative padding only widens ordered limits |
| AxisResolution.PadCompounds | src/figure.cpp:195-201 | padding twice is padding by (1+2p)² − 1 in total: padding is not idempotent |
| AxisResolution.EqualScaleProperties | src/figure.cpp:204-213 | equal scale gives both axes the larger span, keeps the midpoints, leaves equal spans alone and is idempotent |
| AxisResolution.BoxLimits | src/figure.cpp:186-189 | copying a valid data box gives its finite sides, in order |
| AxisResolution.Resolve | src/figure.cpp:183-215 | the resolved limits have non-zero spans |
| AxisResolution.ResolveEqualScale | src/figure.cpp:203-215 | with equal scale on, both resolved spans are equal and each axis keeps the midpoint it had after padding and span fixing |
| AxisResolution.ResolveFallback | src/figure.cpp:184-191 | with autoscale on, no padding and no equal scale, a figure without data resolves to the unit square |
| AxisResolution.ResolveContainsData | src/figure.cpp:183-215 | with autoscale on and a non-negative padding, the resolved limits are ordered and contain the data box |
| AxisResolution.ResolveCompoundsPadding | src/figure.cpp:183-202 | with autoscale off and a positive padding, each resolution widens the limits again: the second render's spans exceed the first's |
| AxisResolution.LegacyResolve | MatPlotOpenCV/include/figure.h:165-211 | the older resolved limits have non-zero spans |
| AxisResolution.LegacyResolveEqualScale | MatPlotOpenCV/include/figure.h:197-211 | with equal scale on, both older spans are equal |
| AxisResolution.LegacyResolveFallback | MatPlotOpenCV/include/figure.h:186-190 | with autoscale on and no line or scatter data, the older figure yields the unit square |
| AxisResolution.LegacyResolveTight | MatPlotOpenCV/include/figure.h:165-195 | with autoscale on and a data box of positive spans, the older limits are exactly the data box (no padding) |
| AxisResolution.EnsureNonzeroSpan | src/figure.cpp:612-618 | the method computes `NonzeroSpan` |
| AxisResolution.FixRanges | src/figure.cpp:620-624 | the axes' limits become `FixLimits` of the old ones, and the flags are kept |
| AxisResolution.PadAxes | src/figure.cpp:195-201 | the axes' limits become the padded old ones |
| AxisResolution.EqualizeAxes | src/figure.cpp:204-213 | the axes' limits become the equal-scale step of the old ones |
| AxisResolution.LegacyEqualizeAxes | MatPlotOpenCV/include/figure.h:197-208 | the same, on the older axes |
| AxisResolution.LegacyFixRanges | MatPlotOpenCV/include/figure.h:502-506 | the older axes' limits become `FixLimits` of the old ones |
| DrawOps.XGridInPlot | src/figure.cpp:559-567 | every current vertical grid line runs from the bottom edge to the top edge of the plot, at an x inside it |
| DrawOps.XTickOpsShape | src/figure.cpp:543-548 | each x tick draws its mark, then its label 10 px left of and 18 px below the tick |
| DrawOps.YGridInPlot | src/figure.cpp:568-572 | every current horizontal grid line runs from the left edge to the right edge of the plot, at a y inside it |
| DrawOps.YTickOpsShape | src/figure.cpp:551-556 | each y tick draws its mark ending on the axis, then its label 30 px left of and 4 px below the tick (45 px in the older figure) |
| DrawOps.LineOpsShape | src/figure.cpp:234-245 | a poly-line of n points draws n − 1 segments (none for 0 or 1 point), each joining consecutive points |
| DrawOps.PixelPoints | src/figure.cpp:342-349 | a polygon maps to as many pixel vertices as it has points |
| DrawOps.ShapePaintModes | src/figure.cpp:266-288 | a shape fills only when alpha > 0: blended when alpha < 1, opaque otherwise. It outlines in the line colour only when the thickness > 0, and always after the fill |
| DrawOps.WithoutShapes | MatPlotOpenCV/include/figure.h:225-272 | removing the shape commands keeps a subsequence of line, scatter and text commands |
| DrawOps.LegacyIgnoresShapes | MatPlotOpenCV/include/figure.h:221-274 | the older render draws the same as if its shape commands were absent |
| DrawOps.LegendItems | src/figure.cpp:396-397 | the legend items are a subsequence of the commands |
| DrawOps.LegendItemsConcat | src/figure.cpp:396-397 | the selection distributes over concatenation, so it keeps the commands' order |
| DrawOps.LegendItemsMembers | src/figure.cpp:396-397 | a command is an item exactly when it has a non-empty label |
| DrawOps.MaxLabelWidth | src/figure.cpp:400-406 | the widest label width: at least every label's width, attained by some label, or 0 |
| DrawOps.MaxLabelHeight | src/figure.cpp:400-406 | the tallest label height plus baseline, likewise |
| DrawOps.LegendGeometry | src/figure.cpp:407-412 | rows are at least 6 px tall; the box is as tall as all rows plus 10, and wide enough for swatch, gap and padding |
| DrawOps.RowsInsideBox | src/figure.cpp:419 | every row's centre lies inside the legend box, and rows are one row height apart |
| DrawOps.SwatchOp | src/figure.cpp:421-433 | the swatch is a segment for a line, a dot for a scatter or circle, and a filled rectangle otherwise, always in the command's colour |
| DrawOps.ItemOpsShape | src/figure.cpp:416-435 | each item draws its swatch, then its label |
| DrawOps.LegendFrame | src/figure.cpp:414-415 | the frame is a white fill, then a black outline |
| DrawOps.LegendOpsShown | src/figure.cpp:393-437 | a legend that is on and has items draws the frame, then the items |
| DrawOps.LegendItemsEmpty | src/figure.cpp:396-398 | there are no items exactly when no command has a label |
| DrawOps.LegendOpsEmpty | src/figure.cpp:393-398 | the legend draws nothing exactly when it is off or no command has a label |
| DrawOps.LegendOpsItems | src/figure.cpp:393-437 | otherwise it draws 2 + 2·(items) primitives, with the i-th swatch on row i |
| DrawOps.RotatedLabel | src/figure.cpp:579-584 | the rotated label bitmap has rows equal to the text width and columns equal to height plus baseline |
| DrawOps.YLabelOnCanvas | src/figure.cpp:586-592 | a y label is blitted only when it fits wholly on the canvas, and it is centred vertically on the plot when no taller than it |
| DrawOps.FigureOpsParts | src/figure.cpp:216-448 | a current render draws the grid, then the axes, the commands, the legend, the titles and the y label |
| DrawOps.LegacyFigureOpsParts | MatPlotOpenCV/include/figure.h:213-291 | an older render draws the grid, then the axes, the commands, the titles and the y label |
| CanvasModel.Canvas.constructor | src/figure.cpp:23 | a new image is blank white |
| CanvasModel.Canvas.Clear | src/figure.cpp:222 | `setTo(white)` paints over everything drawn |
| CanvasModel.CommandsOpsStep | src/figure.cpp:229-231 | one more command adds its own primitives after those of the earlier ones; the older figure adds nothing for a shape |
| CanvasModel.DrawShape | src/figure.cpp:271-287 | fill, then outline, as `ShapeOps` says |
| CanvasModel.DrawPolyline | src/figure.cpp:234-245 | the segment loop appends exactly `LineOps` |
| CanvasModel.DrawMarkers | src/figure.cpp:246-257 | the marker loop appends exactly `ScatterOps` |
| CanvasModel.MapPoints | src/figure.cpp:345-347 | the vertex loop yields `PixelPoints` |
| CanvasModel.DrawCommand | src/figure.cpp:232-388 | one command is drawn per its kind as `CommandOps` says; the older figure skips shapes |
| CanvasModel.DrawCommands | src/figure.cpp:229-390 | all commands are drawn in insertion order |
| CanvasModel.DrawTitles | src/figure.cpp:440-447 | the title is drawn at (50, 25) in scale 0.6 and the x label at (w/2 − 40, h − 10) in scale 0.5, each only when non-empty |
| CanvasModel.DrawGridLines | src/figure.cpp:559-573 | one light-grey line per in-window x tick and per in-window y tick; the older figure draws every tick |
| CanvasModel.DrawAxisLines | src/figure.cpp:537-557 | both axis lines, with a mark and a label per tick, in the order drawn |
| FigureModel.CoversWithin | include/figure.h:38-43 | a command the data box covers stays covered as the box grows |
| FigureModel.CoversAllWithin | include/figure.h:38-43 | the same for all retained commands |
| FigureModel.ContainsBetween | src/figure.cpp:99-100 | a box containing two opposite corners contains everything between them |
| FigureModel.DiagonalBound | src/figure.cpp:139 | the half-diagonal `0.5·sqrt(w²+h²)` is at least half of each side |
| FigureModel.HalfExtentsInside | src/figure.cpp:139-141 | the rotated rectangle's circumscribing square contains its unrotated extents |
| FigureModel.PointInPlot | src/figure.cpp:183-215 | with autoscale on and a non-negative padding, every data point maps into the plot rectangle |
| FigureModel.LineOpsInPlot | src/figure.cpp:234-245 | when every point maps inside the plot, so do both ends of every segment |
| FigureModel.ScatterOpsInPlot | src/figure.cpp:246-257 | when every point maps inside the plot, so does every marker's centre |
| FigureModel.AutoscaledDataInPlot | src/figure.cpp:183-257 | with autoscale on, every line segment and marker of a covered command is anchored inside the plot |
| FigureModel.AutoscaleForgetsCurrent | src/figure.cpp:184-191 | with autoscale on, the resolved limits do not depend on the limits before |
| FigureModel.EqualScalePixels | src/figure.cpp:203-215 | with equal scale on, one data unit covers the same number of pixels on both axes exactly when the plot rectangle is as wide as it is high |
| FigureModel.CollectLegendItems | src/figure.cpp:396-397 | the item loop collects `LegendItems` |
| FigureModel.MeasureLegendLabels | src/figure.cpp:400-406 | the measuring loop yields the widest label width and the tallest height plus baseline |
| FigureModel.LayOutLegend | src/figure.cpp:407-412 | the legend box geometry is `LegendGeometry` |
| FigureModel.Figure.constructor | include/figure.h:427-446 | a new figure is blank and dirty, has no commands, unit-square axes with padding 0.05 and autoscale on, an empty data box, the legend off at "northEast", and no valid y-label cache |
| FigureModel.Figure.SetXLim | src/figure.cpp:26-29 | x limits set, y limits kept, autoscale off, dirty |
| FigureModel.Figure.SetYLim | src/figure.cpp:30-33 | y limits set, x limits kept, autoscale off, dirty |
| FigureModel.Figure.AxisTight | src/figure.cpp:34-37 | padding 0, dirty |
| FigureModel.Figure.AxisPad | src/figure.cpp:38-41 | padding is `max(0, frac)`, dirty |
| FigureModel.Figure.Autoscale | src/figure.cpp:42 | autoscale set, dirty |
| FigureModel.Figure.EqualScale | src/figure.cpp:43 | equal scale set, dirty |
| FigureModel.Figure.Grid | src/figure.cpp:44 | grid set, dirty |
| FigureModel.Figure.Title | src/figure.cpp:45 | title set, dirty |
| FigureModel.Figure.XLabel | src/figure.cpp:46 | x label set, dirty |
| FigureModel.Figure.YLabel | src/figure.cpp:47 | y label set, its cache invalidated, dirty |
| FigureModel.Figure.Legend | src/figure.cpp:48-51 | legend flag and location set, dirty |
| FigureModel.Figure.ExpandBounds | src/figure.cpp:626-629 | the data box is folded over all points |
| FigureModel.Figure.Append | include/figure.h:548-549 | the command is appended and the figure is dirty; every retained command stays covered by the data box |
| FigureModel.Figure.Plot | include/figure.h:538-550 | a line command with the given data, colour, thickness and label is appended, and the data box takes every point |
| FigureModel.Figure.Scatter | include/figure.h:561-573 | a scatter command is appended, likewise |
| FigureModel.Figure.Text | src/figure.cpp:78-90 | a text command is appended; the data box is unchanged |
| FigureModel.Figure.Circle | src/figure.cpp:92-103 | a circle command is appended; the data box takes (cx − r, cy − r) and (cx + r, cy + r) |
| FigureModel.Figure.RectXYWH | src/figure.cpp:105-116 | a rectangle (x, y, x + w, y + h) is appended; the data box takes both corners |
| FigureModel.Figure.RectLTRB | src/figure.cpp:118-129 | a rectangle (x0, y0, x1, y1) is appended; the data box takes both corners |
| FigureModel.Figure.RotatedRect | src/figure.cpp:131-144 | a rotated rectangle is appended; the data box takes centre ± half the diagonal |
| FigureModel.Figure.Polygon | src/figure.cpp:146-161 | mismatched or empty coordinates change nothing; otherwise a polygon is appended and the data box takes every vertex |
| FigureModel.Figure.Ellipse | src/figure.cpp:163-174 | an ellipse is appended; the data box takes centre ± half width and half height |
| FigureModel.Figure.Mapping | src/figure.cpp:472-479 | the mapper uses the current limits and canvas size |
| FigureModel.Figure.DrawGrid | src/figure.cpp:559-573 | the grid is drawn only when enabled, at the in-window ticks |
| FigureModel.Figure.DrawAxes | src/figure.cpp:537-557 | the axes are drawn with y labels 30 px left of their ticks |
| FigureModel.Figure.DrawLegendItems | src/figure.cpp:416-435 | one swatch and one label per item, row by row |
| FigureModel.Figure.DrawLegend | src/figure.cpp:393-437 | the legend is drawn as `LegendOps` |
| FigureModel.Figure.DrawYLabel | src/figure.cpp:575-593 | the label is blitted at x = 5 when it fits; the cache becomes valid for every non-empty label, whether or not it fits, and stays invalid for an empty label |
| FigureModel.Figure.Redraw | src/figure.cpp:222-450 | after the clear, the image is exactly `FigureOps` of the resolved limits and retained state |
| FigureModel.Figure.AutoscaleAxes | src/figure.cpp:184-191 | with autoscale on, the limits become the data box, or the unit square when it is invalid |
| FigureModel.Figure.ResolveAxes | src/figure.cpp:183-215 | the limits become `Resolve` of the flags, data box and old limits |
| FigureModel.Figure.Render | src/figure.cpp:179-451 | a clean figure is left untouched (idempotent render). A dirty one becomes clean, with resolved limits and an image equal to `FigureOps` |
| FigureModel.Figure.Show | src/figure.cpp:453-458 | renders if dirty and returns the rendered image |
| FigureModel.Figure.Save | src/figure.cpp:460-464 | renders if dirty and returns the image written |
| LegacyFigureModel.LegacyDataBox | MatPlotOpenCV/include/figure.h:165-185 | the box the older autoscale folds over the line and scatter commands is consistent |
| LegacyFigureModel.HoldsPointsWithin | MatPlotOpenCV/include/figure.h:177-183 | a box holding a command's points still holds them after growing |
| LegacyFigureModel.LegacyDataBoxCovers | MatPlotOpenCV/include/figure.h:165-185 | the folded box contains every point of every line and scatter command |
| LegacyFigureModel.LegacyDataBoxValid | MatPlotOpenCV/include/figure.h:165-190 | the box is valid exactly when some line or scatter command has a point; otherwise it stays empty, which selects the fallback |
| LegacyFigureModel.LegacyResolveMappable | MatPlotOpenCV/include/figure.h:165-211 | with autoscale on, or with ordered limits, the older resolved limits are strictly ordered and the older mapper can divide by their spans |
| LegacyFigureModel.EqualStepKeepsOrder | MatPlotOpenCV/include/figure.h:197-208 | equal scale keeps strictly ordered limits strictly ordered |
| LegacyFigureModel.LegacyUnmappableLimits | MatPlotOpenCV/include/figure.h:346-347 | limits set with span −1e-12 make the older mapper divide by zero |
| LegacyFigureModel.LegacyFigure.constructor | MatPlotOpenCV/include/figure.h:62-65 | a new older figure is blank and dirty, with no commands and default unit-square axes |
| LegacyFigureModel.LegacyFigure.Plot | MatPlotOpenCV/include/figure.h:78-91 | a line command with the given colour and thickness is appended, unlabelled; nothing is checked |
| LegacyFigureModel.LegacyFigure.Scatter | MatPlotOpenCV/include/figure.h:100-113 | a scatter command is appended, likewise |
| LegacyFigureModel.LegacyFigure.Text | MatPlotOpenCV/include/figure.h:128-140 | a text command is appended |
| LegacyFigureModel.LegacyFigure.SetXLim | MatPlotOpenCV/include/figure.h:144 | x limits set, y limits kept, autoscale off, dirty |
| LegacyFigureModel.LegacyFigure.SetYLim | MatPlotOpenCV/include/figure.h:145 | y limits set, x limits kept, autoscale off, dirty |
| LegacyFigureModel.LegacyFigure.Autoscale | MatPlotOpenCV/include/figure.h:146 | autoscale set, dirty |
| LegacyFigureModel.LegacyFigure.EqualScale | MatPlotOpenCV/include/figure.h:147 | equal scale set, dirty |
| LegacyFigureModel.LegacyFigure.Grid | MatPlotOpenCV/include/figure.h:148 | grid set, dirty |
| LegacyFigureModel.LegacyFigure.Title | MatPlotOpenCV/include/figure.h:150 | title set, dirty |
| LegacyFigureModel.LegacyFigure.XLabel | MatPlotOpenCV/include/figure.h:151 | x label set, dirty |
| LegacyFigureModel.LegacyFigure.YLabel | MatPlotOpenCV/include/figure.h:152 | y label set, dirty |
| LegacyFigureModel.LegacyFigure.FoldPoints | MatPlotOpenCV/include/figure.h:177-183 | the min/max loop folds the points into the axes' extent |
| LegacyFigureModel.LegacyFigure.AutoscaleAxes | MatPlotOpenCV/include/figure.h:165-191 | with autoscale on, the limits become the line and scatter data box, or the unit square when there is none |
| LegacyFigureModel.LegacyFigure.ResolveAxes | MatPlotOpenCV/include/figure.h:165-211 | the limits become `LegacyResolve` of the flags, data and old limits |
| LegacyFigureModel.LegacyFigure.Mapping | MatPlotOpenCV/include/figure.h:344-352 | the older mapper uses the current limits and canvas size |
| LegacyFigureModel.LegacyFigure.DrawGrid | MatPlotOpenCV/include/figure.h:440-459 | when enabled, the grid is drawn at every unclipped tick |
| LegacyFigureModel.LegacyFigure.DrawAxes | MatPlotOpenCV/include/figure.h:405-437 | the axes are drawn at unclipped ticks, with y labels 45 px left of the tick |
| LegacyFigureModel.LegacyFigure.DrawYLabel | MatPlotOpenCV/include/figure.h:462-490 | the rotated label is blitted at x = 10 when it fits, with no cache |
| LegacyFigureModel.LegacyFigure.Redraw | MatPlotOpenCV/include/figure.h:213-291 | after the clear, the image is exactly `LegacyFigureOps` of the limits and retained state |
| LegacyFigureModel.LegacyFigure.Render | MatPlotOpenCV/include/figure.h:160-294 | a clean figure is left untouched. A dirty one becomes clean, with `LegacyResolve` limits and an image equal to `LegacyFigureOps` |
| LegacyFigureModel.LegacyFigure.Show | MatPlotOpenCV/include/figure.h:300-305 | renders if dirty and returns the image shown |
| LegacyFigureModel.LegacyFigure.Save | MatPlotOpenCV/include/figure.h:311-315 | renders if dirty and returns the image written |

## Where the code and its description differ

The model follows the code in each case.

* **Width of a zero span.** A zero span is widened by |lo|·1e-3 when
  |lo| > 1e-12, and by 1e-3 otherwise (`src/figure.cpp:615`). It is not
  widened by max(|lo|·1e-3, 1e-3). `AxisResolution.SpanEpsIsNotMax` shows
  the two differ at lo = 0.5.
* **Ellipse bounds.** The ellipse widens the data box by its unrotated
  half width and half height (`src/figure.cpp:170-171`), not by a
  circumscribing circle. Only the rotated rectangle uses half its
  diagonal.
* **Rounding in the mapper.** Pixel offsets use truncation after adding
  0.5 (`static_cast<int>(f·w + 0.5)`), not rounding. The two differ for
  fractions below −0.5/w.
* **Order of resolved limits.** Resolution guarantees non-zero spans,
  not `xmax > xmin`. Reversed user limits stay reversed
  (`AxisResolution.FixLimitsIdempotent`).
* **Padding with autoscale off.** Padding mutates the stored limits, so
  with autoscale off every dirty render pads the user's limits again
  (`AxisResolution.ResolveCompoundsPadding`).
* **Equal scale.** Equal scale makes the x and y data spans equal
  (`src/figure.cpp:204-213`). It does not make one data unit cover the
  same number of pixels on both axes: that holds only when the plot
  rectangle is square (`FigureModel.EqualScalePixels`).
* **Failed saves.** A failed file write or display is not reported:
  `imwrite`'s result is discarded.

## Left out

- Pixels. OpenCV rasterisation (anti-aliasing, line thickness, fonts,
  alpha blending through `addWeighted`) is not modelled. The image is the
  ordered list of primitives drawn since the last clear, and a blended
  fill is recorded with its alpha.
- Window and file output. `imshow`, `waitKey` and `imwrite` become the
  returned image of `Show`/`Save`, and the window name and file name are
  unused. Whether the write succeeds is not modelled.
- Text metrics. `cv::getTextSize` is a function parameter (`measure`) of
  each figure, since the font tables are outside the core.
- Floating point. Doubles are exact reals, with NaN left out and infinity
  used only for the empty box. The tick loop's `v += step` is modelled as
  exact multiples of the step, so accumulated rounding drift is not
  captured. `log10`/`pow` are the exact decade and power of ten, and
  float casts of shape sizes are exact.
- Layout.DataToPixel: pixel coordinates are unbounded integers. The
  source casts `f·w + 0.5` to `int` and adds it to `int` margins, so limits
  and data that push a pixel outside the range of `int` (for instance x
  limits 0 and 1e-10 with a point at x = 1e6) are undefined behaviour in
  the source. The model gives them the exact value instead (likewise
  `LegacyDataToPixel` and the shape sizes cast with `Trunc`).
- Ticks.TicksFor: requires `target != 1` (likewise `TickStep`,
  `MakeTicks`), because target 1 divides by zero. LegacyTicks.LegacyTicksFor
  requires `target >= 2` (likewise `LegacyTickStep`, `LegacyMakeTicks`),
  because a smaller target feeds a range that is not positive into the
  unguarded older `nice_num`. Every caller passes the default target 6.
- Tick label text. A label is modelled as the tick value with its number
  of decimals (`Fixed(v, d)`), not as the characters `ostringstream`
  produces.
- The y-label bitmap. Only its size, its placement test and (current
  version) the cache flag are modelled, not its pixels or the rotation.
- FigureModel.Figure.RotatedRect: takes the diagonal length as a
  parameter with `diag ≥ 0` and `diag² = w² + h²` instead of computing
  `sqrt`.
- FigureModel.Figure.Plot: requires `|x| <= |y|` (likewise `Scatter`),
  because the source reads `y[i]` for every `i < x.size()` and a shorter
  `y` is undefined behaviour. The header asks for equal lengths.
- LegacyFigureModel.LegacyFigure.Render: requires, when the figure is
  dirty, that every command is well formed and that the resolved limits
  keep the older mapper's divisor non-zero (the same for `Show` and
  `Save`). The older `plot`/`scatter` do not check lengths, and a shorter
  `y` is an out-of-bounds read. Limits set by the user with span exactly
  −1e-12 divide by zero (`LegacyUnmappableLimits`). Both are undefined
  behaviour, so the model does not give them a meaning.
- Older shape kinds. The older `CmdType` lists the shape kinds, but its
  figure has no method that creates them and its render switch ignores
  them. The model uses one `PlotCommand` type for both versions and
  proves that the older render skips shapes (`LegacyIgnoresShapes`).
  Older commands carry an empty label.
- `include/plot_command.h` (the newer header) is not part of this model.
  The newer figure uses the same fields as the older header, plus the
  label, and the model follows that.
- `include/color.h` is reduced to an RGB triple with the named colours.
  The tests are not modelled.
- Move semantics and the `const&`/`&&` overload pairs of `plot` and
  `scatter` are one method each. Aliasing of the vectors passed in is
  not modelled.
