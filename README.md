# Bar chart layout of the Good Deed Counter app

This project models the layout of the app's horizontal bar chart, `BarChartView`. Setting the
chart's `dataEntries` does three things:

1. It clears the main layer.
2. It draws each entry as one row: a title text layer, a bar, and a text layer showing the count.
3. After each row it checks whether the row is wider than the screen. When one is, it removes
   every layer, goes back to entry 0 and redraws with a shrink factor 0.2 larger. The factor
   starts at 3.0 and is shared by all bars.

The model has three modules:

- `BarGeometry` (file `geometry.dfy`) holds the view's constants and the frame formulas of one
  row (`showEntry`, `drawTitle`, `drawBar`, `drawTextValue`). It also holds the bar width
  (`calculateBarWidth`), the row width used by the fit check, and the content height set by
  `layoutSubviews`.
- `LayoutSearch` (file `layout_search.dfy`) is the specification of the restart loop:
  - the factor after `k` restarts is exactly `3.0 + k/5`;
  - when an entry fits, and when it can fit at all;
  - an explicit bound on the number of restarts;
  - the least restart count that fits every entry;
  - the layer list the loop leaves behind.
- `BarChart` (file `bar_chart_view.dfy`) is the view itself, as a class whose methods update its
  fields in place. `SetDataEntries` is the `didSet` observer, written with the same two nested
  `while` loops. It is proved to leave exactly the chart the specification describes, after the
  least number of restarts.

Three details of the code are easy to misread:

- The fit check counts four fixed paddings: two 30-point margins and two 30-point gaps.
- The content height of an empty chart is 30, the bottom margin, not 0.
- The bar width is `abs(value / factor * (layerWidth - 40))`. The absolute value is taken of the
  whole product, so a main layer narrower than 40 points still gives a bar of non-negative width.

## Model

| member | source | states |
|---|---|---|
| BarGeometry.BarWidth | BarCharts/BarChartView.swift:151-155 | The bar width is never negative, whatever the sign of the count or of the layer width minus spacing. |
| BarGeometry.BarWidthTimesFactor | BarCharts/BarChartView.swift:151-155 | The bar width times the factor is the value's magnitude times the magnitude of the layer width minus spacing: the bar is inversely proportional to the factor. |
| BarGeometry.BarWidthShrinks | BarCharts/BarChartView.swift:151-155 | A larger shrink factor never gives a wider bar. |
| BarGeometry.BarWidthZero | BarCharts/BarChartView.swift:151-155 | A bar has zero width exactly when its count is zero or the layer width equals the 40-point spacing. |
| BarGeometry.RowY | BarCharts/BarChartView.swift:82 | The bar of every row starts at least one spacing below the top. |
| BarGeometry.RowsIncrease | BarCharts/BarChartView.swift:82 | A later row starts strictly lower, and at least one bar height plus one spacing below an earlier row, so rows never overlap. |
| BarGeometry.TextFrameEdges | BarCharts/BarChartView.swift:102 | A text layer's frame starts at the given point, reaches 15 points past the measured text width, and is exactly the measured text height tall (as for the value label at line 142). |
| BarGeometry.BarFrameEdges | BarCharts/BarChartView.swift:114 | A bar's frame starts at the given point, spans exactly the given width, and is one 40-point bar height tall. |
| BarGeometry.EntryLayers | BarCharts/BarChartView.swift:80-88 | Each row draws exactly three layers. |
| BarGeometry.EntryGeometry | BarCharts/BarChartView.swift:80-149 | A row is a title layer at the 30-point margin, then a bar one 30-point gap after the title's right edge, then a value layer starting where the bar ends. Both labels are their measured width plus 15 and their measured height. The bar is the scaled bar width by 40 points, on the row line, and the labels sit a quarter bar lower. |
| BarGeometry.EntryWidth | BarCharts/BarChartView.swift:90 | The row width used by the check is the label-only width plus the bar width, so it never falls below the label-only width. |
| BarGeometry.TooBig | BarCharts/BarChartView.swift:90-92 | A row is flagged as too big exactly when its bar is wider than the room the labels and the four paddings leave on the screen. |
| BarGeometry.FitsOnScreen | BarCharts/BarChartView.swift:88-92 | The row width is the value label's right edge plus two margins. The row passes the check exactly when that sum is within the screen width. |
| BarGeometry.ContentHeight | BarCharts/BarChartView.swift:77 | The content height is the bottom margin for no entries. Otherwise it is the bottom edge of the last bar plus the margin. |
| BarGeometry.ContentCoversBars | BarCharts/BarChartView.swift:77 | Every bar ends at least the bottom margin above the bottom of the scrollable content. |
| LayoutSearch.Factor | BarCharts/BarChartView.swift:36-49 | The factor after `k` restarts is at least the initial 3.0 and exceeds k/5. |
| LayoutSearch.FactorStep | BarCharts/BarChartView.swift:49 | Each restart adds exactly 0.2 to the factor. |
| LayoutSearch.FactorGrows | BarCharts/BarChartView.swift:36-49 | The factor never decreases over restarts: it grows by 0.2 per restart. |
| LayoutSearch.FitMonotone | BarCharts/BarChartView.swift:43-51 | An entry that passes the check under some factor passes it under every later, larger factor. |
| LayoutSearch.FitsFromBound | BarCharts/BarChartView.swift:43-51 | An entry that can fit passes the check once the restart count reaches its explicit bound. |
| LayoutSearch.CanFitIff | BarCharts/BarChartView.swift:43-51 | Some restart count makes an entry fit if and only if its labels alone are narrower than the screen, or it already fits at factor 3.0. |
| LayoutSearch.NeverFits | BarCharts/BarChartView.swift:39-54 | If one entry cannot fit, no pass fits every entry, so the restart loop never ends. |
| LayoutSearch.RestartBound | BarCharts/BarChartView.swift:39-54 | One restart count bounds the fit bound of every entry. |
| LayoutSearch.AllFitFromBound | BarCharts/BarChartView.swift:39-54 | When every entry can fit, every entry fits once the restart count reaches that bound. |
| LayoutSearch.FirstFit | BarCharts/BarChartView.swift:39-54 | From a given count on, the result is the first restart count under which every entry passes the check. No count between is a fit, and the result is within the bound. |
| LayoutSearch.LeastFitExists | BarCharts/BarChartView.swift:39-54 | When every entry can fit, there is a least restart count under which all of them pass the check. |
| LayoutSearch.Restarts | BarCharts/BarChartView.swift:39-54 | The number of restarts is the least count under which every entry passes the check. |
| LayoutSearch.FitsExtend | BarCharts/BarChartView.swift:39-53 | A pass whose first `n` entries fit, followed by a fitting entry `n`, fits its first `n + 1` entries. |
| LayoutSearch.OverflowBeforeLast | BarCharts/BarChartView.swift:43-51 | A pass in which some entry overflows is not the final pass. |
| LayoutSearch.FitIsLast | BarCharts/BarChartView.swift:39-54 | The first pass in which every entry fits is the final pass. |
| LayoutSearch.Layers | BarCharts/BarChartView.swift:39-53 | Drawing `n` entries leaves three layers per entry. |
| LayoutSearch.LayersAt | BarCharts/BarChartView.swift:39-53 | Layer `3i + j` of the drawn list is layer `j` of entry `i`'s row, under the pass's single factor. |
| LayoutSearch.LayersOrdered | BarCharts/BarChartView.swift:39-53 | Rows are drawn in input order: each bar plus one spacing ends above every later bar, and the labels of a row sit above those of every later row. |
| LayoutSearch.Chart | BarCharts/BarChartView.swift:39-54 | The layer list the loop leaves behind, built with the final factor, holds exactly three layers per entry. |
| LayoutSearch.ChartLayout | BarCharts/BarChartView.swift:29-58 | The finished chart holds one title/bar/value triple per entry, in order, under the final factor `3.0 + 0.2 * restarts`. Every entry passes the width check under that factor, and every bar lies within the content height. An empty list draws nothing and makes no restart. |
| BarChart.BarChartView.constructor | BarCharts/BarChartView.swift:26-72 | A new view has no entries, no layers, a cleared fit flag and cursor 0, zero-sized scroll and main-layer frames, and the frame it was given. |
| BarChart.BarChartView.LayoutSubviews | BarCharts/BarChartView.swift:74-78 | The scroll view fills the view. Its content is as wide as the view and as tall as the content height for the current number of entries. |
| BarChart.BarChartView.SetDataEntries | BarCharts/BarChartView.swift:29-58 | Stores the entries and sizes the main layer to the content size. The layers left behind are exactly the chart for the least restart count under which every entry fits. With at least one entry, the fit flag ends cleared and the cursor ends on the last entry; with none, both are left as they were. |
| BarChart.BarChartView.ShowEntry | BarCharts/BarChartView.swift:80-93 | Appends exactly the row's three layers to the main layer. Sets the fit flag exactly when the row's width exceeds the screen width. The ghost display argument only names the main layer's width and the screen width for the contract. |
| BarChart.BarChartView.DrawTitle | BarCharts/BarChartView.swift:96-109 | Appends and returns a title layer at the given point, as wide as the measured title plus 15. |
| BarChart.BarChartView.DrawBar | BarCharts/BarChartView.swift:111-127 | Appends and returns a bar of the given width and the fixed 40-point height at the given point. |
| BarChart.BarChartView.DrawTextValue | BarCharts/BarChartView.swift:136-149 | Appends and returns the count's text layer at the given point, as wide as its measured text plus 15. |

## Left out

- Rendering is not modelled. The CALayer and UIScrollView objects are reduced to their frames, and the main layer's sublayers to a list of layer values. Left out with them are fonts, alignment, `contentsScale`, the foreground colour for dark mode, and the `setupView` layer wiring.
- The bar colour is not modelled: the navigation-bar colour lookup in user defaults, the default blue, and the brightness scaled by 0.8 (`changeLayerToColorFromComponents`). They change no geometry.
- The fade-in animation `addAnimationToLayer` is left out, because it has no effect on layout.
- Text measurement (`preferredFrameSize`) is outside the model. Each entry carries the measured sizes of its title and of its count's text as inputs.
- The count's label is kept as the integer it shows. Its decimal rendering is not modelled.
- `UIScreen.main.bounds.width` is a parameter of `SetDataEntries`, and through it of the fit check.
- Every `CGFloat` and `Float` is an exact real, so the rounding of `factor += 0.2` in 32-bit floating point is not modelled. The model's factor after `k` restarts is exactly `3.0 + k/5`.
- LayoutSearch.Factor: in 32-bit `Float`, adding 0.2 no longer changes the factor once it reaches 2^22 (4194304). The source therefore also hangs on an entry that needs a larger factor, and the model's precondition for `SetDataEntries` still admits such an entry. Example: a count of 1000 in a 400-point layer gives an unshrunk bar of 360000 points. If its labels leave 0.01 points of room, it needs a factor above 3.6·10^7.
- BarChart.BarChartView.SetDataEntries: requires that every entry can fit under some factor. When one cannot, the source loops forever. `LayoutSearch.NeverFits` proves that no pass then ever fits, so the method is not modelled for that case.
- The `init?(coder:)` initializer is not modelled: it only stops the program.
- The other view controllers, the `BarEntry` record's construction, and the test targets are not part of this model.
