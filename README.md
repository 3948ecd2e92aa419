# d3-coordinated-viz: a verified model of the data logic

This project models the data logic of `js/main.js`, an interactive choropleth map of US states linked to a bar chart of GDP per capita. It covers:

- **The region-attribute join (`joinData`).** For every CSV row, every GeoJSON feature whose `properties.name` equals the row's `name` gets the parsed value of each year attribute `2010`…`2016`. The features are updated in place.
- **The colour domain (`makeColorScale`).** The expressed attribute's parsed values are collected in row order.
- **Fallback colouring (`choropleth`).** A number gets the quantile colour. A missing or non-numeric value gets grey `#CCC`.
- **Bar geometry (`updateChart`).** x is an equal share of the inner width per index. Height is `463 - yScale(v)` and y is `yScale(v) + 10`.
- **Label placement (`moveLabel`).** The label sits right of and above the cursor. It flips left near the right edge of the window and flips below near the top.
- **Hover styling (`highlight`/`dehighlight`).** A highlight stroke goes on every element whose class attribute holds the region's name as a token. On mouse-out each such element's stroke is restored from its own embedded descriptor.
- **The selection state (`changeAttribute`).** The global `expressed` attribute is reassigned and the colour scale is rebuilt.

Modules:
- `Values` models JavaScript values. `parseFloat` on strings is the parameter `parse`, `undefined` is `None`, and `==` is loose equality.
- `Join` models `joinData`. A `Feature` class holds the mutable `properties`, and `JoinData` is proved against the left fold `Joined`.
- `Color` holds the palette, the quantile scale record and `Choropleth`.
- `Session` models the `expressed` state, `makeColorScale` and `changeAttribute`.
- `Chart` models the linear `yScale` and the bar attributes.
- `Label` models `moveLabel`.
- `Highlight` models the styled elements and their inline strokes.

The d3 colour scale and `yScale` are passed in as functions. The colour scale is only assumed to return one of the five colour classes. The baseline and spacing lemmas hold for any `yScale`. `YScale` is the source's linear scale, `[0, 181000]` onto `[463, 0]`.

Where the code and its description differ, the model follows the code:
- A bar whose value is missing gets NaN `y` and `height` (`js/main.js:320-325`), not a guarded value. `Chart.BarsShareBaseline` states exactly when this happens.
- Row names are not assumed unique. The last matching row in CSV order wins (`Join.JoinedLastMatch`).
- The colour domain is an array in row order that keeps NaN entries. It is not a set of valid values.
- A feature without a `name` matches a row without a `name`, because `undefined == undefined` is true in JavaScript.

## Model

| member | source | states |
|---|---|---|
| `Join.Assigned` | js/main.js:208-211 | writing `parseFloat(row[attr])` for each attribute in turn leaves exactly the old keys plus the attributes; each attribute holds its parsed row value; every other key keeps its old value |
| `Join.AssignAttributes` | js/main.js:208-211 | the `forEach` loop leaves the feature's properties equal to `Assigned` of the old properties |
| `Join.ScanFeature` | js/main.js:201-212 | the inner-loop body takes a feature that has not yet seen the row, or already has, to its joined properties for that row |
| `Join.ScanFeatures` | js/main.js:199-213 | after the scan over all features, every feature object holds its properties joined up to and including this row, even when the array lists an object twice |
| `Join.JoinRowIntoFeatures` | js/main.js:194-214 | one pass of the outer loop takes every feature from joined-with-rows-before-`i` to joined-with-rows-up-to-`i` |
| `Join.JoinData` | js/main.js:192-216 | returns the same array; every feature's new properties are `Joined` over all CSV rows in order, starting from its old properties |
| `Join.JoinedKeepsName` | js/main.js:199-212 | the join never changes a feature's `name` key, so later rows are matched against the original name |
| `Join.JoinedUnmatched` | js/main.js:194-213 | a feature that no row matches keeps its properties unchanged |
| `Join.JoinedLastMatch` | js/main.js:194-211 | a matched feature's properties are the original ones with the attributes of the last matching row written over them |
| `Join.JoinCompleteness` | js/main.js:194-211 | after the join, every attribute of a matched feature equals the parse of its last matching row's cell; every non-attribute property keeps its presence and value |
| `Join.JoinedWritesOnlyAttributes` | js/main.js:207-211 | for any rows, the join adds only attribute keys and leaves every other key's presence and value unchanged |
| `Color.Choropleth` | js/main.js:248-257 | the result is `#CCC` exactly when the parsed expressed value is NaN or missing; otherwise it is the scale's colour for that value, one of the five classes |
| `Color.JoinedRegionMatchesBar` | js/main.js:229-234 | after the join, a region and the bar of its last matching CSV row get the same colour for every expressed attribute, so the map and the chart agree |
| `Session.Session.constructor` | js/main.js:6-7 | the initial expressed attribute is the first of the attribute list |
| `Session.Session.MakeColorScale` | js/main.js:146-171 | the domain array has one entry per row, and entry `i` is the parse of row `i`'s expressed cell; the range is the five colour classes |
| `Session.Session.ChangeAttribute` | js/main.js:284-289 | the expressed attribute becomes the chosen one, and the rebuilt scale's domain holds that attribute's parsed values in row order |
| `Chart.YScaleDecreasing` | js/main.js:20-22 | the linear scale maps 0 to 463 and 181000 to 0, and larger values give strictly smaller y |
| `Chart.UpdateChart` | js/main.js:314-329 | one bar per datum, in selection order |
| `Chart.BarsShareBaseline` | js/main.js:320-325 | for any `yScale`, a bar with a numeric value has `y + height = 473`, so all bars share one baseline; a bar has NaN geometry exactly when its value is missing, which is exactly when it is grey |
| `Chart.BarsAdvance` | js/main.js:316-318 | the first bar starts at the left padding; consecutive bars are `chartInnerWidth / n` apart; the one-pixel narrower bar width (js/main.js:110) leaves exactly one pixel between neighbours |
| `Chart.BarsIncreasing` | js/main.js:316-318 | in a window wide enough that `chartInnerWidth = innerWidth * 0.408 - 60 - 2` (js/main.js:10-15) is positive, x increases strictly with the bar's index |
| `Chart.LinearBarsFit` | js/main.js:320-325 | with the source's linear scale, a bar's height is its value times 463/181000, proportional as the comment at js/main.js:19 promises, and its y is 473 less that height; a value in [0, 181000] gives a height in [0, 463] and a top no higher than the top padding |
| `Label.MoveLabel` | js/main.js:398-406 | flipped left, the label's right edge is 10px left of the cursor; otherwise it starts 10px right of the cursor and ends at least 10px inside the window; y is 25px below the cursor near the top and 75px above it otherwise, never above the top edge |
| `Label.NearRightEdgeFlips` | js/main.js:404 | a cursor at `innerWidth - labelWidth + 5` takes the left-flip branch |
| `Highlight.VirginiaSelectsWestVirginia` | js/main.js:339-341 | as written, the selector for "Virginia" selects West Virginia's path and bar (see Findings) |
| `Highlight.MultiWordNameSelectsNothing` | js/main.js:339-341 | as written, the selector for "New York" selects none of New York's own elements (see Findings) |
| `Highlight.VirginiaHoverTouchesWestVirginia` | js/main.js:337-353 | as written, hovering "Virginia" puts the highlight stroke on every West Virginia shape, and the mouse-out resets it to that shape's descriptor |
| `Highlight.SpacedNameChangesNothing` | js/main.js:337-353 | as written, hovering a region whose name holds a space changes no element's stroke, on the mouse-over or the mouse-out |
| `Highlight.HoverRestores` | js/main.js:337-363 | for either selection, highlight then dehighlight leaves each selected element with its own descriptor's stroke: none/0px for a bar (js/main.js:115-116), #000/0.5px for a region path (js/main.js:243-244); every unselected element is as before |
| `Highlight.HighlightSelectsRegion` | js/main.js:337-341 | with the corrected selection, highlighting sets the highlight stroke on the region's elements and leaves every other element's style unchanged |
| `Highlight.HoverRestoresRegion` | js/main.js:337-353 | with the corrected selection, a hover over a region of any name restores exactly that region's elements to their descriptors and leaves every other element as before |
| `Highlight.StyleTable.Highlight` | js/main.js:337-341 | the table's new inline strokes are the highlight of the old ones over the elements whose class attribute holds the name as a token |
| `Highlight.StyleTable.Dehighlight` | js/main.js:346-363 | the table's new inline strokes reset each element selected by class token to its descriptor and keep the rest |
| `Highlight.Hover` | js/main.js:235-240 | a mouse-over followed by a mouse-out on one region path, or on one bar (js/main.js:111-112), resets every element whose class attribute holds the name as a token to its descriptor, and changes nothing else |

## Findings

| source | as written | input that shows it | evidently intended | confidence | as-written member | corrected member |
|---|---|---|---|---|---|---|
| js/main.js:339-341 | `selectAll("." + name)` selects every element with `name` among its class tokens, and the class attribute is `"states " + name` or `"bar " + name` | hovering "Virginia" also highlights the path and bar of "West Virginia" | highlight only the hovered region's path and bar | high; not executed | `Highlight.VirginiaSelectsWestVirginia` | `Highlight.HighlightSelectsRegion` |
| js/main.js:339-341 | a name containing a space makes a CSS descendant selector | hovering "New York" (also "North Carolina", "West Virginia", …) changes no stroke, and neither does the mouse-out | the region's own path and bar highlight and then restore | high; not executed | `Highlight.MultiWordNameSelectsNothing` | `Highlight.HoverRestoresRegion` |

`Highlight.SelectsAsWritten` models the source's selection, `ByClassToken` in `Highlight.Selection`. The style table and `Highlight.Hover` use it, as the source does. `ByRegion` is the corrected selection by region name, and the corrected lemmas are stated with it.

## Left out

- Sorting the bars (js/main.js:104-106, 301-303) is done by d3's `selection.sort` and the browser's sort. The source has no sort of its own, and its comparator subtracts CSV strings, which JavaScript coerces to numbers.
- How the quantile scale maps a value to a class (d3 internals) is not modelled. `Color.IntoPalette` only states that the result is one of the five classes. So the quantile partition and equal-count buckets are not stated.
- Choropleth: the colour scale is taken as any function into the five colour classes, not as d3's quantile scale over the domain array.
- Transitions, durations and per-bar delays (js/main.js:292-308) are animation timing and are not modelled.
- SVG and DOM construction is presentation and is not modelled: `setMap`, `setChart`, `setGraticule`, `setEnumerationUnits`, `createDropdown`, the chart title (js/main.js:330-333), and the info label's creation and removal (`setLabel`, js/main.js:364-365).
- Data loading (`d3_queue`, `d3.csv`, `d3.json`) and `topojson.feature` are I/O and library calls. The join takes the parsed rows and features as inputs.
- The load callback (js/main.js:52) never reads its `error` argument. On a failed load it draws the graticule and then throws a TypeError when it reads the undefined data, so it does not stop cleanly before rendering. Loading is not modelled, so neither is this failure.
- `parseFloat`'s number grammar is the parameter `parse`. JavaScript infinities are not modelled, and pixel arithmetic uses exact reals, not IEEE doubles.
- `Values.LooseEquals` treats a string compared with a number as unequal. JavaScript would convert the string. Both name keys are strings in the data.
- Selector edge cases beyond spaces are not modelled. An empty name or other CSS syntax in a region name gives an invalid or different selector.
- `window.innerWidth`, `d3.event.clientX`/`clientY` and the label's bounding width become parameters of `Label.MoveLabel` and `Chart.ChartInnerWidth`. `Label.MoveLabel` takes them as integers.
- The global `expressed` is read by `choropleth` and `updateChart`. Here it is an explicit argument to those functions, and it is the `Session` field for `makeColorScale`.
- Chart.UpdateChart: takes `n` as the number of bars. Both callers pass `csvData.length`, which is the number of bars drawn.
- The style table models only the `stroke` and `stroke-width` inline styles. The descriptors are taken as already parsed from their JSON text (`JSON.parse`, js/main.js:355-363).
