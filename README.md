# GDP bar chart: layout, scales, bar geometry and tooltip, in Dafny

This project models the arithmetic and string logic of a one-page D3 bar chart
of quarterly US GDP (`script.js`). The chart decides its size and orientation
from the viewport width once at load time. It builds a time scale and two value
scales, draws one bar per quarter, and shows a tooltip beside the hovered bar
that flips to the other side near the chart's edge.

- `quarter.dfy`, module `Quarter`: `getQuarter` and the JavaScript `slice` it
  relies on, with the lookup compared against calendar quarters.
- `layout.dfy`, module `Layouts`: the load-time block that reassigns `width`,
  `height`, `padding` and `rotate`. It is written as the imperative method
  `Resolve` and proved equal to the three-range table `Resolved`.
- `scales.dfy`, module `Scales`: D3's linear scale as an exact affine map over
  `real`, the three chart scales, `d3.max` over the values, the shared bar
  thickness, and each bar's rectangle. The rectangle is related to the axes'
  tick positions and to the baseline.
- `tooltip.dfy`, module `Tooltip`: the tooltip constants, the placement rules
  with their edge flips, and a `TooltipView` class whose `MouseOver` and
  `MouseOut` methods update the tooltip's position, content and opacity.

The model follows the code, including these edge cases of its arithmetic:

- The padding fits inside both chart dimensions only when the viewport is at
  least 57 wide. Below that, the rotated chart's width (4/5 of the viewport) is
  smaller than its padding of 45 (`Layouts.Resolved`).
- A zero value gets zero bar length only when some value is non-zero. If every
  value is zero, D3's linear scale has a single-point domain and maps every
  value to the middle of the range (`Scales.YScale`).
- In the normal chart the bar thickness divides `width - padding`, but the time
  axis spans only `width - 2 * padding`. The bins therefore total one padding
  more than the axis (`Scales.BinsFillExtent`). In the rotated chart the two
  agree.
- The flipped tooltip x is `x - 20 - 128 - 4`, where `x` is the proposed
  position `bar.x + 20`. The flipped tooltip therefore sits at `bar.x - 132`.
- In the rotated chart the tooltip box starts 10 left of half the width and is
  128 wide, so its centre is 54 right of the middle (`Tooltip.Anchor`). It fits
  across the chart only when the viewport is at least 295 wide
  (`Tooltip.RotatedTooltipOnScreen`).

## Model

| member | source | states |
|---|---|---|
| `Quarter.Slice` | script.js:195-196 | `slice` with non-negative bounds clamps both ends to the string: it is the substring from `start` to the smaller of `end` and the length when `start` is below both, and empty otherwise |
| `Quarter.GetQuarter` | script.js:194-207 | the label is the (possibly short) year slice followed by `" Q"` and a digit from 1 to 4, for every input string |
| `Quarter.GetQuarterOfDate` | script.js:194-207 | for a date of at least 7 characters the label is the first four characters, `" Q"` and a digit; the digit is 1, 2 or 3 exactly when the month field is `"01"`, `"04"` or `"07"`, and 4 exactly for every other month |
| `Quarter.GetQuarterAgreesWithCalendar` | script.js:197-206 | for a numeric month 1..12 the label's quarter equals the calendar quarter if and only if the month is 1, 4, 7, 10, 11 or 12; other months still fall to Q4 |
| `Quarter.GetQuarterExamples` | script.js:194-207 | in every four-character year, the dates `-01-01`, `-04-01` and `-07-01` are labelled with the year and Q1, Q2 and Q3 |
| `Quarter.GetQuarterDefaultExamples` | script.js:194-207 | in every four-character year, the dates `-10-01`, `-12-01` and `-05-01` all fall to the year and Q4 |
| `Quarter.GetQuarterShortDate` | script.js:194-207 | a date shorter than 7 characters, too short to hold a two-character month, is labelled Q4 after its first four characters, or the whole date when it is shorter than 4 |
| `Layouts.Resolved` | script.js:4-24 | the chart is never wider than the viewport; it is rotated if and only if the viewport is narrower than 625, and 1000 high if and only if rotated; the padding is smaller than both dimensions if and only if the viewport is at least 57 wide |
| `Layouts.Resolve` | script.js:4-24 | the in-order reassignment of the globals yields the defaults 1000/500/40/unrotated from 1000 up, 4/5 of the viewport wide with height 500 and padding 40 from 625 up, and rotated with height 1000 (the width before shrinking) and padding 45 below 625 |
| `Scales.EndPoints` | script.js:61-68 | a linear scale with a proper domain maps the domain's ends to the range's ends |
| `Scales.Shifted` | script.js:61-68 | moving a scale's range by c moves every output by c |
| `Scales.Mirrored` | script.js:61-68 | mirroring a scale's range about c mirrors every output about c |
| `Scales.Proportional` | script.js:65-68 | a scale from [0, max] onto [0, length] gives every value length × value / max |
| `Scales.Monotone` | script.js:61-64 | on an increasing domain a scale strictly increases with an ascending range and strictly decreases with a descending one |
| `Scales.MaxGdp` | script.js:63-67 | the maximum is at least every value and is one of the values |
| `Scales.ValueLength` | script.js:65-68 | the value axis runs from the padding inset to the far edge (the width rotated, the height normal), so it is positive whenever the padding fits |
| `Scales.CategoryExtent` | script.js:92-94 | the extent the bins share runs from the padding inset to the far edge along the categorical direction (the height rotated, the width normal), positive whenever the padding fits |
| `Scales.BarWidth` | script.js:92-94 | the shared thickness times the number of entries is the extent, and with a positive extent it is positive and at most the extent |
| `Scales.Baseline` | script.js:73-82 | the categorical axis line lies one value-axis length from the far edge: at `padding` with the value axis reaching the width rotated, at `height - padding` with it reaching the top normal |
| `Scales.CategoryTick` | script.js:73-82 | with the group's offset, the first date's tick is at `padding` and the last date's at `height` rotated or `width - padding` normal |
| `Scales.ValueTick` | script.js:83-90 | with a non-zero maximum, the tick of 0 is on the categorical axis line and the tick of the maximum at the far edge, `width` rotated and 0 normal |
| `Scales.XScale` | script.js:57-60 | the first date maps to `padding` (normal) or 0 (rotated) and the last date to `width - padding` or `height - padding` |
| `Scales.YAxisScale` | script.js:61-64 | at every value the tick scale is the bar-length scale mirrored about `height - padding` (normal) or moved right by `padding` (rotated) |
| `Scales.YScale` | script.js:65-68 | with a non-zero maximum, 0 maps to 0 and the maximum to the full value-axis length; if the maximum is 0, every value maps to half the length |
| `Scales.BinsFillExtent` | script.js:92-94 | thickness × number of bars equals `height - padding` rotated and `width - padding` normal, which is the time axis span rotated and that span plus one padding normal |
| `Scales.BarOf` | script.js:95-108 | every bar carries its index, date and value, stands on the categorical axis line (`y + height = height - padding` normal, `x = padding` rotated), starts at its date's tick, ends exactly at its value's tick on the value axis, and is one bin thick |
| `Scales.BarsUpTo` | script.js:95-99 | the data join yields one bar per entry, the i-th being the bar of entry i |
| `Scales.Bars` | script.js:95-108 | one bar per entry in dataset order, indexed and tagged with its date, and the i-th is the bar of entry i with its value tag and rectangle |
| `Scales.LengthProportional` | script.js:65-68 | a bar's length times the maximum equals its value times the value-axis length |
| `Scales.AxisScaleMonotone` | script.js:61-64 | with a positive maximum the tick scale strictly decreases with the value in the normal chart and strictly increases in the rotated chart |
| `Scales.FourQuarterChart` | script.js:92-108 | values 100, 200, 150, 300 at the default layout give 4 bars, with heights value/300 × 460, all standing on y = 460 and each 240 wide |
| `Tooltip.BackgroundSize` | script.js:123-130 | the background box is 128 × 59 |
| `Tooltip.Anchor` | script.js:131-134 | the rotated box, starting 10 left of half the width, has its centre 54 right of the middle and fits across the chart exactly when the chart is at least 236 wide; the normal box stays above the x axis exactly when the height is at least 4 × (padding + 37) |
| `Tooltip.NormalTooltipX` | script.js:171-174 | the tooltip goes 20 right of the bar, or 132 left of it exactly when `bar.x + 20 >= width - 128`; the box never covers the bar's left edge, and on a chart at least 290 wide it stays within the chart |
| `Tooltip.RotatedTooltipY` | script.js:158-161 | the tooltip goes 59 above the bar, or 42 below it exactly when that box would reach the padding; the box never covers the bar's top edge and stays below the padding |
| `Tooltip.EdgeFlipExample` | script.js:171-174 | at width 1000 a bar at x = 950 gets its tooltip at 818, that is 950 + 20 − 20 − 128 − 4, and its box at 808 |
| `Tooltip.NormalTooltipOnScreen` | script.js:131-134 | on every normal chart the resolver produces, the tooltip box of a bar inside the chart lies inside the chart, and the anchored box lies above the x axis |
| `Tooltip.RotatedTooltipOnScreen` | script.js:144-169 | on every rotated chart the tooltip box lies between the padding and the bottom; it fits across the chart if and only if the viewport is at least 295 wide |
| `Tooltip.TooltipView.constructor` | script.js:123-150 | the box starts hidden; only the anchored coordinate is set: x = width/2 (box at x − 10) when rotated, y = 3/4 height (box at y − 22) otherwise |
| `Tooltip.TooltipView.MouseOver` | script.js:152-187 | the coordinate along the bars follows the placement rule, the box sits 10 left of (or 22 above) the text, the other coordinate stays at the anchor, the content is the quarter label and the value line, both elements become opaque, and the text is tagged with the date |
| `Tooltip.TooltipView.MouseOut` | script.js:188-191 | both elements become transparent and nothing else changes |

## Left out

- DOM and SVG plumbing (`d3.select`, `.append`, `.attr`, `.style`, `.classed`,
  `.html`): only the numbers and strings they receive are modelled.
- The title and description text and the source and axis labels
  (script.js:35-54): fixed literals placed in the document.
- The dataset fetch (`d3.json`) and its `.then` callback: network I/O. The model
  takes the dataset as a value.
- The delayed advisory alerts (script.js:18-21): a timer and a UI side effect.
- The entrance transition (script.js:110-114): cosmetic animation timing.
- Axis tick generation and drawing by `d3.axis*`: library internals. Only the
  axes' offsets are modelled, in `CategoryTick`, `ValueTick` and `Baseline`.
- Date parsing with `new Date(...)`: each entry carries the instant its date
  denotes as an integer.
- `Number.parseInt` of the bar's coordinate attribute: the hovered bar's
  position reaches `MouseOver` as an integer.
- Formatting the value into the tooltip's HTML: the content keeps the value as
  a number, and the markup is not modelled.
- JavaScript floating point: every computation is exact `real` arithmetic. A
  dataset that is empty or holds non-numbers (`NaN` geometry in the browser) is
  not modelled. An empty dataset draws no bars, and the scales are built only
  for a non-empty one.
- Strings are sequences of Unicode scalar values, not JavaScript's UTF-16 code
  units, so `Quarter.Slice` and `Quarter.GetQuarter` differ from the browser on
  a date string that holds a character outside the Basic Multilingual Plane.
- Scales.FourQuarterChart: states the worked example one bar at a time, for
  each index below 4, rather than for all four bars in one formula. Together
  the four instances say the same thing.
