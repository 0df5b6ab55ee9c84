# flot valueLabels: the draw-hook label pass

The flot valueLabels plugin (`jquery.flot.valuelabels.js`, version 1.2)
registers a draw hook that writes the value of each data point next to the
point. It draws on the canvas, or with `showAsHtml` builds one `<div>`
container per series. This project models that hook. It covers:

- the skip gates: null points, points outside the axis ranges, the
  `showLastValue` and `hideZero` options;
- the label text: `valueLabelFunc` or the selected coordinate, passed
  through `labelFormatter`;
- the declutter cursor (`last_val`, `last_x`, `last_y`), with its duplicate
  gate and its spacing gate;
- the two stacking arrays `prevY` and `prevYY`, which are updated in place
  when the host stacks series;
- the canvas clamps applied to `fillText` positions;
- the HTML markup: two divs per label, the light copy first, inside a
  container per series.

The project has four modules:

- `LabelPass` (`label_pass.dfy`) is the specification. It defines the
  entities as datatypes and the pass as a fold:
  - `Step` handles one point;
  - `Walk` and `SeriesPass` fold `Step` over the points of one series;
  - `Annotate` folds series passes over the list of series, threading the
    accumulators;
  - `Hook` is the whole hook, from the zeroed accumulators to the draws or
    the markup.
- `ValueLabelsHook` (`draw_hook.dfy`) is the hook as the plugin runs it. It
  uses early exits, local declutter variables and `prevY`/`prevYY` as
  arrays written in place. Each method is proved equal to the fold.
- `PassProperties` (`pass_properties.dfy`) proves what the fold
  guarantees.
- `Scenarios` (`scenarios.dfy`) proves what the pass computes on concrete small series.

The host chart is a set of parameters that the model does not interpret:
- the axes' data-to-pixel transforms `p2c`;
- the plot offset and the plot width;
- the category lookup of a categories x-axis;
- `labelFormatter` and `valueLabelFunc`;
- the number-to-string conversion (`"" + n`).

Three details of the code worth noting:
- `hideZero` tests the raw selected coordinate, before `valueLabelFunc` and
  the formatter run, not the displayed text.
- The stacking nudge is one-sided. Canvas y grows downward. A label of a
  series other than the first is lifted 12 px whenever it is less than 12 px
  above `prevYY[i]`, including when it is below it. `prevYY[i]` is the y
  computed at index i by the last earlier series whose point i passed the
  skip gates. It is stored even when the spacing gate then suppressed that
  label, because line 95 runs before line 98. When no earlier series had
  such a point, it is still 0, so the label is lifted whenever its y is
  greater than -12.
- The horizontal spacing test is strict: `last_x < xx`.

## Model

| member | source | states |
|---|---|---|
| LabelPass.Visible | jquery.flot.valuelabels.js:63-75 | The gates, in the hook's order, let a point through exactly when it is `Admissible`: not null, the last point when `showLastValue` is set, x (after the category lookup) and y inside both axis ranges, and not a raw selected coordinate of 0 under `hideZero`. The point it yields has its x resolved. |
| LabelPass.Nudge | jquery.flot.valuelabels.js:91-94 | The stacking nudge either keeps yy or lifts it by exactly 12 px. It lifts iff the series is not the first and yy is less than 12 px above `prevYY[i]` (prevYY[i] - yy < 12). For a series other than the first, a label at or above `prevYY[i]` (yy <= prevYY[i]) ends up at least 12 px above it. The first series is never lifted. |
| LabelPass.After | jquery.flot.valuelabels.js:98-101 | After a label is emitted, the cursor holds its text and its y. last_x is its x plus 8 px per character of its text, so it is never left of its x. |
| LabelPass.StepContract | jquery.flot.valuelabels.js:63-101 | One point appends at most one label and keeps the earlier labels. A label is appended iff the point is admissible, passes the duplicate gate (new text, final point, or stacking) and passes the spacing gate (more than 20 px vertically, or right of last_x). The appended label carries the point's text, xx and yy, and the cursor moves past it. Otherwise the cursor is unchanged. Outside stacking both arrays are unchanged. When stacking, an admissible point adds its y to prevY[i] and stores its final label y in prevYY[i], and other points change nothing. |
| LabelPass.Walk | jquery.flot.valuelabels.js:61-137 | A series pass keeps both accumulators' lengths and emits at most one label per point. |
| LabelPass.Annotate | jquery.flot.valuelabels.js:47-142 | The series are handled in order and each one contributes exactly one list of labels. The accumulators keep the length the first series gave them. |
| LabelPass.Place | jquery.flot.valuelabels.js:102-115 | The fillText position keeps the label's text. x is the label's xx when xx is less than the plot width, and the width otherwise, so x never exceeds the width. y is yy + 6 when yy > 0, and 18 otherwise, so y is always greater than 6. |
| LabelPass.LabelMarkup | jquery.flot.valuelabels.js:131-133 | The spliced head/"Light"/tail string is exactly two positioned divs: class `valueLabelLight` first, then class `valueLabel`. |
| LabelPass.Hook | jquery.flot.valuelabels.js:28-47 | With `show` off the hook produces nothing. In HTML mode it draws nothing on the canvas and returns one markup string per series. In canvas mode it returns no markup. |
| PassProperties.WalkCursor | jquery.flot.valuelabels.js:56-58 | The cursor of a series pass is (null, -1000, -1000) until the first label and afterwards is always the one the last emitted label left. |
| PassProperties.WalkStack | jquery.flot.valuelabels.js:86-96 | After k points: outside stacking prevY and prevYY are untouched. When stacking, prevY[i] gained point i's y and prevYY[i] holds point i's final label y, for exactly the admissible i < k. |
| PassProperties.WalkEmits | jquery.flot.valuelabels.js:63-101 | Every label of a pass comes from an admissible point, has that point's text and canvas position, and the labels are in strictly increasing point order. |
| PassProperties.WalkSpaced | jquery.flot.valuelabels.js:98 | The first label passes the spacing gate against the start cursor. Each later label is more than 20 px from the previous one vertically, or starts right of its estimated right edge. |
| PassProperties.WalkNoRepeats | jquery.flot.valuelabels.js:84 | Outside stacking, no label repeats the previous label's text unless it is at the series' final point. |
| PassProperties.LastValueOnly | jquery.flot.valuelabels.js:63 | With `showLastValue`, a series gets at most one label, and only at its final point. |
| PassProperties.LastValueShown | jquery.flot.valuelabels.js:63-101 | With `showLastValue`, the final point is labelled whenever it is admissible and clears the start cursor. |
| PassProperties.SeriesSound | jquery.flot.valuelabels.js:61-137 | A series pass yields sound labels from any accumulators: admissible sources, point order, spacing, and no repeats outside stacking. |
| PassProperties.SeriesStack | jquery.flot.valuelabels.js:86-96 | When stacking, a series pass adds each admissible point's y to prevY at its index. Each label sits at the pixel y of its value raised by the incoming prevY, lifted by 12 px or not at all, and never lifted in the first series. |
| PassProperties.AnnotateSums | jquery.flot.valuelabels.js:42-88 | When stacking, after k series prevY is the initial array raised at every index by the sum of the admissible y values of those k series. |
| PassProperties.SeriesLastY | jquery.flot.valuelabels.js:91-96 | When stacking, a series pass sets prevYY[i] to its label y at i when its point i passed the skip gates, whether or not the label is then drawn. Otherwise prevYY[i] is unchanged. |
| PassProperties.AnnotateLastY | jquery.flot.valuelabels.js:42-96 | When stacking, after k series prevYY[i] is the label y computed at i by the last of those series whose point i passed the skip gates. It keeps its initial value when there is no such series. |
| PassProperties.StackedLabels | jquery.flot.valuelabels.js:86-96 | When stacking, each label of series ii sits on the initial prevY raised by the running total of series 0..ii-1 at its index, lifted by 12 px or not at all. |
| PassProperties.AnnotatePrefix | jquery.flot.valuelabels.js:47 | Later series never change the labels of earlier ones. |
| PassProperties.AnnotateAt | jquery.flot.valuelabels.js:47-59 | Series ii's labels are those of its own pass from a fresh cursor and the arrays the earlier series left. |
| PassProperties.AnnotateSound | jquery.flot.valuelabels.js:47-137 | The labels of every series are sound. |
| PassProperties.LabelsMarkupDivs | jquery.flot.valuelabels.js:131-133 | A series' label markup is exactly the concatenation of two divs per label, in label order, the light copy first. |
| PassProperties.SeriesMarkupShape | jquery.flot.valuelabels.js:55-139 | A series' markup is the container with id `valueLabels<ii>`, then 2 divs per label, then the closing tag. |
| PassProperties.PlaceAllPointwise | jquery.flot.valuelabels.js:102-128 | A series' canvas draws are its labels in order, each at its clamped position. |
| PassProperties.DrawsClamped | jquery.flot.valuelabels.js:105-115 | Every canvas draw of every series has x at most the plot width and y greater than 6. |
| PassProperties.MarkupOfPointwise | jquery.flot.valuelabels.js:138-140 | The markup list holds, at index ii, the markup of series ii. |
| PassProperties.HookOutput | jquery.flot.valuelabels.js:47-140 | For a shown plot, every series' labels are sound. In HTML mode markup ii is the container of series ii holding 2 divs per label. In canvas mode every draw is inside the clamps. |
| ValueLabelsHook.Gates | jquery.flot.valuelabels.js:63-82 | The early-exit gates pass a point iff it is admissible. Then (x, y) is the point with x resolved, and the text is the formatted `valueLabelFunc` value or selected coordinate. |
| ValueLabelsHook.VisitPoint | jquery.flot.valuelabels.js:63-135 | The loop body updates last_val, last_x, last_y and both arrays exactly as one `Step` does. When a label is emitted, it appends that label's `fillText` draw or its two divs. |
| ValueLabelsHook.AnnotateSeries | jquery.flot.valuelabels.js:55-141 | The inner loop leaves prevY and prevYY as the series pass specifies. It returns the pass's draws in canvas mode, and in HTML mode the container holding its labels' markup, closed. |
| ValueLabelsHook.ZeroedPair | jquery.flot.valuelabels.js:42-45 | Both stacking arrays are new, distinct, as long as the first series, and zero. |
| ValueLabelsHook.VisitSeries | jquery.flot.valuelabels.js:47-141 | One iteration of the per-series loop advances the state by one series. The arrays and labels become those of the first ii + 1 series passes, and the output gains that series' draws or markup. |
| ValueLabelsHook.DrawLabels | jquery.flot.valuelabels.js:26-142 | The imperative hook returns exactly `Hook`: the same draws or the same per-series markup. |
| Scenarios.RisingSeries | jquery.flot.valuelabels.js:84 | On the series (0,1),(1,2),(2,2),(3,5), points 0, 1 and 3 are labelled. Point 2 repeats the text "2" and is dropped. |
| Scenarios.TrailingZero | jquery.flot.valuelabels.js:73-75 | A point (4,0) appended to that series is labelled when `hideZero` is off, and not when it is on. |
| Scenarios.StackedPair | jquery.flot.valuelabels.js:86-96 | Two stacked one-point series, y = 1 then y = 0. The second label sits on the first series' total and is lifted 12 px above the first label. The arrays end as [1] and [256]. |

## Left out

- The DOM side is left out. Removing an old `#valueLabels<ii>` container (line 52) and appending the markup to the placeholder (line 140) are outside the model. The model returns one markup string per series instead.
- The centre-alignment post-pass (lines 143-149) is left out. It reads laid-out div positions and widths from the browser.
- Canvas styling (font, fill colour, shadow, textAlign; lines 117-127) is left out. A draw records only the text and the position given to `fillText`.
- Plugin registration and the option defaults (lines 13-23, 153-158) are left out. `fontcolor`, `font`, `xoffset`, `yoffset` and `align` affect only styling or nothing in the hook.
- Numbers are integers. Floating-point pixel positions and `Math.abs` on floats are not modelled, and neither are NaN and `undefined`: a missing category, a non-numeric value, or an array slot never written.
- LabelPass.Hook requires at least one series when `show` is on. The source reads `plot.getData()[0]` and throws when there is none.
- LabelPass.Hook requires, in stacking mode, that no series is longer than the first. The arrays are sized by the first series, and the source would read an unset slot (NaN arithmetic) for a longer one.
- `valueLabelFunc` is modelled as a function of (series index, point index) that returns a string. The source passes an object holding the series too, and converts the result with `"" + val`.
- Assigning `series.seriesIndex = ii` (line 49) is not modelled as a mutation. The container id uses `ii` directly, which is the value that line stores.
- JavaScript's loose `!=` between the text and `last_val` is modelled as string inequality. Both sides are strings or `null` there.
- Label width uses the length of the text in Unicode scalar values (Dafny characters). The source's `val.length` counts UTF-16 code units, so a character outside the Basic Multilingual Plane (an emoji, say) counts once here and twice there. last_x and the spacing gate differ for such texts.
- The canvas branch assigns `x_pos` and `y_pos` without declaring them (lines 105-114), which makes them implicit globals. The model keeps these positions local to each draw and records no global state.
