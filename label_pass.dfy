/**
 * Specification of the value-label pass that the flot valueLabels plugin runs
 * in its draw hook: which points of which series get a label, with what text,
 * at what pixel position, and what markup the HTML mode builds.
 *
 * The pass is described as a fold: `Step` handles one point of one series,
 * `Walk` folds it over a series' points, `Annotate` folds whole series passes
 * over the list of series, threading the two stacking accumulators through.
 * The imperative hook in module ValueLabelsHook is proved equal to this fold.
 *
 * Everything the host chart supplies (pixel transforms, offsets, the plot
 * width, the formatter, the per-series value function, number-to-string
 * conversion, the category lookup) is a parameter the model does not interpret.
 */
module LabelPass {

  datatype Option<T> = None | Some(value: T)

  /** A data point in data space; with a categories x-axis, x is a category key. */
  datatype Point = Point(x: int, y: int)

  /** The `plotAxis` option: 'x' selects the x value, anything else the y value. */
  datatype PlotAxis = XAxis | YAxis

  /** The `valueLabels` options the hook reads (presentation-only ones left out). */
  datatype Options = Options(
    show: bool,
    showAsHtml: bool,
    showLastValue: bool,
    plotAxis: PlotAxis,
    hideZero: bool,
    labelFormatter: string -> string)

  /**
   * What the host plot contributes: whether series stacking is on, the plot
   * offset (left, top), the plot width, and the host's number-to-string
   * conversion (`"" + n`).
   */
  datatype Plot = Plot(
    stack: bool,
    left: int,
    top: int,
    width: int,
    numToString: int -> string)

  /** One axis of a series: its visible range and its data-to-canvas transform. */
  datatype Axis = Axis(min: int, max: int, p2c: int -> int)

  /**
   * A series: its points (None is a null point), its two axes, the category
   * lookup of its x-axis when that axis is in categories mode, and the optional
   * per-series `valueLabelFunc`, called with (series index, point index).
   */
  datatype Series = Series(
    data: seq<Option<Point>>,
    xaxis: Axis,
    yaxis: Axis,
    categories: Option<int -> int>,
    valueLabelFunc: Option<(nat, nat) -> string>)

  /** An emitted label: the point index, its text and its unclamped position. */
  datatype Label = Label(index: nat, text: string, xx: int, yy: int)

  /** A canvas draw record: the text and the clamped position given to fillText. */
  datatype Draw = Draw(text: string, x: int, y: int)

  /** Per-series declutter state: last_val, last_x, last_y. */
  datatype Cursor = Cursor(lastVal: Option<string>, lastX: int, lastY: int)

  /** State of one series pass: the cursor, both stacking accumulators, the labels so far. */
  datatype Pass = Pass(cur: Cursor, prevY: seq<int>, prevYY: seq<int>, labels: seq<Label>)

  /** State between series: both stacking accumulators and the labels of each series done. */
  datatype Frame = Frame(prevY: seq<int>, prevYY: seq<int>, labels: seq<seq<Label>>)

  /** What the hook produces: canvas draws, or one markup string per series. */
  datatype Output = Output(draws: seq<Draw>, markup: seq<string>)

  function Abs(n: int): nat {
    if n < 0 then -n else n
  }

  /** The cursor every series starts from: no value, position (-1000, -1000). */
  const START: Cursor := Cursor(None, -1000, -1000)

  /** Vertical distance a label must keep from the previous one, in pixels. */
  const MIN_GAP_Y: int := 20

  /** Estimated width of one character of label text, in pixels. */
  const CHAR_WIDTH: int := 8

  /** Distance between the point's pixel y and its label, and the stacking nudge. */
  const LIFT: int := 12

  // ---------------------------------------------------------------------------
  // Skip gates

  /** The x value after the category lookup, when the x-axis is in categories mode. */
  function ResolvedX(s: Series, p: Point): int {
    match s.categories
    case Some(lookup) => lookup(p.x)
    case None => p.x
  }

  /** Point i with its x resolved. */
  function At(s: Series, i: nat): Point
    requires i < |s.data| && s.data[i].Some?
  {
    Point(ResolvedX(s, s.data[i].value), s.data[i].value.y)
  }

  /** The coordinate `plotAxis` selects. */
  function Selected(opts: Options, p: Point): int {
    if opts.plotAxis == XAxis then p.x else p.y
  }

  predicate InView(s: Series, p: Point) {
    s.xaxis.min <= p.x <= s.xaxis.max && s.yaxis.min <= p.y <= s.yaxis.max
  }

  /**
   * Reference definition of the points that may carry a label: not null, the
   * last one when only the last value is shown, inside both axis ranges, and
   * not showing a raw zero when zeros are hidden.
   */
  predicate Admissible(opts: Options, s: Series, i: nat) {
    && i < |s.data|
    && s.data[i].Some?
    && (opts.showLastValue ==> i == |s.data| - 1)
    && InView(s, At(s, i))
    && !(opts.hideZero && Selected(opts, At(s, i)) == 0)
  }

  /** The gates of the hook, taken in the hook's order; yields the resolved point. */
  function Visible(opts: Options, s: Series, i: nat): (r: Option<Point>)
    requires i < |s.data|
    ensures r.Some? <==> Admissible(opts, s, i)
    ensures r.Some? ==> r.value == At(s, i)
  {
    if s.data[i].None? || (opts.showLastValue && i != |s.data| - 1) then None
    else
      var x := ResolvedX(s, s.data[i].value);
      var y := s.data[i].value.y;
      if x < s.xaxis.min || x > s.xaxis.max || y < s.yaxis.min || y > s.yaxis.max then None
      else if Selected(opts, Point(x, y)) == 0 && opts.hideZero then None
      else Some(Point(x, y))
  }

  // ---------------------------------------------------------------------------
  // Text and position

  /** The label text: valueLabelFunc's value or the selected coordinate, then the formatter. */
  function LabelText(opts: Options, plot: Plot, s: Series, ii: nat, i: nat, p: Point): string {
    var raw := match s.valueLabelFunc
      case Some(f) => f(ii, i)
      case None => plot.numToString(Selected(opts, p));
    opts.labelFormatter(raw)
  }

  /** Canvas x of a label: the transformed x plus the plot's left offset. */
  function LabelX(plot: Plot, s: Series, p: Point): int {
    s.xaxis.p2c(p.x) + plot.left
  }

  /** Canvas y of a label before stacking adjustment: 12 px above the point. */
  function BaseY(plot: Plot, s: Series, y: int): int {
    s.yaxis.p2c(y) - LIFT + plot.top
  }

  /**
   * The stacking nudge: for every series but the first, a label that is not at
   * least 12 px above `prevLabelY` (the y last stored in prevYY at its index)
   * is lifted 12 px. Canvas y grows downward, so "above" means a smaller y.
   */
  function Nudge(ii: nat, prevLabelY: int, yy: int): (r: int)
    ensures r == yy || r == yy - LIFT
    ensures r < yy <==> ii > 0 && prevLabelY - yy < LIFT
    ensures ii > 0 && yy <= prevLabelY ==> r <= prevLabelY - LIFT
  {
    if ii > 0 && prevLabelY - yy < LIFT then yy - LIFT else yy
  }

  /**
   * Canvas y of a label: in stacking mode the y value is raised by the running
   * sum `prevY[i]` and the result nudged against `prevYY[i]`.
   */
  function LabelY(plot: Plot, s: Series, ii: nat, i: nat, p: Point, prevY: seq<int>, prevYY: seq<int>): int
    requires plot.stack ==> i < |prevY| && i < |prevYY|
  {
    if plot.stack then Nudge(ii, prevYY[i], BaseY(plot, s, p.y + prevY[i]))
    else BaseY(plot, s, p.y)
  }

  // ---------------------------------------------------------------------------
  // Decluttering

  /** The cursor after emitting label l: its text, its estimated right edge, its y. */
  function After(l: Label): (c: Cursor)
    ensures c.lastVal == Some(l.text) && c.lastY == l.yy
    ensures c.lastX == l.xx + |l.text| * CHAR_WIDTH && c.lastX >= l.xx
  {
    Cursor(Some(l.text), l.xx + |l.text| * CHAR_WIDTH, l.yy)
  }

  /** The cursor a series pass holds after emitting exactly `labels`. */
  function CursorAfter(labels: seq<Label>): Cursor {
    if labels == [] then START else After(labels[|labels| - 1])
  }

  /** The duplicate gate: a new text, the final point, or stacking mode. */
  predicate Fresh(c: Cursor, text: string, i: nat, count: nat, stack: bool) {
    Some(text) != c.lastVal || i == count - 1 || stack
  }

  /** The spacing gate: far enough vertically, or right of the previous label's end. */
  predicate Clear(c: Cursor, xx: int, yy: int) {
    Abs(yy - c.lastY) > MIN_GAP_Y || c.lastX < xx
  }

  /**
   * The hook's handling of point i of series ii. A label is appended exactly
   * when the point passes the skip gates, the duplicate gate and the spacing
   * gate; a rejected point leaves the cursor as it was. In stacking mode the
   * accumulators are updated at index i for every point past the skip gates.
   */
  function Step(opts: Options, plot: Plot, s: Series, ii: nat, i: nat, st: Pass): (r: Pass)
    requires i < |s.data|
    requires plot.stack ==> i < |st.prevY| && i < |st.prevYY|
    ensures |r.prevY| == |st.prevY| && |r.prevYY| == |st.prevYY|
    ensures |st.labels| <= |r.labels| <= |st.labels| + 1
  {
    match Visible(opts, s, i)
    case None => st
    case Some(p) =>
      var text := LabelText(opts, plot, s, ii, i, p);
      if !Fresh(st.cur, text, i, |s.data|, plot.stack) then st
      else
        var xx := LabelX(plot, s, p);
        var yy := LabelY(plot, s, ii, i, p, st.prevY, st.prevYY);
        var prevY := if plot.stack then st.prevY[i := p.y + st.prevY[i]] else st.prevY;
        var prevYY := if plot.stack then st.prevYY[i := yy] else st.prevYY;
        if Clear(st.cur, xx, yy) then
          var l := Label(i, text, xx, yy);
          Pass(After(l), prevY, prevYY, st.labels + [l])
        else
          Pass(st.cur, prevY, prevYY, st.labels)
  }

  /**
   * What one step does: the labels only grow, by at most the label of point i;
   * a label is appended exactly when the point passes the skip gates, the
   * duplicate gate and the spacing gate, and then it carries the point's text
   * and position and the cursor moves past it; otherwise the cursor stays. The
   * accumulators change only in stacking mode, at index i, for a point past
   * the skip gates: the running sum grows by its y, the last label y becomes
   * its label's y.
   */
  lemma StepContract(opts: Options, plot: Plot, s: Series, ii: nat, i: nat, st: Pass)
    requires i < |s.data|
    requires plot.stack ==> i < |st.prevY| && i < |st.prevYY|
    ensures var r := Step(opts, plot, s, ii, i, st);
      && r.labels[..|st.labels|] == st.labels
      && (|r.labels| == |st.labels| ==> r.cur == st.cur)
    ensures var r := Step(opts, plot, s, ii, i, st);
      |r.labels| > |st.labels| <==>
        && Admissible(opts, s, i)
        && Fresh(st.cur, LabelText(opts, plot, s, ii, i, At(s, i)), i, |s.data|, plot.stack)
        && Clear(st.cur, LabelX(plot, s, At(s, i)), LabelY(plot, s, ii, i, At(s, i), st.prevY, st.prevYY))
    ensures var r := Step(opts, plot, s, ii, i, st);
      |r.labels| > |st.labels| ==>
        && r.labels[|st.labels|] == Label(i, LabelText(opts, plot, s, ii, i, At(s, i)), LabelX(plot, s, At(s, i)),
                                          LabelY(plot, s, ii, i, At(s, i), st.prevY, st.prevYY))
        && r.cur == After(r.labels[|st.labels|])
    ensures var r := Step(opts, plot, s, ii, i, st);
      !plot.stack ==> r.prevY == st.prevY && r.prevYY == st.prevYY
    ensures var r := Step(opts, plot, s, ii, i, st);
      plot.stack && !Admissible(opts, s, i) ==> r.prevY == st.prevY && r.prevYY == st.prevYY
    ensures var r := Step(opts, plot, s, ii, i, st);
      plot.stack && Admissible(opts, s, i) ==>
        && r.prevY == st.prevY[i := st.prevY[i] + At(s, i).y]
        && r.prevYY == st.prevYY[i := LabelY(plot, s, ii, i, At(s, i), st.prevY, st.prevYY)]
  {
  }

  /** The first k points of series ii, folded from `st0`. */
  function Walk(opts: Options, plot: Plot, s: Series, ii: nat, k: nat, st0: Pass): (r: Pass)
    requires k <= |s.data|
    requires plot.stack ==> |s.data| <= |st0.prevY| && |s.data| <= |st0.prevYY|
    ensures |r.prevY| == |st0.prevY| && |r.prevYY| == |st0.prevYY|
    ensures |st0.labels| <= |r.labels| <= |st0.labels| + k
    decreases k
  {
    if k == 0 then st0
    else Step(opts, plot, s, ii, k - 1, Walk(opts, plot, s, ii, k - 1, st0))
  }

  /** The whole pass over series ii, from a fresh cursor and the given accumulators. */
  function SeriesPass(opts: Options, plot: Plot, s: Series, ii: nat, prevY: seq<int>, prevYY: seq<int>): Pass
    requires plot.stack ==> |s.data| <= |prevY| && |s.data| <= |prevYY|
  {
    Walk(opts, plot, s, ii, |s.data|, Pass(START, prevY, prevYY, []))
  }

  /** The stacking accumulators fit every series (they are sized by the first one). */
  predicate Fits(plot: Plot, series: seq<Series>, n: nat) {
    plot.stack ==> forall j :: 0 <= j < |series| ==> |series[j].data| <= n
  }

  /** The first k series, each one pass, threading the accumulators. */
  function Annotate(opts: Options, plot: Plot, series: seq<Series>, k: nat, prevY: seq<int>, prevYY: seq<int>): (r: Frame)
    requires k <= |series| && |prevY| == |prevYY|
    requires Fits(plot, series, |prevY|)
    ensures |r.prevY| == |prevY| && |r.prevYY| == |prevY| && |r.labels| == k
    decreases k
  {
    if k == 0 then Frame(prevY, prevYY, [])
    else
      var f := Annotate(opts, plot, series, k - 1, prevY, prevYY);
      var st := SeriesPass(opts, plot, series[k - 1], k - 1, f.prevY, f.prevYY);
      Frame(st.prevY, st.prevYY, f.labels + [st.labels])
  }

  // ---------------------------------------------------------------------------
  // Output

  /**
   * The position handed to fillText: 6 px below the label's y, but 18 when the
   * label is at or above the top edge; the label's x, but never past the width.
   */
  function Place(plot: Plot, l: Label): (d: Draw)
    ensures d.text == l.text
    ensures d.x <= plot.width && (d.x == l.xx || d.x == plot.width)
    ensures l.xx < plot.width ==> d.x == l.xx
    ensures d.y > 6 && (d.y == l.yy + 6 || d.y == 18)
    ensures l.yy > 0 ==> d.y == l.yy + 6
  {
    Draw(l.text, if l.xx >= plot.width then plot.width else l.xx, if l.yy <= 0 then 18 else l.yy + 6)
  }

  function PlaceAll(plot: Plot, labels: seq<Label>): (ds: seq<Draw>)
    ensures |ds| == |labels|
  {
    if labels == [] then []
    else PlaceAll(plot, labels[..|labels| - 1]) + [Place(plot, labels[|labels| - 1])]
  }

  /** The draws of all series, in series order. */
  function DrawsOf(plot: Plot, labels: seq<seq<Label>>): seq<Draw> {
    if labels == [] then []
    else DrawsOf(plot, labels[..|labels| - 1]) + PlaceAll(plot, labels[|labels| - 1])
  }

  /** The container that opens the markup of series ii. */
  function OpenTag(plot: Plot, ii: nat): string {
    "<div id=\"valueLabels" + plot.numToString(ii) + "\" class=\"valueLabels\">"
  }

  /** One positioned div of class `valueLabel` followed by `variant`, holding the label's text. */
  function Div(plot: Plot, l: Label, variant: string): string {
    "<div style=\"left:" + plot.numToString(l.xx) + "px;top:" + plot.numToString(l.yy) + "px;\" class=\"valueLabel"
      + variant + "\">" + l.text + "</div>"
  }

  /**
   * The markup of one label, as the hook splices it from a head and a tail:
   * the light copy (class valueLabelLight) and then the normal one (class valueLabel).
   */
  function LabelMarkup(plot: Plot, l: Label): (m: string)
    ensures m == Div(plot, l, "Light") + Div(plot, l, "")
  {
    var head := "<div style=\"left:" + plot.numToString(l.xx) + "px;top:" + plot.numToString(l.yy)
      + "px;\" class=\"valueLabel";
    var tail := "\">" + l.text + "</div>";
    assert head + "" == head;
    head + "Light" + tail + head + tail
  }

  function LabelsMarkup(plot: Plot, labels: seq<Label>): string {
    if labels == [] then ""
    else LabelsMarkup(plot, labels[..|labels| - 1]) + LabelMarkup(plot, labels[|labels| - 1])
  }

  /** The markup of series ii: its labels wrapped in the per-series container. */
  function SeriesMarkup(plot: Plot, ii: nat, labels: seq<Label>): string {
    OpenTag(plot, ii) + LabelsMarkup(plot, labels) + "</div>"
  }

  /** The markup strings of all series, one per series, in series order. */
  function MarkupOf(plot: Plot, labels: seq<seq<Label>>): (ms: seq<string>)
    ensures |ms| == |labels|
  {
    if labels == [] then []
    else MarkupOf(plot, labels[..|labels| - 1]) + [SeriesMarkup(plot, |labels| - 1, labels[|labels| - 1])]
  }

  /** A sequence of n zeros: both accumulators' initial value. */
  function Zeros(n: nat): (z: seq<int>)
    ensures |z| == n && forall j :: 0 <= j < n ==> z[j] == 0
  {
    seq(n, _ => 0)
  }

  /**
   * The whole draw hook: nothing when `show` is off; otherwise every series'
   * pass from zeroed accumulators sized by the first series, drawn on the
   * canvas or returned as markup.
   */
  function Hook(opts: Options, plot: Plot, series: seq<Series>): (out: Output)
    requires opts.show ==> |series| > 0 && Fits(plot, series, |series[0].data|)
    ensures !opts.show ==> out == Output([], [])
    ensures opts.showAsHtml ==> out.draws == []
    ensures !opts.showAsHtml ==> out.markup == []
    ensures opts.show && opts.showAsHtml ==> |out.markup| == |series|
  {
    if !opts.show then Output([], [])
    else
      var zeros := Zeros(|series[0].data|);
      var f := Annotate(opts, plot, series, |series|, zeros, zeros);
      if opts.showAsHtml then Output([], MarkupOf(plot, f.labels))
      else Output(DrawsOf(plot, f.labels), [])
  }
}
