/**
 * The valueLabels draw hook as the plugin runs it: one pass over the series,
 * and within each series one pass over its points, updating the declutter
 * variables step by step and the two stacking arrays in place. Each method is
 * proved to compute exactly what the fold in LabelPass specifies, so the
 * lemmas of PassProperties apply to what it draws and to the markup it builds.
 */
module ValueLabelsHook {
  import opened LabelPass

  /**
   * The skip gates for point i of series ii, in the hook's order, then the
   * label text: the point passes exactly when it is admissible, and then
   * (x, y) is the point with its x resolved.
   */
  method Gates(opts: Options, plot: Plot, s: Series, ii: nat, i: nat)
    returns (x: int, y: int, text: string, passed: bool)
    requires i < |s.data|
    ensures passed <==> Admissible(opts, s, i)
    ensures passed ==> Point(x, y) == At(s, i) && text == LabelText(opts, plot, s, ii, i, At(s, i))
  {
    x, y, text, passed := 0, 0, "", false;
    if s.data[i].None? || (opts.showLastValue && i != |s.data| - 1) {
      return;
    }
    x := s.data[i].value.x;
    y := s.data[i].value.y;
    if s.categories.Some? {
      x := s.categories.value(x);
    }
    if x < s.xaxis.min || x > s.xaxis.max || y < s.yaxis.min || y > s.yaxis.max {
      return;
    }
    var v := if opts.plotAxis == XAxis then x else y;
    if v == 0 && opts.hideZero {
      return;
    }
    if s.valueLabelFunc.Some? {
      text := s.valueLabelFunc.value(ii, i);
    } else {
      text := plot.numToString(v);
    }
    text := opts.labelFormatter(text);
    passed := true;
  }

  /**
   * The loop body of the inner loop for point i: skip gates, duplicate gate,
   * stacking, spacing gate, then a canvas draw or two divs of markup. Its
   * effect on the declutter variables, the stacking arrays and the labels is
   * one `Step`; a label it emits is drawn or appended as markup.
   */
  method VisitPoint(opts: Options, plot: Plot, s: Series, ii: nat, i: nat, prevY: array<int>, prevYY: array<int>,
                    lastVal: Option<string>, lastX: int, lastY: int, draws: seq<Draw>, html: string,
                    ghost labels: seq<Label>)
    returns (lastVal': Option<string>, lastX': int, lastY': int, draws': seq<Draw>, html': string,
             ghost labels': seq<Label>)
    requires i < |s.data|
    requires prevY != prevYY && prevY.Length == prevYY.Length
    requires plot.stack ==> i < prevY.Length
    modifies prevY, prevYY
    ensures Pass(Cursor(lastVal', lastX', lastY'), prevY[..], prevYY[..], labels')
      == Step(opts, plot, s, ii, i, Pass(Cursor(lastVal, lastX, lastY), old(prevY[..]), old(prevYY[..]), labels))
    ensures labels' == labels || (|labels'| == |labels| + 1 && labels' == labels + [labels'[|labels|]])
    ensures draws' == if |labels'| == |labels| || opts.showAsHtml then draws else draws + [Place(plot, labels'[|labels|])]
    ensures html' == if |labels'| == |labels| || !opts.showAsHtml then html else html + LabelMarkup(plot, labels'[|labels|])
  {
    ghost var st := Pass(Cursor(lastVal, lastX, lastY), prevY[..], prevYY[..], labels);
    lastVal', lastX', lastY', draws', html', labels' := lastVal, lastX, lastY, draws, html, labels;
    var x, y, text, passed := Gates(opts, plot, s, ii, i);
    if !passed {
      return;
    }
    ghost var p := At(s, i);

    if Some(text) != lastVal || i == |s.data| - 1 || plot.stack {
      var xx := s.xaxis.p2c(x) + plot.left;
      if plot.stack {
        y := y + prevY[i];
        prevY[i] := y;
      }
      var yy := s.yaxis.p2c(y) - 12 + plot.top;
      if plot.stack {
        if ii > 0 {
          yy := yy - if prevYY[i] - yy < 12 then 12 else 0;
        }
        prevYY[i] := yy;
      }
      assert xx == LabelX(plot, s, p) && yy == LabelY(plot, s, ii, i, p, st.prevY, st.prevYY);

      if Abs(yy - lastY) > 20 || lastX < xx {
        lastVal' := Some(text);
        lastX' := xx + |text| * 8;
        lastY' := yy;
        if !opts.showAsHtml {
          var xPos := xx;
          var yPos := yy + 6;
          if yy <= 0 {
            yPos := 18;
          }
          if xx >= plot.width {
            xPos := plot.width;
          }
          draws' := draws + [Draw(text, xPos, yPos)];
        } else {
          var head := "<div style=\"left:" + plot.numToString(xx) + "px;top:" + plot.numToString(yy)
            + "px;\" class=\"valueLabel";
          var tail := "\">" + text + "</div>";
          html' := html + (head + "Light" + tail + head + tail);
        }
        labels' := labels + [Label(i, text, xx, yy)];
      }
    }
  }

  lemma PlaceAllSnoc(plot: Plot, labels: seq<Label>, l: Label)
    ensures PlaceAll(plot, labels + [l]) == PlaceAll(plot, labels) + [Place(plot, l)]
  {
    assert (labels + [l])[..|labels|] == labels;
  }

  lemma LabelsMarkupSnoc(plot: Plot, labels: seq<Label>, l: Label)
    ensures LabelsMarkup(plot, labels + [l]) == LabelsMarkup(plot, labels) + LabelMarkup(plot, l)
  {
    assert (labels + [l])[..|labels|] == labels;
  }

  /** The output of the inner loop so far: the draws or the open container and the markup of `labels`. */
  predicate Emitted(opts: Options, plot: Plot, ii: nat, labels: seq<Label>, draws: seq<Draw>, html: string) {
    && draws == (if opts.showAsHtml then [] else PlaceAll(plot, labels))
    && html == OpenTag(plot, ii) + if opts.showAsHtml then LabelsMarkup(plot, labels) else ""
  }

  /** A visit that appends at most one label keeps the output in step with the labels. */
  lemma EmittedStep(opts: Options, plot: Plot, ii: nat, labels: seq<Label>, draws: seq<Draw>, html: string,
                    labels': seq<Label>, draws': seq<Draw>, html': string)
    requires Emitted(opts, plot, ii, labels, draws, html)
    requires labels' == labels || (|labels'| == |labels| + 1 && labels' == labels + [labels'[|labels|]])
    requires draws' == if |labels'| == |labels| || opts.showAsHtml then draws else draws + [Place(plot, labels'[|labels|])]
    requires html' == if |labels'| == |labels| || !opts.showAsHtml then html else html + LabelMarkup(plot, labels'[|labels|])
    ensures Emitted(opts, plot, ii, labels', draws', html')
  {
    if |labels'| != |labels| {
      var l := labels'[|labels|];
      if opts.showAsHtml {
        MarkupSnoc(plot, ii, labels, l);
      } else {
        PlaceAllSnoc(plot, labels, l);
      }
    }
  }

  lemma MarkupSnoc(plot: Plot, ii: nat, labels: seq<Label>, l: Label)
    ensures OpenTag(plot, ii) + LabelsMarkup(plot, labels + [l])
         == OpenTag(plot, ii) + LabelsMarkup(plot, labels) + LabelMarkup(plot, l)
  {
    LabelsMarkupSnoc(plot, labels, l);
    var a, b, c := OpenTag(plot, ii), LabelsMarkup(plot, labels), LabelMarkup(plot, l);
    assert (a + b) + c == a + (b + c);
  }

  /**
   * The inner loop for series ii. The stacking arrays are updated in place;
   * the draws, the series' markup and the arrays afterwards are those of the
   * series pass.
   */
  method AnnotateSeries(opts: Options, plot: Plot, s: Series, ii: nat, prevY: array<int>, prevYY: array<int>)
    returns (draws: seq<Draw>, html: string)
    requires prevY != prevYY && prevY.Length == prevYY.Length
    requires plot.stack ==> |s.data| <= prevY.Length
    modifies prevY, prevYY
    ensures var r := SeriesPass(opts, plot, s, ii, old(prevY[..]), old(prevYY[..]));
      && prevY[..] == r.prevY
      && prevYY[..] == r.prevYY
      && draws == (if opts.showAsHtml then [] else PlaceAll(plot, r.labels))
      && html == (if opts.showAsHtml then SeriesMarkup(plot, ii, r.labels) else OpenTag(plot, ii))
  {
    ghost var start := Pass(START, prevY[..], prevYY[..], []);
    ghost var labels: seq<Label> := [];
    html := OpenTag(plot, ii);
    draws := [];
    var lastVal: Option<string> := None;
    var lastX, lastY := -1000, -1000;
    for i := 0 to |s.data|
      invariant Walk(opts, plot, s, ii, i, start) == Pass(Cursor(lastVal, lastX, lastY), prevY[..], prevYY[..], labels)
      invariant Emitted(opts, plot, ii, labels, draws, html)
    {
      var lastVal', lastX', lastY', draws', html', labels' :=
        VisitPoint(opts, plot, s, ii, i, prevY, prevYY, lastVal, lastX, lastY, draws, html, labels);
      EmittedStep(opts, plot, ii, labels, draws, html, labels', draws', html');
      lastVal, lastX, lastY, draws, html, labels := lastVal', lastX', lastY', draws', html', labels';
    }
    if opts.showAsHtml {
      html := html + "</div>";
    }
  }

  /**
   * The state of the outer loop after ii series: the accumulators and the
   * labels are those of the first ii series passes from zeros, and the output
   * so far is their draws or their markup.
   */
  predicate Drawn(opts: Options, plot: Plot, series: seq<Series>, ii: nat, n: nat,
                  Y: seq<int>, YY: seq<int>, done: seq<seq<Label>>, draws: seq<Draw>, markup: seq<string>)
    requires ii <= |series| && Fits(plot, series, n)
  {
    && Annotate(opts, plot, series, ii, Zeros(n), Zeros(n)) == Frame(Y, YY, done)
    && draws == (if opts.showAsHtml then [] else DrawsOf(plot, done))
    && markup == (if opts.showAsHtml then MarkupOf(plot, done) else [])
  }

  /** Appending the output of series ii's pass advances the outer loop state by one series. */
  lemma DrawnStep(opts: Options, plot: Plot, series: seq<Series>, ii: nat, n: nat,
                  Y: seq<int>, YY: seq<int>, done: seq<seq<Label>>, draws: seq<Draw>, markup: seq<string>,
                  Y': seq<int>, YY': seq<int>, d: seq<Draw>, html: string)
    requires ii < |series| && Fits(plot, series, n)
    requires Drawn(opts, plot, series, ii, n, Y, YY, done, draws, markup)
    requires plot.stack ==> |series[ii].data| <= |Y| && |series[ii].data| <= |YY|
    requires var r := SeriesPass(opts, plot, series[ii], ii, Y, YY);
      && Y' == r.prevY && YY' == r.prevYY
      && d == (if opts.showAsHtml then [] else PlaceAll(plot, r.labels))
      && (opts.showAsHtml ==> html == SeriesMarkup(plot, ii, r.labels))
    ensures Drawn(opts, plot, series, ii + 1, n, Y', YY',
                  done + [SeriesPass(opts, plot, series[ii], ii, Y, YY).labels],
                  draws + d, if opts.showAsHtml then markup + [html] else markup)
  {
    AnnotateSnoc(opts, plot, series, ii, Zeros(n), Y, YY, done);
    OutputSnoc(plot, done, SeriesPass(opts, plot, series[ii], ii, Y, YY).labels);
  }

  /** One more series pass extends the frame by that series' accumulators and labels. */
  lemma AnnotateSnoc(opts: Options, plot: Plot, series: seq<Series>, ii: nat, Z: seq<int>,
                     Y: seq<int>, YY: seq<int>, done: seq<seq<Label>>)
    requires ii < |series| && Fits(plot, series, |Z|)
    requires Annotate(opts, plot, series, ii, Z, Z) == Frame(Y, YY, done)
    ensures plot.stack ==> |series[ii].data| <= |Y| && |series[ii].data| <= |YY|
    ensures var r := SeriesPass(opts, plot, series[ii], ii, Y, YY);
      Annotate(opts, plot, series, ii + 1, Z, Z) == Frame(r.prevY, r.prevYY, done + [r.labels])
  {
  }

  /** The draws and markup of one more series come after those of the series before it. */
  lemma OutputSnoc(plot: Plot, done: seq<seq<Label>>, labels: seq<Label>)
    ensures DrawsOf(plot, done + [labels]) == DrawsOf(plot, done) + PlaceAll(plot, labels)
    ensures MarkupOf(plot, done + [labels]) == MarkupOf(plot, done) + [SeriesMarkup(plot, |done|, labels)]
  {
    assert (done + [labels])[..|done|] == done;
  }

  /** Between series, the accumulators have the length they were created with. */
  lemma DrawnFits(opts: Options, plot: Plot, series: seq<Series>, ii: nat, n: nat,
                  Y: seq<int>, YY: seq<int>, done: seq<seq<Label>>, draws: seq<Draw>, markup: seq<string>)
    requires ii < |series| && Fits(plot, series, n)
    requires Drawn(opts, plot, series, ii, n, Y, YY, done, draws, markup)
    ensures |Y| == |YY| == n && |done| == ii
    ensures plot.stack ==> |series[ii].data| <= |Y|
  {
  }

  /** Both stacking arrays, sized by the first series and zeroed. */
  method ZeroedPair(n: nat) returns (prevY: array<int>, prevYY: array<int>)
    ensures fresh(prevY) && fresh(prevYY) && prevY != prevYY
    ensures prevY[..] == Zeros(n) && prevYY[..] == Zeros(n)
  {
    prevY := new int[n];
    prevYY := new int[n];
    for i := 0 to n
      invariant forall j :: 0 <= j < i ==> prevY[j] == 0 && prevYY[j] == 0
    {
      prevY[i] := 0;
      prevYY[i] := 0;
    }
  }

  /**
   * The body of the outer loop for series ii: its inner loop, then its draws
   * or its markup appended to the output. It advances the loop state by one series.
   */
  method VisitSeries(opts: Options, plot: Plot, series: seq<Series>, ii: nat, n: nat, prevY: array<int>, prevYY: array<int>,
                     draws: seq<Draw>, markup: seq<string>, ghost done: seq<seq<Label>>)
    returns (draws': seq<Draw>, markup': seq<string>, ghost done': seq<seq<Label>>)
    requires ii < |series| && Fits(plot, series, n)
    requires prevY != prevYY && prevY.Length == prevYY.Length == n
    requires Drawn(opts, plot, series, ii, n, prevY[..], prevYY[..], done, draws, markup)
    modifies prevY, prevYY
    ensures Drawn(opts, plot, series, ii + 1, n, prevY[..], prevYY[..], done', draws', markup')
  {
    ghost var Y, YY := prevY[..], prevYY[..];
    DrawnFits(opts, plot, series, ii, n, Y, YY, done, draws, markup);
    var d, html := AnnotateSeries(opts, plot, series[ii], ii, prevY, prevYY);
    DrawnStep(opts, plot, series, ii, n, Y, YY, done, draws, markup, prevY[..], prevYY[..], d, html);
    draws' := draws + d;
    markup' := if opts.showAsHtml then markup + [html] else markup;
    done' := done + [SeriesPass(opts, plot, series[ii], ii, Y, YY).labels];
  }

  /**
   * The draw hook: nothing when `show` is off; otherwise both stacking arrays
   * are sized by the first series and zeroed, every series is annotated in
   * order, and the result is the canvas draws or one markup string per series.
   */
  method DrawLabels(opts: Options, plot: Plot, series: seq<Series>) returns (out: Output)
    requires opts.show ==> |series| > 0 && Fits(plot, series, |series[0].data|)
    ensures out == Hook(opts, plot, series)
  {
    if !opts.show {
      return Output([], []);
    }
    var n := |series[0].data|;
    var prevY, prevYY := ZeroedPair(n);

    var draws: seq<Draw> := [];
    var markup: seq<string> := [];
    ghost var done: seq<seq<Label>> := [];
    for ii := 0 to |series|
      invariant prevY.Length == prevYY.Length == n
      invariant Drawn(opts, plot, series, ii, n, prevY[..], prevYY[..], done, draws, markup)
    {
      draws, markup, done := VisitSeries(opts, plot, series, ii, n, prevY, prevYY, draws, markup, done);
    }
    out := Output(draws, markup);
  }
}
