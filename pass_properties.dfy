/**
 * What the value-label pass guarantees, proved about the fold in LabelPass:
 * the declutter cursor always describes the last emitted label; every label
 * comes from an admissible point and carries that point's text and position;
 * labels are in point order, spaced apart, and (outside stacking) never repeat
 * the previous text except at the final point; the stacking accumulators hold
 * running sums; and the HTML markup is two divs per label in a container.
 */
module PassProperties {
  import opened LabelPass

  /** Consecutive labels pass the spacing gate, and the first passes it against the start cursor. */
  predicate Spaced(labels: seq<Label>) {
    && (labels != [] ==> Clear(START, labels[0].xx, labels[0].yy))
    && forall j :: 0 < j < |labels| ==>
         Abs(labels[j].yy - labels[j - 1].yy) > MIN_GAP_Y
         || labels[j - 1].xx + |labels[j - 1].text| * CHAR_WIDTH < labels[j].xx
  }

  /** No label repeats the previous label's text unless it is at the final point. */
  predicate NoRepeats(labels: seq<Label>, count: nat) {
    forall j :: 0 < j < |labels| ==> labels[j].text != labels[j - 1].text || labels[j].index == count - 1
  }

  /** Labels are in strictly increasing point order (so at most one per point). */
  predicate Ordered(labels: seq<Label>) {
    forall j, k :: 0 <= j < k < |labels| ==> labels[j].index < labels[k].index
  }

  /** Labels in strictly increasing point order, all with indices in [lo, hi), number at most hi - lo. */
  lemma {:induction false} OrderedBound(labels: seq<Label>, lo: int, hi: int)
    requires Ordered(labels)
    requires forall j :: 0 <= j < |labels| ==> lo <= labels[j].index < hi
    ensures |labels| <= if lo <= hi then hi - lo else 0
    decreases |labels|
  {
    if labels != [] {
      var rest := labels[1..];
      forall j | 0 <= j < |rest|
        ensures labels[0].index + 1 <= rest[j].index < hi
      {
        assert rest[j] == labels[j + 1];
      }
      OrderedBound(rest, labels[0].index + 1, hi);
    }
  }

  /** The label the pass gives point i of series ii, had it pushed it with accumulators P and PP. */
  function Expected(opts: Options, plot: Plot, s: Series, ii: nat, i: nat, P: seq<int>, PP: seq<int>): Label
    requires Admissible(opts, s, i)
    requires plot.stack ==> i < |P| && i < |PP|
  {
    Label(i, LabelText(opts, plot, s, ii, i, At(s, i)), LabelX(plot, s, At(s, i)), LabelY(plot, s, ii, i, At(s, i), P, PP))
  }

  /**
   * Each label comes from an admissible point before k and is the label that
   * point gets with the accumulators P and PP.
   */
  predicate Faithful(opts: Options, plot: Plot, s: Series, ii: nat, k: nat, P: seq<int>, PP: seq<int>, labels: seq<Label>)
    requires plot.stack ==> k <= |P| && k <= |PP|
  {
    forall j :: 0 <= j < |labels| ==>
      && labels[j].index < k
      && Admissible(opts, s, labels[j].index)
      && labels[j] == Expected(opts, plot, s, ii, labels[j].index, P, PP)
  }

  /** Step appends nothing or exactly its one new label. */
  lemma StepShape(opts: Options, plot: Plot, s: Series, ii: nat, i: nat, st: Pass)
    requires i < |s.data|
    requires plot.stack ==> i < |st.prevY| && i < |st.prevYY|
    ensures var r := Step(opts, plot, s, ii, i, st);
      r.labels == st.labels || r.labels == st.labels + [r.labels[|st.labels|]]
  {
    var r := Step(opts, plot, s, ii, i, st);
    StepContract(opts, plot, s, ii, i, st);
    if |r.labels| == |st.labels| {
      assert r.labels == r.labels[..|st.labels|];
    } else {
      assert r.labels == r.labels[..|st.labels|] + [r.labels[|st.labels|]];
    }
  }

  /** The cursor of a series pass is always the one its last emitted label left. */
  lemma {:induction false} WalkCursor(opts: Options, plot: Plot, s: Series, ii: nat, k: nat, P: seq<int>, PP: seq<int>)
    requires k <= |s.data|
    requires plot.stack ==> |s.data| <= |P| && |s.data| <= |PP|
    ensures var r := Walk(opts, plot, s, ii, k, Pass(START, P, PP, [])); r.cur == CursorAfter(r.labels)
  {
    if k > 0 {
      WalkCursor(opts, plot, s, ii, k - 1, P, PP);
      StepShape(opts, plot, s, ii, k - 1, Walk(opts, plot, s, ii, k - 1, Pass(START, P, PP, [])));
      StepContract(opts, plot, s, ii, k - 1, Walk(opts, plot, s, ii, k - 1, Pass(START, P, PP, [])));
    }
  }

  /**
   * The stacking accumulators after k points: outside stacking they are
   * untouched; in stacking mode prevY[i] has gained point i's y and prevYY[i]
   * holds point i's final label y, for every i < k that passed the skip gates.
   */
  lemma {:induction false} WalkStack(opts: Options, plot: Plot, s: Series, ii: nat, k: nat, P: seq<int>, PP: seq<int>)
    requires k <= |s.data| && |P| == |PP|
    requires plot.stack ==> |s.data| <= |P|
    ensures var r := Walk(opts, plot, s, ii, k, Pass(START, P, PP, []));
      !plot.stack ==> r.prevY == P && r.prevYY == PP
    ensures var r := Walk(opts, plot, s, ii, k, Pass(START, P, PP, []));
      plot.stack ==> forall i :: 0 <= i < |P| ==>
        && r.prevY[i] == P[i] + (if i < k && Admissible(opts, s, i) then At(s, i).y else 0)
        && r.prevYY[i] == (if i < k && Admissible(opts, s, i) then LabelY(plot, s, ii, i, At(s, i), P, PP) else PP[i])
  {
    if k > 0 {
      var st := Walk(opts, plot, s, ii, k - 1, Pass(START, P, PP, []));
      var r := Step(opts, plot, s, ii, k - 1, st);
      WalkStack(opts, plot, s, ii, k - 1, P, PP);
      StepContract(opts, plot, s, ii, k - 1, st);
      if plot.stack {
        forall i | 0 <= i < |P|
          ensures r.prevY[i] == P[i] + (if i < k && Admissible(opts, s, i) then At(s, i).y else 0)
          ensures r.prevYY[i] == (if i < k && Admissible(opts, s, i) then LabelY(plot, s, ii, i, At(s, i), P, PP) else PP[i])
        {
          if i == k - 1 && Admissible(opts, s, i) {
            LabelYAt(plot, s, ii, i, At(s, i), st.prevY, st.prevYY, P, PP);
          }
        }
      }
    }
  }

  /** A label's y depends on the accumulators only at its own index. */
  lemma LabelYAt(plot: Plot, s: Series, ii: nat, i: nat, p: Point, Y: seq<int>, YY: seq<int>, P: seq<int>, PP: seq<int>)
    requires plot.stack ==> i < |Y| && i < |YY| && i < |P| && i < |PP|
    requires plot.stack ==> Y[i] == P[i] && YY[i] == PP[i]
    ensures LabelY(plot, s, ii, i, p, Y, YY) == LabelY(plot, s, ii, i, p, P, PP)
  {
  }

  /**
   * Every label of a series pass comes from an admissible point, carries that
   * point's text and canvas position, and the labels are in point order.
   */
  lemma {:induction false} WalkEmits(opts: Options, plot: Plot, s: Series, ii: nat, k: nat, P: seq<int>, PP: seq<int>)
    requires k <= |s.data| && |P| == |PP|
    requires plot.stack ==> |s.data| <= |P|
    ensures Faithful(opts, plot, s, ii, k, P, PP, Walk(opts, plot, s, ii, k, Pass(START, P, PP, [])).labels)
    ensures Ordered(Walk(opts, plot, s, ii, k, Pass(START, P, PP, [])).labels)
  {
    if k > 0 {
      var st := Walk(opts, plot, s, ii, k - 1, Pass(START, P, PP, []));
      WalkEmits(opts, plot, s, ii, k - 1, P, PP);
      assert plot.stack ==> st.prevY[k - 1] == P[k - 1] && st.prevYY[k - 1] == PP[k - 1] by {
        WalkStack(opts, plot, s, ii, k - 1, P, PP);
      }
      StepEmits(opts, plot, s, ii, k - 1, P, PP, st);
    }
  }

  /** One step keeps the labels faithful and ordered, given untouched accumulators at its index. */
  lemma StepEmits(opts: Options, plot: Plot, s: Series, ii: nat, i: nat, P: seq<int>, PP: seq<int>, st: Pass)
    requires i < |s.data|
    requires plot.stack ==> i < |P| == |st.prevY| && i < |PP| == |st.prevYY|
    requires plot.stack ==> st.prevY[i] == P[i] && st.prevYY[i] == PP[i]
    requires Faithful(opts, plot, s, ii, i, P, PP, st.labels) && Ordered(st.labels)
    ensures Faithful(opts, plot, s, ii, i + 1, P, PP, Step(opts, plot, s, ii, i, st).labels)
    ensures Ordered(Step(opts, plot, s, ii, i, st).labels)
  {
    var r := Step(opts, plot, s, ii, i, st);
    StepShape(opts, plot, s, ii, i, st);
    StepContract(opts, plot, s, ii, i, st);
    if r.labels == st.labels {
      FaithfulWiden(opts, plot, s, ii, i, P, PP, st.labels);
    } else {
      FaithfulSnoc(opts, plot, s, ii, i, P, PP, st.labels, r.labels[|st.labels|]);
    }
  }

  lemma FaithfulWiden(opts: Options, plot: Plot, s: Series, ii: nat, k: nat, P: seq<int>, PP: seq<int>, labels: seq<Label>)
    requires plot.stack ==> k + 1 <= |P| && k + 1 <= |PP|
    requires Faithful(opts, plot, s, ii, k, P, PP, labels)
    ensures Faithful(opts, plot, s, ii, k + 1, P, PP, labels)
  {
  }

  /** Appending the label of point k to labels of earlier points keeps them faithful and ordered. */
  lemma FaithfulSnoc(opts: Options, plot: Plot, s: Series, ii: nat, k: nat, P: seq<int>, PP: seq<int>, labels: seq<Label>, l: Label)
    requires plot.stack ==> k + 1 <= |P| && k + 1 <= |PP|
    requires Faithful(opts, plot, s, ii, k, P, PP, labels) && Ordered(labels)
    requires Admissible(opts, s, k) && l == Expected(opts, plot, s, ii, k, P, PP)
    ensures Faithful(opts, plot, s, ii, k + 1, P, PP, labels + [l])
    ensures Ordered(labels + [l])
  {
    var r := labels + [l];
    forall j | 0 <= j < |r|
      ensures r[j].index < k + 1 && Admissible(opts, s, r[j].index) && r[j] == Expected(opts, plot, s, ii, r[j].index, P, PP)
    {
      if j < |labels| {
        assert r[j] == labels[j];
      }
    }
    forall j, m | 0 <= j < m < |r|
      ensures r[j].index < r[m].index
    {
      if m < |labels| {
        assert r[j] == labels[j] && r[m] == labels[m];
      } else {
        assert r[j] == labels[j];
      }
    }
  }

  /** Consecutive labels of a series pass are spaced apart. */
  lemma {:induction false} WalkSpaced(opts: Options, plot: Plot, s: Series, ii: nat, k: nat, P: seq<int>, PP: seq<int>)
    requires k <= |s.data|
    requires plot.stack ==> |s.data| <= |P| && |s.data| <= |PP|
    ensures Spaced(Walk(opts, plot, s, ii, k, Pass(START, P, PP, [])).labels)
  {
    if k > 0 {
      var st := Walk(opts, plot, s, ii, k - 1, Pass(START, P, PP, []));
      var r := Step(opts, plot, s, ii, k - 1, st);
      WalkSpaced(opts, plot, s, ii, k - 1, P, PP);
      WalkCursor(opts, plot, s, ii, k - 1, P, PP);
      StepShape(opts, plot, s, ii, k - 1, st);
      StepContract(opts, plot, s, ii, k - 1, st);
      if r.labels != st.labels {
        SpacedSnoc(st.labels, r.labels[|st.labels|]);
      }
    }
  }

  /** Appending a label that clears the cursor of the labels before it keeps them spaced. */
  lemma SpacedSnoc(labels: seq<Label>, l: Label)
    requires Spaced(labels)
    requires Clear(CursorAfter(labels), l.xx, l.yy)
    ensures Spaced(labels + [l])
  {
    var r := labels + [l];
    forall j | 0 < j < |r|
      ensures Abs(r[j].yy - r[j - 1].yy) > MIN_GAP_Y || r[j - 1].xx + |r[j - 1].text| * CHAR_WIDTH < r[j].xx
    {
      if j < |labels| {
        assert r[j] == labels[j] && r[j - 1] == labels[j - 1];
      }
    }
  }

  /** Outside stacking, no label repeats its predecessor's text unless it is at the final point. */
  lemma {:induction false} WalkNoRepeats(opts: Options, plot: Plot, s: Series, ii: nat, k: nat, P: seq<int>, PP: seq<int>)
    requires k <= |s.data|
    requires !plot.stack
    ensures NoRepeats(Walk(opts, plot, s, ii, k, Pass(START, P, PP, [])).labels, |s.data|)
  {
    if k > 0 {
      var st := Walk(opts, plot, s, ii, k - 1, Pass(START, P, PP, []));
      WalkNoRepeats(opts, plot, s, ii, k - 1, P, PP);
      WalkCursor(opts, plot, s, ii, k - 1, P, PP);
      StepShape(opts, plot, s, ii, k - 1, st);
      StepContract(opts, plot, s, ii, k - 1, st);
    }
  }

  /** With `showLastValue`, a series gets at most one label, and only at its final point. */
  lemma LastValueOnly(opts: Options, plot: Plot, s: Series, ii: nat, P: seq<int>, PP: seq<int>)
    requires opts.showLastValue
    requires |P| == |PP| && (plot.stack ==> |s.data| <= |P|)
    ensures var labels := SeriesPass(opts, plot, s, ii, P, PP).labels;
      && |labels| <= 1
      && (labels != [] ==> labels[0].index == |s.data| - 1)
  {
    var labels := SeriesPass(opts, plot, s, ii, P, PP).labels;
    WalkEmits(opts, plot, s, ii, |s.data|, P, PP);
    OrderedBound(labels, |s.data| - 1, |s.data|);
  }

  /**
   * With `showLastValue`, the final point gets its label whenever it is
   * admissible and clears the start cursor.
   */
  lemma LastValueShown(opts: Options, plot: Plot, s: Series, ii: nat, P: seq<int>, PP: seq<int>)
    requires opts.showLastValue
    requires |P| == |PP| && (plot.stack ==> |s.data| <= |P|)
    requires |s.data| > 0 && Admissible(opts, s, |s.data| - 1)
    requires Clear(START, LabelX(plot, s, At(s, |s.data| - 1)), LabelY(plot, s, ii, |s.data| - 1, At(s, |s.data| - 1), P, PP))
    ensures |SeriesPass(opts, plot, s, ii, P, PP).labels| == 1
  {
    var n := |s.data|;
    var st := Walk(opts, plot, s, ii, n - 1, Pass(START, P, PP, []));
    assert st.labels == [] && st.cur == START by {
      WalkEmits(opts, plot, s, ii, n - 1, P, PP);
      WalkCursor(opts, plot, s, ii, n - 1, P, PP);
      OrderedBound(st.labels, n - 1, n - 1);
    }
    assert plot.stack ==> st.prevY[n - 1] == P[n - 1] && st.prevYY[n - 1] == PP[n - 1] by {
      WalkStack(opts, plot, s, ii, n - 1, P, PP);
    }
    StepContract(opts, plot, s, ii, n - 1, st);
    LabelYAt(plot, s, ii, n - 1, At(s, n - 1), st.prevY, st.prevYY, P, PP);
  }

  // ---------------------------------------------------------------------------
  // Across series

  /** What every series' labels satisfy: admissible sources, point order, spacing, no repeats outside stacking. */
  predicate Sound(opts: Options, plot: Plot, s: Series, labels: seq<Label>) {
    && (forall j :: 0 <= j < |labels| ==> Admissible(opts, s, labels[j].index))
    && Ordered(labels)
    && Spaced(labels)
    && (!plot.stack ==> NoRepeats(labels, |s.data|))
  }

  /** A whole series pass yields sound labels, whatever accumulators it starts from. */
  lemma SeriesSound(opts: Options, plot: Plot, s: Series, ii: nat, P: seq<int>, PP: seq<int>)
    requires |P| == |PP| && (plot.stack ==> |s.data| <= |P|)
    ensures Sound(opts, plot, s, SeriesPass(opts, plot, s, ii, P, PP).labels)
  {
    var labels := Walk(opts, plot, s, ii, |s.data|, Pass(START, P, PP, [])).labels;
    WalkEmits(opts, plot, s, ii, |s.data|, P, PP);
    WalkSpaced(opts, plot, s, ii, |s.data|, P, PP);
    forall j | 0 <= j < |labels|
      ensures Admissible(opts, s, labels[j].index)
    {
      assert labels[j].index < |s.data|;
    }
    if !plot.stack {
      WalkNoRepeats(opts, plot, s, ii, |s.data|, P, PP);
    }
  }

  /**
   * Each label sits at the pixel y of its point's value raised by `below` at
   * its index, lifted by at most 12 px, and not at all in the first series.
   */
  predicate StackedOn(opts: Options, plot: Plot, s: Series, ii: nat, below: seq<int>, labels: seq<Label>) {
    forall j :: 0 <= j < |labels| ==>
      && Admissible(opts, s, labels[j].index)
      && labels[j].index < |below|
      && var base := BaseY(plot, s, At(s, labels[j].index).y + below[labels[j].index]);
         (labels[j].yy == base || (ii > 0 && labels[j].yy == base - LIFT))
  }

  /**
   * In stacking mode a whole series pass adds each admissible point's y to
   * prevY at its index, and stacks its labels on the incoming prevY.
   */
  lemma SeriesStack(opts: Options, plot: Plot, s: Series, ii: nat, P: seq<int>, PP: seq<int>)
    requires plot.stack && |P| == |PP| && |s.data| <= |P|
    ensures var r := SeriesPass(opts, plot, s, ii, P, PP);
      forall i :: 0 <= i < |P| ==> r.prevY[i] == P[i] + (if Admissible(opts, s, i) then At(s, i).y else 0)
    ensures StackedOn(opts, plot, s, ii, P, SeriesPass(opts, plot, s, ii, P, PP).labels)
  {
    var r := SeriesPass(opts, plot, s, ii, P, PP);
    WalkStack(opts, plot, s, ii, |s.data|, P, PP);
    WalkEmits(opts, plot, s, ii, |s.data|, P, PP);
    forall j | 0 <= j < |r.labels|
      ensures && Admissible(opts, s, r.labels[j].index)
              && r.labels[j].index < |P|
              && var base := BaseY(plot, s, At(s, r.labels[j].index).y + P[r.labels[j].index]);
                 (r.labels[j].yy == base || (ii > 0 && r.labels[j].yy == base - LIFT))
    {
      var l := r.labels[j];
      assert l == Expected(opts, plot, s, ii, l.index, P, PP);
    }
  }

  /** Sum, over the first k series, of the y value at index i of each series whose point i passed the skip gates. */
  function StackTotal(opts: Options, series: seq<Series>, k: nat, i: nat): int
    requires k <= |series|
  {
    if k == 0 then 0
    else StackTotal(opts, series, k - 1, i) + (if Admissible(opts, series[k - 1], i) then At(series[k - 1], i).y else 0)
  }

  /** P raised, index by index, by the stack total of the first k series. */
  function Stacked(opts: Options, series: seq<Series>, k: nat, P: seq<int>): seq<int>
    requires k <= |series|
  {
    seq(|P|, i requires 0 <= i < |P| => P[i] + StackTotal(opts, series, k, i))
  }

  /** In stacking mode, after k series prevY is P raised by the running sums of the admissible y values. */
  lemma {:induction false} AnnotateSums(opts: Options, plot: Plot, series: seq<Series>, k: nat, P: seq<int>, PP: seq<int>)
    requires k <= |series| && |P| == |PP| && Fits(plot, series, |P|)
    requires plot.stack
    ensures Annotate(opts, plot, series, k, P, PP).prevY == Stacked(opts, series, k, P)
  {
    if k > 0 {
      var f := Annotate(opts, plot, series, k - 1, P, PP);
      AnnotateSums(opts, plot, series, k - 1, P, PP);
      SeriesStack(opts, plot, series[k - 1], k - 1, f.prevY, f.prevYY);
      var g := Annotate(opts, plot, series, k, P, PP);
      assert forall i :: 0 <= i < |P| ==> g.prevY[i] == Stacked(opts, series, k, P)[i];
    }
  }

  /** In stacking mode a series pass stores, at each index, its label y there if its point passed the skip gates. */
  lemma SeriesLastY(opts: Options, plot: Plot, s: Series, ii: nat, P: seq<int>, PP: seq<int>)
    requires plot.stack && |P| == |PP| && |s.data| <= |P|
    ensures var r := SeriesPass(opts, plot, s, ii, P, PP);
      forall i :: 0 <= i < |P| ==>
        r.prevYY[i] == if Admissible(opts, s, i) then LabelY(plot, s, ii, i, At(s, i), P, PP) else PP[i]
  {
    WalkStack(opts, plot, s, ii, |s.data|, P, PP);
  }

  /** Point i of none of the first k series passed the skip gates. */
  predicate NoneGated(opts: Options, series: seq<Series>, k: nat, i: nat)
    requires k <= |series|
  {
    forall j :: 0 <= j < k ==> !Admissible(opts, series[j], i)
  }

  /** Series j is the last of the first k whose point i passed the skip gates. */
  predicate LastGated(opts: Options, series: seq<Series>, j: nat, k: nat, i: nat)
    requires k <= |series|
  {
    && j < k
    && Admissible(opts, series[j], i)
    && forall m :: j < m < k ==> !Admissible(opts, series[m], i)
  }

  /** The label y series j computes at index i, from the accumulators the series before it left. */
  function GatedY(opts: Options, plot: Plot, series: seq<Series>, j: nat, i: nat, P: seq<int>, PP: seq<int>): int
    requires j < |series| && |P| == |PP| && Fits(plot, series, |P|)
    requires Admissible(opts, series[j], i)
  {
    var g := Annotate(opts, plot, series, j, P, PP);
    LabelY(plot, series[j], j, i, At(series[j], i), g.prevY, g.prevYY)
  }

  /** One more series sets prevYY[i] to its own label y there if its point i passed the skip gates. */
  lemma AnnotateYYStep(opts: Options, plot: Plot, series: seq<Series>, k: nat, i: nat, P: seq<int>, PP: seq<int>)
    requires k < |series| && |P| == |PP| && Fits(plot, series, |P|)
    requires plot.stack && i < |P|
    ensures Annotate(opts, plot, series, k + 1, P, PP).prevYY[i]
      == if Admissible(opts, series[k], i) then GatedY(opts, plot, series, k, i, P, PP)
         else Annotate(opts, plot, series, k, P, PP).prevYY[i]
  {
    var f := Annotate(opts, plot, series, k, P, PP);
    SeriesLastY(opts, plot, series[k], k, f.prevY, f.prevYY);
  }

  /**
   * In stacking mode, after k series, prevYY[i] is the label y computed at
   * index i by the last of those series whose point i passed the skip gates
   * (whether or not the spacing gate then let its label through), and is its
   * initial value when there is no such series.
   */
  lemma {:induction false} AnnotateLastY(opts: Options, plot: Plot, series: seq<Series>, k: nat, i: nat, P: seq<int>, PP: seq<int>)
    requires k <= |series| && |P| == |PP| && Fits(plot, series, |P|)
    requires plot.stack && i < |P|
    ensures NoneGated(opts, series, k, i) ==> Annotate(opts, plot, series, k, P, PP).prevYY[i] == PP[i]
    ensures forall j: nat :: LastGated(opts, series, j, k, i) ==>
      Annotate(opts, plot, series, k, P, PP).prevYY[i] == GatedY(opts, plot, series, j, i, P, PP)
  {
    if k > 0 {
      AnnotateLastY(opts, plot, series, k - 1, i, P, PP);
      AnnotateYYStep(opts, plot, series, k - 1, i, P, PP);
      forall j: nat | LastGated(opts, series, j, k, i)
        ensures Annotate(opts, plot, series, k, P, PP).prevYY[i] == GatedY(opts, plot, series, j, i, P, PP)
      {
        if j < k - 1 {
          assert !Admissible(opts, series[k - 1], i);
          assert LastGated(opts, series, j, k - 1, i);
        }
      }
    }
  }

  /**
   * In stacking mode every label of series ii sits at the pixel y of its own
   * value raised by P and the sum of the earlier series at its index, lifted
   * by at most 12 px, and not at all for the first series.
   */
  lemma StackedLabels(opts: Options, plot: Plot, series: seq<Series>, P: seq<int>, PP: seq<int>)
    requires |P| == |PP| && Fits(plot, series, |P|)
    requires plot.stack
    ensures var f := Annotate(opts, plot, series, |series|, P, PP);
      forall ii :: 0 <= ii < |series| ==> StackedOn(opts, plot, series[ii], ii, Stacked(opts, series, ii, P), f.labels[ii])
  {
    var f := Annotate(opts, plot, series, |series|, P, PP);
    forall ii | 0 <= ii < |series|
      ensures StackedOn(opts, plot, series[ii], ii, Stacked(opts, series, ii, P), f.labels[ii])
    {
      var g := Annotate(opts, plot, series, ii, P, PP);
      AnnotateSums(opts, plot, series, ii, P, PP);
      SeriesStack(opts, plot, series[ii], ii, g.prevY, g.prevYY);
      AnnotateAt(opts, plot, series, ii, P, PP);
    }
  }

  /** Later series do not change the labels of earlier ones. */
  lemma {:induction false} AnnotatePrefix(opts: Options, plot: Plot, series: seq<Series>, k: nat, m: nat, P: seq<int>, PP: seq<int>)
    requires k <= m <= |series| && |P| == |PP| && Fits(plot, series, |P|)
    ensures Annotate(opts, plot, series, m, P, PP).labels[..k] == Annotate(opts, plot, series, k, P, PP).labels
    decreases m - k
  {
    if k < m {
      AnnotatePrefix(opts, plot, series, k + 1, m, P, PP);
      var f := Annotate(opts, plot, series, k, P, PP);
      var g := Annotate(opts, plot, series, k + 1, P, PP);
      assert g.labels[..k] == f.labels;
      assert Annotate(opts, plot, series, m, P, PP).labels[..k] == g.labels[..k];
    } else {
      assert Annotate(opts, plot, series, m, P, PP).labels[..k] == Annotate(opts, plot, series, m, P, PP).labels;
    }
  }

  /** The labels of series ii are those of its own pass, from the accumulators the series before it left. */
  lemma AnnotateAt(opts: Options, plot: Plot, series: seq<Series>, ii: nat, P: seq<int>, PP: seq<int>)
    requires ii < |series| && |P| == |PP| && Fits(plot, series, |P|)
    ensures var g := Annotate(opts, plot, series, ii, P, PP);
      Annotate(opts, plot, series, |series|, P, PP).labels[ii]
        == SeriesPass(opts, plot, series[ii], ii, g.prevY, g.prevYY).labels
  {
    AnnotatePrefix(opts, plot, series, ii + 1, |series|, P, PP);
    var h := Annotate(opts, plot, series, ii + 1, P, PP);
    assert Annotate(opts, plot, series, |series|, P, PP).labels[ii] == h.labels[ii];
  }

  /** Every series' labels are sound, in whichever mode. */
  lemma AnnotateSound(opts: Options, plot: Plot, series: seq<Series>, P: seq<int>, PP: seq<int>)
    requires |P| == |PP| && Fits(plot, series, |P|)
    ensures var f := Annotate(opts, plot, series, |series|, P, PP);
      forall ii :: 0 <= ii < |series| ==> Sound(opts, plot, series[ii], f.labels[ii])
  {
    var f := Annotate(opts, plot, series, |series|, P, PP);
    forall ii | 0 <= ii < |series|
      ensures Sound(opts, plot, series[ii], f.labels[ii])
    {
      var g := Annotate(opts, plot, series, ii, P, PP);
      SeriesSound(opts, plot, series[ii], ii, g.prevY, g.prevYY);
      AnnotateAt(opts, plot, series, ii, P, PP);
    }
  }

  // ---------------------------------------------------------------------------
  // Markup

  /** Reference layout of a series' labels: for label j, div 2j is the light copy and div 2j+1 the normal one. */
  function DivList(plot: Plot, labels: seq<Label>): seq<string> {
    seq(2 * |labels|, n requires 0 <= n < 2 * |labels| =>
      Div(plot, labels[n / 2], if n % 2 == 0 then "Light" else ""))
  }

  function Concat(parts: seq<string>): string {
    if parts == [] then "" else Concat(parts[..|parts| - 1]) + parts[|parts| - 1]
  }

  lemma Associative(a: string, b: string, c: string)
    ensures (a + b) + c == a + (b + c)
  {
  }

  lemma {:induction false} ConcatPair(parts: seq<string>, a: string, b: string)
    ensures Concat(parts + [a, b]) == Concat(parts) + a + b
  {
    assert (parts + [a, b])[..|parts| + 1] == parts + [a];
    assert (parts + [a])[..|parts|] == parts;
  }

  /** The divs of one more label follow those of the labels before it. */
  lemma DivListSnoc(plot: Plot, init: seq<Label>, l: Label)
    ensures DivList(plot, init + [l]) == DivList(plot, init) + [Div(plot, l, "Light"), Div(plot, l, "")]
  {
    var labels := init + [l];
    var whole := DivList(plot, labels);
    var split := DivList(plot, init) + [Div(plot, l, "Light"), Div(plot, l, "")];
    forall n | 0 <= n < |whole|
      ensures whole[n] == split[n]
    {
      if n < 2 * |init| {
        assert n / 2 < |init| && labels[n / 2] == init[n / 2];
      } else {
        assert n / 2 == |init|;
      }
    }
  }

  /** The markup of a series' labels is exactly two divs per label, light copy first. */
  lemma {:induction false} LabelsMarkupDivs(plot: Plot, labels: seq<Label>)
    ensures LabelsMarkup(plot, labels) == Concat(DivList(plot, labels))
  {
    if labels != [] {
      var init := labels[..|labels| - 1];
      var l := labels[|labels| - 1];
      LabelsMarkupDivs(plot, init);
      assert labels == init + [l];
      DivListSnoc(plot, init, l);
      ConcatPair(DivList(plot, init), Div(plot, l, "Light"), Div(plot, l, ""));
      Associative(LabelsMarkup(plot, init), Div(plot, l, "Light"), Div(plot, l, ""));
    }
  }

  /** A series' markup: its container tag, two divs per label in order, the closing tag. */
  lemma SeriesMarkupShape(plot: Plot, ii: nat, labels: seq<Label>)
    ensures SeriesMarkup(plot, ii, labels) == OpenTag(plot, ii) + Concat(DivList(plot, labels)) + "</div>"
    ensures |DivList(plot, labels)| == 2 * |labels|
  {
    LabelsMarkupDivs(plot, labels);
  }

  // ---------------------------------------------------------------------------
  // Canvas output

  /** The canvas draws of a series are its labels, in order, each placed by `Place`. */
  lemma {:induction false} PlaceAllPointwise(plot: Plot, labels: seq<Label>)
    ensures forall j :: 0 <= j < |labels| ==> PlaceAll(plot, labels)[j] == Place(plot, labels[j])
  {
    if labels != [] {
      var init := labels[..|labels| - 1];
      PlaceAllPointwise(plot, init);
      forall j | 0 <= j < |labels|
        ensures PlaceAll(plot, labels)[j] == Place(plot, labels[j])
      {
        if j < |init| {
          assert labels[j] == init[j];
        }
      }
    }
  }

  /** Every canvas draw of every series is inside the clamps: x at most the plot width, y greater than 6. */
  lemma {:induction false} DrawsClamped(plot: Plot, labels: seq<seq<Label>>)
    ensures forall d :: d in DrawsOf(plot, labels) ==> d.x <= plot.width && d.y > 6
  {
    if labels != [] {
      var last := labels[|labels| - 1];
      DrawsClamped(plot, labels[..|labels| - 1]);
      PlaceAllPointwise(plot, last);
      forall d | d in PlaceAll(plot, last)
        ensures d.x <= plot.width && d.y > 6
      {
        var j :| 0 <= j < |last| && PlaceAll(plot, last)[j] == d;
        assert d == Place(plot, last[j]);
      }
    }
  }

  /** The markup list holds, for each series ii, that series' markup. */
  lemma {:induction false} MarkupOfPointwise(plot: Plot, labels: seq<seq<Label>>)
    ensures forall ii :: 0 <= ii < |labels| ==> MarkupOf(plot, labels)[ii] == SeriesMarkup(plot, ii, labels[ii])
  {
    if labels != [] {
      var init := labels[..|labels| - 1];
      MarkupOfPointwise(plot, init);
      forall ii | 0 <= ii < |labels|
        ensures MarkupOf(plot, labels)[ii] == SeriesMarkup(plot, ii, labels[ii])
      {
        if ii < |init| {
          assert labels[ii] == init[ii];
        }
      }
    }
  }

  // ---------------------------------------------------------------------------
  // The whole hook

  /**
   * In HTML mode the hook returns, for each series ii, the container of id
   * valueLabels<ii> holding two divs for each of that series' labels; in
   * canvas mode every draw is inside the clamps. Either way each series'
   * labels are sound.
   */
  lemma HookOutput(opts: Options, plot: Plot, series: seq<Series>)
    requires opts.show && |series| > 0 && Fits(plot, series, |series[0].data|)
    ensures var zeros := Zeros(|series[0].data|);
      var f := Annotate(opts, plot, series, |series|, zeros, zeros);
      var out := Hook(opts, plot, series);
      && (forall ii :: 0 <= ii < |series| ==> Sound(opts, plot, series[ii], f.labels[ii]))
      && (opts.showAsHtml ==> forall ii :: 0 <= ii < |series| ==>
            out.markup[ii] == OpenTag(plot, ii) + Concat(DivList(plot, f.labels[ii])) + "</div>")
      && (!opts.showAsHtml ==> forall d :: d in out.draws ==> d.x <= plot.width && d.y > 6)
  {
    var zeros := Zeros(|series[0].data|);
    var f := Annotate(opts, plot, series, |series|, zeros, zeros);
    AnnotateSound(opts, plot, series, zeros, zeros);
    if opts.showAsHtml {
      MarkupOfPointwise(plot, f.labels);
      forall ii | 0 <= ii < |series|
        ensures MarkupOf(plot, f.labels)[ii] == OpenTag(plot, ii) + Concat(DivList(plot, f.labels[ii])) + "</div>"
      {
        SeriesMarkupShape(plot, ii, f.labels[ii]);
      }
    } else {
      DrawsClamped(plot, f.labels);
    }
  }
}
