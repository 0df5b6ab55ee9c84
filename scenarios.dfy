/**
 * What the pass computes on concrete small series, with a host that spreads
 * points 100 px apart horizontally and 20 px per unit vertically.
 */
module Scenarios {
  import opened LabelPass

  function Digit(n: int): string {
    if 0 <= n <= 9 then [(48 + n) as char] else "?"
  }

  const CANVAS: Plot := Plot(false, 0, 0, 1000, Digit)

  function Line(data: seq<Option<Point>>): Series {
    Series(data, Axis(0, 10, x => 100 * x), Axis(0, 10, y => 300 - 20 * y), None, None)
  }

  function Defaults(hideZero: bool): Options {
    Options(true, false, false, YAxis, hideZero, v => v)
  }

  const RISING: seq<Option<Point>> := [Some(Point(0, 1)), Some(Point(1, 2)), Some(Point(2, 2)), Some(Point(3, 5))]

  /** The state after the first four points of any series that starts like RISING. */
  lemma {:induction false} RisingPrefix(hideZero: bool, data: seq<Option<Point>>)
    requires |data| >= 4 && data[..4] == RISING
    ensures Walk(Defaults(hideZero), CANVAS, Line(data), 0, 4, Pass(START, [], [], []))
      == Pass(Cursor(Some("5"), 308, 188), [], [], [Label(0, "1", 0, 268), Label(1, "2", 100, 248), Label(3, "5", 300, 188)])
  {
    var o, s := Defaults(hideZero), Line(data);
    assert data[0] == RISING[0] && data[1] == RISING[1] && data[2] == RISING[2] && data[3] == RISING[3];
    var w0 := Pass(START, [], [], []);
    var w1 := Step(o, CANVAS, s, 0, 0, w0);
    assert w1 == Pass(Cursor(Some("1"), 8, 268), [], [], [Label(0, "1", 0, 268)]);
    var w2 := Step(o, CANVAS, s, 0, 1, w1);
    assert w2 == Pass(Cursor(Some("2"), 108, 248), [], [], w1.labels + [Label(1, "2", 100, 248)]);
    var w3 := Step(o, CANVAS, s, 0, 2, w2);
    assert w3 == w2;
    var w4 := Step(o, CANVAS, s, 0, 3, w3);
    assert w4 == Pass(Cursor(Some("5"), 308, 188), [], [], w2.labels + [Label(3, "5", 300, 188)]);
    assert Walk(o, CANVAS, s, 0, 4, w0) == w4;
  }

  /** The repeated value 2 at point 2 gets no label; points 0, 1 and 3 do. */
  lemma RisingSeries()
    ensures var labels := SeriesPass(Defaults(false), CANVAS, Line(RISING), 0, [], []).labels;
      |labels| == 3 && labels[0].index == 0 && labels[1].index == 1 && labels[2].index == 3
  {
    RisingPrefix(false, RISING);
    assert RISING[..4] == RISING;
  }

  /**
   * A zero appended to RISING gets its own label, unless zeros are hidden:
   * then the labels are those of RISING alone.
   */
  lemma TrailingZero(hideZero: bool)
    ensures var labels := SeriesPass(Defaults(hideZero), CANVAS, Line(RISING + [Some(Point(4, 0))]), 0, [], []).labels;
      && (hideZero ==> |labels| == 3 && labels[2].index == 3)
      && (!hideZero ==> |labels| == 4 && labels[3] == Label(4, "0", 400, 288))
  {
    var data := RISING + [Some(Point(4, 0))];
    assert data[..4] == RISING;
    RisingPrefix(hideZero, data);
    var w4 := Walk(Defaults(hideZero), CANVAS, Line(data), 0, 4, Pass(START, [], [], []));
    StepContract(Defaults(hideZero), CANVAS, Line(data), 0, 4, w4);
  }

  const STACKED: Plot := Plot(true, 0, 0, 1000, Digit)

  /**
   * Two stacked one-point series: the second series' value 0 is drawn on top
   * of the first series' 1, at the same pixel y as the first label, so it is
   * lifted 12 px above it.
   */
  lemma StackedPair()
    ensures Annotate(Defaults(false), STACKED, [Line([Some(Point(0, 1))]), Line([Some(Point(0, 0))])], 2, [0], [0])
      == Frame([1], [256], [[Label(0, "1", 0, 268)], [Label(0, "0", 0, 256)]])
  {
    var o := Defaults(false);
    var s0, s1 := Line([Some(Point(0, 1))]), Line([Some(Point(0, 0))]);
    var p0 := Step(o, STACKED, s0, 0, 0, Pass(START, [0], [0], []));
    assert p0 == Pass(Cursor(Some("1"), 8, 268), [1], [268], [Label(0, "1", 0, 268)]);
    assert SeriesPass(o, STACKED, s0, 0, [0], [0]) == p0;
    var p1 := Step(o, STACKED, s1, 1, 0, Pass(START, [1], [268], []));
    assert p1 == Pass(Cursor(Some("0"), 8, 256), [1], [256], [Label(0, "0", 0, 256)]);
    assert SeriesPass(o, STACKED, s1, 1, [1], [268]) == p1;
  }
}
