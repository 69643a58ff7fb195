/** renderXPTimelineGraph (graphql/public/js/graphs.js): the cumulative XP
    series, the linear coordinate maps onto a 900 x 500 canvas with 80 of
    padding, the line and area paths, the five y-axis labels, the point
    markers and formatXP. The SVG text around them is not modelled: paths are
    lists of commands and labels keep their numbers. */
module Timeline {
  import opened Wrappers
  import opened Numeric
  import opened Queries

  const WIDTH: real := 900.0
  const HEIGHT: real := 500.0
  const PADDING: real := 80.0
  const GRAPH_WIDTH: real := WIDTH - PADDING * 2.0
  const GRAPH_HEIGHT: real := HEIGHT - PADDING * 2.0

  /** The x axis: y of XP zero. */
  const BASELINE: real := HEIGHT - PADDING

  /** A data point: a transaction's time and the XP accumulated up to and
      including that transaction. */
  datatype Point = Point(date: int, xp: int)

  /** An SVG path command: `M x y`, `L x y` or `Z`. */
  datatype PathCmd = MoveTo(x: real, y: real) | LineTo(x: real, y: real) | ClosePath

  /** The scales: minDate, dateRange = maxDate - minDate, and maxXP. */
  datatype Frame = Frame(minDate: int, dateRange: int, maxXP: int)

  /** The maps divide by dateRange and by maxXP; the source guards neither. */
  predicate Defined(f: Frame) {
    f.dateRange != 0 && f.maxXP != 0
  }

  /** getX. */
  function GetX(f: Frame, date: int): (x: real)
    requires f.dateRange != 0
    ensures f.dateRange > 0 && f.minDate <= date <= f.minDate + f.dateRange ==> PADDING <= x <= WIDTH - PADDING
  {
    PADDING + ((date - f.minDate) as real / f.dateRange as real) * GRAPH_WIDTH
  }

  /** getY (its argument also takes the y-axis labels' values). */
  function GetY(f: Frame, xp: real): (y: real)
    requires f.maxXP != 0
    ensures f.maxXP > 0 && 0.0 <= xp <= f.maxXP as real ==> PADDING <= y <= HEIGHT - PADDING
  {
    HEIGHT - PADDING - (xp / f.maxXP as real) * GRAPH_HEIGHT
  }

  /** The first date lands on the left padding and the last on the right
      edge of the plot; XP zero on the baseline and maxXP on the top. */
  lemma ScaleEndpoints(f: Frame)
    requires Defined(f)
    ensures GetX(f, f.minDate) == 80.0 && GetX(f, f.minDate + f.dateRange) == 820.0
    ensures GetY(f, 0.0) == 420.0 && GetY(f, f.maxXP as real) == 80.0
  {
    assert GRAPH_WIDTH == 740.0 && GRAPH_HEIGHT == 340.0;
    assert (f.minDate + f.dateRange - f.minDate) as real / f.dateRange as real == 1.0;
    assert f.maxXP as real / f.maxXP as real == 1.0;
  }

  /** Both maps are linear: equal steps in time (in XP) give equal steps in
      x (in y), and later times lie further right, more XP higher up, when
      the ranges are positive. */
  lemma ScalesLinear(f: Frame, a: int, b: int, u: real, v: real)
    requires Defined(f)
    ensures GetX(f, a) - GetX(f, b) == (a - b) as real * 740.0 / f.dateRange as real
    ensures GetY(f, u) - GetY(f, v) == (v - u) * 340.0 / f.maxXP as real
    ensures f.dateRange > 0 && a <= b ==> GetX(f, a) <= GetX(f, b)
    ensures f.maxXP > 0 && u <= v ==> GetY(f, u) >= GetY(f, v)
  {
    var r, m := f.dateRange as real, f.maxXP as real;
    var da, db := (a - f.minDate) as real, (b - f.minDate) as real;
    assert (da / r) * 740.0 - (db / r) * 740.0 == (da - db) * 740.0 / r;
    assert da - db == (a - b) as real;
    assert (v / m) * 340.0 - (u / m) * 340.0 == (v - u) * 340.0 / m;
    if f.dateRange > 0 && a <= b {
      assert (a - b) as real * 740.0 <= 0.0;
    }
    if f.maxXP > 0 && u <= v {
      assert (v - u) * 340.0 >= 0.0;
    }
  }

  /* ---------- the cumulative series ---------- */

  /** The sum of the amounts, accumulated from the first transaction on. */
  function SumAmounts(txs: seq<Transaction>): int {
    if txs == [] then 0 else SumAmounts(txs[..|txs| - 1]) + txs[|txs| - 1].amount
  }

  /** The series `dataPoints`: point i carries the sum of amounts 0..i. */
  function Cumulative(txs: seq<Transaction>): (points: seq<Point>)
    ensures |points| == |txs|
  {
    seq(|txs|, i requires 0 <= i < |txs| => Point(txs[i].createdAt, SumAmounts(txs[..i + 1])))
  }

  /** The `map` that adds each amount to `cumulativeXP` in turn. */
  method CumulativeSeries(txs: seq<Transaction>) returns (points: seq<Point>)
    ensures points == Cumulative(txs)
  {
    var cumulativeXP := 0;
    points := [];
    var i := 0;
    while i < |txs|
      invariant 0 <= i <= |txs|
      invariant |points| == i
      invariant cumulativeXP == SumAmounts(txs[..i])
      invariant forall j :: 0 <= j < i ==> points[j] == Point(txs[j].createdAt, SumAmounts(txs[..j + 1]))
    {
      assert txs[..i + 1][..i] == txs[..i];
      cumulativeXP := cumulativeXP + txs[i].amount;
      points := points + [Point(txs[i].createdAt, cumulativeXP)];
      i := i + 1;
    }
  }

  /** The last point carries the total of all amounts. */
  lemma CumulativeEndsAtTotal(txs: seq<Transaction>)
    requires |txs| > 0
    ensures Cumulative(txs)[|txs| - 1].xp == SumAmounts(txs)
  {
    assert txs[..|txs|] == txs;
  }

  lemma {:induction false} PrefixSumsGrow(txs: seq<Transaction>, i: nat, j: nat)
    requires i <= j <= |txs|
    requires forall k :: 0 <= k < |txs| ==> txs[k].amount >= 0
    ensures SumAmounts(txs[..i]) <= SumAmounts(txs[..j])
    decreases j - i
  {
    if i < j {
      PrefixSumsGrow(txs, i, j - 1);
      assert txs[..j][..j - 1] == txs[..j - 1];
    }
  }

  /** With non-negative amounts the series never decreases. */
  lemma CumulativeNondecreasing(txs: seq<Transaction>, i: nat, j: nat)
    requires forall k :: 0 <= k < |txs| ==> txs[k].amount >= 0
    requires i <= j < |txs|
    ensures Cumulative(txs)[i].xp <= Cumulative(txs)[j].xp
  {
    PrefixSumsGrow(txs, i + 1, j + 1);
  }

  /** Amounts 10, 20, 30 accumulate to 10, 30, 60. */
  lemma CumulativeExample(t0: int, t1: int, t2: int)
    ensures var txs := [Transaction(10, t0, ""), Transaction(20, t1, ""), Transaction(30, t2, "")];
      Cumulative(txs) == [Point(t0, 10), Point(t1, 30), Point(t2, 60)]
  {
    var txs := [Transaction(10, t0, ""), Transaction(20, t1, ""), Transaction(30, t2, "")];
    assert txs[..1][..0] == [];
    assert SumAmounts(txs[..1]) == 10;
    assert txs[..2][..1] == txs[..1];
    assert SumAmounts(txs[..2]) == 30;
    assert txs[..3][..2] == txs[..2];
    assert SumAmounts(txs[..3]) == 60;
  }

  /** `Math.max(...dataPoints.map(d => d.xp))`. */
  function MaxXP(points: seq<Point>): (m: int)
    requires |points| > 0
    ensures forall i :: 0 <= i < |points| ==> points[i].xp <= m
    ensures exists i :: 0 <= i < |points| && points[i].xp == m
  {
    if |points| == 1 then
      assert points[0] in points; // index 0 witnesses the maximum
      points[0].xp
    else
      var rest := MaxXP(points[1..]);
      assert exists i :: 1 <= i < |points| && points[i].xp == rest by {
        var k :| 0 <= k < |points[1..]| && points[1..][k].xp == rest;
        assert points[k + 1].xp == rest;
      }
      if points[0].xp >= rest then
        assert points[0] in points; // index 0 witnesses the maximum
        points[0].xp
      else rest
  }

  /** With non-negative amounts maxXP is the total, so it is 0 only when
      every amount is. */
  lemma {:induction false} MaxIsTotal(txs: seq<Transaction>)
    requires |txs| > 0
    requires forall k :: 0 <= k < |txs| ==> txs[k].amount >= 0
    ensures MaxXP(Cumulative(txs)) == SumAmounts(txs)
  {
    var points := Cumulative(txs);
    CumulativeEndsAtTotal(txs);
    var k :| 0 <= k < |points| && points[k].xp == MaxXP(points);
    CumulativeNondecreasing(txs, k, |txs| - 1);
  }

  /** The scales of a non-empty series. */
  function FrameOf(points: seq<Point>): (f: Frame)
    requires |points| > 0
    ensures f.minDate == points[0].date && f.minDate + f.dateRange == points[|points| - 1].date
    ensures f.maxXP == MaxXP(points)
  {
    Frame(points[0].date, points[|points| - 1].date - points[0].date, MaxXP(points))
  }

  /* ---------- paths, labels, markers ---------- */

  /** `linePath`: one command per point, `M` for the first and `L` after. */
  predicate IsLinePath(line: seq<PathCmd>, points: seq<Point>, f: Frame)
    requires Defined(f)
  {
    && |line| == |points|
    && forall i :: 0 <= i < |points| ==>
         line[i] == (if i == 0 then MoveTo(GetX(f, points[i].date), GetY(f, points[i].xp as real))
                     else LineTo(GetX(f, points[i].date), GetY(f, points[i].xp as real)))
  }

  /** `areaPath`: from the bottom-left corner through every point in order,
      down to the baseline under the last date, and closed. */
  predicate IsAreaPath(area: seq<PathCmd>, points: seq<Point>, f: Frame)
    requires Defined(f) && |points| > 0
  {
    && |area| == |points| + 3
    && area[0] == MoveTo(PADDING, BASELINE)
    && (forall i :: 0 <= i < |points| ==>
          area[i + 1] == LineTo(GetX(f, points[i].date), GetY(f, points[i].xp as real)))
    && area[|points| + 1] == LineTo(GetX(f, points[|points| - 1].date), BASELINE)
    && area[|points| + 2] == ClosePath
  }

  /** The `forEach` that appends to both paths, then the closing of the area. */
  method BuildPaths(points: seq<Point>, f: Frame) returns (line: seq<PathCmd>, area: seq<PathCmd>)
    requires |points| > 0 && Defined(f)
    ensures IsLinePath(line, points, f)
    ensures IsAreaPath(area, points, f)
  {
    line := [];
    area := [MoveTo(PADDING, BASELINE)];
    var index := 0;
    while index < |points|
      invariant 0 <= index <= |points|
      invariant |line| == index && |area| == index + 1
      invariant area[0] == MoveTo(PADDING, BASELINE)
      invariant forall i :: 0 <= i < index ==>
        line[i] == (if i == 0 then MoveTo(GetX(f, points[i].date), GetY(f, points[i].xp as real))
                    else LineTo(GetX(f, points[i].date), GetY(f, points[i].xp as real)))
      invariant forall i :: 0 <= i < index ==>
        area[i + 1] == LineTo(GetX(f, points[i].date), GetY(f, points[i].xp as real))
    {
      var x := GetX(f, points[index].date);
      var y := GetY(f, points[index].xp as real);
      if index == 0 {
        line := [MoveTo(x, y)];
        area := area + [LineTo(x, y)];
      } else {
        line := line + [LineTo(x, y)];
        area := area + [LineTo(x, y)];
      }
      index := index + 1;
    }
    area := area + [LineTo(GetX(f, points[|points| - 1].date), BASELINE), ClosePath];
  }

  /** For the frame of its own series, the area's closing command drops to
      the baseline at the right edge of the plot. */
  lemma AreaClosesAtRightEdge(area: seq<PathCmd>, points: seq<Point>)
    requires |points| > 0 && Defined(FrameOf(points))
    requires IsAreaPath(area, points, FrameOf(points))
    ensures area[|points| + 1] == LineTo(820.0, 420.0)
  {
    var f := FrameOf(points);
    ScaleEndpoints(f);
    assert f.minDate + f.dateRange == points[|points| - 1].date;
  }

  /** formatXP: millions with one decimal and "M", thousands with one
      decimal and "k", else the value itself. */
  function FormatXP(xp: real): (l: Label)
    ensures xp >= 1000000.0 ==> l == Fixed(xp / 1000000.0, 1, "M")
    ensures 1000.0 <= xp < 1000000.0 ==> l == Fixed(xp / 1000.0, 1, "k")
    ensures xp < 1000.0 ==> l == Plain(xp, "")
  {
    Tiered(xp, 1, 1, "M", "k", "")
  }

  /** 999 shows as 999, 1500 as 1.5k and 2,500,000 as 2.5M. */
  lemma FormatXPExamples()
    ensures FormatXP(999.0) == Plain(999.0, "")
    ensures FormatXP(1500.0) == Fixed(1.5, 1, "k")
    ensures FormatXP(2500000.0) == Fixed(2.5, 1, "M")
  {
  }

  /** A y-axis label: the formatted value and the y of its tick. */
  datatype AxisLabel = AxisLabel(text: Label, y: real)

  const FRACTIONS: seq<real> := [0.0, 0.25, 0.5, 0.75, 1.0]

  /** The y-axis labels: one per fraction of maxXP. */
  function YLabels(maxXP: int): (labels: seq<AxisLabel>)
    ensures |labels| == 5
    ensures forall k :: 0 <= k < 5 ==>
      labels[k] == AxisLabel(FormatXP(maxXP as real * (k as real / 4.0)), 420.0 - (k as real / 4.0) * 340.0)
  {
    seq(5, k requires 0 <= k < 5 =>
      var fraction := FRACTIONS[k];
      AxisLabel(FormatXP(maxXP as real * fraction), HEIGHT - PADDING - fraction * GRAPH_HEIGHT))
  }

  /** Each label's tick sits where getY puts the value it names. */
  lemma YLabelsOnScale(f: Frame, k: nat)
    requires Defined(f) && k < 5
    ensures YLabels(f.maxXP)[k].y == GetY(f, f.maxXP as real * (k as real / 4.0))
  {
    var m, q := f.maxXP as real, k as real / 4.0;
    DivCancel(m, q);
    assert GetY(f, m * q) == HEIGHT - PADDING - q * GRAPH_HEIGHT;
  }

  lemma DivCancel(m: real, q: real)
    requires m != 0.0
    ensures (m * q) / m == q
  {
  }

  /** A point marker: centre and tooltip value (the tooltip's date text is
      not modelled). */
  datatype Dot = Dot(cx: real, cy: real, tip: Label)

  function Dots(points: seq<Point>, f: Frame): (dots: seq<Dot>)
    requires Defined(f)
    ensures |dots| == |points|
  {
    seq(|points|, i requires 0 <= i < |points| =>
      Dot(GetX(f, points[i].date), GetY(f, points[i].xp as real), FormatXP(points[i].xp as real)))
  }

  /** Every marker sits on the vertex of the line for the same point, and its
      tooltip formats that point's cumulative XP. */
  lemma DotsOnLine(line: seq<PathCmd>, points: seq<Point>, f: Frame, i: nat)
    requires Defined(f) && IsLinePath(line, points, f) && i < |points|
    ensures Dots(points, f)[i].cx == line[i].x && Dots(points, f)[i].cy == line[i].y
    ensures Dots(points, f)[i].tip == FormatXP(points[i].xp as real)
  {
  }

  /* ---------- the render ---------- */

  /** The graph: the placeholder, a chart, or Unspecified where the source
      divides by zero (a single date, or maxXP = 0), whose output the model
      does not define. */
  datatype TimelineGraph =
    | NoXPData
    | Unspecified
    | Chart(points: seq<Point>, frame: Frame, line: seq<PathCmd>, area: seq<PathCmd>,
            yLabels: seq<AxisLabel>, dots: seq<Dot>)

  /** What renderXPTimelineGraph produces for its argument. */
  predicate Renders(xpData: Option<seq<Transaction>>, g: TimelineGraph) {
    && (g == NoXPData <==> xpData.None? || |xpData.value| == 0)
    && (g != NoXPData ==>
          var points := Cumulative(xpData.value);
          && (g.Unspecified? <==> !Defined(FrameOf(points)))
          && (g.Chart? ==>
                && g.points == points && g.frame == FrameOf(points)
                && IsLinePath(g.line, points, g.frame) && IsAreaPath(g.area, points, g.frame)
                && g.yLabels == YLabels(g.frame.maxXP) && g.dots == Dots(points, g.frame)))
  }

  /** The description pins the graph down: two graphs it admits for the same
      data are equal. */
  lemma RendersUnique(xpData: Option<seq<Transaction>>, g1: TimelineGraph, g2: TimelineGraph)
    requires Renders(xpData, g1) && Renders(xpData, g2)
    ensures g1 == g2
  {
    if g1.Chart? {
      var points := Cumulative(xpData.value);
      assert g2.Chart? && g1.frame == g2.frame;
      LinePathUnique(g1.line, g2.line, points, g1.frame);
      AreaPathUnique(g1.area, g2.area, points, g1.frame);
    }
  }

  /** A line path is determined by its points and frame. */
  lemma LinePathUnique(l1: seq<PathCmd>, l2: seq<PathCmd>, points: seq<Point>, f: Frame)
    requires Defined(f) && IsLinePath(l1, points, f) && IsLinePath(l2, points, f)
    ensures l1 == l2
  {
    assert forall i :: 0 <= i < |points| ==> l1[i] == l2[i];
  }

  /** An area path is determined by its points and frame. */
  lemma AreaPathUnique(a1: seq<PathCmd>, a2: seq<PathCmd>, points: seq<Point>, f: Frame)
    requires Defined(f) && |points| > 0 && IsAreaPath(a1, points, f) && IsAreaPath(a2, points, f)
    ensures a1 == a2
  {
    forall i | 0 <= i < |a1|
      ensures a1[i] == a2[i]
    {
      if 1 <= i <= |points| {
        var j := i - 1;
        assert a1[j + 1] == LineTo(GetX(f, points[j].date), GetY(f, points[j].xp as real)) == a2[j + 1];
      }
    }
  }


  /** renderXPTimelineGraph. */
  method RenderXPTimelineGraph(xpData: Option<seq<Transaction>>) returns (g: TimelineGraph)
    ensures Renders(xpData, g)
  {
    if xpData.None? || |xpData.value| == 0 {
      return NoXPData;
    }
    var dataPoints := CumulativeSeries(xpData.value);
    var maxXP := MaxXP(dataPoints);
    var minDate := dataPoints[0].date;
    var maxDate := dataPoints[|dataPoints| - 1].date;
    var frame := Frame(minDate, maxDate - minDate, maxXP);
    if !Defined(frame) {
      return Unspecified;
    }
    var line, area := BuildPaths(dataPoints, frame);
    g := Chart(dataPoints, frame, line, area, YLabels(maxXP), Dots(dataPoints, frame));
  }
}
