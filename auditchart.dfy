/** renderAuditRatioGraph (graphql/public/js/graphs.js): the shares of audit
    XP done and received, the two pie wedges they become, and the texts of
    the chart. A wedge keeps its angles and SVG large-arc flag; the end points
    of its arc (Math.cos, Math.sin) are not modelled. */
module AuditChart {
  import opened Wrappers
  import opened Numeric
  import opened Queries

  const SIZE: real := 450.0
  const CENTER_X: real := SIZE / 2.0
  const CENTER_Y: real := 180.0
  const RADIUS: real := 100.0

  /** The top of the circle, -90 degrees: where the first wedge starts. */
  const START_ANGLE: real := -PI / 2.0

  /** A wedge from startAngle to endAngle (radians, clockwise on screen). */
  datatype Wedge = Wedge(startAngle: real, endAngle: real, largeArc: nat)

  /** getArcPath: the arc takes the long way round exactly when the wedge
      spans more than half the circle. */
  function ArcPath(startAngle: real, endAngle: real): (w: Wedge)
    ensures w.startAngle == startAngle && w.endAngle == endAngle
    ensures w.largeArc <= 1
    ensures w.largeArc == 1 <==> Span(w) > PI
  {
    Wedge(startAngle, endAngle, if endAngle - startAngle > PI then 1 else 0)
  }

  function Span(w: Wedge): real {
    w.endAngle - w.startAngle
  }

  /** formatBytes: "MB" and "kB" with one decimal, else the amount and "B". */
  function FormatBytes(bytes: real): (l: Label)
    ensures bytes >= 1000000.0 ==> l == Fixed(bytes / 1000000.0, 1, "MB")
    ensures 1000.0 <= bytes < 1000000.0 ==> l == Fixed(bytes / 1000.0, 1, "kB")
    ensures bytes < 1000.0 ==> l == Plain(bytes, "B")
  {
    Tiered(bytes, 1, 1, "MB", "kB", "B")
  }

  /** The chart: the placeholder, or the two wedges with their tooltips, the
      ratio in the middle (two decimals) and the legend's percentages (one
      decimal). */
  datatype AuditGraph =
    | NoAuditData
    | Pie(doneWedge: Wedge, receivedWedge: Wedge,
          donePercent: real, receivedPercent: real,
          doneText: Label, receivedText: Label, ratioText: Label,
          donePercentText: Label, receivedPercentText: Label)

  /** renderAuditRatioGraph: the placeholder without data or with nothing
      done or received; otherwise the pie with its byte labels, the ratio
      with two decimals and the legend's percentages with one. */
  function RenderAuditRatioGraph(auditData: Option<AuditStats>): (g: AuditGraph)
    ensures g.NoAuditData? <==> auditData.None? || (auditData.value.done == 0 && auditData.value.received == 0)
    ensures g.Pie? ==>
      var a := auditData.value;
      && g.doneText == FormatBytes(a.done as real) && g.receivedText == FormatBytes(a.received as real)
      && g.ratioText == Fixed(a.ratio, 2, "")
      && g.donePercentText == Fixed(g.donePercent, 1, "%")
      && g.receivedPercentText == Fixed(g.receivedPercent, 1, "%")
  {
    if auditData.None? || (auditData.value.done == 0 && auditData.value.received == 0) then
      NoAuditData
    else
      var done, received := auditData.value.done as real, auditData.value.received as real;
      var total := done + received;
      var donePercent := (done / total) * 100.0;
      var receivedPercent := (received / total) * 100.0;
      var doneAngle := (donePercent / 100.0) * 2.0 * PI;
      var receivedAngle := (receivedPercent / 100.0) * 2.0 * PI;
      var doneEndAngle := START_ANGLE + doneAngle;
      var receivedEndAngle := doneEndAngle + receivedAngle;
      Pie(ArcPath(START_ANGLE, doneEndAngle), ArcPath(doneEndAngle, receivedEndAngle),
          donePercent, receivedPercent,
          FormatBytes(done), FormatBytes(received), Fixed(auditData.value.ratio, 2, ""),
          Fixed(donePercent, 1, "%"), Fixed(receivedPercent, 1, "%"))
  }

  /** The percentages of the pie: each proportional to its amount, in
      0..100, together 100. */
  lemma PieShares(auditData: Option<AuditStats>)
    requires RenderAuditRatioGraph(auditData).Pie?
    ensures var g, a := RenderAuditRatioGraph(auditData), auditData.value;
      var total := a.done as real + a.received as real;
      && g.donePercent * total == a.done as real * 100.0
      && g.receivedPercent * total == a.received as real * 100.0
      && g.donePercent + g.receivedPercent == 100.0
      && 0.0 <= g.donePercent <= 100.0 && 0.0 <= g.receivedPercent <= 100.0
  {
    var a := auditData.value;
    SharesComplete(a.done as real, a.received as real);
  }

  /** The wedges of the pie: the done wedge starts at the top and spans its
      share of the circle, the received wedge takes the rest, and a wedge
      takes the large arc exactly when it spans more than half the circle,
      so at most one does. */
  lemma PieWedges(auditData: Option<AuditStats>)
    requires RenderAuditRatioGraph(auditData).Pie?
    ensures var g := RenderAuditRatioGraph(auditData);
      && g.doneWedge.startAngle == -PI / 2.0
      && g.receivedWedge.startAngle == g.doneWedge.endAngle
      && Span(g.doneWedge) == g.donePercent / 100.0 * 2.0 * PI
      && Span(g.doneWedge) + Span(g.receivedWedge) == 2.0 * PI
      && (g.doneWedge.largeArc == 1 <==> Span(g.doneWedge) > PI)
      && (g.receivedWedge.largeArc == 1 <==> Span(g.receivedWedge) > PI)
      && g.doneWedge.largeArc + g.receivedWedge.largeArc <= 1
  {
    var g := RenderAuditRatioGraph(auditData);
    PieShares(auditData);
    var d, r := g.donePercent / 100.0 * 2.0 * PI, g.receivedPercent / 100.0 * 2.0 * PI;
    assert d + r == (g.donePercent + g.receivedPercent) / 100.0 * 2.0 * PI;
  }

  /** Two shares of a positive total make a whole: percentages in 0..100
      that add up to 100, each proportional to its amount. */
  lemma SharesComplete(done: real, received: real)
    requires done >= 0.0 && received >= 0.0 && done + received > 0.0
    ensures var total := done + received;
      && (done / total) * 100.0 + (received / total) * 100.0 == 100.0
      && 0.0 <= (done / total) * 100.0 <= 100.0
      && 0.0 <= (received / total) * 100.0 <= 100.0
      && (done / total) * 100.0 * total == done * 100.0
      && (received / total) * 100.0 * total == received * 100.0
  {
    var total := done + received;
    var d, r := done / total, received / total;
    assert d * total == done && r * total == received;
    assert (d + r) * total == d * total + r * total;
    Cancel(d + r, 1.0, total);
    assert done / total <= 1.0 by {
      assert done <= total;
    }
    assert received / total <= 1.0 by {
      assert received <= total;
    }
  }

  lemma Cancel(x: real, y: real, t: real)
    requires t > 0.0 && x * t == y * t
    ensures x == y
  {
  }

  /** Done 3 and received 1 split 75 : 25, and only the done wedge, three
      quarters of the circle, takes the large arc. */
  lemma PieExample()
    ensures var g := RenderAuditRatioGraph(Some(AuditStats(3.0, 3, 1)));
      && g.Pie? && g.donePercent == 75.0 && g.receivedPercent == 25.0
      && Span(g.doneWedge) == 1.5 * PI && g.doneWedge.largeArc == 1 && g.receivedWedge.largeArc == 0
  {
    var g := RenderAuditRatioGraph(Some(AuditStats(3.0, 3, 1)));
    assert g.donePercent == 75.0;
  }
}
