/** The coordinate and placeholder logic of `renderXPProgress`: a cumulative
    XP line chart on a 400 x 300 canvas with a 40-unit margin. Times are
    integers (milliseconds); coordinates are exact reals. */
module XpChart {
  import opened Formatter
  import opened Parser

  const Padding: real := 40.0
  const FullWidth: real := 400.0
  const FullHeight: real := 300.0
  const PlotWidth: real := FullWidth - 2.0 * Padding    // 320
  const PlotHeight: real := FullHeight - 2.0 * Padding  // 220
  /** How far above its point an event's text starts. */
  const LabelRise: real := 25.0

  datatype Point = Point(x: real, y: real)

  /** One event: its circle, the anchor of its text, and the amount and date
      that text shows. */
  datatype Marker = Marker(at: Point, textAt: Point, amount: Readable, time: int)

  /** The caption under the chart: the first event's date and amount. */
  datatype Summary = Summary(time: int, amount: Readable)

  /** The two placeholder texts, or the drawn chart. The polyline joins the
      markers' points in order. */
  datatype Chart = NoEvents | SameTime | Plot(markers: seq<Marker>, first: Summary)

  /** Time mapped linearly onto the plotting width. */
  function XOf(t: int, minTime: int, span: int): (x: real)
    requires span != 0
    ensures t == minTime ==> x == Padding
  {
    Padding + ((t - minTime) as real / span as real) * PlotWidth
  }

  /** Cumulative XP as a share of the total, measured up from the bottom margin. */
  function YOf(cumulative: real, total: int): (y: real)
    requires total != 0
    ensures cumulative == 0.0 ==> y == FullHeight - Padding
  {
    FullHeight - Padding - (cumulative / total as real) * PlotHeight
  }

  /** The sum of the amounts of `s`. */
  function Cumulative(s: seq<XpEvent>): (r: real)
    ensures NonNegativeAmounts(s) ==> r >= 0.0
  {
    if s == [] then 0.0 else Cumulative(s[..|s| - 1]) + s[|s| - 1].amount
  }

  /** The circle sits at the event's time and running total; its text starts
      straight above it and shows the event's own amount and date. */
  function MarkerFor(e: XpEvent, cumulative: real, minTime: int, span: int, total: int): (m: Marker)
    requires span != 0 && total != 0
    ensures m.at == Point(XOf(e.time, minTime, span), YOf(cumulative, total))
    ensures m.textAt.x == m.at.x && m.textAt.y == m.at.y - LabelRise
    ensures m.amount == ConvertXPToReadable(e.amount) && m.time == e.time
  {
    var p := Point(XOf(e.time, minTime, span), YOf(cumulative, total));
    Marker(p, Point(p.x, p.y - LabelRise), ConvertXPToReadable(e.amount), e.time)
  }

  /** The `xps.map` callback, with the running total it updates passed along
      as `before`. */
  function MarkersFrom(xps: seq<XpEvent>, minTime: int, span: int, total: int, before: real): (r: seq<Marker>)
    requires span != 0 && total != 0
    ensures |r| == |xps|
  {
    if xps == [] then []
    else
      var running := before + xps[0].amount;
      [MarkerFor(xps[0], running, minTime, span, total)] + MarkersFrom(xps[1..], minTime, span, total, running)
  }

  function RenderXPProgress(xps: seq<XpEvent>, totalXP: int): (c: Chart)
    ensures c.NoEvents? <==> |xps| == 0 || totalXP == 0
    ensures c.SameTime? <==> |xps| > 0 && totalXP != 0 && xps[0].time == xps[|xps| - 1].time
    ensures c.Plot? ==> |c.markers| == |xps|
    ensures c.Plot? ==> c.first == Summary(xps[0].time, ConvertXPToReadable(xps[0].amount))
  {
    if |xps| == 0 || totalXP == 0 then NoEvents
    else
      var minTime := xps[0].time;
      var maxTime := xps[|xps| - 1].time;
      var span := maxTime - minTime;
      if span == 0 then SameTime
      else
        Plot(MarkersFrom(xps, minTime, span, totalXP, 0.0),
             Summary(xps[0].time, ConvertXPToReadable(xps[0].amount)))
  }

  // ---------------------------------------------------------------------
  // The running total equals a closed-form prefix sum
  // ---------------------------------------------------------------------

  lemma {:induction false} CumulativeCons(e: XpEvent, s: seq<XpEvent>)
    ensures Cumulative([e] + s) == e.amount + Cumulative(s)
    decreases |s|
  {
    if s != [] {
      var t := s[..|s| - 1];
      assert ([e] + s)[..|s|] == [e] + t;
      CumulativeCons(e, t);
    }
  }

  lemma {:induction false} MarkersFromAt(xps: seq<XpEvent>, minTime: int, span: int, total: int, before: real, i: int)
    requires span != 0 && total != 0
    requires 0 <= i < |xps|
    ensures MarkersFrom(xps, minTime, span, total, before)[i]
         == MarkerFor(xps[i], before + Cumulative(xps[..i + 1]), minTime, span, total)
    decreases i
  {
    var running := before + xps[0].amount;
    if i == 0 {
      assert xps[..1] == [] + [xps[0]];
      assert Cumulative(xps[..1]) == xps[0].amount;
    } else {
      MarkersFromAt(xps[1..], minTime, span, total, running, i - 1);
      assert xps[..i + 1] == [xps[0]] + xps[1..][..i];
      CumulativeCons(xps[0], xps[1..][..i]);
    }
  }

  /** Every drawn point: x from its time, y from the XP gained up to and
      including it. */
  lemma PlotMarkerAt(xps: seq<XpEvent>, totalXP: int, i: int)
    requires RenderXPProgress(xps, totalXP).Plot?
    requires 0 <= i < |xps|
    ensures var span := xps[|xps| - 1].time - xps[0].time;
      span != 0 &&
      RenderXPProgress(xps, totalXP).markers[i]
        == MarkerFor(xps[i], Cumulative(xps[..i + 1]), xps[0].time, span, totalXP)
  {
    MarkersFromAt(xps, xps[0].time, xps[|xps| - 1].time - xps[0].time, totalXP, 0.0, i);
  }

  // ---------------------------------------------------------------------
  // Geometry
  // ---------------------------------------------------------------------

  lemma XOfRange(t: int, minTime: int, span: int)
    requires span > 0 && minTime <= t <= minTime + span
    ensures Padding <= XOf(t, minTime, span) <= Padding + PlotWidth
  {
    var a, b := (t - minTime) as real, span as real;
    assert 0.0 <= a / b <= 1.0 by { assert a / b * b == a; }
  }

  lemma XOfMonotone(t: int, u: int, minTime: int, span: int)
    requires span > 0 && t <= u
    ensures XOf(t, minTime, span) <= XOf(u, minTime, span)
  {
    var a, c, b := (t - minTime) as real, (u - minTime) as real, span as real;
    assert a / b <= c / b by { assert a / b * b == a && c / b * b == c; }
  }

  /** The first time maps to the left margin, the last to the right one. */
  lemma XOfEnds(minTime: int, span: int)
    requires span > 0
    ensures XOf(minTime, minTime, span) == Padding
    ensures XOf(minTime + span, minTime, span) == Padding + PlotWidth
  {
    assert span as real / span as real == 1.0;
    assert (minTime + span - minTime) as real == span as real;
  }

  /** The x of the i-th drawn point. */
  lemma PlotX(xps: seq<XpEvent>, totalXP: int, i: int)
    requires RenderXPProgress(xps, totalXP).Plot?
    requires 0 <= i < |xps|
    ensures var span := xps[|xps| - 1].time - xps[0].time;
      span != 0 &&
      RenderXPProgress(xps, totalXP).markers[i].at.x == XOf(xps[i].time, xps[0].time, span)
  {
    PlotMarkerAt(xps, totalXP, i);
  }

  /** On time-sorted events every x lies in the plotting width, the first
      event sits on the left margin, the last on the right, and x never
      moves left. */
  lemma XCoordinates(xps: seq<XpEvent>, totalXP: int)
    requires SortedByTime(xps)
    requires RenderXPProgress(xps, totalXP).Plot?
    ensures var m := RenderXPProgress(xps, totalXP).markers;
      && (forall i :: 0 <= i < |m| ==> Padding <= m[i].at.x <= Padding + PlotWidth)
      && m[0].at.x == Padding
      && m[|m| - 1].at.x == Padding + PlotWidth
      && (forall i, j :: 0 <= i <= j < |m| ==> m[i].at.x <= m[j].at.x)
  {
    var m := RenderXPProgress(xps, totalXP).markers;
    var minTime := xps[0].time;
    var span := xps[|xps| - 1].time - minTime;
    assert span > 0;
    forall i | 0 <= i < |m|
      ensures Padding <= m[i].at.x <= Padding + PlotWidth
    {
      PlotX(xps, totalXP, i);
      XOfRange(xps[i].time, minTime, span);
    }
    PlotX(xps, totalXP, 0);
    PlotX(xps, totalXP, |m| - 1);
    XOfEnds(minTime, span);
    forall i, j | 0 <= i <= j < |m|
      ensures m[i].at.x <= m[j].at.x
    {
      PlotX(xps, totalXP, i);
      PlotX(xps, totalXP, j);
      XOfMonotone(xps[i].time, xps[j].time, minTime, span);
    }
  }

  predicate NonNegativeAmounts(xps: seq<XpEvent>) {
    forall i :: 0 <= i < |xps| ==> xps[i].amount >= 0.0
  }

  lemma {:induction false} CumulativeMonotone(s: seq<XpEvent>, i: int, j: int)
    requires NonNegativeAmounts(s)
    requires 0 <= i <= j <= |s|
    ensures 0.0 <= Cumulative(s[..i]) <= Cumulative(s[..j])
    decreases j
  {
    if j == 0 {
      assert s[..0] == [];
    } else {
      assert s[..j][..j - 1] == s[..j - 1];
      if i < j {
        CumulativeMonotone(s, i, j - 1);
      } else {
        CumulativeMonotone(s, i - 1, j - 1);
      }
    }
  }

  lemma YOfRange(cumulative: real, total: int)
    requires total > 0 && 0.0 <= cumulative
    ensures YOf(cumulative, total) <= FullHeight - Padding
    ensures cumulative <= total as real ==> Padding <= YOf(cumulative, total)
  {
    var b := total as real;
    assert 0.0 <= cumulative / b by { assert cumulative / b * b == cumulative; }
    if cumulative <= b {
      assert cumulative / b <= 1.0 by { assert cumulative / b * b == cumulative; }
    }
  }

  lemma YOfMonotone(c: real, d: real, total: int)
    requires total > 0 && c <= d
    ensures YOf(c, total) >= YOf(d, total)
  {
    var b := total as real;
    assert c / b <= d / b by { assert c / b * b == c && d / b * b == d; }
  }

  /** The whole total maps to the top margin. */
  lemma YOfTotal(total: int)
    requires total != 0
    ensures YOf(total as real, total) == Padding
  {
    var t := total as real;
    assert t / t == 1.0 by {
      if t > 0.0 {
        assert t / t == 1.0;
      } else {
        assert -t > 0.0 && t / t == (-t) / (-t);
      }
    }
  }

  /** The y of the i-th drawn point. */
  lemma PlotY(xps: seq<XpEvent>, totalXP: int, i: int)
    requires RenderXPProgress(xps, totalXP).Plot?
    requires 0 <= i < |xps|
    ensures totalXP != 0
    ensures RenderXPProgress(xps, totalXP).markers[i].at.y == YOf(Cumulative(xps[..i + 1]), totalXP)
  {
    PlotMarkerAt(xps, totalXP, i);
  }

  /** With non-negative amounts and a positive total the curve only climbs:
      y never increases along the events and never drops below the bottom
      margin line. When the events add up to no more than the total, it also
      stays inside the top margin. */
  lemma YCoordinates(xps: seq<XpEvent>, totalXP: int)
    requires NonNegativeAmounts(xps)
    requires totalXP > 0
    requires RenderXPProgress(xps, totalXP).Plot?
    ensures var m := RenderXPProgress(xps, totalXP).markers;
      && (forall i :: 0 <= i < |m| ==> m[i].at.y <= FullHeight - Padding)
      && (forall i, j :: 0 <= i <= j < |m| ==> m[i].at.y >= m[j].at.y)
      && (Cumulative(xps) <= totalXP as real ==> forall i :: 0 <= i < |m| ==> Padding <= m[i].at.y)
  {
    var m := RenderXPProgress(xps, totalXP).markers;
    assert xps[..|xps|] == xps;
    forall i | 0 <= i < |m|
      ensures m[i].at.y <= FullHeight - Padding
      ensures Cumulative(xps) <= totalXP as real ==> Padding <= m[i].at.y
    {
      PlotY(xps, totalXP, i);
      CumulativeMonotone(xps, i + 1, |xps|);
      YOfRange(Cumulative(xps[..i + 1]), totalXP);
    }
    forall i, j | 0 <= i <= j < |m|
      ensures m[i].at.y >= m[j].at.y
    {
      PlotY(xps, totalXP, i);
      PlotY(xps, totalXP, j);
      CumulativeMonotone(xps, i + 1, j + 1);
      YOfMonotone(Cumulative(xps[..i + 1]), Cumulative(xps[..j + 1]), totalXP);
    }
  }

  /** When the events add up to exactly the total, the last point reaches the
      top margin. */
  lemma YReachesTop(xps: seq<XpEvent>, totalXP: int)
    requires RenderXPProgress(xps, totalXP).Plot?
    requires Cumulative(xps) == totalXP as real
    ensures var m := RenderXPProgress(xps, totalXP).markers; m[|m| - 1].at.y == Padding
  {
    PlotY(xps, totalXP, |xps| - 1);
    assert xps[..|xps|] == xps;
    YOfTotal(totalXP);
  }
}
