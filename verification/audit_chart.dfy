/** The width and colour logic of `renderAudits`: two horizontal bars on a
    300 x 200 canvas, "done" (up, with its bonus) and "received" (down), the
    larger side drawn in the accent colour. */
module AuditChart {
  import opened Wrappers
  import opened Formatter
  import opened Parser

  const SvgWidth: real := 300.0
  const SvgHeight: real := 200.0
  const BarHeight: real := 15.0
  /** The widest a bar scaled to 100 percent can be. */
  const FullBar: real := SvgWidth - 100.0

  /** `cornflowerblue` and `white`. */
  datatype Colour = Accent | Neutral

  function Opposite(c: Colour): Colour {
    match c
    case Accent => Neutral
    case Neutral => Accent
  }

  datatype Bar = Bar(x: real, y: real, width: real, height: real, colour: Colour)

  /** A text element: where it sits, its colour, and the quantities it shows. */
  datatype Caption = Caption(x: real, y: real, colour: Colour, shows: seq<Readable>)

  datatype AuditView = AuditView(
    upText: Caption, up: Bar,
    downText: Caption, down: Bar,
    ratio: real, ratioColour: Colour)

  /** `auditRatio.toFixed(1)` on the empty record `{}` reads a property of
      `undefined`. */
  datatype RenderError = UndefinedAuditRatio

  /** `Math.max(totalUp, totalDown, 1)`. */
  function MaxValue(up: real, down: real): (m: real)
    ensures m >= 1.0 && m >= up && m >= down
    ensures m == up || m == down || m == 1.0
  {
    if up >= down && up >= 1.0 then up
    else if down >= 1.0 then down
    else 1.0
  }

  /** `totalUp > totalDown ? accent : neutral` for the up side; the down side
      uses the other branch order. */
  function UpColour(up: real, down: real): (c: Colour)
    ensures c == Accent <==> up > down
  {
    if up > down then Accent else Neutral
  }

  function DownColour(up: real, down: real): (c: Colour)
    ensures c == Opposite(UpColour(up, down))
  {
    if up > down then Neutral else Accent
  }

  /** Bar width: the value as a percentage of the scale, applied to the
      usable width. */
  function BarWidth(value: real, scale: real): (w: real)
    requires scale >= 1.0
    ensures value == 0.0 ==> w == 0.0
    ensures value > 0.0 ==> w > 0.0
  {
    (FullBar * ((value / scale) * 100.0)) / 100.0
  }

  function RenderAudits(a: Audits): (r: Result<AuditView, RenderError>)
    ensures r.Failure? <==> a.NoAudits?
    ensures r.Success? ==> r.value.up.colour == Opposite(r.value.down.colour)
    ensures r.Success? ==> (r.value.up.colour == Accent <==> a.totalUp > a.totalDown)
    ensures r.Success? ==> r.value.upText.colour == r.value.up.colour
    ensures r.Success? ==> r.value.downText.colour == r.value.down.colour
    ensures r.Success? ==> r.value.ratio == a.auditRatio
  {
    match a
    case NoAudits => Failure(UndefinedAuditRatio)
    case Audits(ratio, up, down, bonus) =>
      var scale := MaxValue(up, down);
      var upColour := UpColour(up, down);
      var downColour := DownColour(up, down);
      Success(AuditView(
        Caption(20.0, 15.0, upColour, [ConvertXPToReadable(up), ConvertXPToReadable(bonus)]),
        Bar(20.0, 20.0, BarWidth(up + bonus, scale), BarHeight, upColour),
        Caption(20.0, 70.0, downColour, [ConvertXPToReadable(down)]),
        Bar(20.0, 75.0, BarWidth(down, scale), BarHeight, downColour),
        ratio, Accent))
  }

  lemma BarWidthShare(value: real, scale: real)
    requires scale >= 1.0
    ensures BarWidth(value, scale) == FullBar * (value / scale)
    ensures BarWidth(value, scale) * scale == FullBar * value
  {
    var q := value / scale;
    assert q * scale == value;
    calc {
      BarWidth(value, scale) * scale;
      FullBar * q * scale;
      FullBar * value;
    }
  }

  lemma BarWidthFits(value: real, scale: real)
    requires scale >= 1.0 && 0.0 <= value <= scale
    ensures 0.0 <= BarWidth(value, scale) <= FullBar
    ensures value == scale ==> BarWidth(value, scale) == FullBar
  {
    BarWidthShare(value, scale);
    assert value / scale * scale == value;
  }

  lemma BarWidthAdditive(a: real, b: real, scale: real)
    requires scale >= 1.0
    ensures BarWidth(a + b, scale) == BarWidth(a, scale) + BarWidth(b, scale)
  {
    BarWidthShare(a + b, scale);
    BarWidthShare(a, scale);
    BarWidthShare(b, scale);
    assert (a + b) / scale == a / scale + b / scale;
  }

  /** The bars' widths are the shares of the scale that the up total plus its
      bonus, and the down total, make up. */
  lemma RenderedWidths(a: Audits)
    requires a.Audits?
    ensures var v := RenderAudits(a).value;
      var scale := MaxValue(a.totalUp, a.totalDown);
      && v.up.width == BarWidth(a.totalUp + a.totalUpBonus, scale)
      && v.down.width == BarWidth(a.totalDown, scale)
  {
  }

  /** The down bar fits the usable width for a non-negative total, and fills
      it when the down side sets the scale. The up side that sets the scale
      fills the width and then adds its bonus share on top, so that bar can
      overflow. */
  lemma BarWidths(a: Audits)
    requires a.Audits?
    ensures var v := RenderAudits(a).value;
      && (a.totalDown >= 0.0 ==> 0.0 <= v.down.width <= FullBar)
      && (a.totalDown >= 1.0 && a.totalDown >= a.totalUp ==> v.down.width == FullBar)
      && (a.totalUp >= 1.0 && a.totalUp >= a.totalDown ==>
            v.up.width == FullBar + BarWidth(a.totalUpBonus, a.totalUp))
  {
    var scale := MaxValue(a.totalUp, a.totalDown);
    RenderedWidths(a);
    if a.totalDown >= 0.0 {
      BarWidthFits(a.totalDown, scale);
    }
    if a.totalUp >= 1.0 && a.totalUp >= a.totalDown {
      BarWidthAdditive(a.totalUp, a.totalUpBonus, scale);
      BarWidthFits(a.totalUp, scale);
    }
  }

  /** 100 audited up against 50 received, no bonus: the up bar is full width
      and accented, the down bar half width and neutral. */
  lemma AuditExample()
    ensures var v := RenderAudits(Audits(2.0, 100.0, 50.0, 0.0)).value;
      && v.up == Bar(20.0, 20.0, FullBar, BarHeight, Accent)
      && v.down == Bar(20.0, 75.0, FullBar * 0.5, BarHeight, Neutral)
  {
  }
}
