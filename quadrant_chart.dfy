/**
 * The quadrant chart's own arithmetic: domain validation, the reference lines
 * through the domain ends and midpoints, the merged chart margin and the
 * coordinates of the two axis arrows.
 */
module QuadrantChart {
  import opened Optional
  import ScrollProgress

  /** A JavaScript value as `getNumberDomain` sees it. */
  datatype JsValue = FiniteNumber(value: real) | NonFiniteNumber | NotANumberType

  /** The `domain` of an axis: not an array at all, or an array of values. */
  datatype DomainInput = NotAnArray | ArrayOf(items: seq<JsValue>)

  datatype Domain = Domain(lo: real, hi: real)

  /**
   * `getNumberDomain`: an array of at least two entries whose first two are
   * finite numbers gives those two numbers; anything else gives null.
   */
  function GetNumberDomain(domain: DomainInput): (r: Option<Domain>)
    ensures r.Some? <==>
      domain.ArrayOf? && |domain.items| >= 2 &&
      domain.items[0].FiniteNumber? && domain.items[1].FiniteNumber?
    ensures r.Some? ==> r.value == Domain(domain.items[0].value, domain.items[1].value)
  {
    if !domain.ArrayOf? || |domain.items| < 2 then None
    else
      var min, max := domain.items[0], domain.items[1];
      if !min.FiniteNumber? || !max.FiniteNumber? then None
      else Some(Domain(min.value, max.value))
  }

  /** Entries after the first two never change the verdict. */
  lemma DomainIgnoresRest(first: seq<JsValue>, rest: seq<JsValue>)
    requires |first| == 2
    ensures GetNumberDomain(ArrayOf(first + rest)) == GetNumberDomain(ArrayOf(first))
  {
    assert (first + rest)[0] == first[0] && (first + rest)[1] == first[1];
  }

  /** `getNumberDomain(computed) ?? getNumberDomain(prop)`: the axis's computed domain wins. */
  function ResolveDomain(computed: DomainInput, prop: DomainInput): (r: Option<Domain>)
    ensures GetNumberDomain(computed).Some? ==> r == GetNumberDomain(computed)
    ensures GetNumberDomain(computed).None? ==> r == GetNumberDomain(prop)
    ensures r.Some? <==> GetNumberDomain(computed).Some? || GetNumberDomain(prop).Some?
  {
    var c := GetNumberDomain(computed);
    if c.Some? then c else GetNumberDomain(prop)
  }

  /** The midline of a resolved domain: halfway between its two ends. */
  function Midline(d: Option<Domain>): (mid: Option<real>)
    ensures mid.Some? <==> d.Some?
    ensures mid.Some? ==> ScrollProgress.Min(d.value.lo, d.value.hi) <= mid.value <= ScrollProgress.Max(d.value.lo, d.value.hi)
    ensures mid.Some? ==> mid.value - d.value.lo == d.value.hi - mid.value
  {
    if d.Some? then Some((d.value.lo + d.value.hi) / 2.0) else None
  }

  /** A dashed reference line: vertical at an x value or horizontal at a y value. */
  datatype ReferenceLine = VerticalAt(x: real) | HorizontalAt(y: real)

  /** The line an axis draws at `v`: vertical for x, horizontal for y. */
  function LineAt(v: real, vertical: bool): ReferenceLine {
    if vertical then VerticalAt(v) else HorizontalAt(v)
  }

  /** The lines for one axis, in render order: the two domain ends, or none when the domain does not resolve. */
  function EndLines(d: Option<Domain>, vertical: bool): (lines: seq<ReferenceLine>)
    ensures d.None? ==> lines == []
    ensures d.Some? ==> lines == [LineAt(d.value.lo, vertical), LineAt(d.value.hi, vertical)]
  {
    if d.None? then []
    else if vertical then [VerticalAt(d.value.lo), VerticalAt(d.value.hi)]
    else [HorizontalAt(d.value.lo), HorizontalAt(d.value.hi)]
  }

  /** The midline of one axis, if there is one: exactly when the domain resolves. */
  function MidLines(d: Option<Domain>, vertical: bool): (lines: seq<ReferenceLine>)
    ensures d.None? ==> lines == []
    ensures d.Some? ==> lines == [LineAt((d.value.lo + d.value.hi) / 2.0, vertical)]
  {
    match Midline(d)
    case None => []
    case Some(m) => if vertical then [VerticalAt(m)] else [HorizontalAt(m)]
  }

  /**
   * `QuadrantReferenceLines`: for each axis whose domain resolves, lines at both
   * ends and at the midpoint (vertical lines for x, horizontal for y); nothing for
   * an axis whose domain does not resolve.
   */
  function ReferenceLines(computedX: DomainInput, xDomain: DomainInput,
                          computedY: DomainInput, yDomain: DomainInput): (lines: seq<ReferenceLine>)
    ensures var dx, dy := ResolveDomain(computedX, xDomain), ResolveDomain(computedY, yDomain);
      |lines| == (if dx.Some? then 3 else 0) + (if dy.Some? then 3 else 0)
    ensures forall l :: l in lines && l.VerticalAt? ==>
      var dx := ResolveDomain(computedX, xDomain);
      dx.Some? && (l.x == dx.value.lo || l.x == dx.value.hi || l.x == Midline(dx).value)
    ensures forall l :: l in lines && l.HorizontalAt? ==>
      var dy := ResolveDomain(computedY, yDomain);
      dy.Some? && (l.y == dy.value.lo || l.y == dy.value.hi || l.y == Midline(dy).value)
    ensures var dx := ResolveDomain(computedX, xDomain);
      dx.Some? ==>
        VerticalAt(dx.value.lo) in lines && VerticalAt(dx.value.hi) in lines &&
        VerticalAt(Midline(dx).value) in lines
    ensures var dy := ResolveDomain(computedY, yDomain);
      dy.Some? ==>
        HorizontalAt(dy.value.lo) in lines && HorizontalAt(dy.value.hi) in lines &&
        HorizontalAt(Midline(dy).value) in lines
    ensures var dx, dy := ResolveDomain(computedX, xDomain), ResolveDomain(computedY, yDomain);
      dx.Some? && dy.Some? ==>
        lines == [VerticalAt(dx.value.lo), VerticalAt(dx.value.hi),
                  HorizontalAt(dy.value.lo), HorizontalAt(dy.value.hi),
                  VerticalAt(Midline(dx).value), HorizontalAt(Midline(dy).value)]
  {
    var dx, dy := ResolveDomain(computedX, xDomain), ResolveDomain(computedY, yDomain);
    EndLines(dx, true) + EndLines(dy, false) + MidLines(dx, true) + MidLines(dy, false)
  }

  /**
   * One key of the `margin` prop: absent, present with `undefined`, or a number.
   * The object spread copies a present `undefined`; `??` replaces it.
   */
  datatype Field = Absent | Undefined | Given(v: real)

  datatype PartialMargin = PartialMargin(top: Field, right: Field, bottom: Field, left: Field)

  /** The margin handed to the chart; `top` is `None` when the prop spread an `undefined` over it. */
  datatype ChartMargin = ChartMargin(top: Option<real>, right: real, bottom: real, left: real)

  const DefaultMargin: real := 5.0
  const DefaultAxisLabelWidth: real := 100.0
  const DefaultAxisLabelHeight: real := 100.0

  /** `margin?.k ?? fallback`. */
  function Coalesce(margin: Option<PartialMargin>, pick: PartialMargin -> Field, fallback: real): (r: real)
    ensures margin.Some? && pick(margin.value).Given? ==> r == pick(margin.value).v
    ensures margin.None? || !pick(margin.value).Given? ==> r == fallback
  {
    if margin.Some? && pick(margin.value).Given? then pick(margin.value).v else fallback
  }

  /** The value `{...DEFAULT_CHART_MARGIN, ...margin}` leaves under `top`. */
  function SpreadTop(margin: Option<PartialMargin>): (top: Option<real>)
    ensures top.None? <==> margin.Some? && margin.value.top.Undefined?
    ensures margin.Some? && margin.value.top.Given? ==> top == Some(margin.value.top.v)
    ensures margin.None? || margin.value.top.Absent? ==> top == Some(DefaultMargin)
  {
    if margin.None? then Some(DefaultMargin)
    else match margin.value.top
      case Absent => Some(DefaultMargin)
      case Undefined => None
      case Given(v) => Some(v)
  }

  /**
   * `resolvedMargin`: `top` comes from the spread; left, right and bottom are the
   * given side (default 5) plus the axis padding, where left and right both add
   * the y-axis label width (default 100) and bottom adds the x-axis label height
   * (default 100).
   */
  function ResolvedMargin(margin: Option<PartialMargin>, yAxisLabelWidth: Option<real>,
                          xAxisLabelHeight: Option<real>): (r: ChartMargin)
    ensures margin.None? ==> r.top == Some(DefaultMargin)
    ensures margin.Some? ==> (r.top.None? <==> margin.value.top.Undefined?)
    ensures margin.Some? && margin.value.top.Given? ==> r.top == Some(margin.value.top.v)
    ensures r.left - Coalesce(margin, (m: PartialMargin) => m.left, DefaultMargin) == yAxisLabelWidth.GetOr(DefaultAxisLabelWidth)
    ensures r.right - Coalesce(margin, (m: PartialMargin) => m.right, DefaultMargin) == yAxisLabelWidth.GetOr(DefaultAxisLabelWidth)
    ensures r.bottom - Coalesce(margin, (m: PartialMargin) => m.bottom, DefaultMargin) == xAxisLabelHeight.GetOr(DefaultAxisLabelHeight)
  {
    var leftPadding := yAxisLabelWidth.GetOr(DefaultAxisLabelWidth);
    var bottomPadding := xAxisLabelHeight.GetOr(DefaultAxisLabelHeight);
    ChartMargin(
      SpreadTop(margin),
      Coalesce(margin, (m: PartialMargin) => m.right, DefaultMargin) + leftPadding,
      Coalesce(margin, (m: PartialMargin) => m.bottom, DefaultMargin) + bottomPadding,
      Coalesce(margin, (m: PartialMargin) => m.left, DefaultMargin) + leftPadding)
  }

  /**
   * Without any props the chart gets 5 on top and 105 on the other three sides;
   * with equal given left and right margins the result is symmetric, since the
   * right side is padded with the y-axis label width as well.
   */
  lemma DefaultMarginValues(yAxisLabelWidth: Option<real>, xAxisLabelHeight: Option<real>, side: Field)
    ensures ResolvedMargin(None, None, None) == ChartMargin(Some(5.0), 105.0, 105.0, 105.0)
    ensures var r := ResolvedMargin(Some(PartialMargin(Absent, side, Absent, side)), yAxisLabelWidth, xAxisLabelHeight);
      r.left == r.right && r.top == Some(5.0)
  {
    var m := Some(PartialMargin(Absent, side, Absent, side));
    assert Coalesce(m, (p: PartialMargin) => p.left, DefaultMargin) == Coalesce(m, (p: PartialMargin) => p.right, DefaultMargin);
  }

  datatype Point = Point(x: real, y: real)

  /** Recharts' `useOffset()`: the space around the plot area. */
  datatype Offset = Offset(top: real, right: real, bottom: real, left: real)

  /** Recharts' `usePlotArea()`. */
  datatype PlotArea = PlotArea(x: real, y: real, width: real, height: real)

  /** The numeric style props of an arrow; `None` takes the destructuring default. */
  datatype ArrowStyle = ArrowStyle(arrowHeadLength: Option<real>, arrowHeadWidth: Option<real>,
                                   labelHorizontalGap: Option<real>, labelVerticalGap: Option<real>)

  const DefaultArrowHeadLength: real := 10.0
  const DefaultArrowHeadWidth: real := 15.0
  const DefaultLabelHorizontalGap: real := 20.0
  const DefaultLabelVerticalGap: real := 30.0

  function HeadLength(s: ArrowStyle): real { s.arrowHeadLength.GetOr(DefaultArrowHeadLength) }
  function HeadWidth(s: ArrowStyle): real { s.arrowHeadWidth.GetOr(DefaultArrowHeadWidth) }
  function HorizontalGap(s: ArrowStyle): real { s.labelHorizontalGap.GetOr(DefaultLabelHorizontalGap) }
  function VerticalGap(s: ArrowStyle): real { s.labelVerticalGap.GetOr(DefaultLabelVerticalGap) }

  /** Which of the three labels the caller supplied (`!= null`). */
  datatype LabelsGiven = LabelsGiven(start: bool, end: bool, axisLabel: bool)

  /**
   * The drawn arrow: the shaft from `lineStart` to `lineEnd`, the three points of
   * the head polyline (wing, tip, wing) and the anchors of the labels that are shown.
   */
  datatype Arrow = Arrow(lineStart: Point, lineEnd: Point, wingA: Point, tip: Point, wingB: Point,
                         startLabel: Option<Point>, endLabel: Option<Point>, axisLabel: Option<Point>)

  function AnchorIf(given: bool, p: Point): Option<Point> {
    if given then Some(p) else None
  }

  /**
   * `AxisArrowHorizontal`: nothing without an offset and a plot area, or when the
   * bottom offset or the plot width is not positive. Otherwise a horizontal shaft
   * below the plot area from 33% to 66% of its width pointing right: the tip is the
   * shaft's right end, the head's wings sit the head length behind it and
   * symmetric about the shaft, the edge labels sit the horizontal gap beyond the
   * shaft's ends and the axis label the vertical gap below it, over the middle of
   * the plot, which lies inside the shaft's span.
   */
  function AxisArrowHorizontal(offset: Option<Offset>, plotArea: Option<PlotArea>,
                               style: ArrowStyle, given: LabelsGiven): (a: Option<Arrow>)
    ensures a.None? <==> offset.None? || plotArea.None? || offset.value.bottom <= 0.0 || plotArea.value.width <= 0.0
    ensures a.Some? ==>
      var r, p := a.value, plotArea.value;
      r.lineStart.y == r.lineEnd.y == r.tip.y > p.y + p.height &&
      r.lineStart.x < r.lineEnd.x && r.tip == r.lineEnd &&
      r.lineStart.x == p.x + p.width * 0.33 &&
      r.tip.x == ScrollProgress.Max(p.x + p.width * 0.33, p.x + p.width * 0.66)
    ensures a.Some? ==>
      var r := a.value;
      r.wingA.x == r.wingB.x == r.tip.x - HeadLength(style) &&
      r.tip.y - r.wingA.y == r.wingB.y - r.tip.y == HeadWidth(style) / 2.0
    ensures a.Some? ==>
      var r := a.value;
      (r.startLabel.Some? <==> given.start) && (r.endLabel.Some? <==> given.end) && (r.axisLabel.Some? <==> given.axisLabel)
    ensures a.Some? && given.start ==>
      a.value.startLabel.value == Point(a.value.lineStart.x - HorizontalGap(style), a.value.lineStart.y)
    ensures a.Some? && given.end ==>
      a.value.endLabel.value == Point(a.value.lineEnd.x + HorizontalGap(style), a.value.lineEnd.y)
    ensures a.Some? && given.axisLabel ==>
      var r, p := a.value, plotArea.value;
      r.axisLabel.value.y - r.lineStart.y == VerticalGap(style) &&
      r.axisLabel.value.x == p.x + p.width / 2.0 && r.lineStart.x < r.axisLabel.value.x < r.lineEnd.x
  {
    if offset.None? || plotArea.None? || offset.value.bottom <= 0.0 || plotArea.value.width <= 0.0 then None
    else
      var o, p := offset.value, plotArea.value;
      var bottomAreaTop := p.y + p.height;
      var arrowY := bottomAreaTop + o.bottom * 0.4;
      var labelY := arrowY + VerticalGap(style);
      var lineStartX := p.x + p.width * 0.33;
      var lineEndBaseX := p.x + p.width * 0.66;
      var arrowEndX := ScrollProgress.Max(lineStartX, lineEndBaseX);
      var lineEndX := arrowEndX;
      Some(Arrow(
        Point(lineStartX, arrowY), Point(lineEndX, arrowY),
        Point(arrowEndX - HeadLength(style), arrowY - HeadWidth(style) / 2.0),
        Point(arrowEndX, arrowY),
        Point(arrowEndX - HeadLength(style), arrowY + HeadWidth(style) / 2.0),
        AnchorIf(given.start, Point(lineStartX - HorizontalGap(style), arrowY)),
        AnchorIf(given.end, Point(lineEndX + HorizontalGap(style), arrowY)),
        AnchorIf(given.axisLabel, Point(p.x + p.width / 2.0, labelY))))
  }

  /**
   * `AxisArrowVertical`: nothing without an offset and a plot area, or when the
   * left offset or the plot height is not positive. Otherwise a vertical shaft left
   * of the plot area from 66% up to 33% of its height pointing up: the tip is the
   * shaft's upper end (never below its start), the wings sit the head length below
   * the tip and symmetric about the shaft, the end label sits the vertical gap above
   * the tip, the start label the same gap below the start, and the rotated axis
   * label the horizontal gap left of the shaft at the plot's mid-height.
   */
  function AxisArrowVertical(offset: Option<Offset>, plotArea: Option<PlotArea>,
                             style: ArrowStyle, given: LabelsGiven): (a: Option<Arrow>)
    ensures a.None? <==> offset.None? || plotArea.None? || offset.value.left <= 0.0 || plotArea.value.height <= 0.0
    ensures a.Some? ==>
      var r, p := a.value, plotArea.value;
      r.lineStart.x == r.lineEnd.x == r.tip.x < p.x &&
      r.tip == r.lineEnd && r.tip.y <= r.lineStart.y &&
      r.tip.y == ScrollProgress.Min(p.y + p.height * 0.66, p.y + p.height * 0.33) &&
      r.lineStart.y == ScrollProgress.Max(p.y + p.height * 0.66, r.tip.y)
    ensures a.Some? ==>
      var r := a.value;
      r.wingA.y == r.wingB.y == r.tip.y + HeadLength(style) &&
      r.tip.x - r.wingA.x == r.wingB.x - r.tip.x == HeadWidth(style) / 2.0
    ensures a.Some? ==>
      var r := a.value;
      (r.startLabel.Some? <==> given.start) && (r.endLabel.Some? <==> given.end) && (r.axisLabel.Some? <==> given.axisLabel)
    ensures a.Some? && given.end ==>
      a.value.endLabel.value == Point(a.value.tip.x, a.value.tip.y - VerticalGap(style))
    ensures a.Some? && given.start ==>
      a.value.startLabel.value == Point(a.value.lineStart.x, a.value.lineStart.y + VerticalGap(style))
    ensures a.Some? && given.axisLabel ==>
      var r, p := a.value, plotArea.value;
      r.lineStart.x - r.axisLabel.value.x == HorizontalGap(style) && r.axisLabel.value.y == p.y + p.height / 2.0
  {
    if offset.None? || plotArea.None? || offset.value.left <= 0.0 || plotArea.value.height <= 0.0 then None
    else
      var o, p := offset.value, plotArea.value;
      var arrowX := p.x - o.left * 0.4;
      var labelX := arrowX - HorizontalGap(style);
      var lineStartBaseY := p.y + p.height * 0.66;
      var lineEndBaseY := p.y + p.height * 0.33;
      var arrowTipY := ScrollProgress.Min(lineStartBaseY, lineEndBaseY);
      var lineStartY := ScrollProgress.Max(lineStartBaseY, arrowTipY);
      var lineEndY := arrowTipY;
      Some(Arrow(
        Point(arrowX, lineStartY), Point(arrowX, lineEndY),
        Point(arrowX - HeadWidth(style) / 2.0, arrowTipY + HeadLength(style)),
        Point(arrowX, arrowTipY),
        Point(arrowX + HeadWidth(style) / 2.0, arrowTipY + HeadLength(style)),
        AnchorIf(given.start, Point(arrowX, lineStartY + VerticalGap(style))),
        AnchorIf(given.end, Point(arrowX, lineEndY - VerticalGap(style))),
        AnchorIf(given.axisLabel, Point(labelX, p.y + p.height / 2.0))))
  }

  /**
   * With non-negative gaps the labels never overlap the shaft's span: on the
   * horizontal arrow the start label is left of the shaft and the end label right
   * of it; on the vertical arrow the end label is above the tip and the start label
   * below the start.
   */
  lemma LabelsClearOfShaft(offset: Option<Offset>, plotArea: Option<PlotArea>, style: ArrowStyle, given: LabelsGiven)
    requires HorizontalGap(style) >= 0.0 && VerticalGap(style) >= 0.0
    requires given.start && given.end
    ensures var h := AxisArrowHorizontal(offset, plotArea, style, given);
      h.Some? ==> h.value.startLabel.value.x <= h.value.lineStart.x < h.value.lineEnd.x <= h.value.endLabel.value.x
    ensures var v := AxisArrowVertical(offset, plotArea, style, given);
      v.Some? ==> v.value.endLabel.value.y <= v.value.tip.y <= v.value.lineStart.y <= v.value.startLabel.value.y
  {
  }
}
