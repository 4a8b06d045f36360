/** What `render` draws, as a display list: the OpenCV primitive each step
    chooses and its integer arguments, in drawing order. Rasterisation is
    not modelled; a canvas is the list of primitives drawn on it since it
    was last cleared to white. */
module DrawOps {
  import opened Numerics
  import opened PlotCommands
  import opened AxesModel
  import opened Ticks
  import opened LegacyTicks
  import opened Layout

  const LightGray := Color(220, 220, 220)

  /** Printed text: a string, or a tick label (its value and precision; the
      digits themselves are not modelled). */
  datatype TextContent = Str(s: string) | TickText(tick: Label)

  /** How a shape is painted: blended fill, opaque fill, or outline. */
  datatype Paint = Blended(alpha: real) | Filled | Stroked(thickness: int)

  datatype Shape =
    | CircleShape(center: Point, radius: int)
    | RectShape(corner0: Point, corner1: Point)
    | RotatedShape(center: Point, width: real, height: real, angle: real)
    | PolygonShape(points: seq<Point>)
    | EllipseShape(center: Point, halfWidth: int, halfHeight: int, angle: real)

  datatype DrawOp =
    | Segment(from: Point, to: Point, color: Color, thickness: int)   // cv::line
    | Dot(center: Point, radius: int, color: Color)                  // filled cv::circle
    | PaintShape(shape: Shape, paint: Paint, color: Color)
    | PutText(content: TextContent, origin: Point, scale: real, color: Color, thickness: int)
    | BlitYLabel(text: string, topLeft: Point)                       // the rotated y label

  /** The data-to-pixel mapping in force: the limits, the canvas size, and
      which figure's mapper. */
  datatype Mapper = Mapper(lim: Limits, width: int, height: int, legacy: bool)

  predicate MapperOk(m: Mapper) {
    if m.legacy then LegacyMappable(m.lim) else NonzeroSpans(m.lim)
  }

  function Map(m: Mapper, x: real, y: real): Point
    requires MapperOk(m)
  {
    if m.legacy then LegacyDataToPixel(m.lim, m.width, m.height, x, y)
    else DataToPixel(m.lim, m.width, m.height, x, y)
  }

  /* ---------------------------------------------------------------- */
  /* Grid and axes                                                     */
  /* ---------------------------------------------------------------- */

  /** Vertical grid lines at the first `n` x ticks; the current figure
      skips ticks outside [xmin, xmax], the older one draws them all. */
  function XGridOps(m: Mapper, locs: seq<real>, n: nat): seq<DrawOp>
    requires MapperOk(m) && n <= |locs|
  {
    if n == 0 then []
    else
      var xv := locs[n - 1];
      XGridOps(m, locs, n - 1) +
      (if !m.legacy && (xv < m.lim.xmin || xv > m.lim.xmax) then []
       else [Segment(Map(m, xv, m.lim.ymin), Map(m, xv, m.lim.ymax), LightGray, 1)])
  }

  /** Horizontal grid lines at the first `n` y ticks. */
  function YGridOps(m: Mapper, locs: seq<real>, n: nat): seq<DrawOp>
    requires MapperOk(m) && n <= |locs|
  {
    if n == 0 then []
    else
      var yv := locs[n - 1];
      YGridOps(m, locs, n - 1) +
      (if !m.legacy && (yv < m.lim.ymin || yv > m.lim.ymax) then []
       else [Segment(Map(m, m.lim.xmin, yv), Map(m, m.lim.xmax, yv), LightGray, 1)])
  }

  /** `draw_grid`: nothing unless the grid flag is set. */
  function GridOps(m: Mapper, grid: bool, xt: TickInfo, yt: TickInfo): seq<DrawOp>
    requires MapperOk(m)
  {
    if !grid then [] else XGridOps(m, xt.locs, |xt.locs|) + YGridOps(m, yt.locs, |yt.locs|)
  }

  /** Every current grid line lies inside the plot rectangle: the ends of
      each vertical line are at the bottom and top edges, at an x inside. */
  lemma {:induction false} XGridInPlot(m: Mapper, locs: seq<real>, n: nat)
    requires !m.legacy && m.lim.xmin < m.lim.xmax && m.lim.ymin < m.lim.ymax
    requires PlotWidth(m.width) >= 0 && PlotHeight(m.height) >= 0
    requires n <= |locs|
    ensures forall i :: 0 <= i < |XGridOps(m, locs, n)| ==>
      XGridOps(m, locs, n)[i].Segment? &&
      InPlot(XGridOps(m, locs, n)[i].from, m.width, m.height) &&
      InPlot(XGridOps(m, locs, n)[i].to, m.width, m.height) &&
      XGridOps(m, locs, n)[i].from.y == m.height - MarginBottom &&
      XGridOps(m, locs, n)[i].to.y == MarginTop
  {
    if n > 0 {
      XGridInPlot(m, locs, n - 1);
      var xv := locs[n - 1];
      if m.lim.xmin <= xv <= m.lim.xmax {
        DataToPixelInPlot(m.lim, m.width, m.height, xv, m.lim.ymin);
        DataToPixelInPlot(m.lim, m.width, m.height, xv, m.lim.ymax);
        DataToPixelCorners(m.lim, m.width, m.height);
      }
    }
  }

  /** Likewise each current horizontal grid line runs from the left edge
      to the right edge of the plot, at a y inside it. */
  lemma {:induction false} YGridInPlot(m: Mapper, locs: seq<real>, n: nat)
    requires !m.legacy && m.lim.xmin < m.lim.xmax && m.lim.ymin < m.lim.ymax
    requires PlotWidth(m.width) >= 0 && PlotHeight(m.height) >= 0
    requires n <= |locs|
    ensures forall i :: 0 <= i < |YGridOps(m, locs, n)| ==>
      YGridOps(m, locs, n)[i].Segment? &&
      InPlot(YGridOps(m, locs, n)[i].from, m.width, m.height) &&
      InPlot(YGridOps(m, locs, n)[i].to, m.width, m.height) &&
      YGridOps(m, locs, n)[i].from.x == MarginLeft &&
      YGridOps(m, locs, n)[i].to.x == m.width - MarginRight
  {
    if n > 0 {
      YGridInPlot(m, locs, n - 1);
      var yv := locs[n - 1];
      if m.lim.ymin <= yv <= m.lim.ymax {
        DataToPixelInPlot(m.lim, m.width, m.height, m.lim.xmin, yv);
        DataToPixelInPlot(m.lim, m.width, m.height, m.lim.xmax, yv);
        DataToPixelCorners(m.lim, m.width, m.height);
      }
    }
  }

  /** The label offset left of a y tick: 30 pixels, 45 in the older figure. */
  function YLabelDx(m: Mapper): int {
    if m.legacy then 45 else 30
  }

  /** Tick marks and labels at the first `n` x ticks, below the x axis. */
  function XTickOps(m: Mapper, t: TickInfo, n: nat): seq<DrawOp>
    requires MapperOk(m) && n <= |t.locs| && n <= |t.labels|
  {
    if n == 0 then []
    else
      var p := Map(m, t.locs[n - 1], m.lim.ymin);
      XTickOps(m, t, n - 1) +
      [Segment(p, Point(p.x, p.y + TickLen), Black, 1),
       PutText(TickText(t.labels[n - 1]), Point(p.x - 10, p.y + 18), 0.4, Black, 1)]
  }

  /** Tick marks and labels at the first `n` y ticks, left of the y axis. */
  function YTickOps(m: Mapper, t: TickInfo, n: nat): seq<DrawOp>
    requires MapperOk(m) && n <= |t.locs| && n <= |t.labels|
  {
    if n == 0 then []
    else
      var p := Map(m, m.lim.xmin, t.locs[n - 1]);
      YTickOps(m, t, n - 1) +
      [Segment(Point(p.x - TickLen, p.y), p, Black, 1),
       PutText(TickText(t.labels[n - 1]), Point(p.x - YLabelDx(m), p.y + 4), 0.4, Black, 1)]
  }

  /** `draw_axes`: the x axis line, its ticks, the y axis line, its ticks. */
  function AxesOps(m: Mapper, xt: TickInfo, yt: TickInfo): seq<DrawOp>
    requires MapperOk(m)
    requires |xt.locs| <= |xt.labels| && |yt.locs| <= |yt.labels|
  {
    [Segment(Point(MarginLeft, m.height - MarginBottom), Point(m.width - MarginRight, m.height - MarginBottom), Black, 1)] +
    XTickOps(m, xt, |xt.locs|) +
    [Segment(Point(MarginLeft, MarginTop), Point(MarginLeft, m.height - MarginBottom), Black, 1)] +
    YTickOps(m, yt, |yt.locs|)
  }

  /** Two primitives per tick: the mark, then its label. */
  lemma {:induction false} XTickOpsShape(m: Mapper, t: TickInfo, n: nat)
    requires MapperOk(m) && n <= |t.locs| && n <= |t.labels|
    ensures |XTickOps(m, t, n)| == 2 * n
    ensures forall i :: 0 <= i < n ==>
      var p := Map(m, t.locs[i], m.lim.ymin);
      && XTickOps(m, t, n)[2 * i] == Segment(p, Point(p.x, p.y + TickLen), Black, 1)
      && XTickOps(m, t, n)[2 * i + 1] == PutText(TickText(t.labels[i]), Point(p.x - 10, p.y + 18), 0.4, Black, 1)
  {
    if n > 0 {
      XTickOpsShape(m, t, n - 1);
    }
  }

  /** Two primitives per y tick: the mark ending on the axis, then its
      label `YLabelDx` pixels to the left. */
  lemma {:induction false} YTickOpsShape(m: Mapper, t: TickInfo, n: nat)
    requires MapperOk(m) && n <= |t.locs| && n <= |t.labels|
    ensures |YTickOps(m, t, n)| == 2 * n
    ensures forall i :: 0 <= i < n ==>
      var p := Map(m, m.lim.xmin, t.locs[i]);
      && YTickOps(m, t, n)[2 * i] == Segment(Point(p.x - TickLen, p.y), p, Black, 1)
      && YTickOps(m, t, n)[2 * i + 1] == PutText(TickText(t.labels[i]), Point(p.x - YLabelDx(m), p.y + 4), 0.4, Black, 1)
  {
    if n > 0 {
      YTickOpsShape(m, t, n - 1);
    }
  }

  /* ---------------------------------------------------------------- */
  /* Retained commands                                                 */
  /* ---------------------------------------------------------------- */

  /** Segments joining consecutive points among the first `n`. */
  function LineOps(m: Mapper, xs: seq<real>, ys: seq<real>, color: Color, thickness: int, n: nat): seq<DrawOp>
    requires MapperOk(m) && n <= |xs| && n <= |ys|
  {
    if n <= 1 then []
    else
      LineOps(m, xs, ys, color, thickness, n - 1) +
      [Segment(Map(m, xs[n - 2], ys[n - 2]), Map(m, xs[n - 1], ys[n - 1]), color, thickness)]
  }

  /** A polyline of n >= 1 points draws n - 1 segments, the i-th from point
      i to point i + 1. */
  lemma {:induction false} LineOpsShape(m: Mapper, xs: seq<real>, ys: seq<real>, color: Color, thickness: int, n: nat)
    requires MapperOk(m) && n <= |xs| && n <= |ys|
    ensures |LineOps(m, xs, ys, color, thickness, n)| == if n == 0 then 0 else n - 1
    ensures forall i :: 0 <= i < n - 1 ==>
      LineOps(m, xs, ys, color, thickness, n)[i] ==
        Segment(Map(m, xs[i], ys[i]), Map(m, xs[i + 1], ys[i + 1]), color, thickness)
  {
    if n > 1 {
      LineOpsShape(m, xs, ys, color, thickness, n - 1);
    }
  }

  /** One filled marker at each of the first `n` points. */
  function ScatterOps(m: Mapper, xs: seq<real>, ys: seq<real>, color: Color, radius: int, n: nat): seq<DrawOp>
    requires MapperOk(m) && n <= |xs| && n <= |ys|
  {
    if n == 0 then []
    else ScatterOps(m, xs, ys, color, radius, n - 1) + [Dot(Map(m, xs[n - 1], ys[n - 1]), radius, color)]
  }

  /** The pixel points of the first `n` vertices. */
  function PixelPoints(m: Mapper, xs: seq<real>, ys: seq<real>, n: nat): (pts: seq<Point>)
    requires MapperOk(m) && n <= |xs| && n <= |ys|
    ensures |pts| == n
  {
    if n == 0 then [] else PixelPoints(m, xs, ys, n - 1) + [Map(m, xs[n - 1], ys[n - 1])]
  }

  /** The fill of a shape: blended for an alpha strictly between 0 and 1,
      opaque from 1 up, none at or below 0. */
  function FillOps(shape: Shape, style: ShapeStyle): seq<DrawOp> {
    if 0.0 < style.fillAlpha < 1.0 then [PaintShape(shape, Blended(style.fillAlpha), style.fillColor)]
    else if style.fillAlpha >= 1.0 then [PaintShape(shape, Filled, style.fillColor)]
    else []
  }

  /** The outline of a shape, only for a positive thickness. */
  function StrokeOps(shape: Shape, style: ShapeStyle): seq<DrawOp> {
    if style.thickness > 0.0 then [PaintShape(shape, Stroked(Trunc(style.thickness)), style.lineColor)]
    else []
  }

  /** Fill first, then outline. */
  function ShapeOps(shape: Shape, style: ShapeStyle): seq<DrawOp> {
    FillOps(shape, style) + StrokeOps(shape, style)
  }

  /** The paint modes of a shape: a fill exactly when alpha is positive
      (blended below 1, opaque from 1), an outline exactly when the
      thickness is positive, the outline after the fill, and every primitive
      paints the one shape. */
  lemma ShapePaintModes(shape: Shape, style: ShapeStyle)
    ensures var ops := ShapeOps(shape, style);
      && |ops| == (if style.fillAlpha > 0.0 then 1 else 0) + (if style.thickness > 0.0 then 1 else 0)
      && (forall i :: 0 <= i < |ops| ==> ops[i].PaintShape? && ops[i].shape == shape)
      && (style.fillAlpha > 0.0 ==>
            && ops[0].color == style.fillColor
            && (ops[0].paint.Blended? <==> style.fillAlpha < 1.0)
            && (ops[0].paint == Filled <==> style.fillAlpha >= 1.0))
      && (style.thickness > 0.0 ==> ops[|ops| - 1].paint.Stroked? && ops[|ops| - 1].color == style.lineColor)
  {
  }

  /** Data lengths scaled to pixels along each axis. */
  function PixelsX(m: Mapper, v: real): real
    requires m.lim.xmax != m.lim.xmin
  {
    v * PlotWidth(m.width) as real / (m.lim.xmax - m.lim.xmin)
  }

  function PixelsY(m: Mapper, v: real): real
    requires m.lim.ymax != m.lim.ymin
  {
    v * PlotHeight(m.height) as real / (m.lim.ymax - m.lim.ymin)
  }

  predicate IsShape(k: CmdType) {
    k in [Circle, RectLTRB, RectXYWH, RotatedRect, Polygon, Ellipse]
  }

  /** The primitives of one retained command, per its kind. */
  function CommandOps(m: Mapper, c: PlotCommand, measure: Measure): seq<DrawOp>
    requires MapperOk(m) && WellFormed(c)
    requires m.legacy ==> !IsShape(c.kind)
  {
    match c.kind
    case Line => LineOps(m, c.line.x, c.line.y, c.color, Trunc(c.line.thickness), |c.line.x|)
    case Scatter => ScatterOps(m, c.scatter.x, c.scatter.y, c.color, Trunc(c.scatter.markerSize), |c.scatter.x|)
    case Text =>
      var d := c.txt;
      [PutText(Str(d.text), AnchoredTextPos(Map(m, d.x, d.y), measure(d.text, d.fontScale, d.thickness), d.halign, d.valign),
               d.fontScale, c.color, d.thickness)]
    case Circle =>
      var d := c.circle;
      ShapeOps(CircleShape(Map(m, d.cx, d.cy), Trunc(PixelsX(m, d.radius))), d.style)
    case RectXYWH =>
      var d := c.rect;
      ShapeOps(RectShape(Map(m, d.x0, d.y0), Map(m, d.x1, d.y1)), d.style)
    case RectLTRB =>
      var d := c.rect;
      ShapeOps(RectShape(Map(m, d.x0, d.y0), Map(m, d.x1, d.y1)), d.style)
    case RotatedRect =>
      var d := c.rotRect;
      ShapeOps(RotatedShape(Map(m, d.cx, d.cy), PixelsX(m, d.width), PixelsY(m, d.height), -d.angleDeg), d.style)
    case Polygon =>
      var d := c.polygon;
      ShapeOps(PolygonShape(PixelPoints(m, d.x, d.y, |d.x|)), d.style)
    case Ellipse =>
      var d := c.ellipse;
      ShapeOps(EllipseShape(Map(m, d.cx, d.cy), Trunc(PixelsX(m, 0.5 * d.width)), Trunc(PixelsY(m, 0.5 * d.height)), -d.angleDeg), d.style)
  }

  /** The primitives of the commands, in order; the older figure draws
      nothing for the shape kinds. */
  function CommandsOps(m: Mapper, cmds: seq<PlotCommand>, measure: Measure): seq<DrawOp>
    requires MapperOk(m)
    requires forall i :: 0 <= i < |cmds| ==> WellFormed(cmds[i])
  {
    if |cmds| == 0 then []
    else
      var c := cmds[|cmds| - 1];
      CommandsOps(m, cmds[..|cmds| - 1], measure) +
      (if m.legacy && IsShape(c.kind) then [] else CommandOps(m, c, measure))
  }

  /** The commands other than shapes, in order. */
  function WithoutShapes(cmds: seq<PlotCommand>): (r: seq<PlotCommand>)
    ensures |r| <= |cmds|
    ensures forall i :: 0 <= i < |r| ==> r[i] in cmds && !IsShape(r[i].kind)
  {
    if |cmds| == 0 then []
    else
      var r := WithoutShapes(cmds[..|cmds| - 1]);
      if IsShape(cmds[|cmds| - 1].kind) then r else r + [cmds[|cmds| - 1]]
  }

  /** The older figure ignores every shape command: dropping them leaves
      its primitives unchanged. */
  lemma {:induction false} LegacyIgnoresShapes(m: Mapper, cmds: seq<PlotCommand>, measure: Measure)
    requires m.legacy && MapperOk(m)
    requires forall i :: 0 <= i < |cmds| ==> WellFormed(cmds[i])
    ensures forall i :: 0 <= i < |WithoutShapes(cmds)| ==> WellFormed(WithoutShapes(cmds)[i])
    ensures CommandsOps(m, cmds, measure) == CommandsOps(m, WithoutShapes(cmds), measure)
  {
    if |cmds| > 0 {
      var init := cmds[..|cmds| - 1];
      var last := cmds[|cmds| - 1];
      LegacyIgnoresShapes(m, init, measure);
      var prev := WithoutShapes(init);
      if !IsShape(last.kind) {
        assert (prev + [last])[..|prev|] == prev;
      }
    }
  }

  /* ---------------------------------------------------------------- */
  /* Legend                                                            */
  /* ---------------------------------------------------------------- */

  /** The commands with a non-empty label, in command order. */
  function LegendItems(cmds: seq<PlotCommand>): (items: seq<PlotCommand>)
    ensures |items| <= |cmds|
  {
    if |cmds| == 0 then []
    else
      LegendItems(cmds[..|cmds| - 1]) +
      (if cmds[|cmds| - 1].legendLabel != "" then [cmds[|cmds| - 1]] else [])
  }

  /** Selection distributes over concatenation: items keep command order,
      and a command listed twice is listed twice. */
  lemma {:induction false} LegendItemsConcat(a: seq<PlotCommand>, b: seq<PlotCommand>)
    ensures LegendItems(a + b) == LegendItems(a) + LegendItems(b)
    decreases |b|
  {
    if |b| == 0 {
      assert a + b == a;
    } else {
      var b' := b[..|b| - 1];
      assert (a + b)[..|a + b| - 1] == a + b';
      LegendItemsConcat(a, b');
    }
  }

  /** A command is listed exactly when it is a command with a label. */
  lemma {:induction false} LegendItemsMembers(cmds: seq<PlotCommand>)
    ensures forall c :: c in LegendItems(cmds) <==> c in cmds && c.legendLabel != ""
  {
    if |cmds| > 0 {
      var init := cmds[..|cmds| - 1];
      LegendItemsMembers(init);
      assert cmds == init + [cmds[|cmds| - 1]];
    }
  }

  /** The widest label at font scale 0.4, or 0. */
  function MaxLabelWidth(items: seq<PlotCommand>, measure: Measure): (w: int)
    ensures w >= 0
    ensures forall i :: 0 <= i < |items| ==> measure(items[i].legendLabel, 0.4, 1).width <= w
    ensures w == 0 || exists i :: 0 <= i < |items| && w == measure(items[i].legendLabel, 0.4, 1).width
  {
    if |items| == 0 then 0
    else
      var prev := MaxLabelWidth(items[..|items| - 1], measure);
      assert forall i :: 0 <= i < |items| - 1 ==> items[..|items| - 1][i] == items[i];
      MaxInt(prev, measure(items[|items| - 1].legendLabel, 0.4, 1).width)
  }

  /** The tallest label (height plus baseline) at font scale 0.4, or 0. */
  function MaxLabelHeight(items: seq<PlotCommand>, measure: Measure): (h: int)
    ensures h >= 0
    ensures forall i :: 0 <= i < |items| ==>
      measure(items[i].legendLabel, 0.4, 1).height + measure(items[i].legendLabel, 0.4, 1).baseline <= h
    ensures h == 0 || exists i :: 0 <= i < |items| &&
                        h == measure(items[i].legendLabel, 0.4, 1).height + measure(items[i].legendLabel, 0.4, 1).baseline
  {
    if |items| == 0 then 0
    else
      var prev := MaxLabelHeight(items[..|items| - 1], measure);
      assert forall i :: 0 <= i < |items| - 1 ==> items[..|items| - 1][i] == items[i];
      var sz := measure(items[|items| - 1].legendLabel, 0.4, 1);
      MaxInt(prev, sz.height + sz.baseline)
  }

  /** Width of a legend swatch. */
  const SwatchW: int := 20

  /** The legend box: top-left anchor, size, and row height. */
  datatype LegendBox = LegendBox(anchor: Point, boxW: int, boxH: int, lineH: int)

  function LegendGeometry(loc: string, width: int, height: int, items: seq<PlotCommand>, measure: Measure): (g: LegendBox)
    ensures g.lineH >= 6 && g.boxW >= SwatchW + 18
    ensures g.boxH == g.lineH * |items| + 10
  {
    var textW := MaxLabelWidth(items, measure);
    var lh := MaxLabelHeight(items, measure) + 6;
    var boxW := SwatchW + 8 + textW + 10;
    var boxH := lh * |items| + 10;
    LegendBox(LegendAnchor(loc, width, height, boxW, boxH), boxW, boxH, lh)
  }

  /** The centre line of item row `i`. */
  function RowY(g: LegendBox, i: int): int {
    g.anchor.y + 5 + i * g.lineH + CDiv(g.lineH, 2)
  }

  /** Rows are one row height apart and all lie strictly inside the box. */
  lemma RowsInsideBox(g: LegendBox, n: nat, i: nat)
    requires g.lineH >= 6 && g.boxH == g.lineH * n + 10 && i < n
    ensures g.anchor.y < RowY(g, i) < g.anchor.y + g.boxH
    ensures RowY(g, i + 1) == RowY(g, i) + g.lineH
  {
    var h, k := g.lineH, n - 1 - i;
    assert (i + 1) * h == i * h + h;
    assert h * n == i * h + h + k * h by {
      assert n == i + 1 + k;
    }
    assert 0 <= i * h && 0 <= k * h;
  }

  /** The swatch of an item: a short line for a line command, a dot for
      scatter and circle commands, a small filled rectangle otherwise, in
      the command's colour. */
  function SwatchOp(c: PlotCommand, ax: int, y: int): (op: DrawOp)
    ensures op.Segment? <==> c.kind == Line
    ensures op.Dot? <==> c.kind == Scatter || c.kind == Circle
    ensures op.PaintShape? <==> c.kind != Line && c.kind != Scatter && c.kind != Circle
    ensures op.color == c.color
  {
    match c.kind
    case Line => Segment(Point(ax + 5, y), Point(ax + 5 + SwatchW, y), c.color, 2)
    case Scatter => Dot(Point(ax + 5 + SwatchW / 2, y), 4, c.color)
    case Circle => Dot(Point(ax + 5 + SwatchW / 2, y), 4, c.color)
    case _ => PaintShape(RectShape(Point(ax + 5, y - 4), Point(ax + 5 + SwatchW, y + 4)), Filled, c.color)
  }

  /** Swatch and label for the first `n` items. */
  function ItemOps(g: LegendBox, items: seq<PlotCommand>, n: nat): seq<DrawOp>
    requires n <= |items|
  {
    if n == 0 then []
    else
      var y := RowY(g, n - 1);
      ItemOps(g, items, n - 1) +
      [SwatchOp(items[n - 1], g.anchor.x, y),
       PutText(Str(items[n - 1].legendLabel), Point(g.anchor.x + 5 + SwatchW + 8, y + 4), 0.4, Black, 1)]
  }

  lemma {:induction false} ItemOpsShape(g: LegendBox, items: seq<PlotCommand>, n: nat)
    requires n <= |items|
    ensures |ItemOps(g, items, n)| == 2 * n
    ensures forall i :: 0 <= i < n ==>
      ItemOps(g, items, n)[2 * i] == SwatchOp(items[i], g.anchor.x, RowY(g, i)) &&
      ItemOps(g, items, n)[2 * i + 1] ==
        PutText(Str(items[i].legendLabel), Point(g.anchor.x + 5 + SwatchW + 8, RowY(g, i) + 4), 0.4, Black, 1)
  {
    if n > 0 {
      ItemOpsShape(g, items, n - 1);
    }
  }

  /** The legend block of `render`: nothing when the legend is off or no
      command has a label; otherwise a white box with a black frame, then a
      swatch and a label per item. */
  function LegendOps(on: bool, loc: string, cmds: seq<PlotCommand>, width: int, height: int, measure: Measure): seq<DrawOp> {
    var items := LegendItems(cmds);
    if !on || |items| == 0 then []
    else
      var g := LegendGeometry(loc, width, height, items, measure);
      var corner := Point(g.anchor.x + g.boxW, g.anchor.y + g.boxH);
      [PaintShape(RectShape(g.anchor, corner), Filled, White),
       PaintShape(RectShape(g.anchor, corner), Stroked(1), Black)] +
      ItemOps(g, items, |items|)
  }

  /** The outline pair of a legend box: filled white, then a black border. */
  function LegendFrame(g: LegendBox): (ops: seq<DrawOp>)
    ensures |ops| == 2 && ops[0].PaintShape? && ops[1].PaintShape?
  {
    var corner := Point(g.anchor.x + g.boxW, g.anchor.y + g.boxH);
    [PaintShape(RectShape(g.anchor, corner), Filled, White),
     PaintShape(RectShape(g.anchor, corner), Stroked(1), Black)]
  }

  /** A shown legend is its frame followed by its items' rows. */
  lemma LegendOpsShown(on: bool, loc: string, cmds: seq<PlotCommand>, width: int, height: int, measure: Measure,
                       items: seq<PlotCommand>, g: LegendBox)
    requires on && items == LegendItems(cmds) && |items| > 0
    requires g == LegendGeometry(loc, width, height, items, measure)
    ensures LegendOps(on, loc, cmds, width, height, measure) == LegendFrame(g) + ItemOps(g, items, |items|)
  {
  }

  /** No command is listed exactly when no command has a label. */
  lemma LegendItemsEmpty(cmds: seq<PlotCommand>)
    ensures LegendItems(cmds) == [] <==> forall c :: c in cmds ==> c.legendLabel == ""
  {
    LegendItemsMembers(cmds);
    if LegendItems(cmds) != [] {
      assert LegendItems(cmds)[0] in LegendItems(cmds);
    }
  }

  /** The legend draws nothing exactly when it is off or no command has a
      label. */
  lemma LegendOpsEmpty(on: bool, loc: string, cmds: seq<PlotCommand>, width: int, height: int, measure: Measure)
    ensures LegendOps(on, loc, cmds, width, height, measure) == [] <==>
      !on || forall c :: c in cmds ==> c.legendLabel == ""
  {
    LegendItemsEmpty(cmds);
  }

  /** Otherwise it draws the frame and two primitives per labelled command;
      the swatches follow the commands' kinds and colours. */
  lemma LegendOpsItems(on: bool, loc: string, cmds: seq<PlotCommand>, width: int, height: int, measure: Measure)
    requires on && LegendItems(cmds) != []
    ensures var items := LegendItems(cmds);
      var ops := LegendOps(on, loc, cmds, width, height, measure);
      var g := LegendGeometry(loc, width, height, items, measure);
      && |ops| == 2 + 2 * |items|
      && (forall i :: 0 <= i < |items| ==> ops[2 + 2 * i] == SwatchOp(items[i], g.anchor.x, RowY(g, i)))
  {
    var items := LegendItems(cmds);
    var g := LegendGeometry(loc, width, height, items, measure);
    ItemOpsShape(g, items, |items|);
  }

  /* ---------------------------------------------------------------- */
  /* Title, x label and y label                                        */
  /* ---------------------------------------------------------------- */

  /** The title at (50, 25) and the x label centred under the plot, each
      only when non-empty. */
  function TitleOps(title: string, xlabel: string, width: int, height: int): seq<DrawOp> {
    (if title != "" then [PutText(Str(title), Point(TitleMargin, CDiv(TitleMargin, 2)), 0.6, Black, 1)] else []) +
    (if xlabel != "" then [PutText(Str(xlabel), Point(CDiv(width, 2) - 40, height - 10), 0.5, Black, 1)] else [])
  }

  /** A text image turned a quarter counter-clockwise: `rows` by `cols`
      pixels showing `text`. */
  datatype LabelBitmap = LabelBitmap(text: string, rows: int, cols: int)

  /** The y-label image: the text at font scale 0.5 on a white image as tall
      as the text height plus baseline and as wide as the text, rotated, so
      that its rows are the text width and its columns the text height. */
  function RotatedLabel(text: string, measure: Measure): (bmp: LabelBitmap)
    ensures bmp.text == text
    ensures bmp.rows == measure(text, 0.5, 1).width
    ensures bmp.cols == measure(text, 0.5, 1).height + measure(text, 0.5, 1).baseline
  {
    var sz := measure(text, 0.5, 1);
    LabelBitmap(text, sz.width, sz.height + sz.baseline)
  }

  /** `draw_ylabel`: the rotated label copied at column `x`, vertically
      centred on the plot, only when it is non-empty and fits the canvas. */
  function YLabelOps(text: string, x: int, width: int, height: int, measure: Measure): seq<DrawOp> {
    if text == "" then []
    else
      var bmp := RotatedLabel(text, measure);
      var y := MarginTop + CDiv(PlotHeight(height) - bmp.rows, 2);
      if x >= 0 && y >= 0 && x + bmp.cols <= width && y + bmp.rows <= height then [BlitYLabel(text, Point(x, y))]
      else []
  }

  /** A drawn y label lies wholly on the canvas, in the rows of the plot
      when it is no taller than the plot. */
  lemma YLabelOnCanvas(text: string, x: int, width: int, height: int, measure: Measure)
    requires YLabelOps(text, x, width, height, measure) != []
    ensures var bmp := RotatedLabel(text, measure);
      var op := YLabelOps(text, x, width, height, measure)[0];
      && |YLabelOps(text, x, width, height, measure)| == 1
      && op == BlitYLabel(text, op.topLeft)
      && 0 <= op.topLeft.x && op.topLeft.x + bmp.cols <= width
      && 0 <= op.topLeft.y && op.topLeft.y + bmp.rows <= height
      && (0 <= bmp.rows <= PlotHeight(height) ==>
            MarginTop <= op.topLeft.y && op.topLeft.y + bmp.rows <= MarginTop + PlotHeight(height))
  {
  }

  /* ---------------------------------------------------------------- */
  /* A whole render                                                    */
  /* ---------------------------------------------------------------- */

  /** The target number of ticks per axis. */
  const TickTarget: int := 6

  /** Everything the current `render` draws after clearing, for resolved
      limits `l`. */
  function FigureOps(l: Limits, grid: bool, cmds: seq<PlotCommand>, legendOn: bool, legendLoc: string,
                     title: string, xlabel: string, ylabel: string, width: int, height: int,
                     measure: Measure): seq<DrawOp>
    requires NonzeroSpans(l)
    requires forall i :: 0 <= i < |cmds| ==> WellFormed(cmds[i])
  {
    var m := Mapper(l, width, height, false);
    var xt := TicksFor(l.xmin, l.xmax, TickTarget);
    var yt := TicksFor(l.ymin, l.ymax, TickTarget);
    TicksShape(l.xmin, l.xmax, TickStep(l.xmin, l.xmax, TickTarget));
    TicksShape(l.ymin, l.ymax, TickStep(l.ymin, l.ymax, TickTarget));
    GridOps(m, grid, xt, yt) + AxesOps(m, xt, yt) + CommandsOps(m, cmds, measure) +
    LegendOps(legendOn, legendLoc, cmds, width, height, measure) +
    TitleOps(title, xlabel, width, height) + YLabelOps(ylabel, MarginLeft - 55, width, height, measure)
  }

  /** The parts of a current render, each drawn with the six-target ticks. */
  lemma FigureOpsParts(l: Limits, grid: bool, cmds: seq<PlotCommand>, legendOn: bool, legendLoc: string,
                       title: string, xlabel: string, ylabel: string, width: int, height: int,
                       measure: Measure)
    requires NonzeroSpans(l)
    requires forall i :: 0 <= i < |cmds| ==> WellFormed(cmds[i])
    ensures var m := Mapper(l, width, height, false);
      var xt := TicksFor(l.xmin, l.xmax, TickTarget);
      var yt := TicksFor(l.ymin, l.ymax, TickTarget);
      && |xt.locs| <= |xt.labels| && |yt.locs| <= |yt.labels|
      && FigureOps(l, grid, cmds, legendOn, legendLoc, title, xlabel, ylabel, width, height, measure) ==
         GridOps(m, grid, xt, yt) + AxesOps(m, xt, yt) + CommandsOps(m, cmds, measure) +
         LegendOps(legendOn, legendLoc, cmds, width, height, measure) + TitleOps(title, xlabel, width, height) +
         YLabelOps(ylabel, MarginLeft - 55, width, height, measure)
  {
    TicksShape(l.xmin, l.xmax, TickStep(l.xmin, l.xmax, TickTarget));
    TicksShape(l.ymin, l.ymax, TickStep(l.ymin, l.ymax, TickTarget));
  }

  /** Everything the older `render` draws after clearing: no legend, the
      older ticks and mapper, the y label at column 10. */
  function LegacyFigureOps(l: Limits, grid: bool, cmds: seq<PlotCommand>,
                           title: string, xlabel: string, ylabel: string, width: int, height: int,
                           measure: Measure): seq<DrawOp>
    requires LegacyMappable(l)
    requires forall i :: 0 <= i < |cmds| ==> WellFormed(cmds[i])
  {
    var m := Mapper(l, width, height, true);
    var xt := LegacyTicksFor(l.xmin, l.xmax, TickTarget);
    var yt := LegacyTicksFor(l.ymin, l.ymax, TickTarget);
    GridOps(m, grid, xt, yt) + AxesOps(m, xt, yt) + CommandsOps(m, cmds, measure) +
    TitleOps(title, xlabel, width, height) + YLabelOps(ylabel, 10, width, height, measure)
  }

  /** The parts of an older render, each drawn with the older six-target
      ticks. */
  lemma LegacyFigureOpsParts(l: Limits, grid: bool, cmds: seq<PlotCommand>,
                             title: string, xlabel: string, ylabel: string, width: int, height: int,
                             measure: Measure)
    requires LegacyMappable(l)
    requires forall i :: 0 <= i < |cmds| ==> WellFormed(cmds[i])
    ensures var m := Mapper(l, width, height, true);
      var xt := LegacyTicksFor(l.xmin, l.xmax, TickTarget);
      var yt := LegacyTicksFor(l.ymin, l.ymax, TickTarget);
      && |xt.locs| <= |xt.labels| && |yt.locs| <= |yt.labels|
      && LegacyFigureOps(l, grid, cmds, title, xlabel, ylabel, width, height, measure) ==
         GridOps(m, grid, xt, yt) + AxesOps(m, xt, yt) + CommandsOps(m, cmds, measure) +
         TitleOps(title, xlabel, width, height) + YLabelOps(ylabel, 10, width, height, measure)
  {
  }
}
