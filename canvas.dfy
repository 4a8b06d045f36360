/** The pixel buffer a figure owns (`cv::Mat canvas_`), modelled as the list
    of primitives drawn on it since it was last cleared to white, and the
    drawing routines both figures share: the retained-command loop of
    `render` with its per-kind cases. */
module CanvasModel {
  import opened Numerics
  import opened PlotCommands
  import opened Ticks
  import opened Layout
  import opened DrawOps

  class Canvas {
    /** What has been drawn since the image was last set to white. */
    var ops: seq<DrawOp>

    /** A white image. */
    constructor ()
      ensures ops == []
    {
      ops := [];
    }

    /** `canvas_.setTo(white)`: everything drawn so far is painted over. */
    method Clear()
      modifies this`ops
      ensures ops == []
    {
      ops := [];
    }
  }

  /** Appending in two steps appends the two parts in order. */
  lemma AppendAssoc<T>(a: seq<T>, b: seq<T>, c: seq<T>)
    ensures (a + b) + c == a + (b + c)
  {
  }

  /** One more command adds its own primitives after those of the earlier
      ones. */
  lemma CommandsOpsStep(m: Mapper, cmds: seq<PlotCommand>, i: nat, measure: Measure)
    requires MapperOk(m) && i < |cmds|
    requires forall k :: 0 <= k < |cmds| ==> WellFormed(cmds[k])
    ensures CommandsOps(m, cmds[..i + 1], measure) ==
      CommandsOps(m, cmds[..i], measure) + (if m.legacy && IsShape(cmds[i].kind) then [] else CommandOps(m, cmds[i], measure))
  {
    assert cmds[..i + 1][..i] == cmds[..i];
  }

  /** Fill, then outline, of one shape. */
  method DrawShape(canvas: Canvas, shape: Shape, style: ShapeStyle)
    modifies canvas`ops
    ensures canvas.ops == old(canvas.ops) + ShapeOps(shape, style)
  {
    if 0.0 < style.fillAlpha < 1.0 {
      canvas.ops := canvas.ops + [PaintShape(shape, Blended(style.fillAlpha), style.fillColor)];
    } else if style.fillAlpha >= 1.0 {
      canvas.ops := canvas.ops + [PaintShape(shape, Filled, style.fillColor)];
    }
    if style.thickness > 0.0 {
      canvas.ops := canvas.ops + [PaintShape(shape, Stroked(Trunc(style.thickness)), style.lineColor)];
    }
  }

  /** The segments of a polyline, each vertex joined to the next. */
  method DrawPolyline(canvas: Canvas, m: Mapper, xs: seq<real>, ys: seq<real>, color: Color, thickness: int)
    requires MapperOk(m) && |xs| <= |ys|
    modifies canvas`ops
    ensures canvas.ops == old(canvas.ops) + LineOps(m, xs, ys, color, thickness, |xs|)
  {
    if |xs| == 0 {
      return;
    }
    var i := 1;
    while i < |xs|
      invariant 1 <= i <= |xs|
      invariant canvas.ops == old(canvas.ops) + LineOps(m, xs, ys, color, thickness, i)
    {
      canvas.ops := canvas.ops + [Segment(Map(m, xs[i - 1], ys[i - 1]), Map(m, xs[i], ys[i]), color, thickness)];
      i := i + 1;
    }
  }

  /** One filled marker per point. */
  method DrawMarkers(canvas: Canvas, m: Mapper, xs: seq<real>, ys: seq<real>, color: Color, radius: int)
    requires MapperOk(m) && |xs| <= |ys|
    modifies canvas`ops
    ensures canvas.ops == old(canvas.ops) + ScatterOps(m, xs, ys, color, radius, |xs|)
  {
    var i := 0;
    while i < |xs|
      invariant 0 <= i <= |xs|
      invariant canvas.ops == old(canvas.ops) + ScatterOps(m, xs, ys, color, radius, i)
    {
      canvas.ops := canvas.ops + [Dot(Map(m, xs[i], ys[i]), radius, color)];
      i := i + 1;
    }
  }

  /** The vertices of a polygon in pixels. */
  method MapPoints(m: Mapper, xs: seq<real>, ys: seq<real>) returns (pts: seq<Point>)
    requires MapperOk(m) && |xs| <= |ys|
    ensures pts == PixelPoints(m, xs, ys, |xs|)
  {
    pts := [];
    var i := 0;
    while i < |xs|
      invariant 0 <= i <= |xs|
      invariant pts == PixelPoints(m, xs, ys, i)
    {
      pts := pts + [Map(m, xs[i], ys[i])];
      i := i + 1;
    }
  }

  /** One retained command, per its kind; the older figure's switch has no
      case for the shape kinds, which it therefore skips. */
  method DrawCommand(canvas: Canvas, m: Mapper, c: PlotCommand, measure: Measure)
    requires MapperOk(m) && WellFormed(c)
    modifies canvas`ops
    ensures canvas.ops == old(canvas.ops) + (if m.legacy && IsShape(c.kind) then [] else CommandOps(m, c, measure))
  {
    if m.legacy && IsShape(c.kind) {
      return;
    }
    match c.kind {
      case Line =>
        DrawPolyline(canvas, m, c.line.x, c.line.y, c.color, Trunc(c.line.thickness));
      case Scatter =>
        DrawMarkers(canvas, m, c.scatter.x, c.scatter.y, c.color, Trunc(c.scatter.markerSize));
      case Text =>
        var d := c.txt;
        var p := AnchoredTextPos(Map(m, d.x, d.y), measure(d.text, d.fontScale, d.thickness), d.halign, d.valign);
        canvas.ops := canvas.ops + [PutText(Str(d.text), p, d.fontScale, c.color, d.thickness)];
      case Circle =>
        var d := c.circle;
        DrawShape(canvas, CircleShape(Map(m, d.cx, d.cy), Trunc(PixelsX(m, d.radius))), d.style);
      case RectXYWH =>
        var d := c.rect;
        DrawShape(canvas, RectShape(Map(m, d.x0, d.y0), Map(m, d.x1, d.y1)), d.style);
      case RectLTRB =>
        var d := c.rect;
        DrawShape(canvas, RectShape(Map(m, d.x0, d.y0), Map(m, d.x1, d.y1)), d.style);
      case RotatedRect =>
        var d := c.rotRect;
        DrawShape(canvas, RotatedShape(Map(m, d.cx, d.cy), PixelsX(m, d.width), PixelsY(m, d.height), -d.angleDeg), d.style);
      case Polygon =>
        var d := c.polygon;
        var pts := MapPoints(m, d.x, d.y);
        DrawShape(canvas, PolygonShape(pts), d.style);
      case Ellipse =>
        var d := c.ellipse;
        DrawShape(canvas, EllipseShape(Map(m, d.cx, d.cy), Trunc(PixelsX(m, 0.5 * d.width)),
                                       Trunc(PixelsY(m, 0.5 * d.height)), -d.angleDeg), d.style);
    }
  }

  /** Step 5 of `render`: every retained command, in order. */
  method DrawCommands(canvas: Canvas, m: Mapper, cmds: seq<PlotCommand>, measure: Measure)
    requires MapperOk(m)
    requires forall i :: 0 <= i < |cmds| ==> WellFormed(cmds[i])
    modifies canvas`ops
    ensures canvas.ops == old(canvas.ops) + CommandsOps(m, cmds, measure)
  {
    var i := 0;
    while i < |cmds|
      invariant 0 <= i <= |cmds|
      invariant canvas.ops == old(canvas.ops) + CommandsOps(m, cmds[..i], measure)
    {
      DrawCommand(canvas, m, cmds[i], measure);
      CommandsOpsStep(m, cmds, i, measure);
      AppendAssoc(old(canvas.ops), CommandsOps(m, cmds[..i], measure),
                  if m.legacy && IsShape(cmds[i].kind) then [] else CommandOps(m, cmds[i], measure));
      i := i + 1;
    }
    assert cmds[..|cmds|] == cmds;
  }

  /** The title at (50, 25) in scale 0.6 and the x label centred under the
      plot in scale 0.5, each only when non-empty. */
  method DrawTitles(canvas: Canvas, title: string, xlabel: string, width: int, height: int)
    modifies canvas`ops
    ensures canvas.ops == old(canvas.ops) + TitleOps(title, xlabel, width, height)
  {
    if title != "" {
      canvas.ops := canvas.ops + [PutText(Str(title), Point(TitleMargin, CDiv(TitleMargin, 2)), 0.6, Black, 1)];
    }
    if xlabel != "" {
      canvas.ops := canvas.ops + [PutText(Str(xlabel), Point(CDiv(width, 2) - 40, height - 10), 0.5, Black, 1)];
    }
  }

  /** The grid lines at the ticks `xt` and `yt`: a vertical line per x tick
      and a horizontal one per y tick, light grey; the current figure skips
      ticks outside the limits, the older one draws them all. */
  method DrawGridLines(canvas: Canvas, m: Mapper, xt: TickInfo, yt: TickInfo)
    requires MapperOk(m)
    modifies canvas`ops
    ensures canvas.ops == old(canvas.ops) + XGridOps(m, xt.locs, |xt.locs|) + YGridOps(m, yt.locs, |yt.locs|)
  {
    var l := m.lim;
    var i := 0;
    while i < |xt.locs|
      invariant 0 <= i <= |xt.locs|
      invariant canvas.ops == old(canvas.ops) + XGridOps(m, xt.locs, i)
    {
      var xv := xt.locs[i];
      if m.legacy || !(xv < l.xmin || xv > l.xmax) {
        canvas.ops := canvas.ops + [Segment(Map(m, xv, l.ymin), Map(m, xv, l.ymax), LightGray, 1)];
      }
      i := i + 1;
    }
    ghost var c1 := canvas.ops;
    var j := 0;
    while j < |yt.locs|
      invariant 0 <= j <= |yt.locs|
      invariant canvas.ops == c1 + YGridOps(m, yt.locs, j)
    {
      var yv := yt.locs[j];
      if m.legacy || !(yv < l.ymin || yv > l.ymax) {
        canvas.ops := canvas.ops + [Segment(Map(m, l.xmin, yv), Map(m, l.xmax, yv), LightGray, 1)];
      }
      j := j + 1;
    }
  }

  /** Both axis lines with a tick mark and a label per tick: x labels 10
      pixels left of and 18 below the tick, y labels `YLabelDx(m)` left of
      and 4 below it. */
  method DrawAxisLines(canvas: Canvas, m: Mapper, xt: TickInfo, yt: TickInfo)
    requires MapperOk(m)
    requires |xt.locs| <= |xt.labels| && |yt.locs| <= |yt.labels|
    modifies canvas`ops
    ensures canvas.ops == old(canvas.ops) + AxesOps(m, xt, yt)
  {
    var l := m.lim;
    canvas.ops := canvas.ops + [Segment(Point(MarginLeft, m.height - MarginBottom),
                                        Point(m.width - MarginRight, m.height - MarginBottom), Black, 1)];
    ghost var c1 := canvas.ops;
    var i := 0;
    while i < |xt.locs|
      invariant 0 <= i <= |xt.locs|
      invariant canvas.ops == c1 + XTickOps(m, xt, i)
    {
      var p := Map(m, xt.locs[i], l.ymin);
      canvas.ops := canvas.ops + [Segment(p, Point(p.x, p.y + TickLen), Black, 1),
                                  PutText(TickText(xt.labels[i]), Point(p.x - 10, p.y + 18), 0.4, Black, 1)];
      i := i + 1;
    }
    canvas.ops := canvas.ops + [Segment(Point(MarginLeft, MarginTop), Point(MarginLeft, m.height - MarginBottom), Black, 1)];
    ghost var c2 := canvas.ops;
    var j := 0;
    while j < |yt.locs|
      invariant 0 <= j <= |yt.locs|
      invariant canvas.ops == c2 + YTickOps(m, yt, j)
    {
      var p := Map(m, l.xmin, yt.locs[j]);
      canvas.ops := canvas.ops + [Segment(Point(p.x - TickLen, p.y), p, Black, 1),
                                  PutText(TickText(yt.labels[j]), Point(p.x - YLabelDx(m), p.y + 4), 0.4, Black, 1)];
      j := j + 1;
    }
  }
}
