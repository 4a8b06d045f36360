/** The current retained-command figure (include/figure.h, src/figure.cpp):
    plotting calls append commands and widen the cached data bounds; `render`
    resolves the axes, computes the ticks and redraws everything on a
    cleared canvas, and only when something changed since the last render. */
module FigureModel {
  import opened Numerics
  import opened PlotCommands
  import opened AxesModel
  import opened BoundsModel
  import opened Ticks
  import opened Layout
  import opened AxisResolution
  import opened DrawOps
  import opened CanvasModel

  /** The data points each command adds to the bounds box are inside `b`:
      the vertices of lines, scatters and polygons; the two extreme corners
      given to `expand` for circles, rectangles and ellipses; for a rotated
      rectangle, its centre plus or minus its half width and half height.
      Text adds nothing. */
  predicate Covers(b: Box, c: PlotCommand) {
    match c.kind
    case Line =>
      forall i :: 0 <= i < |c.line.x| && i < |c.line.y| ==> Contains(b, c.line.x[i], c.line.y[i])
    case Scatter =>
      forall i :: 0 <= i < |c.scatter.x| && i < |c.scatter.y| ==> Contains(b, c.scatter.x[i], c.scatter.y[i])
    case Text => true
    case Circle =>
      var d := c.circle;
      Contains(b, d.cx - d.radius, d.cy - d.radius) && Contains(b, d.cx + d.radius, d.cy + d.radius)
    case RectXYWH =>
      Contains(b, c.rect.x0, c.rect.y0) && Contains(b, c.rect.x1, c.rect.y1)
    case RectLTRB =>
      Contains(b, c.rect.x0, c.rect.y0) && Contains(b, c.rect.x1, c.rect.y1)
    case RotatedRect =>
      var d := c.rotRect;
      Contains(b, d.cx - 0.5 * Abs(d.width), d.cy - 0.5 * Abs(d.height)) &&
      Contains(b, d.cx + 0.5 * Abs(d.width), d.cy + 0.5 * Abs(d.height))
    case Polygon =>
      forall i :: 0 <= i < |c.polygon.x| && i < |c.polygon.y| ==> Contains(b, c.polygon.x[i], c.polygon.y[i])
    case Ellipse =>
      var d := c.ellipse;
      Contains(b, d.cx - 0.5 * d.width, d.cy - 0.5 * d.height) &&
      Contains(b, d.cx + 0.5 * d.width, d.cy + 0.5 * d.height)
  }

  /** A wider box still covers a command. */
  lemma CoversWithin(b: Box, b': Box, c: PlotCommand)
    requires Covers(b, c) && Within(b, b')
    ensures Covers(b', c)
  {
    forall x, y | Contains(b, x, y) ensures Contains(b', x, y) {
      ContainsWithin(b, b', x, y);
    }
  }

  lemma CoversAllWithin(b: Box, b': Box, cmds: seq<PlotCommand>)
    requires forall i :: 0 <= i < |cmds| ==> Covers(b, cmds[i])
    requires Within(b, b')
    ensures forall i :: 0 <= i < |cmds| ==> Covers(b', cmds[i])
  {
    forall i | 0 <= i < |cmds| ensures Covers(b', cmds[i]) {
      CoversWithin(b, b', cmds[i]);
    }
  }

  /** A box holding two corners holds every point between them. */
  lemma ContainsBetween(b: Box, x0: real, y0: real, x1: real, y1: real, x: real, y: real)
    requires Contains(b, x0, y0) && Contains(b, x1, y1)
    requires x0 <= x <= x1 && y0 <= y <= y1
    ensures Contains(b, x, y)
  {
    LeTransitive(b.xmin, Fin(x0), Fin(x));
    LeTransitive(Fin(x), Fin(x1), b.xmax);
    LeTransitive(b.ymin, Fin(y0), Fin(y));
    LeTransitive(Fin(y), Fin(y1), b.ymax);
  }

  /** A non-negative number whose square is at most `d * d` is at most `d`. */
  lemma SquareBound(a: real, d: real, s: real)
    requires a >= 0.0 && d >= 0.0 && s == a * a && s <= d * d
    ensures a <= d
  {
    if d < a {
      calc {
        s;
      <=
        d * d;
      <= { MulLeMono(d, a, d); }
        a * d;
      < { MulLtMono(d, a, a); }
        a * a;
      }
    }
  }

  /** The diagonal of a w-by-h rectangle is at least as long as each side. */
  lemma DiagonalBound(w: real, h: real, diag: real)
    requires diag >= 0.0 && diag * diag == w * w + h * h
    ensures Abs(w) <= diag && Abs(h) <= diag
  {
    var aw, ah := Abs(w), Abs(h);
    assert aw * aw == w * w && ah * ah == h * h;
    MulLeMono(0.0, aw, aw);
    MulLeMono(0.0, ah, ah);
    SquareBound(aw, diag, aw * aw);
    SquareBound(ah, diag, ah * ah);
  }

  /** The square of half-diagonal `diag / 2` around the centre holds the
      centre plus or minus the half width and half height. */
  lemma HalfExtentsInside(b: Box, cx: real, cy: real, w: real, h: real, diag: real)
    requires diag >= 0.0 && diag * diag == w * w + h * h
    requires Contains(b, cx - 0.5 * diag, cy - 0.5 * diag) && Contains(b, cx + 0.5 * diag, cy + 0.5 * diag)
    ensures Contains(b, cx - 0.5 * Abs(w), cy - 0.5 * Abs(h))
    ensures Contains(b, cx + 0.5 * Abs(w), cy + 0.5 * Abs(h))
  {
    DiagonalBound(w, h, diag);
    var r := 0.5 * diag;
    ContainsBetween(b, cx - r, cy - r, cx + r, cy + r, cx - 0.5 * Abs(w), cy - 0.5 * Abs(h));
    ContainsBetween(b, cx - r, cy - r, cx + r, cy + r, cx + 0.5 * Abs(w), cy + 0.5 * Abs(h));
  }

  /** A point of the data box lands inside the plot rectangle once the axes
      are autoscaled with a non-negative padding. */
  lemma PointInPlot(p: Policy, b: Box, current: Limits, width: int, height: int, x: real, y: real)
    requires Consistent(b) && Contains(b, x, y)
    requires p.autoscale && p.padFrac >= 0.0
    requires PlotWidth(width) >= 0 && PlotHeight(height) >= 0
    ensures InPlot(DataToPixel(Resolve(p, b, current), width, height, x, y), width, height)
  {
    assert b != EmptyBox;
    var r := Resolve(p, b, current);
    ResolveContainsData(p, b, current);
    ContainsWithin(b, Box(Fin(r.xmin), Fin(r.xmax), Fin(r.ymin), Fin(r.ymax)), x, y);
    DataToPixelInPlot(r, width, height, x, y);
  }

  /** The pixel anchors of a primitive: both ends of a segment, the centre
      of a dot. */
  predicate AnchoredInPlot(op: DrawOp, width: int, height: int) {
    match op
    case Segment(from, to, _, _) => InPlot(from, width, height) && InPlot(to, width, height)
    case Dot(center, _, _) => InPlot(center, width, height)
    case _ => true
  }

  lemma {:induction false} LineOpsInPlot(m: Mapper, xs: seq<real>, ys: seq<real>, color: Color, thickness: int, n: nat)
    requires MapperOk(m) && n <= |xs| && n <= |ys|
    requires forall i :: 0 <= i < n ==> InPlot(Map(m, xs[i], ys[i]), m.width, m.height)
    ensures forall op :: op in LineOps(m, xs, ys, color, thickness, n) ==> AnchoredInPlot(op, m.width, m.height)
  {
    if n > 1 {
      LineOpsInPlot(m, xs, ys, color, thickness, n - 1);
    }
  }

  lemma {:induction false} ScatterOpsInPlot(m: Mapper, xs: seq<real>, ys: seq<real>, color: Color, radius: int, n: nat)
    requires MapperOk(m) && n <= |xs| && n <= |ys|
    requires forall i :: 0 <= i < n ==> InPlot(Map(m, xs[i], ys[i]), m.width, m.height)
    ensures forall op :: op in ScatterOps(m, xs, ys, color, radius, n) ==> AnchoredInPlot(op, m.width, m.height)
  {
    if n > 0 {
      ScatterOpsInPlot(m, xs, ys, color, radius, n - 1);
    }
  }

  /** With autoscale on and a non-negative padding, every segment of a
      line and every marker of a scatter whose points the data box covers
      is drawn inside the plot rectangle. */
  lemma AutoscaledDataInPlot(p: Policy, b: Box, current: Limits, c: PlotCommand, width: int, height: int, measure: Measure)
    requires Consistent(b) && WellFormed(c) && Covers(b, c) && (c.kind == Line || c.kind == Scatter)
    requires p.autoscale && p.padFrac >= 0.0
    requires PlotWidth(width) >= 0 && PlotHeight(height) >= 0
    ensures var m := Mapper(Resolve(p, b, current), width, height, false);
      forall op :: op in CommandOps(m, c, measure) ==> AnchoredInPlot(op, width, height)
  {
    var m := Mapper(Resolve(p, b, current), width, height, false);
    if c.kind == Line {
      forall i | 0 <= i < |c.line.x| ensures InPlot(Map(m, c.line.x[i], c.line.y[i]), width, height) {
        PointInPlot(p, b, current, width, height, c.line.x[i], c.line.y[i]);
      }
      LineOpsInPlot(m, c.line.x, c.line.y, c.color, Trunc(c.line.thickness), |c.line.x|);
    } else {
      forall i | 0 <= i < |c.scatter.x| ensures InPlot(Map(m, c.scatter.x[i], c.scatter.y[i]), width, height) {
        PointInPlot(p, b, current, width, height, c.scatter.x[i], c.scatter.y[i]);
      }
      ScatterOpsInPlot(m, c.scatter.x, c.scatter.y, c.color, Trunc(c.scatter.markerSize), |c.scatter.x|);
    }
  }

  /** With autoscale on, the resolved limits do not depend on the limits
      before the render, so re-rendering after any change reaches the same
      axes. */
  lemma AutoscaleForgetsCurrent(p: Policy, b: Box, c1: Limits, c2: Limits)
    requires Consistent(b) && p.autoscale
    ensures Resolve(p, b, c1) == Resolve(p, b, c2)
  {
  }

  /** Equal scale makes the two data spans equal, not the two pixel scales:
      one data unit covers the same number of pixels on both axes exactly
      when the plot rectangle is square. */
  lemma EqualScalePixels(p: Policy, b: Box, current: Limits, width: int, height: int)
    requires Consistent(b) && p.equalScale
    ensures var m := Mapper(Resolve(p, b, current), width, height, false);
      PixelsX(m, 1.0) == PixelsY(m, 1.0) <==> PlotWidth(width) == PlotHeight(height)
  {
    var r := Resolve(p, b, current);
    ResolveEqualScale(p, b, current);
    DivideEqualIff(PlotWidth(width) as real, PlotHeight(height) as real, r.xmax - r.xmin);
  }

  lemma DivideEqualIff(a: real, c: real, s: real)
    requires s != 0.0
    ensures a / s == c / s <==> a == c
  {
    if a / s == c / s {
      assert a == (a / s) * s && c == (c / s) * s;
    }
  }

  /** The legend's items: the commands with a non-empty label, in order. */
  method CollectLegendItems(cmds: seq<PlotCommand>) returns (items: seq<PlotCommand>)
    ensures items == LegendItems(cmds)
  {
    items := [];
    var i := 0;
    while i < |cmds|
      invariant 0 <= i <= |cmds|
      invariant items == LegendItems(cmds[..i])
    {
      if cmds[i].legendLabel != "" {
        items := items + [cmds[i]];
      }
      assert cmds[..i + 1][..i] == cmds[..i];
      i := i + 1;
    }
    assert cmds[..|cmds|] == cmds;
  }

  /** The widest label and the tallest label (height plus baseline) of the
      items at font scale 0.4. */
  method MeasureLegendLabels(items: seq<PlotCommand>, measure: Measure) returns (maxTextW: int, textH: int)
    ensures maxTextW == MaxLabelWidth(items, measure) && textH == MaxLabelHeight(items, measure)
  {
    maxTextW, textH := 0, 0;
    var k := 0;
    while k < |items|
      invariant 0 <= k <= |items|
      invariant maxTextW == MaxLabelWidth(items[..k], measure)
      invariant textH == MaxLabelHeight(items[..k], measure)
    {
      var sz := measure(items[k].legendLabel, 0.4, 1);
      assert items[..k + 1][..k] == items[..k];
      maxTextW := MaxInt(maxTextW, sz.width);
      textH := MaxInt(textH, sz.height + sz.baseline);
      k := k + 1;
    }
    assert items[..|items|] == items;
  }

  /** The legend's geometry: rows as tall as the tallest label plus 6, a
      box wide enough for the swatch and the widest label, anchored at
      `loc`. */
  method LayOutLegend(loc: string, width: int, height: int, items: seq<PlotCommand>, measure: Measure)
    returns (g: LegendBox)
    ensures g == LegendGeometry(loc, width, height, items, measure)
  {
    var maxTextW, textH := MeasureLegendLabels(items, measure);
    var lh := textH + 6;
    var boxW := SwatchW + 8 + maxTextW + 10;
    var boxH := lh * |items| + 10;
    var anchor := LegendAnchor(loc, width, height, boxW, boxH);
    g := LegendBox(anchor, boxW, boxH, lh);
  }

  class Figure {
    const width: int
    const height: int
    /** The text metrics of the figure's font (`cv::getTextSize`). */
    const measure: Measure
    const axes: Axes
    const dataBounds: Bounds
    /** The image the figure draws on. */
    const canvas: Canvas
    var cmds: seq<PlotCommand>
    var title: string
    var xlabel: string
    var ylabel: string
    var dirty: bool
    var legendLoc: string
    var legendOn: bool
    var ylabelCache: LabelBitmap
    var ylabelCacheValid: bool

    /** Finite axes with a non-negative padding. */
    ghost predicate AxesOk()
      reads axes
    {
      axes.Finite() && axes.padFrac >= 0.0
    }

    /** Well-formed commands and a consistent data box covering each. */
    ghost predicate CommandsOk()
      reads this`cmds, dataBounds
    {
      && Consistent(dataBounds.Extent())
      && (forall i :: 0 <= i < |cmds| ==> WellFormed(cmds[i]))
      && (forall i :: 0 <= i < |cmds| ==> Covers(dataBounds.Extent(), cmds[i]))
    }

    /** A valid y-label cache shows the current y label. */
    ghost predicate CacheOk()
      reads this`ylabel, this`ylabelCache, this`ylabelCacheValid
    {
      ylabelCacheValid ==> ylabelCache == RotatedLabel(ylabel, measure)
    }

    /** The figure's invariant. */
    ghost predicate Valid()
      reads this, axes, dataBounds
    {
      AxesOk() && CommandsOk() && CacheOk()
    }

    /** A white `w` by `h` canvas with default axes and nothing to draw. */
    constructor (w: int, h: int, measure: Measure)
      ensures Valid() && fresh(axes) && fresh(dataBounds) && fresh(canvas)
      ensures width == w && height == h && this.measure == measure
      ensures canvas.ops == [] && cmds == []
      ensures title == "" && xlabel == "" && ylabel == ""
      ensures dirty && !legendOn && legendLoc == "northEast" && !ylabelCacheValid
      ensures axes.Lim() == UnitSquare && axes.padFrac == 0.05
      ensures axes.autoscale && !axes.equalScale && !axes.grid
      ensures dataBounds.Extent() == EmptyBox
    {
      width, height, this.measure := w, h, measure;
      axes := new Axes();
      dataBounds := new Bounds();
      canvas := new Canvas();
      cmds := [];
      title, xlabel, ylabel := "", "", "";
      dirty, legendOn, legendLoc := true, false, "northEast";
      ylabelCache, ylabelCacheValid := LabelBitmap("", 0, 0), false;
    }

    /* ------------------------------------------------------------ */
    /* Settings                                                      */
    /* ------------------------------------------------------------ */

    /** Fixed x limits, which also switch autoscaling off. */
    method SetXLim(lo: real, hi: real)
      requires Valid()
      modifies axes`xmin, axes`xmax, axes`autoscale, this`dirty
      ensures Valid() && dirty && !axes.autoscale
      ensures axes.Lim() == old(axes.Lim()).(xmin := lo, xmax := hi)
    {
      axes.xmin, axes.xmax := Fin(lo), Fin(hi);
      axes.autoscale := false;
      dirty := true;
    }

    /** Fixed y limits, which also switch autoscaling off. */
    method SetYLim(lo: real, hi: real)
      requires Valid()
      modifies axes`ymin, axes`ymax, axes`autoscale, this`dirty
      ensures Valid() && dirty && !axes.autoscale
      ensures axes.Lim() == old(axes.Lim()).(ymin := lo, ymax := hi)
    {
      axes.ymin, axes.ymax := Fin(lo), Fin(hi);
      axes.autoscale := false;
      dirty := true;
    }

    /** No padding around the data. */
    method AxisTight()
      requires Valid()
      modifies axes`padFrac, this`dirty
      ensures Valid() && dirty && axes.padFrac == 0.0
    {
      axes.padFrac := 0.0;
      dirty := true;
    }

    /** Padding `frac` of each span, clamped at 0. */
    method AxisPad(frac: real)
      requires Valid()
      modifies axes`padFrac, this`dirty
      ensures Valid() && dirty
      ensures axes.padFrac >= 0.0 && axes.padFrac >= frac
      ensures axes.padFrac == if frac > 0.0 then frac else 0.0
    {
      axes.padFrac := MaxReal(0.0, frac);
      dirty := true;
    }

    method Autoscale(on: bool)
      requires Valid()
      modifies axes`autoscale, this`dirty
      ensures Valid() && dirty && axes.autoscale == on
    {
      axes.autoscale := on;
      dirty := true;
    }

    method EqualScale(on: bool)
      requires Valid()
      modifies axes`equalScale, this`dirty
      ensures Valid() && dirty && axes.equalScale == on
    {
      axes.equalScale := on;
      dirty := true;
    }

    method Grid(on: bool)
      requires Valid()
      modifies axes`grid, this`dirty
      ensures Valid() && dirty && axes.grid == on
    {
      axes.grid := on;
      dirty := true;
    }

    method Title(t: string)
      requires Valid()
      modifies this`title, this`dirty
      ensures Valid() && dirty && title == t
    {
      title := t;
      dirty := true;
    }

    method XLabel(t: string)
      requires Valid()
      modifies this`xlabel, this`dirty
      ensures Valid() && dirty && xlabel == t
    {
      xlabel := t;
      dirty := true;
    }

    /** A new y label also drops the cached label image. */
    method YLabel(t: string)
      requires Valid()
      modifies this`ylabel, this`ylabelCacheValid, this`dirty
      ensures Valid() && dirty && ylabel == t && !ylabelCacheValid
    {
      ylabel := t;
      ylabelCacheValid := false;
      dirty := true;
    }

    method Legend(on: bool, loc: string)
      requires Valid()
      modifies this`legendOn, this`legendLoc, this`dirty
      ensures Valid() && dirty && legendOn == on && legendLoc == loc
    {
      legendOn, legendLoc := on, loc;
      dirty := true;
    }

    /* ------------------------------------------------------------ */
    /* Commands                                                      */
    /* ------------------------------------------------------------ */

    /** `expand_bounds`: widen the data box by each `(xs[i], ys[i])` in turn. */
    method ExpandBounds(xs: seq<real>, ys: seq<real>)
      requires |xs| <= |ys|
      modifies dataBounds
      ensures dataBounds.Extent() == ExpandAll(old(dataBounds.Extent()), xs, ys)
    {
      var i := 0;
      while i < |xs|
        invariant 0 <= i <= |xs|
        invariant dataBounds.Extent() == ExpandFirst(old(dataBounds.Extent()), xs, ys, i)
      {
        dataBounds.Expand(xs[i], ys[i]);
        i := i + 1;
      }
    }

    /** Append a command whose points the new data box covers. */
    method Append(cmd: PlotCommand, ghost before: Box)
      requires AxesOk() && CacheOk() && Consistent(dataBounds.Extent())
      requires (forall i :: 0 <= i < |cmds| ==> WellFormed(cmds[i]))
      requires (forall i :: 0 <= i < |cmds| ==> Covers(before, cmds[i]))
      requires Within(before, dataBounds.Extent())
      requires WellFormed(cmd) && Covers(dataBounds.Extent(), cmd)
      modifies this`cmds, this`dirty
      ensures Valid() && dirty && cmds == old(cmds) + [cmd]
    {
      CoversAllWithin(before, dataBounds.Extent(), cmds);
      cmds := cmds + [cmd];
      dirty := true;
    }

    /** `plot` (through `add_line_command`): a polyline; its points widen
        the data box. */
    method Plot(x: seq<real>, y: seq<real>, c: Color, thickness: real, legendText: string)
      requires Valid() && |x| <= |y|
      modifies this`cmds, this`dirty, dataBounds
      ensures Valid() && dirty
      ensures cmds == old(cmds) + [DefaultCommand.(kind := CmdType.Line, color := c, legendLabel := legendText,
                                                   line := LineData(x, y, thickness))]
      ensures dataBounds.Extent() == ExpandAll(old(dataBounds.Extent()), x, y)
    {
      ghost var before := dataBounds.Extent();
      var cmd := DefaultCommand.(kind := CmdType.Line, color := c, legendLabel := legendText, line := LineData(x, y, thickness));
      ExpandBounds(x, y);
      ExpandAllCovers(before, x, y);
      Append(cmd, before);
    }

    /** `scatter` (through `add_scatter_command`): markers; their points
        widen the data box. */
    method Scatter(x: seq<real>, y: seq<real>, c: Color, markerSize: real, legendText: string)
      requires Valid() && |x| <= |y|
      modifies this`cmds, this`dirty, dataBounds
      ensures Valid() && dirty
      ensures cmds == old(cmds) + [DefaultCommand.(kind := CmdType.Scatter, color := c, legendLabel := legendText,
                                                   scatter := ScatterData(x, y, markerSize))]
      ensures dataBounds.Extent() == ExpandAll(old(dataBounds.Extent()), x, y)
    {
      ghost var before := dataBounds.Extent();
      var cmd := DefaultCommand.(kind := CmdType.Scatter, color := c, legendLabel := legendText,
                                 scatter := ScatterData(x, y, markerSize));
      ExpandBounds(x, y);
      ExpandAllCovers(before, x, y);
      Append(cmd, before);
    }

    /** `text`: an annotation; text never changes the data box. */
    method Text(x: real, y: real, msg: string, c: Color, fontScale: real, thickness: int,
                ha: HAlign, va: VAlign, legendText: string)
      requires Valid()
      modifies this`cmds, this`dirty
      ensures Valid() && dirty
      ensures cmds == old(cmds) + [DefaultCommand.(kind := CmdType.Text, color := c, legendLabel := legendText,
                                                   txt := TextData(x, y, msg, fontScale, thickness, ha, va))]
    {
      var cmd := DefaultCommand.(kind := CmdType.Text, color := c, legendLabel := legendText,
                                 txt := TextData(x, y, msg, fontScale, thickness, ha, va));
      Append(cmd, dataBounds.Extent());
    }

    /** `circle`: the data box takes the corners of its bounding square. */
    method Circle(cx: real, cy: real, radius: real, style: ShapeStyle, legendText: string)
      requires Valid()
      modifies this`cmds, this`dirty, dataBounds
      ensures Valid() && dirty
      ensures cmds == old(cmds) + [DefaultCommand.(kind := CmdType.Circle, legendLabel := legendText,
                                                   circle := CircleData(cx, cy, radius, style))]
      ensures dataBounds.Extent() ==
        ExpandAll(old(dataBounds.Extent()), [cx - radius, cx + radius], [cy - radius, cy + radius])
    {
      ghost var before := dataBounds.Extent();
      var cmd := DefaultCommand.(kind := CmdType.Circle, legendLabel := legendText, circle := CircleData(cx, cy, radius, style));
      var xs, ys := [cx - radius, cx + radius], [cy - radius, cy + radius];
      ExpandBounds(xs, ys);
      ExpandAllCovers(before, xs, ys);
      assert Contains(dataBounds.Extent(), xs[0], ys[0]) && Contains(dataBounds.Extent(), xs[1], ys[1]);
      Append(cmd, before);
    }

    /** `rect_xywh`: stored as corners (x, y) and (x + w, y + h). */
    method RectXYWH(x: real, y: real, w: real, h: real, style: ShapeStyle, legendText: string)
      requires Valid()
      modifies this`cmds, this`dirty, dataBounds
      ensures Valid() && dirty
      ensures cmds == old(cmds) + [DefaultCommand.(kind := CmdType.RectXYWH, legendLabel := legendText,
                                                   rect := RectData(x, y, x + w, y + h, style))]
      ensures dataBounds.Extent() == ExpandAll(old(dataBounds.Extent()), [x, x + w], [y, y + h])
    {
      ghost var before := dataBounds.Extent();
      var cmd := DefaultCommand.(kind := CmdType.RectXYWH, legendLabel := legendText, rect := RectData(x, y, x + w, y + h, style));
      var xs, ys := [x, x + w], [y, y + h];
      ExpandBounds(xs, ys);
      ExpandAllCovers(before, xs, ys);
      assert Contains(dataBounds.Extent(), xs[0], ys[0]) && Contains(dataBounds.Extent(), xs[1], ys[1]);
      Append(cmd, before);
    }

    /** `rect_ltrb`: two corners as given. */
    method RectLTRB(x0: real, y0: real, x1: real, y1: real, style: ShapeStyle, legendText: string)
      requires Valid()
      modifies this`cmds, this`dirty, dataBounds
      ensures Valid() && dirty
      ensures cmds == old(cmds) + [DefaultCommand.(kind := CmdType.RectLTRB, legendLabel := legendText,
                                                   rect := RectData(x0, y0, x1, y1, style))]
      ensures dataBounds.Extent() == ExpandAll(old(dataBounds.Extent()), [x0, x1], [y0, y1])
    {
      ghost var before := dataBounds.Extent();
      var cmd := DefaultCommand.(kind := CmdType.RectLTRB, legendLabel := legendText, rect := RectData(x0, y0, x1, y1, style));
      var xs, ys := [x0, x1], [y0, y1];
      ExpandBounds(xs, ys);
      ExpandAllCovers(before, xs, ys);
      assert Contains(dataBounds.Extent(), xs[0], ys[0]) && Contains(dataBounds.Extent(), xs[1], ys[1]);
      Append(cmd, before);
    }

    /** `rotated_rect`: the data box takes the square of half-diagonal
        `r = diag / 2` around the centre, where `diag` is the square root of
        `w * w + h * h`. */
    method RotatedRect(cx: real, cy: real, w: real, h: real, angleDeg: real, diag: real,
                       style: ShapeStyle, legendText: string)
      requires Valid()
      requires diag >= 0.0 && diag * diag == w * w + h * h
      modifies this`cmds, this`dirty, dataBounds
      ensures Valid() && dirty
      ensures cmds == old(cmds) + [DefaultCommand.(kind := CmdType.RotatedRect, legendLabel := legendText,
                                                   rotRect := RotatedRectData(cx, cy, w, h, angleDeg, style))]
      ensures var r := 0.5 * diag;
        dataBounds.Extent() == ExpandAll(old(dataBounds.Extent()), [cx - r, cx + r], [cy - r, cy + r])
    {
      ghost var before := dataBounds.Extent();
      var cmd := DefaultCommand.(kind := CmdType.RotatedRect, legendLabel := legendText,
                                 rotRect := RotatedRectData(cx, cy, w, h, angleDeg, style));
      var r := 0.5 * diag;
      var xs, ys := [cx - r, cx + r], [cy - r, cy + r];
      ExpandBounds(xs, ys);
      ExpandAllCovers(before, xs, ys);
      ghost var b := dataBounds.Extent();
      assert Contains(b, xs[0], ys[0]) && Contains(b, xs[1], ys[1]);
      HalfExtentsInside(b, cx, cy, w, h, diag);
      Append(cmd, before);
    }

    /** `polygon`: ignored unless `x` and `y` are equally long and
        non-empty; otherwise every vertex widens the data box. */
    method Polygon(x: seq<real>, y: seq<real>, style: ShapeStyle, legendText: string)
      requires Valid()
      modifies this`cmds, this`dirty, dataBounds
      ensures Valid()
      ensures |x| != |y| || |x| == 0 ==>
        cmds == old(cmds) && dirty == old(dirty) && dataBounds.Extent() == old(dataBounds.Extent())
      ensures |x| == |y| && |x| > 0 ==>
        && dirty
        && cmds == old(cmds) + [DefaultCommand.(kind := CmdType.Polygon, legendLabel := legendText,
                                                polygon := PolygonData(x, y, style))]
        && dataBounds.Extent() == ExpandAll(old(dataBounds.Extent()), x, y)
    {
      if |x| != |y| || |x| == 0 {
        return;
      }
      ghost var before := dataBounds.Extent();
      var cmd := DefaultCommand.(kind := CmdType.Polygon, legendLabel := legendText, polygon := PolygonData(x, y, style));
      ExpandBounds(x, y);
      ExpandAllCovers(before, x, y);
      Append(cmd, before);
    }

    /** `ellipse`: the data box takes the corners of its unrotated bounding
        box. */
    method Ellipse(cx: real, cy: real, w: real, h: real, angleDeg: real, style: ShapeStyle, legendText: string)
      requires Valid()
      modifies this`cmds, this`dirty, dataBounds
      ensures Valid() && dirty
      ensures cmds == old(cmds) + [DefaultCommand.(kind := CmdType.Ellipse, legendLabel := legendText,
                                                   ellipse := EllipseData(cx, cy, w, h, angleDeg, style))]
      ensures dataBounds.Extent() ==
        ExpandAll(old(dataBounds.Extent()), [cx - 0.5 * w, cx + 0.5 * w], [cy - 0.5 * h, cy + 0.5 * h])
    {
      ghost var before := dataBounds.Extent();
      var cmd := DefaultCommand.(kind := CmdType.Ellipse, legendLabel := legendText,
                                 ellipse := EllipseData(cx, cy, w, h, angleDeg, style));
      var xs, ys := [cx - 0.5 * w, cx + 0.5 * w], [cy - 0.5 * h, cy + 0.5 * h];
      ExpandBounds(xs, ys);
      ExpandAllCovers(before, xs, ys);
      assert Contains(dataBounds.Extent(), xs[0], ys[0]) && Contains(dataBounds.Extent(), xs[1], ys[1]);
      Append(cmd, before);
    }

    /* ------------------------------------------------------------ */
    /* Rendering                                                     */
    /* ------------------------------------------------------------ */

    /** The mapper for the axes as they stand. */
    function Mapping(): (m: Mapper)
      reads axes
      requires axes.Finite()
      ensures m.lim == axes.Lim() && m.width == width && m.height == height && !m.legacy
    {
      Mapper(axes.Lim(), width, height, false)
    }

    /** `draw_grid`: when the grid is on, light grey lines at the ticks
        inside the limits of `m`, the mapper of the current axes. */
    method DrawGrid(m: Mapper, xt: TickInfo, yt: TickInfo)
      requires axes.Finite() && m == Mapping() && NonzeroSpans(m.lim)
      modifies canvas`ops
      ensures canvas.ops == old(canvas.ops) + GridOps(m, axes.grid, xt, yt)
    {
      if axes.grid {
        DrawGridLines(canvas, m, xt, yt);
      }
    }

    /** `draw_axes`: both axis lines with their tick marks and labels. */
    method DrawAxes(m: Mapper, xt: TickInfo, yt: TickInfo)
      requires axes.Finite() && m == Mapping() && NonzeroSpans(m.lim)
      requires |xt.locs| <= |xt.labels| && |yt.locs| <= |yt.labels|
      modifies canvas`ops
      ensures canvas.ops == old(canvas.ops) + AxesOps(m, xt, yt)
    {
      DrawAxisLines(canvas, m, xt, yt);
    }

    /** The box and one swatch and label per item, in the geometry `g`. */
    method DrawLegendItems(g: LegendBox, items: seq<PlotCommand>)
      modifies canvas`ops
      ensures canvas.ops == old(canvas.ops) + ItemOps(g, items, |items|)
    {
      var j := 0;
      while j < |items|
        invariant 0 <= j <= |items|
        invariant canvas.ops == old(canvas.ops) + ItemOps(g, items, j)
      {
        var y := g.anchor.y + 5 + j * g.lineH + CDiv(g.lineH, 2);
        var pc := items[j];
        var swatch: DrawOp;
        match pc.kind {
          case Line =>
            swatch := Segment(Point(g.anchor.x + 5, y), Point(g.anchor.x + 5 + SwatchW, y), pc.color, 2);
          case Scatter =>
            swatch := Dot(Point(g.anchor.x + 5 + SwatchW / 2, y), 4, pc.color);
          case Circle =>
            swatch := Dot(Point(g.anchor.x + 5 + SwatchW / 2, y), 4, pc.color);
          case _ =>
            swatch := PaintShape(RectShape(Point(g.anchor.x + 5, y - 4), Point(g.anchor.x + 5 + SwatchW, y + 4)), Filled, pc.color);
        }
        canvas.ops := canvas.ops + [swatch, PutText(Str(pc.legendLabel), Point(g.anchor.x + 5 + SwatchW + 8, y + 4), 0.4, Black, 1)];
        j := j + 1;
      }
    }

    /** The legend: collect the labelled commands, measure their labels,
        draw the box, then one swatch and label per item. */
    method DrawLegend()
      modifies canvas`ops
      ensures canvas.ops == old(canvas.ops) + LegendOps(legendOn, legendLoc, cmds, width, height, measure)
    {
      if !legendOn {
        return;
      }
      var items := CollectLegendItems(cmds);
      if |items| == 0 {
        return;
      }
      var g := LayOutLegend(legendLoc, width, height, items, measure);
      var corner := Point(g.anchor.x + g.boxW, g.anchor.y + g.boxH);
      canvas.ops := canvas.ops + [PaintShape(RectShape(g.anchor, corner), Filled, White),
                          PaintShape(RectShape(g.anchor, corner), Stroked(1), Black)];
      DrawLegendItems(g, items);
      AppendAssoc(old(canvas.ops), LegendFrame(g), ItemOps(g, items, |items|));
      LegendOpsShown(legendOn, legendLoc, cmds, width, height, measure, items, g);
    }

    /** `draw_ylabel`: build the rotated label image once per label, then
        copy it left of the plot when it fits the canvas. */
    method DrawYLabel()
      requires CacheOk()
      modifies canvas`ops, this`ylabelCache, this`ylabelCacheValid
      ensures canvas.ops == old(canvas.ops) + YLabelOps(ylabel, MarginLeft - 55, width, height, measure)
      ensures ylabelCacheValid == (old(ylabelCacheValid) || ylabel != "")
      ensures CacheOk()
    {
      if ylabel == "" {
        return;
      }
      if !ylabelCacheValid {
        ylabelCache := RotatedLabel(ylabel, measure);
        ylabelCacheValid := true;
      }
      var x := MarginLeft - 55;
      var y := MarginTop + CDiv(PlotHeight(height) - ylabelCache.rows, 2);
      if x >= 0 && y >= 0 && x + ylabelCache.cols <= width && y + ylabelCache.rows <= height {
        canvas.ops := canvas.ops + [BlitYLabel(ylabelCache.text, Point(x, y))];
      }
    }

    /** Steps 3 to 9 of `render`: clear the canvas to white, then draw the
        grid, the axes, the commands, the legend, the title and x label, and
        the y label, in that order. */
    method Redraw(m: Mapper, xt: TickInfo, yt: TickInfo)
      requires axes.Finite() && m == Mapping() && NonzeroSpans(m.lim)
      requires |xt.locs| <= |xt.labels| && |yt.locs| <= |yt.labels|
      requires forall i :: 0 <= i < |cmds| ==> WellFormed(cmds[i])
      requires CacheOk()
      modifies canvas`ops, this`ylabelCache, this`ylabelCacheValid
      ensures canvas.ops ==
        GridOps(m, axes.grid, xt, yt) + AxesOps(m, xt, yt) + CommandsOps(m, cmds, measure) +
        LegendOps(legendOn, legendLoc, cmds, width, height, measure) + TitleOps(title, xlabel, width, height) +
        YLabelOps(ylabel, MarginLeft - 55, width, height, measure)
      ensures ylabelCacheValid == (old(ylabelCacheValid) || ylabel != "")
      ensures CacheOk()
    {
      canvas.Clear();
      DrawGrid(m, xt, yt);
      assert canvas.ops == GridOps(m, axes.grid, xt, yt);
      DrawAxes(m, xt, yt);
      DrawCommands(canvas, m, cmds, measure);
      DrawLegend();
      DrawTitles(canvas, title, xlabel, width, height);
      DrawYLabel();
    }

    /** Step 1 of `render`: with autoscale, the limits become the data box
        when it has seen a point and the unit square otherwise. */
    method AutoscaleAxes()
      requires axes.Finite() && Consistent(dataBounds.Extent())
      modifies axes`xmin, axes`xmax, axes`ymin, axes`ymax
      ensures axes.Finite() && axes.Flags() == old(axes.Flags())
      ensures axes.Lim() == AutoscaleStart(axes.autoscale, dataBounds.Extent(), old(axes.Lim()))
    {
      if axes.autoscale {
        if dataBounds.Valid() {
          axes.xmin, axes.xmax := dataBounds.xmin, dataBounds.xmax;
          axes.ymin, axes.ymax := dataBounds.ymin, dataBounds.ymax;
        } else {
          axes.xmin, axes.xmax, axes.ymin, axes.ymax := Fin(0.0), Fin(1.0), Fin(0.0), Fin(1.0);
        }
      }
    }

    /** Steps 1 and 2 of `render`: autoscale, pad, fix, equal scale, fix. */
    method ResolveAxes()
      requires Valid()
      modifies axes`xmin, axes`xmax, axes`ymin, axes`ymax
      ensures Valid() && axes.Flags() == old(axes.Flags())
      ensures axes.Lim() == Resolve(axes.Flags(), dataBounds.Extent(), old(axes.Lim()))
    {
      AutoscaleAxes();
      PadAxes(axes);
      FixRanges(axes);
      EqualizeAxes(axes);
      FixRanges(axes);
    }

    /** `render`: nothing when nothing changed; otherwise resolve the axes,
        compute six-target ticks, clear the canvas and draw the grid, the
        axes, the commands, the legend, the title and labels, in that order. */
    method Render()
      requires Valid()
      modifies canvas`ops, this`dirty, this`ylabelCache, this`ylabelCacheValid
      modifies axes`xmin, axes`xmax, axes`ymin, axes`ymax
      ensures Valid()
      ensures !old(dirty) ==> unchanged(this) && unchanged(axes) && unchanged(canvas)
      ensures old(dirty) ==>
        && !dirty
        && axes.Lim() == Resolve(axes.Flags(), dataBounds.Extent(), old(axes.Lim()))
        && canvas.ops == FigureOps(axes.Lim(), axes.grid, cmds, legendOn, legendLoc, title, xlabel, ylabel,
                               width, height, measure)
        && ylabelCacheValid == (old(ylabelCacheValid) || ylabel != "")
    {
      if !dirty {
        return;
      }
      ResolveAxes();
      var m := Mapping();
      var l := m.lim;
      var xt := MakeTicks(l.xmin, l.xmax, TickTarget);
      var yt := MakeTicks(l.ymin, l.ymax, TickTarget);
      TicksShape(l.xmin, l.xmax, TickStep(l.xmin, l.xmax, TickTarget));
      TicksShape(l.ymin, l.ymax, TickStep(l.ymin, l.ymax, TickTarget));
      Redraw(m, xt, yt);
      FigureOpsParts(l, axes.grid, cmds, legendOn, legendLoc, title, xlabel, ylabel, width, height, measure);
      dirty := false;
    }

    /** `show`: render if needed; returns the image put in the window. */
    method Show(windowName: string) returns (shown: seq<DrawOp>)
      requires Valid()
      modifies canvas`ops, this`dirty, this`ylabelCache, this`ylabelCacheValid
      modifies axes`xmin, axes`xmax, axes`ymin, axes`ymax
      ensures Valid() && !dirty && shown == canvas.ops
      ensures !old(dirty) ==> unchanged(this) && unchanged(axes) && unchanged(canvas)
      ensures old(dirty) ==>
        && axes.Lim() == Resolve(axes.Flags(), dataBounds.Extent(), old(axes.Lim()))
        && canvas.ops == FigureOps(axes.Lim(), axes.grid, cmds, legendOn, legendLoc, title, xlabel, ylabel,
                               width, height, measure)
    {
      if dirty {
        Render();
      }
      shown := canvas.ops;
    }

    /** `save`: render if needed; returns the image written to the file. */
    method Save(filename: string) returns (written: seq<DrawOp>)
      requires Valid()
      modifies canvas`ops, this`dirty, this`ylabelCache, this`ylabelCacheValid
      modifies axes`xmin, axes`xmax, axes`ymin, axes`ymax
      ensures Valid() && !dirty && written == canvas.ops
      ensures !old(dirty) ==> unchanged(this) && unchanged(axes) && unchanged(canvas)
      ensures old(dirty) ==>
        && axes.Lim() == Resolve(axes.Flags(), dataBounds.Extent(), old(axes.Lim()))
        && canvas.ops == FigureOps(axes.Lim(), axes.grid, cmds, legendOn, legendLoc, title, xlabel, ylabel,
                               width, height, measure)
    {
      if dirty {
        Render();
      }
      written := canvas.ops;
    }
  }
}
