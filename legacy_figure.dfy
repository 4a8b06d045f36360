/** The older retained-command figure (MatPlotOpenCV/include/figure.h): the
    same plotting calls for lines, scatters and text, no cached data box
    (autoscale folds the line and scatter points into the axes themselves at
    render time), no padding and no legend, ticks computed anew by the grid
    and by the axes, and a mapper that adds 1e-12 to each span. */
module LegacyFigureModel {
  import opened Numerics
  import opened PlotCommands
  import opened AxesModel
  import opened LegacyAxesModel
  import opened BoundsModel
  import opened Ticks
  import opened LegacyTicks
  import opened Layout
  import opened AxisResolution
  import opened DrawOps
  import opened CanvasModel

  /* ---------------------------------------------------------------- */
  /* The autoscale fold                                                */
  /* ---------------------------------------------------------------- */

  /** The box the older autoscale builds: from the empty box, each line and
      scatter command in turn widens it by its points; text adds nothing. */
  function LegacyDataBox(cmds: seq<PlotCommand>): (b: Box)
    requires forall i :: 0 <= i < |cmds| ==> WellFormed(cmds[i])
    ensures Consistent(b)
  {
    if |cmds| == 0 then EmptyBox
    else
      var prev := LegacyDataBox(cmds[..|cmds| - 1]);
      var c := cmds[|cmds| - 1];
      assert WellFormed(c);
      if c.kind == Line then
        ExpandAllCovers(prev, c.line.x, c.line.y);
        ExpandAll(prev, c.line.x, c.line.y)
      else if c.kind == Scatter then
        ExpandAllCovers(prev, c.scatter.x, c.scatter.y);
        ExpandAll(prev, c.scatter.x, c.scatter.y)
      else prev
  }

  /** The points the older autoscale reads from a command: every
      `(x[i], y[i])` of a line or scatter. */
  predicate HoldsPoints(b: Box, c: PlotCommand) {
    && (c.kind == Line ==>
          forall i :: 0 <= i < |c.line.x| && i < |c.line.y| ==> Contains(b, c.line.x[i], c.line.y[i]))
    && (c.kind == Scatter ==>
          forall i :: 0 <= i < |c.scatter.x| && i < |c.scatter.y| ==> Contains(b, c.scatter.x[i], c.scatter.y[i]))
  }

  /** Whether a command gives the fold at least one point. */
  predicate HasPoints(c: PlotCommand) {
    (c.kind == Line && |c.line.x| > 0) || (c.kind == Scatter && |c.scatter.x| > 0)
  }

  lemma HoldsPointsWithin(b: Box, b': Box, c: PlotCommand)
    requires HoldsPoints(b, c) && Within(b, b')
    ensures HoldsPoints(b', c)
  {
    forall x, y | Contains(b, x, y) ensures Contains(b', x, y) {
      ContainsWithin(b, b', x, y);
    }
  }

  /** The fold holds every line and scatter point of every command. */
  lemma {:induction false} LegacyDataBoxCovers(cmds: seq<PlotCommand>)
    requires forall i :: 0 <= i < |cmds| ==> WellFormed(cmds[i])
    ensures forall i :: 0 <= i < |cmds| ==> HoldsPoints(LegacyDataBox(cmds), cmds[i])
  {
    if |cmds| > 0 {
      var init := cmds[..|cmds| - 1];
      var prev := LegacyDataBox(init);
      var b := LegacyDataBox(cmds);
      var c := cmds[|cmds| - 1];
      LegacyDataBoxCovers(init);
      if c.kind == Line {
        ExpandAllCovers(prev, c.line.x, c.line.y);
      } else if c.kind == Scatter {
        ExpandAllCovers(prev, c.scatter.x, c.scatter.y);
      }
      assert Within(prev, b);
      forall i | 0 <= i < |cmds| ensures HoldsPoints(b, cmds[i]) {
        if i < |cmds| - 1 {
          assert cmds[i] == init[i];
          HoldsPointsWithin(prev, b, cmds[i]);
        }
      }
    }
  }

  /** The fold has seen a point exactly when some line or scatter command
      has one; otherwise it is still the empty box. */
  lemma {:induction false} LegacyDataBoxValid(cmds: seq<PlotCommand>)
    requires forall i :: 0 <= i < |cmds| ==> WellFormed(cmds[i])
    ensures IsValid(LegacyDataBox(cmds)) <==> exists i :: 0 <= i < |cmds| && HasPoints(cmds[i])
    ensures !IsValid(LegacyDataBox(cmds)) ==> LegacyDataBox(cmds) == EmptyBox
  {
    if |cmds| > 0 {
      var init := cmds[..|cmds| - 1];
      var prev := LegacyDataBox(init);
      var c := cmds[|cmds| - 1];
      LegacyDataBoxValid(init);
      if c.kind == Line {
        ExpandAllCovers(prev, c.line.x, c.line.y);
      } else if c.kind == Scatter {
        ExpandAllCovers(prev, c.scatter.x, c.scatter.y);
      }
      if exists i :: 0 <= i < |init| && HasPoints(init[i]) {
        var i :| 0 <= i < |init| && HasPoints(init[i]);
        assert HasPoints(cmds[i]);
      }
      if exists i :: 0 <= i < |cmds| && HasPoints(cmds[i]) {
        var i :| 0 <= i < |cmds| && HasPoints(cmds[i]);
        if i < |cmds| - 1 {
          assert HasPoints(init[i]);
        }
      }
    }
  }

  /** Limits the older mapper can divide by: those of an autoscale, and any
      user limits with each minimum at or below its maximum. */
  lemma LegacyResolveMappable(autoscale: bool, equal: bool, data: Box, current: Limits)
    requires Consistent(data)
    requires autoscale || (current.xmin <= current.xmax && current.ymin <= current.ymax)
    ensures var r := LegacyResolve(autoscale, equal, data, current);
      r.xmin < r.xmax && r.ymin < r.ymax && LegacyMappable(r)
  {
    var start := LegacyStart(autoscale, data, current);
    assert start.xmin <= start.xmax && start.ymin <= start.ymax;
    var fixed := FixLimits(start);
    assert fixed.xmin < fixed.xmax && fixed.ymin < fixed.ymax;
    EqualStepKeepsOrder(fixed, equal);
    LegacyMappableWhenOrdered(FixLimits(EqualStep(fixed, equal)));
  }

  /** Equal scale keeps each minimum below its maximum. */
  lemma EqualStepKeepsOrder(l: Limits, equal: bool)
    requires l.xmin < l.xmax && l.ymin < l.ymax
    ensures var e := EqualStep(l, equal); e.xmin < e.xmax && e.ymin < e.ymax
  {
    if equal {
      EqualScaleProperties(l);
    }
  }

  /** A user x range inverted by exactly 1e-12 leaves the older mapper
      dividing by zero. */
  lemma LegacyUnmappableLimits()
    ensures !LegacyMappable(LegacyResolve(false, false, EmptyBox, Limits(SpanGuard, 0.0, 0.0, 1.0)))
  {
    assert FixLimits(Limits(SpanGuard, 0.0, 0.0, 1.0)) == Limits(SpanGuard, 0.0, 0.0, 1.0);
  }

  /* ---------------------------------------------------------------- */
  /* The figure                                                        */
  /* ---------------------------------------------------------------- */

  class LegacyFigure {
    const width: int
    const height: int
    /** `cv::getTextSize` for the Hershey simplex font. */
    const measure: Measure
    const axes: LegacyAxes
    const canvas: Canvas
    var cmds: seq<PlotCommand>
    var title: string
    var xlabel: string
    var ylabel: string
    var dirty: bool

    /** Every limit is a finite number. */
    ghost predicate Valid()
      reads axes
    {
      axes.Finite()
    }

    /** Every x of a line or scatter has its y, as `render` reads them. */
    ghost predicate CommandsOk()
      reads this`cmds
    {
      forall i :: 0 <= i < |cmds| ==> WellFormed(cmds[i])
    }

    /** `Figure(w, h)`: a white canvas, default axes, nothing to draw. */
    constructor (w: int, h: int, measure: Measure)
      ensures Valid() && CommandsOk() && fresh(axes) && fresh(canvas)
      ensures width == w && height == h && this.measure == measure
      ensures canvas.ops == [] && cmds == [] && dirty
      ensures title == "" && xlabel == "" && ylabel == ""
      ensures axes.Lim() == UnitSquare && axes.autoscale && !axes.equalScale && !axes.grid
    {
      width, height, this.measure := w, h, measure;
      axes := new LegacyAxes();
      canvas := new Canvas();
      cmds := [];
      title, xlabel, ylabel := "", "", "";
      dirty := true;
    }

    /* ------------------------------------------------------------ */
    /* Commands and settings                                         */
    /* ------------------------------------------------------------ */

    /** `plot`: a polyline, stored as given. */
    method Plot(x: seq<real>, y: seq<real>, c: Color, thickness: real)
      modifies this`cmds, this`dirty
      ensures dirty
      ensures cmds == old(cmds) + [DefaultCommand.(kind := CmdType.Line, color := c, line := LineData(x, y, thickness))]
    {
      cmds := cmds + [DefaultCommand.(kind := CmdType.Line, color := c, line := LineData(x, y, thickness))];
      dirty := true;
    }

    /** `scatter`: markers, stored as given. */
    method Scatter(x: seq<real>, y: seq<real>, c: Color, markerSize: real)
      modifies this`cmds, this`dirty
      ensures dirty
      ensures cmds == old(cmds) + [DefaultCommand.(kind := CmdType.Scatter, color := c,
                                                   scatter := ScatterData(x, y, markerSize))]
    {
      cmds := cmds + [DefaultCommand.(kind := CmdType.Scatter, color := c, scatter := ScatterData(x, y, markerSize))];
      dirty := true;
    }

    /** `text`: an annotation at data coordinates. */
    method Text(x: real, y: real, msg: string, c: Color, fontScale: real, thickness: int, ha: HAlign, va: VAlign)
      modifies this`cmds, this`dirty
      ensures dirty
      ensures cmds == old(cmds) + [DefaultCommand.(kind := CmdType.Text, color := c,
                                                   txt := TextData(x, y, msg, fontScale, thickness, ha, va))]
    {
      cmds := cmds + [DefaultCommand.(kind := CmdType.Text, color := c, txt := TextData(x, y, msg, fontScale, thickness, ha, va))];
      dirty := true;
    }

    /** Fixed x limits, which also switch autoscaling off. */
    method SetXLim(lo: real, hi: real)
      requires Valid()
      modifies axes`xmin, axes`xmax, axes`autoscale, this`dirty
      ensures Valid() && dirty && !axes.autoscale
      ensures axes.Lim() == old(axes.Lim()).(xmin := lo, xmax := hi)
    {
      axes.xmin, axes.xmax := Fin(lo), Fin(hi);
      axes.autoscale := false;
      dirty := true;
    }

    /** Fixed y limits, which also switch autoscaling off. */
    method SetYLim(lo: real, hi: real)
      requires Valid()
      modifies axes`ymin, axes`ymax, axes`autoscale, this`dirty
      ensures Valid() && dirty && !axes.autoscale
      ensures axes.Lim() == old(axes.Lim()).(ymin := lo, ymax := hi)
    {
      axes.ymin, axes.ymax := Fin(lo), Fin(hi);
      axes.autoscale := false;
      dirty := true;
    }

    method Autoscale(on: bool)
      modifies axes`autoscale, this`dirty
      ensures dirty && axes.autoscale == on
    {
      axes.autoscale := on;
      dirty := true;
    }

    method EqualScale(on: bool)
      modifies axes`equalScale, this`dirty
      ensures dirty && axes.equalScale == on
    {
      axes.equalScale := on;
      dirty := true;
    }

    method Grid(on: bool)
      modifies axes`grid, this`dirty
      ensures dirty && axes.grid == on
    {
      axes.grid := on;
      dirty := true;
    }

    method Title(t: string)
      modifies this`title, this`dirty
      ensures dirty && title == t
    {
      title := t;
      dirty := true;
    }

    method XLabel(t: string)
      modifies this`xlabel, this`dirty
      ensures dirty && xlabel == t
    {
      xlabel := t;
      dirty := true;
    }

    method YLabel(t: string)
      modifies this`ylabel, this`dirty
      ensures dirty && ylabel == t
    {
      ylabel := t;
      dirty := true;
    }

    /* ------------------------------------------------------------ */
    /* Axis resolution                                               */
    /* ------------------------------------------------------------ */

    /** The inner loop of the autoscale: each limit moves out to every
        point `(xs[i], ys[i])` beyond it. */
    method FoldPoints(xs: seq<real>, ys: seq<real>)
      requires |xs| <= |ys|
      modifies axes`xmin, axes`xmax, axes`ymin, axes`ymax
      ensures axes.Extent() == ExpandAll(old(axes.Extent()), xs, ys)
    {
      var i := 0;
      while i < |xs|
        invariant 0 <= i <= |xs|
        invariant axes.Extent() == ExpandFirst(old(axes.Extent()), xs, ys, i)
      {
        axes.xmin := Min(axes.xmin, Fin(xs[i]));
        axes.xmax := Max(axes.xmax, Fin(xs[i]));
        axes.ymin := Min(axes.ymin, Fin(ys[i]));
        axes.ymax := Max(axes.ymax, Fin(ys[i]));
        i := i + 1;
      }
    }

    /** Step 1 of `render`: with autoscale, reset the limits, fold every
        line and scatter point into them, and fall back to the unit square
        when the minimum x is still not finite. */
    method AutoscaleAxes()
      requires Valid() && CommandsOk()
      modifies axes`xmin, axes`xmax, axes`ymin, axes`ymax
      ensures Valid()
      ensures axes.Lim() == LegacyStart(axes.autoscale, LegacyDataBox(cmds), old(axes.Lim()))
    {
      if !axes.autoscale {
        return;
      }
      axes.Reset();
      var k := 0;
      while k < |cmds|
        invariant 0 <= k <= |cmds|
        invariant axes.Extent() == LegacyDataBox(cmds[..k])
      {
        var c := cmds[k];
        if c.kind == Line {
          FoldPoints(c.line.x, c.line.y);
        } else if c.kind == CmdType.Scatter {
          FoldPoints(c.scatter.x, c.scatter.y);
        }
        assert cmds[..k + 1][..k] == cmds[..k];
        k := k + 1;
      }
      assert cmds[..|cmds|] == cmds;
      if !axes.xmin.Fin? {
        axes.xmin, axes.xmax, axes.ymin, axes.ymax := Fin(0.0), Fin(1.0), Fin(0.0), Fin(1.0);
      }
    }

    /** Steps 1 and 2 of `render`: autoscale, fix, equal scale, fix. */
    method ResolveAxes()
      requires Valid() && CommandsOk()
      modifies axes`xmin, axes`xmax, axes`ymin, axes`ymax
      ensures Valid()
      ensures axes.Lim() == LegacyResolve(axes.autoscale, axes.equalScale, LegacyDataBox(cmds), old(axes.Lim()))
    {
      AutoscaleAxes();
      LegacyFixRanges(axes);
      LegacyEqualizeAxes(axes);
      LegacyFixRanges(axes);
    }

    /* ------------------------------------------------------------ */
    /* Drawing                                                       */
    /* ------------------------------------------------------------ */

    /** The older `data_to_pixel` for the axes as they stand. */
    function Mapping(): (m: Mapper)
      reads axes
      requires axes.Finite()
      ensures m.lim == axes.Lim() && m.width == width && m.height == height && m.legacy
    {
      Mapper(axes.Lim(), width, height, true)
    }

    /** `draw_grid`: when the grid is on, light grey lines at every tick of
        the older `make_ticks`, without a clip to the limits. */
    method DrawGrid()
      requires axes.Finite() && LegacyMappable(axes.Lim())
      modifies canvas`ops
      ensures canvas.ops == old(canvas.ops) + GridOps(Mapping(), axes.grid,
        LegacyTicksFor(axes.Lim().xmin, axes.Lim().xmax, TickTarget),
        LegacyTicksFor(axes.Lim().ymin, axes.Lim().ymax, TickTarget))
    {
      if !axes.grid {
        return;
      }
      var m := Mapping();
      var l := m.lim;
      var xt := LegacyMakeTicks(l.xmin, l.xmax, TickTarget);
      var yt := LegacyMakeTicks(l.ymin, l.ymax, TickTarget);
      DrawGridLines(canvas, m, xt, yt);
    }

    /** `draw_axes`: both axis lines, then the ticks of the older
        `make_ticks` with their labels, the y labels 45 pixels left. */
    method DrawAxes()
      requires axes.Finite() && LegacyMappable(axes.Lim())
      modifies canvas`ops
      ensures canvas.ops == old(canvas.ops) + AxesOps(Mapping(),
        LegacyTicksFor(axes.Lim().xmin, axes.Lim().xmax, TickTarget),
        LegacyTicksFor(axes.Lim().ymin, axes.Lim().ymax, TickTarget))
    {
      var m := Mapping();
      var l := m.lim;
      var xt := LegacyMakeTicks(l.xmin, l.xmax, TickTarget);
      var yt := LegacyMakeTicks(l.ymin, l.ymax, TickTarget);
      DrawAxisLines(canvas, m, xt, yt);
    }

    /** `draw_ylabel`: the rotated label, built on every call, copied at
        column 10 when it fits the canvas. */
    method DrawYLabel()
      modifies canvas`ops
      ensures canvas.ops == old(canvas.ops) + YLabelOps(ylabel, 10, width, height, measure)
    {
      if ylabel == "" {
        return;
      }
      var rot := RotatedLabel(ylabel, measure);
      var x := 10;
      var y := MarginTop + CDiv(PlotHeight(height) - rot.rows, 2);
      if x >= 0 && y >= 0 && x + rot.cols <= width && y + rot.rows <= height {
        canvas.ops := canvas.ops + [BlitYLabel(rot.text, Point(x, y))];
      }
    }

    /** Steps 3 to 6 of `render`: clear to white, then the grid, the axes,
        the commands, the title and x label, and the y label. */
    method Redraw()
      requires axes.Finite() && LegacyMappable(axes.Lim()) && CommandsOk()
      modifies canvas`ops
      ensures canvas.ops == LegacyFigureOps(axes.Lim(), axes.grid, cmds, title, xlabel, ylabel, width, height, measure)
    {
      var m := Mapping();
      var l := m.lim;
      ghost var xt := LegacyTicksFor(l.xmin, l.xmax, TickTarget);
      ghost var yt := LegacyTicksFor(l.ymin, l.ymax, TickTarget);
      canvas.Clear();
      DrawGrid();
      assert canvas.ops == GridOps(m, axes.grid, xt, yt);
      DrawAxes();
      DrawCommands(canvas, m, cmds, measure);
      DrawTitles(canvas, title, xlabel, width, height);
      DrawYLabel();
      LegacyFigureOpsParts(l, axes.grid, cmds, title, xlabel, ylabel, width, height, measure);
    }

    /** `render`: nothing when nothing changed; otherwise resolve the axes
        and redraw everything. The commands must pair every x with a y and
        the resolved limits must leave the mapper a non-zero divisor. */
    method Render()
      requires Valid()
      requires dirty ==>
        CommandsOk() && LegacyMappable(LegacyResolve(axes.autoscale, axes.equalScale, LegacyDataBox(cmds), axes.Lim()))
      modifies canvas`ops, this`dirty, axes`xmin, axes`xmax, axes`ymin, axes`ymax
      ensures Valid()
      ensures !old(dirty) ==> unchanged(this) && unchanged(axes) && unchanged(canvas)
      ensures old(dirty) ==>
        && !dirty && CommandsOk()
        && axes.Lim() == LegacyResolve(axes.autoscale, axes.equalScale, LegacyDataBox(cmds), old(axes.Lim()))
        && LegacyMappable(axes.Lim())
        && canvas.ops == LegacyFigureOps(axes.Lim(), axes.grid, cmds, title, xlabel, ylabel, width, height, measure)
    {
      if !dirty {
        return;
      }
      ResolveAxes();
      Redraw();
      dirty := false;
    }

    /** `show`: render if needed; returns the image put in the window. */
    method Show(windowName: string) returns (shown: seq<DrawOp>)
      requires Valid()
      requires dirty ==>
        CommandsOk() && LegacyMappable(LegacyResolve(axes.autoscale, axes.equalScale, LegacyDataBox(cmds), axes.Lim()))
      modifies canvas`ops, this`dirty, axes`xmin, axes`xmax, axes`ymin, axes`ymax
      ensures Valid() && !dirty && shown == canvas.ops
      ensures !old(dirty) ==> unchanged(this) && unchanged(axes) && unchanged(canvas)
      ensures old(dirty) ==>
        && CommandsOk()
        && axes.Lim() == LegacyResolve(axes.autoscale, axes.equalScale, LegacyDataBox(cmds), old(axes.Lim()))
        && LegacyMappable(axes.Lim())
        && canvas.ops == LegacyFigureOps(axes.Lim(), axes.grid, cmds, title, xlabel, ylabel, width, height, measure)
    {
      if dirty {
        Render();
      }
      shown := canvas.ops;
    }

    /** `save`: render if needed; returns the image written to the file. */
    method Save(filename: string) returns (written: seq<DrawOp>)
      requires Valid()
      requires dirty ==>
        CommandsOk() && LegacyMappable(LegacyResolve(axes.autoscale, axes.equalScale, LegacyDataBox(cmds), axes.Lim()))
      modifies canvas`ops, this`dirty, axes`xmin, axes`xmax, axes`ymin, axes`ymax
      ensures Valid() && !dirty && written == canvas.ops
      ensures !old(dirty) ==> unchanged(this) && unchanged(axes) && unchanged(canvas)
      ensures old(dirty) ==>
        && CommandsOk()
        && axes.Lim() == LegacyResolve(axes.autoscale, axes.equalScale, LegacyDataBox(cmds), old(axes.Lim()))
        && LegacyMappable(axes.Lim())
        && canvas.ops == LegacyFigureOps(axes.Lim(), axes.grid, cmds, title, xlabel, ylabel, width, height, measure)
    {
      if dirty {
        Render();
      }
      written := canvas.ops;
    }
  }
}
