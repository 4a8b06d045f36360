/** Pixel layout of a figure: the fixed margins around the plot rectangle,
    the data-to-pixel mappers of the current and the older figure, text
    anchoring by alignment, and the legend anchor table. Pixels are `int`
    with y growing downwards; C++ truncating casts and integer division are
    written out with `Trunc` and `CDiv`. */
module Layout {
  import opened Numerics
  import opened PlotCommands
  import opened AxesModel

  const MarginLeft: int := 60
  const MarginRight: int := 20
  const MarginTop: int := 40
  const MarginBottom: int := 60
  /** Length of a tick mark. */
  const TickLen: int := 5
  /** Offset of the title from the canvas corner. */
  const TitleMargin: int := 50
  /** The older mapper's guard added to each span, 1e-12. */
  const SpanGuard: real := 0.000000000001

  datatype Point = Point(x: int, y: int)

  /** Width of the plot rectangle inside a canvas `width` pixels wide. */
  function PlotWidth(width: int): int {
    width - MarginLeft - MarginRight
  }

  /** Height of the plot rectangle inside a canvas `height` pixels high. */
  function PlotHeight(height: int): int {
    height - MarginTop - MarginBottom
  }

  /** The pixel point lies in the plot rectangle, borders included. */
  predicate InPlot(p: Point, width: int, height: int) {
    MarginLeft <= p.x <= width - MarginRight && MarginTop <= p.y <= height - MarginBottom
  }

  /* ---------------------------------------------------------------- */
  /* Rounding a fraction of the plot extent to a pixel offset          */
  /* ---------------------------------------------------------------- */

  /** `static_cast<int>(f * extent + 0.5)`: rounds half up for a
      non-negative product, but truncates toward zero below zero. */
  function Offset(f: real, extent: int): int {
    Trunc(f * extent as real + 0.5)
  }

  lemma OffsetEnds(extent: int)
    requires extent >= 0
    ensures Offset(0.0, extent) == 0 && Offset(1.0, extent) == extent
  {
  }

  lemma OffsetMonotone(f: real, g: real, extent: int)
    requires f <= g && extent >= 0
    ensures Offset(f, extent) <= Offset(g, extent)
  {
    MulLeMono(f, g, extent as real);
    TruncMonotone(f * extent as real + 0.5, g * extent as real + 0.5);
  }

  /** A fraction in [0, 1] lands on the extent, rounded to the nearest pixel. */
  lemma OffsetNearest(f: real, extent: int)
    requires 0.0 <= f <= 1.0 && extent >= 0
    ensures 0 <= Offset(f, extent) <= extent
    ensures f * extent as real - 0.5 < Offset(f, extent) as real <= f * extent as real + 0.5
  {
    MulLeMono(0.0, f, extent as real);
    MulLeMono(f, 1.0, extent as real);
    assert f * extent as real <= extent as real;
  }

  /** Position of `v` along [lo, hi] as a fraction of the span. */
  function Frac(v: real, lo: real, hi: real): real
    requires hi != lo
  {
    (v - lo) / (hi - lo)
  }

  lemma FracInUnit(v: real, lo: real, hi: real)
    requires lo < hi && lo <= v <= hi
    ensures 0.0 <= Frac(v, lo, hi) <= 1.0
  {
    DivLeMono(0.0, v - lo, hi - lo);
    DivLeMono(v - lo, hi - lo, hi - lo);
  }

  lemma FracMonotone(v: real, w: real, lo: real, hi: real)
    requires lo < hi && v <= w
    ensures Frac(v, lo, hi) <= Frac(w, lo, hi)
  {
    DivLeMono(v - lo, w - lo, hi - lo);
  }

  /* ---------------------------------------------------------------- */
  /* The current mapper                                                */
  /* ---------------------------------------------------------------- */

  /** `data_to_pixel`: the fraction of each span scaled to the plot
      rectangle and rounded; y is flipped so that `ymax` is at the top. */
  function DataToPixel(l: Limits, width: int, height: int, x: real, y: real): Point
    requires NonzeroSpans(l)
  {
    Point(MarginLeft + Offset(Frac(x, l.xmin, l.xmax), PlotWidth(width)),
          height - MarginBottom - Offset(Frac(y, l.ymin, l.ymax), PlotHeight(height)))
  }

  /** The corners of the limits map to the corners of the plot rectangle:
      (xmin, ymin) to the bottom left, (xmax, ymax) to the top right. */
  lemma DataToPixelCorners(l: Limits, width: int, height: int)
    requires NonzeroSpans(l)
    requires PlotWidth(width) >= 0 && PlotHeight(height) >= 0
    ensures DataToPixel(l, width, height, l.xmin, l.ymin) == Point(MarginLeft, height - MarginBottom)
    ensures DataToPixel(l, width, height, l.xmax, l.ymax) == Point(width - MarginRight, MarginTop)
  {
    DivSelf(l.xmax - l.xmin);
    DivSelf(l.ymax - l.ymin);
    assert Frac(l.xmin, l.xmin, l.xmax) == 0.0 && Frac(l.xmax, l.xmin, l.xmax) == 1.0;
    assert Frac(l.ymin, l.ymin, l.ymax) == 0.0 && Frac(l.ymax, l.ymin, l.ymax) == 1.0;
    OffsetEnds(PlotWidth(width));
    OffsetEnds(PlotHeight(height));
  }

  /** Moving right in data never moves left in pixels; moving up in data
      never moves down on the screen. */
  lemma DataToPixelMonotone(l: Limits, width: int, height: int, x1: real, y1: real, x2: real, y2: real)
    requires l.xmin < l.xmax && l.ymin < l.ymax
    requires PlotWidth(width) >= 0 && PlotHeight(height) >= 0
    requires x1 <= x2 && y1 <= y2
    ensures DataToPixel(l, width, height, x1, y1).x <= DataToPixel(l, width, height, x2, y2).x
    ensures DataToPixel(l, width, height, x1, y1).y >= DataToPixel(l, width, height, x2, y2).y
  {
    FracMonotone(x1, x2, l.xmin, l.xmax);
    FracMonotone(y1, y2, l.ymin, l.ymax);
    OffsetMonotone(Frac(x1, l.xmin, l.xmax), Frac(x2, l.xmin, l.xmax), PlotWidth(width));
    OffsetMonotone(Frac(y1, l.ymin, l.ymax), Frac(y2, l.ymin, l.ymax), PlotHeight(height));
  }

  /** A point inside the limits lands inside the plot rectangle, on the
      pixel nearest to its exact position. */
  lemma DataToPixelInPlot(l: Limits, width: int, height: int, x: real, y: real)
    requires l.xmin < l.xmax && l.ymin < l.ymax
    requires PlotWidth(width) >= 0 && PlotHeight(height) >= 0
    requires l.xmin <= x <= l.xmax && l.ymin <= y <= l.ymax
    ensures InPlot(DataToPixel(l, width, height, x, y), width, height)
    ensures var ex := MarginLeft as real + Frac(x, l.xmin, l.xmax) * PlotWidth(width) as real;
      ex - 0.5 < DataToPixel(l, width, height, x, y).x as real <= ex + 0.5
    ensures var ey := (height - MarginBottom) as real - Frac(y, l.ymin, l.ymax) * PlotHeight(height) as real;
      ey - 0.5 <= DataToPixel(l, width, height, x, y).y as real < ey + 0.5
  {
    FracInUnit(x, l.xmin, l.xmax);
    FracInUnit(y, l.ymin, l.ymax);
    OffsetNearest(Frac(x, l.xmin, l.xmax), PlotWidth(width));
    OffsetNearest(Frac(y, l.ymin, l.ymax), PlotHeight(height));
  }

  /* ---------------------------------------------------------------- */
  /* The older mapper                                                  */
  /* ---------------------------------------------------------------- */

  /** The older mapper's divisors, each span plus 1e-12, are non-zero. */
  predicate LegacyMappable(l: Limits) {
    l.xmax - l.xmin + SpanGuard != 0.0 && l.ymax - l.ymin + SpanGuard != 0.0
  }

  function LegacyFrac(v: real, lo: real, hi: real): real
    requires hi - lo + SpanGuard != 0.0
  {
    (v - lo) / (hi - lo + SpanGuard)
  }

  /** The older `data_to_pixel`: as the current one, with 1e-12 added to
      each span before dividing. */
  function LegacyDataToPixel(l: Limits, width: int, height: int, x: real, y: real): Point
    requires LegacyMappable(l)
  {
    Point(MarginLeft + Offset(LegacyFrac(x, l.xmin, l.xmax), PlotWidth(width)),
          height - MarginBottom - Offset(LegacyFrac(y, l.ymin, l.ymax), PlotHeight(height)))
  }

  /** Ordered limits, a zero span included, are always mappable. */
  lemma LegacyMappableWhenOrdered(l: Limits)
    requires l.xmin <= l.xmax && l.ymin <= l.ymax
    ensures LegacyMappable(l)
  {
  }

  /** With ordered limits, even of zero span, a point inside them lands in
      the plot rectangle. */
  lemma LegacyDataToPixelInPlot(l: Limits, width: int, height: int, x: real, y: real)
    requires l.xmin <= l.xmax && l.ymin <= l.ymax
    requires PlotWidth(width) >= 0 && PlotHeight(height) >= 0
    requires l.xmin <= x <= l.xmax && l.ymin <= y <= l.ymax
    ensures LegacyMappable(l)
    ensures InPlot(LegacyDataToPixel(l, width, height, x, y), width, height)
  {
    var fx := LegacyFrac(x, l.xmin, l.xmax);
    var fy := LegacyFrac(y, l.ymin, l.ymax);
    DivLeMono(0.0, x - l.xmin, l.xmax - l.xmin + SpanGuard);
    DivLeMono(x - l.xmin, l.xmax - l.xmin + SpanGuard, l.xmax - l.xmin + SpanGuard);
    DivLeMono(0.0, y - l.ymin, l.ymax - l.ymin + SpanGuard);
    DivLeMono(y - l.ymin, l.ymax - l.ymin + SpanGuard, l.ymax - l.ymin + SpanGuard);
    OffsetNearest(fx, PlotWidth(width));
    OffsetNearest(fy, PlotHeight(height));
  }

  /** The lower-left corner still maps to the lower-left pixel corner. */
  lemma LegacyDataToPixelOrigin(l: Limits, width: int, height: int)
    requires LegacyMappable(l)
    ensures LegacyDataToPixel(l, width, height, l.xmin, l.ymin) == Point(MarginLeft, height - MarginBottom)
  {
    assert LegacyFrac(l.xmin, l.xmin, l.xmax) == 0.0 && LegacyFrac(l.ymin, l.ymin, l.ymax) == 0.0;
  }

  /* ---------------------------------------------------------------- */
  /* Text anchoring                                                    */
  /* ---------------------------------------------------------------- */

  /** What `cv::getTextSize` reports: width and height above the baseline
      in pixels, and the baseline depth below it. */
  datatype TextSize = TextSize(width: int, height: int, baseline: int)

  /** A text measurement: text, font scale and thickness to size. */
  type Measure = (string, real, int) -> TextSize

  /** `anchored_text_pos`: the baseline origin of the text placed so that
      the anchor pixel `p` is at the requested edge or centre of its box.
      The box spans [r.x, r.x + width] and [r.y - height, r.y + baseline]. */
  function AnchoredTextPos(p: Point, sz: TextSize, ha: HAlign, va: VAlign): (r: Point)
    ensures ha == Left ==> r.x == p.x
    ensures ha == HCenter && sz.width >= 0 ==> sz.width - 1 <= 2 * (p.x - r.x) <= sz.width
    ensures ha == Right ==> r.x + sz.width == p.x
    ensures va == Baseline ==> r.y == p.y
    ensures va == VCenter && sz.height >= 0 ==> sz.height - 1 <= 2 * (r.y - p.y) <= sz.height
    ensures va == Top ==> r.y - sz.height == p.y
    ensures va == Bottom ==> r.y + sz.baseline == p.y
  {
    var x := match ha
      case Left => p.x
      case HCenter => p.x - CDiv(sz.width, 2)
      case Right => p.x - sz.width;
    var y := match va
      case Baseline => p.y
      case VCenter => p.y + CDiv(sz.height, 2)
      case Top => p.y + sz.height
      case Bottom => p.y - sz.baseline;
    Point(x, y)
  }

  /* ---------------------------------------------------------------- */
  /* Legend anchor                                                     */
  /* ---------------------------------------------------------------- */

  /** The nine documented legend locations. */
  const LegendKeywords: seq<string> :=
    ["northWest", "north", "northEast", "west", "center", "east", "southWest", "south", "southEast"]

  /** `legend_anchor`: the top-left corner of a `boxW` x `boxH` legend box
      for a location keyword; an unknown keyword means south-east. */
  function LegendAnchor(loc: string, width: int, height: int, boxW: int, boxH: int): Point {
    var left := MarginLeft;
    var right := width - MarginRight - boxW;
    var top := MarginTop;
    var bottom := height - MarginBottom - boxH;
    var hmid := left + CDiv(PlotWidth(width) - boxW, 2);
    var vmid := top + CDiv(PlotHeight(height) - boxH, 2);
    if loc == "northWest" then Point(left, top)
    else if loc == "north" then Point(hmid, top)
    else if loc == "northEast" then Point(right, top)
    else if loc == "west" then Point(left, vmid)
    else if loc == "center" then Point(hmid, vmid)
    else if loc == "east" then Point(right, vmid)
    else if loc == "southWest" then Point(left, bottom)
    else if loc == "south" then Point(hmid, bottom)
    else Point(right, bottom)
  }

  /** An unknown keyword places the legend as "southEast" does. */
  lemma LegendAnchorFallback(loc: string, width: int, height: int, boxW: int, boxH: int)
    requires loc !in LegendKeywords
    ensures LegendAnchor(loc, width, height, boxW, boxH) == LegendAnchor("southEast", width, height, boxW, boxH)
  {
  }

  /** When the box fits the plot rectangle, every location keeps the whole
      box inside it; west keywords touch its left edge, east ones (and the
      fallback) its right edge, north ones its top, south ones its bottom,
      and the middle ones centre it to within half a pixel. */
  lemma LegendAnchorFits(loc: string, width: int, height: int, boxW: int, boxH: int)
    requires 0 <= boxW <= PlotWidth(width) && 0 <= boxH <= PlotHeight(height)
    ensures var p := LegendAnchor(loc, width, height, boxW, boxH);
      && MarginLeft <= p.x && p.x + boxW <= width - MarginRight
      && MarginTop <= p.y && p.y + boxH <= height - MarginBottom
    ensures var p := LegendAnchor(loc, width, height, boxW, boxH);
      && (loc in ["northWest", "west", "southWest"] ==> p.x == MarginLeft)
      && (loc in ["north", "center", "south"] ==>
            0 <= (width - MarginRight - (p.x + boxW)) - (p.x - MarginLeft) <= 1)
      && (loc !in ["northWest", "west", "southWest", "north", "center", "south"] ==>
            p.x + boxW == width - MarginRight)
      && (loc in ["northWest", "north", "northEast"] ==> p.y == MarginTop)
      && (loc in ["west", "center", "east"] ==>
            0 <= (height - MarginBottom - (p.y + boxH)) - (p.y - MarginTop) <= 1)
      && (loc !in ["northWest", "north", "northEast", "west", "center", "east"] ==>
            p.y + boxH == height - MarginBottom)
  {
  }
}
