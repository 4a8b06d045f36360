/** The retained drawing commands: an RGB colour, the closed set of command
    kinds, the per-kind payloads with their default values, and the command
    record itself, which (as in the library) carries every payload and a tag
    saying which one is live. */
module PlotCommands {

  type Byte = x: int | 0 <= x < 256

  /** An RGB triple. */
  datatype Color = Color(r: Byte, g: Byte, b: Byte)

  const Black := Color(0, 0, 0)
  const White := Color(255, 255, 255)
  const Red := Color(255, 0, 0)
  const Green := Color(0, 255, 0)
  const Blue := Color(0, 0, 255)
  const Cyan := Color(0, 255, 255)
  const Magenta := Color(255, 0, 255)
  const Yellow := Color(255, 255, 0)

  /** The kind of a retained command. */
  datatype CmdType =
    | Line         // polyline
    | Scatter      // unconnected point markers
    | Text         // text annotation
    | Circle       // filled or outlined circle
    | RectLTRB     // rectangle from two corners
    | RectXYWH     // rectangle from corner, width and height
    | RotatedRect  // rotated rectangle
    | Polygon      // arbitrary polygon
    | Ellipse      // filled or outlined ellipse

  /** Every command kind, in declaration order. */
  const AllCmdTypes: seq<CmdType> :=
    [Line, Scatter, Text, Circle, RectLTRB, RectXYWH, RotatedRect, Polygon, Ellipse]

  /** The set of command kinds is closed: nine distinct kinds, and every
      command kind is one of them. */
  lemma CmdTypeIsClosed(t: CmdType)
    ensures t in AllCmdTypes
    ensures |AllCmdTypes| == 9
    ensures forall i, j :: 0 <= i < j < |AllCmdTypes| ==> AllCmdTypes[i] != AllCmdTypes[j]
  {
  }

  datatype LineData = LineData(x: seq<real>, y: seq<real>, thickness: real)
  const DefaultLineData := LineData([], [], 1.0)

  datatype ScatterData = ScatterData(x: seq<real>, y: seq<real>, markerSize: real)
  const DefaultScatterData := ScatterData([], [], 4.0)

  datatype HAlign = Left | HCenter | Right
  datatype VAlign = Baseline | VCenter | Top | Bottom

  datatype TextData = TextData(
    x: real, y: real,
    text: string,
    fontScale: real,
    thickness: int,
    halign: HAlign,
    valign: VAlign)
  const DefaultTextData := TextData(0.0, 0.0, "", 0.4, 1, Left, Baseline)

  /** Stroke and fill of a filled shape; `fillAlpha` 0 is transparent, 1 opaque. */
  datatype ShapeStyle = ShapeStyle(
    lineColor: Color,
    thickness: real,
    fillColor: Color,
    fillAlpha: real)
  const DefaultShapeStyle := ShapeStyle(Black, 1.0, Color(255, 255, 255), 1.0)

  datatype CircleData = CircleData(cx: real, cy: real, radius: real, style: ShapeStyle)
  const DefaultCircleData := CircleData(0.0, 0.0, 1.0, DefaultShapeStyle)

  // The payloads below have coordinates without a default initialiser in the
  // library; they are only read for a command of the matching kind, which
  // always assigns them, so 0 stands for "not set".
  datatype RectData = RectData(x0: real, y0: real, x1: real, y1: real, style: ShapeStyle)
  const DefaultRectData := RectData(0.0, 0.0, 0.0, 0.0, DefaultShapeStyle)

  datatype RotatedRectData = RotatedRectData(
    cx: real, cy: real, width: real, height: real, angleDeg: real, style: ShapeStyle)
  const DefaultRotatedRectData := RotatedRectData(0.0, 0.0, 0.0, 0.0, 0.0, DefaultShapeStyle)

  datatype PolygonData = PolygonData(x: seq<real>, y: seq<real>, style: ShapeStyle)
  const DefaultPolygonData := PolygonData([], [], DefaultShapeStyle)

  datatype EllipseData = EllipseData(
    cx: real, cy: real, width: real, height: real, angleDeg: real, style: ShapeStyle)
  const DefaultEllipseData := EllipseData(0.0, 0.0, 0.0, 0.0, 0.0, DefaultShapeStyle)

  /** One retained command: `kind` selects which payload is live. */
  datatype PlotCommand = PlotCommand(
    kind: CmdType,
    color: Color,
    legendLabel: string,
    line: LineData,
    scatter: ScatterData,
    txt: TextData,
    circle: CircleData,
    rect: RectData,
    rotRect: RotatedRectData,
    polygon: PolygonData,
    ellipse: EllipseData)

  /** A default-initialised command: a line, blue, with no legend label. */
  const DefaultCommand := PlotCommand(
    Line, Blue, "",
    DefaultLineData, DefaultScatterData, DefaultTextData, DefaultCircleData,
    DefaultRectData, DefaultRotatedRectData, DefaultPolygonData, DefaultEllipseData)

  /** The renderer walks the x sequence of a line or scatter command and
      reads the y value at the same index, so every x needs a y; a polygon
      is only stored with equally long, non-empty sequences. */
  predicate WellFormed(c: PlotCommand) {
    && (c.kind == Line ==> |c.line.x| <= |c.line.y|)
    && (c.kind == Scatter ==> |c.scatter.x| <= |c.scatter.y|)
    && (c.kind == Polygon ==> |c.polygon.x| == |c.polygon.y| && |c.polygon.x| > 0)
  }
}
