/** The drawing primitives handed to a renderer: device-space geometry and
    concrete style values, with their `Default` values. */
module Primitives {
  import opened Wrappers

  /** Rust's `u8`. */
  type U8 = n: int | 0 <= n <= 255

  /** A device-space position; each `f64` coordinate is modelled as a `real`. */
  datatype Point = Point(x: real, y: real)

  /** An RGBA colour, one byte per channel. */
  datatype Color = Color(r: U8, g: U8, b: U8, a: U8)

  /** An outline style: an optional colour and a line width. */
  datatype Stroke = Stroke(color: Option<Color>, width: real)

  /** One resolved drawing instruction. No variant refers back to data or aesthetics. */
  datatype DrawCommand =
    | Circle(position: Point, radius: real, fill: Option<Color>, stroke: Option<Stroke>)
    | Line(start: Point, end: Point, stroke: Option<Stroke>)
      /** `position` is the top-left corner. */
    | Rectangle(position: Point, width: real, height: real, fill: Option<Color>, stroke: Option<Stroke>)
    | Polygon(points: seq<Point>, fill: Option<Color>, stroke: Option<Stroke>)
    | Text(position: Point, content: string, fontSize: real, color: Option<Color>)

  predicate Black(c: Color) {
    c.r == 0 && c.g == 0 && c.b == 0
  }

  predicate Opaque(c: Color) {
    c.a == 255
  }

  /** `Color::default()`: opaque black. */
  function DefaultColor(): (c: Color)
    ensures Black(c) && Opaque(c)
  {
    Color(0, 0, 0, 255)
  }

  /** `Stroke::default()`: a 2-unit line in the default colour. */
  function DefaultStroke(): (s: Stroke)
    ensures s.color == Some(DefaultColor())
    ensures s.width == 2.0
  {
    Stroke(Some(DefaultColor()), 2.0)
  }

  /** `Point::default()`: the origin. */
  function DefaultPoint(): (p: Point)
    ensures p.x == 0.0 && p.y == 0.0
  {
    Point(0.0, 0.0)
  }

  /** Opaque black is exactly the default colour. */
  lemma DefaultColorCharacterized(c: Color)
    ensures Black(c) && Opaque(c) <==> c == DefaultColor()
  {
  }

  /** Every channel of every colour is a byte. */
  lemma ChannelsAreBytes(c: Color)
    ensures 0 <= c.r <= 255 && 0 <= c.g <= 255 && 0 <= c.b <= 255 && 0 <= c.a <= 255
  {
  }

  /** A draw command is exactly one of the five kinds. */
  lemma ExactlyOneKind(d: DrawCommand)
    ensures (if d.Circle? then 1 else 0) + (if d.Line? then 1 else 0) + (if d.Rectangle? then 1 else 0)
            + (if d.Polygon? then 1 else 0) + (if d.Text? then 1 else 0) == 1
  {
  }
}
