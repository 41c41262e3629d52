/**
 * The style values the renderers read: colours, brushes and pens. Only the members the
 * renderers use are modelled. Converting a colour for Skia is a conversion this model does
 * not look into, so a converted colour is kept as the pair it was made from.
 */
module Styles {
  import opened Wrappers

  /** A Mapsui colour. `DefaultColor` is what `new Color()` yields; its components are not modelled. */
  datatype Color = Rgba(r: int, g: int, b: int, a: int) | DefaultColor

  /** Mapsui's fully transparent colour, white with alpha 0. */
  const Transparent: Color := Rgba(255, 255, 255, 0)

  /** `Color.ToSkia(opacity)` (with an opacity) or `Color.ToSkia()` (without one). */
  datatype SkiaColor = SkiaColor(color: Color, opacity: Option<real>)

  /** A fill: its colour may be unset. */
  datatype Brush = Brush(color: Option<Color>)

  /** The dash pattern of a pen; every member other than `Solid` draws a pattern. */
  datatype PenStyle = Solid | Patterned(code: int)

  datatype PenStrokeCap = Butt | Round | Square

  datatype StrokeJoin = Miter | Round | Bevel

  /** A pen: outline, line or halo. */
  datatype Pen = Pen(
    width: real,
    color: Color,
    penStyle: PenStyle,
    penStrokeCap: PenStrokeCap,
    strokeJoin: StrokeJoin,
    strokeMiterLimit: real,
    dashArray: Option<seq<real>>,
    dashOffset: real)
}
