/**
 * How a line string's stroke is chosen (`LineStringRenderer`): which pens are drawn, in
 * which order, and the parameters of the Skia paint built for each. The path geometry and
 * the canvas are not modelled; a draw is recorded as the paint it uses.
 */
module LineStrings {
  import opened Wrappers
  import opened Styles

  /** The parts of a vector style a line string is drawn with. */
  datatype VectorStyle = VectorStyle(line: Option<Pen>, outline: Option<Pen>)

  /** The dash effect `PenStyle.ToSkia(width, dashArray, dashOffset)` builds; its contents are not modelled. */
  datatype PathEffect = DashEffect(style: PenStyle, width: real, dashArray: Option<seq<real>>, dashOffset: real)

  /** The Skia paint parameters `CreateSkPaint` sets; caps and joins keep the pen's enumeration value. */
  datatype StrokePaint = StrokePaint(
    antialias: bool,
    isStroke: bool,
    strokeWidth: real,
    color: SkiaColor,
    strokeCap: PenStrokeCap,
    strokeJoin: StrokeJoin,
    strokeMiter: real,
    pathEffect: Option<PathEffect>)

  /** One `DrawPath`: the line width the path was built for (its cache key) and the paint. */
  datatype PathDraw = DrawPath(pathLineWidth: real, paint: StrokePaint)

  /**
   * The paint for a pen and an optional explicit width. The width falls back from the
   * explicit one to the pen's, then to 1; without a pen every parameter takes its default.
   */
  function CreateSkPaint(pen: Option<Pen>, width: Option<real>, opacity: real): (p: StrokePaint)
    ensures p.antialias && p.isStroke
    ensures width.Some? ==> p.strokeWidth == width.value
    ensures width.None? && pen.Some? ==> p.strokeWidth == pen.value.width
    ensures width.None? && pen.None? ==> p.strokeWidth == 1.0
    ensures pen.None? ==>
      p.color == SkiaColor(DefaultColor, Some(opacity)) && p.strokeCap == Butt &&
      p.strokeJoin == StrokeJoin.Miter && p.strokeMiter == 4.0 && p.pathEffect == None
    ensures pen.Some? ==>
      p.color == SkiaColor(pen.value.color, Some(opacity)) && p.strokeCap == pen.value.penStrokeCap &&
      p.strokeJoin == pen.value.strokeJoin && p.strokeMiter == pen.value.strokeMiterLimit
    ensures p.pathEffect.Some? <==> pen.Some? && pen.value.penStyle != Solid
    ensures p.pathEffect.Some? ==>
      p.pathEffect.value == DashEffect(pen.value.penStyle, p.strokeWidth, pen.value.dashArray, pen.value.dashOffset)
  {
    var lineWidth := if pen.Some? then width.GetOr(pen.value.width) else width.GetOr(1.0);
    var lineColor := if pen.Some? then pen.value.color else DefaultColor;
    var strokeCap := if pen.Some? then pen.value.penStrokeCap else Butt;
    var strokeJoin := if pen.Some? then pen.value.strokeJoin else StrokeJoin.Miter;
    var strokeMiterLimit := if pen.Some? then pen.value.strokeMiterLimit else 4.0;
    var strokeStyle := if pen.Some? then pen.value.penStyle else Solid;
    var dashArray := if pen.Some? then pen.value.dashArray else None;
    var dashOffset := if pen.Some? then pen.value.dashOffset else 0.0;
    StrokePaint(
      true, true, lineWidth, SkiaColor(lineColor, Some(opacity)), strokeCap, strokeJoin, strokeMiterLimit,
      if strokeStyle != Solid then Some(DashEffect(strokeStyle, lineWidth, dashArray, dashOffset)) else None)
  }

  /**
   * The outline's stroke width: the outline width on both sides of the line. `??` applies
   * to the whole nullable sum, so without a line pen the width is 1.
   */
  function OutlineWidth(outline: Pen, line: Option<Pen>): (w: real)
    ensures line.None? ==> w == 1.0
    ensures line.Some? ==> w - line.value.width == 2.0 * outline.width
  {
    match line
    case None => 1.0
    case Some(l) => outline.width + outline.width + l.width
  }

  /** The line width the path is built for: the line pen's, or 1 without one. */
  function PathLineWidth(style: VectorStyle): real
  {
    match style.line
    case None => 1.0
    case Some(l) => l.width
  }

  /**
   * The draws for one line string. `isVisible` is the extension `Pen?.IsVisible()`, which
   * is not part of this model.
   */
  function Draw(vectorStyle: Option<VectorStyle>, opacity: real, isVisible: Option<Pen> -> bool): (draws: seq<PathDraw>)
    ensures vectorStyle.None? ==> draws == []
    ensures vectorStyle.Some? && !isVisible(vectorStyle.value.line) ==> draws == []
    ensures vectorStyle.Some? && isVisible(vectorStyle.value.line) ==> 1 <= |draws| <= 2
    ensures |draws| == 2 <==>
      vectorStyle.Some? && isVisible(vectorStyle.value.line) &&
      vectorStyle.value.outline.Some? && vectorStyle.value.outline.value.width > 0.0
    ensures draws != [] ==>
      draws[|draws| - 1].paint == CreateSkPaint(vectorStyle.value.line, None, opacity)
    ensures |draws| == 2 ==>
      draws[0].paint ==
        CreateSkPaint(vectorStyle.value.outline, Some(OutlineWidth(vectorStyle.value.outline.value, vectorStyle.value.line)), opacity)
    ensures forall i :: 0 <= i < |draws| ==> draws[i].pathLineWidth == PathLineWidth(vectorStyle.value)
  {
    match vectorStyle
    case None => []
    case Some(style) =>
      var lineWidth := PathLineWidth(style);
      if !isVisible(style.line) then []
      else
        var outline :=
          if style.outline.Some? && style.outline.value.width > 0.0 then
            var width := OutlineWidth(style.outline.value, style.line);
            [DrawPath(lineWidth, CreateSkPaint(style.outline, Some(width), opacity))]
          else [];
        outline + [DrawPath(lineWidth, CreateSkPaint(style.line, None, opacity))]
  }

  /**
   * With both pens present the outline is stroked first and wider than the line by twice
   * the outline width, so it shows on both sides of the line.
   */
  lemma OutlineIsDrawnUnderTheLine(style: VectorStyle, opacity: real, isVisible: Option<Pen> -> bool)
    requires isVisible(style.line)
    requires style.line.Some? && style.outline.Some? && style.outline.value.width > 0.0
    ensures var draws := Draw(Some(style), opacity, isVisible);
            |draws| == 2 &&
            draws[0].paint.strokeWidth == draws[1].paint.strokeWidth + 2.0 * style.outline.value.width &&
            draws[0].paint.strokeWidth > draws[1].paint.strokeWidth
  {
  }
}
