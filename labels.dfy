/**
 * Label rendering (`LabelStyleRenderer`): measuring a label, wrapping or truncating it,
 * placing its box against the anchor, and the draws it issues, in the order background,
 * halo, text. Text measurement is given by the font; a draw is recorded in a trace.
 *
 * Boxes use screen coordinates: `top` is the smaller y.
 */
module Labels {
  import opened Wrappers
  import opened Numerics
  import opened Styles
  import opened LineBreaking
  import opened Truncation
  import Points
  import Rects

  // ---------------------------------------------------------------------------------
  // Style, paints, measurement and draws

  /** How text that is too wide is broken; `OtherLineBreakMode` stands for every other member. */
  datatype LineBreakMode =
    | CharacterWrap
    | WordWrap
    | HeadTruncation
    | TailTruncation
    | MiddleTruncation
    | OtherLineBreakMode(code: int)

  /** The horizontal alignment of a label; a value outside the enumeration is kept with its code. */
  datatype HorizontalAlignmentEnum = Left | Center | Right | UnknownHorizontal(code: int)

  /** The vertical alignment of a label; a value outside the enumeration is kept with its code. */
  datatype VerticalAlignmentEnum = Top | Center | Bottom | UnknownVertical(code: int)

  /** The members of a label style the renderer reads (its font is described by the `FontMetrics`). */
  datatype LabelStyle = LabelStyle(
    foreColor: Color,
    backColor: Option<Brush>,
    halo: Option<Pen>,
    maxWidth: real,
    wordWrap: LineBreakMode,
    lineHeight: real,
    horizontalAlignment: HorizontalAlignmentEnum,
    verticalAlignment: VerticalAlignmentEnum,
    cornerRounding: real,
    borderThickness: real,
    borderColor: Color)

  /** An `SKRect`. */
  datatype Box = Box(left: real, top: real, right: real, bottom: real) {
    function Width(): real { right - left }
    function Height(): real { bottom - top }

    /** `SKRect.Offset`: the box moved by `(dx, dy)`. */
    function Offset(dx: real, dy: real): (b: Box)
      ensures b.Width() == Width() && b.Height() == Height()
      ensures b.left == left + dx && b.top == top + dy
    {
      Box(left + dx, top + dy, right + dx, bottom + dy)
    }

    /** `SKRect.Inflate`: the box grown by `dx` on the left and right and `dy` at the top and bottom. */
    function Inflate(dx: real, dy: real): (b: Box)
      ensures b.Width() == Width() + 2.0 * dx && b.Height() == Height() + 2.0 * dy
      ensures b.left == left - dx && b.top == top - dy
    {
      Box(left - dx, top - dy, right + dx, bottom + dy)
    }
  }

  /** A box of the given size at the origin. */
  function SizedBox(width: real, height: real): (b: Box)
    ensures b.left == 0.0 && b.top == 0.0 && b.Width() == width && b.Height() == height
  {
    Box(0.0, 0.0, width, height)
  }

  datatype PaintStyle = Fill | Stroke | StrokeAndFill

  /** An `SKPaint`; a `None` member is left at Skia's default. */
  datatype Paint = Paint(color: SkiaColor, antialias: bool, style: Option<PaintStyle>, strokeWidth: Option<real>)

  /**
   * The measurements the renderer takes from the `SKFont` built from the style's font:
   * `MeasureText(s, paint)` (the advance width), `MeasureText(s, out rect, paint)` (the
   * bounds, relative to the origin on the baseline) and `Spacing` (the line spacing).
   */
  datatype FontMetrics = FontMetrics(advance: (string, Paint) -> real, bounds: (string, Paint) -> Box, spacing: real)

  /** Advance widths measured with one paint. */
  function AdvanceWith(metrics: FontMetrics, paint: Paint): string -> real
  {
    s => metrics.advance(s, paint)
  }

  /** Text bounds measured with one paint. */
  function BoundsWith(metrics: FontMetrics, paint: Paint): string -> Box
  {
    s => metrics.bounds(s, paint)
  }

  /** What a draw paints: the background, its border, the halo around the text, the text. */
  datatype Role = Background | Border | Halo | Foreground

  /** One canvas call: `DrawRoundRect` or `DrawText` (left-aligned at `(x, y)` on the baseline). */
  datatype DrawOp =
    | RoundRect(role: Role, rect: Box, radius: real, paint: Paint)
    | Text(role: Role, text: string, x: real, y: real, paint: Paint)

  /** `CreatePaint((foreColor, opacity))`: an antialiased fill in the colour at the layer opacity. */
  function CreatePaint(foreColor: Color, layerOpacity: real): (p: Paint)
    ensures p.color == SkiaColor(foreColor, Some(layerOpacity)) && p.antialias && p.style == Some(Fill)
  {
    Paint(SkiaColor(foreColor, Some(layerOpacity)), true, Some(Fill), None)
  }

  /** `CreatePaint` with a paint style and a stroke width set on top. */
  function CreateStrokedPaint(foreColor: Color, layerOpacity: real, paintStyle: PaintStyle, strokeWidth: real): (p: Paint)
    ensures p.style == Some(paintStyle) && p.strokeWidth == Some(strokeWidth)
    ensures p.color == CreatePaint(foreColor, layerOpacity).color && p.antialias == CreatePaint(foreColor, layerOpacity).antialias
  {
    CreatePaint(foreColor, layerOpacity).(style := Some(paintStyle), strokeWidth := Some(strokeWidth))
  }

  /** `CreateHaloPaintHolder`: the halo is stroked and filled, twice the pen width, fully opaque. */
  function HaloPaint(halo: Pen): (p: Paint)
    ensures p.style == Some(StrokeAndFill)
    ensures p.strokeWidth == Some(2.0 * halo.width)
    ensures p.color == SkiaColor(halo.color, Some(1.0)) && p.antialias
  {
    CreateStrokedPaint(halo.color, 1.0, StrokeAndFill, halo.width * 2.0)
  }

  // ---------------------------------------------------------------------------------
  // Alignment and placement

  /** The share of the box left of the anchor: Left 0, Center one half, Right 1; anything else throws. */
  function CalcHorizontalAlignment(h: HorizontalAlignmentEnum): (r: Result<real>)
    ensures r.Err? <==> h.UnknownHorizontal?
    ensures r.Err? ==> r.error == ArgumentException
    ensures r.Ok? ==> 0.0 <= r.value <= 1.0
    ensures h == Left ==> r == Ok(0.0)
    ensures h == HorizontalAlignmentEnum.Center ==> r == Ok(0.5)
    ensures h == Right ==> r == Ok(1.0)
  {
    if h == HorizontalAlignmentEnum.Center then Ok(0.5)
    else if h == Left then Ok(0.0)
    else if h == Right then Ok(1.0)
    else Err(ArgumentException)
  }

  /** The share of the box above the anchor: Top 0, Center one half, Bottom 1; anything else throws. */
  function CalcVerticalAlignment(v: VerticalAlignmentEnum): (r: Result<real>)
    ensures r.Err? <==> v.UnknownVertical?
    ensures r.Err? ==> r.error == ArgumentException
    ensures r.Ok? ==> 0.0 <= r.value <= 1.0
    ensures v == Top ==> r == Ok(0.0)
    ensures v == VerticalAlignmentEnum.Center ==> r == Ok(0.5)
    ensures v == Bottom ==> r == Ok(1.0)
  {
    if v == VerticalAlignmentEnum.Center then Ok(0.5)
    else if v == Top then Ok(0.0)
    else if v == Bottom then Ok(1.0)
    else Err(ArgumentException)
  }

  /**
   * The box moved so that the anchor `(x, y)`, shifted by the style's offset, sits at the
   * alignment point. `offsetFor` is `style.Offset.Combine(style.RelativeOffset.GetAbsoluteOffset(w, h))`.
   */
  function Placed(box: Box, style: LabelStyle, x: real, y: real, offsetFor: (real, real) -> (real, real)): (r: Result<Box>)
    ensures r.Err? <==> style.horizontalAlignment.UnknownHorizontal? || style.verticalAlignment.UnknownVertical?
  {
    match CalcHorizontalAlignment(style.horizontalAlignment)
    case Err(e) => Err(e)
    case Ok(horizontalAlign) =>
      match CalcVerticalAlignment(style.verticalAlignment)
      case Err(e) => Err(e)
      case Ok(verticalAlign) =>
        var offset := offsetFor(box.Width(), box.Height());
        Ok(box.Offset(x - box.Width() * horizontalAlign + offset.0, y - box.Height() * verticalAlign + offset.1))
  }

  /**
   * Placement puts the offset anchor at the box's left edge, centre or right edge, and at
   * its top, middle or bottom, as the alignments say, and keeps the box's size.
   */
  lemma PlacementAnchorsTheBox(box: Box, style: LabelStyle, x: real, y: real, offsetFor: (real, real) -> (real, real))
    requires box.left == 0.0 && box.top == 0.0
    ensures var r := Placed(box, style, x, y, offsetFor);
            var offset := offsetFor(box.Width(), box.Height());
            var ax := x + offset.0;
            var ay := y + offset.1;
            r.Ok? ==>
              r.value.Width() == box.Width() && r.value.Height() == box.Height() &&
              (style.horizontalAlignment == Left ==> r.value.left == ax) &&
              (style.horizontalAlignment == Right ==> r.value.right == ax) &&
              (style.horizontalAlignment == HorizontalAlignmentEnum.Center ==> ax - r.value.left == r.value.right - ax) &&
              (style.verticalAlignment == Top ==> r.value.top == ay) &&
              (style.verticalAlignment == Bottom ==> r.value.bottom == ay) &&
              (style.verticalAlignment == VerticalAlignmentEnum.Center ==> ay - r.value.top == r.value.bottom - ay)
  {
  }

  /** The x at which a line of width `lineWidth` starts inside the box. */
  function LineX(h: HorizontalAlignmentEnum, box: Box, lineWidth: real): (x: real)
    ensures h == HorizontalAlignmentEnum.Center ==> x - box.left == box.right - (x + lineWidth)
    ensures h == Right ==> x + lineWidth == box.right
    ensures h != HorizontalAlignmentEnum.Center && h != Right ==> x == box.left
  {
    if h == HorizontalAlignmentEnum.Center then box.left + (box.Width() - lineWidth) * 0.5
    else if h == Right then box.left + box.Width() - lineWidth
    else box.left
  }

  // ---------------------------------------------------------------------------------
  // The draws

  /** `DrawBackground`: a rounded rectangle in the back colour, then a border if it is visible. */
  function DrawBackground(style: LabelStyle, rect: Box, layerOpacity: real): (ops: seq<DrawOp>)
    ensures |ops| <= 2
    ensures ops != [] <==> style.backColor.Some? && style.backColor.value.color.Some?
    ensures |ops| == 2 <==>
      style.backColor.Some? && style.backColor.value.color.Some? &&
      style.borderThickness > 0.0 && style.borderColor != Transparent
    ensures ops != [] ==>
      ops[0] == RoundRect(Background, rect, style.cornerRounding,
                          Paint(SkiaColor(style.backColor.value.color.value, Some(layerOpacity)), true, None, None))
    ensures |ops| == 2 ==>
      ops[1] == RoundRect(Border, rect, style.cornerRounding,
                          Paint(SkiaColor(style.borderColor, None), true, Some(Stroke), Some(style.borderThickness)))
  {
    var color := if style.backColor.Some? && style.backColor.value.color.Some?
                 then Some(SkiaColor(style.backColor.value.color.value, Some(layerOpacity))) else None;
    match color
    case None => []
    case Some(c) =>
      var rounding := style.cornerRounding;
      [RoundRect(Background, rect, rounding, Paint(c, true, None, None))] +
      if style.borderThickness > 0.0 && style.borderColor != Transparent then
        [RoundRect(Border, rect, rounding, Paint(SkiaColor(style.borderColor, None), true, Some(Stroke), Some(style.borderThickness)))]
      else []
  }

  /** One text draw per line, each at its aligned x and at the box top plus its baseline. */
  function LineDraws(role: Role, lines: seq<Line>, box: Box, h: HorizontalAlignmentEnum, paint: Paint): (ops: seq<DrawOp>)
    ensures |ops| == |lines|
    ensures forall i :: 0 <= i < |lines| ==>
              ops[i].Text? && ops[i].role == role && ops[i].paint == paint &&
              ops[i].text == lines[i].value && ops[i].y == box.top + lines[i].baseline
    ensures forall i :: 0 <= i < |lines| ==>
              (h == HorizontalAlignmentEnum.Center ==> ops[i].x - box.left == box.right - (ops[i].x + lines[i].width)) &&
              (h == Right ==> ops[i].x + lines[i].width == box.right) &&
              (h != HorizontalAlignmentEnum.Center && h != Right ==> ops[i].x == box.left)
  {
    seq(|lines|, i requires 0 <= i < |lines| =>
      Text(role, lines[i].value, LineX(h, box, lines[i].width), box.top + lines[i].baseline, paint))
  }

  /** A label after layout: its text, its lines if it was wrapped, and its box. */
  datatype Layout = Layout(text: string, lines: Option<seq<Line>>, box: Box)

  /** The text draws in one paint: the lines, or the whole text at the box's left on the baseline. */
  function TextDraws(role: Role, layout: Layout, box: Box, baseline: real, h: HorizontalAlignmentEnum, paint: Paint): (ops: seq<DrawOp>)
    ensures |ops| == (if layout.lines.Some? then |layout.lines.value| else 1)
    ensures forall i :: 0 <= i < |ops| ==> ops[i].Text? && ops[i].role == role && ops[i].paint == paint
    ensures layout.lines.Some? ==> ops == LineDraws(role, layout.lines.value, box, h, paint)
    ensures layout.lines.None? ==> ops[0].text == layout.text && ops[0].x == box.left && ops[0].y == box.top + baseline
  {
    match layout.lines
    case Some(ls) => LineDraws(role, ls, box, h, paint)
    case None => [Text(role, layout.text, box.left, box.top + baseline, paint)]
  }

  // ---------------------------------------------------------------------------------
  // Layout

  /** The line spacing and the pixel budget: measured only when `MaxWidth > 0` or the text has a newline. */
  function EmHeight(style: LabelStyle, metrics: FontMetrics, hasNewline: bool): real
  {
    if style.maxWidth > 0.0 || hasNewline then metrics.spacing else 0.0
  }

  /** The distance between baselines: the style's line height in ems times the font spacing. */
  function LineStep(style: LabelStyle, metrics: FontMetrics, hasNewline: bool): real
  {
    style.lineHeight * EmHeight(style, metrics, hasNewline)
  }

  lemma LineStepOf(style: LabelStyle, metrics: FontMetrics, hasNewline: bool, emHeight: real)
    requires emHeight == EmHeight(style, metrics, hasNewline)
    ensures LineStep(style, metrics, hasNewline) == style.lineHeight * emHeight
  {
  }

  /** `MaxWidth` is in ems: the budget is `MaxWidth` times the width of "M". */
  function Budget(style: LabelStyle, metrics: FontMetrics, paint: Paint, hasNewline: bool): real
  {
    if style.maxWidth > 0.0 || hasNewline then style.maxWidth * metrics.bounds("M", paint).Width() else 0.0
  }

  /** The box of measured bounds, moved to the origin. */
  function BoxOf(rect: Box): (b: Box)
    ensures b.left == 0.0 && b.top == 0.0 && b.Width() == rect.Width() && b.Height() == rect.Height()
  {
    SizedBox(rect.right - rect.left, rect.bottom - rect.top)
  }

  /** The lines with baselines one line step apart, starting at `baseline`. */
  function WithBaselines(ls: seq<Line>, baseline: real, step: real): (r: seq<Line>)
    ensures |r| == |ls|
  {
    seq(|ls|, i requires 0 <= i < |ls| => ls[i].(baseline := baseline + LineSteps(step, i)))
  }

  /**
   * `n` line steps, that is `step * n`, added up one step at a time so that the layout
   * functions stay linear; `LineStepsIsProduct` connects it to the product.
   */
  function LineSteps(step: real, n: int): real
    decreases if n < 0 then -n else n
  {
    if n == 0 then 0.0 else if n > 0 then LineSteps(step, n - 1) + step else LineSteps(step, n + 1) - step
  }

  lemma {:induction false} LineStepsIsProduct(step: real, n: int)
    ensures LineSteps(step, n) == step * (n as real)
    decreases if n < 0 then -n else n
  {
    if n > 0 {
      LineStepsIsProduct(step, n - 1);
      assert step * (n as real) == step * ((n - 1) as real) + step;
    } else if n < 0 {
      LineStepsIsProduct(step, n + 1);
      assert step * (n as real) == step * ((n + 1) as real) - step;
    }
  }

  /** The running `Math.Max` of the line widths, from 0. */
  function MaxLineWidth(ls: seq<Line>): real
    decreases |ls|
  {
    if ls == [] then 0.0 else Max(ls[|ls| - 1].width, MaxLineWidth(ls[..|ls| - 1]))
  }

  /** The running maximum is the widest line's width, or 0 when there is none wider. */
  lemma {:induction false} MaxLineWidthIsWidest(ls: seq<Line>)
    ensures 0.0 <= MaxLineWidth(ls)
    ensures forall i :: 0 <= i < |ls| ==> ls[i].width <= MaxLineWidth(ls)
    ensures MaxLineWidth(ls) == 0.0 || exists i :: 0 <= i < |ls| && MaxLineWidth(ls) == ls[i].width
    decreases |ls|
  {
    if ls != [] {
      var init := ls[..|ls| - 1];
      MaxLineWidthIsWidest(init);
      assert forall i :: 0 <= i < |init| ==> ls[i] == init[i];
    }
  }

  /** Wrapping into the given lines: their baselines, and a box as wide as the widest line and taller by the extra lines. */
  function Wrapped(layout: Layout, ls: seq<Line>, baseline: real, step: real): Layout
  {
    Layout(layout.text, Some(WithBaselines(ls, baseline, step)),
           SizedBox(MaxLineWidth(ls), layout.box.Height() + LineSteps(step, |ls| - 1)))
  }

  /** The wrap blocks: by characters when the text has a newline or asks for it, then by words if asked. */
  function WrapStage(layout: Layout, style: LabelStyle, hasNewline: bool, budget: real, baseline: real, step: real,
                     advance: string -> real): Layout
  {
    var byChars :=
      if hasNewline || style.wordWrap == CharacterWrap then
        Wrapped(layout, SplitLinesOf(Some(layout.text), Characters, advance, if hasNewline then layout.box.Width() else budget),
                baseline, step)
      else layout;
    if style.wordWrap == WordWrap then Wrapped(byChars, SplitLinesOf(Some(byChars.text), Words, advance, budget), baseline, step)
    else byChars
  }

  /** A truncated text replaces the text and is measured again; the lines and the baseline are kept. */
  function Retruncated(layout: Layout, truncated: Result<string>, bounds: string -> Box): Result<Layout>
  {
    match truncated
    case Err(e) => Err(e)
    case Ok(text) => Ok(Layout(text, layout.lines, BoxOf(bounds(text))))
  }

  /** The line-break modes that truncate the text. */
  predicate Truncates(mode: LineBreakMode)
  {
    mode.HeadTruncation? || mode.TailTruncation? || mode.MiddleTruncation?
  }

  /** The text a truncation mode makes of `text`: `MaxWidth + 2` characters at the head or tail, or half of them at each end, shrunk. */
  function TruncatedText(text: string, style: LabelStyle, budget: real, advance: string -> real): Result<string>
  {
    match style.wordWrap
    case HeadTruncation => HeadTruncated(text, EndCount(style.maxWidth), advance, budget)
    case TailTruncation => TailTruncated(text, EndCount(style.maxWidth), advance, budget)
    case MiddleTruncation => MiddleTruncated(text, HalfCount(style.maxWidth), advance, budget)
    case _ => Ok(text)
  }

  /**
   * The truncation blocks: in a truncation mode the text becomes `truncated`, which is
   * `TruncatedText` of the layout's text, and is measured again; otherwise nothing changes.
   */
  function TruncateStage(layout: Layout, style: LabelStyle, truncated: Result<string>, bounds: string -> Box): Result<Layout>
  {
    if Truncates(style.wordWrap) then Retruncated(layout, truncated, bounds) else Ok(layout)
  }

  /** Layout runs only when the text is wider than a positive budget, or has a newline. */
  predicate NeedsLayout(style: LabelStyle, box: Box, budget: real, hasNewline: bool)
  {
    (style.maxWidth > 0.0 && box.Width() > budget) || hasNewline
  }

  /** The measured label and, when needed, its wrapped or truncated layout. */
  function LaidOut(text: string, style: LabelStyle, metrics: FontMetrics, paint: Paint): Result<Layout>
  {
    LaidOutWith(text, style, metrics, paint, Budget(style, metrics, paint, '\n' in text),
                LineStep(style, metrics, '\n' in text))
  }

  /** `LaidOut` for a given pixel budget and line step. */
  function LaidOutWith(text: string, style: LabelStyle, metrics: FontMetrics, paint: Paint, budget: real, step: real): Result<Layout>
  {
    var hasNewline := '\n' in text;
    var rect := metrics.bounds(text, paint);
    var initial := Layout(text, None, BoxOf(rect));
    if NeedsLayout(style, initial.box, budget, hasNewline) then Relaid(initial, style, hasNewline, budget, -rect.top, step, metrics, paint)
    else Ok(initial)
  }

  /** The wrap blocks and then the truncation blocks, run when a label needs layout. */
  function Relaid(initial: Layout, style: LabelStyle, hasNewline: bool, budget: real, baseline: real, step: real,
                  metrics: FontMetrics, paint: Paint): Result<Layout>
  {
    var advance := AdvanceWith(metrics, paint);
    var wrapped := WrapStage(initial, style, hasNewline, budget, baseline, step, advance);
    TruncateStage(wrapped, style, TruncatedText(wrapped.text, style, budget, advance), BoundsWith(metrics, paint))
  }

  /** The background, when the style has a back colour: the box grown by 3 on every side. */
  function Backdrop(style: LabelStyle, box: Box, layerOpacity: real): seq<DrawOp>
  {
    if style.backColor.Some? then DrawBackground(style, box.Inflate(3.0, 3.0), layerOpacity) else []
  }

  /** The halo draws, when the style has a halo. */
  function HaloDraws(style: LabelStyle, layout: Layout, box: Box, baseline: real): seq<DrawOp>
  {
    match style.halo
    case None => []
    case Some(halo) => TextDraws(Halo, layout, box, baseline, style.horizontalAlignment, HaloPaint(halo))
  }

  /**
   * `DrawLabel` as a whole: the draws it issues at anchor `(x, y)`, or the exception it
   * throws before drawing anything.
   */
  function LabelDraws(x: real, y: real, style: LabelStyle, text: string, layerOpacity: real,
                      metrics: FontMetrics, offsetFor: (real, real) -> (real, real)): Result<seq<DrawOp>>
  {
    var paint := CreatePaint(style.foreColor, layerOpacity);
    var baseline := -metrics.bounds(text, paint).top;
    match LaidOut(text, style, metrics, paint)
    case Err(e) => Err(e)
    case Ok(layout) =>
      match Placed(layout.box, style, x, y, offsetFor)
      case Err(e) => Err(e)
      case Ok(box) =>
        Ok(Backdrop(style, box, layerOpacity) + HaloDraws(style, layout, box, baseline)
           + TextDraws(Foreground, layout, box, baseline, style.horizontalAlignment, paint))
  }

  // ---------------------------------------------------------------------------------
  // The renderer's loops

  /**
   * Sets each line's baseline one step below the previous and returns the widest line's width.
   * Specified by the functions `WithBaselines` and `MaxLineWidth`, which carry the lemmas; this method performs them step by step.
   */
  method ArrangeLines(lines: array<Line>, baseline: real, step: real) returns (width: real)
    modifies lines
    ensures lines[..] == WithBaselines(old(lines[..]), baseline, step)
    ensures width == MaxLineWidth(old(lines[..]))
  {
    ghost var original := lines[..];
    ghost var arranged := WithBaselines(original, baseline, step);
    width := 0.0;
    for i := 0 to lines.Length
      invariant forall j :: 0 <= j < i ==> lines[j] == arranged[j]
      invariant forall j :: i <= j < lines.Length ==> lines[j] == original[j]
      invariant width == MaxLineWidth(original[..i])
    {
      assert original[..i + 1][..i] == original[..i];
      lines[i] := lines[i].(baseline := baseline + step * (i as real));
      LineStepsIsProduct(step, i);
      width := Max(lines[i].width, width);
    }
    assert original[..lines.Length] == original;
  }

  /**
   * Draws each line of the array at its aligned x and its baseline.
   * Specified by the function `LineDraws`, which carries the lemmas; this method performs it step by step.
   */
  method DrawLines(role: Role, lines: array<Line>, box: Box, h: HorizontalAlignmentEnum, paint: Paint)
    returns (ops: seq<DrawOp>)
    ensures ops == LineDraws(role, lines[..], box, h, paint)
  {
    ops := [];
    var left := box.left;
    for i := 0 to lines.Length
      invariant |ops| == i
      invariant forall j :: 0 <= j < i ==> ops[j] == LineDraws(role, lines[..], box, h, paint)[j]
    {
      var line := lines[i];
      var x;
      if h == HorizontalAlignmentEnum.Center {
        x := left + (box.Width() - line.width) * 0.5;
      } else if h == Right {
        x := left + box.Width() - line.width;
      } else {
        x := left;
      }
      ops := ops + [Text(role, line.value, x, box.top + line.baseline, paint)];
    }
  }

  /** The lines of an array, or none when the label was not wrapped. */
  function LinesIn(lines: array?<Line>): Option<seq<Line>>
    reads lines
  {
    if lines == null then None else Some(lines[..])
  }

  /**
   * The wrap blocks of `DrawLabel`: split into lines by characters, then by words, arranging each time.
   * Specified by the function `WrapStage`, which carries the lemmas; this method performs it step by step.
   */
  method WrapLines(layout: Layout, style: LabelStyle, hasNewline: bool, budget: real, baseline: real, step: real,
                   advance: string -> real)
    returns (lines: array?<Line>, drawRect: Box)
    requires layout.lines.None?
    ensures lines != null ==> fresh(lines)
    ensures Layout(layout.text, LinesIn(lines), drawRect) == WrapStage(layout, style, hasNewline, budget, baseline, step, advance)
  {
    var current := layout;
    lines := null;
    drawRect := layout.box;
    if hasNewline || style.wordWrap == CharacterWrap {
      var wrapped;
      wrapped, drawRect := WrapOnce(current, Characters, if hasNewline then drawRect.Width() else budget, baseline, step, advance);
      lines := wrapped;
      current := Layout(layout.text, Some(wrapped[..]), drawRect);
    }
    assert current == Layout(layout.text, LinesIn(lines), drawRect);
    if style.wordWrap == WordWrap {
      var wrapped;
      wrapped, drawRect := WrapOnce(current, Words, budget, baseline, step, advance);
      lines := wrapped;
      current := Layout(layout.text, Some(wrapped[..]), drawRect);
    }
    assert current == Layout(layout.text, LinesIn(lines), drawRect);
  }

  /**
   * One wrap block: split, arrange, and size the box by the widest line and the extra lines.
   * Specified by the function `Wrapped`, which carries the lemmas; this method performs it step by step.
   */
  method WrapOnce(layout: Layout, mode: SplitMode, budget: real, baseline: real, step: real, advance: string -> real)
    returns (lines: array<Line>, drawRect: Box)
    ensures fresh(lines)
    ensures Layout(layout.text, Some(lines[..]), drawRect) ==
            Wrapped(layout, SplitLinesOf(Some(layout.text), mode, advance, budget), baseline, step)
  {
    lines := SplitLines(Some(layout.text), advance, budget, mode);
    ghost var split := lines[..];
    var width := ArrangeLines(lines, baseline, step);
    var count := lines.Length - 1;
    var height := layout.box.Height() + step * (count as real);
    WrappedFrom(layout, split, baseline, step, count, height);
    drawRect := Box(0.0, 0.0, width, height);
  }

  /** The box `WrapOnce` computes, `height` being the measured height plus `count` extra lines, is the one `Wrapped` specifies. */
  lemma WrappedFrom(layout: Layout, ls: seq<Line>, baseline: real, step: real, count: int, height: real)
    requires count == |ls| - 1 && height == layout.box.Height() + step * (count as real)
    ensures Wrapped(layout, ls, baseline, step) ==
            Layout(layout.text, Some(WithBaselines(ls, baseline, step)), Box(0.0, 0.0, MaxLineWidth(ls), height))
  {
    LineStepsIsProduct(step, count);
  }

  /**
   * The em measurements of `DrawLabel`: taken only when `MaxWidth > 0` or the text has a newline.
   * Specified by the functions `EmHeight` and `Budget`, which carry the lemmas; this method performs them step by step.
   */
  method MeasureEm(style: LabelStyle, metrics: FontMetrics, paint: Paint, hasNewline: bool)
    returns (emHeight: real, maxWidth: real)
    ensures emHeight == EmHeight(style, metrics, hasNewline)
    ensures maxWidth == Budget(style, metrics, paint, hasNewline)
  {
    emHeight := 0.0;
    maxWidth := 0.0;
    if style.maxWidth > 0.0 || hasNewline {
      var rect := metrics.bounds("M", paint);
      emHeight := metrics.spacing;
      maxWidth := style.maxWidth * rect.Width();
    }
  }

  /**
   * The measuring, wrapping and truncating part of `DrawLabel`: the text to draw, its lines
   * when it was wrapped, and its box at the origin; or the exception a truncation throws.
   * Specified by the function `LaidOut`, which carries the lemmas; this method performs it step by step.
   */
  method LayOutLabel(text: string, style: LabelStyle, metrics: FontMetrics, paint: Paint)
    returns (error: Option<Error>, labelText: string, lines: array?<Line>, drawRect: Box)
    ensures lines != null ==> fresh(lines)
    ensures LaidOut(text, style, metrics, paint) ==
            if error.Some? then Err(error.value) else Ok(Layout(labelText, LinesIn(lines), drawRect))
  {
    var hasNewline := '\n' in text;
    var emHeight, maxWidth := MeasureEm(style, metrics, paint, hasNewline);
    var step := style.lineHeight * emHeight;
    LineStepOf(style, metrics, hasNewline, emHeight);
    error, labelText, lines, drawRect := LayOutWith(text, style, metrics, paint, maxWidth, step);
  }

  /**
   * `LayOutLabel` once the budget and the line step are known.
   * Specified by the function `LaidOutWith`, which carries the lemmas; this method performs it step by step.
   */
  method LayOutWith(text: string, style: LabelStyle, metrics: FontMetrics, paint: Paint, budget: real, step: real)
    returns (error: Option<Error>, labelText: string, lines: array?<Line>, drawRect: Box)
    ensures lines != null ==> fresh(lines)
    ensures LaidOutWith(text, style, metrics, paint, budget, step) ==
            if error.Some? then Err(error.value) else Ok(Layout(labelText, LinesIn(lines), drawRect))
  {
    var hasNewline := '\n' in text;
    labelText := text;
    lines := null;
    error := None;

    var rect := metrics.bounds(labelText, paint);
    var baseline := -rect.top;
    drawRect := Box(0.0, 0.0, rect.right - rect.left, rect.bottom - rect.top);

    if (style.maxWidth > 0.0 && drawRect.Width() > budget) || hasNewline {
      var initial := Layout(labelText, None, drawRect);
      assert initial == Layout(text, None, BoxOf(rect));
      error, labelText, lines, drawRect := WrapAndTruncate(initial, style, hasNewline, budget, baseline, step, metrics, paint);
    }
  }

  /**
   * The wrap blocks and then the truncation blocks of `DrawLabel`.
   * Specified by the function `Relaid`, which carries the lemmas; this method performs it step by step.
   */
  method WrapAndTruncate(initial: Layout, style: LabelStyle, hasNewline: bool, budget: real, baseline: real, step: real,
                         metrics: FontMetrics, paint: Paint)
    returns (error: Option<Error>, labelText: string, lines: array?<Line>, drawRect: Box)
    requires initial.lines.None?
    ensures lines != null ==> fresh(lines)
    ensures Relaid(initial, style, hasNewline, budget, baseline, step, metrics, paint) ==
            if error.Some? then Err(error.value) else Ok(Layout(labelText, LinesIn(lines), drawRect))
  {
    var advance := AdvanceWith(metrics, paint);
    lines, drawRect := WrapLines(initial, style, hasNewline, budget, baseline, step, advance);
    var wrapped := Layout(initial.text, LinesIn(lines), drawRect);
    var truncated := TruncateText(initial.text, style, budget, advance);
    error, labelText, drawRect := TruncateLabel(wrapped, style, truncated, BoundsWith(metrics, paint));
  }

  /**
   * The shrink loop the line-break mode selects, on the whole text.
   * Specified by the function `TruncatedText`, which carries the lemmas; this method performs it step by step.
   */
  method TruncateText(text: string, style: LabelStyle, budget: real, advance: string -> real) returns (r: Result<string>)
    ensures r == TruncatedText(text, style, budget, advance)
  {
    r := Ok(text);
    if style.wordWrap == HeadTruncation {
      r := TruncateHead(text, style.maxWidth, advance, budget);
    } else if style.wordWrap == TailTruncation {
      r := TruncateTail(text, style.maxWidth, advance, budget);
    } else if style.wordWrap == MiddleTruncation {
      r := TruncateMiddle(text, style.maxWidth, advance, budget);
    }
  }

  /**
   * The truncation blocks of `DrawLabel`: by the line-break mode, the text is shortened and
   * measured again, or left alone; a bad character range is returned as the error.
   * Specified by the function `TruncateStage`, which carries the lemmas; this method performs it step by step.
   */
  method TruncateLabel(layout: Layout, style: LabelStyle, truncated: Result<string>, bounds: string -> Box)
    returns (error: Option<Error>, labelText: string, drawRect: Box)
    ensures TruncateStage(layout, style, truncated, bounds) ==
            if error.Some? then Err(error.value) else Ok(Layout(labelText, layout.lines, drawRect))
  {
    error := None;
    labelText := layout.text;
    drawRect := layout.box;
    if Truncates(style.wordWrap) {
      if truncated.Err? {
        error := Some(truncated.error);
        return;
      }
      labelText := truncated.value;
      var rect := bounds(labelText);
      drawRect := Box(0.0, 0.0, rect.right - rect.left, rect.bottom - rect.top);
    }
  }

  /**
   * The draws of a placed label: background, halo, then the text, as `DrawLabel` issues them.
   * Specified by the functions `TextDraws` and `HaloDraws`, which carry the lemmas; this method performs them step by step.
   */
  method DrawPlaced(style: LabelStyle, labelText: string, lines: array?<Line>, drawRect: Box, baseline: real,
                    layerOpacity: real, paint: Paint)
    returns (trace: seq<DrawOp>)
    ensures var layout := Layout(labelText, LinesIn(lines), drawRect);
            trace == Backdrop(style, drawRect, layerOpacity) + HaloDraws(style, layout, drawRect, baseline)
                     + TextDraws(Foreground, layout, drawRect, baseline, style.horizontalAlignment, paint)
  {
    ghost var layout := Layout(labelText, LinesIn(lines), drawRect);
    trace := [];
    if style.backColor.Some? {
      var backRect := drawRect.Inflate(3.0, 3.0);
      trace := DrawBackground(style, backRect, layerOpacity);
    }

    if style.halo.Some? {
      var paintHalo := HaloPaint(style.halo.value);
      if lines != null {
        var ops := DrawLines(Halo, lines, drawRect, style.horizontalAlignment, paintHalo);
        trace := trace + ops;
      } else {
        trace := trace + [Text(Halo, labelText, drawRect.left, drawRect.top + baseline, paintHalo)];
      }
    }
    assert trace == Backdrop(style, drawRect, layerOpacity) + HaloDraws(style, layout, drawRect, baseline);

    if lines != null {
      var ops := DrawLines(Foreground, lines, drawRect, style.horizontalAlignment, paint);
      trace := trace + ops;
    } else {
      trace := trace + [Text(Foreground, labelText, drawRect.left, drawRect.top + baseline, paint)];
    }
  }

  /**
   * The alignment and offset step of `DrawLabel`: the laid-out box moved to its anchor.
   * Specified by the function `Placed`, which carries the lemmas; this method performs it step by step.
   */
  method PlaceBox(box: Box, style: LabelStyle, x: real, y: real, offsetFor: (real, real) -> (real, real))
    returns (r: Result<Box>)
    ensures r == Placed(box, style, x, y, offsetFor)
  {
    var horizontalAlign := CalcHorizontalAlignment(style.horizontalAlignment);
    if horizontalAlign.Err? {
      return Err(horizontalAlign.error);
    }
    var verticalAlign := CalcVerticalAlignment(style.verticalAlignment);
    if verticalAlign.Err? {
      return Err(verticalAlign.error);
    }
    var offset := offsetFor(box.Width(), box.Height());
    r := Ok(box.Offset(x - box.Width() * horizontalAlign.value + offset.0, y - box.Height() * verticalAlign.value + offset.1));
    assert Placed(box, style, x, y, offsetFor).value == r.value;
  }

  /**
   * `DrawLabel`: measures, wraps or truncates, aligns and draws the label, as the renderer
   * does step by step. An exception is returned as `Err`; nothing is drawn before one.
   * Specified by the function `LabelDraws`, which carries the lemmas; this method performs it step by step.
   */
  method DrawLabel(x: real, y: real, style: LabelStyle, text: string, layerOpacity: real,
                   metrics: FontMetrics, offsetFor: (real, real) -> (real, real))
    returns (r: Result<seq<DrawOp>>)
    ensures r == LabelDraws(x, y, style, text, layerOpacity, metrics, offsetFor)
  {
    var paint := CreatePaint(style.foreColor, layerOpacity);
    var baseline := -metrics.bounds(text, paint).top;
    var error, labelText, lines, drawRect := LayOutLabel(text, style, metrics, paint);
    if error.Some? {
      return Err(error.value);
    }

    var placed := PlaceBox(drawRect, style, x, y, offsetFor);
    if placed.Err? {
      return Err(placed.error);
    }
    var trace := DrawPlaced(style, labelText, lines, placed.value, baseline, layerOpacity, paint);
    r := Ok(trace);
  }

  // ---------------------------------------------------------------------------------
  // What the layout promises

  /**
   * Wrapped lines: line `i` keeps its text and width and gets the baseline
   * `baseline + step * i`; the box is as wide as the widest line (or 0 when no line is wider)
   * and taller by `step` for every line after the first.
   */
  lemma WrappedGeometry(layout: Layout, ls: seq<Line>, baseline: real, step: real)
    ensures var w := Wrapped(layout, ls, baseline, step);
            w.text == layout.text && w.lines.Some? && |w.lines.value| == |ls| &&
            (forall i :: 0 <= i < |ls| ==>
              w.lines.value[i].value == ls[i].value && w.lines.value[i].width == ls[i].width &&
              w.lines.value[i].baseline == baseline + step * (i as real)) &&
            w.box.left == 0.0 && w.box.top == 0.0 &&
            (forall i :: 0 <= i < |ls| ==> ls[i].width <= w.box.Width()) &&
            (w.box.Width() == 0.0 || exists i :: 0 <= i < |ls| && w.box.Width() == ls[i].width) &&
            w.box.Height() == layout.box.Height() + step * ((|ls| - 1) as real)
  {
    forall i | 0 <= i < |ls|
      ensures LineSteps(step, i) == step * (i as real)
    {
      LineStepsIsProduct(step, i);
    }
    MaxLineWidthIsWidest(ls);
    LineStepsIsProduct(step, |ls| - 1);
  }

  /**
   * The text draws of a wrapped label: draw i shows line i at its aligned x and at the
   * box top plus `baseline + step * i`.
   */
  lemma {:induction false} WrappedDraws(role: Role, layout: Layout, ls: seq<Line>, baseline: real, step: real,
                                         box: Box, textBaseline: real, h: HorizontalAlignmentEnum, paint: Paint)
    ensures var ops := TextDraws(role, Wrapped(layout, ls, baseline, step), box, textBaseline, h, paint);
            |ops| == |ls| &&
            forall i :: 0 <= i < |ls| ==>
              ops[i].text == ls[i].value && ops[i].x == LineX(h, box, ls[i].width) &&
              ops[i].y == box.top + (baseline + step * (i as real))
  {
    WrappedGeometry(layout, ls, baseline, step);
  }

  /** The height part of `WrappedGeometry`. */
  lemma WrappedHeight(layout: Layout, ls: seq<Line>, baseline: real, step: real)
    ensures Wrapped(layout, ls, baseline, step).box.Height() == layout.box.Height() + step * ((|ls| - 1) as real)
  {
    var extra := LineSteps(step, |ls| - 1);
    LineStepsIsProduct(step, |ls| - 1);
    assert Wrapped(layout, ls, baseline, step).box == Box(0.0, 0.0, MaxLineWidth(ls), layout.box.Height() + extra);
  }

  /**
   * A text with a newline in word-wrap mode is wrapped twice, and its box grows twice:
   * once for the character lines and once more for the word lines.
   */
  lemma NewlineWordWrapGrowsTwice(layout: Layout, style: LabelStyle, budget: real, baseline: real, step: real,
                                  advance: string -> real, byChars: seq<Line>, byWords: seq<Line>)
    requires style.wordWrap == WordWrap
    requires byChars == SplitLinesOf(Some(layout.text), Characters, advance, layout.box.Width())
    requires byWords == SplitLinesOf(Some(layout.text), Words, advance, budget)
    ensures WrapStage(layout, style, true, budget, baseline, step, advance).lines == Some(WithBaselines(byWords, baseline, step))
    ensures WrapStage(layout, style, true, budget, baseline, step, advance).box.Height() ==
            layout.box.Height() + step * ((|byChars| - 1) as real) + step * ((|byWords| - 1) as real)
  {
    var first := Wrapped(layout, byChars, baseline, step);
    var r := Wrapped(first, byWords, baseline, step);
    assert WrapStage(layout, style, true, budget, baseline, step, advance) == r;
    WrappedHeight(layout, byChars, baseline, step);
    WrappedHeight(first, byWords, baseline, step);
  }

  /** Truncation replaces the text and the box only: the lines, if any, are kept as they were. */
  lemma TruncationKeepsLines(layout: Layout, style: LabelStyle, truncated: Result<string>, bounds: string -> Box)
    ensures var r := TruncateStage(layout, style, truncated, bounds);
            (r.Ok? ==> r.value.lines == layout.lines) &&
            (r.Ok? && Truncates(style.wordWrap) ==> r.value.text == truncated.value) &&
            (r.Err? <==> Truncates(style.wordWrap) && truncated.Err?) &&
            (!Truncates(style.wordWrap) ==> r == Ok(layout))
  {
  }

  /**
   * A label is laid out only when it needs it: otherwise it keeps its text and measured box
   * and has no lines. When it has lines, it needed layout and was wrapped: it has a newline or
   * its mode is a wrap mode.
   */
  lemma LayoutOnlyWhenNeeded(text: string, style: LabelStyle, metrics: FontMetrics, paint: Paint)
    ensures var r := LaidOut(text, style, metrics, paint);
            var budget := Budget(style, metrics, paint, '\n' in text);
            var box := BoxOf(metrics.bounds(text, paint));
            (!NeedsLayout(style, box, budget, '\n' in text) ==> r == Ok(Layout(text, None, box))) &&
            (r.Ok? && r.value.lines.Some? ==>
              NeedsLayout(style, box, budget, '\n' in text) &&
              ('\n' in text || style.wordWrap == CharacterWrap || style.wordWrap == WordWrap))
  {
    var hasNewline := '\n' in text;
    var budget := Budget(style, metrics, paint, hasNewline);
    var step := LineStep(style, metrics, hasNewline);
    var rect := metrics.bounds(text, paint);
    var initial := Layout(text, None, BoxOf(rect));
    var advance := AdvanceWith(metrics, paint);
    if NeedsLayout(style, initial.box, budget, hasNewline) {
      var wrapped := WrapStage(initial, style, hasNewline, budget, -rect.top, step, advance);
      TruncationKeepsLines(wrapped, style, TruncatedText(wrapped.text, style, budget, advance), BoundsWith(metrics, paint));
    }
  }

  /** The order of the draws: background, border, halo, text. */
  function RoleRank(role: Role): nat
  {
    match role
    case Background => 0
    case Border => 1
    case Halo => 2
    case Foreground => 3
  }

  /** Draws in the order background, border, halo, text. */
  predicate InDrawOrder(ops: seq<DrawOp>)
  {
    forall i, j :: 0 <= i < j < |ops| ==> RoleRank(ops[i].role) <= RoleRank(ops[j].role)
  }

  /** A background part, then halo draws, then text draws, are in draw order. */
  lemma ConcatInDrawOrder(back: seq<DrawOp>, halo: seq<DrawOp>, fore: seq<DrawOp>)
    requires |back| <= 2 && forall i :: 0 <= i < |back| ==> RoleRank(back[i].role) == i
    requires forall i :: 0 <= i < |halo| ==> halo[i].role == Halo
    requires forall i :: 0 <= i < |fore| ==> fore[i].role == Foreground
    ensures InDrawOrder(back + halo + fore)
  {
    var ops := back + halo + fore;
    forall i, j | 0 <= i < j < |ops|
      ensures RoleRank(ops[i].role) <= RoleRank(ops[j].role)
    {
      if j < |back| {
        assert ops[i] == back[i] && ops[j] == back[j];
      } else if j < |back| + |halo| {
        assert ops[j] == halo[j - |back|];
        assert i < |back| ==> ops[i] == back[i];
        assert |back| <= i ==> ops[i] == halo[i - |back|];
      } else {
        assert ops[j] == fore[j - |back| - |halo|];
      }
    }
  }

  /** A label's draws come in the fixed order background, border, halo, then the text itself. */
  lemma DrawOrder(x: real, y: real, style: LabelStyle, text: string, layerOpacity: real,
                  metrics: FontMetrics, offsetFor: (real, real) -> (real, real), ops: seq<DrawOp>)
    requires LabelDraws(x, y, style, text, layerOpacity, metrics, offsetFor) == Ok(ops)
    ensures InDrawOrder(ops)
  {
    var paint := CreatePaint(style.foreColor, layerOpacity);
    var baseline := -metrics.bounds(text, paint).top;
    var layout := LaidOut(text, style, metrics, paint).value;
    var box := Placed(layout.box, style, x, y, offsetFor).value;
    var back := Backdrop(style, box, layerOpacity);
    var halo := HaloDraws(style, layout, box, baseline);
    var fore := TextDraws(Foreground, layout, box, baseline, style.horizontalAlignment, paint);
    assert ops == back + halo + fore;
    ConcatInDrawOrder(back, halo, fore);
  }

  /** The halo is drawn under the text: the same texts at the same positions, one halo draw per text draw. */
  lemma HaloUnderText(style: LabelStyle, layout: Layout, box: Box, baseline: real, paint: Paint)
    requires style.halo.Some?
    ensures var halo := HaloDraws(style, layout, box, baseline);
            var fore := TextDraws(Foreground, layout, box, baseline, style.horizontalAlignment, paint);
            |halo| == |fore| &&
            forall i :: 0 <= i < |halo| ==>
              halo[i].Text? && halo[i].role == Halo && halo[i].paint == HaloPaint(style.halo.value) &&
              halo[i].text == fore[i].text && halo[i].x == fore[i].x && halo[i].y == fore[i].y
  {
  }

  // ---------------------------------------------------------------------------------
  // The renderer's entry points

  /** The kinds of feature `Draw` tells apart; a line string's or geometry's extent may be unset. */
  datatype Feature =
    | PointFeature(point: Points.MPoint)
    | LineStringFeature(extent: Option<Rects.MRect>)
    | GeometryFeature(extent: Option<Rects.MRect>)
    | OtherFeature

  /**
   * Where `Draw` anchors a label, in world coordinates: the point, or the centre of the extent.
   * The renderer's `LineString` arm tests the feature against a geometry type and so does not
   * match a feature in practice; it anchors exactly as the geometry arm does, so keeping it
   * reachable here changes no result.
   */
  function WorldAnchor(feature: Feature): (p: Option<Points.MPoint>)
    ensures feature.PointFeature? ==> p == Some(feature.point)
    ensures feature.LineStringFeature? || feature.GeometryFeature? ==>
              (p.Some? <==> feature.extent.Some?) &&
              (p.Some? ==> p.value.x == (feature.extent.value.min.x + feature.extent.value.max.x) / 2.0 &&
                           p.value.y == (feature.extent.value.min.y + feature.extent.value.max.y) / 2.0)
    ensures feature.OtherFeature? ==> p.None?
  {
    match feature
    case PointFeature(point) => Some(point)
    case LineStringFeature(extent) => if extent.None? then None else Some(Rects.Centroid(extent.value))
    case GeometryFeature(extent) => if extent.None? then None else Some(Rects.Centroid(extent.value))
    case OtherFeature => None
  }

  /**
   * `Draw`: whether the feature counts as drawn, and the draws. `labelTextOf` is the style's
   * `GetLabelText` and `worldToScreen` the viewport's `WorldToScreenXY`.
   */
  function FeatureDraws(feature: Feature, style: LabelStyle, labelTextOf: Feature -> Option<string>, layerOpacity: real,
                        metrics: FontMetrics, offsetFor: (real, real) -> (real, real),
                        worldToScreen: (real, real) -> (real, real)): (r: (bool, seq<DrawOp>))
    ensures var text := labelTextOf(feature);
            !r.0 <==> text.None? || text.value == [] ||
                      ((feature.LineStringFeature? || feature.GeometryFeature?) && feature.extent.None?)
    ensures r.1 != [] ==> r.0 && !feature.OtherFeature?
    ensures var anchor := WorldAnchor(feature);
            r.1 != [] ==>
              anchor.Some? &&
              var screen := worldToScreen(anchor.value.x, anchor.value.y);
              LabelDraws(screen.0, screen.1, style, labelTextOf(feature).value, layerOpacity, metrics, offsetFor) == Ok(r.1)
    ensures var text := labelTextOf(feature);
            var anchor := WorldAnchor(feature);
            text.Some? && text.value != [] && !feature.OtherFeature? && anchor.Some? ==>
              var screen := worldToScreen(anchor.value.x, anchor.value.y);
              var drawn := LabelDraws(screen.0, screen.1, style, text.value, layerOpacity, metrics, offsetFor);
              r == (true, if drawn.Ok? then drawn.value else [])
  {
    var text := labelTextOf(feature);
    if text.None? || text.value == [] then (false, [])
    else if feature.OtherFeature? then (true, [])
    else match WorldAnchor(feature)
      case None => (false, [])
      case Some(anchor) =>
        var screen := worldToScreen(anchor.x, anchor.y);
        match LabelDraws(screen.0, screen.1, style, text.value, layerOpacity, metrics, offsetFor)
        case Ok(ops) => (true, ops)
        case Err(_) => (true, [])
  }

  /**
   * `Draw`: nothing for an empty or null label text, nor for a line string or geometry
   * without an extent; otherwise the label at the anchor's screen position. An exception
   * inside `DrawLabel` is logged, and the feature still counts as drawn.
   * Specified by the function `FeatureDraws`, which carries the lemmas; this method performs it step by step.
   */
  method Draw(feature: Feature, style: LabelStyle, labelTextOf: Feature -> Option<string>, layerOpacity: real,
              metrics: FontMetrics, offsetFor: (real, real) -> (real, real), worldToScreen: (real, real) -> (real, real))
    returns (drawn: bool, trace: seq<DrawOp>)
    ensures (drawn, trace) == FeatureDraws(feature, style, labelTextOf, layerOpacity, metrics, offsetFor, worldToScreen)
  {
    var text := labelTextOf(feature);
    if text.None? || text.value == [] {
      return false, [];
    }
    var anchor: Points.MPoint;
    match feature {
      case PointFeature(point) =>
        anchor := point;
      case LineStringFeature(extent) =>
        if extent.None? {
          return false, [];
        }
        anchor := Rects.Centroid(extent.value);
      case GeometryFeature(extent) =>
        if extent.None? {
          return false, [];
        }
        anchor := Rects.Centroid(extent.value);
      case OtherFeature =>
        return true, [];
    }
    var screen := worldToScreen(anchor.x, anchor.y);
    var r := DrawLabel(screen.0, screen.1, style, text.value, layerOpacity, metrics, offsetFor);
    trace := if r.Ok? then r.value else [];
    drawn := true;
  }

  /** The paint `FeatureSize` measures with: the halo paint when there is a halo, else the fore colour, opaque. */
  function MeasuringPaint(style: LabelStyle): (p: Paint)
    ensures style.halo.Some? ==> p == HaloPaint(style.halo.value)
    ensures style.halo.None? ==> p == CreatePaint(style.foreColor, 1.0)
  {
    match style.halo
    case Some(halo) => HaloPaint(halo)
    case None => CreatePaint(style.foreColor, 1.0)
  }

  /** `Math.Sqrt` behaves as the square root on the non-negative numbers. */
  ghost predicate IsSquareRoot(sqrt: real -> real)
  {
    forall v :: 0.0 <= v ==> 0.0 <= sqrt(v) && sqrt(v) * sqrt(v) == v
  }

  /**
   * `FeatureSize`: the size a label takes around its anchor, 0 for an empty or null text;
   * otherwise the larger side of the measured text plus twice the length of the offset.
   */
  function FeatureSize(feature: Feature, style: LabelStyle, labelTextOf: Feature -> Option<string>,
                       metrics: FontMetrics, offsetFor: (real, real) -> (real, real), sqrt: real -> real): (size: real)
    ensures var text := labelTextOf(feature);
            text.None? || text.value == [] ==> size == 0.0
    ensures var text := labelTextOf(feature);
            text.Some? && text.value != [] && IsSquareRoot(sqrt) ==>
              var rect := metrics.bounds(text.value, MeasuringPaint(style));
              var offset := offsetFor(rect.Width(), rect.Height());
              var length := (size - Max(rect.Width(), rect.Height())) / 2.0;
              Max(rect.Width(), rect.Height()) <= size && length * length == offset.0 * offset.0 + offset.1 * offset.1
  {
    var text := labelTextOf(feature);
    if text.None? || text.value == [] then 0.0
    else
      var rect := metrics.bounds(text.value, MeasuringPaint(style));
      var size := Max(rect.Width(), rect.Height());
      var drawRect := BoxOf(rect);
      var offset := offsetFor(drawRect.Width(), drawRect.Height());
      var length := sqrt(offset.0 * offset.0 + offset.1 * offset.1);
      size + length * 2.0
  }

  /** `IFeatureSize.FeatureSize`: a null feature throws; a style that is not a label style takes no room. */
  function StyleFeatureSize(feature: Option<Feature>, labelStyle: Option<LabelStyle>, labelTextOf: Feature -> Option<string>,
                            metrics: FontMetrics, offsetFor: (real, real) -> (real, real), sqrt: real -> real): (r: Result<real>)
    ensures r.Err? <==> feature.None?
    ensures r.Err? ==> r.error == ArgumentNullException
    ensures feature.Some? && labelStyle.None? ==> r == Ok(0.0)
    ensures feature.Some? && labelStyle.Some? ==>
              r == Ok(FeatureSize(feature.value, labelStyle.value, labelTextOf, metrics, offsetFor, sqrt))
  {
    if feature.None? then Err(ArgumentNullException)
    else if labelStyle.None? then Ok(0.0)
    else Ok(FeatureSize(feature.value, labelStyle.value, labelTextOf, metrics, offsetFor, sqrt))
  }

  /** The bitmap `CreateLabelAsImage` paints: its size in pixels and the draws on it. */
  datatype LabelImage = LabelImage(width: int, height: int, ops: seq<DrawOp>)

  /**
   * `CreateLabelAsImage`: a bitmap 6 pixels wider and higher than the measured text, the
   * background over all of it, and the text drawn so that its bounds sit 3 pixels inside
   * every edge.
   */
  function LabelAsImage(style: LabelStyle, text: string, metrics: FontMetrics, paint: Paint, layerOpacity: real): (image: LabelImage)
    ensures var rect := metrics.bounds(text, paint);
            var backRect := SizedBox(rect.Width() + 6.0, rect.Height() + 6.0);
            image.width == TruncToInt(backRect.Width()) && image.height == TruncToInt(backRect.Height()) &&
            |image.ops| >= 1 &&
            image.ops[..|image.ops| - 1] == DrawBackground(style, backRect, layerOpacity) &&
            var t := image.ops[|image.ops| - 1];
            t.Text? && t.role == Foreground && t.text == text && t.paint == paint &&
            t.x + rect.left == backRect.left + 3.0 && t.x + rect.right == backRect.right - 3.0 &&
            t.y + rect.top == backRect.top + 3.0 && t.y + rect.bottom == backRect.bottom - 3.0
  {
    var rect := metrics.bounds(text, paint);
    var backRect := Box(0.0, 0.0, rect.Width() + 6.0, rect.Height() + 6.0);
    LabelImage(TruncToInt(backRect.Width()), TruncToInt(backRect.Height()),
               DrawBackground(style, backRect, layerOpacity) + [Text(Foreground, text, -rect.left + 3.0, -rect.top + 3.0, paint)])
  }
}
