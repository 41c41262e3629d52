/**
 * BaseWidget: a widget's layout properties.  Every property setter compares the new value
 * with the stored one and, only when they differ, stores it and marks the widget for redraw.
 */
module Widgets {
  import opened Wrappers
  import opened Points
  import opened Rects

  /** `HorizontalAlignment`; `UnknownHorizontal` stands for any other value the enum can hold. */
  datatype HorizontalAlignment = Left | Center | Right | Stretch | Absolute | UnknownHorizontal(code: int)

  /** `VerticalAlignment`; `UnknownVertical` stands for any other value the enum can hold. */
  datatype VerticalAlignment = Top | Bottom | Center | Stretch | Absolute | UnknownVertical(code: int)

  /** `CalculatePositionX`: the widget's left edge within [left, right] for its alignment. */
  function CalculatePositionX(h: HorizontalAlignment, margin: MRect, position: MPoint,
                              left: real, right: real, width: real): (r: Result<real>)
    ensures r.Err? <==> h.UnknownHorizontal?
    ensures r.Err? ==> r.error == ArgumentException
    ensures h == Left || h == HorizontalAlignment.Stretch ==> r == Ok(margin.Left())
    ensures h == HorizontalAlignment.Center ==> r.Ok? && (right - left) - (r.value + width) == r.value
    ensures h == HorizontalAlignment.Right ==> r.Ok? && r.value + width + margin.Right() == right - left
    ensures h == HorizontalAlignment.Absolute ==> r == Ok(position.x)
  {
    match h
    case Left => Ok(margin.Left())
    case Center => Ok((right - left - width) / 2.0)
    case Right => Ok(right - left - width - margin.Right())
    case Stretch => Ok(margin.Left())
    case Absolute => Ok(position.x)
    case UnknownHorizontal(_) => Err(ArgumentException)
  }

  /** `CalculatePositionY`: the widget's lower coordinate within [top, bottom] for its alignment. */
  function CalculatePositionY(v: VerticalAlignment, margin: MRect, position: MPoint,
                              top: real, bottom: real, height: real): (r: Result<real>)
    ensures r.Err? <==> v.UnknownVertical?
    ensures r.Err? ==> r.error == ArgumentException
    ensures v == Top || v == VerticalAlignment.Stretch ==> r == Ok(margin.Top())
    ensures v == VerticalAlignment.Center ==> r.Ok? && (bottom - top) - (r.value + height) == r.value
    ensures v == Bottom ==> r.Ok? && r.value + height + margin.Bottom() == bottom - top
    ensures v == VerticalAlignment.Absolute ==> r == Ok(position.y)
  {
    match v
    case Top => Ok(margin.Top())
    case Bottom => Ok(bottom - top - height - margin.Bottom())
    case Center => Ok((bottom - top - height) / 2.0)
    case Stretch => Ok(margin.Top())
    case Absolute => Ok(position.y)
    case UnknownVertical(_) => Err(ArgumentException)
  }

  /** The envelope `UpdateEnvelope` computes, or the exception an unknown alignment raises. */
  function EnvelopeFor(h: HorizontalAlignment, v: VerticalAlignment, margin: MRect, position: MPoint,
                       maxWidth: real, maxHeight: real, screenWidth: real, screenHeight: real): (r: Result<MRect>)
    ensures r.Err? <==> h.UnknownHorizontal? || v.UnknownVertical?
    ensures r.Ok? ==> Normalized(r.value)
    ensures r.Ok? && h != HorizontalAlignment.Stretch && 0.0 <= maxWidth ==> r.value.Width() == maxWidth
    ensures r.Ok? && v != VerticalAlignment.Stretch && 0.0 <= maxHeight ==> r.value.Height() == maxHeight
    ensures r.Ok? && h != HorizontalAlignment.Stretch && 0.0 <= maxWidth ==>
              r.value.Left() == CalculatePositionX(h, margin, position, 0.0, screenWidth, maxWidth).value
    ensures r.Ok? && v != VerticalAlignment.Stretch && 0.0 <= maxHeight ==>
              r.value.Bottom() == CalculatePositionY(v, margin, position, 0.0, screenHeight, maxHeight).value
    ensures r.Ok? && h == HorizontalAlignment.Right && 0.0 <= maxWidth ==> r.value.Right() + margin.Right() == screenWidth
    ensures r.Ok? && h == HorizontalAlignment.Stretch && margin.Left() <= screenWidth - margin.Right() ==>
              r.value.Left() == margin.Left() && r.value.Right() == screenWidth - margin.Right()
    ensures r.Ok? && v == VerticalAlignment.Stretch && margin.Top() <= screenHeight - margin.Bottom() ==>
              r.value.Bottom() == margin.Top() && r.value.Top() == screenHeight - margin.Bottom()
  {
    var minX := CalculatePositionX(h, margin, position, 0.0, screenWidth, maxWidth);
    if minX.Err? then Err(minX.error)
    else
      var minY := CalculatePositionY(v, margin, position, 0.0, screenHeight, maxHeight);
      if minY.Err? then Err(minY.error)
      else
        var maxX := if h == HorizontalAlignment.Stretch then screenWidth - margin.Right() else minX.value + maxWidth;
        var maxY := if v == VerticalAlignment.Stretch then screenHeight - margin.Bottom() else minY.value + maxHeight;
        Ok(Rect(minX.value, minY.value, maxX, maxY))
  }

  /** A snapshot of every field of a widget, to state what a setter leaves unchanged. */
  datatype WidgetState = WidgetState(
    horizontalAlignment: HorizontalAlignment,
    verticalAlignment: VerticalAlignment,
    margin: MRect,
    position: MPoint,
    width: real,
    height: real,
    envelope: Option<MRect>,
    enabled: bool,
    needsRedraw: bool)

  class BaseWidget {
    var horizontalAlignment: HorizontalAlignment
    var verticalAlignment: VerticalAlignment
    var margin: MRect
    var position: MPoint
    var width: real
    var height: real
    var envelope: Option<MRect>
    var enabled: bool
    var needsRedraw: bool

    function State(): WidgetState
      reads this
    {
      WidgetState(horizontalAlignment, verticalAlignment, margin, position, width, height,
                  envelope, enabled, needsRedraw)
    }

    /** The field initialisers: Right/Bottom aligned, margin 2, at the origin, enabled, clean. */
    constructor ()
      ensures State() == WidgetState(HorizontalAlignment.Right, Bottom, FromValue(2.0), Origin(), 0.0, 0.0, None, true, false)
    {
      horizontalAlignment := HorizontalAlignment.Right;
      verticalAlignment := Bottom;
      margin := FromValue(2.0);
      position := Origin();
      width := 0.0;
      height := 0.0;
      envelope := None;
      enabled := true;
      needsRedraw := false;
    }

    /** The public setter of `NeedsRedraw`, with which the renderer clears the flag. */
    method SetNeedsRedraw(value: bool)
      modifies this
      ensures State() == old(State()).(needsRedraw := value)
    {
      needsRedraw := value;
    }

    /** `Invalidate`: request a redraw. */
    method Invalidate()
      modifies this
      ensures State() == old(State()).(needsRedraw := true)
    {
      needsRedraw := true;
    }

    method SetHorizontalAlignment(value: HorizontalAlignment)
      modifies this
      ensures State() == old(State()).(horizontalAlignment := value,
                                       needsRedraw := old(needsRedraw) || old(horizontalAlignment) != value)
    {
      if horizontalAlignment == value { return; }
      horizontalAlignment := value;
      Invalidate();
    }

    method SetVerticalAlignment(value: VerticalAlignment)
      modifies this
      ensures State() == old(State()).(verticalAlignment := value,
                                       needsRedraw := old(needsRedraw) || old(verticalAlignment) != value)
    {
      if verticalAlignment == value { return; }
      verticalAlignment := value;
      Invalidate();
    }

    method SetMargin(value: MRect)
      modifies this
      ensures State() == old(State()).(margin := value,
                                       needsRedraw := old(needsRedraw) || old(margin) != value)
    {
      if Rects.OpEquals(Some(margin), Some(value)) { return; }
      margin := value;
      Invalidate();
    }

    method SetPosition(value: MPoint)
      modifies this
      ensures State() == old(State()).(position := value,
                                       needsRedraw := old(needsRedraw) || old(position) != value)
    {
      if Points.Equals(position, Some(value)) { return; }
      position := value;
      Invalidate();
    }

    method SetWidth(value: real)
      modifies this
      ensures State() == old(State()).(width := value,
                                       needsRedraw := old(needsRedraw) || old(width) != value)
    {
      if width == value { return; }
      width := value;
      Invalidate();
    }

    method SetHeight(value: real)
      modifies this
      ensures State() == old(State()).(height := value,
                                       needsRedraw := old(needsRedraw) || old(height) != value)
    {
      if height == value { return; }
      height := value;
      Invalidate();
    }

    method SetEnvelope(value: Option<MRect>)
      modifies this
      ensures State() == old(State()).(envelope := value,
                                       needsRedraw := old(needsRedraw) || old(envelope) != value)
    {
      if Rects.OpEquals(envelope, value) { return; }
      envelope := value;
      Invalidate();
    }

    method SetEnabled(value: bool)
      modifies this
      ensures State() == old(State()).(enabled := value,
                                       needsRedraw := old(needsRedraw) || old(enabled) != value)
    {
      if enabled == value { return; }
      enabled := value;
      Invalidate();
    }

    /**
     * `UpdateEnvelope`: an unknown alignment throws before anything changes; otherwise the
     * computed envelope goes through the `Envelope` setter.
     */
    method UpdateEnvelope(maxWidth: real, maxHeight: real, screenWidth: real, screenHeight: real)
      returns (res: Result<MRect>)
      modifies this
      ensures res == EnvelopeFor(old(horizontalAlignment), old(verticalAlignment), old(margin), old(position),
                                 maxWidth, maxHeight, screenWidth, screenHeight)
      ensures res.Err? ==> State() == old(State())
      ensures res.Ok? ==> State() == old(State()).(envelope := Some(res.value),
                                                   needsRedraw := old(needsRedraw) || old(envelope) != Some(res.value))
    {
      var minX := CalculatePositionX(horizontalAlignment, margin, position, 0.0, screenWidth, maxWidth);
      if minX.Err? { return Err(minX.error); }
      var minY := CalculatePositionY(verticalAlignment, margin, position, 0.0, screenHeight, maxHeight);
      if minY.Err? { return Err(minY.error); }
      var maxX := if horizontalAlignment == HorizontalAlignment.Stretch then screenWidth - margin.Right() else minX.value + maxWidth;
      var maxY := if verticalAlignment == VerticalAlignment.Stretch then screenHeight - margin.Bottom() else minY.value + maxHeight;
      var envelopeRect := Rect(minX.value, minY.value, maxX, maxY);
      SetEnvelope(Some(envelopeRect));
      res := Ok(envelopeRect);
    }
  }
}
