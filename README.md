# Mapsui core, modelled in Dafny

This project models the core of Mapsui, a .NET map component:

- **Geometry values:** `MPoint` and `MRect`.
- **Map:** the extent fold over the layers, the default resolutions it derives from them, the zoom bounds, and the pan bounds it hands to the navigator.
- **Widgets:** the layout properties of a `BaseWidget` and the envelope it computes.
- **`MyLocationLayer`:** the non-animated updates of location, speed and direction.
- **Rendering:** how a line string's pens are chosen and how `LabelStyleRenderer` measures, wraps, truncates, places and draws a label.

Doubles are modelled as `real`. A C# `(int)` cast and `%` on `int` are written out with truncation toward zero (`Numerics`).

Text measurement comes from the font's advance and bounds functions, given as function values (`FontMetrics`). `Math.Log(x, 2)`, `Math.Sqrt`, `WorldToScreenXY`, `GetLabelText`, `Offset.Combine`/`GetAbsoluteOffset` and `Pen.IsVisible` are parameters of the operations that use them.

A canvas call is recorded as a `DrawOp` (label) or `PathDraw` (line string). The calls `MyLocationLayer` makes on its map and feature are recorded as a trace.

Modules:

- `Wrappers`: Option, Result and the exceptions thrown.
- `Numerics`: C# casts and remainders.
- `Points`: `MPoint`.
- `Rects`: `MRect`.
- `Widgets`: the `BaseWidget` class.
- `Maps`: the `Map` class, with its `Navigator` defaults.
- `MyLocation`: the `MyLocationLayer` class, whose transitions are specified by functions on a `LayerState` snapshot.
- `Styles`: colours and pens.
- `LineStrings`: `LineStringRenderer`.
- `TextSplit`: `String.Split` and `Join`.
- `LineBreaking`: `SplitLines`.
- `Truncation`: the head, tail and middle shrink loops.
- `Labels`: `LabelStyleRenderer`.

## Model

| member | source | states |
|---|---|---|
| Numerics.TruncToInt | Mapsui/Layers/MyLocationLayer.cs:291-292 | `(int)x` truncates toward zero: for x ≥ 0, n ≤ x < n+1; for x < 0, n-1 < x ≤ n |
| Numerics.TruncRem | Mapsui/Layers/MyLocationLayer.cs:316 | C# `%`: a == n·q + r with q the truncated quotient; r has the sign of a and \|r\| < n |
| Points.Origin | Mapsui/MPoint.cs:14 | the parameterless point is (0, 0) |
| Points.Copy | Mapsui/MPoint.cs:28-37 | the copy equals the original under `Equals`, both ways |
| Points.Equals | Mapsui/MPoint.cs:49-55 | true exactly when the other point is non-null with equal coordinates |
| Points.OpEquals | Mapsui/MPoint.cs:158-166 | `==` holds exactly when both are null or both are equal points |
| Points.Offset | Mapsui/MPoint.cs:71-74 | the result minus the original is the displacement (dx, dy) |
| Points.Add | Mapsui/MPoint.cs:123-126 | subtracting either operand from the sum gives the other |
| Points.Sub | Mapsui/MPoint.cs:128-131 | the difference added back to q gives p; zero exactly for equal points |
| Points.Scale | Mapsui/MPoint.cs:133-136 | both coordinates multiplied by the factor; factor 1 keeps the point, factor 0 gives the origin |
| Points.OffsetIsAddition | Mapsui/MPoint.cs:71-74 | offsetting is adding the displacement point |
| Points.AddSubRoundTrip | Mapsui/MPoint.cs:123-131 | (p + q) - q == p and (p - q) + q == p |
| Points.AddCommutes | Mapsui/MPoint.cs:123-126 | `+` is commutative and the origin is its identity |
| Points.ScaleProperties | Mapsui/MPoint.cs:123-136 | p·1 == p; scaling distributes over `+` |
| Points.ScaleInverse | Mapsui/MPoint.cs:133-136 | scaling by a non-zero factor and then by its reciprocal gives the point back |
| Points.OpEqualsProperties | Mapsui/MPoint.cs:158-166 | `==` is reflexive and symmetric, and agrees with `Equals` for a non-null left side |
| Rects.SwapMinAndMaxIfNeeded | Mapsui/MRect.cs:248-258 | the result is normalised, holds the min and max of each axis' two values, and leaves a normalised rectangle unchanged |
| Rects.Rect | Mapsui/MRect.cs:34-40 | the four-value constructor yields a normalised rectangle whose corners are the per-axis min and max |
| Rects.FromValue | Mapsui/MRect.cs:42 | both corners are (v, v) |
| Rects.FromPoint | Mapsui/MRect.cs:44 | both corners are (x, y) |
| Rects.Copy | Mapsui/MRect.cs:81-84 | the copy is normalised and equals a normalised original |
| Rects.Centroid | Mapsui/MRect.cs:39 | the centroid is the midpoint of the corners |
| Rects.Contains | Mapsui/MRect.cs:86-94 | closed-bounds containment of (x, y) |
| Rects.ContainsRect | Mapsui/MRect.cs:108-111 | for a normalised s, holds exactly when both corners of s are contained; a contained rectangle is never wider or taller |
| Rects.ContainsPoint | Mapsui/MRect.cs:96-106 | false for null; otherwise closed-bounds containment |
| Rects.Equals | Mapsui/MRect.cs:113-119 | true exactly when the other rectangle is non-null with equal corners |
| Rects.OpEquals | Mapsui/MRect.cs:238-246 | `==` holds exactly when both are null or equal |
| Rects.GetArea | Mapsui/MRect.cs:121-124 | non-negative for a normalised rectangle, and 0 only when width or height is 0 |
| Rects.Grow | Mapsui/MRect.cs:131-136 | normalised, same centroid, each side length \|old + 2·amount\|, and contains the original for non-negative amounts |
| Rects.GrowBy | Mapsui/MRect.cs:126-129 | the same, with one amount on both axes |
| Rects.Intersects | Mapsui/MRect.cs:138-148 | false for null; otherwise strict overlap on both axes |
| Rects.Join | Mapsui/MRect.cs:150-159 | normalised; with null it is the rectangle itself; otherwise it spans both operands |
| Rects.Multiply | Mapsui/MRect.cs:166-181 | a negative factor throws `ArgumentException`; otherwise the centroid is kept, the width and the height each grow by (W+H)/2·(factor−1), and factor 1 gives a copy |
| Rects.ConstructedRectIsNonNegative | Mapsui/MRect.cs:34-40 | every constructed rectangle has non-negative width, height and area |
| Rects.ContainsRectIsPreorder | Mapsui/MRect.cs:108-111 | `Contains(MRect)` is reflexive and transitive |
| Rects.ContainsRectIsPointwise | Mapsui/MRect.cs:108-111 | r contains a normalised s exactly when every point of s is in r |
| Rects.IntersectsIsSymmetric | Mapsui/MRect.cs:138-148 | `Intersects` is symmetric |
| Rects.SharedEdgeDoesNotIntersect | Mapsui/MRect.cs:138-148 | rectangles that only touch at an edge do not intersect |
| Rects.JoinIsLeastUpperBound | Mapsui/MRect.cs:150-159 | `Join` commutes and is contained in every rectangle that contains both operands |
| Rects.MultiplyMayInvert | Mapsui/MRect.cs:166-181 | factor 0 on a 0×10 rectangle yields MinX 2.5 > MaxX −2.5 |
| Rects.Bounds | Mapsui/MRect.cs:48-65 | the hull contains every rectangle and is normalised when they are |
| Rects.BoundsIsLeast | Mapsui/MRect.cs:48-65 | every rectangle that contains all inputs contains the hull |
| Rects.BoundsIsIteratedJoin | Mapsui/MRect.cs:48-65 | for normalised inputs, the hull equals the inputs joined in order |
| Rects.FromRects | Mapsui/MRect.cs:48-65 | the collection constructor throws `ArgumentException` when the collection is empty, and otherwise yields the hull |
| Widgets.CalculatePositionX | Mapsui/Widgets/BaseWidget.cs:236-244 | Left/Stretch: margin left; Center: equal room on both sides; Right: right margin kept; Absolute: position x; any other value throws |
| Widgets.CalculatePositionY | Mapsui/Widgets/BaseWidget.cs:246-254 | the same for the vertical axis |
| Widgets.EnvelopeFor | Mapsui/Widgets/BaseWidget.cs:197-205 | throws exactly for an unknown alignment; otherwise normalised, the requested size unless stretched, the left edge and lower edge where `CalculatePositionX`/`CalculatePositionY` place them, and margins honoured for Right and Stretch |
| Widgets.BaseWidget.constructor | Mapsui/Widgets/BaseWidget.cs:8-153 | Right/Bottom, margin 2, at the origin, enabled, no envelope, not dirty |
| Widgets.BaseWidget.SetNeedsRedraw | Mapsui/Widgets/BaseWidget.cs:153 | only the flag changes |
| Widgets.BaseWidget.Invalidate | Mapsui/Widgets/BaseWidget.cs:207-210 | marks for redraw; nothing else changes |
| Widgets.BaseWidget.SetHorizontalAlignment | Mapsui/Widgets/BaseWidget.cs:19-29 | stores the value, and marks for redraw only if it differs |
| Widgets.BaseWidget.SetVerticalAlignment | Mapsui/Widgets/BaseWidget.cs:36-46 | stores the value, and marks for redraw only if it differs |
| Widgets.BaseWidget.SetMargin | Mapsui/Widgets/BaseWidget.cs:53-63 | stores the value, and marks for redraw only if it differs |
| Widgets.BaseWidget.SetPosition | Mapsui/Widgets/BaseWidget.cs:70-80 | stores the value, and marks for redraw only if it differs |
| Widgets.BaseWidget.SetWidth | Mapsui/Widgets/BaseWidget.cs:87-97 | stores the value, and marks for redraw only if it differs |
| Widgets.BaseWidget.SetHeight | Mapsui/Widgets/BaseWidget.cs:104-114 | stores the value, and marks for redraw only if it differs |
| Widgets.BaseWidget.SetEnvelope | Mapsui/Widgets/BaseWidget.cs:121-131 | stores the value, and marks for redraw only if it differs |
| Widgets.BaseWidget.SetEnabled | Mapsui/Widgets/BaseWidget.cs:138-148 | stores the value, and marks for redraw only if it differs |
| Widgets.BaseWidget.UpdateEnvelope | Mapsui/Widgets/BaseWidget.cs:197-205 | an unknown alignment throws with no change; otherwise `EnvelopeFor` goes through the envelope setter |
| Maps.ExtentOf | Mapsui/Map.cs:155-168 | null exactly when no layer has an extent |
| Maps.ExtentIsBoundsOfLayerExtents | Mapsui/Map.cs:155-168 | the extent is the hull of the non-null layer extents |
| Maps.ExtentContainsLayerExtents | Mapsui/Map.cs:155-168 | the extent contains every non-null layer extent |
| Maps.IgnoredLayerContributesNothing | Mapsui/Map.cs:365 | a disabled layer, or one without resolutions, adds no candidate resolutions |
| Maps.MinDistance | Mapsui/Map.cs:384 | the smallest \|key − x\|: at most each distance and equal to one of them |
| Maps.Kept | Mapsui/Map.cs:361-387 | non-empty for non-empty input; every key is the log2 of its resolution |
| Maps.KeptStep | Mapsui/Map.cs:377-386 | a candidate is added exactly when its log2 is more than 0.75 from every kept key |
| Maps.KeptKeepsFirst | Mapsui/Map.cs:378-381 | the first candidate is always kept |
| Maps.KeptIsSpread | Mapsui/Map.cs:377-386 | the kept keys are pairwise more than 0.75 apart |
| Maps.KeptCoversCandidates | Mapsui/Map.cs:377-386 | every candidate is within 0.75 in log2 of some kept key |
| Maps.SortDescending | Mapsui/Map.cs:353-390 | `OrderByDescending` is sorted descending and a permutation |
| Maps.SortKeepsSpread | Mapsui/Map.cs:390 | sorting keeps the 0.75 spacing |
| Maps.ResolutionsOfProperties | Mapsui/Map.cs:359-391 | the defaults are sorted descending and pairwise more than 0.75 apart in log2; each is a resolution of an enabled layer, and every such resolution is within 0.75 of one |
| Maps.GetMinMaxResolution | Mapsui/Map.cs:350-357 | null exactly for null or empty input; otherwise (the largest resolution, half the smallest) |
| Maps.AddResolutions | Mapsui/Map.cs:365-387 | the inner loop leaves the dictionary `Kept` would give for the candidates so far |
| Maps.Navigator.constructor | Mapsui/Map.cs:173 | stores the three navigator defaults |
| Maps.Map.constructor | Mapsui/Map.cs:31-43 | a map with no layers |
| Maps.Map.Extent | Mapsui/Map.cs:155-168 | the loop computes `ExtentOf` |
| Maps.Map.DetermineResolutions | Mapsui/Map.cs:359-391 | both loops and the final sort compute `ResolutionsOf` |
| Maps.Map.LayersChanged | Mapsui/Map.cs:342-348 | sets the default resolutions, the zoom bounds from the navigator's resolutions, and a copy of the extent (or null) as the pan bounds |
| Maps.Map.LayersCollectionChanged | Mapsui/Map.cs:307-316 | stores the new layers and runs `LayersChanged` |
| Maps.PanBoundsContainLayerExtents | Mapsui/Map.cs:346 | the pan bounds contain every layer extent |
| MyLocation.InitialState | Mapsui/Layers/MyLocationLayer.cs:147-208 | the initial layer is consistent and has made no calls |
| MyLocation.AfterSetIsMoving | Mapsui/Layers/MyLocationLayer.cs:44-55 | the flag takes the value; the image changes only when the flag flips; consistency is kept |
| MyLocation.AfterUpdateMySpeed | Mapsui/Layers/MyLocationLayer.cs:362-380 | moving exactly when speed > 0; a refresh exactly when the flag flipped; nothing else changes |
| MyLocation.AfterInternalUpdateMyLocation | Mapsui/Layers/MyLocationLayer.cs:479-493 | reports a change exactly when the location differs; then stores it, moves the feature and notifies it; otherwise no change |
| MyLocation.AfterUpdateMyLocation | Mapsui/Layers/MyLocationLayer.cs:214-279 | an equal location is a no-op; otherwise the location moves and the map recentres when centred; nothing else changes |
| MyLocation.EndRotation | Mapsui/Layers/MyLocationLayer.cs:307-316 | congruent to the new rotation mod 360; in (−360, 360); the C# remainder for non-negative rotations; the sign for every negative rotation |
| MyLocation.AfterUpdateMyDirection | Mapsui/Layers/MyLocationLayer.cs:289-354 | no-op when the truncated rotation equals the current one; otherwise stores the direction, turns the symbol to `EndRotation` and refreshes |
| MyLocation.AfterUpdateMyViewDirection | Mapsui/Layers/MyLocationLayer.cs:388-458 | a truncated rotation of −1 only hides the symbol; a change shows it, stores the direction, turns it and refreshes |
| MyLocation.UpdatesPreserveConsistency | Mapsui/Layers/MyLocationLayer.cs:479-493 | every update keeps the feature at the location and the image matching the flag |
| MyLocation.DirectionUpdateTurnsSymbol | Mapsui/Layers/MyLocationLayer.cs:289-354 | after a change, the symbol's rotation is the new rotation modulo 360 |
| MyLocation.RepeatedDirectionUpdateInRangeIsNoOp | Mapsui/Layers/MyLocationLayer.cs:291-316 | for a rotation in [0, 360), repeating an update changes nothing |
| MyLocation.RepeatedDirectionUpdateOutOfRangeRefreshes | Mapsui/Layers/MyLocationLayer.cs:291-353 | 380° is stored as 20°, so each repeat refreshes again |
| MyLocation.SpeedUpdateIsIdempotent | Mapsui/Layers/MyLocationLayer.cs:362-380 | a second equal speed update changes nothing |
| MyLocation.MyLocationLayer.constructor | Mapsui/Layers/MyLocationLayer.cs:147-208 | the state is `InitialState` |
| MyLocation.MyLocationLayer.FromLocationAsWritten | Mapsui/Layers/MyLocationLayer.cs:138-141 | the location is stored but the feature stays at (0, 0) |
| MyLocation.MyLocationLayer.FromLocation | Mapsui/Layers/MyLocationLayer.cs:138-156 | the location and the feature both start at the given location, so the layer is consistent |
| MyLocation.MyLocationLayer.SetIsMoving | Mapsui/Layers/MyLocationLayer.cs:44-55 | performs `AfterSetIsMoving` |
| MyLocation.MyLocationLayer.SetIsCentered | Mapsui/Layers/MyLocationLayer.cs:62-72 | only the centred flag changes |
| MyLocation.MyLocationLayer.UpdateMySpeed | Mapsui/Layers/MyLocationLayer.cs:362-380 | performs `AfterUpdateMySpeed` |
| MyLocation.MyLocationLayer.InternalUpdateMyLocation | Mapsui/Layers/MyLocationLayer.cs:479-493 | performs `AfterInternalUpdateMyLocation` |
| MyLocation.MyLocationLayer.UpdateMyLocation | Mapsui/Layers/MyLocationLayer.cs:214-279 | performs `AfterUpdateMyLocation` |
| MyLocation.MyLocationLayer.UpdateMyDirection | Mapsui/Layers/MyLocationLayer.cs:289-354 | performs `AfterUpdateMyDirection` |
| MyLocation.MyLocationLayer.UpdateMyViewDirection | Mapsui/Layers/MyLocationLayer.cs:388-458 | performs `AfterUpdateMyViewDirection` |
| MyLocation.AsWrittenConstructorLeavesFeatureBehind | Mapsui/Layers/MyLocationLayer.cs:138-156 | after the two-argument constructor at (10, 20), the feature is at (0, 0) and re-announcing (10, 20) does not move it |
| MyLocation.CorrectedConstructorIsConsistent | Mapsui/Layers/MyLocationLayer.cs:138-156 | the corrected start is consistent and stays so after a location update |
| LineStrings.CreateSkPaint | Mapsui.Rendering.Skia/SkiaStyles/LineStringRenderer.cs:49-87 | antialiased stroke; width: explicit, else the pen's, else 1; pen parameters or defaults; a dash effect exactly for a non-solid pen |
| LineStrings.OutlineWidth | Mapsui.Rendering.Skia/SkiaStyles/LineStringRenderer.cs:39 | 1 without a line pen; otherwise line width + 2·outline width |
| LineStrings.Draw | Mapsui.Rendering.Skia/SkiaStyles/LineStringRenderer.cs:11-47 | nothing without a style or a visible line; otherwise one or two draws (two exactly with an outline of positive width), the line last, all on the path built for the line width |
| LineStrings.OutlineIsDrawnUnderTheLine | Mapsui.Rendering.Skia/SkiaStyles/LineStringRenderer.cs:35-45 | the outline is drawn first and is wider than the line by twice its width |
| TextSplit.Split | Mapsui.Rendering.Skia/SkiaStyles/LabelStyleRenderer.cs:352 | at least one piece, none containing the separator |
| TextSplit.SplitJoinedRoundTrip | Mapsui.Rendering.Skia/SkiaStyles/LabelStyleRenderer.cs:352 | joining the pieces with the separator gives back the string |
| TextSplit.SplitWithoutSeparator | Mapsui.Rendering.Skia/SkiaStyles/LabelStyleRenderer.cs:352 | a string without the separator splits into itself |
| TextSplit.Chars | Mapsui.Rendering.Skia/SkiaStyles/LabelStyleRenderer.cs:361 | one one-character string per character, in order |
| TextSplit.SpelledChars | Mapsui.Rendering.Skia/SkiaStyles/LabelStyleRenderer.cs:361 | the characters with an empty separator spell the string |
| TextSplit.SpelledWords | Mapsui.Rendering.Skia/SkiaStyles/LabelStyleRenderer.cs:366 | the words, each followed by a space, spell the segment plus a space |
| LineBreaking.Separator | Mapsui.Rendering.Skia/SkiaStyles/LabelStyleRenderer.cs:140 | character mode exactly when the split character is empty |
| LineBreaking.SpaceWidth | Mapsui.Rendering.Skia/SkiaStyles/LabelStyleRenderer.cs:351-363 | 0 in character mode; the measured space in word mode |
| LineBreaking.GroupWidthIsAdvancesPlusSeparators | Mapsui.Rendering.Skia/SkiaStyles/LabelStyleRenderer.cs:373-386 | a line's width is its units' advances plus one space advance per unit |
| LineBreaking.Groups | Mapsui.Rendering.Skia/SkiaStyles/LabelStyleRenderer.cs:371-390 | keeps the finished lines and adds at least the current one |
| LineBreaking.LinesOf | Mapsui.Rendering.Skia/SkiaStyles/LabelStyleRenderer.cs:379-390 | one line per group |
| LineBreaking.PackSegment | Mapsui.Rendering.Skia/SkiaStyles/LabelStyleRenderer.cs:369-390 | the per-segment loop yields the lines of the greedy packing |
| LineBreaking.SplitLines | Mapsui.Rendering.Skia/SkiaStyles/LabelStyleRenderer.cs:346-394 | the array holds `SplitLinesOf`: nothing for null text, else each segment's lines in order |
| LineBreaking.PackedKeepsWords | Mapsui.Rendering.Skia/SkiaStyles/LabelStyleRenderer.cs:371-390 | packing neither drops, duplicates nor reorders units |
| LineBreaking.PackedIsGreedy | Mapsui.Rendering.Skia/SkiaStyles/LabelStyleRenderer.cs:377-387 | every line break is forced by an overflow, and every appended unit fits (equality fits) |
| LineBreaking.PackedFirstLine | Mapsui.Rendering.Skia/SkiaStyles/LabelStyleRenderer.cs:377-381 | the first line is empty exactly when there are no units or the first overflows alone |
| LineBreaking.CharacterLinesSpellSegment | Mapsui.Rendering.Skia/SkiaStyles/LabelStyleRenderer.cs:361-390 | in character mode, a segment's lines concatenate to the segment |
| LineBreaking.WordLinesSpellSegment | Mapsui.Rendering.Skia/SkiaStyles/LabelStyleRenderer.cs:366-390 | in word mode, they concatenate to the segment plus one space |
| LineBreaking.EverySegmentYieldsALine | Mapsui.Rendering.Skia/SkiaStyles/LabelStyleRenderer.cs:354-393 | at least one line per '\n' segment |
| LineBreaking.SplitLinesCases | Mapsui.Rendering.Skia/SkiaStyles/LabelStyleRenderer.cs:348-352 | null text gives no lines; any text gives at least one; text without '\n' gives its segment's lines |
| Truncation.SliceFrom | Mapsui.Rendering.Skia/SkiaStyles/LabelStyleRenderer.cs:168 | `s[a..]` throws `ArgumentOutOfRangeException` unless 0 ≤ a ≤ \|s\|; otherwise it is the suffix from a |
| Truncation.SliceTo | Mapsui.Rendering.Skia/SkiaStyles/LabelStyleRenderer.cs:179 | `s[..b]` throws unless 0 ≤ b ≤ \|s\|; otherwise it is the prefix of length b |
| Truncation.HeadKept | Mapsui.Rendering.Skia/SkiaStyles/LabelStyleRenderer.cs:169-170 | a suffix of the start string |
| Truncation.TailKept | Mapsui.Rendering.Skia/SkiaStyles/LabelStyleRenderer.cs:180-181 | a prefix of the start string |
| Truncation.MiddleKept | Mapsui.Rendering.Skia/SkiaStyles/LabelStyleRenderer.cs:192-197 | a prefix of the first part and a suffix of the second, with equal numbers dropped from each |
| Truncation.HeadKeptFits | Mapsui.Rendering.Skia/SkiaStyles/LabelStyleRenderer.cs:169-170 | stops at one character or with "..." + suffix within the budget |
| Truncation.HeadKeptDroppedOnlyOverflow | Mapsui.Rendering.Skia/SkiaStyles/LabelStyleRenderer.cs:169-170 | every longer suffix was dropped because it overflowed |
| Truncation.TailKeptFits | Mapsui.Rendering.Skia/SkiaStyles/LabelStyleRenderer.cs:180-181 | stops at one character or with prefix + "..." within the budget |
| Truncation.TailKeptDroppedOnlyOverflow | Mapsui.Rendering.Skia/SkiaStyles/LabelStyleRenderer.cs:180-181 | every longer prefix was dropped because it overflowed |
| Truncation.MiddleKeptFits | Mapsui.Rendering.Skia/SkiaStyles/LabelStyleRenderer.cs:192-197 | stops with a part down to one character or with the joined string within the budget |
| Truncation.MiddleKeptDroppedOnlyOverflow | Mapsui.Rendering.Skia/SkiaStyles/LabelStyleRenderer.cs:192-197 | every pair dropped overflowed with both parts longer than one |
| Truncation.ShrinkHead | Mapsui.Rendering.Skia/SkiaStyles/LabelStyleRenderer.cs:169-170 | the loop computes `HeadKept` |
| Truncation.ShrinkTail | Mapsui.Rendering.Skia/SkiaStyles/LabelStyleRenderer.cs:180-181 | the loop computes `TailKept` |
| Truncation.ShrinkMiddle | Mapsui.Rendering.Skia/SkiaStyles/LabelStyleRenderer.cs:192-197 | the loop computes `MiddleKept` |
| Truncation.HeadTruncated | Mapsui.Rendering.Skia/SkiaStyles/LabelStyleRenderer.cs:166-174 | throws exactly when the character count is outside the text |
| Truncation.TailTruncated | Mapsui.Rendering.Skia/SkiaStyles/LabelStyleRenderer.cs:177-185 | throws exactly when the character count is outside the text |
| Truncation.MiddleTruncated | Mapsui.Rendering.Skia/SkiaStyles/LabelStyleRenderer.cs:188-202 | throws exactly when the character count is outside the text |
| Truncation.TruncateHead | Mapsui.Rendering.Skia/SkiaStyles/LabelStyleRenderer.cs:166-171 | slices `(int)MaxWidth + 2` characters from the end and shrinks them: `HeadTruncated` |
| Truncation.TruncateTail | Mapsui.Rendering.Skia/SkiaStyles/LabelStyleRenderer.cs:177-182 | the same from the start: `TailTruncated` |
| Truncation.TruncateMiddle | Mapsui.Rendering.Skia/SkiaStyles/LabelStyleRenderer.cs:188-199 | `(int)(MaxWidth / 2) + 1` characters from each end: `MiddleTruncated` |
| Truncation.HeadTruncationResult | Mapsui.Rendering.Skia/SkiaStyles/LabelStyleRenderer.cs:166-174 | success is "..." followed by the last m ≤ count characters, where m ≤ 1 or the result fits |
| Truncation.TailTruncationResult | Mapsui.Rendering.Skia/SkiaStyles/LabelStyleRenderer.cs:177-185 | success is the first m ≤ count characters followed by "...", where m ≤ 1 or the result fits |
| Truncation.MiddleTruncationResult | Mapsui.Rendering.Skia/SkiaStyles/LabelStyleRenderer.cs:188-202 | success is the first and the last h ≤ count characters around "...", where h ≤ 1 or the result fits |
| Labels.Box.Offset | Mapsui.Rendering.Skia/SkiaStyles/LabelStyleRenderer.cs:210-212 | the box moves by (dx, dy) and keeps its size |
| Labels.Box.Inflate | Mapsui.Rendering.Skia/SkiaStyles/LabelStyleRenderer.cs:217-218 | the box grows by dx on each side and by dy at the top and bottom |
| Labels.SizedBox | Mapsui.Rendering.Skia/SkiaStyles/LabelStyleRenderer.cs:133 | a box at the origin with the given size |
| Labels.CreatePaint | Mapsui.Rendering.Skia/SkiaStyles/LabelStyleRenderer.cs:300-311 | an antialiased fill in the fore colour at the layer opacity |
| Labels.CreateStrokedPaint | Mapsui.Rendering.Skia/SkiaStyles/LabelStyleRenderer.cs:331-337 | the fill paint's colour and antialiasing, with the given paint style and stroke width |
| Labels.HaloPaint | Mapsui.Rendering.Skia/SkiaStyles/LabelStyleRenderer.cs:441-448 | stroke and fill, twice the pen width, opacity 1 |
| Labels.CalcHorizontalAlignment | Mapsui.Rendering.Skia/SkiaStyles/LabelStyleRenderer.cs:261-267 | Left gives 0, Center 0.5, Right 1; throws `ArgumentException` exactly for an unknown value |
| Labels.CalcVerticalAlignment | Mapsui.Rendering.Skia/SkiaStyles/LabelStyleRenderer.cs:269-275 | Top gives 0, Center 0.5, Bottom 1; throws `ArgumentException` exactly for an unknown value |
| Labels.Placed | Mapsui.Rendering.Skia/SkiaStyles/LabelStyleRenderer.cs:205-212 | placement fails exactly when an alignment is unknown |
| Labels.PlacementAnchorsTheBox | Mapsui.Rendering.Skia/SkiaStyles/LabelStyleRenderer.cs:205-212 | the offset anchor lands on the left/centre/right and top/middle/bottom edge the alignments name; the size is kept |
| Labels.LineX | Mapsui.Rendering.Skia/SkiaStyles/LabelStyleRenderer.cs:249-254 | a centred line has equal room on both sides; a right-aligned one ends at the right edge; otherwise it starts at the left |
| Labels.DrawBackground | Mapsui.Rendering.Skia/SkiaStyles/LabelStyleRenderer.cs:277-298 | a rounded rectangle exactly when there is a back colour, then a border exactly when its thickness is > 0 and its colour is not transparent |
| Labels.LineDraws | Mapsui.Rendering.Skia/SkiaStyles/LabelStyleRenderer.cs:244-256 | draw i shows line i's text at the box top plus its baseline, centred, right-aligned or left-aligned in the box as the alignment says |
| Labels.TextDraws | Mapsui.Rendering.Skia/SkiaStyles/LabelStyleRenderer.cs:244-258 | the line draws for wrapped text, or the whole text at the box's left edge on the baseline, all in the given role and paint |
| Labels.BoxOf | Mapsui.Rendering.Skia/SkiaStyles/LabelStyleRenderer.cs:133 | the measured bounds moved to the origin, with the same size |
| Labels.WithBaselines | Mapsui.Rendering.Skia/SkiaStyles/LabelStyleRenderer.cs:142-146 | one line per line |
| Labels.LineStepsIsProduct | Mapsui.Rendering.Skia/SkiaStyles/LabelStyleRenderer.cs:144-148 | n steps added one at a time make step · n |
| Labels.MaxLineWidthIsWidest | Mapsui.Rendering.Skia/SkiaStyles/LabelStyleRenderer.cs:141-146 | the running max is ≥ 0 and ≥ every line's width, and equals one of them unless it is 0 |
| Labels.ArrangeLines | Mapsui.Rendering.Skia/SkiaStyles/LabelStyleRenderer.cs:141-146 | the loop sets the baselines in place and returns the running max width |
| Labels.DrawLines | Mapsui.Rendering.Skia/SkiaStyles/LabelStyleRenderer.cs:244-256 | the loop issues `LineDraws` |
| Labels.WrapOnce | Mapsui.Rendering.Skia/SkiaStyles/LabelStyleRenderer.cs:140-148 | split, arrange, and size the box: `Wrapped` |
| Labels.WrappedFrom | Mapsui.Rendering.Skia/SkiaStyles/LabelStyleRenderer.cs:148 | the box computed from the line count is the one `Wrapped` specifies |
| Labels.WrapLines | Mapsui.Rendering.Skia/SkiaStyles/LabelStyleRenderer.cs:135-163 | the two wrap blocks compute `WrapStage` |
| Labels.MeasureEm | Mapsui.Rendering.Skia/SkiaStyles/LabelStyleRenderer.cs:117-127 | the em height and the budget are measured only when MaxWidth > 0 or the text has a newline |
| Labels.LayOutLabel | Mapsui.Rendering.Skia/SkiaStyles/LabelStyleRenderer.cs:113-203 | measuring, wrapping and truncating compute `LaidOut` |
| Labels.LayOutWith | Mapsui.Rendering.Skia/SkiaStyles/LabelStyleRenderer.cs:129-203 | the same, once the budget and line step are known |
| Labels.WrapAndTruncate | Mapsui.Rendering.Skia/SkiaStyles/LabelStyleRenderer.cs:135-203 | the wrap blocks, then the truncation blocks: `Relaid` |
| Labels.TruncateText | Mapsui.Rendering.Skia/SkiaStyles/LabelStyleRenderer.cs:165-202 | the shrink loop the mode selects: `TruncatedText` |
| Labels.TruncateLabel | Mapsui.Rendering.Skia/SkiaStyles/LabelStyleRenderer.cs:165-202 | the truncation blocks: `TruncateStage` |
| Labels.DrawPlaced | Mapsui.Rendering.Skia/SkiaStyles/LabelStyleRenderer.cs:214-258 | background, halo, then text draws |
| Labels.PlaceBox | Mapsui.Rendering.Skia/SkiaStyles/LabelStyleRenderer.cs:205-212 | computes `Placed` |
| Labels.DrawLabel | Mapsui.Rendering.Skia/SkiaStyles/LabelStyleRenderer.cs:106-259 | the whole method computes `LabelDraws`; an exception means nothing is drawn |
| Labels.WrappedGeometry | Mapsui.Rendering.Skia/SkiaStyles/LabelStyleRenderer.cs:140-162 | line i keeps its text and width at baseline + step·i; the box is as wide as the widest line and taller by step per extra line |
| Labels.WrappedDraws | Mapsui.Rendering.Skia/SkiaStyles/LabelStyleRenderer.cs:244-256 | the draws of a wrapped label show line i at its aligned x and at the box top plus baseline + step·i |
| Labels.WrappedHeight | Mapsui.Rendering.Skia/SkiaStyles/LabelStyleRenderer.cs:148 | height = measured height + step·(lines − 1) |
| Labels.NewlineWordWrapGrowsTwice | Mapsui.Rendering.Skia/SkiaStyles/LabelStyleRenderer.cs:138-162 | text with a newline in word-wrap mode ends with the word lines, and its box grows for both wraps |
| Labels.TruncationKeepsLines | Mapsui.Rendering.Skia/SkiaStyles/LabelStyleRenderer.cs:165-202 | truncation replaces only the text and box, and fails exactly when a slice throws |
| Labels.LayoutOnlyWhenNeeded | Mapsui.Rendering.Skia/SkiaStyles/LabelStyleRenderer.cs:122-152 | without the need for layout, the measured text is kept unwrapped; lines appear only with a newline or a wrap mode |
| Labels.ConcatInDrawOrder | Mapsui.Rendering.Skia/SkiaStyles/LabelStyleRenderer.cs:214-258 | a background part, then halo draws, then text draws, are in draw order |
| Labels.DrawOrder | Mapsui.Rendering.Skia/SkiaStyles/LabelStyleRenderer.cs:214-258 | every label's draws run background, border, halo, text |
| Labels.HaloUnderText | Mapsui.Rendering.Skia/SkiaStyles/LabelStyleRenderer.cs:222-258 | one halo draw per text draw, at the same text and position, in the halo paint |
| Labels.WorldAnchor | Mapsui.Rendering.Skia/SkiaStyles/LabelStyleRenderer.cs:47-66 | the point of a point feature; the extent centroid of a line string or geometry; none otherwise |
| Labels.FeatureDraws | Mapsui.Rendering.Skia/SkiaStyles/LabelStyleRenderer.cs:37-74 | not drawn exactly for an empty or null text, or a missing extent; for a drawable feature with an anchor, exactly `DrawLabel`'s draws at the anchor's screen position (none if it throws) |
| Labels.Draw | Mapsui.Rendering.Skia/SkiaStyles/LabelStyleRenderer.cs:37-74 | computes `FeatureDraws` |
| Labels.MeasuringPaint | Mapsui.Rendering.Skia/SkiaStyles/LabelStyleRenderer.cs:418-421 | exactly `HaloPaint` of the halo (stroke-and-fill, twice its width, its colour at opacity 1) with a halo; otherwise the fore paint at opacity 1 |
| Labels.FeatureSize | Mapsui.Rendering.Skia/SkiaStyles/LabelStyleRenderer.cs:410-439 | 0 for empty or null text; otherwise the larger measured side plus twice the offset length |
| Labels.StyleFeatureSize | Mapsui.Rendering.Skia/SkiaStyles/LabelStyleRenderer.cs:398-408 | a null feature throws `ArgumentNullException`; a non-label style gives 0; otherwise `FeatureSize` |
| Labels.LabelAsImage | Mapsui.Rendering.Skia/SkiaStyles/LabelStyleRenderer.cs:87-104 | the bitmap is 6 px larger than the text, with the background over all of it and the text bounds 3 px inside every edge |

## Left out

- `DrawAsBitmap` and `CreateLabelAsBitmap` (LabelStyleRenderer.cs:21-35, 76-85): they only cache and blit the image that `LabelAsImage` describes. `BitmapRenderer` and `Math.Round` are not part of this model.
- Skia and `VectorCache`: fonts, paths, path effects, bitmaps and cache lifetimes are not modelled. A cached resource is modelled as a pure function of its key. `canvas.Clear()` is not modelled.
- Floating point: doubles and floats are `real`. Rounding, NaN, infinities and the `float`/`double` casts are not modelled.
- Numerics.TruncToInt: covers only doubles in range; the 32-bit overflow of C#'s `(int)` cast is not modelled.
- Labels.Draw: the exception raised when the style is not a `LabelStyle` is not modelled. The logged message is dropped; only "nothing drawn, feature counts as drawn" is kept.
- Labels.FeatureSize: the exact size is stated only when the given square root behaves as one; `Math.Sqrt` is a parameter.
- Line strings: path building (`ToSkiaPath`) and `Pen.IsVisible` are parameters or left out. The dash-pattern contents of `PenStyle.ToSkia` are not modelled.
- `MyLocationLayer`:
  - the animated paths of the three updates, the callout style, `MapTapped`, `Scale`, and the events;
  - map and feature calls are recorded as a trace rather than performed;
  - the null check on `map` is not modelled.
- `Map`:
  - `OnPropertyChanged`, layer event wiring and fetching;
  - the navigator beyond its three defaults. `Navigator.Resolutions` is a parameter that gives the resolutions the navigator reports once its defaults are set.
- `MPoint.Distance` and `Rotate`, `MRect.Rotate`, `Vertices`, `ToString` and `GetHashCode` are not modelled.
- `MPoint` and `MRect` are modelled as values, so aliasing of a mutable `MPoint` is not captured. This covers the feature point that `InternalUpdateMyLocation` writes through, which is modelled as a field of the layer state.
- `Color.Transparent` is taken as white with alpha 0. Colour conversion to Skia is kept symbolic as the colour and opacity it was made from.
- The platform map controls and the custom-style sample are context only and are not modelled.
- TextSplit.Chars, Truncation.SliceFrom and Truncation.SliceTo: strings are sequences of Unicode scalar values, whereas C#'s `Length`, `ToCharArray` and range slices count UTF-16 code units; for text outside the Basic Multilingual Plane the source counts, splits and slices per code unit and can cut a surrogate pair, which the model does not capture.
- Widgets.BaseWidget.SetPosition: a null `Position` is not representable; positions are `MPoint` values, so the null comparison in the setter is not modelled.

## Findings

| source | as written | input that shows it | evidently intended | confidence | as-written member | corrected member |
|---|---|---|---|---|---|---|
| Mapsui/Layers/MyLocationLayer.cs:138-141 | the two-argument constructor chains to `this(map)`, which creates the feature at `_myLocation` = (0, 0) (line 156), and only then stores the starting location | `new MyLocationLayer(map, (10, 20))`: the feature stays at (0, 0), and a following `UpdateMyLocation((10, 20))` is a no-op (line 216), so the symbol never moves to the start | the feature is created at the starting location | not executed | MyLocation.MyLocationLayer.FromLocationAsWritten | MyLocation.MyLocationLayer.FromLocation |
