/**
 * MRect: an axis-aligned rectangle given by its minimum and maximum corner.  Every public
 * constructor normalises the corners (min <= max on both axes); the rectangle is modelled
 * as a value, and the constructor's in-place swap as a function on that value.
 */
module Rects {
  import opened Wrappers
  import opened Numerics
  import opened Points

  datatype MRect = MRect(min: MPoint, max: MPoint) {
    function Width(): real { max.x - min.x }
    function Height(): real { max.y - min.y }
    function Left(): real { min.x }
    function Right(): real { max.x }
    function Bottom(): real { min.y }
    function Top(): real { max.y }
  }

  /** The class invariant every constructor establishes. */
  predicate Normalized(r: MRect)
  {
    r.min.x <= r.max.x && r.min.y <= r.max.y
  }

  /** `SwapMinAndMaxIfNeeded`: on each axis, exchange min and max when min > max. */
  function SwapMinAndMaxIfNeeded(r: MRect): (s: MRect)
    ensures Normalized(s)
    ensures s.min.x == Min(r.min.x, r.max.x) && s.max.x == Max(r.min.x, r.max.x)
    ensures s.min.y == Min(r.min.y, r.max.y) && s.max.y == Max(r.min.y, r.max.y)
    ensures Normalized(r) ==> s == r
  {
    var (x0, x1) := if r.min.x > r.max.x then (r.max.x, r.min.x) else (r.min.x, r.max.x);
    var (y0, y1) := if r.min.y > r.max.y then (r.max.y, r.min.y) else (r.min.y, r.max.y);
    MRect(MPoint(x0, y0), MPoint(x1, y1))
  }

  /** `new MRect(minX, minY, maxX, maxY)`: the corners, swapped where needed. */
  function Rect(minX: real, minY: real, maxX: real, maxY: real): (r: MRect)
    ensures Normalized(r)
    ensures r.min.x == Min(minX, maxX) && r.max.x == Max(minX, maxX)
    ensures r.min.y == Min(minY, maxY) && r.max.y == Max(minY, maxY)
  {
    SwapMinAndMaxIfNeeded(MRect(MPoint(minX, minY), MPoint(maxX, maxY)))
  }

  /** `new MRect(value)`: the degenerate rectangle at (value, value). */
  function FromValue(v: real): (r: MRect)
    ensures r.min == r.max == MPoint(v, v)
  {
    Rect(v, v, v, v)
  }

  /** `new MRect(x, y)`: the degenerate rectangle at (x, y). */
  function FromPoint(x: real, y: real): (r: MRect)
    ensures r.min == r.max == MPoint(x, y)
  {
    Rect(x, y, x, y)
  }

  /** `Copy()` and `new MRect(MRect)`: a rectangle through the normalising constructor. */
  function Copy(r: MRect): (c: MRect)
    ensures Normalized(c)
    ensures Normalized(r) ==> c == r
  {
    Rect(r.min.x, r.min.y, r.max.x, r.max.y)
  }

  /** `Centroid`, stored by the constructors: the centre of the rectangle. */
  function Centroid(r: MRect): (c: MPoint)
    ensures c.x == (r.min.x + r.max.x) / 2.0 && c.y == (r.min.y + r.max.y) / 2.0
  {
    MPoint(r.min.x + r.Width() * 0.5, r.min.y + r.Height() * 0.5)
  }

  /** `Contains(x, y)`: a closed-bounds test. */
  function Contains(r: MRect, x: real, y: real): (b: bool)
    ensures b <==> r.min.x <= x <= r.max.x && r.min.y <= y <= r.max.y
  {
    if x < r.min.x then false
    else if y < r.min.y then false
    else if x > r.max.x then false
    else if y > r.max.y then false
    else true
  }

  /** `Contains(MPoint?)`: false for null, otherwise the closed-bounds test. */
  function ContainsPoint(r: MRect, p: Option<MPoint>): (b: bool)
    ensures b <==> p.Some? && Contains(r, p.value.x, p.value.y)
  {
    match p
    case None => false
    case Some(q) =>
      if q.x < r.min.x then false
      else if q.y < r.min.y then false
      else if q.x > r.max.x then false
      else if q.y > r.max.y then false
      else true
  }

  /** `Contains(MRect)`: `s` lies within `r` on both axes. */
  function ContainsRect(r: MRect, s: MRect): (b: bool)
    ensures Normalized(s) ==> (b <==> Contains(r, s.min.x, s.min.y) && Contains(r, s.max.x, s.max.y))
    ensures b ==> r.Width() - s.Width() >= 0.0 && r.Height() - s.Height() >= 0.0
  {
    r.min.x <= s.min.x && r.min.y <= s.min.y && r.max.x >= s.max.x && r.max.y >= s.max.y
  }

  /** `Equals(MRect?)`: equal corners; false against null. */
  function Equals(r: MRect, other: Option<MRect>): (b: bool)
    ensures b <==> other == Some(r)
  {
    match other
    case None => false
    case Some(s) => Points.Equals(r.max, Some(s.max)) && Points.Equals(r.min, Some(s.min))
  }

  /** `operator ==`: two nulls are equal, otherwise `Equals`. */
  function OpEquals(left: Option<MRect>, right: Option<MRect>): (b: bool)
    ensures b <==> left == right
  {
    if left.None? then right.None? else Equals(left.value, right)
  }

  /** `GetArea()`: width times height, never negative for a normalised rectangle. */
  function GetArea(r: MRect): (a: real)
    ensures Normalized(r) ==> 0.0 <= a
    ensures Normalized(r) && a == 0.0 ==> r.Width() == 0.0 || r.Height() == 0.0
  {
    r.Width() * r.Height()
  }

  /** `Grow(amountInX, amountInY)`: move every side outward, then normalise. */
  function Grow(r: MRect, ax: real, ay: real): (g: MRect)
    ensures Normalized(g)
    ensures Centroid(g) == Centroid(r)
    ensures g.Width() == Abs(r.Width() + 2.0 * ax) && g.Height() == Abs(r.Height() + 2.0 * ay)
    ensures Normalized(r) && 0.0 <= ax && 0.0 <= ay ==> ContainsRect(g, r)
  {
    SwapMinAndMaxIfNeeded(Rect(r.min.x - ax, r.min.y - ay, r.max.x + ax, r.max.y + ay))
  }

  /** `Grow(amount)`: the same amount on both axes. */
  function GrowBy(r: MRect, amount: real): (g: MRect)
    ensures Normalized(g) && Centroid(g) == Centroid(r)
    ensures g.Width() == Abs(r.Width() + 2.0 * amount) && g.Height() == Abs(r.Height() + 2.0 * amount)
    ensures Normalized(r) && 0.0 <= amount ==> ContainsRect(g, r)
  {
    Grow(r, amount, amount)
  }

  /** `Intersects(MRect?)`: false for null; strict comparisons, so sharing an edge is not enough. */
  function Intersects(r: MRect, other: Option<MRect>): (b: bool)
    ensures b <==> other.Some? &&
                   other.value.max.x > r.min.x && other.value.max.y > r.min.y &&
                   other.value.min.x < r.max.x && other.value.min.y < r.max.y
  {
    match other
    case None => false
    case Some(s) =>
      if s.max.x <= r.min.x then false
      else if s.max.y <= r.min.y then false
      else if s.min.x >= r.max.x then false
      else if s.min.y >= r.max.y then false
      else true
  }

  /** `Join(MRect?)`: a copy for null, otherwise the rectangle spanning both. */
  function Join(r: MRect, other: Option<MRect>): (j: MRect)
    ensures Normalized(j)
    ensures other.None? && Normalized(r) ==> j == r
    ensures other.Some? && Normalized(r) && Normalized(other.value) ==>
              ContainsRect(j, r) && ContainsRect(j, other.value)
  {
    match other
    case None => Copy(r)
    case Some(s) =>
      Rect(Min(r.min.x, s.min.x), Min(r.min.y, s.min.y), Max(r.max.x, s.max.x), Max(r.max.y, s.max.y))
  }

  /**
   * `Multiply(factor)`: throws for a negative factor; otherwise every side of a copy moves
   * outward by `change`, a quarter of (Width + Height) times (factor - 1).  The result is not
   * normalised again (see MultiplyMayInvert).
   */
  function Multiply(r: MRect, factor: real): (res: Result<MRect>)
    ensures res.Err? <==> factor < 0.0
    ensures res.Err? ==> res.error == ArgumentException
    ensures res.Ok? ==> Centroid(res.value) == Centroid(Copy(r))
    ensures res.Ok? ==> res.value.Width() == Copy(r).Width() + (r.Width() + r.Height()) * 0.5 * (factor - 1.0)
    ensures res.Ok? ==> res.value.Height() == Copy(r).Height() + (r.Width() + r.Height()) * 0.5 * (factor - 1.0)
    ensures factor == 1.0 ==> res == Ok(Copy(r))
  {
    if factor < 0.0 then Err(ArgumentException)
    else
      var size := (r.Width() + r.Height()) * 0.5;
      var change := (size * 0.5 * factor) - (size * 0.5);
      var box := Copy(r);
      Ok(MRect(MPoint(box.min.x - change, box.min.y - change), MPoint(box.max.x + change, box.max.y + change)))
  }

  /** Every constructed rectangle has non-negative width, height and area. */
  lemma ConstructedRectIsNonNegative(minX: real, minY: real, maxX: real, maxY: real)
    ensures Rect(minX, minY, maxX, maxY).Width() >= 0.0
    ensures Rect(minX, minY, maxX, maxY).Height() >= 0.0
    ensures GetArea(Rect(minX, minY, maxX, maxY)) >= 0.0
  {
  }

  /** `Contains(MRect)` is reflexive and transitive. */
  lemma ContainsRectIsPreorder(a: MRect, b: MRect, c: MRect)
    ensures ContainsRect(a, a)
    ensures ContainsRect(a, b) && ContainsRect(b, c) ==> ContainsRect(a, c)
  {
  }

  /** For a normalised `s`, `Contains(s)` holds exactly when every point of `s` is in `r`. */
  lemma ContainsRectIsPointwise(r: MRect, s: MRect)
    requires Normalized(s)
    ensures ContainsRect(r, s) <==> forall x: real, y: real :: Contains(s, x, y) ==> Contains(r, x, y)
  {
    if forall x: real, y: real :: Contains(s, x, y) ==> Contains(r, x, y) {
      assert Contains(s, s.min.x, s.min.y);
      assert Contains(s, s.max.x, s.max.y);
    }
  }

  /** `Intersects` is symmetric. */
  lemma IntersectsIsSymmetric(r: MRect, s: MRect)
    ensures Intersects(r, Some(s)) == Intersects(s, Some(r))
  {
  }

  /** Rectangles that only share an edge (or a corner) do not intersect. */
  lemma SharedEdgeDoesNotIntersect(r: MRect, s: MRect)
    requires s.min.x == r.max.x || s.max.x == r.min.x || s.min.y == r.max.y || s.max.y == r.min.y
    ensures !Intersects(r, Some(s))
  {
  }

  /** `Join` is the least rectangle containing both operands, and it is commutative. */
  lemma JoinIsLeastUpperBound(r: MRect, s: MRect, t: MRect)
    requires Normalized(r) && Normalized(s)
    ensures Join(r, Some(s)) == Join(s, Some(r))
    ensures ContainsRect(t, r) && ContainsRect(t, s) ==> ContainsRect(t, Join(r, Some(s)))
  {
  }

  /** Multiplying can invert a rectangle: factor 0 on a 0 x 10 rectangle puts MinX above MaxX. */
  lemma MultiplyMayInvert()
    ensures Multiply(Rect(0.0, 0.0, 0.0, 10.0), 0.0).Ok?
    ensures Multiply(Rect(0.0, 0.0, 0.0, 10.0), 0.0).value.min.x == 2.5
    ensures Multiply(Rect(0.0, 0.0, 0.0, 10.0), 0.0).value.max.x == -2.5
  {
  }

  /** The smallest rectangle spanning both operands, without normalising. */
  function Hull(a: MRect, b: MRect): MRect
  {
    MRect(MPoint(Min(a.min.x, b.min.x), Min(a.min.y, b.min.y)), MPoint(Max(a.max.x, b.max.x), Max(a.max.y, b.max.y)))
  }

  /** What the collection constructor computes: the component-wise hull of all rectangles. */
  function Bounds(rs: seq<MRect>): (b: MRect)
    requires |rs| >= 1
    ensures forall i :: 0 <= i < |rs| ==> ContainsRect(b, rs[i])
    ensures forall i :: 0 <= i < |rs| && Normalized(rs[i]) ==> Normalized(b)
    decreases |rs|
  {
    if |rs| == 1 then rs[0]
    else
      var init := rs[..|rs| - 1];
      assert forall i :: 0 <= i < |init| ==> init[i] == rs[i];
      Hull(Bounds(init), rs[|rs| - 1])
  }

  /** The hull is the least rectangle containing every input rectangle. */
  lemma {:induction false} BoundsIsLeast(rs: seq<MRect>, t: MRect)
    requires |rs| >= 1
    requires forall i :: 0 <= i < |rs| ==> ContainsRect(t, rs[i])
    ensures ContainsRect(t, Bounds(rs))
    decreases |rs|
  {
    if |rs| > 1 {
      var init := rs[..|rs| - 1];
      assert forall i :: 0 <= i < |init| ==> init[i] == rs[i];
      BoundsIsLeast(init, t);
    }
  }

  /** The iterated `Join` of a non-empty sequence of rectangles, from the first. */
  function JoinAll(rs: seq<MRect>): MRect
    requires |rs| >= 1
    decreases |rs|
  {
    if |rs| == 1 then rs[0] else Join(JoinAll(rs[..|rs| - 1]), Some(rs[|rs| - 1]))
  }

  /** For normalised inputs the collection constructor's hull is the iterated `Join`. */
  lemma {:induction false} BoundsIsIteratedJoin(rs: seq<MRect>)
    requires |rs| >= 1
    requires forall i :: 0 <= i < |rs| ==> Normalized(rs[i])
    ensures Bounds(rs) == JoinAll(rs)
    decreases |rs|
  {
    if |rs| > 1 {
      var init := rs[..|rs| - 1];
      assert forall i :: 0 <= i < |init| ==> init[i] == rs[i];
      BoundsIsIteratedJoin(init);
      assert Normalized(Bounds(init));
    }
  }

  /**
   * `new MRect(IEnumerable<MRect>)`: throws on an empty collection; otherwise starts from a
   * copy of the first rectangle's corners and widens them by every rectangle in turn.
   */
  method FromRects(rects: seq<MRect>) returns (res: Result<MRect>)
    ensures rects == [] ==> res == Err(ArgumentException)
    ensures rects != [] ==> res == Ok(Bounds(rects))
  {
    var min: Option<MPoint> := None;
    var max: Option<MPoint> := None;
    for i := 0 to |rects|
      invariant min.None? <==> i == 0
      invariant max.None? <==> i == 0
      invariant i > 0 ==> MRect(min.value, max.value) == Bounds(rects[..i])
    {
      var rect := rects[i];
      if min.None? { min := Some(Points.Copy(rect.min)); }
      if max.None? { max := Some(Points.Copy(rect.max)); }
      min := Some(MPoint(Numerics.Min(min.value.x, rect.min.x), Numerics.Min(min.value.y, rect.min.y)));
      max := Some(MPoint(Numerics.Max(max.value.x, rect.max.x), Numerics.Max(max.value.y, rect.max.y)));
      assert rects[..i + 1][..i] == rects[..i];
    }
    if min.None? || max.None? {
      res := Err(ArgumentException);
    } else {
      assert rects[..|rects|] == rects;
      res := Ok(MRect(min.value, max.value));
    }
  }
}
