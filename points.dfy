/**
 * MPoint: a point with double coordinates.  Every operation returns a new point, so the
 * point is modelled as a value; doubles are `real`.
 */
module Points {
  import opened Wrappers

  datatype MPoint = MPoint(x: real, y: real)

  /** The parameterless constructor: the origin. */
  function Origin(): (p: MPoint)
    ensures p.x == 0.0 && p.y == 0.0
  {
    MPoint(0.0, 0.0)
  }

  /** `Copy()` and the copy constructor: a point with the same coordinates. */
  function Copy(p: MPoint): (q: MPoint)
    ensures Equals(q, Some(p)) && Equals(p, Some(q))
  {
    MPoint(p.x, p.y)
  }

  /** `Equals(MPoint?)`: coordinate-wise equality; false against null. */
  function Equals(p: MPoint, other: Option<MPoint>): (b: bool)
    ensures b <==> other == Some(p)
  {
    match other
    case None => false
    case Some(q) => p.x == q.x && p.y == q.y
  }

  /** `operator ==`: two nulls are equal, null never equals a point, otherwise `Equals`. */
  function OpEquals(left: Option<MPoint>, right: Option<MPoint>): (b: bool)
    ensures b <==> left == right
  {
    if left.None? then right.None? else Equals(left.value, right)
  }

  /** `Offset(dx, dy)`: a new point moved by (dx, dy); the receiver is a value and stays as it is. */
  function Offset(p: MPoint, dx: real, dy: real): (q: MPoint)
    ensures Sub(q, p) == MPoint(dx, dy)
  {
    MPoint(p.x + dx, p.y + dy)
  }

  /** `operator +`. */
  function Add(p: MPoint, q: MPoint): (r: MPoint)
    ensures Sub(r, q) == p && Sub(r, p) == q
  {
    MPoint(p.x + q.x, p.y + q.y)
  }

  /** `operator -`. */
  function Sub(p: MPoint, q: MPoint): (r: MPoint)
    ensures r.x + q.x == p.x && r.y + q.y == p.y
    ensures p == q <==> r == Origin()
  {
    MPoint(p.x - q.x, p.y - q.y)
  }

  /** `operator *` with a scalar. */
  function Scale(p: MPoint, m: real): (r: MPoint)
    ensures r.x == m * p.x && r.y == m * p.y
    ensures m == 1.0 ==> r == p
    ensures m == 0.0 ==> r == Origin()
  {
    MPoint(p.x * m, p.y * m)
  }

  /** Offsetting is adding the displacement. */
  lemma OffsetIsAddition(p: MPoint, dx: real, dy: real)
    ensures Offset(p, dx, dy) == Add(p, MPoint(dx, dy))
  {
  }

  /** `(p + q) - q == p` and `(p - q) + q == p`: subtraction undoes addition. */
  lemma AddSubRoundTrip(p: MPoint, q: MPoint)
    ensures Sub(Add(p, q), q) == p
    ensures Add(Sub(p, q), q) == p
  {
  }

  /** `+` is commutative and has the origin as identity. */
  lemma AddCommutes(p: MPoint, q: MPoint)
    ensures Add(p, q) == Add(q, p)
    ensures Add(p, Origin()) == p
  {
  }

  /** `p * 1 == p`, and scaling distributes over `+`. */
  lemma ScaleProperties(p: MPoint, q: MPoint, m: real)
    ensures Scale(p, 1.0) == p
    ensures Scale(Add(p, q), m) == Add(Scale(p, m), Scale(q, m))
  {
  }

  /** Scaling by a non-zero factor is undone by scaling by its reciprocal. */
  lemma ScaleInverse(p: MPoint, m: real)
    requires m != 0.0
    ensures Scale(Scale(p, m), 1.0 / m) == p
  {
    assert (1.0 / m) * (m * p.x) == ((1.0 / m) * m) * p.x;
    assert (1.0 / m) * (m * p.y) == ((1.0 / m) * m) * p.y;
  }

  /** `==` is reflexive and symmetric, and agrees with `Equals` when the left side is a point. */
  lemma OpEqualsProperties(a: Option<MPoint>, b: Option<MPoint>)
    ensures OpEquals(a, a)
    ensures OpEquals(a, b) == OpEquals(b, a)
    ensures a.Some? ==> OpEquals(a, b) == Equals(a.value, b)
  {
  }
}
