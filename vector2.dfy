/** The engine's screen-space math that the player ship relies on: 2D and 3D
    vectors, fabsf, fmin/fmax and the per-component clamp of
    Vector2::getClampPoint. Single-precision floats are modelled as reals. */
module Vector2 {

  /** A point or a displacement in screen space. */
  datatype Vec2 = Vec2(x: real, y: real) {
    function Plus(other: Vec2): Vec2 {
      Vec2(x + other.x, y + other.y)
    }
  }

  /** A rotation in degrees about the x, y and z axes, as given to setRotation3D. */
  datatype Vec3 = Vec3(x: real, y: real, z: real)

  /** fabsf */
  function Abs(a: real): (r: real)
    ensures r >= 0.0
    ensures r == a || r == -a
  {
    if a < 0.0 then -a else a
  }

  /** Distance between two reals on the line. */
  function Dist(a: real, b: real): real {
    Abs(a - b)
  }

  /** fmax: the larger argument. */
  function FMax(a: real, b: real): (r: real)
    ensures r >= a && r >= b
    ensures r == a || r == b
  {
    if a >= b then a else b
  }

  /** fmin: the smaller argument. */
  function FMin(a: real, b: real): (r: real)
    ensures r <= a && r <= b
    ensures r == a || r == b
  {
    if a <= b then a else b
  }

  /** clampf: `v` pulled into `[lo, hi]`; of all the values in the interval it
      is the one nearest to `v`. */
  function Clampf(v: real, lo: real, hi: real): (r: real)
    requires lo <= hi
    ensures lo <= r <= hi
    ensures lo <= v <= hi ==> r == v
    ensures v < lo ==> r == lo
    ensures hi < v ==> r == hi
    ensures forall w :: lo <= w <= hi ==> Dist(r, v) <= Dist(w, v)
  {
    if v < lo then lo else if v < hi then v else hi
  }

  /** `p` lies in the closed rectangle spanned by `lo` (lower left) and `hi`
      (upper right). */
  predicate Within(p: Vec2, lo: Vec2, hi: Vec2) {
    lo.x <= p.x <= hi.x && lo.y <= p.y <= hi.y
  }

  /** Vector2::getClampPoint: the point of the rectangle nearest to `p`, one
      component at a time; a point already inside is returned unchanged. */
  function ClampPoint(p: Vec2, lo: Vec2, hi: Vec2): (r: Vec2)
    requires lo.x <= hi.x && lo.y <= hi.y
    ensures Within(r, lo, hi)
    ensures Within(p, lo, hi) ==> r == p
    ensures forall q :: Within(q, lo, hi) ==>
              Dist(r.x, p.x) <= Dist(q.x, p.x) && Dist(r.y, p.y) <= Dist(q.y, p.y)
  {
    Vec2(Clampf(p.x, lo.x, hi.x), Clampf(p.y, lo.y, hi.y))
  }
}
