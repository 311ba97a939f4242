/** Plane geometry shared by the three simulations.
    The two mathematical library calls the source makes, `(math.cos(a), math.sin(a))`
    and `math.hypot(dx, dy)`, are not defined here: every operation that needs them
    takes them as function-valued inputs, constrained only by their defining equations. */
module Geometry {

  /** A point or a vector of the plane. */
  datatype Vec = Vec(x: real, y: real)

  function Abs(a: real): (r: real)
    ensures r >= 0.0
    ensures r == a || r == -a
  {
    if a < 0.0 then -a else a
  }

  /** `math.pi`, the double closest to pi. */
  const PI: real := 3.141592653589793

  /** Squared Euclidean distance. */
  function SqDist(p: Vec, q: Vec): real
  {
    (p.x - q.x) * (p.x - q.x) + (p.y - q.y) * (p.y - q.y)
  }

  /** `polar(a)` stands for `(math.cos(a), math.sin(a))`: a point on the unit circle. */
  ghost predicate IsUnitCircle(polar: real -> Vec)
  {
    forall a :: polar(a).x * polar(a).x + polar(a).y * polar(a).y == 1.0
  }

  /** `hypot(dx, dy)` stands for `math.hypot(dx, dy)`: the non-negative root of dx^2 + dy^2. */
  ghost predicate IsHypot(hypot: (real, real) -> real)
  {
    forall dx, dy :: hypot(dx, dy) >= 0.0 && hypot(dx, dy) * hypot(dx, dy) == dx * dx + dy * dy
  }
}
