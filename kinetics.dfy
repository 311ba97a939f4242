/** The physics of one bouncing particle, `Particle` of light.py and isolated.py, on values:
    motion for one tick, reflection off the circular lobe wall, and the random velocity
    fluctuation. The `Particle` class of module Spinner is proved to perform `Step`. */
module Kinetics {
  import opened Geometry
  import opened Randomness

  /** The attributes of a particle: position, velocity and radius. */
  datatype Body = Body(x: real, y: real, vx: real, vy: real, radius: real)

  function Position(b: Body): Vec
  {
    Vec(b.x, b.y)
  }

  /** `0.5 * (vx ** 2 + vy ** 2)`, the kinetic energy of a unit mass. */
  function Energy(vx: real, vy: real): (e: real)
    ensures e >= 0.0
  {
    0.5 * (vx * vx + vy * vy)
  }

  function KineticEnergy(b: Body): real
  {
    Energy(b.vx, b.vy)
  }

  /** `dist` is the distance of the particle from `c`, as `math.hypot` returns it. */
  ghost predicate IsDistance(b: Body, c: Vec, dist: real)
  {
    dist >= 0.0 && dist * dist == SqDist(Position(b), c)
  }

  /** Containment in a lobe of radius `lobeRadius` centred at `c`: the whole disc of the
      particle lies inside, that is, distance + radius <= lobeRadius. */
  ghost predicate Inside(b: Body, c: Vec, lobeRadius: real)
  {
    b.radius <= lobeRadius
    && SqDist(Position(b), c) <= (lobeRadius - b.radius) * (lobeRadius - b.radius)
  }

  /** `x += vx * dt; y += vy * dt`. */
  function Moved(b: Body, dt: real): (r: Body)
    ensures r.vx == b.vx && r.vy == b.vy && r.radius == b.radius
    ensures r.x - b.x == b.vx * dt && r.y - b.y == b.vy * dt
  {
    b.(x := b.x + b.vx * dt, y := b.y + b.vy * dt)
  }

  /** The bounce test: the particle sticks out of the lobe wall. */
  predicate Hits(b: Body, lobeRadius: real, dist: real)
  {
    dist + b.radius > lobeRadius
  }

  /** The source divides by `dist` when the particle hits the wall; with a zero distance
      that division raises ZeroDivisionError. */
  predicate Divides(b: Body, lobeRadius: real, dist: real)
  {
    Hits(b, lobeRadius, dist) ==> dist != 0.0
  }

  /** Reflection about the outward normal n = (dx, dy) / dist, followed by the clamp of the
      position to lobeRadius - radius along n. */
  function Reflect(b: Body, c: Vec, lobeRadius: real, dist: real): Body
    requires dist != 0.0
  {
    var nx := (b.x - c.x) / dist;
    var ny := (b.y - c.y) / dist;
    var vdotn := b.vx * nx + b.vy * ny;
    Body(c.x + nx * (lobeRadius - b.radius), c.y + ny * (lobeRadius - b.radius),
         b.vx - 2.0 * vdotn * nx, b.vy - 2.0 * vdotn * ny,
         b.radius)
  }

  /** The collision check of `Particle.update` on the already moved particle. */
  function Bounce(b: Body, c: Vec, lobeRadius: real, dist: real): Body
    requires Divides(b, lobeRadius, dist)
  {
    if Hits(b, lobeRadius, dist) then Reflect(b, c, lobeRadius, dist) else b
  }

  /** Scale of the fluctuation `(random.random() - 0.5) * 0.01`. */
  const FLUCTUATION: real := 0.01

  /** The small random fluctuation added to each velocity component, from two draws. */
  function Fluctuate(b: Body, u1: Draw, u2: Draw): (r: Body)
    ensures r.x == b.x && r.y == b.y && r.radius == b.radius
    ensures -0.005 <= r.vx - b.vx < 0.005
    ensures -0.005 <= r.vy - b.vy < 0.005
  {
    b.(vx := b.vx + (u1 - 0.5) * FLUCTUATION, vy := b.vy + (u2 - 0.5) * FLUCTUATION)
  }

  /** The distance `Particle.update` measures: `hypot` of the moved particle's offset. */
  function MovedDist(b: Body, c: Vec, dt: real, hypot: (real, real) -> real): real
  {
    var m := Moved(b, dt);
    hypot(m.x - c.x, m.y - c.y)
  }

  /** `Particle.update(center, lobe_radius, dt)` with the two draws it makes. */
  function Step(b: Body, c: Vec, lobeRadius: real, dt: real, hypot: (real, real) -> real,
                u1: Draw, u2: Draw): Body
    requires Divides(Moved(b, dt), lobeRadius, MovedDist(b, c, dt, hypot))
  {
    Fluctuate(Bounce(Moved(b, dt), c, lobeRadius, MovedDist(b, c, dt, hypot)), u1, u2)
  }

  // Small algebraic identities about products and squares, used by the proofs below.

  lemma MulEq(s: real, t: real, u: real)
    requires s == t
    ensures s * u == t * u
  {
  }

  lemma SquareSum(a: real, b: real, k: real)
    ensures (a * k) * (a * k) + (b * k) * (b * k) == (a * a + b * b) * (k * k)
  {
  }

  lemma SquareProduct(a: real, k: real)
    ensures (a * a) * (k * k) == (a * k) * (a * k)
  {
  }

  lemma SquareMonotone(a: real, b: real)
    requires 0.0 <= a <= b
    ensures a * a <= b * b
  {
    assert a * a <= a * b;
  }

  /** The outward normal (dx, dy) / dist has unit length. */
  lemma UnitNormal(dx: real, dy: real, dist: real)
    requires dist != 0.0 && dist * dist == dx * dx + dy * dy
    ensures (dx / dist) * (dx / dist) + (dy / dist) * (dy / dist) == 1.0
  {
    var k := 1.0 / dist;
    assert dx / dist == dx * k;
    assert dy / dist == dy * k;
    assert dist * k == 1.0;
    SquareSum(dx, dy, k);
    MulEq(dx * dx + dy * dy, dist * dist, k * k);
    SquareProduct(dist, k);
  }

  /** An offset of length `g` along a unit vector lies at squared distance g * g. */
  lemma ScaledUnit(nx: real, ny: real, g: real)
    requires nx * nx + ny * ny == 1.0
    ensures (nx * g) * (nx * g) + (ny * g) * (ny * g) == g * g
  {
    SquareSum(nx, ny, g);
    MulEq(nx * nx + ny * ny, 1.0, g * g);
  }

  /** Mirroring a velocity about a unit normal n negates its normal component, keeps its
      tangential component and keeps its energy. */
  lemma Mirror(vx: real, vy: real, nx: real, ny: real)
    requires nx * nx + ny * ny == 1.0
    ensures var k := vx * nx + vy * ny;
            var rx, ry := vx - 2.0 * k * nx, vy - 2.0 * k * ny;
            && rx * nx + ry * ny == -k
            && ry * nx - rx * ny == vy * nx - vx * ny
            && Energy(rx, ry) == Energy(vx, vy)
  {
    var k := vx * nx + vy * ny;
    var rx, ry := vx - 2.0 * k * nx, vy - 2.0 * k * ny;
    assert rx * nx + ry * ny == k - 2.0 * k * (nx * nx + ny * ny);
    MulEq(nx * nx + ny * ny, 1.0, 2.0 * k);
    assert rx * rx + ry * ry
        == vx * vx + vy * vy - 4.0 * k * k + 4.0 * k * k * (nx * nx + ny * ny);
    MulEq(nx * nx + ny * ny, 1.0, 4.0 * k * k);
  }

  /** With a particle smaller than its lobe, the bounce branch only runs at a positive
      distance (so `dx / dist` is defined), and afterwards the particle is inside the lobe,
      touching the wall exactly when the branch was taken. */
  lemma BounceInside(b: Body, c: Vec, lobeRadius: real, dist: real)
    requires IsDistance(b, c, dist)
    requires b.radius < lobeRadius
    ensures Hits(b, lobeRadius, dist) ==> dist > 0.0
    ensures Inside(Bounce(b, c, lobeRadius, dist), c, lobeRadius)
    ensures Hits(b, lobeRadius, dist) ==>
              SqDist(Position(Bounce(b, c, lobeRadius, dist)), c)
              == (lobeRadius - b.radius) * (lobeRadius - b.radius)
  {
    var gap := lobeRadius - b.radius;
    if Hits(b, lobeRadius, dist) {
      var nx, ny := (b.x - c.x) / dist, (b.y - c.y) / dist;
      UnitNormal(b.x - c.x, b.y - c.y, dist);
      var r := Bounce(b, c, lobeRadius, dist);
      assert r.x - c.x == nx * gap && r.y - c.y == ny * gap;
      ScaledUnit(nx, ny, gap);
    } else {
      SquareMonotone(dist, gap);
    }
  }

  /** The reflection negates the velocity's normal component, keeps its tangential
      component, and so keeps the kinetic energy; the particle's radius is kept. */
  lemma ReflectIsElastic(b: Body, c: Vec, lobeRadius: real, dist: real)
    requires IsDistance(b, c, dist) && dist != 0.0
    ensures var nx, ny := (b.x - c.x) / dist, (b.y - c.y) / dist;
            var r := Reflect(b, c, lobeRadius, dist);
            && r.vx * nx + r.vy * ny == -(b.vx * nx + b.vy * ny)
            && r.vy * nx - r.vx * ny == b.vy * nx - b.vx * ny
            && KineticEnergy(r) == KineticEnergy(b)
            && r.radius == b.radius
  {
    UnitNormal(b.x - c.x, b.y - c.y, dist);
    Mirror(b.vx, b.vy, (b.x - c.x) / dist, (b.y - c.y) / dist);
  }

  /** One whole `Particle.update`: given the true distance and a particle smaller than its
      lobe, the source never divides by zero and leaves the particle inside the lobe. */
  lemma StepInside(b: Body, c: Vec, lobeRadius: real, dt: real, hypot: (real, real) -> real,
                   u1: Draw, u2: Draw)
    requires IsHypot(hypot)
    requires b.radius < lobeRadius
    ensures Divides(Moved(b, dt), lobeRadius, MovedDist(b, c, dt, hypot))
    ensures Inside(Step(b, c, lobeRadius, dt, hypot, u1, u2), c, lobeRadius)
  {
    var m := Moved(b, dt);
    var dist := MovedDist(b, c, dt, hypot);
    assert IsDistance(m, c, dist);
    BounceInside(m, c, lobeRadius, dist);
  }
}
