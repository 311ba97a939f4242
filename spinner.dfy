/** The objects of light.py and isolated.py: `Particle`, whose `update` changes its
    position and velocity in place, and `SpinnerNode`, whose `update` turns it, moves its
    particles, re-centres and updates its children and runs the demon. Every method is
    proved to do what the value functions of Kinetics, TreeDemon, TreeTick and TreeSpawn
    compute, on the state `Snapshot()` reads off the objects. */
module Spinner {
  import opened Geometry
  import opened Randomness
  import opened Kinetics
  import opened Demon
  import opened Audio
  import opened SpinnerTree
  import opened TreeDemon
  import opened TreeTick
  import opened TreeSpawn

  class Particle {
    var x: real
    var y: real
    var vx: real
    var vy: real
    const radius: real

    /** `Particle(x, y, vx, vy, radius)`; light.py's version stores `vy` as `vx` too. */
    constructor (variant: Variant, x: real, y: real, vx: real, vy: real, radius: real)
      ensures State() == NewBody(variant, x, y, vx, vy, radius)
    {
      this.x, this.y := x, y;
      if variant == Light {
        this.vx, this.vy := vy, vy;
      } else {
        this.vx, this.vy := vx, vy;
      }
      this.radius := radius;
    }

    /** The particle's attributes as a value. */
    ghost function State(): Body
      reads this
    {
      Body(x, y, vx, vy, radius)
    }

    /** `kinetic_energy()`. */
    function KineticEnergy(): (e: real)
      reads this
      ensures e == Kinetics.KineticEnergy(State())
      ensures e >= 0.0
    {
      0.5 * (vx * vx + vy * vy)
    }

    /** `speed()`, with `hypot` standing for `math.hypot`: a speed whose square is twice
        the kinetic energy. */
    function Speed(hypot: (real, real) -> real): (sp: real)
      requires IsHypot(hypot)
      reads this
      ensures sp >= 0.0 && sp * sp == 2.0 * KineticEnergy()
    {
      assert hypot(vx, vy) * hypot(vx, vy) == vx * vx + vy * vy;
      hypot(vx, vy)
    }

    /** `update(center, lobe_radius, dt)`: move, bounce off the lobe wall, fluctuate. */
    method Update(c: Vec, lobeRadius: real, dt: real, hypot: (real, real) -> real,
                  rng: Random)
      requires Divides(Moved(State(), dt), lobeRadius, MovedDist(State(), c, dt, hypot))
      modifies this, rng
      ensures State() == Step(old(State()), c, lobeRadius, dt, hypot,
                              rng.stream(old(rng.cursor)), rng.stream(old(rng.cursor) + 1))
      ensures rng.cursor == old(rng.cursor) + 2
    {
      Move(dt);
      var dist := hypot(x - c.x, y - c.y);
      Collide(c, lobeRadius, dist);
      Jiggle(rng);
    }

    /** `x += vx * dt; y += vy * dt`. */
    method Move(dt: real)
      modifies this
      ensures State() == Moved(old(State()), dt)
    {
      x := x + vx * dt;
      y := y + vy * dt;
    }

    /** The wall check of `update`, at distance `dist` from the lobe centre `c`. */
    method Collide(c: Vec, lobeRadius: real, dist: real)
      requires Divides(State(), lobeRadius, dist)
      modifies this
      ensures State() == Bounce(old(State()), c, lobeRadius, dist)
    {
      var dx := x - c.x;
      var dy := y - c.y;
      if dist + radius > lobeRadius {
        var nx, ny := dx / dist, dy / dist;
        var vdotn := vx * nx + vy * ny;
        var vx', vy' := vx - 2.0 * vdotn * nx, vy - 2.0 * vdotn * ny;
        var x', y' := c.x + nx * (lobeRadius - radius), c.y + ny * (lobeRadius - radius);
        assert Body(x', y', vx', vy', radius) == Reflect(State(), c, lobeRadius, dist);
        x, y, vx, vy := x', y', vx', vy';
      }
    }

    /** The random fluctuation of both velocity components, from the next two draws. */
    method Jiggle(rng: Random)
      modifies this, rng
      ensures State() == Fluctuate(old(State()), rng.stream(old(rng.cursor)),
                                   rng.stream(old(rng.cursor) + 1))
      ensures rng.cursor == old(rng.cursor) + 2
    {
      var u1 := rng.Next();
      vx := vx + (u1 - 0.5) * FLUCTUATION;
      var u2 := rng.Next();
      vy := vy + (u2 - 0.5) * FLUCTUATION;
    }
  }

  class SpinnerNode {
    /** Which of the two programs the node belongs to. */
    const variant: Variant
    const level: nat
    const maxLevel: nat
    const armLength: real
    const lobeRadius: real
    var center: Vec
    var theta: real
    /** `self.particles`: the particles of each of the three lobes. */
    const particles: seq<seq<Particle>>
    /** `self.children`: three nodes per lobe below `max_level`; a leaf, whose
        `children` is None, has three empty lists. */
    const children: seq<seq<SpinnerNode>>
    /** Every object below this node: its particles, its children and all below them. */
    ghost const Inner: set<object>
    /** The particles of each lobe. */
    ghost const Members: seq<set<object>>
    /** The children of each lobe and everything below them. */
    ghost const Rows: seq<set<object>>

    /** The tree the constructor builds: three lobes, children exactly below
        `max_level`, scaled by 0.4, and no object shared between two places. */
    ghost predicate Valid()
      decreases Inner
    {
      var valid := Layout() && forall i, j | 0 <= i < 3 && 0 <= j < |children[i]| ::
                                 children[i][j].Valid();
      valid
    }

    /** The part of `Valid` about this node and its immediate children. */
    ghost predicate Layout()
    {
      && this !in Inner
      && |particles| == 3 && |children| == 3 && |Members| == 3 && |Rows| == 3
      && (forall i | 0 <= i < 3 :: |children[i]| == if level < maxLevel then 3 else 0)
      && (forall i | 0 <= i < 3 :: Members[i] <= Inner && Rows[i] <= Inner)
      && (forall i, i' | 0 <= i < 3 && 0 <= i' < 3 ::
            Members[i] !! Rows[i'] && (i != i' ==> Members[i] !! Members[i'] && Rows[i] !! Rows[i']))
      && (forall i, k | 0 <= i < 3 && 0 <= k < |particles[i]| :: particles[i][k] in Members[i])
      && (forall i, k, k' | 0 <= i < 3 && 0 <= k < |particles[i]| && 0 <= k' < |particles[i]|
                            && k != k' ::
            particles[i][k] != particles[i][k'])
      && (forall i, j | 0 <= i < 3 && 0 <= j < |children[i]| ::
            && children[i][j] in Rows[i] && children[i][j].Inner <= Rows[i]
            && children[i][j].Inner < Inner
            && children[i][j].variant == variant
            && children[i][j].level == level + 1 && children[i][j].maxLevel == maxLevel
            && children[i][j].armLength == armLength * SCALE
            && children[i][j].lobeRadius == lobeRadius * SCALE)
      && (forall i, j, j' | 0 <= i < 3 && 0 <= j < |children[i]| && 0 <= j' < |children[i]|
                            && j != j' ::
            children[i][j] != children[i][j']
            && children[i][j] !in children[i][j'].Inner
            && children[i][j].Inner !! children[i][j'].Inner)
    }

    /** `SpinnerNode(level, center, arm_length, lobe_radius, max_level)`: below
        `max_level` the three children of each lobe are built first, at the lobe centre for
        angle 0 and scaled by 0.4, then `init_particles()` fills the three lobes. */
    constructor (variant: Variant, level: nat, center: Vec, armLength: real, lobeRadius: real,
                 maxLevel: nat, polar: real -> Vec, rng: Random)
      modifies rng
      ensures Grown(this, variant, level, maxLevel, center, armLength, lobeRadius, polar,
                    rng.stream, old(rng.cursor))
      ensures fresh(Inner)
      ensures rng.cursor == old(rng.cursor) + SpawnDraws(PerLobe(variant), Below(level, maxLevel))
      decreases Below(level, maxLevel), 4
    {
      ghost var off := rng.cursor;
      var rows, parts;
      ghost var Rs, U, Ms, V;
      rows, Rs, U, parts, Ms, V := Build(variant, level, maxLevel, center, armLength, lobeRadius,
                                         polar, rng);
      this.variant, this.level, this.maxLevel := variant, level, maxLevel;
      this.armLength, this.lobeRadius := armLength, lobeRadius;
      this.center, theta := center, 0.0;
      particles, children := parts, rows;
      Members, Rows := Ms, Rs;
      Inner := U + V;
      new;
      Assemble(polar, rng.stream, off, U, V);
    }

    /** A node whose children and particles were built as `__init__` builds them, from
        the draw `off` on, is the tree `Spawn` describes. */
    lemma Assemble(polar: real -> Vec, stream: nat -> Draw, off: nat, U: set<object>,
                   V: set<object>)
      requires var ok := Made(children, Rows, U, particles, Members, V, variant, level, maxLevel,
                                  center, armLength, lobeRadius, polar, stream, off)
                         && this !in U + V && Inner == U + V && theta == 0.0;
               ok
      ensures Grown(this, variant, level, maxLevel, center, armLength, lobeRadius, polar,
                    stream, off)
    {
      LobePartsMade(0, polar, stream, off, U, V);
      LobePartsMade(1, polar, stream, off, U, V);
      LobePartsMade(2, polar, stream, off, U, V);
      LobeKidsGrown(0, polar, stream, off, U, V);
      LobeKidsGrown(1, polar, stream, off, U, V);
      LobeKidsGrown(2, polar, stream, off, U, V);
      LobeAssembled(0, polar, stream, off);
      LobeAssembled(1, polar, stream, off);
      LobeAssembled(2, polar, stream, off);
      SpawnIs(variant, level, maxLevel, center, armLength, lobeRadius, polar, stream, off,
              Lobe(LobeBodies(0), Kids(0)), Lobe(LobeBodies(1), Kids(1)),
              Lobe(LobeBodies(2), Kids(2)));
    }

    /** The layout of a node built from rows grown and particles made apart. */
    lemma Laid(polar: real -> Vec, stream: nat -> Draw, off: nat, U: set<object>,
               V: set<object>)
      requires var ok := Made(children, Rows, U, particles, Members, V, variant, level, maxLevel,
                                  center, armLength, lobeRadius, polar, stream, off)
                         && this !in U + V && Inner == U + V && theta == 0.0;
               ok
      ensures Layout() && Valid()
    {
      var d := SpawnDraws(PerLobe(variant), Below(level + 1, maxLevel));
      forall i | 0 <= i < 3
        ensures && Rows[i] <= U && |children[i]| == (if level < maxLevel then 3 else 0)
                && RowGrown(children[i], Rows[i], variant, level + 1, maxLevel,
                            LobeCenter(center, armLength, 0.0, i, polar), armLength * SCALE,
                            lobeRadius * SCALE, polar, stream, After(off, 3 * d, i), d)
      {
        assert LobeGrown(children, Rows, U, i, variant, level, maxLevel, center, armLength,
                         lobeRadius, polar, stream, off);
      }
      forall i, j | 0 <= i < 3 && 0 <= j < |children[i]|
        ensures && children[i][j] in Rows[i] && children[i][j].Inner <= Rows[i]
                && children[i][j].Valid() && children[i][j].Inner < Inner
                && children[i][j].variant == variant
                && children[i][j].level == level + 1 && children[i][j].maxLevel == maxLevel
                && children[i][j].armLength == armLength * SCALE
                && children[i][j].lobeRadius == lobeRadius * SCALE
      {
        var c := children[i][j];
        assert ChildGrown(children[i], Rows[i], j, variant, level + 1, maxLevel,
                          LobeCenter(center, armLength, 0.0, i, polar), armLength * SCALE,
                          lobeRadius * SCALE, polar, stream, After(off, 3 * d, i), d);
        assert c in Rows[i] && Rows[i] <= Inner && c !in c.Inner;
      }
    }

    /** Lobe `i` of a node built as `__init__` builds it is lobe `i` of `Spawn`. */
    lemma LobeAssembled(i: nat, polar: real -> Vec, stream: nat -> Draw, off: nat)
      requires var ok := Valid() && i < 3; ok
      requires LobeBodies(i)
              == InitLobe(variant, LobeCenter(center, armLength, 0.0, i, polar), lobeRadius,
                          polar, stream,
                          off + ChildDraws(variant, level, maxLevel) + LobeDraws(variant, i),
                          PerLobe(variant))
      requires var lc, d := LobeCenter(center, armLength, 0.0, i, polar),
                           SpawnDraws(PerLobe(variant), Below(level + 1, maxLevel));
              var ok := && |Kids(i)| == (if level < maxLevel then 3 else 0)
                        && forall j | 0 <= j < |Kids(i)| ::
                             IsSpawn(Kids(i)[j], variant, level + 1, maxLevel, lc,
                                     armLength * SCALE, lobeRadius * SCALE, polar, stream,
                                     After(After(off, 3 * d, i), d, j));
              ok
      ensures Spawn(variant, level, maxLevel, center, armLength, lobeRadius, polar, stream,
                    off).lobes[i]
              == Lobe(LobeBodies(i), Kids(i))
    {
      SpawnLobeIs(variant, level, maxLevel, center, armLength, lobeRadius, polar, stream, off,
                  i, After(off, 3 * SpawnDraws(PerLobe(variant), Below(level + 1, maxLevel)), i),
                  off + ChildDraws(variant, level, maxLevel) + LobeDraws(variant, i),
                  LobeBodies(i), Kids(i));
    }

    /** The particles of lobe `i` of a node built as `__init__` builds it. */
    lemma LobePartsMade(i: nat, polar: real -> Vec, stream: nat -> Draw, off: nat,
                        U: set<object>, V: set<object>)
      requires var ok := i < 3 && Made(children, Rows, U, particles, Members, V, variant, level, maxLevel,
                                  center, armLength, lobeRadius, polar, stream, off)
                         && this !in U + V && Inner == U + V && theta == 0.0;
               ok
      ensures Valid()
      ensures LobeBodies(i)
              == InitLobe(variant, LobeCenter(center, armLength, 0.0, i, polar), lobeRadius,
                          polar, stream,
                          off + ChildDraws(variant, level, maxLevel) + LobeDraws(variant, i),
                          PerLobe(variant))
    {
      var lc := LobeCenter(center, armLength, 0.0, i, polar);
      var o := off + ChildDraws(variant, level, maxLevel) + LobeDraws(variant, i);
      PartsMadeIs(particles, Members, V, variant, center, armLength, lobeRadius, polar, stream,
                  off + ChildDraws(variant, level, maxLevel), i);
      Laid(polar, stream, off, U, V);
      BodiesAre(i, InitLobe(variant, lc, lobeRadius, polar, stream, o, PerLobe(variant)));
    }

    /** The children of lobe `i` of a node built as `__init__` builds it. */
    lemma LobeKidsGrown(i: nat, polar: real -> Vec, stream: nat -> Draw, off: nat,
                        U: set<object>, V: set<object>)
      requires var ok := i < 3 && Made(children, Rows, U, particles, Members, V, variant, level, maxLevel,
                                  center, armLength, lobeRadius, polar, stream, off)
                         && this !in U + V && Inner == U + V && theta == 0.0;
               ok
      ensures Valid()
      ensures var lc, d := LobeCenter(center, armLength, 0.0, i, polar),
                           SpawnDraws(PerLobe(variant), Below(level + 1, maxLevel));
              var ok := && |Kids(i)| == (if level < maxLevel then 3 else 0)
                        && forall j | 0 <= j < |Kids(i)| ::
                             IsSpawn(Kids(i)[j], variant, level + 1, maxLevel, lc,
                                     armLength * SCALE, lobeRadius * SCALE, polar, stream,
                                     After(After(off, 3 * d, i), d, j));
              ok
    {
      var d := SpawnDraws(PerLobe(variant), Below(level + 1, maxLevel));
      RowsGrownAt(children, Rows, U, variant, level, maxLevel, center, armLength, lobeRadius,
                  polar, stream, off, i);
      RowGrownAll(children[i], Rows[i], variant, level + 1, maxLevel,
                  LobeCenter(center, armLength, 0.0, i, polar), armLength * SCALE,
                  lobeRadius * SCALE, polar, stream, After(off, 3 * d, i), d);
      Laid(polar, stream, off, U, V);
    }

    /** Lobe `i`'s particles are in the states `b`. */
    lemma BodiesAre(i: nat, b: seq<Body>)
      requires var ok := Valid() && i < 3 && |b| == |particles[i]|
                         && forall k | 0 <= k < |b| :: particles[i][k].State() == b[k];
               ok
      ensures LobeBodies(i) == b
    {
    }

    /** The state of the node and everything below it, as a value. */
    ghost function Snapshot(): (s: Spinner)
      requires Valid()
      reads this, Inner
      ensures s.(lobes := []) == Spinner(level, maxLevel, center, armLength, lobeRadius, theta, [])
      ensures |s.lobes| == 3
      ensures forall i | 0 <= i < 3 ::
                s.lobes[i].bodies == LobeBodies(i) && s.lobes[i].children == Kids(i)
      ensures Shaped(s)
      decreases Inner, 1
    {
      Spinner(level, maxLevel, center, armLength, lobeRadius, theta,
              [Lobe(LobeBodies(0), Kids(0)), Lobe(LobeBodies(1), Kids(1)),
               Lobe(LobeBodies(2), Kids(2))])
    }

    /** The states of the particles of lobe `i`. */
    ghost function LobeBodies(i: nat): (r: seq<Body>)
      requires Valid() && i < 3
      reads Members[i]
      ensures |r| == |particles[i]|
      ensures forall k | 0 <= k < |r| :: r[k] == particles[i][k].State()
    {
      seq(|particles[i]|, k requires 0 <= k < |particles[i]| reads Members[i] =>
          particles[i][k].State())
    }

    /** The states of the children of lobe `i`. */
    ghost function Kids(i: nat): (r: seq<Spinner>)
      requires Valid() && i < 3
      reads Rows[i]
      ensures |r| == |children[i]|
      ensures forall j | 0 <= j < |r| :: r[j] == children[i][j].Snapshot()
      decreases Inner, 0
    {
      seq(|children[i]|, j requires 0 <= j < |children[i]| reads Rows[i] =>
          children[i][j].Snapshot())
    }

    /** The snapshot is determined by the node's attributes, the states of its particles
        and the snapshots of its children. */
    lemma SnapshotIs(a: Spinner)
      requires Valid()
      requires a.(lobes := []) == Spinner(level, maxLevel, center, armLength, lobeRadius, theta, [])
      requires |a.lobes| == 3
      requires forall i | 0 <= i < 3 :: LobeBodies(i) == a.lobes[i].bodies && Kids(i) == a.lobes[i].children
      ensures Snapshot() == a
    {
      var s := Snapshot();
      assert forall i | 0 <= i < 3 :: s.lobes[i] == a.lobes[i];
      assert s.lobes == a.lobes;
    }

    /** `maxwells_demon()`: sort this node's particles against their lobe centres, then
        every child's, one after another. */
    method MaxwellsDemon(polar: real -> Vec)
      requires Valid()
      modifies Inner
      ensures Snapshot() == DemonTree(old(Snapshot()), polar)
      decreases Inner, 1
    {
      ghost var s0 := Snapshot();
      DemonOwn(polar);
      DemonRow(0, polar);
      DemonRow(1, polar);
      DemonRow(2, polar);
      Demoned(s0, polar);
    }

    /** What a tick of the node needs besides the state of the tree: the tree the
        constructor builds, a true `hypot`, the environment of the tick and a generator
        outside the tree. None of it depends on the heap. */
    ghost predicate Ticking(dt: real, polar: real -> Vec, hypot: (real, real) -> real,
                            rng: Random, env: Env)
    {
      var ok := Valid() && IsHypot(hypot) && env == Env(variant, dt, polar, hypot, rng.stream)
                && rng !in Inner;
      ok
    }

    /** Every particle of the node is smaller than its lobe. */
    ghost predicate Small()
    {
      forall i, k | 0 <= i < |particles| && 0 <= k < |particles[i]| ::
        particles[i][k].radius < lobeRadius
    }

    /** `update(dt)`: turn by `dt * (1 + 0.3 level)`, update every particle at its lobe
        centre (requesting a tone each in isolated.py), move every child to its lobe centre
        and update it, and run the demon last. */
    method Update(dt: real, polar: real -> Vec, hypot: (real, real) -> real, rng: Random)
      returns (tones: seq<Tone>)
      requires Valid() && IsHypot(hypot) && Fits(Snapshot()) && rng !in Inner
      modifies this, Inner, rng
      ensures (Snapshot(), tones)
              == Tick(old(Snapshot()), old(center), Env(variant, dt, polar, hypot, rng.stream),
                      old(rng.cursor))
      ensures rng.cursor == old(rng.cursor) + 2 * Count(old(Snapshot()))
      decreases Inner, 6
    {
      tones := UpdateFrom(dt, polar, hypot, rng, Snapshot());
    }

    /** `update(dt)` of the node whose state was `s` before its centre was set. */
    method UpdateFrom(dt: real, polar: real -> Vec, hypot: (real, real) -> real, rng: Random,
                      ghost s: Spinner)
      returns (tones: seq<Tone>)
      requires Valid() && IsHypot(hypot) && rng !in Inner
      requires Snapshot() == s.(center := center) && Shaped(s) && Fits(s)
      modifies this, Inner, rng
      ensures (Snapshot(), tones)
              == Tick(s, old(center), Env(variant, dt, polar, hypot, rng.stream), old(rng.cursor))
      ensures rng.cursor == old(rng.cursor) + 2 * Count(s)
      decreases Inner, 5
    {
      ghost var env := Env(variant, dt, polar, hypot, rng.stream);
      tones := Animate(dt, polar, hypot, rng, env, s, rng.cursor);
      MaxwellsDemon(polar);
    }

    /** `update(dt)` up to the final `maxwells_demon()`: the particle loop, then the child
        loops. `s` is the node's state before its centre was set and `off` the generator's
        position before the tick. */
    method Animate(dt: real, polar: real -> Vec, hypot: (real, real) -> real, rng: Random,
                   ghost env: Env, ghost s: Spinner, ghost off: nat)
      returns (tones: seq<Tone>)
      requires Ticking(dt, polar, hypot, rng, env)
      requires Snapshot() == s.(center := center) && Tickable(s, env) && rng.cursor == off
      modifies this, Inner, rng
      ensures (Snapshot(), tones) == TreeTick.Advance(s, old(center), env, off)
      ensures rng.cursor == off + 2 * Count(s)
      decreases Inner, 4
    {
      var own := Walk(dt, polar, hypot, rng, env, s, off);
      var later := UpdateChildren(dt, polar, hypot, rng, env, s, off);
      tones := own + later;
    }

    /** The turn and the particle loop of `update(dt)`. */
    method Walk(dt: real, polar: real -> Vec, hypot: (real, real) -> real, rng: Random,
                ghost env: Env, ghost s: Spinner, ghost off: nat)
      returns (tones: seq<Tone>)
      requires Ticking(dt, polar, hypot, rng, env)
      requires Snapshot() == s.(center := center) && Tickable(s, env) && rng.cursor == off
      modifies this, Members[0], Members[1], Members[2], rng
      ensures Snapshot() == Walked(s, old(center), env, off)
      ensures tones == Sounded(s, old(center), env, off)
      ensures rng.cursor == ChildOffset(s, off, 0, 0)
      ensures center == old(center) && theta == s.theta + env.dt * Spin(s.level)
    {
      WalkPlan(s, env, off);
      Smallness(s);
      assert env.dt == dt && env.polar == polar && env.variant == variant;
      assert s.armLength == armLength && s.lobeRadius == lobeRadius && s.level == level
             && s.theta == theta && s.lobes[0].children == Kids(0)
             && s.lobes[1].children == Kids(1) && s.lobes[2].children == Kids(2);
      theta := theta + dt * Spin(level);
      tones := StepOwn(dt, polar, hypot, rng, env, s, off);
      WalkedAt(s, center, env, off, armLength, theta, lobeRadius, polar,
               LobeBodies(0), LobeBodies(1), LobeBodies(2));
    }

    /** With the tree's state `s` (up to its centre) within the lobes, every particle is
        smaller than its lobe. */
    lemma Smallness(s: Spinner)
      requires Valid() && Snapshot() == s.(center := center) && Fits(s)
      ensures Small()
      ensures forall i, k | 0 <= i < 3 && 0 <= k < |s.lobes[i].bodies| ::
                s.lobes[i].bodies[k].radius < lobeRadius
    {
      forall i, k | 0 <= i < 3 && 0 <= k < |particles[i]|
        ensures particles[i][k].radius < lobeRadius
      {
        assert particles[i][k].State() == s.lobes[i].bodies[k];
      }
    }

    /** The particle loop of `update(dt)`: the particles of every lobe are updated at
        their lobe centre, lobe by lobe, each requesting its tone in isolated.py. */
    method StepOwn(dt: real, polar: real -> Vec, hypot: (real, real) -> real, rng: Random,
                   ghost env: Env, ghost s: Spinner, ghost off: nat)
      returns (tones: seq<Tone>)
      requires Ticking(dt, polar, hypot, rng, env) && Small()
      requires |s.lobes| == 3 && forall i | 0 <= i < 3 :: LobeBodies(i) == s.lobes[i].bodies
      requires forall i, k | 0 <= i < 3 && 0 <= k < |s.lobes[i].bodies| ::
                 s.lobes[i].bodies[k].radius < lobeRadius
      requires rng.cursor == OwnOffset(s, off, 0)
      requires var ok := OwnOffset(s, off, 1) == OwnOffset(s, off, 0) + 2 * |s.lobes[0].bodies|
                         && OwnOffset(s, off, 2) == OwnOffset(s, off, 1) + 2 * |s.lobes[1].bodies|
                         && OwnOffset(s, off, 3) == OwnOffset(s, off, 2) + 2 * |s.lobes[2].bodies|;
               ok
      modifies Members[0], Members[1], Members[2], rng
      ensures LobeBodies(0) == StepBodies(s.lobes[0].bodies,
                                          LobeCenter(center, armLength, theta, 0, polar),
                                          lobeRadius, env, OwnOffset(s, off, 0))
      ensures LobeBodies(1) == StepBodies(s.lobes[1].bodies,
                                          LobeCenter(center, armLength, theta, 1, polar),
                                          lobeRadius, env, OwnOffset(s, off, 1))
      ensures LobeBodies(2) == StepBodies(s.lobes[2].bodies,
                                          LobeCenter(center, armLength, theta, 2, polar),
                                          lobeRadius, env, OwnOffset(s, off, 2))
      ensures tones == if variant == Isolated
                       then LobeTones(LobeBodies(0), 0) + LobeTones(LobeBodies(1), 1)
                            + LobeTones(LobeBodies(2), 2)
                       else []
      ensures rng.cursor == OwnOffset(s, off, 3)
      ensures forall i | 0 <= i < 3 :: Kids(i) == old(Kids(i))
    {
      var t0 := StepLobe(0, dt, polar, hypot, rng, env, s.lobes[0].bodies);
      ghost var own0 := LobeBodies(0);
      var t1 := StepLobe(1, dt, polar, hypot, rng, env, s.lobes[1].bodies);
      ghost var own1 := LobeBodies(1);
      var t2 := StepLobe(2, dt, polar, hypot, rng, env, s.lobes[2].bodies);
      assert LobeBodies(0) == own0 && LobeBodies(1) == own1;
      tones := t0 + t1 + t2;
    }

    /** The particle loop of `update` for lobe `i`: each particle is updated at the lobe
        centre and, in isolated.py, then requests its tone. */
    method StepLobe(i: nat, dt: real, polar: real -> Vec, hypot: (real, real) -> real,
                    rng: Random, ghost env: Env, ghost b0: seq<Body>)
      returns (tones: seq<Tone>)
      requires Ticking(dt, polar, hypot, rng, env) && Small() && i < 3
      requires LobeBodies(i) == b0
      modifies Members[i], rng
      ensures LobeBodies(i) == StepBodies(b0, LobeCenter(center, armLength, theta, i, polar),
                                          lobeRadius, env, old(rng.cursor))
      ensures tones == if variant == Isolated then LobeTones(LobeBodies(i), i) else []
      ensures rng.cursor == old(rng.cursor) + 2 * |b0|
      ensures forall j | 0 <= j < 3 && j != i :: LobeBodies(j) == old(LobeBodies(j))
      ensures forall j | 0 <= j < 3 :: Kids(j) == old(Kids(j))
    {
      var lc := LobeCenter(center, armLength, theta, i, polar);
      ghost var b1 := StepBodies(b0, lc, lobeRadius, env, rng.cursor);
      ghost var off := rng.cursor;
      tones := [];
      for k := 0 to |particles[i]|
        invariant rng.cursor == off + 2 * k
        invariant forall k' | 0 <= k' < |particles[i]| ::
                    particles[i][k'].State() == if k' < k then b1[k'] else b0[k']
        invariant tones == if variant == Isolated then LobeTones(b1[..k], i) else []
      {
        var p := particles[i][k];
        StepInside(b0[k], lc, lobeRadius, dt, hypot, rng.stream(rng.cursor),
                   rng.stream(rng.cursor + 1));
        p.Update(lc, lobeRadius, dt, hypot, rng);
        if variant == Isolated {
          tones := tones + [LobeTone(i, p.KineticEnergy())];
          LobeTonesSnoc(b1, i, k);
        }
      }
      assert b1[..|particles[i]|] == b1;
      assert LobeBodies(i) == b1;
    }

    /** The child loops of `update(dt)`, lobe by lobe: every child is moved to its lobe
        centre and updated, at the draws `RowOffsets` assigns it. */
    method UpdateChildren(dt: real, polar: real -> Vec, hypot: (real, real) -> real, rng: Random,
                          ghost env: Env, ghost s: Spinner, ghost off: nat)
      returns (tones: seq<Tone>)
      requires Ticking(dt, polar, hypot, rng, env) && Tickable(s, env)
      requires Snapshot() == Walked(s, center, env, off) && s.armLength == armLength
      requires theta == s.theta + env.dt * Spin(s.level)
      requires rng.cursor == ChildOffset(s, off, 0, 0)
      modifies Rows[0], Rows[1], Rows[2], rng
      ensures Snapshot() == Settled(Walked(s, center, env, off), TickedChildren(s, center, env, off))
      ensures tones == ChildTones(TickedChildren(s, center, env, off))
      ensures rng.cursor == off + 2 * Count(s)
      decreases Inner, 3
    {
      ghost var w := Snapshot();
      ghost var kids := ChildrenAt(s, center, env, off, w, armLength, theta, polar);
      assert w == Spinner(level, maxLevel, center, armLength, lobeRadius, theta,
                          [Lobe(LobeBodies(0), Kids(0)), Lobe(LobeBodies(1), Kids(1)),
                           Lobe(LobeBodies(2), Kids(2))]);
      var t0 := UpdateRow(0, LobeCenter(center, armLength, theta, 0, polar), dt, polar, hypot,
                          rng, env, s.lobes[0], RowOffsets(s, off, 0), kids[0]);
      var t1 := UpdateRow(1, LobeCenter(center, armLength, theta, 1, polar), dt, polar, hypot,
                          rng, env, s.lobes[1], RowOffsets(s, off, 1), kids[1]);
      var t2 := UpdateRow(2, LobeCenter(center, armLength, theta, 2, polar), dt, polar, hypot,
                          rng, env, s.lobes[2], RowOffsets(s, off, 2), kids[2]);
      tones := t0 + t1 + t2;
    }

    /** `child.center = lc; child.update(dt)`, said of the child. */
    method Recentre(lc: Vec, dt: real, polar: real -> Vec, hypot: (real, real) -> real,
                    rng: Random)
      returns (tones: seq<Tone>)
      requires Valid() && IsHypot(hypot) && Fits(Snapshot()) && rng !in Inner
      modifies this, Inner, rng
      ensures (Snapshot(), tones)
              == Tick(old(Snapshot()), lc, Env(variant, dt, polar, hypot, rng.stream),
                      old(rng.cursor))
      ensures rng.cursor == old(rng.cursor) + 2 * Count(old(Snapshot()))
      decreases Inner, 6
    {
      ghost var before := Snapshot();
      center := lc;
      SnapshotIs(before.(center := lc));
      tones := UpdateFrom(dt, polar, hypot, rng, before);
    }

    /** Part way through the child loop of lobe `i`: the generator is at child `j`'s first
        draw, the children before `j` have been ticked as planned, the others are as they
        were, and `tones` holds the tones of the children before `j`. */
    ghost predicate RowAt(i: nat, j: nat, rng: Random, tones: seq<Tone>, kids: seq<Spinner>,
                          offs: seq<nat>, row: seq<(Spinner, seq<Tone>)>)
      requires Valid() && i < 3
      reads Rows[i], rng
    {
      var at := j <= |children[i]| == |kids| && |offs| == |kids| + 1 && |row| == |kids|
                && rng.cursor == offs[j] && tones == Joined(row, j)
                && forall j' | 0 <= j' < |kids| ::
                     children[i][j'].Snapshot() == if j' < j then row[j'].0 else kids[j'];
      at
    }

    /** The child loop of `update(dt)` for lobe `i`: each child in turn is moved to the
        lobe centre `lc` and updated, as the plan `l`, `offs`, `row` says. */
    method UpdateRow(i: nat, lc: Vec, dt: real, polar: real -> Vec, hypot: (real, real) -> real,
                     rng: Random, ghost env: Env, ghost l: Lobe, ghost offs: seq<nat>,
                     ghost row: seq<(Spinner, seq<Tone>)>)
      returns (tones: seq<Tone>)
      requires Ticking(dt, polar, hypot, rng, env) && i < 3
      requires RowPlan(env, lc, l, offs, row)
      requires Kids(i) == l.children && rng.cursor == offs[0]
      modifies Rows[i], rng
      ensures Kids(i) == States(row)
      ensures tones == Joined(row, |row|)
      ensures rng.cursor == offs[|l.children|]
      ensures forall i' | 0 <= i' < 3 && i' != i :: Kids(i') == old(Kids(i'))
      ensures forall i' | 0 <= i' < 3 :: LobeBodies(i') == old(LobeBodies(i'))
      decreases Inner, 2
    {
      tones := [];
      for j := 0 to |children[i]|
        invariant RowAt(i, j, rng, tones, l.children, offs, row)
      {
        tones := RowStep(i, j, lc, dt, polar, hypot, rng, tones, env, l, offs, row);
      }
    }

    /** One pass of the child loop of lobe `i`: `child.center = lc; child.update(dt)` for
        child `j`, keeping its tones. */
    method RowStep(i: nat, j: nat, lc: Vec, dt: real, polar: real -> Vec,
                   hypot: (real, real) -> real, rng: Random, acc: seq<Tone>, ghost env: Env,
                   ghost l: Lobe, ghost offs: seq<nat>,
                   ghost row: seq<(Spinner, seq<Tone>)>)
      returns (acc': seq<Tone>)
      requires Ticking(dt, polar, hypot, rng, env) && i < 3 && j < |children[i]|
      requires RowPlan(env, lc, l, offs, row)
      requires RowAt(i, j, rng, acc, l.children, offs, row)
      modifies children[i][j], children[i][j].Inner, rng
      ensures RowAt(i, j + 1, rng, acc', l.children, offs, row)
      decreases Inner, 1
    {
      var t := RowVisit(i, j, lc, dt, polar, hypot, rng);
      acc' := acc + t;
    }

    /** `child.center = lc; child.update(dt)` for child `j` of lobe `i`, which leaves the
        other children of the lobe as they were. */
    method RowVisit(i: nat, j: nat, lc: Vec, dt: real, polar: real -> Vec,
                    hypot: (real, real) -> real, rng: Random)
      returns (tones: seq<Tone>)
      requires Valid() && i < 3 && j < |children[i]| && IsHypot(hypot)
      requires Fits(children[i][j].Snapshot()) && rng !in Inner
      modifies children[i][j], children[i][j].Inner, rng
      ensures (children[i][j].Snapshot(), tones)
              == Tick(old(children[i][j].Snapshot()), lc,
                      Env(variant, dt, polar, hypot, rng.stream), old(rng.cursor))
      ensures rng.cursor == old(rng.cursor) + 2 * Count(old(children[i][j].Snapshot()))
      ensures forall j' | 0 <= j' < |children[i]| && j' != j ::
                children[i][j'].Snapshot() == old(children[i][j'].Snapshot())
      decreases Inner, 0
    {
      tones := children[i][j].Recentre(lc, dt, polar, hypot, rng);
    }

    /** The first loop of `maxwells_demon`: the particles of each lobe against the centre
        of that lobe. */
    method DemonOwn(polar: real -> Vec)
      requires Valid()
      modifies Members[0], Members[1], Members[2]
      ensures forall i | 0 <= i < 3 ::
                LobeBodies(i) == SortLobe(old(LobeBodies(i)), LobeCenter(center, armLength, theta, i, polar).x)
      ensures forall i | 0 <= i < 3 :: Kids(i) == old(Kids(i))
    {
      for i := 0 to 3
        invariant forall i' | 0 <= i' < 3 ::
                    LobeBodies(i')
                    == if i' < i then SortLobe(old(LobeBodies(i')), LobeCenter(center, armLength, theta, i', polar).x)
                       else old(LobeBodies(i'))
        invariant forall i' | 0 <= i' < 3 :: Kids(i') == old(Kids(i'))
      {
        DemonLobe(i, LobeCenter(center, armLength, theta, i, polar).x);
      }
    }

    /** The inner loop of `maxwells_demon` for lobe `i`: a hot particle goes to the right
        of the lobe centre's `x`, any other to the left, at the same distance. */
    method DemonLobe(i: nat, cx: real)
      requires Valid() && i < 3
      modifies Members[i]
      ensures LobeBodies(i) == SortLobe(old(LobeBodies(i)), cx)
      ensures forall i' | 0 <= i' < 3 && i' != i :: LobeBodies(i') == old(LobeBodies(i'))
      ensures forall i' | 0 <= i' < 3 :: Kids(i') == old(Kids(i'))
    {
      ghost var b0 := LobeBodies(i);
      for k := 0 to |particles[i]|
        invariant forall k' | 0 <= k' < |particles[i]| ::
                    particles[i][k'].State() == if k' < k then SortBody(b0[k'], cx) else b0[k']
      {
        var p := particles[i][k];
        var dx := p.x - cx;
        if p.KineticEnergy() > HOT_ENERGY {
          p.x := cx + Abs(dx);
        } else {
          p.x := cx - Abs(dx);
        }
      }
      assert LobeBodies(i) == SortLobe(b0, cx);
    }

    /** A node whose particles and children are each what the demon makes of them in
        `s0` shows the demon's result on `s0`. */
    lemma Demoned(s0: Spinner, polar: real -> Vec)
      requires Valid()
      requires s0.(lobes := []) == Spinner(level, maxLevel, center, armLength, lobeRadius, theta, [])
      requires |s0.lobes| == 3
      requires forall i | 0 <= i < 3 ::
                 && LobeBodies(i) == SortLobe(s0.lobes[i].bodies, LobeCenter(center, armLength, theta, i, polar).x)
                 && Kids(i) == DemonAll(s0.lobes[i].children, polar)
      ensures Snapshot() == DemonTree(s0, polar)
    {
      var goal := DemonTree(s0, polar);
      DemonLobes(s0, polar);
      forall i | 0 <= i < 3
        ensures LobeBodies(i) == goal.lobes[i].bodies
        ensures Kids(i) == goal.lobes[i].children
      {
        assert CenterOf(s0, i, polar) == LobeCenter(center, armLength, theta, i, polar);
      }
      SnapshotIs(goal);
    }

    /** `for child in child_list: child.maxwells_demon()` for the children of lobe `i`. */
    method DemonRow(i: nat, polar: real -> Vec)
      requires Valid() && i < 3
      modifies Rows[i]
      ensures Kids(i) == DemonAll(old(Kids(i)), polar)
      ensures forall i' | 0 <= i' < 3 && i' != i :: Kids(i') == old(Kids(i'))
      ensures forall i' | 0 <= i' < 3 :: LobeBodies(i') == old(LobeBodies(i'))
      decreases Inner, 0
    {
      for j := 0 to |children[i]|
        invariant forall j' | 0 <= j' < |children[i]| ::
                    children[i][j'].Snapshot()
                    == if j' < j then DemonTree(old(children[i][j'].Snapshot()), polar)
                       else old(children[i][j'].Snapshot())
      {
        children[i][j].MaxwellsDemon(polar);
      }
    }

    /** `total_particles()`: the lengths of the three particle lists, then the totals of
        the children, lobe by lobe. */
    method TotalParticles() returns (count: nat)
      requires Valid()
      ensures count == Count(Snapshot())
      decreases Inner, 1
    {
      ghost var lobes := Snapshot().lobes;
      count := 0;
      for i := 0 to 3
        invariant count == Own(lobes, i)
      {
        count := count + |particles[i]|;
      }
      for i := 0 to 3
        invariant count == Own(lobes, 3) + Family(lobes, i)
      {
        var r := RowParticles(i, lobes[i]);
        count := count + r;
      }
    }

    /** The inner loop of `total_particles()` for lobe `i`: the totals of its children. */
    method RowParticles(i: nat, ghost l: Lobe) returns (count: nat)
      requires var ok := Valid() && i < 3 && l.children == Kids(i); ok
      ensures count == Row(l, |children[i]|)
      decreases Inner, 0
    {
      count := 0;
      for j := 0 to |children[i]|
        invariant count == Row(l, j)
      {
        var c := children[i][j].TotalParticles();
        count := count + c;
      }
    }

    /** `total_energy()`: the kinetic energies of this node's particles, lobe by lobe,
        then the totals of the children, lobe by lobe. */
    method TotalEnergy() returns (energy: real)
      requires Valid()
      ensures energy == SpinnerTree.TotalEnergy(Snapshot())
      decreases Inner, 1
    {
      ghost var lobes := Snapshot().lobes;
      energy := 0.0;
      for i := 0 to 3
        invariant energy == OwnEnergy(lobes, i)
      {
        var e := LobeEnergy(i, lobes[i].bodies);
        energy := energy + e;
      }
      for i := 0 to 3
        invariant energy == OwnEnergy(lobes, 3) + FamilyEnergy(lobes, i)
      {
        var e := RowTotalEnergy(i, lobes[i]);
        energy := energy + e;
      }
    }

    /** The kinetic energies of the particles of lobe `i`, summed in order. */
    method LobeEnergy(i: nat, ghost b: seq<Body>) returns (energy: real)
      requires var ok := Valid() && i < 3 && b == LobeBodies(i); ok
      ensures energy == BodiesEnergy(b)
    {
      energy := 0.0;
      for k := 0 to |particles[i]|
        invariant energy == BodiesEnergy(b[..k])
      {
        var e := particles[i][k].KineticEnergy();
        assert b[..k + 1][..k] == b[..k];
        energy := energy + e;
      }
      assert b[..|b|] == b;
    }

    /** The inner loop of `total_energy()` for lobe `i`: the totals of its children. */
    method RowTotalEnergy(i: nat, ghost l: Lobe) returns (energy: real)
      requires var ok := Valid() && i < 3 && l.children == Kids(i); ok
      ensures energy == RowEnergy(l, |children[i]|)
      decreases Inner, 0
    {
      energy := 0.0;
      for j := 0 to |children[i]|
        invariant energy == RowEnergy(l, j)
      {
        var e := children[i][j].TotalEnergy();
        energy := energy + e;
      }
    }
  }

  /** `init_particles()`: for each lobe in turn, `PARTICLES_PER_LOBE` new particles
      around the lobe centre for angle 0. */
  method InitLobes(variant: Variant, center: Vec, armLength: real, lobeRadius: real,
                   polar: real -> Vec, rng: Random)
    returns (parts: seq<seq<Particle>>, ghost Ms: seq<set<object>>, ghost V: set<object>)
    modifies rng
    ensures |parts| == 3 && fresh(V) && rng.cursor == old(rng.cursor) + LobeDraws(variant, 3)
    ensures PartsMade(parts, Ms, V, variant, center, armLength, lobeRadius, polar, rng.stream,
                      old(rng.cursor))
  {
    ghost var off := rng.cursor;
    parts, Ms, V := [], [], {};
    for i := 0 to 3
      invariant |parts| == i && fresh(V) && rng.cursor == off + LobeDraws(variant, i)
      invariant PartsMade(parts, Ms, V, variant, center, armLength, lobeRadius, polar,
                          rng.stream, off)
    {
      var lc := LobeCenter(center, armLength, 0.0, i, polar);
      var ps, m := InitLobeParticles(variant, lc, lobeRadius, polar, rng, PerLobe(variant));
      LobeDrawsNext(variant, i);
      PartsMadeSnoc(parts, Ms, V, ps, m, variant, center, armLength, lobeRadius, polar,
                    rng.stream, off);
      parts, Ms, V := parts + [ps], Ms + [m], V + m;
    }
  }

  /** The particles of the lobes before lobe `|parts|` are made, apart from each other,
      and `V` holds them; lobe `i`'s from draw `off + LobeDraws(variant, i)` on. */
  ghost predicate PartsMade(parts: seq<seq<Particle>>, Ms: seq<set<object>>, V: set<object>,
                            variant: Variant, center: Vec, armLength: real, lobeRadius: real,
                            polar: real -> Vec, stream: nat -> Draw, off: nat)
    reads V
  {
    var ok := |parts| == |Ms|
              && (forall i | 0 <= i < |parts| ::
                    && Ms[i] <= V && |parts[i]| == PerLobe(variant)
                    && LobeMade(parts[i], Ms[i], variant,
                                LobeCenter(center, armLength, 0.0, i, polar), lobeRadius, polar,
                                stream, off + LobeDraws(variant, i)))
              && (forall i, i' | 0 <= i < |parts| && 0 <= i' < |parts| && i != i' :: Ms[i] !! Ms[i']);
    ok
  }

  /** The particles of the next lobe, made of objects outside `V`, extend those made so
      far. */
  lemma PartsMadeSnoc(parts: seq<seq<Particle>>, Ms: seq<set<object>>, V: set<object>,
                      ps: seq<Particle>, m: set<object>, variant: Variant, center: Vec,
                      armLength: real, lobeRadius: real, polar: real -> Vec,
                      stream: nat -> Draw, off: nat)
    requires var ok := PartsMade(parts, Ms, V, variant, center, armLength, lobeRadius, polar,
                                 stream, off)
                       && m !! V && |ps| == PerLobe(variant)
                       && LobeMade(ps, m, variant, LobeCenter(center, armLength, 0.0, |parts|, polar),
                                   lobeRadius, polar, stream, off + LobeDraws(variant, |parts|));
             ok
    ensures PartsMade(parts + [ps], Ms + [m], V + m, variant, center, armLength, lobeRadius,
                      polar, stream, off)
  {
    var parts', Ms', V' := parts + [ps], Ms + [m], V + m;
    forall i | 0 <= i < |parts'|
      ensures && Ms'[i] <= V' && |parts'[i]| == PerLobe(variant)
              && LobeMade(parts'[i], Ms'[i], variant,
                          LobeCenter(center, armLength, 0.0, i, polar), lobeRadius, polar,
                          stream, off + LobeDraws(variant, i))
    {
      if i < |parts| {
        assert parts'[i] == parts[i] && Ms'[i] == Ms[i];
      }
    }
    forall i, i' | 0 <= i < |parts'| && 0 <= i' < |parts'| && i != i'
      ensures Ms'[i] !! Ms'[i']
    {
      if i < |parts| && i' < |parts| {
        assert Ms'[i] == Ms[i] && Ms'[i'] == Ms[i'];
      } else if i < |parts| {
        assert Ms'[i] == Ms[i] && Ms'[i'] == m;
      } else {
        assert Ms'[i] == m && Ms'[i'] == Ms[i'];
      }
    }
  }

  /** The inner loop of `init_particles()` for one lobe centred at `lc`: `n` particles,
      each from three draws (an angle, a speed and a radius), on the rim of the lobe. */
  method InitLobeParticles(variant: Variant, lc: Vec, lobeRadius: real, polar: real -> Vec,
                           rng: Random, n: nat)
    returns (ps: seq<Particle>, ghost m: set<object>)
    modifies rng
    ensures |ps| == n && fresh(m) && rng.cursor == old(rng.cursor) + 3 * n
    ensures LobeMade(ps, m, variant, lc, lobeRadius, polar, rng.stream, old(rng.cursor))
  {
    ghost var off := rng.cursor;
    ps, m := [], {};
    for k := 0 to n
      invariant |ps| == k && fresh(m) && rng.cursor == off + 3 * k
      invariant LobeMade(ps, m, variant, lc, lobeRadius, polar, rng.stream, off)
    {
      var u1 := rng.Next();
      var angle := u1 * 2.0 * PI;
      var u2 := rng.Next();
      var speed := u2 * MAX_SPEED;
      var u3 := rng.Next();
      var r := MIN_RADIUS + u3 * RADIUS_SPREAD;
      var dir := polar(angle);
      var p := new Particle(variant, lc.x + dir.x * (lobeRadius - r),
                            lc.y + dir.y * (lobeRadius - r), dir.x * speed, dir.y * speed, r);
      LobeMadeSnoc(ps, m, p, variant, lc, lobeRadius, polar, rng.stream, off);
      ps, m := ps + [p], m + {p};
    }
  }

  /** The particles `ps`, made of `m` and all distinct, are those `init_particles`
      makes for a lobe centred at `lc` from draw `off` on. */
  ghost predicate LobeMade(ps: seq<Particle>, m: set<object>, variant: Variant, lc: Vec,
                           lobeRadius: real, polar: real -> Vec, stream: nat -> Draw,
                           off: nat)
    reads m
  {
    var ok := (forall k | 0 <= k < |ps| ::
                 ps[k] in m
                 && ps[k].State()
                    == InitLobe(variant, lc, lobeRadius, polar, stream, off, |ps|)[k])
              && (forall k, k' | 0 <= k < |ps| && 0 <= k' < |ps| && k != k' :: ps[k] != ps[k']);
    ok
  }

  /** A new particle from the next three draws extends the particles made so far. */
  lemma LobeMadeSnoc(ps: seq<Particle>, m: set<object>, p: Particle, variant: Variant, lc: Vec,
                     lobeRadius: real, polar: real -> Vec, stream: nat -> Draw, off: nat)
    requires var ok := LobeMade(ps, m, variant, lc, lobeRadius, polar, stream, off) && p !in m
                       && p.State()
                          == InitBody(variant, lc, lobeRadius, polar, stream(off + 3 * |ps|),
                                      stream(off + 3 * |ps| + 1), stream(off + 3 * |ps| + 2));
             ok
    ensures LobeMade(ps + [p], m + {p}, variant, lc, lobeRadius, polar, stream, off)
  {
    var ps', m' := ps + [p], m + {p};
    forall k | 0 <= k < |ps'|
      ensures ps'[k] in m'
      ensures ps'[k].State() == InitLobe(variant, lc, lobeRadius, polar, stream, off, |ps'|)[k]
    {
      if k < |ps| {
        assert ps'[k] == ps[k];
        assert ps[k].State() == InitLobe(variant, lc, lobeRadius, polar, stream, off, |ps|)[k];
      }
    }
    forall k, k' | 0 <= k < |ps'| && 0 <= k' < |ps'| && k != k'
      ensures ps'[k] != ps'[k']
    {
      if k < |ps| && k' < |ps| {
        assert ps'[k] == ps[k] && ps'[k'] == ps[k'];
      } else if k < |ps| {
        assert ps'[k] == ps[k] && ps'[k'] == p;
      } else {
        assert ps'[k] == p && ps'[k'] == ps[k'];
      }
    }
  }

  /** `c` is a node the constructor built with these arguments, starting at draw `at`. */
  ghost predicate Grown(c: SpinnerNode, variant: Variant, level: nat, maxLevel: nat, lc: Vec,
                        armLength: real, lobeRadius: real, polar: real -> Vec,
                        stream: nat -> Draw, at: nat)
    reads c, c.Inner
  {
    var ok := c.Valid() && c.variant == variant && c.level == level && c.maxLevel == maxLevel
              && c.armLength == armLength && c.lobeRadius == lobeRadius
              && c.Snapshot()
                 == Spawn(variant, level, maxLevel, lc, armLength, lobeRadius, polar, stream, at);
    ok
  }

  /** The work of `__init__` before the node itself exists: below `max_level` the three
      rows of children, then the particles of the three lobes, each from the draws after
      those before. */
  method Build(variant: Variant, level: nat, maxLevel: nat, center: Vec, armLength: real,
               lobeRadius: real, polar: real -> Vec, rng: Random)
    returns (rows: seq<seq<SpinnerNode>>, ghost Rs: seq<set<object>>, ghost U: set<object>,
             parts: seq<seq<Particle>>, ghost Ms: seq<set<object>>, ghost V: set<object>)
    modifies rng
    ensures fresh(U) && fresh(V)
    ensures rng.cursor == old(rng.cursor) + SpawnDraws(PerLobe(variant), Below(level, maxLevel))
    ensures Made(rows, Rs, U, parts, Ms, V, variant, level, maxLevel, center, armLength,
                  lobeRadius, polar, rng.stream, old(rng.cursor))
    decreases Below(level, maxLevel), 3
  {
    ghost var off := rng.cursor;
    if level < maxLevel {
      rows, Rs, U := SpawnLobes(variant, level, maxLevel, center, armLength, lobeRadius, polar,
                                rng);
    } else {
      rows, Rs, U := [[], [], []], [{}, {}, {}], {};
      assert RowsGrown(rows, Rs, U, variant, level, maxLevel, center, armLength, lobeRadius,
                       polar, rng.stream, off);
    }
    parts, Ms, V := InitLobes(variant, center, armLength, lobeRadius, polar, rng);
    SpawnDrawsStep(variant, level, maxLevel);
  }

  /** The rows of children and the particles of the three lobes, as `__init__` builds
      them from draw `off` on: the rows first, then the particles, sharing nothing. */
  ghost predicate Made(rows: seq<seq<SpinnerNode>>, Rs: seq<set<object>>, U: set<object>,
                        parts: seq<seq<Particle>>, Ms: seq<set<object>>, V: set<object>,
                        variant: Variant, level: nat, maxLevel: nat, center: Vec,
                        armLength: real, lobeRadius: real, polar: real -> Vec,
                        stream: nat -> Draw, off: nat)
    reads U, V
  {
    var ok := && |rows| == 3 && |parts| == 3 && U !! V
              && RowsGrown(rows, Rs, U, variant, level, maxLevel, center, armLength, lobeRadius,
                           polar, stream, off)
              && PartsMade(parts, Ms, V, variant, center, armLength, lobeRadius, polar, stream,
                           off + ChildDraws(variant, level, maxLevel));
    ok
  }

  /** `for i in range(3): lc = self.get_lobe_center(i); for j in range(3): ...` of
      `__init__` below `max_level`: the three rows of children, lobe by lobe. */
  method SpawnLobes(variant: Variant, level: nat, maxLevel: nat, center: Vec, armLength: real,
                    lobeRadius: real, polar: real -> Vec, rng: Random)
    returns (rows: seq<seq<SpinnerNode>>, ghost Rs: seq<set<object>>, ghost U: set<object>)
    requires level < maxLevel
    modifies rng
    ensures |rows| == 3 && fresh(U)
    ensures rng.cursor == old(rng.cursor) + ChildDraws(variant, level, maxLevel)
    ensures RowsGrown(rows, Rs, U, variant, level, maxLevel, center, armLength, lobeRadius,
                      polar, rng.stream, old(rng.cursor))
    decreases Below(level, maxLevel), 2
  {
    ghost var off := rng.cursor;
    ghost var d := SpawnDraws(PerLobe(variant), Below(level + 1, maxLevel));
    rows, Rs, U := [], [], {};
    for i := 0 to 3
      invariant |rows| == i && fresh(U) && rng.cursor == After(off, 3 * d, i)
      invariant RowsGrown(rows, Rs, U, variant, level, maxLevel, center, armLength, lobeRadius,
                          polar, rng.stream, off)
    {
      rows, Rs, U := LobeNext(variant, level, maxLevel, center, armLength, lobeRadius, polar,
                              rng, rows, Rs, U, off);
    }
    AfterIs(off, 3 * d, 3);
    assert Below(level, maxLevel) - 1 == Below(level + 1, maxLevel);
  }

  /** The rows of the lobes before lobe `|rows|` are grown, apart from each other and
      `U` holds them, the row of lobe `i` from draw `After(off, 3 d, i)` on. */
  ghost predicate RowsGrown(rows: seq<seq<SpinnerNode>>, Rs: seq<set<object>>, U: set<object>,
                            variant: Variant, level: nat, maxLevel: nat, center: Vec,
                            armLength: real, lobeRadius: real, polar: real -> Vec,
                            stream: nat -> Draw, off: nat)
    reads U
  {
    var ok := |rows| == |Rs|
              && (forall i | 0 <= i < |rows| ::
                    LobeGrown(rows, Rs, U, i, variant, level, maxLevel, center, armLength,
                              lobeRadius, polar, stream, off))
              && (forall i, i' | 0 <= i < |rows| && 0 <= i' < |rows| && i != i' :: Rs[i] !! Rs[i']);
    ok
  }

  /** The row of lobe `i` is made of `Rs[i]` and was grown from draw `After(off, 3 d, i)`
      on. */
  ghost predicate LobeGrown(rows: seq<seq<SpinnerNode>>, Rs: seq<set<object>>, U: set<object>,
                            i: nat, variant: Variant, level: nat, maxLevel: nat, center: Vec,
                            armLength: real, lobeRadius: real, polar: real -> Vec,
                            stream: nat -> Draw, off: nat)
    reads U
  {
    var d := SpawnDraws(PerLobe(variant), Below(level + 1, maxLevel));
    && i < |rows| && i < |Rs| && Rs[i] <= U && |rows[i]| == (if level < maxLevel then 3 else 0)
    && RowGrown(rows[i], Rs[i], variant, level + 1, maxLevel,
                LobeCenter(center, armLength, 0.0, i, polar), armLength * SCALE,
                lobeRadius * SCALE, polar, stream, After(off, 3 * d, i), d)
  }

  /** One pass of the loop of `SpawnLobes`: the row of the next lobe. */
  method LobeNext(variant: Variant, level: nat, maxLevel: nat, center: Vec, armLength: real,
                  lobeRadius: real, polar: real -> Vec, rng: Random,
                  rows: seq<seq<SpinnerNode>>, ghost Rs: seq<set<object>>, ghost U: set<object>,
                  ghost off: nat)
    returns (rows': seq<seq<SpinnerNode>>, ghost Rs': seq<set<object>>, ghost U': set<object>)
    requires var ok := level < maxLevel && rng !in U
                       && rng.cursor
                          == After(off, 3 * SpawnDraws(PerLobe(variant), Below(level + 1, maxLevel)),
                                   |rows|)
                       && RowsGrown(rows, Rs, U, variant, level, maxLevel, center, armLength,
                                    lobeRadius, polar, rng.stream, off);
             ok
    modifies rng
    ensures |rows'| == |rows| + 1 && fresh(U' - U)
    ensures var ok := rng.cursor
                      == After(off, 3 * SpawnDraws(PerLobe(variant), Below(level + 1, maxLevel)),
                               |rows'|)
                      && RowsGrown(rows', Rs', U', variant, level, maxLevel, center, armLength,
                                   lobeRadius, polar, rng.stream, off);
            ok
    decreases Below(level, maxLevel), 1
  {
    ghost var at := rng.cursor;
    var row, R := SpawnRow(variant, level + 1, maxLevel,
                           LobeCenter(center, armLength, 0.0, |rows|, polar), armLength * SCALE,
                           lobeRadius * SCALE, polar, rng);
    AfterIs(at, SpawnDraws(PerLobe(variant), Below(level + 1, maxLevel)), 3);
    RowsGrownSnoc(rows, Rs, U, row, R, variant, level, maxLevel, center, armLength, lobeRadius,
                  polar, rng.stream, off);
    rows', Rs', U' := rows + [row], Rs + [R], U + R;
  }

  /** A new row, made of objects outside `U`, extends the rows grown so far. */
  lemma RowsGrownSnoc(rows: seq<seq<SpinnerNode>>, Rs: seq<set<object>>, U: set<object>,
                      row: seq<SpinnerNode>, R: set<object>, variant: Variant, level: nat,
                      maxLevel: nat, center: Vec, armLength: real, lobeRadius: real,
                      polar: real -> Vec, stream: nat -> Draw, off: nat)
    requires var d := SpawnDraws(PerLobe(variant), Below(level + 1, maxLevel));
             var ok := RowsGrown(rows, Rs, U, variant, level, maxLevel, center, armLength,
                                 lobeRadius, polar, stream, off)
                       && R !! U && |row| == (if level < maxLevel then 3 else 0)
                       && RowGrown(row, R, variant, level + 1, maxLevel,
                                   LobeCenter(center, armLength, 0.0, |rows|, polar),
                                   armLength * SCALE, lobeRadius * SCALE, polar, stream,
                                   After(off, 3 * d, |rows|), d);
             ok
    ensures RowsGrown(rows + [row], Rs + [R], U + R, variant, level, maxLevel, center, armLength,
                      lobeRadius, polar, stream, off)
  {
    var d := SpawnDraws(PerLobe(variant), Below(level + 1, maxLevel));
    var rows', Rs', U' := rows + [row], Rs + [R], U + R;
    forall i | 0 <= i < |rows'|
      ensures LobeGrown(rows', Rs', U', i, variant, level, maxLevel, center, armLength,
                        lobeRadius, polar, stream, off)
    {
      if i < |rows| {
        assert LobeGrown(rows, Rs, U, i, variant, level, maxLevel, center, armLength,
                         lobeRadius, polar, stream, off);
        assert rows'[i] == rows[i] && Rs'[i] == Rs[i];
      }
    }
    forall i, i' | 0 <= i < |rows'| && 0 <= i' < |rows'| && i != i'
      ensures Rs'[i] !! Rs'[i']
    {
      if i < |rows| && i' < |rows| {
        assert Rs'[i] == Rs[i] && Rs'[i'] == Rs[i'];
      } else if i < |rows| {
        assert LobeGrown(rows, Rs, U, i, variant, level, maxLevel, center, armLength,
                         lobeRadius, polar, stream, off);
        assert Rs'[i] == Rs[i] && Rs'[i'] == R;
      } else {
        assert LobeGrown(rows, Rs, U, i', variant, level, maxLevel, center, armLength,
                         lobeRadius, polar, stream, off);
        assert Rs'[i] == R && Rs'[i'] == Rs[i'];
      }
    }
  }

  /** The children of one lobe: `for j in range(3): children[i].append(SpinnerNode(...))`,
      each reading the generator after the one before. `R` is everything they are made
      of. */
  method SpawnRow(variant: Variant, level: nat, maxLevel: nat, lc: Vec, armLength: real,
                  lobeRadius: real, polar: real -> Vec, rng: Random)
    returns (row: seq<SpinnerNode>, ghost R: set<object>)
    modifies rng
    ensures |row| == 3 && fresh(R)
    ensures rng.cursor
            == After(old(rng.cursor), SpawnDraws(PerLobe(variant), Below(level, maxLevel)), 3)
    ensures RowGrown(row, R, variant, level, maxLevel, lc, armLength, lobeRadius, polar,
                     rng.stream, old(rng.cursor), SpawnDraws(PerLobe(variant), Below(level, maxLevel)))
    decreases Below(level, maxLevel), 6
  {
    ghost var off := rng.cursor;
    ghost var d := SpawnDraws(PerLobe(variant), Below(level, maxLevel));
    row, R := [], {};
    for j := 0 to 3
      invariant |row| == j && fresh(R) && rng.cursor == After(off, d, j)
      invariant RowGrown(row, R, variant, level, maxLevel, lc, armLength, lobeRadius, polar,
                         rng.stream, off, d)
    {
      row, R := SpawnNext(variant, level, maxLevel, lc, armLength, lobeRadius, polar, rng,
                          row, R, off, d);
    }
  }

  /** The children `row` built so far, the `j`-th from draw `After(off, d, j)`, are
      made of `R` and share nothing. */
  ghost predicate RowGrown(row: seq<SpinnerNode>, R: set<object>, variant: Variant, level: nat,
                           maxLevel: nat, lc: Vec, armLength: real, lobeRadius: real,
                           polar: real -> Vec, stream: nat -> Draw, off: nat, d: nat)
    reads R
  {
    var ok := (forall j | 0 <= j < |row| ::
                 ChildGrown(row, R, j, variant, level, maxLevel, lc, armLength, lobeRadius,
                            polar, stream, off, d))
              && (forall j, j' | 0 <= j < |row| && 0 <= j' < |row| && j != j' ::
                    row[j] != row[j'] && row[j] !in row[j'].Inner
                    && row[j].Inner !! row[j'].Inner);
    ok
  }

  /** Child `j` of `row` is made of `R` and was built from draw `After(off, d, j)` on. */
  ghost predicate ChildGrown(row: seq<SpinnerNode>, R: set<object>, j: nat, variant: Variant,
                             level: nat, maxLevel: nat, lc: Vec, armLength: real,
                             lobeRadius: real, polar: real -> Vec, stream: nat -> Draw,
                             off: nat, d: nat)
    reads R
  {
    && j < |row| && row[j] in R && row[j].Inner <= R
    && Grown(row[j], variant, level, maxLevel, lc, armLength, lobeRadius, polar, stream,
             After(off, d, j))
  }

  /** One pass of the loop of `SpawnRow`: the next child, built without disturbing the
      ones before it. */
  method SpawnNext(variant: Variant, level: nat, maxLevel: nat, lc: Vec, armLength: real,
                   lobeRadius: real, polar: real -> Vec, rng: Random,
                   row: seq<SpinnerNode>, ghost R: set<object>, ghost off: nat,
                   ghost d: nat)
    returns (row': seq<SpinnerNode>, ghost R': set<object>)
    requires d == SpawnDraws(PerLobe(variant), Below(level, maxLevel))
    requires rng.cursor == After(off, d, |row|) && rng !in R
    requires RowGrown(row, R, variant, level, maxLevel, lc, armLength, lobeRadius, polar,
                      rng.stream, off, d)
    modifies rng
    ensures |row'| == |row| + 1 && fresh(R' - R) && rng.cursor == After(off, d, |row'|)
    ensures RowGrown(row', R', variant, level, maxLevel, lc, armLength, lobeRadius, polar,
                     rng.stream, off, d)
    decreases Below(level, maxLevel), 5
  {
    var child := new SpinnerNode(variant, level, lc, armLength, lobeRadius, maxLevel, polar, rng);
    RowGrownSnoc(row, R, child, variant, level, maxLevel, lc, armLength, lobeRadius, polar,
                 rng.stream, off, d);
    row', R' := row + [child], R + {child} + child.Inner;
  }

  /** A new child, made of objects outside `R`, extends a row grown so far. */
  lemma RowGrownSnoc(row: seq<SpinnerNode>, R: set<object>, child: SpinnerNode,
                     variant: Variant, level: nat, maxLevel: nat, lc: Vec, armLength: real,
                     lobeRadius: real, polar: real -> Vec, stream: nat -> Draw, off: nat,
                     d: nat)
    requires var ok := RowGrown(row, R, variant, level, maxLevel, lc, armLength, lobeRadius,
                                polar, stream, off, d)
                       && child !in R && child.Inner !! R
                       && Grown(child, variant, level, maxLevel, lc, armLength, lobeRadius,
                                polar, stream, After(off, d, |row|));
             ok
    ensures RowGrown(row + [child], R + {child} + child.Inner, variant, level, maxLevel, lc,
                     armLength, lobeRadius, polar, stream, off, d)
  {
    var row', R' := row + [child], R + {child} + child.Inner;
    forall j | 0 <= j < |row'|
      ensures ChildGrown(row', R', j, variant, level, maxLevel, lc, armLength, lobeRadius,
                         polar, stream, off, d)
    {
      if j < |row| {
        assert ChildGrown(row, R, j, variant, level, maxLevel, lc, armLength, lobeRadius,
                          polar, stream, off, d);
        assert row'[j] == row[j];
      }
    }
    forall j, j' | 0 <= j < |row'| && 0 <= j' < |row'| && j != j'
      ensures row'[j] != row'[j'] && row'[j] !in row'[j'].Inner && row'[j].Inner !! row'[j'].Inner
    {
      if j < |row| && j' < |row| {
        assert row'[j] == row[j] && row'[j'] == row[j'];
      } else if j < |row| {
        assert ChildGrown(row, R, j, variant, level, maxLevel, lc, armLength, lobeRadius,
                          polar, stream, off, d);
        assert row'[j] == row[j] && row'[j'] == child;
      } else {
        assert ChildGrown(row, R, j', variant, level, maxLevel, lc, armLength, lobeRadius,
                          polar, stream, off, d);
        assert row'[j] == child && row'[j'] == row[j'];
      }
    }
  }
  /** Lobe `i`'s row of a grown set of rows. */
  lemma RowsGrownAt(rows: seq<seq<SpinnerNode>>, Rs: seq<set<object>>, U: set<object>,
                    variant: Variant, level: nat, maxLevel: nat, center: Vec, armLength: real,
                    lobeRadius: real, polar: real -> Vec, stream: nat -> Draw, off: nat, i: nat)
    requires RowsGrown(rows, Rs, U, variant, level, maxLevel, center, armLength, lobeRadius,
                       polar, stream, off)
    requires i < |rows|
    ensures RowGrown(rows[i], Rs[i], variant, level + 1, maxLevel,
                     LobeCenter(center, armLength, 0.0, i, polar), armLength * SCALE,
                     lobeRadius * SCALE, polar, stream,
                     After(off, 3 * SpawnDraws(PerLobe(variant), Below(level + 1, maxLevel)), i),
                     SpawnDraws(PerLobe(variant), Below(level + 1, maxLevel)))
  {
    assert LobeGrown(rows, Rs, U, i, variant, level, maxLevel, center, armLength, lobeRadius,
                     polar, stream, off);
  }

  /** Every child of a grown row. */
  lemma RowGrownAll(row: seq<SpinnerNode>, R: set<object>, variant: Variant, level: nat,
                    maxLevel: nat, lc: Vec, armLength: real, lobeRadius: real,
                    polar: real -> Vec, stream: nat -> Draw, off: nat, d: nat)
    requires RowGrown(row, R, variant, level, maxLevel, lc, armLength, lobeRadius, polar,
                      stream, off, d)
    ensures forall j | 0 <= j < |row| ::
              && row[j].Valid()
              && row[j].Snapshot()
                 == Spawn(variant, level, maxLevel, lc, armLength, lobeRadius, polar, stream,
                          After(off, d, j))
  {
    forall j | 0 <= j < |row|
      ensures row[j].Valid()
      ensures row[j].Snapshot()
              == Spawn(variant, level, maxLevel, lc, armLength, lobeRadius, polar, stream,
                       After(off, d, j))
    {
      RowGrownAt(row, R, variant, level, maxLevel, lc, armLength, lobeRadius, polar, stream, off,
                 d, j);
    }
  }

  /** Child `j` of a grown row. */
  lemma RowGrownAt(row: seq<SpinnerNode>, R: set<object>, variant: Variant, level: nat,
                   maxLevel: nat, lc: Vec, armLength: real, lobeRadius: real,
                   polar: real -> Vec, stream: nat -> Draw, off: nat, d: nat, j: nat)
    requires RowGrown(row, R, variant, level, maxLevel, lc, armLength, lobeRadius, polar,
                      stream, off, d)
    requires j < |row|
    ensures row[j].Valid()
    ensures row[j].Snapshot()
            == Spawn(variant, level, maxLevel, lc, armLength, lobeRadius, polar, stream,
                     After(off, d, j))
  {
    assert ChildGrown(row, R, j, variant, level, maxLevel, lc, armLength, lobeRadius, polar,
                      stream, off, d);
  }

  /** Lobe `i`'s particles of the particles made for a node. */
  lemma PartsMadeAt(parts: seq<seq<Particle>>, Ms: seq<set<object>>, V: set<object>,
                    variant: Variant, center: Vec, armLength: real, lobeRadius: real,
                    polar: real -> Vec, stream: nat -> Draw, off: nat, i: nat)
    requires PartsMade(parts, Ms, V, variant, center, armLength, lobeRadius, polar, stream, off)
    requires i < |parts|
    ensures |parts[i]| == PerLobe(variant)
    ensures LobeMade(parts[i], Ms[i], variant, LobeCenter(center, armLength, 0.0, i, polar),
                     lobeRadius, polar, stream, off + LobeDraws(variant, i))
  {
  }

  /** The states of the particles made for lobe `i` are the bodies `InitLobe` gives it. */
  lemma PartsMadeIs(parts: seq<seq<Particle>>, Ms: seq<set<object>>, V: set<object>,
                    variant: Variant, center: Vec, armLength: real, lobeRadius: real,
                    polar: real -> Vec, stream: nat -> Draw, off: nat, i: nat)
    requires var ok := PartsMade(parts, Ms, V, variant, center, armLength, lobeRadius, polar,
                                 stream, off)
                       && i < |parts|;
             ok
    ensures |parts[i]| == PerLobe(variant)
    ensures forall k | 0 <= k < |parts[i]| ::
              parts[i][k].State()
              == InitLobe(variant, LobeCenter(center, armLength, 0.0, i, polar), lobeRadius,
                          polar, stream, off + LobeDraws(variant, i), PerLobe(variant))[k]
  {
    PartsMadeAt(parts, Ms, V, variant, center, armLength, lobeRadius, polar, stream, off, i);
    LobeMadeIs(parts[i], Ms[i], variant, LobeCenter(center, armLength, 0.0, i, polar),
               lobeRadius, polar, stream, off + LobeDraws(variant, i));
  }

  /** The states of particles made for a lobe are the bodies `InitLobe` gives it. */
  lemma LobeMadeIs(ps: seq<Particle>, m: set<object>, variant: Variant, lc: Vec,
                   lobeRadius: real, polar: real -> Vec, stream: nat -> Draw, off: nat)
    requires LobeMade(ps, m, variant, lc, lobeRadius, polar, stream, off)
    ensures forall k | 0 <= k < |ps| ::
              ps[k].State() == InitLobe(variant, lc, lobeRadius, polar, stream, off, |ps|)[k]
  {
  }
}
