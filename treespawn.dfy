/** `SpinnerNode.__init__` and `init_particles` as a value: the tree a constructor call
    builds from the generator's stream, and the facts main's trees get from it. */
module TreeSpawn {
  import opened Geometry
  import opened Randomness
  import opened Kinetics
  import opened Demon
  import opened SpinnerTree

  /** `Particle(x, y, vx, vy, radius)`: light.py's constructor stores `vy` for both
      velocity components, isolated.py's stores them as given. */
  function NewBody(v: Variant, x: real, y: real, vx: real, vy: real, radius: real): (b: Body)
    ensures b.(vx := vx) == Body(x, y, vx, vy, radius)
  {
    match v
    case Light => Body(x, y, vy, vy, radius)
    case Isolated => Body(x, y, vx, vy, radius)
  }

  /** light.py drops the `vx` argument; isolated.py keeps it. */
  lemma NewBodyVelocity(v: Variant, x: real, y: real, vx: real, vy: real, radius: real)
    ensures NewBody(v, x, y, vx, vy, radius).vx == if v == Light then vy else vx
    ensures v == Light ==> NewBody(v, x, y, vx, vy, radius).vx == NewBody(v, x, y, vx, vy, radius).vy
  {
  }

  /** Largest initial speed and the range of initial radii. */
  const MAX_SPEED: real := 0.3
  const MIN_RADIUS: real := 2.0
  const RADIUS_SPREAD: real := 2.0

  /** One particle of `init_particles` from its three draws: a direction, a speed and a
      radius; it starts on the rim of its lobe, moving outwards. */
  function InitBody(v: Variant, lc: Vec, lobeRadius: real, polar: real -> Vec,
                    u1: Draw, u2: Draw, u3: Draw): Body
  {
    var d := polar(u1 * 2.0 * PI);
    var speed := u2 * MAX_SPEED;
    var r := MIN_RADIUS + u3 * RADIUS_SPREAD;
    NewBody(v, lc.x + d.x * (lobeRadius - r), lc.y + d.y * (lobeRadius - r),
            d.x * speed, d.y * speed, r)
  }

  /** Particle `k` of a lobe whose particles read the stream from draw `off`: it uses
      draws `off + 3 k` to `off + 3 k + 2`. */
  function LobeBody(v: Variant, lc: Vec, lobeRadius: real, polar: real -> Vec,
                    stream: nat -> Draw, off: nat, k: nat): Body
  {
    InitBody(v, lc, lobeRadius, polar, stream(off + 3 * k), stream(off + 3 * k + 1),
             stream(off + 3 * k + 2))
  }

  /** The `n` particles of one lobe. */
  function InitLobe(v: Variant, lc: Vec, lobeRadius: real, polar: real -> Vec,
                    stream: nat -> Draw, off: nat, n: nat): seq<Body>
  {
    seq(n, k requires 0 <= k < n => LobeBody(v, lc, lobeRadius, polar, stream, off, k))
  }

  /** Draws consumed by building a tree of the given depth: three per particle. */
  function SpawnDraws(n: nat, depth: nat): nat
  {
    9 * n * Nodes(depth)
  }

  /** Levels below a node of `level` in a tree of `maxLevel`. */
  function Below(level: nat, maxLevel: nat): nat
  {
    if level < maxLevel then maxLevel - level else 0
  }

  /** `init_particles()`: `PARTICLES_PER_LOBE` particles per lobe, lobe by lobe, each at
      the rim of its lobe centre for angle 0. */
  function InitParticles(v: Variant, center: Vec, armLength: real, lobeRadius: real,
                         polar: real -> Vec, stream: nat -> Draw, off: nat)
    : (r: seq<seq<Body>>)
    ensures |r| == 3 && forall i | 0 <= i < 3 :: |r[i]| == PerLobe(v)
  {
    seq(3, i requires 0 <= i < 3 =>
      InitLobe(v, LobeCenter(center, armLength, 0.0, i, polar), lobeRadius, polar, stream,
               off + LobeDraws(v, i), PerLobe(v)))
  }

  /** Draws `init_particles` makes before lobe `i`: three for each particle of the lobes
      before it. */
  function LobeDraws(v: Variant, i: nat): nat
  {
    3 * PerLobe(v) * i
  }

  /** Lobe `i + 1`'s particles start three draws per particle after lobe `i`'s. */
  lemma LobeDrawsNext(v: Variant, i: nat)
    ensures LobeDraws(v, i + 1) == LobeDraws(v, i) + 3 * PerLobe(v)
  {
  }

  /** Particle `k` of lobe `i` of `init_particles` is made from three consecutive draws, all
      inside lobe `i`'s block of the stream; the blocks of the three lobes follow one
      another, from `off` to `off + 9 n` for `n` particles per lobe. */
  lemma InitParticlesDraws(v: Variant, center: Vec, armLength: real, lobeRadius: real,
                           polar: real -> Vec, stream: nat -> Draw, off: nat, i: nat, k: nat)
    requires i < 3 && k < PerLobe(v)
    ensures var o := off + LobeDraws(v, i);
            && InitParticles(v, center, armLength, lobeRadius, polar, stream, off)[i][k]
               == InitBody(v, LobeCenter(center, armLength, 0.0, i, polar), lobeRadius, polar,
                           stream(o + 3 * k), stream(o + 3 * k + 1), stream(o + 3 * k + 2))
            && o + 3 * k + 2 < off + LobeDraws(v, i + 1)
    ensures LobeDraws(v, 0) == 0 && LobeDraws(v, 3) == 9 * PerLobe(v)
  {
    LobeDrawsNext(v, i);
    LobeDrawsNext(v, 0);
    LobeDrawsNext(v, 1);
    LobeDrawsNext(v, 2);
  }

  /** The children `__init__` builds below `max_level`: three per lobe, at the lobe
      centre for angle 0, scaled by 0.4, each reading the stream after the ones before. */
  function SpawnChildren(v: Variant, level: nat, maxLevel: nat, center: Vec,
                         armLength: real, lobeRadius: real, polar: real -> Vec,
                         stream: nat -> Draw, off: nat)
    : (r: seq<seq<Spinner>>)
    ensures |r| == 3
    ensures forall i | 0 <= i < 3 :: |r[i]| == if level < maxLevel then 3 else 0
    decreases Below(level, maxLevel), 0
  {
    seq(3, i requires 0 <= i < 3 =>
      if level < maxLevel then
        seq(3, j requires 0 <= j < 3 =>
          Spawn(v, level + 1, maxLevel, LobeCenter(center, armLength, 0.0, i, polar),
                armLength * SCALE, lobeRadius * SCALE, polar, stream,
                off + (3 * i + j) * SpawnDraws(PerLobe(v), Below(level, maxLevel) - 1)))
      else [])
  }

  /** `SpinnerNode(level, center, arm_length, lobe_radius, max_level)` reading the stream
      from `off`: the children first, then this node's particles. */
  function Spawn(v: Variant, level: nat, maxLevel: nat, center: Vec, armLength: real,
                 lobeRadius: real, polar: real -> Vec, stream: nat -> Draw, off: nat): Spinner
    decreases Below(level, maxLevel), 1
  {
    var kids := SpawnChildren(v, level, maxLevel, center, armLength, lobeRadius, polar,
                              stream, off);
    var bodies := InitParticles(v, center, armLength, lobeRadius, polar, stream,
                                off + ChildDraws(v, level, maxLevel));
    Spinner(level, maxLevel, center, armLength, lobeRadius, 0.0,
            seq(3, i requires 0 <= i < 3 => Lobe(bodies[i], kids[i])))
  }

  /** `s` is the tree `Spawn` builds from these arguments. */
  ghost predicate IsSpawn(s: Spinner, v: Variant, level: nat, maxLevel: nat, center: Vec,
                          armLength: real, lobeRadius: real, polar: real -> Vec,
                          stream: nat -> Draw, off: nat)
  {
    s == Spawn(v, level, maxLevel, center, armLength, lobeRadius, polar, stream, off)
  }

  /** Draws consumed by the children of a node before its own particles. */
  function ChildDraws(v: Variant, level: nat, maxLevel: nat): nat
  {
    if level < maxLevel then 9 * SpawnDraws(PerLobe(v), Below(level, maxLevel) - 1) else 0
  }

  /** A node whose three lobes are those of `Spawn` is the tree `Spawn` describes. */
  lemma SpawnIs(v: Variant, level: nat, maxLevel: nat, center: Vec, armLength: real,
                lobeRadius: real, polar: real -> Vec, stream: nat -> Draw, off: nat,
                l0: Lobe, l1: Lobe, l2: Lobe)
    requires var s := Spawn(v, level, maxLevel, center, armLength, lobeRadius, polar, stream, off);
             s.lobes[0] == l0 && s.lobes[1] == l1 && s.lobes[2] == l2
    ensures Spawn(v, level, maxLevel, center, armLength, lobeRadius, polar, stream, off)
            == Spinner(level, maxLevel, center, armLength, lobeRadius, 0.0, [l0, l1, l2])
  {
    var s := Spawn(v, level, maxLevel, center, armLength, lobeRadius, polar, stream, off);
    assert s.lobes == [l0, l1, l2];
  }

  /** Lobe `i` of the node the constructor builds: the particles `init_particles` makes
      for it, after the children's draws, and the children built one after another from
      the draw `at`; its particles start at draw `o`. */
  lemma SpawnLobeIs(v: Variant, level: nat, maxLevel: nat, center: Vec, armLength: real,
                    lobeRadius: real, polar: real -> Vec, stream: nat -> Draw, off: nat,
                    i: nat, at: nat, o: nat, b: seq<Body>, k: seq<Spinner>)
    requires var lc, d := LobeCenter(center, armLength, 0.0, i, polar),
                          SpawnDraws(PerLobe(v), Below(level + 1, maxLevel));
             var ok := && i < 3
                       && o == off + ChildDraws(v, level, maxLevel) + LobeDraws(v, i)
                       && b == InitLobe(v, lc, lobeRadius, polar, stream, o, PerLobe(v))
                       && (level < maxLevel ==> at == After(off, 3 * d, i))
                       && |k| == (if level < maxLevel then 3 else 0)
                       && forall j | 0 <= j < |k| ::
                            IsSpawn(k[j], v, level + 1, maxLevel, lc, armLength * SCALE,
                                    lobeRadius * SCALE, polar, stream, After(at, d, j));
             ok
    ensures Spawn(v, level, maxLevel, center, armLength, lobeRadius, polar, stream, off).lobes[i]
            == Lobe(b, k)
  {
    SpawnRowIs(v, level, maxLevel, center, armLength, lobeRadius, polar, stream, off, i, at, k);
    SpawnLobe(v, level, maxLevel, center, armLength, lobeRadius, polar, stream, off, i);
  }

  /** Lobe `i` of the built tree: its particles and its children. */
  lemma SpawnLobe(v: Variant, level: nat, maxLevel: nat, center: Vec, armLength: real,
                  lobeRadius: real, polar: real -> Vec, stream: nat -> Draw, off: nat, i: nat)
    requires i < 3
    ensures var s := Spawn(v, level, maxLevel, center, armLength, lobeRadius, polar, stream, off);
            && s.(lobes := []) == Spinner(level, maxLevel, center, armLength, lobeRadius, 0.0, [])
            && |s.lobes| == 3
            && s.lobes[i].bodies
               == InitLobe(v, LobeCenter(center, armLength, 0.0, i, polar), lobeRadius, polar,
                           stream, off + ChildDraws(v, level, maxLevel) + LobeDraws(v, i),
                           PerLobe(v))
            && s.lobes[i].children
               == SpawnChildren(v, level, maxLevel, center, armLength, lobeRadius, polar,
                                stream, off)[i]
  {
  }

  /** The children of lobe `i` the constructor builds, one after another from the draw
      `at`, are the children `Spawn` gives that lobe. */
  lemma SpawnRowIs(v: Variant, level: nat, maxLevel: nat, center: Vec, armLength: real,
                   lobeRadius: real, polar: real -> Vec, stream: nat -> Draw, off: nat,
                   i: nat, at: nat, k: seq<Spinner>)
    requires i < 3
    requires level < maxLevel ==>
               at == After(off, 3 * SpawnDraws(PerLobe(v), Below(level + 1, maxLevel)), i)
    requires |k| == if level < maxLevel then 3 else 0
    requires forall j | 0 <= j < |k| ::
               k[j] == Spawn(v, level + 1, maxLevel, LobeCenter(center, armLength, 0.0, i, polar),
                             armLength * SCALE, lobeRadius * SCALE, polar, stream,
                             After(at, SpawnDraws(PerLobe(v), Below(level + 1, maxLevel)), j))
    ensures SpawnChildren(v, level, maxLevel, center, armLength, lobeRadius, polar, stream,
                          off)[i] == k
  {
    var kids := SpawnChildren(v, level, maxLevel, center, armLength, lobeRadius, polar,
                              stream, off);
    if level < maxLevel {
      var d := SpawnDraws(PerLobe(v), Below(level + 1, maxLevel));
      assert Below(level, maxLevel) - 1 == Below(level + 1, maxLevel);
      forall j | 0 <= j < 3
        ensures kids[i][j] == k[j]
      {
        AfterIs(off, 3 * d, i);
        AfterIs(at, d, j);
        assert (3 * i + j) * d == i * (3 * d) + j * d;
      }
    }
  }

  /** The first draw of the `j`-th of a run of builds that take `d` draws each and start
      at draw `at`. */
  function After(at: nat, d: nat, j: nat): nat
  {
    if j == 0 then at else After(at, d, j - 1) + d
  }

  lemma {:induction false} AfterIs(at: nat, d: nat, j: nat)
    ensures After(at, d, j) == at + j * d
  {
    if j > 0 {
      AfterIs(at, d, j - 1);
      assert (j - 1) * d + d == j * d;
    }
  }

  /** Building a tree of `depth` levels below its root reads nine draws per particle
      and node: the children's and then its own `3 n` particles in each of three lobes. */
  lemma SpawnDrawsStep(v: Variant, level: nat, maxLevel: nat)
    ensures SpawnDraws(PerLobe(v), Below(level, maxLevel))
            == ChildDraws(v, level, maxLevel) + 9 * PerLobe(v)
  {
    var n := PerLobe(v);
    if level < maxLevel {
      var d := Below(level, maxLevel);
      assert Nodes(d) == 1 + 9 * Nodes(d - 1);
      assert 9 * n * Nodes(d) == 9 * n + 9 * (9 * n * Nodes(d - 1));
    }
  }

  /** The built tree has the shape `__init__` promises, `PARTICLES_PER_LOBE` particles
      in every lobe, every child at its lobe centre, and starts at angle 0. */
  lemma {:induction false} SpawnShaped(v: Variant, level: nat, maxLevel: nat, center: Vec,
                                       armLength: real, lobeRadius: real, polar: real -> Vec,
                                       stream: nat -> Draw, off: nat)
    ensures var s := Spawn(v, level, maxLevel, center, armLength, lobeRadius, polar, stream, off);
            && s.(lobes := []) == Spinner(level, maxLevel, center, armLength, lobeRadius, 0.0, [])
            && Shaped(s) && Populated(s, PerLobe(v)) && Anchored(s, polar)
    decreases Below(level, maxLevel)
  {
    var s := Spawn(v, level, maxLevel, center, armLength, lobeRadius, polar, stream, off);
    var kids := SpawnChildren(v, level, maxLevel, center, armLength, lobeRadius, polar,
                              stream, off);
    assert forall i | 0 <= i < 3 :: s.lobes[i].children == kids[i];
    forall i, j | 0 <= i < 3 && 0 <= j < |kids[i]|
      ensures var k := kids[i][j];
              && ChildOf(s, k) && Shaped(k) && Populated(k, PerLobe(v)) && Anchored(k, polar)
              && k.center == CenterOf(s, i, polar)
    {
      SpawnShaped(v, level + 1, maxLevel, LobeCenter(center, armLength, 0.0, i, polar),
                  armLength * SCALE, lobeRadius * SCALE, polar, stream,
                  off + (3 * i + j) * SpawnDraws(PerLobe(v), Below(level, maxLevel) - 1));
    }
    Built(s, PerLobe(v), polar);
  }

  /** A node with three lobes of `n` particles whose children are well built and anchored
      is well built and anchored. */
  lemma Built(s: Spinner, n: nat, polar: real -> Vec)
    requires |s.lobes| == 3
    requires forall i | 0 <= i < 3 ::
               |s.lobes[i].bodies| == n
               && |s.lobes[i].children| == if s.level < s.maxLevel then 3 else 0
    requires forall i, j | 0 <= i < 3 && 0 <= j < |s.lobes[i].children| ::
               var k := s.lobes[i].children[j];
               && ChildOf(s, k) && Shaped(k) && Populated(k, n) && Anchored(k, polar)
               && k.center == CenterOf(s, i, polar)
    ensures Shaped(s) && Populated(s, n) && Anchored(s, polar)
  {
  }

  /** Every particle `init_particles` makes has a radius in [2, 4) and starts on the rim of
      its lobe, at `lobe_radius - r` from the lobe centre; in isolated.py its kinetic
      energy is half its squared speed, below 0.045, so every particle starts cold. */
  lemma InitBodyFacts(v: Variant, lc: Vec, lobeRadius: real, polar: real -> Vec,
                      u1: Draw, u2: Draw, u3: Draw)
    requires IsUnitCircle(polar)
    ensures var b := InitBody(v, lc, lobeRadius, polar, u1, u2, u3);
            && MIN_RADIUS <= b.radius < MIN_RADIUS + RADIUS_SPREAD
            && SqDist(Position(b), lc) == (lobeRadius - b.radius) * (lobeRadius - b.radius)
            && (v == Isolated ==> KineticEnergy(b) == 0.5 * ((u2 * MAX_SPEED) * (u2 * MAX_SPEED)))
            && (v == Isolated ==> !IsHot(b))
  {
    var d := polar(u1 * 2.0 * PI);
    var speed := u2 * MAX_SPEED;
    var r := MIN_RADIUS + u3 * RADIUS_SPREAD;
    var b := InitBody(v, lc, lobeRadius, polar, u1, u2, u3);
    assert b.x - lc.x == d.x * (lobeRadius - r) && b.y - lc.y == d.y * (lobeRadius - r);
    ScaledUnit(d.x, d.y, lobeRadius - r);
    if v == Isolated {
      SquareSum(d.x, d.y, speed);
      MulEq(d.x * d.x + d.y * d.y, 1.0, speed * speed);
      assert KineticEnergy(b) == 0.5 * (speed * speed);
      assert speed * speed <= speed * MAX_SPEED;
      assert speed * MAX_SPEED < 0.09;
    }
  }

  /** The lobe radius `depth` levels further down. */
  function Scaled(lobeRadius: real, depth: nat): real
    decreases depth
  {
    if depth == 0 then lobeRadius else Scaled(lobeRadius * SCALE, depth - 1)
  }

  lemma {:induction false} ScaledBelow(lobeRadius: real, depth: nat)
    ensures lobeRadius >= 0.0 ==> 0.0 <= Scaled(lobeRadius, depth) <= lobeRadius
    ensures lobeRadius < 0.0 ==> Scaled(lobeRadius, depth) < 0.0
    decreases depth
  {
    if depth > 0 {
      ScaledBelow(lobeRadius * SCALE, depth - 1);
    }
  }

  lemma InitLobeFacts(v: Variant, lc: Vec, lobeRadius: real, polar: real -> Vec,
                      stream: nat -> Draw, off: nat, n: nat)
    requires IsUnitCircle(polar) && lobeRadius >= MIN_RADIUS + RADIUS_SPREAD
    ensures var r := InitLobe(v, lc, lobeRadius, polar, stream, off, n);
            forall k | 0 <= k < |r| :: r[k].radius < lobeRadius && Inside(r[k], lc, lobeRadius)
  {
    var r := InitLobe(v, lc, lobeRadius, polar, stream, off, n);
    forall k | 0 <= k < |r|
      ensures r[k].radius < lobeRadius && Inside(r[k], lc, lobeRadius)
    {
      InitBodyFacts(v, lc, lobeRadius, polar, stream(off + 3 * k), stream(off + 3 * k + 1),
                    stream(off + 3 * k + 2));
    }
  }

  lemma InitParticlesFit(v: Variant, center: Vec, armLength: real, lobeRadius: real,
                         polar: real -> Vec, stream: nat -> Draw, off: nat)
    requires IsUnitCircle(polar) && lobeRadius >= MIN_RADIUS + RADIUS_SPREAD
    ensures var r := InitParticles(v, center, armLength, lobeRadius, polar, stream, off);
            forall i, k | 0 <= i < 3 && 0 <= k < |r[i]| ::
              r[i][k].radius < lobeRadius
              && Inside(r[i][k], LobeCenter(center, armLength, 0.0, i, polar), lobeRadius)
  {
    forall i | 0 <= i < 3 {
      InitLobeFacts(v, LobeCenter(center, armLength, 0.0, i, polar), lobeRadius, polar, stream,
                    off + LobeDraws(v, i), PerLobe(v));
    }
  }

  /** When the deepest lobes are still at least 4 wide, every particle of the built tree is
      smaller than its lobe and lies inside it. */
  lemma {:induction false} SpawnFits(v: Variant, level: nat, maxLevel: nat, center: Vec,
                                     armLength: real, lobeRadius: real, polar: real -> Vec,
                                     stream: nat -> Draw, off: nat)
    requires IsUnitCircle(polar)
    requires Scaled(lobeRadius, Below(level, maxLevel)) >= MIN_RADIUS + RADIUS_SPREAD
    ensures var s := Spawn(v, level, maxLevel, center, armLength, lobeRadius, polar, stream, off);
            Fits(s) && InsideTree(s, polar)
    decreases Below(level, maxLevel)
  {
    var s := Spawn(v, level, maxLevel, center, armLength, lobeRadius, polar, stream, off);
    var kids := SpawnChildren(v, level, maxLevel, center, armLength, lobeRadius, polar,
                              stream, off);
    var bodies := InitParticles(v, center, armLength, lobeRadius, polar, stream,
                                off + ChildDraws(v, level, maxLevel));
    assert forall i | 0 <= i < 3 :: s.lobes[i] == Lobe(bodies[i], kids[i]);
    ScaledBelow(lobeRadius, Below(level, maxLevel));
    InitParticlesFit(v, center, armLength, lobeRadius, polar, stream,
                     off + ChildDraws(v, level, maxLevel));
    assert forall i | 0 <= i < 3 ::
             CenterOf(s, i, polar) == LobeCenter(center, armLength, 0.0, i, polar);
    forall i, j | 0 <= i < 3 && 0 <= j < |kids[i]|
      ensures Fits(kids[i][j]) && InsideTree(kids[i][j], polar)
    {
      SpawnFits(v, level + 1, maxLevel, LobeCenter(center, armLength, 0.0, i, polar),
                armLength * SCALE, lobeRadius * SCALE, polar, stream,
                off + (3 * i + j) * SpawnDraws(PerLobe(v), Below(level, maxLevel) - 1));
    }
    Fitted(s, polar);
  }

  lemma Fitted(s: Spinner, polar: real -> Vec)
    requires forall i, k | 0 <= i < |s.lobes| && 0 <= k < |s.lobes[i].bodies| ::
               s.lobes[i].bodies[k].radius < s.lobeRadius
               && Inside(s.lobes[i].bodies[k], CenterOf(s, i, polar), s.lobeRadius)
    requires forall i, j | 0 <= i < |s.lobes| && 0 <= j < |s.lobes[i].children| ::
               Fits(s.lobes[i].children[j]) && InsideTree(s.lobes[i].children[j], polar)
    ensures Fits(s) && InsideTree(s, polar)
  {
  }

  /** Each of main's `SpinnerNode(0, CENTER, ARM_LENGTH, LOBE_RADIUS, MAX_LEVEL)` trees
      holds 2730 particles in light.py and 1638 in isolated.py, every one of them smaller
      than its lobe and inside it, so that every later `update` is defined. */
  lemma MainTree(v: Variant, center: Vec, polar: real -> Vec, stream: nat -> Draw, off: nat)
    requires IsUnitCircle(polar)
    ensures var s := Spawn(v, 0, MAX_LEVEL, center, ARM_LENGTH, LOBE_RADIUS, polar, stream, off);
            && Shaped(s) && Fits(s) && InsideTree(s, polar) && Anchored(s, polar)
            && Count(s) == (if v == Light then 2730 else 1638)
  {
    var s := Spawn(v, 0, MAX_LEVEL, center, ARM_LENGTH, LOBE_RADIUS, polar, stream, off);
    SpawnShaped(v, 0, MAX_LEVEL, center, ARM_LENGTH, LOBE_RADIUS, polar, stream, off);
    assert Scaled(LOBE_RADIUS, 2) == 17.6;
    SpawnFits(v, 0, MAX_LEVEL, center, ARM_LENGTH, LOBE_RADIUS, polar, stream, off);
    MainTreeCount(s, v);
  }
}
