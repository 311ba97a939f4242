/** The spinner tree of light.py and isolated.py as a value: the state of a `SpinnerNode`
    and of everything below it, the configuration main builds, and the two recursive
    reductions `total_particles` and `total_energy`. */
module SpinnerTree {
  import opened Geometry
  import opened Kinetics

  /** The two programs share their spinner logic; they differ in the number of particles
      per lobe, in the `Particle` constructor, and in whether `update` plays tones. */
  datatype Variant = Light | Isolated

  /** `PARTICLES_PER_LOBE`: 10 in light.py, 6 in isolated.py. */
  function PerLobe(v: Variant): nat
  {
    match v
    case Light => 10
    case Isolated => 6
  }

  const NUM_SPINNERS: nat := 3
  const LOBE_RADIUS: real := 110.0
  const ARM_LENGTH: real := 170.0
  const MAX_LEVEL: nat := 2
  /** Arm length and lobe radius of a child relative to its parent. */
  const SCALE: real := 0.4
  /** Extra angular speed per level. */
  const SPIN_PER_LEVEL: real := 0.3

  /** One lobe of a node: `self.particles[i]` and `self.children[i]`. A leaf node, whose
      `children` is None, has three lobes with no children. */
  datatype Lobe = Lobe(bodies: seq<Body>, children: seq<Spinner>)

  /** The state of a `SpinnerNode`: its attributes and its three lobes. */
  datatype Spinner = Spinner(level: nat, maxLevel: nat, center: Vec, armLength: real,
                             lobeRadius: real, theta: real, lobes: seq<Lobe>)

  /** `1 + level * 0.3`: deeper nodes spin faster. */
  function Spin(level: nat): (w: real)
    ensures w >= 1.0
  {
    1.0 + (level as real) * SPIN_PER_LEVEL
  }

  /** `idx * 2 * pi / 3 + theta`. */
  function LobeAngle(idx: nat, theta: real): real
  {
    (idx as real) * 2.0 * PI / 3.0 + theta
  }

  /** `get_lobe_center(idx)`, with `polar(a)` standing for `(cos a, sin a)`. */
  function LobeCenter(center: Vec, armLength: real, theta: real, idx: nat,
                      polar: real -> Vec): (lc: Vec)
  {
    var u := polar(LobeAngle(idx, theta));
    Vec(center.x + u.x * armLength, center.y + u.y * armLength)
  }

  /** Every lobe centre lies at `arm_length` from the node's centre. */
  lemma LobeOnArm(center: Vec, armLength: real, theta: real, idx: nat, polar: real -> Vec)
    requires IsUnitCircle(polar)
    ensures SqDist(LobeCenter(center, armLength, theta, idx, polar), center)
            == armLength * armLength
  {
    var u := polar(LobeAngle(idx, theta));
    SquareSum(u.x, u.y, armLength);
    MulEq(u.x * u.x + u.y * u.y, 1.0, armLength * armLength);
  }

  /** The centre of lobe `i` of the node in state `s`. */
  function CenterOf(s: Spinner, i: nat, polar: real -> Vec): Vec
  {
    LobeCenter(s.center, s.armLength, s.theta, i, polar)
  }

  // Structure: the invariants `__init__` establishes.

  /** The attributes `__init__` gives a child of `s`. */
  predicate ChildOf(s: Spinner, t: Spinner)
  {
    && t.level == s.level + 1
    && t.maxLevel == s.maxLevel
    && t.armLength == s.armLength * SCALE
    && t.lobeRadius == s.lobeRadius * SCALE
  }

  /** Three lobes; three children per lobe exactly below `max_level`, each a child of the
      node; all the way down. */
  ghost predicate Shaped(s: Spinner)
    decreases s
  {
    && |s.lobes| == 3
    && (forall i | 0 <= i < |s.lobes| ::
          |s.lobes[i].children| == if s.level < s.maxLevel then 3 else 0)
    && (forall i, j | 0 <= i < |s.lobes| && 0 <= j < |s.lobes[i].children| ::
          ChildOf(s, s.lobes[i].children[j]) && Shaped(s.lobes[i].children[j]))
  }

  /** Every lobe of every node holds `n` particles. */
  ghost predicate Populated(s: Spinner, n: nat)
    decreases s
  {
    && (forall i | 0 <= i < |s.lobes| :: |s.lobes[i].bodies| == n)
    && (forall i, j | 0 <= i < |s.lobes| && 0 <= j < |s.lobes[i].children| ::
          Populated(s.lobes[i].children[j], n))
  }

  /** Every particle is smaller than its lobe, which keeps `update`'s division defined. */
  ghost predicate Fits(s: Spinner)
    decreases s
  {
    && (forall i, k | 0 <= i < |s.lobes| && 0 <= k < |s.lobes[i].bodies| ::
          s.lobes[i].bodies[k].radius < s.lobeRadius)
    && (forall i, j | 0 <= i < |s.lobes| && 0 <= j < |s.lobes[i].children| ::
          Fits(s.lobes[i].children[j]))
  }

  /** Every particle lies inside its lobe, everywhere in the tree. */
  ghost predicate InsideTree(s: Spinner, polar: real -> Vec)
    decreases s
  {
    && (forall i, k | 0 <= i < |s.lobes| && 0 <= k < |s.lobes[i].bodies| ::
          Inside(s.lobes[i].bodies[k], CenterOf(s, i, polar), s.lobeRadius))
    && (forall i, j | 0 <= i < |s.lobes| && 0 <= j < |s.lobes[i].children| ::
          InsideTree(s.lobes[i].children[j], polar))
  }

  /** Every child sits at the centre of the lobe it hangs from, all the way down. */
  ghost predicate Anchored(s: Spinner, polar: real -> Vec)
    decreases s
  {
    forall i, j | 0 <= i < |s.lobes| && 0 <= j < |s.lobes[i].children| ::
      s.lobes[i].children[j].center == CenterOf(s, i, polar)
      && Anchored(s.lobes[i].children[j], polar)
  }

  // The reductions. Each sums this node's lobes first and then the children in order,
  // as `total_particles` and `total_energy` do.

  /** Particles in the first `n` lobes of this node. */
  function Own(lobes: seq<Lobe>, n: nat): nat
    requires n <= |lobes|
  {
    if n == 0 then 0 else Own(lobes, n - 1) + |lobes[n - 1].bodies|
  }

  /** `total_particles()`. */
  function Count(s: Spinner): nat
    decreases s, 1
  {
    Own(s.lobes, |s.lobes|) + Family(s.lobes, |s.lobes|)
  }

  /** Particles below the children of the first `n` lobes. */
  function Family(lobes: seq<Lobe>, n: nat): nat
    requires n <= |lobes|
    decreases lobes, n
  {
    if n == 0 then 0 else Family(lobes, n - 1) + Row(lobes[n - 1], |lobes[n - 1].children|)
  }

  /** Particles below the first `m` children of one lobe. */
  function Row(l: Lobe, m: nat): nat
    requires m <= |l.children|
    decreases l, m
  {
    if m == 0 then 0 else Row(l, m - 1) + Count(l.children[m - 1])
  }

  /** The summed kinetic energy of a list of particles. */
  function BodiesEnergy(bodies: seq<Body>): real
  {
    if |bodies| == 0 then 0.0
    else BodiesEnergy(bodies[..|bodies| - 1]) + KineticEnergy(bodies[|bodies| - 1])
  }

  function OwnEnergy(lobes: seq<Lobe>, n: nat): real
    requires n <= |lobes|
  {
    if n == 0 then 0.0 else OwnEnergy(lobes, n - 1) + BodiesEnergy(lobes[n - 1].bodies)
  }

  /** `total_energy()`. */
  function TotalEnergy(s: Spinner): real
    decreases s, 1
  {
    OwnEnergy(s.lobes, |s.lobes|) + FamilyEnergy(s.lobes, |s.lobes|)
  }

  function FamilyEnergy(lobes: seq<Lobe>, n: nat): real
    requires n <= |lobes|
    decreases lobes, n
  {
    if n == 0 then 0.0
    else FamilyEnergy(lobes, n - 1) + RowEnergy(lobes[n - 1], |lobes[n - 1].children|)
  }

  function RowEnergy(l: Lobe, m: nat): real
    requires m <= |l.children|
    decreases l, m
  {
    if m == 0 then 0.0 else RowEnergy(l, m - 1) + TotalEnergy(l.children[m - 1])
  }

  // Facts about the reductions.

  lemma {:induction false} BodiesEnergyNonneg(bodies: seq<Body>)
    ensures BodiesEnergy(bodies) >= 0.0
  {
    if |bodies| > 0 {
      BodiesEnergyNonneg(bodies[..|bodies| - 1]);
    }
  }

  lemma {:induction false} OwnEnergyNonneg(lobes: seq<Lobe>, n: nat)
    requires n <= |lobes|
    ensures OwnEnergy(lobes, n) >= 0.0
  {
    if n > 0 {
      OwnEnergyNonneg(lobes, n - 1);
      BodiesEnergyNonneg(lobes[n - 1].bodies);
    }
  }

  /** `total_energy()` is never negative. */
  lemma {:induction false} TotalEnergyNonneg(s: Spinner)
    ensures TotalEnergy(s) >= 0.0
    decreases s, 1
  {
    OwnEnergyNonneg(s.lobes, |s.lobes|);
    FamilyEnergyNonneg(s, |s.lobes|);
  }

  lemma {:induction false} FamilyEnergyNonneg(s: Spinner, n: nat)
    requires n <= |s.lobes|
    ensures FamilyEnergy(s.lobes, n) >= 0.0
    decreases s, 0, n
  {
    if n > 0 {
      FamilyEnergyNonneg(s, n - 1);
      RowEnergyNonneg(s.lobes[n - 1], |s.lobes[n - 1].children|);
    }
  }

  lemma {:induction false} RowEnergyNonneg(l: Lobe, m: nat)
    requires m <= |l.children|
    ensures RowEnergy(l, m) >= 0.0
    decreases l, m
  {
    if m > 0 {
      RowEnergyNonneg(l, m - 1);
      TotalEnergyNonneg(l.children[m - 1]);
    }
  }

  /** Nodes of a full tree of the given depth: the node and nine subtrees below it. */
  function Nodes(depth: nat): (n: nat)
    ensures n >= 1
  {
    if depth == 0 then 1 else 1 + 9 * Nodes(depth - 1)
  }

  /** Levels below a node. */
  function Depth(s: Spinner): nat
  {
    if s.level < s.maxLevel then s.maxLevel - s.level else 0
  }

  lemma {:induction false} OwnPopulated(lobes: seq<Lobe>, k: nat, n: nat)
    requires k <= |lobes|
    requires forall i | 0 <= i < |lobes| :: |lobes[i].bodies| == n
    ensures Own(lobes, k) == k * n
  {
    if k > 0 {
      OwnPopulated(lobes, k - 1, n);
    }
  }

  /** A shaped tree with `n` particles per lobe holds 3 n particles per node. */
  lemma {:induction false} CountOfShaped(s: Spinner, n: nat)
    requires Shaped(s) && Populated(s, n)
    ensures Count(s) == 3 * n * Nodes(Depth(s))
    decreases s
  {
    OwnPopulated(s.lobes, 3, n);
    if s.level < s.maxLevel {
      var sub := 3 * n * Nodes(Depth(s) - 1);
      forall i, j | 0 <= i < 3 && 0 <= j < 3
        ensures Count(s.lobes[i].children[j]) == sub
      {
        var t := s.lobes[i].children[j];
        assert ChildOf(s, t);
        CountOfShaped(t, n);
      }
      forall i | 0 <= i < 3
        ensures Row(s.lobes[i], 3) == 3 * sub
      {
        var l := s.lobes[i];
        assert Row(l, 1) == sub;
        assert Row(l, 2) == 2 * sub;
      }
      assert Family(s.lobes, 1) == 3 * sub;
      assert Family(s.lobes, 2) == 6 * sub;
    } else {
      assert |s.lobes[0].children| == |s.lobes[1].children| == |s.lobes[2].children| == 0;
      assert Family(s.lobes, 1) == 0;
      assert Family(s.lobes, 2) == 0;
      assert Family(s.lobes, 3) == 0;
      assert Count(s) == 3 * n;
    }
  }

  /** The trees main builds, `SpinnerNode(0, CENTER, ARM_LENGTH, LOBE_RADIUS, MAX_LEVEL)`,
      have 91 nodes and hold 2730 particles in light.py and 1638 in isolated.py. */
  lemma MainTreeCount(s: Spinner, v: Variant)
    requires Shaped(s) && Populated(s, PerLobe(v))
    requires s.level == 0 && s.maxLevel == MAX_LEVEL
    ensures Nodes(Depth(s)) == 91
    ensures Count(s) == if v == Light then 2730 else 1638
  {
    CountOfShaped(s, PerLobe(v));
  }
}
