/** One `SpinnerNode.update(dt)` over the whole tree, and the facts its order of steps
    gives: the node turns, its particles move and request their tones, each child is
    moved to its lobe centre and updated, and the demon runs last. */
module TreeTick {
  import opened Geometry
  import opened Randomness
  import opened Kinetics
  import opened Demon
  import opened Audio
  import opened SpinnerTree
  import opened TreeDemon

  /** What one tick depends on besides the tree: which program runs, the frame time `dt`,
      the trigonometry and `hypot` the source calls, and the generator's stream. */
  datatype Env = Env(variant: Variant, dt: real, polar: real -> Vec,
                     hypot: (real, real) -> real, stream: nat -> Draw)

  /** `p.update(lc, lobe_radius, dt)` for each particle of one lobe in turn; particle `k`
      uses draws `off + 2 k` and `off + 2 k + 1`. */
  function StepBodies(bodies: seq<Body>, lc: Vec, lobeRadius: real, env: Env, off: nat)
    : seq<Body>
    requires IsHypot(env.hypot)
    requires forall k | 0 <= k < |bodies| :: bodies[k].radius < lobeRadius
  {
    seq(|bodies|, k requires 0 <= k < |bodies| =>
        StepInside(bodies[k], lc, lobeRadius, env.dt, env.hypot,
                   env.stream(off + 2 * k), env.stream(off + 2 * k + 1));
        Step(bodies[k], lc, lobeRadius, env.dt, env.hypot,
             env.stream(off + 2 * k), env.stream(off + 2 * k + 1)))
  }

  /** The tone requested after each particle update of lobe `idx`. */
  function LobeTones(bodies: seq<Body>, idx: nat): seq<Tone>
    requires idx < 3
  {
    seq(|bodies|, k requires 0 <= k < |bodies| => LobeTone(idx, KineticEnergy(bodies[k])))
  }

  /** Requesting one more tone extends the requests by that tone. */
  lemma LobeTonesSnoc(bodies: seq<Body>, idx: nat, k: nat)
    requires idx < 3 && k < |bodies|
    ensures LobeTones(bodies[..k + 1], idx)
            == LobeTones(bodies[..k], idx) + [LobeTone(idx, KineticEnergy(bodies[k]))]
  {
  }

  /** Concatenation, in order. */
  function Flatten<T>(ss: seq<seq<T>>): seq<T>
  {
    if |ss| == 0 then [] else Flatten(ss[..|ss| - 1]) + ss[|ss| - 1]
  }

  /** The first draw of the particles of lobe `i`. */
  function OwnOffset(s: Spinner, off: nat, i: nat): nat
    requires i <= |s.lobes|
  {
    off + 2 * Own(s.lobes, i)
  }

  /** The first draw of child `j` of lobe `i`: after all of this node's particles and all
      the subtrees before it. */
  function ChildOffset(s: Spinner, off: nat, i: nat, j: nat): nat
    requires i < |s.lobes| && j <= |s.lobes[i].children|
  {
    off + 2 * (Own(s.lobes, |s.lobes|) + Family(s.lobes, i) + Row(s.lobes[i], j))
  }

  /** Where the draws of a tick go: this node's lobes one after another, then the
      children lobe by lobe, and nothing after the last child. */
  lemma Offsets(s: Spinner, off: nat)
    requires Shaped(s)
    ensures OwnOffset(s, off, 0) == off
    ensures OwnOffset(s, off, 1) == off + 2 * |s.lobes[0].bodies|
    ensures OwnOffset(s, off, 2) == off + 2 * (|s.lobes[0].bodies| + |s.lobes[1].bodies|)
    ensures ChildOffset(s, off, 0, 0)
            == off + 2 * (|s.lobes[0].bodies| + |s.lobes[1].bodies| + |s.lobes[2].bodies|)
    ensures ChildOffset(s, off, 1, 0) == ChildOffset(s, off, 0, |s.lobes[0].children|)
    ensures ChildOffset(s, off, 2, 0) == ChildOffset(s, off, 1, |s.lobes[1].children|)
    ensures ChildOffset(s, off, 2, |s.lobes[2].children|) == off + 2 * Count(s)
  {
    assert Own(s.lobes, 1) == |s.lobes[0].bodies|;
    assert Own(s.lobes, 2) == |s.lobes[0].bodies| + |s.lobes[1].bodies|;
    assert Family(s.lobes, 3) == Family(s.lobes, 2) + Row(s.lobes[2], |s.lobes[2].children|);
  }

  /** The node `s` re-centred at `c` with its angle advanced, as `update` sees it. */
  function Turned(s: Spinner, c: Vec, dt: real): Spinner
  {
    s.(center := c, theta := s.theta + dt * Spin(s.level))
  }

  /** The particles of the three lobes after `p.update(lc, lobe_radius, dt)`. */
  function SteppedLobes(s: Spinner, c: Vec, env: Env, off: nat): (r: seq<seq<Body>>)
    requires IsHypot(env.hypot) && Shaped(s) && Fits(s)
    ensures |r| == 3
  {
    var t := Turned(s, c, env.dt);
    seq(3, i requires 0 <= i < 3 =>
      StepBodies(s.lobes[i].bodies, CenterOf(t, i, env.polar), s.lobeRadius, env,
                 OwnOffset(s, off, i)))
  }

  /** `child.center = lc; child.update(dt)` for every child, lobe by lobe. */
  function TickedChildren(s: Spinner, c: Vec, env: Env, off: nat)
    : (r: seq<seq<(Spinner, seq<Tone>)>>)
    requires IsHypot(env.hypot) && Shaped(s) && Fits(s)
    ensures |r| == 3 && forall i | 0 <= i < 3 :: |r[i]| == |s.lobes[i].children|
    decreases s, 0
  {
    var t := Turned(s, c, env.dt);
    seq(3, i requires 0 <= i < 3 =>
      RowTick(s.lobes[i], CenterOf(t, i, env.polar), env, RowOffsets(s, off, i)))
  }

  /** `child.center = lc; child.update(dt)` for each child of lobe `l` in turn, child `j`
      starting at draw `offs[j]`. */
  function RowTick(l: Lobe, lc: Vec, env: Env, offs: seq<nat>): (r: seq<(Spinner, seq<Tone>)>)
    requires IsHypot(env.hypot) && |offs| > |l.children|
    requires forall j | 0 <= j < |l.children| :: Shaped(l.children[j]) && Fits(l.children[j])
    ensures |r| == |l.children|
    decreases l
  {
    seq(|l.children|, j requires 0 <= j < |l.children| => Tick(l.children[j], lc, env, offs[j]))
  }

  /** What a tick of `s` needs: a true `hypot`, the tree's shape and particles smaller
      than their lobes. */
  ghost predicate Tickable(s: Spinner, env: Env)
  {
    var ok := IsHypot(env.hypot) && Shaped(s) && Fits(s);
    ok
  }

  /** The first draw of each child of lobe `i`, and the draw after the last child. */
  function RowOffsets(s: Spinner, off: nat, i: nat): (r: seq<nat>)
    requires i < |s.lobes|
    ensures |r| == |s.lobes[i].children| + 1
    ensures r[0] == ChildOffset(s, off, i, 0)
    ensures r[|s.lobes[i].children|] == ChildOffset(s, off, i, |s.lobes[i].children|)
    ensures forall j | 0 <= j < |s.lobes[i].children| ::
              r[j + 1] == r[j] + 2 * Count(s.lobes[i].children[j])
  {
    seq(|s.lobes[i].children| + 1, j requires 0 <= j <= |s.lobes[i].children| =>
        ChildOffset(s, off, i, j))
  }

  /** A plan for one lobe's child loop: child `j` of lobe `l`, in a state a tick accepts,
      takes the draws from `offs[j]` to `offs[j + 1]`, and the children end as `row`. */
  ghost predicate RowPlan(env: Env, lc: Vec, l: Lobe, offs: seq<nat>,
                          row: seq<(Spinner, seq<Tone>)>)
  {
    var ok := |offs| == |l.children| + 1 && IsHypot(env.hypot)
              && (forall j | 0 <= j < |l.children| ::
                    && Shaped(l.children[j]) && Fits(l.children[j])
                    && offs[j + 1] == offs[j] + 2 * Count(l.children[j]))
              && row == RowTick(l, lc, env, offs);
    ok
  }

  /** The child loops of a tick of `s`, lobe by lobe, once the node has turned to `theta`
      with its particles stepped as `w`: the children of lobe `i` take the draws `RowOffsets`
      assigns them and end as `kids[i]` says, and each lobe's draws start where the last
      lobe's end. */
  lemma ChildrenAt(s: Spinner, c: Vec, env: Env, off: nat, w: Spinner, armLength: real,
                   theta: real, polar: real -> Vec)
    returns (kids: seq<seq<(Spinner, seq<Tone>)>>)
    requires Tickable(s, env) && w == Walked(s, c, env, off)
    requires s.armLength == armLength && env.polar == polar
    requires s.theta + env.dt * Spin(s.level) == theta
    ensures kids == TickedChildren(s, c, env, off) && |kids| == 3
    ensures RowPlan(env, LobeCenter(c, armLength, theta, 0, polar), s.lobes[0],
                    RowOffsets(s, off, 0), kids[0])
    ensures RowPlan(env, LobeCenter(c, armLength, theta, 1, polar), s.lobes[1],
                    RowOffsets(s, off, 1), kids[1])
    ensures RowPlan(env, LobeCenter(c, armLength, theta, 2, polar), s.lobes[2],
                    RowOffsets(s, off, 2), kids[2])
    ensures RowOffsets(s, off, 0)[0] == ChildOffset(s, off, 0, 0)
    ensures RowOffsets(s, off, 0)[|s.lobes[0].children|] == RowOffsets(s, off, 1)[0]
    ensures RowOffsets(s, off, 1)[|s.lobes[1].children|] == RowOffsets(s, off, 2)[0]
    ensures RowOffsets(s, off, 2)[|s.lobes[2].children|] == off + 2 * Count(s)
    ensures w.lobes[0].children == s.lobes[0].children
    ensures w.lobes[1].children == s.lobes[1].children
    ensures w.lobes[2].children == s.lobes[2].children
    ensures Settled(w, kids)
            == Spinner(w.level, w.maxLevel, w.center, w.armLength, w.lobeRadius, w.theta,
                       [Lobe(w.lobes[0].bodies, States(kids[0])),
                        Lobe(w.lobes[1].bodies, States(kids[1])),
                        Lobe(w.lobes[2].bodies, States(kids[2]))])
    ensures ChildTones(kids)
            == Joined(kids[0], |kids[0]|) + Joined(kids[1], |kids[1]|) + Joined(kids[2], |kids[2]|)
  {
    kids := TickedChildren(s, c, env, off);
    ChildPlans(s, c, env, off, armLength, theta, polar);
    WalkedChildren(s, c, env, off);
    SettledIs(w, kids);
    ChildTonesThree(kids);
  }

  /** The child loops of a tick of `s` are plans: the children of lobe `i` take the draws
      `RowOffsets` assigns them and end as `TickedChildren` says, lobe after lobe. */
  lemma ChildPlans(s: Spinner, c: Vec, env: Env, off: nat, armLength: real, theta: real,
                   polar: real -> Vec)
    requires Tickable(s, env)
    requires s.armLength == armLength && env.polar == polar
    requires s.theta + env.dt * Spin(s.level) == theta
    ensures RowPlan(env, LobeCenter(c, armLength, theta, 0, polar), s.lobes[0],
                    RowOffsets(s, off, 0), TickedChildren(s, c, env, off)[0])
    ensures RowPlan(env, LobeCenter(c, armLength, theta, 1, polar), s.lobes[1],
                    RowOffsets(s, off, 1), TickedChildren(s, c, env, off)[1])
    ensures RowPlan(env, LobeCenter(c, armLength, theta, 2, polar), s.lobes[2],
                    RowOffsets(s, off, 2), TickedChildren(s, c, env, off)[2])
    ensures RowOffsets(s, off, 0)[0] == ChildOffset(s, off, 0, 0)
    ensures RowOffsets(s, off, 0)[|s.lobes[0].children|] == RowOffsets(s, off, 1)[0]
    ensures RowOffsets(s, off, 1)[|s.lobes[1].children|] == RowOffsets(s, off, 2)[0]
    ensures RowOffsets(s, off, 2)[|s.lobes[2].children|] == off + 2 * Count(s)
  {
    Offsets(s, off);
    var t := Turned(s, c, env.dt);
    forall i | 0 <= i < 3
      ensures CenterOf(t, i, env.polar) == LobeCenter(c, armLength, theta, i, polar)
    {
      assert t.theta == theta && t.center == c && t.armLength == armLength;
    }
  }

  /** The particle loop leaves the children where they are. */
  lemma WalkedChildren(s: Spinner, c: Vec, env: Env, off: nat)
    requires Tickable(s, env)
    ensures Walked(s, c, env, off).lobes[0].children == s.lobes[0].children
    ensures Walked(s, c, env, off).lobes[1].children == s.lobes[1].children
    ensures Walked(s, c, env, off).lobes[2].children == s.lobes[2].children
  {
  }

  /** `Settled` written out lobe by lobe. */
  lemma SettledIs(w: Spinner, kids: seq<seq<(Spinner, seq<Tone>)>>)
    requires |w.lobes| == 3 == |kids|
    ensures Settled(w, kids)
            == Spinner(w.level, w.maxLevel, w.center, w.armLength, w.lobeRadius, w.theta,
                       [Lobe(w.lobes[0].bodies, States(kids[0])),
                        Lobe(w.lobes[1].bodies, States(kids[1])),
                        Lobe(w.lobes[2].bodies, States(kids[2]))])
  {
    var settled := Settled(w, kids);
    assert forall i | 0 <= i < 3 :: settled.lobes[i] == Lobe(w.lobes[i].bodies, States(kids[i]));
  }

  /** The tones the first `n` children of a row request, in order. */
  function Joined(row: seq<(Spinner, seq<Tone>)>, n: nat): seq<Tone>
    requires n <= |row|
  {
    if n == 0 then [] else Joined(row, n - 1) + row[n - 1].1
  }

  function States(row: seq<(Spinner, seq<Tone>)>): seq<Spinner>
  {
    seq(|row|, j requires 0 <= j < |row| => row[j].0)
  }

  /** The tones this node requests, lobe by lobe. */
  function OwnTones(bodies: seq<seq<Body>>): seq<Tone>
    requires |bodies| == 3
  {
    Flatten(seq(3, i requires 0 <= i < 3 => LobeTones(bodies[i], i)))
  }

  /** The tones the children request, lobe by lobe and child by child. */
  function ChildTones(kids: seq<seq<(Spinner, seq<Tone>)>>): seq<Tone>
  {
    Flatten(seq(|kids|, i requires 0 <= i < |kids| => Joined(kids[i], |kids[i]|)))
  }

  /** The node after the particle loop of `update(dt)`: turned, its particles stepped at
      their lobe centres, its children as they were. */
  function Walked(s: Spinner, c: Vec, env: Env, off: nat): (w: Spinner)
    requires IsHypot(env.hypot) && Shaped(s) && Fits(s)
    ensures |w.lobes| == 3
  {
    var bodies := SteppedLobes(s, c, env, off);
    Turned(s, c, env.dt).(lobes := seq(3, i requires 0 <= i < 3 =>
                                       Lobe(bodies[i], s.lobes[i].children)))
  }

  /** What the particle loop of a tick relies on: three lobes, the draws of the first lobe
      starting at `off`, the children's draws right after the last particle's, and every
      particle smaller than its lobe. */
  lemma WalkPlan(s: Spinner, env: Env, off: nat)
    requires Tickable(s, env)
    ensures |s.lobes| == 3 && OwnOffset(s, off, 0) == off
    ensures var ok := OwnOffset(s, off, 1) == OwnOffset(s, off, 0) + 2 * |s.lobes[0].bodies|
                      && OwnOffset(s, off, 2) == OwnOffset(s, off, 1) + 2 * |s.lobes[1].bodies|
                      && OwnOffset(s, off, 3) == OwnOffset(s, off, 2) + 2 * |s.lobes[2].bodies|;
            ok
    ensures ChildOffset(s, off, 0, 0) == OwnOffset(s, off, 3)
    ensures forall i, k | 0 <= i < 3 && 0 <= k < |s.lobes[i].bodies| ::
              s.lobes[i].bodies[k].radius < s.lobeRadius
  {
    Offsets(s, off);
  }

  /** The node after the turn and the particle loop is the turned node whose lobe `i`
      holds the stepped particles `b_i` and its old children; in isolated.py the loop
      requests one tone per particle, lobe by lobe. */
  lemma WalkedAt(s: Spinner, c: Vec, env: Env, off: nat, armLength: real, theta: real,
                 lobeRadius: real, polar: real -> Vec, b0: seq<Body>, b1: seq<Body>,
                 b2: seq<Body>)
    requires Tickable(s, env)
    requires s.armLength == armLength && s.lobeRadius == lobeRadius && env.polar == polar
    requires s.theta + env.dt * Spin(s.level) == theta
    requires var ok := forall i, k | 0 <= i < 3 && 0 <= k < |s.lobes[i].bodies| ::
                         s.lobes[i].bodies[k].radius < lobeRadius;
             ok
    requires b0 == StepBodies(s.lobes[0].bodies, LobeCenter(c, armLength, theta, 0, polar),
                              lobeRadius, env, OwnOffset(s, off, 0))
    requires b1 == StepBodies(s.lobes[1].bodies, LobeCenter(c, armLength, theta, 1, polar),
                              lobeRadius, env, OwnOffset(s, off, 1))
    requires b2 == StepBodies(s.lobes[2].bodies, LobeCenter(c, armLength, theta, 2, polar),
                              lobeRadius, env, OwnOffset(s, off, 2))
    ensures Walked(s, c, env, off)
            == Spinner(s.level, s.maxLevel, c, armLength, lobeRadius, theta,
                       [Lobe(b0, s.lobes[0].children), Lobe(b1, s.lobes[1].children),
                        Lobe(b2, s.lobes[2].children)])
    ensures Sounded(s, c, env, off)
            == if env.variant == Isolated
               then LobeTones(b0, 0) + LobeTones(b1, 1) + LobeTones(b2, 2)
               else []
  {
    var b := [b0, b1, b2];
    var stepped := SteppedLobes(s, c, env, off);
    var t := Turned(s, c, env.dt);
    forall i | 0 <= i < 3
      ensures stepped[i] == b[i]
    {
      assert t.theta == theta && t.center == c && t.armLength == armLength;
      assert CenterOf(t, i, polar) == LobeCenter(c, armLength, theta, i, polar);
    }
    assert stepped == b;
    OwnTonesThree(b);
  }

  /** The tones the particle loop requests: one per particle in isolated.py, none in
      light.py. */
  function Sounded(s: Spinner, c: Vec, env: Env, off: nat): seq<Tone>
    requires IsHypot(env.hypot) && Shaped(s) && Fits(s)
  {
    if env.variant == Isolated then OwnTones(SteppedLobes(s, c, env, off)) else []
  }

  /** The node `w` after the child loops, lobe `i`'s children ending as `kids[i]` says. */
  function Settled(w: Spinner, kids: seq<seq<(Spinner, seq<Tone>)>>): Spinner
    requires |w.lobes| == 3 == |kids|
  {
    w.(lobes := seq(3, i requires 0 <= i < 3 => Lobe(w.lobes[i].bodies, States(kids[i]))))
  }

  /** `update(dt)` of the node with state `s` whose centre was set to `c`, up to and
      without the final `maxwells_demon()`, with the tones it and its children request. */
  function Advance(s: Spinner, c: Vec, env: Env, off: nat): (Spinner, seq<Tone>)
    requires IsHypot(env.hypot) && Shaped(s) && Fits(s)
    decreases s, 1
  {
    var kids := TickedChildren(s, c, env, off);
    (Settled(Walked(s, c, env, off), kids), Sounded(s, c, env, off) + ChildTones(kids))
  }

  /** `update(dt)`: the new state of the tree, sorted by the final `maxwells_demon()`, and
      the tones it requested; the demon requests none. */
  function Tick(s: Spinner, c: Vec, env: Env, off: nat): (Spinner, seq<Tone>)
    requires IsHypot(env.hypot) && Shaped(s) && Fits(s)
    decreases s, 2
  {
    var a := Advance(s, c, env, off);
    (DemonTree(a.0, env.polar), a.1)
  }

  // Facts about one tick.

  lemma StepKeepsRadius(b: Body, c: Vec, lobeRadius: real, dt: real,
                        hypot: (real, real) -> real, u1: Draw, u2: Draw)
    requires IsHypot(hypot) && b.radius < lobeRadius
    ensures Divides(Moved(b, dt), lobeRadius, MovedDist(b, c, dt, hypot))
    ensures Step(b, c, lobeRadius, dt, hypot, u1, u2).radius == b.radius
  {
    StepInside(b, c, lobeRadius, dt, hypot, u1, u2);
  }

  /** Each particle of a lobe stays inside it and keeps its size. */
  lemma StepBodiesKeep(bodies: seq<Body>, lc: Vec, lobeRadius: real, env: Env, off: nat)
    requires IsHypot(env.hypot)
    requires forall k | 0 <= k < |bodies| :: bodies[k].radius < lobeRadius
    ensures var r := StepBodies(bodies, lc, lobeRadius, env, off);
            && |r| == |bodies|
            && forall k | 0 <= k < |r| ::
                 r[k].radius == bodies[k].radius && Inside(r[k], lc, lobeRadius)
  {
    var r := StepBodies(bodies, lc, lobeRadius, env, off);
    forall k | 0 <= k < |r|
      ensures r[k].radius == bodies[k].radius && Inside(r[k], lc, lobeRadius)
    {
      StepKeepsRadius(bodies[k], lc, lobeRadius, env.dt, env.hypot,
                      env.stream(off + 2 * k), env.stream(off + 2 * k + 1));
      StepInside(bodies[k], lc, lobeRadius, env.dt, env.hypot,
                 env.stream(off + 2 * k), env.stream(off + 2 * k + 1));
    }
  }

  /** A tick keeps the tree's shape, its populations, the fit of its particles and the
      node's attributes; it puts the node at `c` and turns it by `dt * (1 + 0.3 level)`. */
  lemma {:induction false} TickKeeps(s: Spinner, c: Vec, env: Env, off: nat, n: nat)
    requires IsHypot(env.hypot) && Shaped(s) && Fits(s)
    ensures var r := Tick(s, c, env, off).0;
            && r.(lobes := s.lobes) == Turned(s, c, env.dt)
            && Similar(s, r, n)
    decreases s, 2
  {
    AdvanceKeeps(s, c, env, off, n);
    var a := Advance(s, c, env, off).0;
    var r := DemonTree(a, env.polar);
    DemonKeeps(a, n, env.polar);
    DemonResorts(a, env.polar);
    ResortedIsCongruent(a, r);
    CongruentTrans(s, a, r);
  }

  /** What `Advance` puts in each lobe. */
  lemma AdvanceLobes(s: Spinner, c: Vec, env: Env, off: nat)
    requires IsHypot(env.hypot) && Shaped(s) && Fits(s)
    ensures var a := Advance(s, c, env, off).0;
            var t := Turned(s, c, env.dt);
            && a.(lobes := s.lobes) == t
            && |a.lobes| == 3
            && (forall i | 0 <= i < 3 ::
                  a.lobes[i].bodies == StepBodies(s.lobes[i].bodies, CenterOf(t, i, env.polar),
                                                  s.lobeRadius, env, OwnOffset(s, off, i))
                  && |a.lobes[i].children| == |s.lobes[i].children|)
            && (forall i, j | 0 <= i < 3 && 0 <= j < |s.lobes[i].children| ::
                  a.lobes[i].children[j]
                  == Tick(s.lobes[i].children[j], CenterOf(t, i, env.polar), env,
                          ChildOffset(s, off, i, j)).0)
  {
    var t := Turned(s, c, env.dt);
    var kids := TickedChildren(s, c, env, off);
    forall i, j | 0 <= i < 3 && 0 <= j < |s.lobes[i].children|
      ensures kids[i][j] == Tick(s.lobes[i].children[j], CenterOf(t, i, env.polar), env,
                                 ChildOffset(s, off, i, j))
    {
      assert kids[i] == RowTick(s.lobes[i], CenterOf(t, i, env.polar), env, RowOffsets(s, off, i));
      assert RowOffsets(s, off, i)[j] == ChildOffset(s, off, i, j);
    }
  }

  lemma {:induction false} AdvanceKeeps(s: Spinner, c: Vec, env: Env, off: nat, n: nat)
    requires IsHypot(env.hypot) && Shaped(s) && Fits(s)
    ensures var a := Advance(s, c, env, off).0;
            && a.(lobes := s.lobes) == Turned(s, c, env.dt)
            && Shaped(a) && Fits(a) && (Populated(s, n) ==> Populated(a, n))
            && Congruent(s, a)
    decreases s, 1
  {
    AdvanceLobes(s, c, env, off);
    var a := Advance(s, c, env, off).0;
    var t := Turned(s, c, env.dt);
    forall i, j | 0 <= i < 3 && 0 <= j < |s.lobes[i].children|
      ensures Similar(s.lobes[i].children[j], a.lobes[i].children[j], n)
    {
      TickKeeps(s.lobes[i].children[j], CenterOf(t, i, env.polar), env,
                ChildOffset(s, off, i, j), n);
    }
    forall i | 0 <= i < 3 {
      StepBodiesKeep(s.lobes[i].bodies, CenterOf(t, i, env.polar), s.lobeRadius, env,
                     OwnOffset(s, off, i));
    }
    Assembled(s, a, n);
  }

  /** `t` has the attributes of `s` that `__init__` fixes, and keeps what a tick keeps. */
  ghost predicate Similar(s: Spinner, t: Spinner, n: nat)
  {
    && t.level == s.level && t.maxLevel == s.maxLevel
    && t.armLength == s.armLength && t.lobeRadius == s.lobeRadius
    && (Shaped(s) ==> Shaped(t)) && (Fits(s) ==> Fits(t))
    && (Populated(s, n) ==> Populated(t, n)) && Congruent(s, t)
  }

  /** A node whose particles kept their sizes and whose children each kept what a tick
      keeps, keeps it too. */
  lemma Assembled(s: Spinner, a: Spinner, n: nat)
    requires Shaped(s) && Fits(s)
    requires a.level == s.level && a.maxLevel == s.maxLevel
    requires a.armLength == s.armLength && a.lobeRadius == s.lobeRadius
    requires |a.lobes| == 3
    requires forall i | 0 <= i < 3 ::
               |a.lobes[i].bodies| == |s.lobes[i].bodies|
               && |a.lobes[i].children| == |s.lobes[i].children|
    requires forall i, k | 0 <= i < 3 && 0 <= k < |s.lobes[i].bodies| ::
               a.lobes[i].bodies[k].radius == s.lobes[i].bodies[k].radius
    requires forall i, j | 0 <= i < 3 && 0 <= j < |s.lobes[i].children| ::
               Similar(s.lobes[i].children[j], a.lobes[i].children[j], n)
    ensures Shaped(a) && Fits(a) && (Populated(s, n) ==> Populated(a, n)) && Congruent(s, a)
  {
  }

  lemma {:induction false} CongruentTrans(s: Spinner, t: Spinner, u: Spinner)
    requires Congruent(s, t) && Congruent(t, u)
    ensures Congruent(s, u)
    decreases s
  {
    forall i, j | 0 <= i < |s.lobes| && 0 <= j < |s.lobes[i].children|
      ensures Congruent(s.lobes[i].children[j], u.lobes[i].children[j])
    {
      CongruentTrans(s.lobes[i].children[j], t.lobes[i].children[j], u.lobes[i].children[j]);
    }
  }

  /** After a tick the whole tree is sorted by the demon. */
  lemma TickSorted(s: Spinner, c: Vec, env: Env, off: nat)
    requires IsHypot(env.hypot) && Shaped(s) && Fits(s)
    ensures Sorted(Tick(s, c, env, off).0, env.polar)
  {
    DemonSorts(Advance(s, c, env, off).0, env.polar);
  }

  /** The final `maxwells_demon()` of a node does not touch its children again: each
      child is left exactly as its own `update` left it, sorted. */
  lemma TickSettlesChildren(s: Spinner, c: Vec, env: Env, off: nat)
    requires IsHypot(env.hypot) && Shaped(s) && Fits(s)
    ensures var r := Tick(s, c, env, off).0;
            var t := Turned(s, c, env.dt);
            && |r.lobes| == 3
            && forall i, j | 0 <= i < 3 && 0 <= j < |s.lobes[i].children| ::
                 j < |r.lobes[i].children|
                 && r.lobes[i].children[j]
                    == Tick(s.lobes[i].children[j], CenterOf(t, i, env.polar), env,
                            ChildOffset(s, off, i, j)).0
  {
    AdvanceLobes(s, c, env, off);
    var a := Advance(s, c, env, off).0;
    var t := Turned(s, c, env.dt);
    DemonLobes(a, env.polar);
    forall i, j | 0 <= i < 3 && 0 <= j < |s.lobes[i].children|
      ensures DemonTree(a.lobes[i].children[j], env.polar) == a.lobes[i].children[j]
    {
      DemonIdempotent(Advance(s.lobes[i].children[j], CenterOf(t, i, env.polar), env,
                              ChildOffset(s, off, i, j)).0, env.polar);
    }
  }

  /** After a tick every child sits at its lobe centre and every particle lies inside its
      lobe. */
  lemma {:induction false} TickPlaces(s: Spinner, c: Vec, env: Env, off: nat)
    requires IsHypot(env.hypot) && Shaped(s) && Fits(s)
    ensures Anchored(Tick(s, c, env, off).0, env.polar)
    ensures InsideTree(Tick(s, c, env, off).0, env.polar)
    decreases s, 2
  {
    AdvancePlaces(s, c, env, off);
    var a := Advance(s, c, env, off).0;
    DemonKeeps(a, 0, env.polar);
    DemonKeepsInside(a, env.polar);
  }

  lemma {:induction false} AdvancePlaces(s: Spinner, c: Vec, env: Env, off: nat)
    requires IsHypot(env.hypot) && Shaped(s) && Fits(s)
    ensures Anchored(Advance(s, c, env, off).0, env.polar)
    ensures InsideTree(Advance(s, c, env, off).0, env.polar)
    decreases s, 1
  {
    AdvanceLobes(s, c, env, off);
    var a := Advance(s, c, env, off).0;
    var t := Turned(s, c, env.dt);
    forall i, j | 0 <= i < 3 && 0 <= j < |s.lobes[i].children|
      ensures a.lobes[i].children[j].center == CenterOf(a, i, env.polar)
      ensures Anchored(a.lobes[i].children[j], env.polar)
      ensures InsideTree(a.lobes[i].children[j], env.polar)
    {
      var k := s.lobes[i].children[j];
      TickKeeps(k, CenterOf(t, i, env.polar), env, ChildOffset(s, off, i, j), 0);
      TickPlaces(k, CenterOf(t, i, env.polar), env, ChildOffset(s, off, i, j));
    }
    forall i | 0 <= i < 3
      ensures forall k | 0 <= k < |a.lobes[i].bodies| ::
                Inside(a.lobes[i].bodies[k], CenterOf(a, i, env.polar), a.lobeRadius)
    {
      StepBodiesKeep(s.lobes[i].bodies, CenterOf(t, i, env.polar), s.lobeRadius, env,
                     OwnOffset(s, off, i));
    }
  }

  lemma FlattenSnoc<T>(ss: seq<seq<T>>, n: nat)
    requires n < |ss|
    ensures Flatten(ss[..n + 1]) == Flatten(ss[..n]) + ss[n]
  {
    assert ss[..n + 1][..n] == ss[..n];
  }

  lemma FlattenThree<T>(ss: seq<seq<T>>)
    requires |ss| == 3
    ensures Flatten(ss) == ss[0] + ss[1] + ss[2]
  {
    FlattenSnoc(ss, 0);
    FlattenSnoc(ss, 1);
    FlattenSnoc(ss, 2);
    assert ss[..0] == [] && ss[..3] == ss;
  }

  /** The particles' tones, lobe by lobe. */
  lemma OwnTonesThree(bodies: seq<seq<Body>>)
    requires |bodies| == 3
    ensures OwnTones(bodies)
            == LobeTones(bodies[0], 0) + LobeTones(bodies[1], 1) + LobeTones(bodies[2], 2)
  {
    FlattenThree(seq(3, i requires 0 <= i < 3 => LobeTones(bodies[i], i)));
  }

  /** The children's tones, lobe by lobe. */
  lemma ChildTonesThree(kids: seq<seq<(Spinner, seq<Tone>)>>)
    requires |kids| == 3
    ensures ChildTones(kids)
            == Joined(kids[0], |kids[0]|) + Joined(kids[1], |kids[1]|) + Joined(kids[2], |kids[2]|)
  {
    FlattenThree(seq(3, i requires 0 <= i < 3 => Joined(kids[i], |kids[i]|)));
  }

  lemma {:induction false} SilentJoined(row: seq<(Spinner, seq<Tone>)>, n: nat)
    requires n <= |row|
    requires forall j | 0 <= j < |row| :: row[j].1 == []
    ensures Joined(row, n) == []
  {
    if n > 0 {
      SilentJoined(row, n - 1);
    }
  }

  /** light.py requests no tones; isolated.py requests exactly one audible tone per
      particle of the tree, so `total_particles()` tones per tick of a root. */
  lemma {:induction false} TickTones(s: Spinner, c: Vec, env: Env, off: nat)
    requires IsHypot(env.hypot) && Shaped(s) && Fits(s)
    ensures env.variant == Light ==> Tick(s, c, env, off).1 == []
    ensures env.variant == Isolated ==>
              && |Tick(s, c, env, off).1| == Count(s)
              && forall k | 0 <= k < |Tick(s, c, env, off).1| :: Audible(Tick(s, c, env, off).1[k])
    decreases s, 2
  {
    ChildTonesCount(s, c, env, off);
    if env.variant == Isolated {
      OwnTonesCount(s, c, env, off);
      ConcatAll(OwnTones(SteppedLobes(s, c, env, off)), ChildTones(TickedChildren(s, c, env, off)));
    }
  }

  /** One audible tone per particle of the node. */
  lemma OwnTonesCount(s: Spinner, c: Vec, env: Env, off: nat)
    requires IsHypot(env.hypot) && Shaped(s) && Fits(s)
    ensures var t := OwnTones(SteppedLobes(s, c, env, off));
            && |t| == Own(s.lobes, 3)
            && forall k | 0 <= k < |t| :: Audible(t[k])
  {
    var own := SteppedLobes(s, c, env, off);
    var t := Turned(s, c, env.dt);
    forall i | 0 <= i < 3
      ensures |own[i]| == |s.lobes[i].bodies|
    {
      StepBodiesKeep(s.lobes[i].bodies, CenterOf(t, i, env.polar), s.lobeRadius, env,
                     OwnOffset(s, off, i));
    }
    OwnTonesFacts(own, s.lobes);
  }

  /** No tone below the node's children in light.py; one audible tone per particle below
      them in isolated.py. */
  lemma {:induction false} ChildTonesCount(s: Spinner, c: Vec, env: Env, off: nat)
    requires IsHypot(env.hypot) && Shaped(s) && Fits(s)
    ensures var t := ChildTones(TickedChildren(s, c, env, off));
            && (env.variant == Light ==> t == [])
            && (env.variant == Isolated ==>
                  |t| == Family(s.lobes, 3) && forall k | 0 <= k < |t| :: Audible(t[k]))
    decreases s, 1
  {
    var kids: seq<seq<(Spinner, seq<Tone>)>> := TickedChildren(s, c, env, off);
    var t := Turned(s, c, env.dt);
    forall i, j | 0 <= i < 3 && 0 <= j < |s.lobes[i].children|
      ensures env.variant == Light ==> kids[i][j].1 == []
      ensures env.variant == Isolated ==>
                |kids[i][j].1| == Count(s.lobes[i].children[j])
                && forall k | 0 <= k < |kids[i][j].1| :: Audible(kids[i][j].1[k])
    {
      var offs := RowOffsets(s, off, i);
      assert kids[i] == RowTick(s.lobes[i], CenterOf(t, i, env.polar), env, offs);
      assert kids[i][j] == Tick(s.lobes[i].children[j], CenterOf(t, i, env.polar), env, offs[j]);
      TickTones(s.lobes[i].children[j], CenterOf(t, i, env.polar), env, offs[j]);
    }
    if env.variant == Light {
      SilentJoined(kids[0], |kids[0]|);
      SilentJoined(kids[1], |kids[1]|);
      SilentJoined(kids[2], |kids[2]|);
      ChildTonesThree(kids);
    } else {
      ChildTonesFacts(kids, s);
    }
  }

  lemma OwnTonesFacts(bodies: seq<seq<Body>>, lobes: seq<Lobe>)
    requires |bodies| == 3 == |lobes|
    requires forall i | 0 <= i < 3 :: |bodies[i]| == |lobes[i].bodies|
    ensures |OwnTones(bodies)| == Own(lobes, 3)
    ensures forall k | 0 <= k < |OwnTones(bodies)| :: Audible(OwnTones(bodies)[k])
  {
    var ss := seq(3, i requires 0 <= i < 3 => LobeTones(bodies[i], i));
    FlattenThree(ss);
    assert Own(lobes, 1) == |ss[0]|;
    assert Own(lobes, 2) == |ss[0]| + |ss[1]|;
    forall i, k | 0 <= i < 3 && 0 <= k < |ss[i]|
      ensures Audible(ss[i][k])
    {
      LobeToneAudible(i, KineticEnergy(bodies[i][k]));
    }
    FlattenAll(ss);
  }

  lemma ChildTonesFacts(kids: seq<seq<(Spinner, seq<Tone>)>>, s: Spinner)
    requires Shaped(s) && |kids| == 3
    requires forall i | 0 <= i < 3 :: |kids[i]| == |s.lobes[i].children|
    requires forall i, j | 0 <= i < 3 && 0 <= j < |s.lobes[i].children| ::
               |kids[i][j].1| == Count(s.lobes[i].children[j])
               && forall k | 0 <= k < |kids[i][j].1| :: Audible(kids[i][j].1[k])
    ensures |ChildTones(kids)| == Family(s.lobes, 3)
    ensures forall k | 0 <= k < |ChildTones(kids)| :: Audible(ChildTones(kids)[k])
  {
    var ss := seq(3, i requires 0 <= i < 3 => Joined(kids[i], |kids[i]|));
    forall i | 0 <= i < 3
      ensures |ss[i]| == Row(s.lobes[i], |s.lobes[i].children|)
      ensures forall k | 0 <= k < |ss[i]| :: Audible(ss[i][k])
    {
      RowTonesFacts(kids[i], s.lobes[i], |kids[i]|);
    }
    FlattenThree(ss);
    assert Family(s.lobes, 1) == |ss[0]|;
    assert Family(s.lobes, 2) == |ss[0]| + |ss[1]|;
    FlattenAll(ss);
  }

  lemma {:induction false} RowTonesFacts(row: seq<(Spinner, seq<Tone>)>, l: Lobe, n: nat)
    requires n <= |row| == |l.children|
    requires forall j | 0 <= j < |row| ::
               |row[j].1| == Count(l.children[j])
               && forall k | 0 <= k < |row[j].1| :: Audible(row[j].1[k])
    ensures |Joined(row, n)| == Row(l, n)
    ensures forall k | 0 <= k < |Joined(row, n)| :: Audible(Joined(row, n)[k])
  {
    if n > 0 {
      RowTonesFacts(row, l, n - 1);
      ConcatAll(Joined(row, n - 1), row[n - 1].1);
    }
  }

  lemma ConcatAll(a: seq<Tone>, b: seq<Tone>)
    requires forall k | 0 <= k < |a| :: Audible(a[k])
    requires forall k | 0 <= k < |b| :: Audible(b[k])
    ensures forall k | 0 <= k < |a + b| :: Audible((a + b)[k])
  {
    forall k | 0 <= k < |a + b|
      ensures Audible((a + b)[k])
    {
      if k >= |a| {
        assert (a + b)[k] == b[k - |a|];
      }
    }
  }

  /** A property of every element of every part holds of every element of the whole. */
  lemma {:induction false} FlattenAll(ss: seq<seq<Tone>>)
    requires forall i, k | 0 <= i < |ss| && 0 <= k < |ss[i]| :: Audible(ss[i][k])
    ensures forall k | 0 <= k < |Flatten(ss)| :: Audible(Flatten(ss)[k])
  {
    if |ss| > 0 {
      var init := ss[..|ss| - 1];
      FlattenAll(init);
      ConcatAll(Flatten(init), ss[|ss| - 1]);
    }
  }
}
