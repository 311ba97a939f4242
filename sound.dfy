/** sound.py: three lobes of six particles that only have velocities. Every frame each
    particle's velocity jiggles a little, then the lobe's demon pushes `vx` up for the
    particles hotter than the lobe's mean energy and down for the others, and every
    particle is played as a tone. The values are specified by functions on `Motion`s; the
    classes `Particle` and `Lobe` are proved to compute them. */
module Sound {
  import Kinetics
  import opened Audio
  import opened Randomness

  const NUM_LOBES: nat := 3
  const PARTICLES_PER_LOBE: nat := 6
  /** The pans of the three lobes created by `main`. */
  const PANS: seq<real> := [0.1, 0.5, 0.9]
  /** Scale of an initial velocity component, `(random.random() - 0.5) * 0.5`. */
  const SPREAD: real := 0.5
  /** Scale of the jiggle of `Particle.update`, `(random.random() - 0.5) * 0.02`. */
  const JIGGLE: real := 0.02
  /** The demon's push on `vx`. */
  const NUDGE: real := 0.01

  /** The state of one sound particle: its velocity. */
  datatype Motion = Motion(vx: real, vy: real)

  function Energy(m: Motion): (e: real)
    ensures e >= 0.0
  {
    Kinetics.Energy(m.vx, m.vy)
  }

  /** One initial velocity component of `Particle.__init__`. */
  function Initial(u: Draw): (v: real)
    ensures -0.25 <= v < 0.25
  {
    (u - 0.5) * SPREAD
  }

  /** The particle `Particle()` creates from the draws at `off` and `off + 1`. */
  function Created(stream: nat -> Draw, off: nat): Motion
  {
    Motion(Initial(stream(off)), Initial(stream(off + 1)))
  }

  /** The six particles `Lobe.__init__` creates from the draws starting at `off`. */
  function Spawned(stream: nat -> Draw, off: nat): (ms: seq<Motion>)
    ensures |ms| == PARTICLES_PER_LOBE
    ensures forall i :: 0 <= i < |ms| ==>
              -0.25 <= ms[i].vx < 0.25 && -0.25 <= ms[i].vy < 0.25
  {
    seq(PARTICLES_PER_LOBE, i requires 0 <= i => Created(stream, off + 2 * i))
  }

  /** `Particle.update`: each component moves by `(u - 0.5) * 0.02`. */
  function Jiggled(m: Motion, u1: Draw, u2: Draw): (r: Motion)
    ensures -0.01 <= r.vx - m.vx < 0.01
    ensures -0.01 <= r.vy - m.vy < 0.01
  {
    Motion(m.vx + (u1 - 0.5) * JIGGLE, m.vy + (u2 - 0.5) * JIGGLE)
  }

  /** The first loop of `Lobe.update`: particle i uses draws `off + 2i` and `off + 2i + 1`. */
  function Jiggle(ms: seq<Motion>, stream: nat -> Draw, off: nat): (r: seq<Motion>)
    ensures |r| == |ms|
  {
    seq(|ms|, i requires 0 <= i < |ms| =>
        Jiggled(ms[i], stream(off + 2 * i), stream(off + 2 * i + 1)))
  }

  /** The sum of the kinetic energies, as the generator passed to `sum` adds them. */
  function Total(ms: seq<Motion>): real
  {
    if ms == [] then 0.0 else Total(ms[..|ms| - 1]) + Energy(ms[|ms| - 1])
  }

  /** `avg_energy`: the sum divided by the constant `PARTICLES_PER_LOBE`. */
  function Mean(ms: seq<Motion>): real
  {
    Total(ms) / (PARTICLES_PER_LOBE as real)
  }

  /** The demon's decision for one particle, against the mean `avg`. */
  function Nudged(m: Motion, avg: real): (r: Motion)
    ensures r.vy == m.vy
    ensures Energy(m) > avg <==> r.vx == m.vx + NUDGE
    ensures Energy(m) <= avg <==> r.vx == m.vx - NUDGE
  {
    if Energy(m) > avg then m.(vx := m.vx + NUDGE) else m.(vx := m.vx - NUDGE)
  }

  /** The second loop of `Lobe.update`. Every particle is judged by its energy before its own
      push; the pushes of the others do not change it. */
  function Demon(ms: seq<Motion>): (r: seq<Motion>)
    ensures |r| == |ms|
  {
    seq(|ms|, i requires 0 <= i < |ms| => Nudged(ms[i], Mean(ms)))
  }

  /** One `Lobe.update`: the jiggle, then the demon on the jiggled energies. */
  function LobeStep(ms: seq<Motion>, stream: nat -> Draw, off: nat): seq<Motion>
  {
    Demon(Jiggle(ms, stream, off))
  }

  /** The demon leaves `vy` alone and pushes each `vx` by exactly 0.01, upwards exactly for
      the particles hotter than the mean of all energies. */
  lemma DemonPushes(ms: seq<Motion>)
    ensures |Demon(ms)| == |ms|
    ensures forall i :: 0 <= i < |ms| ==>
              && Demon(ms)[i].vy == ms[i].vy
              && (Energy(ms[i]) > Mean(ms) ==> Demon(ms)[i].vx == ms[i].vx + NUDGE)
              && (Energy(ms[i]) <= Mean(ms) ==> Demon(ms)[i].vx == ms[i].vx - NUDGE)
  {
  }

  /** If every particle is hotter than `a`, the total exceeds `|ms| * a`. */
  lemma {:induction false} TotalAbove(ms: seq<Motion>, a: real)
    requires ms != []
    requires forall i :: 0 <= i < |ms| ==> Energy(ms[i]) > a
    ensures Total(ms) > (|ms| as real) * a
  {
    var init := ms[..|ms| - 1];
    if init != [] {
      TotalAbove(init, a);
    }
  }

  /** The total energy of a lobe is never negative. */
  lemma {:induction false} TotalNonnegative(ms: seq<Motion>)
    ensures Total(ms) >= 0.0
  {
    if ms != [] {
      TotalNonnegative(ms[..|ms| - 1]);
    }
  }

  /** Not all six particles can be hotter than their mean: some particle is at most as hot
      as the mean. */
  lemma SomeNotAbove(ms: seq<Motion>)
    requires |ms| == PARTICLES_PER_LOBE
    ensures exists i :: 0 <= i < |ms| && Energy(ms[i]) <= Mean(ms)
  {
    if forall i :: 0 <= i < |ms| ==> Energy(ms[i]) > Mean(ms) {
      TotalAbove(ms, Mean(ms));
      assert false;
    }
  }

  /** So every `Lobe.update` of a lobe of six particles pushes some `vx` down by 0.01. */
  lemma SomeCooled(ms: seq<Motion>, stream: nat -> Draw, off: nat)
    requires |ms| == PARTICLES_PER_LOBE
    ensures exists i :: 0 <= i < |ms| &&
              LobeStep(ms, stream, off)[i].vx == Jiggle(ms, stream, off)[i].vx - NUDGE
  {
    var j := Jiggle(ms, stream, off);
    SomeNotAbove(j);
    var i :| 0 <= i < |j| && Energy(j[i]) <= Mean(j);
    assert LobeStep(ms, stream, off)[i] == Nudged(j[i], Mean(j));
  }

  /** Over one `Lobe.update` each velocity component moves by less than 0.02: at most 0.01
      from the jiggle and exactly 0.01 (on `vx` only) from the demon. */
  lemma LobeStepBounded(ms: seq<Motion>, stream: nat -> Draw, off: nat)
    ensures |LobeStep(ms, stream, off)| == |ms|
    ensures forall i :: 0 <= i < |ms| ==>
              && -0.02 <= LobeStep(ms, stream, off)[i].vx - ms[i].vx < 0.02
              && -0.01 <= LobeStep(ms, stream, off)[i].vy - ms[i].vy < 0.01
  {
    var j := Jiggle(ms, stream, off);
    forall i | 0 <= i < |ms|
      ensures -0.02 <= LobeStep(ms, stream, off)[i].vx - ms[i].vx < 0.02
      ensures -0.01 <= LobeStep(ms, stream, off)[i].vy - ms[i].vy < 0.01
    {
      assert j[i] == Jiggled(ms[i], stream(off + 2 * i), stream(off + 2 * i + 1));
      assert LobeStep(ms, stream, off)[i] == Nudged(j[i], Mean(j));
    }
  }

  /** The tone `main` plays for one particle of a lobe with base pitch `base` and pan `pan`. */
  function Played(base: real, pan: real, m: Motion): Tone
  {
    Tone(Frequency(base, Energy(m)), Volume(Energy(m)), pan)
  }

  /** The tones of one lobe, particle by particle. */
  function LobeTones(base: real, pan: real, ms: seq<Motion>): seq<Tone>
  {
    if ms == [] then [] else LobeTones(base, pan, ms[..|ms| - 1]) + [Played(base, pan, ms[|ms| - 1])]
  }

  /** One tone per particle, none below the lobe's base pitch, every volume in [0, 1], and
      each at the lobe's pan. */
  lemma {:induction false} LobeTonesBounded(base: real, pan: real, ms: seq<Motion>)
    ensures |LobeTones(base, pan, ms)| == |ms|
    ensures forall i :: 0 <= i < |ms| ==>
              var t := LobeTones(base, pan, ms)[i];
              && t == Played(base, pan, ms[i])
              && t.frequency >= base && 0.0 <= t.volume <= 1.0 && t.pan == pan
  {
    if ms != [] {
      var init := ms[..|ms| - 1];
      LobeTonesBounded(base, pan, init);
      forall i | 0 <= i < |ms|
        ensures LobeTones(base, pan, ms)[i] == Played(base, pan, ms[i])
      {
        if i < |init| {
          assert ms[i] == init[i];
        }
      }
    }
  }

  /** `p1`, ..., `pn` are pairwise different objects. */
  predicate Distinct(ps: seq<Particle>)
  {
    forall i, j :: 0 <= i < j < |ps| ==> ps[i] != ps[j]
  }

  /** The velocities of a sequence of particles. */
  function MotionsOf(ps: seq<Particle>): (ms: seq<Motion>)
    reads ps
    ensures |ms| == |ps|
    ensures forall i {:trigger ms[i]} :: 0 <= i < |ps| ==> ms[i] == ps[i].State()
  {
    if ps == [] then [] else MotionsOf(ps[..|ps| - 1]) + [ps[|ps| - 1].State()]
  }

  /** `Particle` of sound.py. */
  class Particle {
    var vx: real
    var vy: real

    /** `Particle()`: two draws, first for `vx`, then for `vy`. */
    constructor (rng: Random)
      modifies rng
      ensures State() == Created(rng.stream, old(rng.cursor))
      ensures rng.cursor == old(rng.cursor) + 2
    {
      var u1 := rng.Next();
      var u2 := rng.Next();
      vx := Initial(u1);
      vy := Initial(u2);
    }

    function State(): Motion
      reads this
    {
      Motion(vx, vy)
    }

    /** `kinetic_energy()`. */
    function KineticEnergy(): (e: real)
      reads this
      ensures e >= 0.0
      ensures e == Energy(State())
    {
      Kinetics.Energy(vx, vy)
    }

    /** `update()`: the small random motion, from two draws. */
    method Update(rng: Random)
      modifies this, rng
      ensures State() == Jiggled(old(State()), rng.stream(old(rng.cursor)), rng.stream(old(rng.cursor) + 1))
      ensures rng.cursor == old(rng.cursor) + 2
    {
      var u1 := rng.Next();
      vx := vx + (u1 - 0.5) * JIGGLE;
      var u2 := rng.Next();
      vy := vy + (u2 - 0.5) * JIGGLE;
    }
  }

  /** `Lobe` of sound.py. The list of particles is never replaced, only its particles change. */
  class Lobe {
    const particles: seq<Particle>
    /** The particles, as a set. */
    const Repr: set<Particle>
    const baseFreq: real
    const pan: real

    ghost predicate Valid()
    {
      var valid := |particles| == PARTICLES_PER_LOBE && Distinct(particles) && Repr == set p | p in particles;
      valid
    }

    function Motions(): (ms: seq<Motion>)
      requires Valid()
      reads Repr
      ensures |ms| == PARTICLES_PER_LOBE
    {
      MotionsOf(particles)
    }

    /** `Lobe(base_freq, pan)`: six new particles, drawn one after the other. */
    constructor (baseFreq: real, pan: real, rng: Random)
      modifies rng
      ensures Valid() && fresh(Repr)
      ensures this.baseFreq == baseFreq && this.pan == pan
      ensures Motions() == Spawned(rng.stream, old(rng.cursor))
      ensures rng.cursor == old(rng.cursor) + 2 * PARTICLES_PER_LOBE
    {
      ghost var off := rng.cursor;
      var ps: seq<Particle> := [];
      for k := 0 to PARTICLES_PER_LOBE
        invariant |ps| == k && Distinct(ps)
        invariant rng.cursor == off + 2 * k
        invariant forall j :: 0 <= j < k ==> fresh(ps[j])
        invariant forall j :: 0 <= j < k ==> ps[j].State() == Created(rng.stream, off + 2 * j)
      {
        var p := new Particle(rng);
        ps := ps + [p];
      }
      particles := ps;
      Repr := set p | p in ps;
      this.baseFreq := baseFreq;
      this.pan := pan;
      new;
      assert Motions() == Spawned(rng.stream, off);
    }

    /** `update()`: every particle jiggles, then each `vx` is pushed against the mean of the
        jiggled energies. */
    method Update(rng: Random)
      requires Valid()
      modifies Repr, rng
      ensures Motions() == LobeStep(old(Motions()), rng.stream, old(rng.cursor))
      ensures rng.cursor == old(rng.cursor) + 2 * PARTICLES_PER_LOBE
    {
      ghost var ms0 := Motions();
      ghost var off := rng.cursor;
      JiggleAll(rng);
      ghost var ms1 := Motions();
      assert ms1 == Jiggle(ms0, rng.stream, off);
      var avg := MeanEnergy();
      PushAll(avg);
      assert Motions() == Demon(ms1);
    }

    /** The loop `for p in self.particles: p.update()`. */
    method JiggleAll(rng: Random)
      requires Valid()
      modifies Repr, rng
      ensures forall j :: 0 <= j < |particles| ==>
                particles[j].State()
                == Jiggled(old(particles[j].State()), rng.stream(old(rng.cursor) + 2 * j),
                           rng.stream(old(rng.cursor) + 2 * j + 1))
      ensures rng.cursor == old(rng.cursor) + 2 * PARTICLES_PER_LOBE
    {
      for k := 0 to |particles|
        invariant rng.cursor == old(rng.cursor) + 2 * k
        invariant forall j :: 0 <= j < k ==>
                    particles[j].State()
                    == Jiggled(old(particles[j].State()), rng.stream(old(rng.cursor) + 2 * j),
                               rng.stream(old(rng.cursor) + 2 * j + 1))
        invariant forall j :: k <= j < |particles| ==> particles[j].State() == old(particles[j].State())
      {
        particles[k].Update(rng);
      }
    }

    /** `sum(p.kinetic_energy() for p in self.particles) / PARTICLES_PER_LOBE`. */
    method MeanEnergy() returns (avg: real)
      requires Valid()
      ensures avg == Mean(Motions())
    {
      ghost var ms := Motions();
      var total := 0.0;
      for k := 0 to |particles|
        invariant total == Total(ms[..k])
      {
        var e := particles[k].KineticEnergy();
        assert ms[..k + 1][..k] == ms[..k];
        total := total + e;
      }
      assert ms[..|ms|] == ms;
      avg := total / (PARTICLES_PER_LOBE as real);
    }

    /** The demon's loop: each particle's `vx` goes up by 0.01 if its energy exceeds `avg`,
        down by 0.01 otherwise. */
    method PushAll(avg: real)
      requires Valid()
      modifies Repr
      ensures forall j :: 0 <= j < |particles| ==>
                particles[j].State() == Nudged(old(particles[j].State()), avg)
    {
      for k := 0 to |particles|
        invariant forall j :: 0 <= j < k ==> particles[j].State() == Nudged(old(particles[j].State()), avg)
        invariant forall j :: k <= j < |particles| ==> particles[j].State() == old(particles[j].State())
      {
        var p := particles[k];
        if p.KineticEnergy() > avg {
          p.vx := p.vx + NUDGE;
        } else {
          p.vx := p.vx - NUDGE;
        }
      }
    }

    /** The tones `main` plays for this lobe's particles, in order. */
    method Tones() returns (tones: seq<Tone>)
      requires Valid()
      ensures tones == LobeTones(baseFreq, pan, Motions())
    {
      ghost var ms := Motions();
      tones := [];
      for k := 0 to |particles|
        invariant tones == LobeTones(baseFreq, pan, ms[..k])
      {
        var e := particles[k].KineticEnergy();
        var freq := baseFreq + e * PITCH_PER_ENERGY;
        var vol := if 1.0 < e * GAIN_PER_ENERGY then 1.0 else e * GAIN_PER_ENERGY;
        assert ms[..k + 1][..k] == ms[..k];
        tones := tones + [Tone(freq, vol, pan)];
      }
      assert ms[..|ms|] == ms;
    }
  }

  /** Valid lobes that share no particle. */
  ghost predicate Apart(lobes: seq<Lobe>)
  {
    && (forall i :: 0 <= i < |lobes| ==> lobes[i].Valid())
    && (forall i, j :: 0 <= i < j < |lobes| ==> lobes[i].Repr !! lobes[j].Repr)
  }

  /** Lobe `i` of `main`, as created from the draws starting at `off`. */
  ghost predicate Started(l: Lobe, i: nat, stream: nat -> Draw, off: nat)
    requires i < NUM_LOBES
    reads l.Repr
  {
    var ok := l.Valid() && l.baseFreq == BASE_FREQUENCIES[i] && l.pan == PANS[i]
              && l.Motions() == Spawned(stream, off);
    ok
  }

  /** The three lobes at the start of `main`, at 220, 330 and 440 Hz, panned 0.1, 0.5 and 0.9,
      each made of new particles. */
  method Setup(rng: Random) returns (lobes: seq<Lobe>)
    modifies rng
    ensures |lobes| == NUM_LOBES && Apart(lobes)
    ensures Started(lobes[0], 0, rng.stream, old(rng.cursor))
    ensures Started(lobes[1], 1, rng.stream, old(rng.cursor) + 12)
    ensures Started(lobes[2], 2, rng.stream, old(rng.cursor) + 24)
    ensures fresh(lobes[0].Repr) && fresh(lobes[1].Repr) && fresh(lobes[2].Repr)
    ensures rng.cursor == old(rng.cursor) + 36
  {
    var l0 := new Lobe(BASE_FREQUENCIES[0], PANS[0], rng);
    var l1 := new Lobe(BASE_FREQUENCIES[1], PANS[1], rng);
    var l2 := new Lobe(BASE_FREQUENCIES[2], PANS[2], rng);
    lobes := [l0, l1, l2];
  }

  /** `for lobe in lobes: lobe.update()`: lobe i draws the twelve values after those of the
      lobes before it. */
  method UpdateAll(lobes: seq<Lobe>, rng: Random)
    requires |lobes| == NUM_LOBES && Apart(lobes)
    modifies lobes[0].Repr, lobes[1].Repr, lobes[2].Repr, rng
    ensures forall i :: 0 <= i < NUM_LOBES ==>
              lobes[i].Motions() == LobeStep(old(lobes[i].Motions()), rng.stream, old(rng.cursor) + 12 * i)
    ensures rng.cursor == old(rng.cursor) + 36
  {
    for i := 0 to NUM_LOBES
      invariant rng.cursor == old(rng.cursor) + 12 * i
      invariant forall j :: 0 <= j < i ==>
                  lobes[j].Motions() == LobeStep(old(lobes[j].Motions()), rng.stream, old(rng.cursor) + 12 * j)
      invariant forall j :: i <= j < NUM_LOBES ==> lobes[j].Motions() == old(lobes[j].Motions())
    {
      UpdateOne(lobes, i, rng);
    }
  }

  /** `lobes[i].update()`, which leaves the particles of the other lobes alone. */
  method UpdateOne(lobes: seq<Lobe>, i: nat, rng: Random)
    requires |lobes| == NUM_LOBES && Apart(lobes) && i < NUM_LOBES
    modifies lobes[i].Repr, rng
    ensures lobes[i].Motions() == LobeStep(old(lobes[i].Motions()), rng.stream, old(rng.cursor))
    ensures forall j :: 0 <= j < NUM_LOBES && j != i ==> lobes[j].Motions() == old(lobes[j].Motions())
    ensures rng.cursor == old(rng.cursor) + 12
  {
    lobes[i].Update(rng);
  }

  /** The tones of the lobes, lobe after lobe. */
  function FrameTones(lobeTones: seq<seq<Tone>>): seq<Tone>
  {
    if lobeTones == [] then [] else FrameTones(lobeTones[..|lobeTones| - 1]) + lobeTones[|lobeTones| - 1]
  }

  /** `for lobe in lobes: for p in lobe.particles: ...`: the tones of one frame. */
  method PlayAll(lobes: seq<Lobe>) returns (tones: seq<Tone>)
    requires |lobes| == NUM_LOBES && Apart(lobes)
    ensures tones == LobeTones(lobes[0].baseFreq, lobes[0].pan, lobes[0].Motions())
                   + LobeTones(lobes[1].baseFreq, lobes[1].pan, lobes[1].Motions())
                   + LobeTones(lobes[2].baseFreq, lobes[2].pan, lobes[2].Motions())
  {
    ghost var heard := [LobeTones(lobes[0].baseFreq, lobes[0].pan, lobes[0].Motions()),
                        LobeTones(lobes[1].baseFreq, lobes[1].pan, lobes[1].Motions()),
                        LobeTones(lobes[2].baseFreq, lobes[2].pan, lobes[2].Motions())];
    tones := [];
    for i := 0 to NUM_LOBES
      invariant tones == FrameTones(heard[..i])
    {
      var t := lobes[i].Tones();
      assert heard[..i + 1][..i] == heard[..i];
      tones := tones + t;
    }
    assert heard[..NUM_LOBES] == heard;
    assert heard[..2][..1] == heard[..1] && heard[..3][..2] == heard[..2];
    assert FrameTones(heard[..1]) == heard[0];
  }

  /** Every tone of a frame is at or above its lobe's base pitch, at a volume in [0, 1] and at
      the lobe's pan; there are 18 of them. */
  lemma FrameTonesBounded(ms0: seq<Motion>, ms1: seq<Motion>, ms2: seq<Motion>)
    requires |ms0| == |ms1| == |ms2| == PARTICLES_PER_LOBE
    ensures var tones := LobeTones(BASE_FREQUENCIES[0], PANS[0], ms0)
                       + LobeTones(BASE_FREQUENCIES[1], PANS[1], ms1)
                       + LobeTones(BASE_FREQUENCIES[2], PANS[2], ms2);
            && |tones| == NUM_LOBES * PARTICLES_PER_LOBE
            && forall k :: 0 <= k < |tones| ==>
                 var i := k / PARTICLES_PER_LOBE;
                 && tones[k].frequency >= BASE_FREQUENCIES[i]
                 && 0.0 <= tones[k].volume <= 1.0
                 && tones[k].pan == PANS[i]
  {
    LobeTonesBounded(BASE_FREQUENCIES[0], PANS[0], ms0);
    LobeTonesBounded(BASE_FREQUENCIES[1], PANS[1], ms1);
    LobeTonesBounded(BASE_FREQUENCIES[2], PANS[2], ms2);
  }
}
