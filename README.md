# Maxwell's demon spinners, modelled in Dafny

The repository has three small simulations. Particles bounce inside circular "lobes", and a
"Maxwell's demon" sorts them by kinetic energy.

- **light.py** builds a recursive tree of spinners. Each `SpinnerNode` has three lobes
  around its centre, 10 particles per lobe and, below `max_level`, three child spinners per
  lobe. Every tick it turns the node, moves and bounces every particle, re-parents and
  updates the children, and runs the demon, which moves hot particles (kinetic energy above
  0.05) to the right of their lobe centre and cold ones to the left. It also reports the
  total particle count and the total kinetic energy. Every new particle starts on the wall
  of its lobe, at exactly `lobe_radius - r` from the lobe centre.
- **isolated.py** is the same tree, with 6 particles per lobe and the velocity constructor
  fixed. For every particle it updates, it requests one tone: the frequency rises with the
  kinetic energy, the volume is capped at 1, and the pan is the lobe index over 2.
- **sound.py** has three flat lobes of six velocity-only particles. Each update jiggles every
  particle, then nudges every `vx` by ±0.01 according to whether the particle's energy is
  above the lobe's mean energy. Each frame, every particle plays one tone.

The project models the simulations in two layers.

- **Value layer.** These modules are pure functions and lemmas over `real`s:
  - `Geometry`, `Randomness`, `Kinetics` (one particle's step);
  - `Demon` (the sort of one particle and one lobe);
  - `Audio` (the tone parameters, the stereo split, the sample count);
  - `SpinnerTree` (the spinner tree as a value, with its counts and energies);
  - `TreeDemon`, `TreeSpawn` (the construction) and `TreeTick` (one `update`).
- **Imperative layer.** This layer has the classes of the scripts, with the fields they
  update in place:
  - `Spinner.Particle` and `Spinner.SpinnerNode`, for light.py and isolated.py;
  - `Sound.Particle` and `Sound.Lobe`, for sound.py.

  Each method is proved against the value layer. For example, `SpinnerNode.Update` leaves
  the object tree equal to `TreeTick.Tick` of the old tree, and `SpinnerNode.MaxwellsDemon`
  leaves it equal to `TreeDemon.DemonTree` of it.

light.py and isolated.py share one `SpinnerNode` class. Its constant `variant` (`Light` or
`Isolated`) selects:
- the number of particles per lobe (10 or 6);
- the velocity constructor (light.py keeps `vy` for both components);
- whether tones are requested.

Calls outside the program become inputs:
- `math.cos`/`math.sin` are a function `polar` from angles to unit vectors (`IsUnitCircle`);
- `math.hypot` is a function that returns the true distance (`IsHypot`);
- `random.random()` is a `Random` object that reads an input stream of draws in [0, 1) and
  counts the draws it has made, so every result states which draws it used;
- `dt` is a parameter.

## Model

| member | source | states |
|---|---|---|
| Randomness.Random.Next | light.py:103 | one `random.random()`: the next draw of the input stream, in [0, 1), after which the count of draws made rises by one |
| Kinetics.Energy | light.py:43-44 | kinetic energy `0.5 * (vx² + vy²)` is never negative |
| Kinetics.Moved | light.py:47-48 | the position advances by exactly `v * dt`; velocity and radius are kept |
| Kinetics.Fluctuate | light.py:62-64 | only the velocity changes, each component by an amount in [-0.005, 0.005) |
| Kinetics.Reflect | light.py:55-60 | the reflection about the outward normal and the clamp to `lobe_radius - radius`; its properties are ReflectIsElastic and BounceInside |
| Kinetics.Bounce | light.py:50-60 | the bounce test and branch; BounceInside states containment, the division guard and touching the wall |
| Kinetics.Step | light.py:46-64 | `Particle.update`: move, bounce, fluctuate with two draws; StepInside states that it never divides by zero and ends inside the lobe |
| Kinetics.UnitNormal | light.py:55 | `(dx / dist, dy / dist)` has unit length when `dist` is the distance |
| Kinetics.BounceInside | light.py:50-60 | for a particle smaller than its lobe, the bounce branch only runs at `dist > 0`; afterwards the particle is inside the lobe, touching the wall exactly when the branch ran |
| Kinetics.ReflectIsElastic | light.py:55-58 | the reflection negates the normal velocity component, keeps the tangential component, the kinetic energy and the radius |
| Kinetics.StepInside | light.py:46-64 | a whole `Particle.update` with a true `hypot` never divides by zero and leaves the particle inside its lobe |
| Demon.SortBody | light.py:114-119 | only `x` changes, `abs(x - cx)` is kept, and the particle ends on its side: hot at `x >= cx`, cold at `x <= cx` |
| Demon.SortFixes | light.py:116-119 | sorting leaves a particle unchanged exactly when it is already on its side |
| Demon.SortIdempotent | light.py:114-119 | sorting a particle twice equals sorting it once |
| Demon.SortKeepsInside | light.py:114-119 | the distance to the lobe centre is kept, so containment in the lobe is kept |
| Demon.SortLobe | light.py:112-119 | one lobe's list keeps its length, each particle is sorted against the lobe centre, every particle ends on its side, and the sort is the identity exactly on already sorted lobes |
| Audio.Frequency | isolated.py:136 | `base + 300 * KE` is at least `base` for nonnegative energy, and above it for positive energy |
| Audio.FrequencyRoundTrip | isolated.py:136 | the energy is recovered from the frequency |
| Audio.FrequencyStrictlyMonotone | isolated.py:136 | more energy gives exactly a higher pitch (both directions) |
| Audio.Volume | isolated.py:137 | `min(1.0, 8 * KE)` is at most 1 and at most `8 * KE`, equals one of them, and is nonnegative for nonnegative energy |
| Audio.VolumeSaturates | isolated.py:137 | the volume is 1 exactly when the energy is at least 1/8 |
| Audio.LobePan | isolated.py:138 | `lobe_idx / 2` lies in [0, 1] and is one of 0, 0.5 and 1 |
| Audio.LobeTone | isolated.py:136-138 | for nonnegative energy the tone is at or above the lobe's base frequency with a volume in [0, 1]; the pan is in [0, 1] |
| Audio.LobeToneAudible | isolated.py:136-138 | a tone of a particle is well formed: frequency at least 220, volume in [0, 1], pan one of 0, 0.5 and 1 |
| Audio.Stereo | isolated.py:47-49 | both channels have the waveform's length, and `left[i] + right[i] == waveform[i]` |
| Audio.StereoBounded | isolated.py:47-48 | neither channel is louder than the waveform, and `right[i] / w[i]` recovers the pan |
| Audio.Truncate | isolated.py:44 | Python's `int()` on a float: rounding toward zero (magnitude kept below and within 1) |
| Audio.ToneLength | isolated.py:44 | `int(SAMPLE_RATE * DURATION)` is 2205, the length of both channels |
| SpinnerTree.LobeCenter | light.py:93-96 | `get_lobe_center`; LobeOnArm states that it lies at `arm_length` from the centre |
| SpinnerTree.Count | light.py:149-155 | `total_particles` on a tree; CountOfShaped and MainTreeCount give its value |
| SpinnerTree.TotalEnergy | light.py:141-147 | `total_energy` on a tree; TotalEnergyNonneg and TotalEnergyResorted state its properties |
| SpinnerTree.Spin | light.py:127 | the turn rate `1 + 0.3 * level` is at least 1 |
| SpinnerTree.LobeOnArm | light.py:93-96 | every lobe centre lies exactly `arm_length` from the node's centre |
| SpinnerTree.BodiesEnergyNonneg | light.py:142 | the energy of a list of particles is nonnegative |
| SpinnerTree.TotalEnergyNonneg | light.py:141-147 | `total_energy` of any tree is nonnegative |
| SpinnerTree.OwnPopulated | light.py:150 | a node whose lobes each hold `n` particles owns `3 * n` of them |
| SpinnerTree.CountOfShaped | light.py:149-155 | `total_particles` of a well-shaped tree with `n` per lobe is `3n * (1 + 9 + ... + 9^depth)` |
| SpinnerTree.MainTreeCount | light.py:179 | a root tree of depth 2 has 91 nodes and 2730 (light.py) or 1638 (isolated.py) particles |
| TreeDemon.DemonTree | light.py:111-124 | `maxwells_demon` on a tree; DemonSorts, DemonIdempotent, DemonResorts, DemonKeepsInside and DemonKeeps state its properties |
| TreeDemon.DemonAll | light.py:121-124 | every child of a row runs its demon: each ends sorted, with its `total_particles` and `total_energy` kept |
| TreeDemon.DemonSorts | light.py:111-124 | after the demon the whole tree is sorted, and the demon is the identity exactly on sorted trees |
| TreeDemon.DemonIdempotent | light.py:111-124 | running the demon twice equals running it once, so the repeated sorting of descendants per tick changes nothing |
| TreeDemon.DemonResorts | light.py:114-119 | the demon changes only the `x` of particles, nothing else in the tree |
| TreeDemon.DemonKeepsInside | light.py:114-119 | a tree whose particles are all inside their lobes stays so |
| TreeDemon.ResortedIsCongruent | light.py:114-119 | a tree differing only in `x` has the same shape |
| TreeDemon.ResortedKeeps | light.py:114-119 | differing only in `x` keeps the shape, the particle count per lobe, the fit and the anchoring of children |
| TreeDemon.CountCongruent | light.py:149-155 | trees of the same shape have the same `total_particles` |
| TreeDemon.TotalEnergyResorted | light.py:141-147 | moving particles along `x` keeps `total_energy` |
| TreeDemon.DemonKeeps | light.py:111-124 | the demon keeps `total_particles`, `total_energy`, the shape, the fit and the anchoring |
| TreeSpawn.Spawn | light.py:70-108 | `__init__` on values; SpawnShaped, SpawnFits and MainTree state its shape, fit and count |
| TreeSpawn.InitBody | light.py:103-108 | one particle of `init_particles` from its three draws; InitBodyFacts states its radius, position and energy |
| TreeSpawn.InitLobe | light.py:99-108 | the particles of one lobe; InitLobeFacts states that they fit their lobe |
| TreeSpawn.NewBody | light.py:35-38 | the constructor stores every argument as given, except `vx` |
| TreeSpawn.NewBodyVelocity | light.py:37 | light.py stores `vy` as both components and drops the `vx` argument; isolated.py stores `vx` as given (isolated.py:59) |
| TreeSpawn.InitParticles | light.py:98-108 | a node gets three lobes of exactly `num_particles` particles each |
| TreeSpawn.InitParticlesDraws | light.py:99-108 | particle `k` of lobe `i` is made from the three consecutive draws at `off + 3 n i + 3 k`, all inside lobe `i`'s block; the three blocks follow one another from `off` to `off + 9 n` |
| TreeSpawn.SpawnChildren | light.py:77-89 | a node has three rows of children, each of exactly 3 nodes when `level < max_level` and empty otherwise |
| TreeSpawn.SpawnLobe | light.py:80-91 | lobe `i` of a built node holds the particles made around its centre after all children were made, and its row of children |
| TreeSpawn.SpawnLobeIs | light.py:80-91 | a lobe is built from its children, made one after another at its centre with scaled sizes, and its particles |
| TreeSpawn.SpawnRowIs | light.py:83-89 | the row of children at lobe `i` is the three children built at that lobe centre with `level + 1`, `arm_length * 0.4` and `lobe_radius * 0.4` |
| TreeSpawn.SpawnDrawsStep | light.py:80-108 | a node takes the draws of its children plus 9 per particle of a lobe (3 lobes, 3 draws each) |
| TreeSpawn.SpawnShaped | light.py:70-108 | a built tree is well shaped, holds `num_particles` per lobe, and every child is centred on its parent's lobe centre |
| TreeSpawn.Built | light.py:77-91 | a node with three lobes of `n` particles and well-built children in place is well built |
| TreeSpawn.InitBodyFacts | light.py:103-108 | a new particle has a radius in [2, 4) and lies at exactly `lobe_radius - r` from the lobe centre; in isolated.py it starts with energy `0.5 * (0.3 u)²`, never hot |
| TreeSpawn.ScaledBelow | light.py:86-87 | repeated scaling by 0.4 keeps a nonnegative radius within [0, radius] |
| TreeSpawn.InitLobeFacts | light.py:99-108 | every new particle of a lobe at least 4 wide is smaller than its lobe and inside it |
| TreeSpawn.InitParticlesFit | light.py:98-108 | every new particle of a node is smaller than its lobe and inside it |
| TreeSpawn.SpawnFits | light.py:70-108 | when the smallest lobes are at least 4 wide, every particle of a built tree is smaller than its lobe and inside it |
| TreeSpawn.Fitted | light.py:98-108 | a node whose own particles and children fit, fits |
| TreeSpawn.MainTree | light.py:179 | the root tree of `main` is well shaped, fits, has every particle inside and its children anchored, and holds 2730 (light.py) or 1638 (isolated.py) particles |
| TreeTick.Advance | light.py:126-136 | `update` up to the demon; AdvanceLobes, AdvanceKeeps and AdvancePlaces state its order and what it keeps |
| TreeTick.Tick | light.py:126-139 | `update` on values, returning the new tree and the tones; TickKeeps, TickSorted, TickSettlesChildren, TickPlaces and TickTones state its properties |
| TreeTick.Offsets | light.py:126-136 | the draw order of one tick is the own particles lobe by lobe, then the children row by row, two draws per particle |
| TreeTick.RowOffsets | light.py:132-136 | the children of a row take their draws one after another, `2 * total_particles` each |
| TreeTick.WalkPlan | light.py:127-130 | the own particles of a node take their draws lobe by lobe before any child's |
| TreeTick.WalkedAt | light.py:127-130 | the first half of a tick turns by `dt * (1 + 0.3 level)`, steps every particle at its new lobe centre, and (isolated.py) requests their tones lobe by lobe |
| TreeTick.ChildPlans | light.py:131-136 | every row of children is updated at its lobe's new centre, from the draws after the previous row |
| TreeTick.ChildrenAt | light.py:131-136 | after the particle loop, each row's children are replaced by their own ticks, and their tones follow in order |
| TreeTick.StepKeepsRadius | light.py:46-64 | a particle update never divides by zero and keeps the radius |
| TreeTick.StepBodiesKeep | light.py:128-130 | updating a lobe keeps its length and every radius, and leaves every particle inside the lobe |
| TreeTick.TickKeeps | light.py:126-139 | a tick turns the node by exactly `dt * (1 + 0.3 level)`, moves it to its new centre, and keeps the shape, fit and particle counts |
| TreeTick.AdvanceLobes | light.py:126-136 | before the demon, each lobe's particles are stepped at the turned lobe centre, and each child is ticked at that centre with the draws after its predecessors |
| TreeTick.AdvanceKeeps | light.py:126-136 | the first part of a tick keeps the shape, the fit and the particle counts |
| TreeTick.TickSorted | light.py:139 | after `update` the whole tree is sorted, because the demon runs last |
| TreeTick.TickSettlesChildren | light.py:131-136 | each child's new state is its own tick at the current lobe centre |
| TreeTick.TickPlaces | light.py:126-139 | after a tick every child is centred on its parent's lobe centre and every particle is inside its lobe |
| TreeTick.AdvancePlaces | light.py:126-136 | the same holds before the demon runs |
| TreeTick.TickTones | isolated.py:130-146 | light.py requests no tones; isolated.py requests exactly `total_particles()` tones per tick, all well formed |
| TreeTick.OwnTonesCount | isolated.py:132-139 | a node's own particles request one well-formed tone each |
| TreeTick.ChildTonesCount | isolated.py:140-145 | the children request, in total, one well-formed tone per descendant particle |
| Spinner.Particle.constructor | light.py:35-38 | the new particle's state is `NewBody` of the arguments (light.py drops `vx`) |
| Spinner.Particle.KineticEnergy | light.py:43-44 | the particle's energy, never negative |
| Spinner.Particle.Speed | light.py:40-41 | `hypot(vx, vy)` is nonnegative and its square is twice the kinetic energy |
| Spinner.Particle.Update | light.py:46-64 | the new state is `Step` of the old one with the next two draws; two draws are taken |
| Spinner.Particle.Move | light.py:47-48 | the new state is the old one moved by `v * dt` |
| Spinner.Particle.Collide | light.py:50-60 | the new state is the bounce of the old one |
| Spinner.Particle.Jiggle | light.py:62-64 | the new state is the old one with the two-draw fluctuation; two draws are taken |
| Spinner.SpinnerNode.constructor | light.py:70-91 | the object tree built is the value tree `Spawn` of the arguments, from the draws starting at the generator's position, and it takes exactly the draws `Spawn` accounts for |
| Spinner.SpinnerNode.Snapshot | light.py:70-78 | the value of a node keeps its fields, three lobes of its particles and children, and is well shaped |
| Spinner.SpinnerNode.MaxwellsDemon | light.py:111-124 | the object tree afterwards is `DemonTree` of the tree before |
| Spinner.SpinnerNode.DemonOwn | light.py:112-119 | each own lobe is sorted against its current centre; the children are untouched |
| Spinner.SpinnerNode.DemonLobe | light.py:113-119 | one lobe is sorted; the other lobes and the children are untouched |
| Spinner.SpinnerNode.DemonRow | light.py:121-124 | every child of one row runs its demon; everything else is untouched |
| Spinner.SpinnerNode.Update | light.py:126-139 | the object tree and the tones afterwards are `Tick` of the tree before, at its centre; the tick takes two draws per particle of the tree |
| Spinner.SpinnerNode.Recentre | light.py:135-136 | `child.center = lc; child.update(dt)`: the child's tree and tones are its `Tick` at `lc` |
| Spinner.SpinnerNode.UpdateFrom | light.py:126-139 | the update of a node started from a known value `s` ends in `Tick(s)` |
| Spinner.SpinnerNode.Animate | light.py:126-136 | the turn, the particle loop and the child loops produce `Advance` of the tree before |
| Spinner.SpinnerNode.Walk | light.py:127-130 | turning and the particle loop leave the tree `Walked` and the tones `Sounded`, with the draws of the own particles taken |
| Spinner.SpinnerNode.StepOwn | light.py:128-130 | each lobe's particles are stepped at their new lobe centre from consecutive draws, requesting their tones in isolated.py |
| Spinner.SpinnerNode.StepLobe | light.py:129-130 | one lobe's particles are stepped and their tones requested; the other lobes and the children are untouched |
| Spinner.SpinnerNode.UpdateChildren | light.py:131-136 | the child loops replace every child by its tick at the current lobe centre, and return their tones in order |
| Spinner.SpinnerNode.UpdateRow | light.py:133-136 | one row's children are replaced by their ticks, in order; other rows and the own particles are untouched |
| Spinner.SpinnerNode.RowVisit | light.py:134-136 | one child is ticked at `lc`; its siblings are untouched |
| Spinner.SpinnerNode.TotalParticles | light.py:149-155 | the accumulated count is `Count` of the node's tree |
| Spinner.SpinnerNode.RowParticles | light.py:152-154 | the count from one row of children is that row's `Count` |
| Spinner.SpinnerNode.TotalEnergy | light.py:141-147 | the accumulated energy is `TotalEnergy` of the node's tree |
| Spinner.SpinnerNode.LobeEnergy | light.py:142 | the energy summed over one lobe is that lobe's energy |
| Spinner.SpinnerNode.RowTotalEnergy | light.py:143-146 | the energy from one row of children is that row's energy |
| Spinner.InitLobes | light.py:98-108 | `init_particles` makes three fresh lobes of particles, each around its centre from consecutive draws |
| Spinner.InitLobeParticles | light.py:102-108 | one lobe's particles are fresh, `InitBody` of three consecutive draws each |
| Spinner.Build | light.py:76-91 | the children and then the particles are made, from consecutive draws |
| Spinner.SpawnLobes | light.py:80-89 | three rows of three fresh children, each built at its lobe centre with scaled sizes |
| Spinner.LobeNext | light.py:81-89 | one more row of children at the next lobe centre |
| Spinner.SpawnRow | light.py:83-89 | one row of three children, one after another |
| Spinner.SpawnNext | light.py:84-89 | one more child of a row, from the draws after its elder siblings |
| Sound.Energy | sound.py:35-36 | kinetic energy `0.5 * (vx² + vy²)` is never negative |
| Sound.Initial | sound.py:32-33 | an initial velocity component lies in [-0.25, 0.25) |
| Sound.Spawned | sound.py:48 | a lobe starts with exactly 6 particles, each component in [-0.25, 0.25) |
| Sound.Jiggled | sound.py:38-41 | `Particle.update` changes each component by an amount in [-0.01, 0.01) |
| Sound.Jiggle | sound.py:53-54 | jiggling a lobe keeps its length |
| Sound.Nudged | sound.py:58-61 | `vy` is kept; `vx` rises by 0.01 exactly when the energy exceeds the mean, and falls by 0.01 exactly otherwise |
| Sound.Demon | sound.py:57-61 | the nudge loop keeps the lobe's length |
| Sound.Total | sound.py:56 | `sum(p.kinetic_energy() ...)`; TotalNonnegative and TotalAbove state its bounds |
| Sound.Mean | sound.py:56 | the sum divided by 6; SomeNotAbove states that some particle is not above it |
| Sound.LobeStep | sound.py:52-61 | `Lobe.update` on values: jiggle, then nudge against the mean; DemonPushes, SomeCooled and LobeStepBounded state its properties |
| Sound.DemonPushes | sound.py:56-61 | each particle is classified against the mean of the jiggled energies before its own nudge, and only its `vx` moves by ±0.01 |
| Sound.TotalAbove | sound.py:56 | if every energy exceeds `a`, their sum exceeds `n * a` |
| Sound.TotalNonnegative | sound.py:56 | the summed energy is nonnegative |
| Sound.SomeNotAbove | sound.py:56-58 | with 6 particles and divisor 6, not every particle can exceed the mean |
| Sound.SomeCooled | sound.py:52-61 | every `Lobe.update` nudges at least one particle by -0.01 |
| Sound.LobeStepBounded | sound.py:52-61 | a lobe update keeps the length and moves `vx` by an amount in [-0.02, 0.02) and `vy` by an amount in [-0.01, 0.01) |
| Sound.Played | sound.py:108-110 | the tone of one particle: `Frequency`, `Volume` and the lobe's pan |
| Sound.LobeTones | sound.py:107-110 | the tones of one lobe in order; LobeTonesBounded states their number and bounds |
| Sound.LobeTonesBounded | sound.py:107-110 | a lobe plays one tone per particle, in order, each at or above the base frequency, with a volume in [0, 1] and the lobe's pan |
| Sound.FrameTonesBounded | sound.py:106-110 | a frame plays 18 tones; tone `k` belongs to lobe `k / 6`, is at or above its base frequency, has a volume in [0, 1] and that lobe's pan |
| Sound.MotionsOf | sound.py:53 | the velocities of a list of particles, one per particle in order |
| Sound.Particle.constructor | sound.py:31-33 | the new particle's velocity is `Created` of the next two draws; two draws are taken |
| Sound.Particle.KineticEnergy | sound.py:35-36 | the particle's energy, never negative |
| Sound.Particle.Update | sound.py:38-41 | the new velocity is `Jiggled` of the old one with the next two draws; two draws are taken |
| Sound.Lobe.Motions | sound.py:48 | a lobe always holds exactly 6 particles |
| Sound.Lobe.constructor | sound.py:47-50 | six fresh distinct particles from consecutive draws, with the given base frequency and pan |
| Sound.Lobe.Update | sound.py:52-61 | the new velocities are `LobeStep` of the old ones, from the next 12 draws |
| Sound.Lobe.JiggleAll | sound.py:53-54 | every particle is jiggled with its own two consecutive draws |
| Sound.Lobe.MeanEnergy | sound.py:56 | the accumulated sum over 6 is `Mean` of the lobe's velocities |
| Sound.Lobe.PushAll | sound.py:57-61 | every particle is nudged against the same mean |
| Sound.Lobe.Tones | sound.py:107-110 | the tones computed in the loop are `LobeTones` of the lobe |
| Sound.Setup | sound.py:85-89 | three separate lobes at 220, 330 and 440 Hz with pans 0.1, 0.5 and 0.9, made from consecutive draws |
| Sound.UpdateAll | sound.py:102-103 | every lobe is updated once, in order, from consecutive draws |
| Sound.UpdateOne | sound.py:103 | one lobe is updated; the other lobes keep their velocities |
| Sound.PlayAll | sound.py:106-110 | the tones of a frame are each lobe's tones, lobe after lobe |

The lemmas TreeSpawn.SpawnIs, TreeSpawn.AfterIs, TreeSpawn.LobeDrawsNext, TreeTick.SettledIs,
TreeTick.WalkedChildren, TreeTick.LobeTonesSnoc, TreeTick.CongruentTrans and TreeDemon.DemonLobes
have no row: they unfold a definition or chain two facts for the proofs that the classes
perform the value functions.

## Left out

- The pygame window, drawing, fonts, the event loop, and `render` and `main` in each script.
  The model keeps the constants they pass (`ARM_LENGTH`, `LOBE_RADIUS`, `max_level` 2) and
  builds the root tree they build. They are input and output.
- Mixer initialisation, the sine synthesis by numpy `sin`/`linspace`, the `int16` conversion,
  `make_sound` and `play`: foreign audio code and floating point. The model has the tone's
  parameters, its sample count and the stereo split of an input waveform.
- `math.cos`, `math.sin` and `math.hypot` are inputs with their defining equations. No
  trigonometric identity is proved.
- `random.random()` and `random.seed(42)` are an input stream of draws in [0, 1). The exact
  trajectory of seed 42 is not modelled.
- Float rounding: the model computes over exact reals. Sums are taken in the scripts' order
  (this node's particles lobe by lobe, then the children), but nothing is claimed about
  rounding.
- `main` builds three root spinners from one generator, and sums their counts and energies.
  The model has one root tree per call. The three roots differ only in where their draws
  start.
- Kinetics.Step: in the source, a particle at distance 0 from its lobe centre would raise
  `ZeroDivisionError` at `dx / dist`. The model requires the division to be defined
  (`Divides`) instead of modelling the exception. `StepInside` proves that a particle
  smaller than its lobe never reaches that case.
- Spinner.SpinnerNode.Update: it requires the node's particles to fit their lobes. Every
  tree the constructor builds for `main` does (`TreeSpawn.MainTree`), and every tick keeps it
  so (`TreeTick.TickKeeps`).
- The aliasing of `child.center = lc`, where one list is shared by the three children of a
  lobe in isolated.py, is not modelled: no code mutates a centre in place. A centre is a value.
