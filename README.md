# Chladni particle engine

This project is a Dafny model of the particle engine of the *roomOfSilence* p5.js sketch (`sketch.js`). A fixed pool of 10000 particles random-walks over the unit square. The walk amplitude of each particle comes from a closed-form Chladni standing wave. Three controls shape each frame: equity, climate and surveillance.

In every frame the engine does four things:
- It recomputes the tunables from the sliders (`updateParams`).
- It visits the first `N` particles from the highest index down (`moveParticles`).
- It moves each visited particle (`move`, then `updateOffsets`) and draws it (`show`). Drawing drifts the hue toward a climate-dependent target, ties saturation to age, and picks a stroke width from a fixed decision table.
- It replaces each particle whose age has fallen to -5 or below: the particle is spliced out and a newborn is pushed at the end.

The project is organised as follows:

| file | module | contents |
|---|---|---|
| `wrappers.dfy` | `Wrappers` | `Option`, the stand-in for the sketch's `null` stroke width |
| `p5_math.dfy` | `P5Math` | p5's `abs`, `map` and `random(lo, hi)`; `random` takes the unit draw as an argument |
| `field.dfy` | `Field` | the Chladni field; `sin` is a parameter |
| `controls.dfy` | `Controls` | the sliders, the tunables and `updateParams` |
| `stroke.dfy` | `Stroke` | the stroke-width decision table of `show`, plus a data form of the same table |
| `particle_spec.dfy` | `ParticleSpec` | a particle's fields as a value; what the constructor, `move`, `updateOffsets` and `show` make of them |
| `particle.dfy` | `Particles` | class `Particle`, which updates its fields in place; each method is proved against `ParticleSpec` |
| `pool_spec.dfy` | `PoolSpec` | the pool as a value; the closed form of one sweep of `moveParticles` and its draw calls |
| `pool.dfy` | `Pool` | class `Sketch`, which owns the sequence of particles and the tunables and runs `setupParticles`, `updateParams`, `moveParticles` and `draw` |

The `Particle` methods and `moveParticles` change state step by step in the source. In the model they are methods on classes. Each one's `ensures` ties the new state to a `ParticleSpec` or `PoolSpec` function of the old state, and the lemmas state what the source promises about those functions. `moveParticles` keeps the reverse `for` loop, the `splice` and the `push`. Its loop invariant states that the pool equals the closed form restricted to the particles already visited.

## Model

| member | source | states |
|---|---|---|
| P5Math.Abs | sketch.js:153-156 | p5 `abs` is non-negative and is either the value or its negation |
| P5Math.Random | sketch.js:142-160 | p5 `random(lo, hi)` for a unit draw returns a value between the two bounds, whichever is larger |
| P5Math.RemapEndpoints | sketch.js:421-425 | p5 `map` sends the source bounds to the target bounds |
| P5Math.RemapRoundTrip | sketch.js:421-425 | p5 `map` with distinct bounds is inverted by the map with the bounds swapped |
| P5Math.RemapWithin | sketch.js:164 | a value between the source bounds is mapped between the target bounds |
| Field.ChladniBounded | sketch.js:66-68 | with a sine bounded by one, `chladni` lies in [-(\|a\|+\|b\|), \|a\|+\|b\|] |
| Controls.TunablesInRange | sketch.js:417-426 | for controls in [1, 10]: m and n lie in [1, 40], v in [0.001, 0.05] and uniColor in [0, 260]; the controls and N are stored as read |
| Controls.ClimateOrdersGainAndHue | sketch.js:423-425 | a higher climate gives a strictly smaller walk gain v and a strictly larger target hue |
| Controls.TunablesRecoverControls | sketch.js:421-425 | m, n, v and uniColor each determine their slider value: mapping them back gives the control |
| Stroke.StrokeWidth | sketch.js:257-338 | every chosen width is in {1,2,4,6,10,30,50}; the width is `null` exactly for equity > 10, ratio > 5 in the (4,5] band, or ratio > 7.1 in the (5,7] band; for equity <= 2 it is 2 when the ratio is <= 1.5 and 4 otherwise |
| Stroke.WidthChosenForUnitStroke | sketch.js:257-338 | for a stroke in [0, 1] and equity <= 10, a width from the set is always chosen |
| Stroke.StrokeWidthMatchesTable | sketch.js:257-338 | the if-chain equals a lookup in a table of (equity band, ratio rows, fallback): first band whose bound admits equity, first row whose bound admits the ratio |
| ParticleSpec.Spawn | sketch.js:141-167 | a new particle lies in the unit square, at rest, with age in [1000, 5000], stroke (5000 - age)/4000, hue between \|currentHue-5\| and \|currentHue+5\|, colorDif = currentHue - h, s and b in [75, 100], and offsets that match the position |
| ParticleSpec.Offsets | sketch.js:211-223 | after `updateOffsets` the position lies in the unit square; a position already inside is unchanged; the offsets are the positions scaled by half the canvas and lie in [0, W/2] x [0, H/2]; no other field changes |
| ParticleSpec.OffsetsIdempotent | sketch.js:211-223 | applying `updateOffsets` twice is the same as applying it once |
| ParticleSpec.Walk | sketch.js:169-207 | `move` before its `updateOffsets`: amplitude >= minWalk, previous position = old position, each coordinate moves by at most the amplitude, age decays as `DecayedAge` says; no other field changes |
| ParticleSpec.MoveContract | sketch.js:169-209 | after `move` the particle is in the unit square, remembers its old position, has moved by at most its amplitude (the clamp only shortens the step), decayed its age, and kept its stroke, hue, colour offset, saturation, brightness and colour |
| ParticleSpec.AmplitudeBounded | sketch.js:185-190 | with a unit-bounded sine and v >= 0 the amplitude is at most max(2v, minWalk) |
| ParticleSpec.AgeDecays | sketch.js:204-206 | with stroke, equity >= 0 age never increases; above -10 it falls by exactly stroke * equity, at or below -10 it is unchanged |
| ParticleSpec.ClampHue | sketch.js:235-239 | the clamp returns a hue in [0, 260] and leaves a hue already in range unchanged |
| ParticleSpec.UpdatedHue | sketch.js:229-249 | the hue after both adjustments of `show` lies in [0, 260] |
| ParticleSpec.HueReachesTarget | sketch.js:232-249 | with no colour change the hue lands exactly on a target inside [0, 260] |
| ParticleSpec.HueChangeMultiplicity | sketch.js:232-249 | because the second adjustment always runs, for a non-negative colour change a hue above the target ends at target + 3 × change and a hue at or below it ends at target + change; for a negative change every hue ends at target + change (in each case when nothing clamps) |
| ParticleSpec.NegativeColorDifOccurs | sketch.js:153-157 | a particle spawned with a hue above the climate hue has a negative colour offset, so the negative case of the hue update is reachable |
| ParticleSpec.Hued | sketch.js:229-249 | the hue block changes only the hue and leaves it in [0, 260] |
| ParticleSpec.Saturated | sketch.js:251-254 | saturation becomes age / 5 and the colour is rebuilt from h, s, b with alpha 100; nothing else changes |
| ParticleSpec.Shown | sketch.js:225-254 | `show` leaves hue in [0, 260], saturation = age / 5, colour = [h, s, b, 100], and every other field unchanged |
| ParticleSpec.Marks | sketch.js:345-373 | four marks: lines from the current to the previous offsets when surveil > 8.5, points otherwise; marks 2-4 mirror the first across one or both midlines |
| ParticleSpec.MarksFillQuadrants | sketch.js:345-373 | for a well-formed particle the four marks start in the four quadrants of the canvas, one each |
| ParticleSpec.Weight | sketch.js:259-338 | the stroke weight is the table entry at ratio stroke * equity; when one is chosen it is in the width set |
| ParticleSpec.Render | sketch.js:341-373 | a draw call carries a width from the set (when one is chosen), the particle's colour and its four marks |
| ParticleSpec.RenderedWidthChosen | sketch.js:149-164 | a well-formed particle always gets a width while equity <= 10, because its stroke lies in [0, 1] |
| ParticleSpec.StepPreservesWellFormed | sketch.js:433-434 | one turn (`move` then `show`) keeps a particle well-formed (position and previous position in the unit square, stroke in [0, 1], offsets matching) and keeps its stroke |
| Particles.Particle.constructor | sketch.js:141-167 | the new particle's fields are `Spawn(climate, draws)`, so it is well-formed |
| Particles.Particle.UpdateOffsets | sketch.js:211-223 | the fields become `Offsets` of the old fields |
| Particles.Particle.Move | sketch.js:169-209 | the fields become `Moved` of the old fields, prevX/prevY are the old x/y, and the amplitude is at least minWalk |
| Particles.Particle.Stir | sketch.js:171-190 | only the amplitude changes, to `Amplitude(v, chladni at the particle)` |
| Particles.Particle.Age | sketch.js:204-206 | only age changes, to `DecayedAge` of the old age |
| Particles.Particle.Show | sketch.js:225-374 | the fields become `Shown` of the old fields, and the returned draw call is `Render` of the new fields |
| Particles.Particle.DriftHue | sketch.js:229-249 | the fields become `Hued` of the old fields |
| Particles.Particle.Saturate | sketch.js:251-254 | the fields become `Saturated` of the old fields |
| Particles.Particle.Emit | sketch.js:257-373 | the returned draw call is `Render` of the fields, which are unchanged |
| PoolSpec.SliceCount | sketch.js:429 | the length of `slice(0, N)`: N when 0 <= N <= length, the whole length when N is larger, length + N for a negative N down to 0 |
| PoolSpec.Kept | sketch.js:432-441 | the survivors of the visited particles are at most as many as visited, and all are alive |
| PoolSpec.Respawned | sketch.js:435-440 | at most one replacement is pushed per visited particle |
| PoolSpec.Emitted | sketch.js:432-434 | one draw call per visited particle |
| PoolSpec.KeptConcat | sketch.js:432-441 | survivors keep their relative order: survivors of a + b are those of a then those of b, while replacements of b come before those of a |
| PoolSpec.NoDeathKeepsAll | sketch.js:432-441 | when no visited particle dies, each stays in place after its turn and nothing is replaced |
| PoolSpec.KeptRespawnedLength | sketch.js:432-441 | every visited particle is either kept or replaced one for one |
| PoolSpec.SweptLength | sketch.js:428-442 | `moveParticles` keeps the pool length |
| PoolSpec.EmittedDescending | sketch.js:432-434 | each visited particle is drawn exactly once, after its own move, highest index first |
| PoolSpec.SweptCallsDescending | sketch.js:429-434 | a frame draws exactly min(N, length) particles, the j-th call being particle k-1-j after its turn |
| PoolSpec.TurnStepKeepsWellFormed | sketch.js:433-434 | a turn keeps every well-formed particle well-formed |
| PoolSpec.KeptWellFormed | sketch.js:432-441 | survivors of a well-formed prefix are well-formed |
| PoolSpec.NewbornFresh | sketch.js:438 | a replacement is well-formed, at rest, with age in [1000, 5000] |
| PoolSpec.RespawnedFresh | sketch.js:435-440 | every pushed replacement is a newborn |
| PoolSpec.SweptWellFormed | sketch.js:428-442 | a sweep keeps a well-formed pool well-formed |
| PoolSpec.UnvisitedUnchanged | sketch.js:429-432 | particles past the first N are not moved: they follow the survivors unchanged |
| PoolSpec.FullSweepLeavesNoDead | sketch.js:435-440 | when N covers the pool, no particle is left at age <= -5 after the sweep |
| PoolSpec.Initialised | sketch.js:130-136 | the pool built at setup has one newborn per draw, in order |
| PoolSpec.InitialisedWellFormed | sketch.js:130-136 | that pool has 10000 particles and all are well-formed |
| Pool.Sketch.constructor | sketch.js:130-136 | a sketch starts with climate 5 and a well-formed, distinct pool of 10000 newborns, in order |
| Pool.Sketch.SetupParticles | sketch.js:130-136 | the loop pushes one new particle per index; afterwards the pool's states are `Initialised(draws)` |
| Pool.Sketch.UpdateParams | sketch.js:417-426 | the tunables become `Controls.UpdateParams(sliders)`; the particles are untouched |
| Pool.Sketch.MoveParticles | sketch.js:428-442 | the pool's states become `Swept` of the old states and the returned draw calls are `SweptCalls`; the pool stays well-formed and made of distinct particles |
| Pool.Sketch.Visit | sketch.js:433-440 | one loop iteration: the particle takes its turn, and if its age is <= -5 it is spliced out and a newborn is pushed |
| Pool.Sketch.Turn | sketch.js:433-434 | `move` then `show` on particle i changes only that particle, to `Step` of its state, and returns its draw call |
| Pool.Sketch.Replace | sketch.js:436-439 | the pool becomes the old pool without index i, followed by a newborn |
| Pool.Sketch.Push | sketch.js:438-439 | a fresh particle is appended; the earlier particles and their states are unchanged |
| Pool.Sketch.Draw | sketch.js:463-467 | a frame reads the sliders, then sweeps the pool: tunables, pool and draw calls are as `UpdateParams`, `Swept` and `SweptCalls` give them |

## Left out

- `sin` inside `chladni` (sketch.js:66-68) is trigonometric floating point. The model passes it in as an uninterpreted `real -> real`; `Field.ChladniBounded` assumes only that it is bounded by one.
- `sketch.random` is a random source in the sketch. The model takes each unit draw as an input (`SpawnDraw`, `WalkDraw`, `UnitTurnDraw`) constrained to [0, 1]. A frame takes one walk draw and one spawn draw per particle index.
- p5 drawing and state calls (`colorMode`, `strokeWeight`, `stroke`, `line`, `point`, `background`, `createCanvas`, `frameRate`) are foreign rendering calls. `show` returns what it would draw as a `DrawCall` value instead.
- `wipeScreen` (sketch.js:410-414) only issues p5 drawing calls. `Pool.Sketch.Draw` models the other two steps of a frame.
- HandPose/ml5 callbacks, video capture, `drawHand` and `drawBoundingBox` are machine-learning, webcam and UI code, not part of the particle engine.
- Web Serial setup and callbacks, `mouseClicked` and the transmit throttling are device I/O.
- DOM slider reads are inputs: `Controls.Sliders` holds the values read in one frame. `num` is taken as an integer.
- All numbers are exact reals, not IEEE doubles. Rounding in `map`, the products and the breakpoint comparisons is not modelled.
- `A` and `strokeVar` (sketch.js:47, 54) are never used, and `kpSize` (sketch.js:32) only sizes the palm marker of the video sketch. None of them plays a part in the engine.
- Before the first `updateParams` the globals `equity`, `surveil`, `m`, `n`, `v`, `N` and `uniColor` are undefined in the sketch (sketch.js:37-38), while `climate` starts at 5 (sketch.js:40). The model starts those seven tunables at 0. `draw` always refreshes them before any particle reads them.
- The constructor leaves `stochasticAmplitude` undefined until the first `move`. The model starts it at 0.
- P5Math.Remap requires distinct source bounds. p5 would divide by zero there, and every call in the sketch passes two different constants.
- ParticleSpec.HueChangeMultiplicity states the result only where no clamp intervenes: the target is non-negative and the target plus the change (three times the change for a hue above the target when the change is non-negative) lies inside [0, 260]. Outside those ranges only the contract of `UpdatedHue` applies, which bounds the hue to [0, 260].
- The block after the empty `else if` (sketch.js:240-249) runs on every call, so a hue above the target is adjusted twice.
- `show` runs before the death check (sketch.js:434-435), so a particle is drawn on the frame in which it dies. The model keeps this order: `SweptCalls` includes the turns of particles that are then replaced.
