# Tank demo core: particle pool, input state, park placement

A Dafny model of the three pieces of logic in a browser tank demo that do more than build three.js objects:

- **Dust particle pool** (`src/effects/ParticleSystem.ts`). The pool has a fixed number of slots. Each slot's position, size, opacity and remaining lifespan live in parallel in-place buffers. A slot whose lifespan is at most zero is free. `emitParticles` scans from slot 0 upward and claims free slots until it has emitted `count` particles. `update` ages every live slot by one tick. Module `Particles`: class `ParticleSystem` keeps the four buffers as arrays. Its methods are proved against the pure functions `Emitted` and `Aged` over the abstract pool (a `seq<Particle>`). The lemmas about those functions state what the source promises.
- **Keyboard/mouse input state** (`src/controls/TankControls.ts`). Module `Controls`: class `TankControls` has the fields `moveState`, `moveVector`, `rotationVector`, `keys`, `mouseDragOn` and `mouseStatus`. Its event methods update those fields. `Consistent` is the invariant kept between events: the two vectors match the flags, key flags are 0 or 1, and pitch and yaw flags are zero unless a drag is in progress.
- **Park placement** (`src/components/environment/ParkElements.ts`). Module `Park`: class `ParkElements` holds the group of placed elements. Its methods place 15 trees and 5 benches. The centre-avoidance rule is the pure function `AvoidCentre`.

Modelling conventions:
- `Math.random()` is a caller-supplied stream `rand: nat -> real`. The k-th call returns `rand(k)`. `UnitDraws(rand)` states the generator's promise that every value lies in [0, 1).
- In `emitParticles`, the k-th claimed slot uses draws 7k to 7k+6. They are taken in the source's order: x, y and z jitter, upward bias, size, opacity, lifespan.
- In `update`, the k-th live slot uses draws 2k (x drift) and 2k+1 (z drift).
- Trees use draws 0 to 29, x then z for each tree. Benches use the rest of the stream: x, z, then heading.
- Float32 and double values are reals. `Math.PI` is the double literal 3.141592653589793.
- The emission and update loops write each slot through the methods `SpawnInto` and `AgeSlot`. Those store all of a slot's new values in one step, where the source updates field by field with `+=`; the final buffer contents are the same.
- The key handlers apply their switch through the functions `Pressed` and `Released`. The code-to-flag mapping is defined once, in `FlagOf`.

Facts about the code that the model makes explicit:
- No vehicle-stepping logic exists. `TankModel.update` is empty (src/components/tank/TankModel.ts:83-85), so there is no velocity, heading, turret or cannon rule to model.
- Over the reals, the spawn ranges are half-open, because `Math.random()` never returns 1. Lifespan is in [30, 60), size in [0.2, 0.5) and opacity in [0.7, 1.0). The vertical offset is in [-0.05, 0.1), because the upward bias adds up to 0.05. The buffers are `Float32Array`s, though, and storing a draw close enough to 1 rounds the top values to exactly 60, 0.5 and 1.0. The upper bounds are therefore closed in the source and strict only in the model.
- In the model a lifespan never reaches 60 (`Bounded`), so opacity after an update stays below 1. With Float32 storage a lifespan can be exactly 60, and opacity after an update then stays at or below 59/60.
- Lifespans are fractional, so the last tick leaves a lifespan in (-1, 0] and an opacity in (-1/60, 0]. The buffers can therefore hold a slightly negative opacity for a free slot.
- Opacity does not fall monotonically over a particle's life. Emission draws opacity independently of the lifespan, while the first update sets it to (lifespan − 1)/60. That is higher whenever the spawned lifespan exceeds 60 × opacity + 1, e.g. opacity 0.7 with lifespan 59.7 becomes 58.7/60 (`FirstUpdateCanBrighten`). From then on each update lowers it strictly (`FadesWhileLive`).

## Model

| member | source | states |
|---|---|---|
| `Particles.ParticleSystem.constructor` | src/effects/ParticleSystem.ts:15-31 | allocates four fresh buffers sized to `count`. Every slot is left inactive: position (0,0,0), size 0.1, opacity 0, lifespan 0 |
| `Particles.FreshPoolIsEmpty` | src/effects/ParticleSystem.ts:23-31 | the freshly built pool has every slot free, no live slot, and satisfies the lifespan/opacity bounds |
| `Particles.FreeCount` | src/effects/ParticleSystem.ts:105 | the number of free slots (lifespan <= 0) never exceeds the pool size |
| `Particles.ParticleSystem.EmitParticles` | src/effects/ParticleSystem.ts:102-129 | the new pool is exactly `Emitted(old pool, position, count, rand)`. The `direction` argument does not occur in the result |
| `Particles.ParticleSystem.SpawnInto` | src/effects/ParticleSystem.ts:107-125 | slot i of the buffers receives exactly the particle spawned from draws 7k to 7k+6. Every other slot is unchanged |
| `Particles.Claimed` | src/effects/ParticleSystem.ts:104-105 | a claimed slot is free, and its rank among the free slots is below min(count, free slots), the number the emission obtains |
| `Particles.Spawn` | src/effects/ParticleSystem.ts:107-125 | for each field whose own draw lies in [0,1): lifespan in [30,60), so the slot is live; size in [0.2,0.5); opacity in [0.7,1.0); x and z within ±0.05 of the origin; y offset in [-0.05,0.1) when both of its draws do |
| `Particles.Emitted` | src/effects/ParticleSystem.ts:104-128 | the pool keeps its size, and every live slot is left exactly as it was: only free slots are rewritten |
| `Particles.EmitActivates` | src/effects/ParticleSystem.ts:104-129 | the number of live slots grows by exactly min(count, free slots), with a non-positive count claiming none. It therefore grows by at most `count` |
| `Particles.EmitClaimsLowestFree` | src/effects/ParticleSystem.ts:104-105 | claims are lowest index first: every free slot below a claimed slot is claimed too |
| `Particles.EmitClaimOrder` | src/effects/ParticleSystem.ts:104-127 | a claimed slot's rank among the claims is below min(count, free slots), and a lower-indexed claimed slot takes earlier random draws than a higher one |
| `Particles.EmitStopsClaiming` | src/effects/ParticleSystem.ts:104 | once `count` free slots lie below an index, no slot from there on is claimed |
| `Particles.SpawnRanges` | src/effects/ParticleSystem.ts:107-125 | for draws in [0,1): lifespan in [30,60), size in [0.2,0.5), opacity in [0.7,1.0), x and z within ±0.05 of the origin, y offset in [-0.05,0.1) |
| `Particles.EmittedSlot` | src/effects/ParticleSystem.ts:107-125 | a claimed slot holds the particle spawned from its own draws, with every field in the ranges above |
| `Particles.EmitNothing` | src/effects/ParticleSystem.ts:104-105 | with no free slot, or a request for no particles, emission leaves the pool unchanged and raises nothing |
| `Particles.EmitKeepsBounded` | src/effects/ParticleSystem.ts:123-125 | emission keeps every lifespan in (-1,60) and every opacity in (-1/60,1) |
| `Particles.FourSlotScenario` | src/effects/ParticleSystem.ts:104-129 | in a 4-slot pool, two emissions of 2 make all 4 slots live, and a third emission of 1 changes nothing |
| `Particles.ParticleSystem.Update` | src/effects/ParticleSystem.ts:136-150 | the new pool is exactly `Aged(old pool, rand)`. Sizes are not written |
| `Particles.ParticleSystem.AgeSlot` | src/effects/ParticleSystem.ts:138-148 | slot i of the buffers receives exactly one `Tick` of its old value, drifting by draws 2k and 2k+1. Its size and every other slot are unchanged |
| `Particles.Aged` | src/effects/ParticleSystem.ts:137-143 | a free slot is left entirely untouched. A live slot loses exactly 1 of lifespan, gets opacity = new lifespan / 60, and keeps its size |
| `Particles.Tick` | src/effects/ParticleSystem.ts:139-148 | one tick takes exactly 1 off the lifespan, sets opacity to the new lifespan / 60, keeps the size and raises y by 0.01. For draws in [0,1), x and z drift by less than 0.005 either way |
| `Particles.FirstUpdateCanBrighten` | src/effects/ParticleSystem.ts:124-143 | a particle spawned with opacity 0.7 and lifespan 59.7 has the higher opacity 58.7/60 after one update |
| `Particles.FadesWhileLive` | src/effects/ParticleSystem.ts:138-143 | a live slot whose opacity is lifespan/60 has strictly lower opacity after an update, and still has opacity = lifespan/60 |
| `Particles.AgingNeverActivates` | src/effects/ParticleSystem.ts:137-140 | an update never increases the number of live slots |
| `Particles.AgeKeepsBounded` | src/effects/ParticleSystem.ts:138-143 | an update keeps every lifespan in (-1,60) and every opacity in (-1/60,1) |
| `Particles.LifespanAfterUpdates` | src/effects/ParticleSystem.ts:138-140 | after n updates, a live slot with lifespan l > n-1 has lifespan exactly l-n. One with 0 < l <= n-1 rests in (-1,0]. A free slot keeps its lifespan |
| `Particles.EmittedSlotLifetime` | src/effects/ParticleSystem.ts:125-140 | a freshly claimed slot stays live through the next 29 updates and is free again after at most 60 |
| `Controls.TankControls.constructor` | src/controls/TankControls.ts:5-36 | all flags zero, both vectors zero, no keys recorded, no drag, pointer at (0,0), invariant established |
| `Controls.FlagOf` | src/controls/TankControls.ts:59-97 | a code drives a flag exactly when it is one of the 14 bound codes |
| `Controls.Set` | src/controls/TankControls.ts:62-95 | writing a key flag changes that flag only and never the pitch/yaw flags |
| `Controls.KeyBindings` | src/controls/TankControls.ts:59-97 | W/ArrowUp drive forward, S/ArrowDown back, A/ArrowLeft left, D/ArrowRight right, R/Space up, F/ShiftLeft down, Q roll left, E roll right |
| `Controls.Pressed` | src/controls/TankControls.ts:59-97 | key-down of a bound code sets its flag to 1 and leaves the other flags. An unbound code changes no flag. Pitch and yaw are never touched |
| `Controls.Released` | src/controls/TankControls.ts:106-144 | key-up of a bound code sets its flag to 0 and leaves the other flags. An unbound code changes no flag. Pitch and yaw are never touched |
| `Controls.AliasesShareFlag` | src/controls/TankControls.ts:107-135 | W/ArrowUp, S/ArrowDown, A/ArrowLeft, D/ArrowRight, R/Space and F/ShiftLeft share one flag. Releasing one alias clears the flag even while the other is held |
| `Controls.KeysKeepFlagsBinary` | src/controls/TankControls.ts:59-144 | key flags that are 0 or 1 stay 0 or 1 after any key-down or key-up |
| `Controls.MovementVector` | src/controls/TankControls.ts:189-193 | each component points toward the stronger key of its pair, with opposite keys cancelling: right is +x, up is +y, back is +z and forward is −z (both directions of each iff) |
| `Controls.RotationVector` | src/controls/TankControls.ts:195-199 | pitch up is +x, yaw left is +y and roll left is +z, with opposite flags cancelling (both directions of each iff) |
| `Controls.MovementVectorSteps` | src/controls/TankControls.ts:189-193 | each movement component is -0.5, 0 or 0.5. It is +0.5 exactly when only the positive key of its pair (right, up, back) is down, and -0.5 exactly when only the negative one is |
| `Controls.RollSteps` | src/controls/TankControls.ts:195-198 | the roll component is -0.5, 0 or 0.5: +0.5 exactly when only Q is down, -0.5 exactly when only E is |
| `Controls.Split` | src/controls/TankControls.ts:181-184 | a coordinate splits into two non-negative flags, at most one of them nonzero, with positive − negative = the coordinate |
| `Controls.Steered` | src/controls/TankControls.ts:181-184 | a drag keeps every key flag. The look flags become non-negative with at most one per axis nonzero, and yaw right − yaw left = x, pitch down − pitch up = y |
| `Controls.Unsteered` | src/controls/TankControls.ts:161-164 | releasing the drag zeroes all four look flags and keeps the key flags. The rotation vector is left with roll only, and the movement vector is unchanged |
| `Controls.SteeringRotation` | src/controls/TankControls.ts:181-186 | after a drag to (x,y), rotation x = -y/2 and rotation y = -x/2. Roll and the movement vector are unchanged |
| `Controls.NoLookWithoutDrag` | src/controls/TankControls.ts:156-167 | under the invariant, with no drag in progress, rotation x and y are 0 |
| `Controls.TankControls.UpdateMovementVector` | src/controls/TankControls.ts:189-193 | the movement vector is recomputed from the flags. Nothing else changes |
| `Controls.TankControls.UpdateRotationVector` | src/controls/TankControls.ts:195-199 | the rotation vector is recomputed from the flags. Nothing else changes |
| `Controls.TankControls.OnKeyDown` | src/controls/TankControls.ts:54-101 | a repeated event changes nothing. Otherwise `keys[code]` becomes true and the flags become `Pressed(flags, code)`. The drag state is untouched and the invariant is kept |
| `Controls.TankControls.OnKeyUp` | src/controls/TankControls.ts:103-148 | `keys[code]` becomes false and the flags become `Released(flags, code)`. The drag state is untouched and the invariant is kept |
| `Controls.TankControls.OnMouseDown` | src/controls/TankControls.ts:150-154 | only button 0 turns the drag on. Nothing else changes |
| `Controls.TankControls.OnMouseUp` | src/controls/TankControls.ts:156-168 | button 0 ends the drag and zeroes pitch and yaw, so rotation x and y become 0. Other buttons change nothing |
| `Controls.TankControls.OnMouseMove` | src/controls/TankControls.ts:170-187 | without a drag it changes nothing. During a drag it records the pointer and sets the pitch/yaw flags to the split of (x, y) |
| `Park.PushOut` | src/components/environment/ParkElements.ts:26-27 | moves a coordinate exactly 5 further from zero in its own direction; zero goes to the negative side (−5) |
| `Park.AvoidCentre` | src/components/environment/ParkElements.ts:25-28 | the result is never in the central square. A point outside the square is kept. A point inside ends with 5 <= \|x\| < 10 and 5 <= \|z\| < 10. Height is kept |
| `Park.RawTreePosition` | src/components/environment/ParkElements.ts:18-22 | a tree before centre avoidance is at height 0. For draws in [0,1), both coordinates lie in [-20,20) |
| `Park.TreePosition` | src/components/environment/ParkElements.ts:18-28 | a tree is at height 0 and never in the central square. For draws in [0,1), both coordinates lie in [-20,20) |
| `Park.BenchAt` | src/components/environment/ParkElements.ts:71-78 | a bench is at height 0. For draws in [0,1), its coordinates lie in [-15,15) and its heading in [0, 2π) |
| `Park.Trees` | src/components/environment/ParkElements.ts:14-28 | exactly 15 trees, all at height 0 and none in the central square |
| `Park.Benches` | src/components/environment/ParkElements.ts:67-78 | exactly 5 benches, all at height 0 |
| `Park.LayoutInBounds` | src/components/environment/ParkElements.ts:12-82 | for draws in [0,1), every tree lies in [-20,20)², every bench lies in [-15,15)², and every heading is in [0, 2π) |
| `Park.GroupInBounds` | src/components/environment/ParkElements.ts:6-10 | for draws in [0,1), the constructed group has 20 elements, all on the ground inside [-20,20)². Its benches, placed from the draws after the trees', lie inside [-15,15)² with headings in [0, 2π) |
| `Park.ParkElements.constructor` | src/components/environment/ParkElements.ts:6-10 | the group holds the 15 trees from the first 30 draws, followed by the 5 benches from the draws after them |
| `Park.ParkElements.CreateTrees` | src/components/environment/ParkElements.ts:12-32 | appends exactly `Trees(rand)` to the group |
| `Park.ParkElements.CreateBenches` | src/components/environment/ParkElements.ts:65-82 | appends exactly `Benches(rand)` to the group |

## Left out

- Rendering is not modelled: the shader material and its GLSL text, the canvas dust texture (`createDustTexture`), the `THREE.BufferAttribute` objects and the `needsUpdate` flags. They are rendering-engine calls with no effect on slot contents.
- Float32 rounding is not modelled: buffer values are exact reals. `Particles.SpawnRanges`, `Particles.Spawn` and `Particles.EmittedSlot` state strict upper bounds (lifespan < 60, size < 0.5, opacity < 1) that hold over the reals. Float32 storage can round those top values to exactly 60, 0.5 and 1.0.
- `Math.random()` is not a real generator here: it is a caller-supplied stream of values.
- `Particles.ParticleSystem.constructor`: takes a natural `count` and has no default. The source defaults it to 500. A negative count makes the typed-array constructor throw a RangeError. A fractional count is truncated for the buffer lengths while `particleCount` keeps the fraction, so the loops run past the buffers and those writes are dropped. The model represents neither case.
- `Particles.ParticleSystem.EmitParticles`: has no default for `count`. The source defaults it to 3.
- `Particles.ParticleSystem.EmitParticles`: takes an integer `count`. A fractional count in the source claims ceil(count) slots, and the model does not cover it.
- DOM listener registration (`initKeyboardControls`, `initMouseControls`) and `dispose` are not modelled: they are browser I/O. `dispose` passes fresh `bind` results, so it never actually removes the listeners; that cannot be expressed without a DOM model.
- The page geometry used to normalise the mouse is not modelled. `OnMouseMove` takes the normalised x and y directly. A zero-width or zero-height page, which gives NaN or ±Infinity in the source, is not represented.
- `keys` is written on every key-up and every non-repeated key-down, but never read in the source. The model records it and proves nothing further about it.
- `createTree` and `createBench` mesh construction are not modelled: geometry, materials and shadows. An element is only its position, plus a heading for benches.
- src/components/tank/TankModel.ts is not part of this model: it is mesh construction, and its `update` is empty.
- src/components/environment/Terrain.ts, src/components/environment/Skybox.ts, src/components/scene/SceneSetup.ts, src/controls/CameraFollow.ts, src/utils/AudioManager.ts and src/index.ts are not part of this model: they are trigonometric geometry, lighting, camera interpolation, audio loading and the render loop.
