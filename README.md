# Locomotion core of the first-person walkthrough

This project models the avatar locomotion of the walkthrough in `src/main.js`. The avatar walks, jumps, falls and teleports over a navigable surface, the navmesh. The model covers:

- Input intents: the held-key flags set by the keyboard and the left touch stick, and the look orientation turned by the mouse and the right touch stick, with its pitch clamp.
- The per-frame movement update. It sums the velocity from the flags, normalises it to the current speed, and takes the horizontal step all-or-nothing against a walkability probe. Then comes gravity, with grounding against a downward probe and recovery after a fall through the world.
- Spawn placement, the teleport click, and the two navmesh arrivals: the loaded model and the backup box.

The navmesh is known only through its ray casts. A `Surface` maps a ray (origin, direction) to its first hit or to none, and the navmesh may be absent. The walkability and spawn probes start at the absolute height 100. The grounding probe starts 100 above the avatar. `ProbeDown` takes the origin height as an argument, so both kinds of probe are stated as written.

Modules:

- `Geometry` (`geometry.dfy`) holds vectors, surfaces, the downward probe, `checkIsOnNavmesh`, and the backup box seen as its top face.
- `Input` (`input.dfy`) holds the key flags, the pitch clamp, the look update, and the touch handlers as folds over `changedTouches`.
- `Locomotion` (`locomotion.dfy`) holds the avatar state and the movement rules as functions of that state, with lemmas about frame sequences.
- `Walkthrough` (`walkthrough.dfy`) holds the class `Session`. Its fields are the mutable state that `init()` closes over. Each handler is a method that writes only the fields its `modifies` names. Its `ensures` ties the new state to the functions above. Every handler keeps the invariant `Valid()`: the pitch lies in [-π/2, π/2], and a grounded avatar has zero vertical velocity.

Three behaviours of the code are easy to miss. The model follows the code:

- A placement probe that misses moves the avatar to the fallback but leaves `verticalVelocity` and `isOnGround` as they were. It does not clear `isOnGround`.
- A recovery whose probe misses keeps the fall velocity. On a navmesh with nothing under the recovery spot, recovery then repeats rather than firing once (`RecoveryKeepsFallVelocity`).
- Jumping from rest, the vertical velocity is 0.01 after frame 24 and exactly 0 after frame 25. So in the exact-real model the apex holds for two frames, `Rise(24) == Rise(25)`. In IEEE doubles, 25 subtractions of 0.01 from 0.25 need not give exactly 0, so this is a property of the exact-real model.

## Model

| member | source | states |
|---|---|---|
| `Geometry.CheckIsOnNavmesh` | src/main.js:799-805 | walkability at (x, z) holds exactly when the ray from (x, 100, z) along (0, -1, 0) strikes the surface |
| `Geometry.BackupBoxHits` | src/main.js:610-621 | every hit on the backup box is the ray's first point in the solid 50 × 0.1 × 50 box centred on the origin: it lies on the ray at a parameter t >= 0, inside the box, on its top face y = 0.05, and no point of the ray before t is inside the box |
| `Geometry.BackupBoxProbe` | src/main.js:610-621 | a downward probe from at or above the backup box's top face hits it at y = 0.05 straight below exactly when (x, z) lies within ±25, and misses otherwise |
| `Input.ClampPitch` | src/main.js:705 | the result lies in [-π/2, π/2]; it equals the input inside that range and the nearer bound outside it |
| `Input.Turn` | src/main.js:703-705 | yaw decreases by dx·sensitivity; pitch decreases by dy·sensitivity and is clamped to [-π/2, π/2], landing on the nearer bound when it overshoots and unclamped when already in range |
| `Input.SetFlag` | src/main.js:665-693 | the flag the code drives reads back as the value set; a code that drives no flag leaves the flag record unchanged |
| `Input.SetFlagExact` | src/main.js:665-693 | a key event changes no flag but the one its code drives (both shift codes drive the shift flag) |
| `Input.PressRelease` | src/main.js:665-693 | keydown and then keyup of a key that was not held restore the flag record exactly |
| `Input.StartStep` | src/main.js:716-723 | a free left stick is claimed by a touch on the left half, a free right stick by one on the right half, with the touch as reference point; a held stick, or one on the other half, keeps its touch and reference; flags and orientation are untouched |
| `Input.MoveStep` | src/main.js:728-745 | stick ownership, the left reference and shift are unchanged; the left stick's touch sets forward iff dy < -20, backward iff dy > 20, left iff dx < -20, right iff dx > 20, leaving the view and the right reference alone; the right stick's touch turns the view by its drag since the right reference at 0.005 per pixel and becomes the new reference, leaving the flags alone; a touch of neither stick changes nothing; a pitch in range stays in range |
| `Input.EndStep` | src/main.js:749-755 | ending the left stick's touch frees it and releases the four direction flags, keeping shift; any other touch leaves the left stick and the flags unchanged; the right stick's touch frees the right stick; orientation and reference points are untouched |
| `Input.TouchStart` | src/main.js:715-725 | a stick already held keeps its touch and reference point; flags and orientation are untouched |
| `Input.TouchStartClaimsLeft` | src/main.js:717-719 | a free left stick is claimed by the first changed touch on the left half, with that touch's point as reference |
| `Input.TouchMove` | src/main.js:727-746 | MoveStep applied to each changed touch in order: stick ownership, the left reference point and shift are unchanged, and a pitch in range stays in range |
| `Input.TouchMoveFlags` | src/main.js:729-735 | after a touchmove, the left stick's last touch fixes forward iff dy < -20, backward iff dy > 20, left iff dx < -20, right iff dx > 20; opposite flags are never both set |
| `Input.TouchMoveKeepsFlags` | src/main.js:728-746 | a touchmove without the left stick's touch leaves the flags unchanged |
| `Input.TouchMoveKeepsView` | src/main.js:736-743 | a touchmove without the right stick's touch leaves the view and the right reference point unchanged |
| `Input.TouchEnd` | src/main.js:748-757 | orientation, reference points and shift are unchanged |
| `Input.TouchEndReleases` | src/main.js:748-757 | a touchend that includes the left stick's touch frees the stick and releases all four direction flags; one that does not leaves the left stick and all flags exactly as they were |
| `Locomotion.Speed` | src/main.js:815 | the speed is 0.1, or 0.2 exactly when shift is held |
| `Locomotion.Accumulated` | src/main.js:809-819 | the summed velocity is horizontal (y = 0) and zero when no direction flag is held |
| `Locomotion.Displacement` | src/main.js:820-822 | the displacement is horizontal; a zero summed velocity is left as it is; a non-zero one is the summed velocity scaled by s / len, so it keeps its direction and has squared length s², non-zero for non-zero s |
| `Locomotion.HorizontalStep` | src/main.js:823-830 | y and the vertical state are untouched; the candidate (x, z) is kept iff the walkability probe there hits, and otherwise the avatar is exactly as before |
| `Locomotion.Place` | src/main.js:777-797 | no navmesh: position is the fallback; probe hit: the hit, at rest and grounded; miss: the fallback, with the vertical state unchanged |
| `Locomotion.Fall` | src/main.js:834-856 | gravity, then integration, first and unconditionally; then the four cases — reached ground (snapped, at rest, grounded), above ground (airborne), no hit at or above -50 (airborne), no hit below -50 (re-placed from (0, 10, 0)); grounded always means at rest |
| `Locomotion.Tick` | src/main.js:807-832 | with no player or no navmesh nothing changes; otherwise grounded means at rest |
| `Locomotion.Jump` | src/main.js:673-678 | a grounded avatar gets vertical velocity 0.25 and leaves the ground; an airborne one is unchanged |
| `Locomotion.NoDoubleJump` | src/main.js:673-678 | a second jump before landing changes nothing, and a jump from the ground always changes the state |
| `Locomotion.Teleport` | src/main.js:763-773 | without look control or a navmesh nothing changes; a hit sets the position to the hit exactly and stops vertical motion; a miss changes nothing; isOnGround is never touched |
| `Locomotion.TeleportThenSettles` | src/main.js:763-773 | a teleport down onto a flat floor lands on the hit, and the following frame grounds the avatar there at rest |
| `Locomotion.DisplacementSpeed` | src/main.js:815-822 | for a unit facing, the displacement is zero iff both axes of intent are idle or cancel; otherwise its squared length is the speed squared |
| `Locomotion.ForwardAlongFacing` | src/main.js:809-822 | holding only forward, with a unit facing, moves the avatar by exactly s along the facing |
| `Locomotion.FrameSpeed` | src/main.js:815-822 | the same for the tick's own speed: squared length 0.01, or 0.04 with shift |
| `Locomotion.AccumulatedLength` | src/main.js:816-819 | the summed velocity's squared length is speed² times the number of engaged axes |
| `Locomotion.PlaceIdempotent` | src/main.js:777-797 | placing twice with the same fallback on an unchanged navmesh is placing once |
| `Locomotion.PlaceGroundsIffWalkable` | src/main.js:783-792 | for an airborne avatar, placement grounds it iff the fallback column is walkable |
| `Locomotion.RecoveryKeepsFallVelocity` | src/main.js:849-853 | on any navmesh whose grounding probe misses below -50 and whose spawn probe misses under the recovery spot, recovery moves the avatar to (0, 10, 0) with its fall velocity kept and not grounded |
| `Locomotion.BackupSpawn` | src/main.js:610-622 | the backup navmesh's placement lands the avatar at (0, 0.05, 0), grounded and at rest |
| `Locomotion.FallKeepsColumn` | src/main.js:834-856 | vertical movement leaves (x, z) alone unless it recovers |
| `Locomotion.StaysOverBox` | src/main.js:610-622 | on the backup box, an avatar over the box is still over it after any frame, whatever is held |
| `Locomotion.IdleIsTick` | src/main.js:807-832 | with no key held, a frame is the horizontal step with zero displacement followed by the vertical movement |
| `Locomotion.RestIsStable` | src/main.js:840-846 | an avatar at rest on a flat floor stays exactly there, frame after frame |
| `Locomotion.SettlesOnFlatFloor` | src/main.js:834-846 | an avatar a height h above a flat floor with vertical velocity v <= 0 is grounded on it at rest after n + 1 frames whenever h <= -n·v + 0.01·n(n+1)/2, as long as no frame falls more than the probe's reach of 100 |
| `Locomotion.JumpLands` | src/main.js:673-678 | frame k (k <= 48) of a jump from rest on a flat floor is the arc state at height Rise(k) with velocity 0.25 - 0.01·k, airborne; the arc rises strictly for 24 frames, holds its apex for a frame, falls strictly and lands on frame 49 exactly where it started, grounded and at rest |
| `Walkthrough.Session.constructor` | src/main.js:14-159 | the initial state of the declarations at lines 14-29 and 147-159: no player, no navmesh, no flags, look control off, euler (0, π/2), at rest and not grounded |
| `Walkthrough.Session.SetupPlayer` | src/main.js:634-635 | the player exists and stands at the origin |
| `Walkthrough.Session.OnKeyDown` | src/main.js:665-682 | the flags become SetFlag(·, code, true); Space applies the jump rule; no other key touches the avatar |
| `Walkthrough.Session.OnKeyUp` | src/main.js:684-693 | the flags become SetFlag(·, code, false) |
| `Walkthrough.Session.OnCanvasClick` | src/main.js:647-652 | look control is on after a canvas click |
| `Walkthrough.Session.OnPointerLockChange` | src/main.js:695-697 | look control is on exactly while the pointer is locked |
| `Walkthrough.Session.OnMouseMove` | src/main.js:699-708 | while look control is on, the orientation turns at 0.002 per pixel with the pitch clamped; otherwise it is unchanged; the pitch stays in range |
| `Walkthrough.Session.OnTouchStart` | src/main.js:715-725 | the loop over `changedTouches` leaves the touch state the TouchStart fold prescribes |
| `Walkthrough.Session.OnTouchMove` | src/main.js:727-746 | the loop leaves the TouchMove fold's state; the pitch stays in range |
| `Walkthrough.Session.OnTouchEnd` | src/main.js:748-757 | the loop leaves the TouchEnd fold's state |
| `Walkthrough.Session.OnMouseDown` | src/main.js:763-774 | the avatar state becomes Teleport of the old state |
| `Walkthrough.Session.PlacePlayerOnNavmesh` | src/main.js:777-797 | the avatar state becomes Place of the old state |
| `Walkthrough.Session.ApplyGravityAndVerticalMovement` | src/main.js:834-856 | the avatar state becomes Fall of the old state |
| `Walkthrough.Session.UpdatePlayerMovement` | src/main.js:807-832 | the avatar state becomes Tick of the old state; when a frame runs, `velocity` holds that frame's displacement, and otherwise it is untouched |
| `Walkthrough.Session.SumVelocity` | src/main.js:809-819 | `velocity` is reset and holds the sum of the held flags' contributions |
| `Walkthrough.Session.NormaliseVelocity` | src/main.js:820-822 | `velocity` becomes the frame's displacement |
| `Walkthrough.Session.StepIfWalkable` | src/main.js:823-830 | the position becomes HorizontalStep of the old state, through the saved `oldPosition` |
| `Walkthrough.Session.OnNavmeshLoaded` | src/main.js:580-585 | the model becomes the navmesh (the assignment at line 472); an existing player is placed from (30, 10, 0), and with no player the avatar is unchanged |
| `Walkthrough.Session.CreateBackupNavmesh` | src/main.js:610-623 | the backup box becomes the navmesh and the player is placed from (0, 2, 0) |

## Left out

- Audio setup, playback and volume, as well as the scene, lights, renderer, environment map and resize handling. These are browser and rendering I/O.
- GLTF loading, material tweaks and the loading manager. They appear only as their effect, the `OnNavmeshLoaded` and `CreateBackupNavmesh` events.
- Three.js ray-casting internals. The navmesh is an uninterpreted `Surface`. The backup box is modelled only as its top face struck from above, so rays that reach it from below or through a side miss in the model.
- `camera.getWorldDirection`, quaternions and `playerDirection`. The flattened, normalised facing and the teleport ray (origin and direction) are inputs. `IsUnit` is assumed only where speed is stated.
- `normalize()`'s square root. The caller passes `len`, the length of the summed velocity, constrained by `len * len == LengthSq(...)`. Speed is stated as a squared length.
- IEEE floating point. All quantities are exact reals. π/2 is the decimal 1.5707963267948966.
- `event.movementX || 0`. The deltas are taken as numbers already.
- Teleport without a navmesh: the source's ray cast throws before anything changes, and `Teleport` models this as no change.
- KeyT calls `toggleNavmeshVisibility` at src/main.js:679, a function the source never defines. The call throws a ReferenceError before any modelled state changes, so `OnKeyDown` models KeyT as no change.
- KeyM calls `toggleAudio`, which only touches audio. Audio is outside the model, so `OnKeyDown` models KeyM as no change.
- The pointer-lock request, event-listener registration, the `isMobile` choice between mouse and touch, and the `requestAnimationFrame` loop. These are browser plumbing. The handlers are methods that a caller invokes in any order.
- `playerHeight` and `playerRadius`. They shape the player mesh and camera only and take no part in the movement rules.
- Grass wind animation and light hue cycling. These are cosmetic animation.
