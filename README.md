# Portfolio driving scene: the per-frame car step

The portfolio site is a small 3-D scene. A car drives around it, pushes some
objects, bounces off others, and offers a "press E" prompt near interactive
landmarks. This project models the logic in `script.js` that changes the
scene's state:

- `updateCar`, called once per animation frame, runs these stages in order:
  - speed from the pedals, and the engine sound;
  - steering;
  - the tentative move and the response to solid objects;
  - pushes to movable objects;
  - the movable objects' own motion;
  - the car's bounds;
  - the nearest-interactive-object scan, the prompt, and the E key;
- the mouse-wheel handler's camera-angle clamp;
- the mute button;
- the keydown and keyup handlers.

Modules:

- `Geometry`: Math.min, Math.max, Math.sign, the clamp idiom, horizontal
  bounding boxes, `Box3.intersectsBox`, and `Vector3.normalize`.
- `Physics`: the constants and the per-stage functions, with their
  properties. This covers speed, the engine flag, steering, the bounce
  count against solids, the push, and the movables' drift.
- `Proximity`: the nearest-object choice. `Nearest` specifies it, and
  `FindNearest` is the loop that computes it.
- `Simulation`: the module-level state as a value `State`. It defines one
  frame, `Tick`, as the composition of the stages. It also defines the
  event handlers, the state invariant, and the lemmas about whole frames.
- `Game`: the class `World`. It holds the scene's state in fields, and the
  movables in an array updated in place. Each method performs its step
  imperatively, as the source does. Each method is proved to produce
  exactly the state the matching `Physics` or `Simulation` function
  describes, and
  `UpdateCar` and the handlers also keep `Valid()`.

Modelling choices:

- All numbers are `real`.
- `Math.sin`, `Math.cos`, the car's world bounding box, and
  `Vector3.length` are passed to a frame as the functions of a `Host`
  value. The car's bounding box comes from `Box3.setFromObject` on the
  rotated car group.
- Bounding boxes are compared on the horizontal axes. The car's box spans
  heights 0 to 1.7 (wheels, body and cabin, script.js:221-262), and every
  object's vertical extent meets that range. Some solids are raised: the
  Jenkins pipe spans 1.2 to 1.8, the graduation cap starts at 1.0, and the
  hand sculpture starts at about 0.75. Even so, the vertical test always
  passes, so only the horizontal extents decide an overlap.
- A movable's box is its fixed horizontal extent moved to its current
  position.
- Interactive landmarks either stand still or ride on a movable object:
  the spring and the database, HTML, CSS and JavaScript blocks are both
  interactive and movable.
- Two tests involve square roots: `distanceTo(...) < 5` (with its
  `< minDist` comparison) and `velocity.length() < 0.01`. Both are decided
  on squared lengths. This gives the same answers, because both sides are
  non-negative.

Behaviour of the code that the model keeps as written:

- The car box is computed once, at the proposed position. After a solid
  reverts the car, the movable tests still use that box. The push direction
  is taken from the car's current position, which may already have been
  reverted.
- The bounce multiplies the speed after this frame's speed update. A car
  coasting at 0.2 into one solid therefore ends the frame at
  (0.2 - 0.005) * -0.3 = -0.0585 (`BounceScenario`), not 0.2 * -0.3.
- A push adds |speed| * 2 along the normalised car-to-object direction.
  The objects have no mass in the code, so the model has none either.
- `stopEngineSound` clears `isEngineRunning` only when an engine sound
  object exists. The two are always set and cleared together
  (script.js:281-313), so the model keeps only the flag.

## Model

| member | source | states |
|---|---|---|
| Geometry.Clamp | script.js:1009 | Math.max(lo, Math.min(hi, v)) lies in [lo, hi]; it is v inside the range, lo below it and hi above it |
| Geometry.NormalizeScales | script.js:1179-1183 | the normalised vector times the length is the original vector; with a zero length the vector is unchanged |
| Physics.NextSpeedInRange | script.js:1116-1128 | a speed in [-0.15, 0.3] stays in [-0.15, 0.3] after the pedal update |
| Physics.AccelerateAndBrake | script.js:1116-1121 | accelerating raises the speed by exactly 0.01 or to the 0.3 cap, and never lowers it; braking lowers it by exactly 0.01 or to the -0.15 cap |
| Physics.CoastTowardZero | script.js:1122-1128 | with no pedal, the speed keeps its sign, its magnitude does not grow, and it drops by exactly 0.005 or stops at 0 |
| Physics.NextEngine | script.js:1116-1132 | a held pedal with audio and sound on always leaves the engine sound running, and the sound starts in no other case; coasting below 0.01 always stops it, and it stops in no other case |
| Physics.SteeringOnlyWhileMoving | script.js:1140-1147 | the heading is unchanged when abs(speed) <= 0.01; otherwise it changes by +0.03 for left, -0.03 for right, and 0 for both or neither |
| Physics.BounceStaysInRange | script.js:1162-1171 | any number of -0.3 bounces keeps the speed in [-0.15, 0.3] and never increases its magnitude |
| Physics.DampingStaysInRange | script.js:1175-1191 | any number of 0.7 push dampings keeps the speed in range, keeps its sign and never increases its magnitude |
| Physics.NoSolidHits | script.js:1162-1164 | the count of solids met is 0 exactly when the car box meets no solid |
| Physics.NoPropHits | script.js:1175-1177 | the count of movables met is 0 exactly when the car box meets no movable |
| Physics.Push | script.js:1176-1188 | a push leaves the object's position and shape alone; an object the car box does not meet is left unchanged |
| Physics.PushAllAt | script.js:1175-1192 | entry j of the frame's pushes is movable j pushed with the car speed damped by 0.7 once per overlapping movable before it |
| Physics.PushImpulse | script.js:1178-1187 | the velocity change times the direction's length equals the car-to-object vector times abs(speed) * 2; when the length is 0, the vector is not divided |
| Physics.PushImpulseLength | script.js:1178-1187 | when the normalised direction is a unit vector, the velocity change has length abs(speed) * 2 |
| Physics.Drift | script.js:1195-1216 | after a movable's own motion, abs(px) <= 85 and abs(pz) <= 85, and an axis that stays inside the walls moves by exactly its velocity. Each velocity component is multiplied by 0.92, and also by -0.5 on an axis that crossed a wall. The result becomes exactly zero when it is shorter than 0.01 and is kept otherwise. The shape is kept |
| Physics.DriftAtWall | script.js:1203-1215 | a movable that crosses a wall is placed on it, on the side it crossed. That velocity component becomes its value times 0.92 times -0.5, or 0 exactly when the velocity after friction and bounces is shorter than 0.01 |
| Physics.DriftAtRest | script.js:1195-1216 | a movable at rest inside the walls stays where it is |
| Physics.DriftAll | script.js:1195-1217 | every movable ends the stage inside the square of half-side 85 |
| Proximity.NearestIsFirstClosest | script.js:1249-1258 | the chosen object is interactive and closer than 5; no qualifying object is closer; every qualifying object before it is strictly farther; nothing is chosen exactly when nothing qualifies |
| Proximity.FindNearest | script.js:1249-1258 | the minDist loop returns exactly the specified nearest object |
| Simulation.Tick | script.js:1111-1276 | one frame of `updateCar`: the pedal, engine and steering stage, the tentative move with the solid response, the pushes, the movables' drift and the car's bounds, then the nearest-object scan and the E key, in that order; a frame neither creates nor removes movable objects. Its properties are the `Tick…` lemmas below |
| Simulation.TickSpeedInRange | script.js:1116-1190 | a speed in [-0.15, 0.3] stays in [-0.15, 0.3] across a whole frame, bounces and pushes included |
| Simulation.TickStaysInBounds | script.js:1195-1222 | after a frame the car is inside the square of half-side 90 and every movable inside the square of half-side 85, whatever the speed and collisions |
| Simulation.TickSolidBounce | script.js:1149-1192 | when the proposed box meets k > 0 solids, the car ends the frame where it started; the speed is multiplied by (-0.3)^k, then by 0.7 per overlapping movable |
| Simulation.BounceScenario | script.js:1122-1172 | a car coasting at 0.2 into one solid and no movable stays put and ends the frame at speed -0.0585 |
| Simulation.TickSelectsNearest | script.js:1249-1266 | after a frame, the current object is the nearest qualifying one, the first on ties; it is absent exactly when nothing qualifies |
| Simulation.TickPromptMatchesCurrent | script.js:1260-1267 | the prompt is visible exactly when there is a current object |
| Simulation.TickConsumesE | script.js:1270-1274 | E held with a current object opens that object's details and releases E; otherwise the keys and the open details are unchanged; no other key is touched |
| Simulation.TickEngineQuiet | script.js:1116-1132 | a frame never leaves the engine sound running while muted or without audio |
| Simulation.TickKeepsInvariant | script.js:1111-1276 | a frame keeps the state invariant: speed and positions in their limits, prompt shown exactly with a current object, indices valid, no engine sound while muted, camera angle in range |
| Simulation.WheelKeepsAngle | script.js:1005-1009 | one call of the wheel handler leaves the camera angle in [pi/12, pi/2.2]; it subtracts deltaY * 0.001 when that stays in range; scrolling down never raises the angle and scrolling up never lowers it; nothing else changes |
| Simulation.ToggleMuteTwice | script.js:1075-1091 | the mute button flips the flag and stores the new value; muting stops the engine sound; pressing twice restores the flag |
| Simulation.AccelerateKeys | script.js:1113 | after keydown of KeyW or of ArrowUp the frame accelerates; after keyup of both it does not |
| Simulation.BrakeKeys | script.js:1114 | after keydown of KeyS or of ArrowDown the frame brakes; after keyup of both it does not |
| Simulation.LeftKeys | script.js:1141 | after keydown of KeyA or of ArrowLeft the frame steers left; after keyup of both it does not |
| Simulation.RightKeys | script.js:1144 | after keydown of KeyD or of ArrowRight the frame steers right; after keyup of both it does not |
| Simulation.OtherKeysDoNotDrive | script.js:1113-1144 | a keydown or keyup of any key other than the eight driving keys leaves the frame's controls unchanged |
| Simulation.KeysRecordPresses | script.js:979-985 | keydown marks its code as held and keyup as released; every other code is unchanged |
| Simulation.HandlersKeepInvariant | script.js:979-1091 | the wheel, mute, keydown and keyup handlers keep the state invariant |
| Game.World.constructor | script.js:119-145 | the car starts at rest at (0, 15) (set when the car is built, script.js:268) with heading 0, no key held, no prompt or open details, no engine sound, camera angle pi/3, and the stored mute preference (read at load time, script.js:1299-1304) |
| Game.World.PlayEngineSound | script.js:281-284 | the engine flag is set only when audio exists and sound is not muted |
| Game.World.StopEngineSound | script.js:309-313 | the engine flag is cleared |
| Game.World.DriveCar | script.js:1112-1147 | the speed, the engine flag and the heading become the values of the pedal, engine and steering updates |
| Game.World.ResolveSolids | script.js:1158-1172 | the solid loop multiplies the speed by -0.3 once per solid met; it reverts to the old position when any solid is met, and otherwise keeps the moved position |
| Game.World.MoveCar | script.js:1149-1172 | the move takes the box once, at the proposed position; the new state is that of the move-and-bounce stage |
| Game.World.PushOne | script.js:1176-1191 | one movable's push and the car speed after it, damped by 0.7 exactly when the two meet |
| Game.World.PushMovables | script.js:1175-1192 | the array becomes the frame's pushes of its old contents, in place; the speed is damped once per overlapping movable |
| Game.World.DriftOne | script.js:1196-1216 | the step-by-step motion of one movable equals its drift |
| Game.World.DriftMovables | script.js:1195-1217 | the array becomes the drift of its old contents, in place |
| Game.World.SettleAll | script.js:1195-1222 | the movables drift and the car is clamped to the square of half-side 90 |
| Game.World.UpdatePrompt | script.js:1248-1275 | the current object, the prompt, the open details and the E key become those of the prompt stage |
| Game.World.UpdateCar | script.js:1111-1276 | one call of updateCar produces exactly the state of one frame and keeps the world's invariant |
| Game.World.HandleWheel | script.js:1005-1009 | the wheel handler's new state is the specified clamp of the camera angle, and the invariant holds |
| Game.World.ToggleMute | script.js:1075-1091 | the mute button's new state is the specified toggle, and the invariant holds |
| Game.World.KeyDown | script.js:979-981 | keydown's new state records the code as held, and the invariant holds |
| Game.World.KeyUp | script.js:983-985 | keyup's new state records the code as released, and the invariant holds |

## Left out

- Rendering and the camera follow in `updateCar` (script.js:1224-1246): trigonometry and `applyAxisAngle` in the 3-D library, with no state of the model.
- The per-frame body tilt and the render call in `animate` (script.js:1282-1290). The tilt rotates the car body, a child of the car group, by up to 0.05 about its forward axis, so it also widens the car group's bounding box slightly, by less than 0.02 on each side. The model does not track the tilt; the per-frame `carBox` of `Host` is the box of the car as it stands, tilt included.
- Sound output: `updateEngineSound`, `playCollisionSound` and the oscillators in `playEngineSound`. Only the `isEngineRunning` flag is modelled, and whether an audio context exists is a scene parameter.
- `showModal`'s content and `closeModal`: only the index of the object whose details open is kept. The prompt's `innerHTML` is left out too.
- Scene construction (`init`, `createCar`, the object builders, `createEnvironment`), the theme toggle, window resizing, the loading screen and its timers: they build objects or drive the DOM. The scene is a constructor parameter instead.
- `Math.sin`, `Math.cos`, `Box3.setFromObject` for the rotated car, and `Vector3.length`: library code. They are parameters of a frame, so properties that need them state them as premises (`PushImpulseLength` assumes a unit direction).
- Floating-point rounding: every quantity is an exact real, so a result such as JavaScript's `speed - 0.005` may differ from the model in its last bits.
- The vertical extent of the bounding boxes: every object's vertical extent meets the car's height range of 0 to 1.7, so only the horizontal extents are compared.
- The wheel handler is registered on both the window and the canvas (script.js:1018-1019), so a wheel event over the canvas runs it twice. The model specifies one call (`Wheel`, `HandleWheel`), and two events' worth is two calls.
- localStorage: the stored mute preference is the field `savedMuted`, and the value read at load time is a constructor parameter.
