/** One frame of the scene as a function of the module-level state: the stages
    of `updateCar` in their fixed order, the wheel handler's camera-angle clamp,
    the mute toggle and the key handlers, with the properties a frame keeps. */
module Simulation {
  import opened Geometry
  import opened Physics
  import opened Proximity

  /** Math.PI. */
  const Pi: real := 3.141592653589793
  const MinCameraAngle: real := Pi / 12.0
  const MaxCameraAngle: real := Pi / 2.2
  const InitialCameraAngle: real := Pi / 3.0
  /** Radians per unit of wheel deltaY. */
  const WheelStep: real := 0.001
  /** The car's start position. */
  const StartX: real := 0.0
  const StartZ: real := 15.0

  /** An interactive object stands at a fixed place, or is a movable object and
      goes where that movable goes. Its height never changes. */
  datatype Anchor = Fixed(x: real, z: real) | Riding(prop: nat)
  datatype Landmark = Landmark(anchor: Anchor, y: real, interactive: bool)

  /** What the scene builder fixes once: the solid objects' boxes, the
      interactive objects, and whether an audio context could be created. */
  datatype Scene = Scene(solids: seq<Box>, landmarks: seq<Landmark>, audio: bool)

  /** What the frame asks of the browser and the 3-D library: Math.sin,
      Math.cos, the car's world box at a position and heading, and
      Vector3.length. The box is the one `Box3.setFromObject` returns for
      the car group as it stands in this frame, so it includes the small
      widening from the body tilt that `animate` applies between frames. */
  datatype Host = Host(sin: real -> real, cos: real -> real,
                       carBox: (real, real, real) -> Box,
                       length: (real, real) -> real)

  /** The module-level state the frame reads and writes. `current` and `modal`
      are indices into the scene's interactive objects; `savedMuted` is the
      stored mute preference. */
  datatype State = State(
    speed: real, rotation: real, x: real, z: real,
    props: seq<Prop>,
    keys: map<string, bool>,
    current: Option<nat>, promptVisible: bool, modal: Option<nat>,
    engineRunning: bool, muted: bool, savedMuted: bool,
    cameraAngle: real)

  predicate AnchorsValid(ls: seq<Landmark>, n: nat)
  {
    forall i :: 0 <= i < |ls| && ls[i].anchor.Riding? ==> ls[i].anchor.prop < n
  }

  function PointOf(l: Landmark, props: seq<Prop>): Point
    requires l.anchor.Riding? ==> l.anchor.prop < |props|
  {
    match l.anchor
    case Fixed(x, z) => Point(x, l.y, z, l.interactive)
    case Riding(i) => Point(props[i].px, l.y, props[i].pz, l.interactive)
  }

  /** Where each interactive object is, given the movables' positions. */
  function Points(ls: seq<Landmark>, props: seq<Prop>): (ps: seq<Point>)
    requires AnchorsValid(ls, |props|)
    ensures |ps| == |ls|
  {
    seq(|ls|, i requires 0 <= i < |ls| => PointOf(ls[i], props))
  }

  // ------------------------------------------------------- frame stages

  /** Speed, engine flag and heading; the heading uses the updated speed. */
  function Drive(sc: Scene, s: State): State
  {
    var c := ControlsOf(s.keys);
    var speed := NextSpeed(s.speed, c);
    s.(speed := speed,
       engineRunning := NextEngine(s.engineRunning, c, speed, sc.audio, s.muted),
       rotation := NextRotation(s.rotation, speed, c))
  }

  function ProposedX(s: State, h: Host): real { s.x + h.sin(s.rotation) * s.speed }
  function ProposedZ(s: State, h: Host): real { s.z + h.cos(s.rotation) * s.speed }

  /** The car's box, computed once at the proposed position and used for both
      the solid and the movable tests. */
  function ProposedBox(s: State, h: Host): Box
  {
    h.carBox(ProposedX(s, h), ProposedZ(s, h), s.rotation)
  }

  /** Move, then answer the solids: each overlapping solid puts the car back at
      its position before the move and multiplies the speed by -0.3. */
  function Collide(sc: Scene, s: State, h: Host): State
  {
    var k := SolidHits(ProposedBox(s, h), sc.solids);
    s.(x := if k > 0 then s.x else ProposedX(s, h),
       z := if k > 0 then s.z else ProposedZ(s, h),
       speed := Scaled(s.speed, SolidBounce, k))
  }

  /** Push the overlapping movables away from the car's current position and
      multiply the speed by 0.7 for each. */
  function PushProps(s: State, box: Box, h: Host): State
  {
    s.(props := PushAll(s.props, box, s.x, s.z, s.speed, h.length),
       speed := Scaled(s.speed, PushDamping, PropHits(box, s.props)))
  }

  /** The movables' own motion, then the car's bounds. */
  function Settle(s: State): State
  {
    s.(props := DriftAll(s.props),
       x := Clamp(s.x, -CarLimit, CarLimit),
       z := Clamp(s.z, -CarLimit, CarLimit))
  }

  /** The prompt's object follows the nearest one; E opens that object's
      details once and is then released. */
  function Interact(sc: Scene, s: State): State
    requires AnchorsValid(sc.landmarks, |s.props|)
  {
    var near := Nearest(Points(sc.landmarks, s.props), s.x, s.z);
    var cur := if near.Some? && near != s.current then near
               else if near.None? then None
               else s.current;
    var visible := if near.Some? && near != s.current then true
                   else if near.None? then false
                   else s.promptVisible;
    var open := Held(s.keys, "KeyE") && cur.Some?;
    s.(current := cur, promptVisible := visible,
       modal := if open then cur else s.modal,
       keys := if open then s.keys["KeyE" := false] else s.keys)
  }

  /** One call of `updateCar`. */
  function Tick(sc: Scene, s: State, h: Host): (t: State)
    requires AnchorsValid(sc.landmarks, |s.props|)
    ensures |t.props| == |s.props|
  {
    var s1 := Drive(sc, s);
    var box := ProposedBox(s1, h);
    var s2 := Collide(sc, s1, h);
    var s3 := PushProps(s2, box, h);
    Interact(sc, Settle(s3))
  }

  // ------------------------------------------------ what a frame keeps

  /** A speed within [-0.15, 0.3] stays there across a whole frame, the bounces
      and pushes included. */
  lemma TickSpeedInRange(sc: Scene, s: State, h: Host)
    requires AnchorsValid(sc.landmarks, |s.props|)
    requires SpeedInRange(s.speed)
    ensures SpeedInRange(Tick(sc, s, h).speed)
  {
    var s1 := Drive(sc, s);
    var box := ProposedBox(s1, h);
    NextSpeedInRange(s.speed, ControlsOf(s.keys));
    var k := SolidHits(box, sc.solids);
    BounceStaysInRange(s1.speed, k);
    var s2 := Collide(sc, s1, h);
    DampingStaysInRange(s2.speed, PropHits(box, s2.props));
  }

  /** Whatever the speed and the collisions, the car ends the frame inside the
      square of half-side 90 and every movable inside the square of half-side 85. */
  lemma TickStaysInBounds(sc: Scene, s: State, h: Host)
    requires AnchorsValid(sc.landmarks, |s.props|)
    ensures var t := Tick(sc, s, h);
      -CarLimit <= t.x <= CarLimit && -CarLimit <= t.z <= CarLimit &&
      forall i :: 0 <= i < |t.props| ==> Abs(t.props[i].px) <= PropLimit && Abs(t.props[i].pz) <= PropLimit
  {
  }

  /** When the proposed box meets a solid, the car ends the frame where it began
      (if that was inside the bounds) and its speed has been multiplied by -0.3
      for every solid it met, before any push damping. */
  lemma TickSolidBounce(sc: Scene, s: State, h: Host)
    requires AnchorsValid(sc.landmarks, |s.props|)
    requires -CarLimit <= s.x <= CarLimit && -CarLimit <= s.z <= CarLimit
    ensures var s1 := Drive(sc, s);
      var box := ProposedBox(s1, h);
      var k := SolidHits(box, sc.solids);
      var t := Tick(sc, s, h);
      (k > 0 ==> t.x == s.x && t.z == s.z) &&
      t.speed == Scaled(Scaled(s1.speed, SolidBounce, k), PushDamping, PropHits(box, s.props))
  {
  }

  /** A car coasting at 0.2 into exactly one solid, touching no movable, stays
      put and leaves the frame at (0.2 - 0.005) * -0.3: the speed update runs
      before the collision response. */
  lemma BounceScenario(sc: Scene, s: State, h: Host)
    requires AnchorsValid(sc.landmarks, |s.props|)
    requires s.keys == map[] && s.speed == 0.2
    requires -CarLimit <= s.x <= CarLimit && -CarLimit <= s.z <= CarLimit
    requires SolidHits(ProposedBox(Drive(sc, s), h), sc.solids) == 1
    requires PropHits(ProposedBox(Drive(sc, s), h), s.props) == 0
    ensures Tick(sc, s, h).speed == -0.0585
    ensures Tick(sc, s, h).x == s.x && Tick(sc, s, h).z == s.z
  {
    TickSolidBounce(sc, s, h);
  }

  /** After the frame the prompt's object is the nearest qualifying one (the
      first on ties), and it is absent exactly when nothing qualifies. */
  lemma TickSelectsNearest(sc: Scene, s: State, h: Host)
    requires AnchorsValid(sc.landmarks, |s.props|)
    ensures var t := Tick(sc, s, h);
      var ps := Points(sc.landmarks, t.props);
      t.current == Nearest(ps, t.x, t.z) &&
      (t.current.None? <==> forall j :: 0 <= j < |ps| ==> !Qualifies(ps[j], t.x, t.z)) &&
      (t.current.Some? ==>
        t.current.value < |ps| && Qualifies(ps[t.current.value], t.x, t.z) &&
        forall j :: 0 <= j < |ps| && Qualifies(ps[j], t.x, t.z) ==>
          DistSq(ps[t.current.value], t.x, t.z) <= DistSq(ps[j], t.x, t.z))
  {
    var t := Tick(sc, s, h);
    NearestIsFirstClosest(Points(sc.landmarks, t.props), t.x, t.z);
  }

  /** The prompt is shown exactly when there is a current object, if that held
      before the frame. */
  lemma TickPromptMatchesCurrent(sc: Scene, s: State, h: Host)
    requires AnchorsValid(sc.landmarks, |s.props|)
    requires s.promptVisible <==> s.current.Some?
    ensures Tick(sc, s, h).promptVisible <==> Tick(sc, s, h).current.Some?
  {
  }

  /** E with a current object opens that object's details and releases E; any
      other key, and E without a current object, is left as it was. */
  lemma TickConsumesE(sc: Scene, s: State, h: Host)
    requires AnchorsValid(sc.landmarks, |s.props|)
    ensures var t := Tick(sc, s, h);
      (Held(s.keys, "KeyE") && t.current.Some? ==> !Held(t.keys, "KeyE") && t.modal == t.current) &&
      (!Held(s.keys, "KeyE") || t.current.None? ==> t.keys == s.keys && t.modal == s.modal) &&
      forall code :: code != "KeyE" ==> Held(t.keys, code) == Held(s.keys, code)
  {
  }

  /** A frame never starts the engine sound while muted or without audio. */
  lemma TickEngineQuiet(sc: Scene, s: State, h: Host)
    requires AnchorsValid(sc.landmarks, |s.props|)
    requires (s.muted || !sc.audio) ==> !s.engineRunning
    ensures var t := Tick(sc, s, h);
      t.muted == s.muted && ((t.muted || !sc.audio) ==> !t.engineRunning)
  {
  }

  /** What holds of the state between frames and events: riding objects name
      existing movables, the speed and the car are within their limits, the
      prompt is shown exactly when there is a current object, the current and
      open objects exist, there is no engine sound while muted or without
      audio, and the camera angle is within its clamp. */
  predicate Invariant(sc: Scene, s: State)
  {
    AnchorsValid(sc.landmarks, |s.props|) &&
    SpeedInRange(s.speed) &&
    -CarLimit <= s.x <= CarLimit && -CarLimit <= s.z <= CarLimit &&
    (s.promptVisible <==> s.current.Some?) &&
    (s.current.Some? ==> s.current.value < |sc.landmarks|) &&
    (s.modal.Some? ==> s.modal.value < |sc.landmarks|) &&
    ((s.muted || !sc.audio) ==> !s.engineRunning) &&
    MinCameraAngle <= s.cameraAngle <= MaxCameraAngle
  }

  /** A frame keeps the invariant. */
  lemma TickKeepsInvariant(sc: Scene, s: State, h: Host)
    requires Invariant(sc, s)
    ensures Invariant(sc, Tick(sc, s, h))
  {
    TickSpeedInRange(sc, s, h);
    TickStaysInBounds(sc, s, h);
    TickSelectsNearest(sc, s, h);
    TickPromptMatchesCurrent(sc, s, h);
    TickEngineQuiet(sc, s, h);
  }

  // --------------------------------------------------- event handlers

  /** One call of the wheel handler: deltaY * 0.001 is taken off the angle,
      which is then clamped to [pi/12, pi/2.2]. The handler is registered on
      both the window and the canvas, so a wheel event over the canvas makes
      two such calls. */
  function Wheel(s: State, deltaY: real): State
  {
    s.(cameraAngle := Clamp(s.cameraAngle - deltaY * WheelStep, MinCameraAngle, MaxCameraAngle))
  }

  lemma WheelKeepsAngle(s: State, deltaY: real)
    ensures var a := Wheel(s, deltaY).cameraAngle;
      MinCameraAngle <= a <= MaxCameraAngle &&
      (MinCameraAngle <= s.cameraAngle - deltaY * WheelStep <= MaxCameraAngle ==> a == s.cameraAngle - deltaY * WheelStep)
    ensures MinCameraAngle <= s.cameraAngle <= MaxCameraAngle ==>
      (deltaY >= 0.0 ==> Wheel(s, deltaY).cameraAngle <= s.cameraAngle) &&
      (deltaY <= 0.0 ==> Wheel(s, deltaY).cameraAngle >= s.cameraAngle)
    ensures Wheel(s, deltaY) == s.(cameraAngle := Wheel(s, deltaY).cameraAngle)
  {
  }

  /** The mute button: flip the flag, stop a running engine sound when muting,
      and store the new preference. */
  function ToggleMute(s: State): State
  {
    var muted := !s.muted;
    s.(muted := muted,
       engineRunning := s.engineRunning && !muted,
       savedMuted := muted)
  }

  lemma ToggleMuteTwice(s: State)
    ensures ToggleMute(s).muted == !s.muted && ToggleMute(s).savedMuted == !s.muted
    ensures ToggleMute(s).muted ==> !ToggleMute(s).engineRunning
    ensures var t := ToggleMute(ToggleMute(s));
      t.muted == s.muted && t.savedMuted == s.muted && (t.engineRunning ==> s.engineRunning) &&
      t == s.(savedMuted := s.muted, engineRunning := t.engineRunning)
  {
  }

  /** The keydown and keyup handlers record `e.code` in the pressed-keys map. */
  function KeyDown(s: State, code: string): State { s.(keys := s.keys[code := true]) }
  function KeyUp(s: State, code: string): State { s.(keys := s.keys[code := false]) }

  /** The event handlers keep the invariant. */
  lemma HandlersKeepInvariant(sc: Scene, s: State, deltaY: real, code: string)
    requires Invariant(sc, s)
    ensures Invariant(sc, Wheel(s, deltaY))
    ensures Invariant(sc, ToggleMute(s))
    ensures Invariant(sc, KeyDown(s, code)) && Invariant(sc, KeyUp(s, code))
  {
  }

  /** The driving keys reach the frame's controls: pressing either key of a
      pair turns its intent on and releasing both turns it off. */
  lemma AccelerateKeys(s: State)
    ensures ControlsOf(KeyDown(s, "KeyW").keys).accelerate && ControlsOf(KeyDown(s, "ArrowUp").keys).accelerate
    ensures !ControlsOf(KeyUp(KeyUp(s, "KeyW"), "ArrowUp").keys).accelerate
  {
  }

  lemma BrakeKeys(s: State)
    ensures ControlsOf(KeyDown(s, "KeyS").keys).brake && ControlsOf(KeyDown(s, "ArrowDown").keys).brake
    ensures !ControlsOf(KeyUp(KeyUp(s, "KeyS"), "ArrowDown").keys).brake
  {
  }

  lemma LeftKeys(s: State)
    ensures ControlsOf(KeyDown(s, "KeyA").keys).left && ControlsOf(KeyDown(s, "ArrowLeft").keys).left
    ensures !ControlsOf(KeyUp(KeyUp(s, "KeyA"), "ArrowLeft").keys).left
  {
  }

  lemma RightKeys(s: State)
    ensures ControlsOf(KeyDown(s, "KeyD").keys).right && ControlsOf(KeyDown(s, "ArrowRight").keys).right
    ensures !ControlsOf(KeyUp(KeyUp(s, "KeyD"), "ArrowRight").keys).right
  {
  }

  /** The eight keys the frame reads for driving. */
  predicate DrivingKey(code: string)
  {
    code == "KeyW" || code == "ArrowUp" || code == "KeyS" || code == "ArrowDown" ||
    code == "KeyA" || code == "ArrowLeft" || code == "KeyD" || code == "ArrowRight"
  }

  /** Any key other than the eight driving keys leaves the controls as they were. */
  lemma OtherKeysDoNotDrive(s: State, code: string)
    requires !DrivingKey(code)
    ensures ControlsOf(KeyDown(s, code).keys) == ControlsOf(s.keys)
    ensures ControlsOf(KeyUp(s, code).keys) == ControlsOf(s.keys)
  {
  }

  lemma KeysRecordPresses(s: State, code: string)
    ensures Held(KeyDown(s, code).keys, code) && !Held(KeyUp(s, code).keys, code)
    ensures forall other :: other != code ==>
      Held(KeyDown(s, code).keys, other) == Held(s.keys, other) &&
      Held(KeyUp(s, code).keys, other) == Held(s.keys, other)
  {
  }
}
