/** The scene's mutable state and the code that changes it in place: the
    per-frame `updateCar`, the wheel handler, the mute toggle and the key
    handlers. Each method is proved to do what the matching function of
    `Simulation` describes, and to keep the world's invariant. */
module Game {
  import opened Geometry
  import opened Physics
  import opened Proximity
  import opened Simulation

  class World {
    /** Fixed when the scene is built. */
    const solids: seq<Box>
    const landmarks: seq<Landmark>
    const audio: bool
    /** The movable objects; their positions and velocities change in place. */
    const props: array<Prop>

    var speed: real
    var rotation: real
    var x: real
    var z: real
    var keys: map<string, bool>
    var current: Option<nat>
    var promptVisible: bool
    var modal: Option<nat>
    var engineRunning: bool
    var muted: bool
    var savedMuted: bool
    var cameraAngle: real

    function SceneOf(): Scene
    {
      Scene(solids, landmarks, audio)
    }

    function Snap(): State
      reads this, props
    {
      State(speed, rotation, x, z, props[..], keys, current, promptVisible, modal,
            engineRunning, muted, savedMuted, cameraAngle)
    }

    ghost predicate Valid()
      reads this, props
    {
      Invariant(SceneOf(), Snap())
    }

    /** The state once the scene is built: the car at rest at its start, no key
        pressed, no prompt, the camera at pi/3 and the stored mute preference. */
    constructor (solids: seq<Box>, landmarks: seq<Landmark>, initial: seq<Prop>, audio: bool, mutedPreference: bool)
      requires AnchorsValid(landmarks, |initial|)
      ensures Valid() && fresh(props)
      ensures SceneOf() == Scene(solids, landmarks, audio)
      ensures Snap() == State(0.0, 0.0, StartX, StartZ, initial, map[], None, false, None,
                              false, mutedPreference, mutedPreference, InitialCameraAngle)
    {
      this.solids := solids;
      this.landmarks := landmarks;
      this.audio := audio;
      props := new Prop[|initial|](i requires 0 <= i < |initial| => initial[i]);
      speed, rotation, x, z := 0.0, 0.0, StartX, StartZ;
      keys := map[];
      current, promptVisible, modal := None, false, None;
      engineRunning, muted, savedMuted := false, mutedPreference, mutedPreference;
      cameraAngle := InitialCameraAngle;
    }

    /** playEngineSound: starts only with audio, when not muted and not running. */
    method PlayEngineSound()
      modifies this`engineRunning
      ensures engineRunning == (old(engineRunning) || (audio && !muted))
    {
      if audio && !engineRunning && !muted {
        engineRunning := true;
      }
    }

    /** stopEngineSound. */
    method StopEngineSound()
      modifies this`engineRunning
      ensures !engineRunning
    {
      engineRunning := false;
    }

    /** The solid-object loop: every solid whose box meets the proposed car box
        puts the car back at (oldX, oldZ) and multiplies the speed by -0.3. */
    method ResolveSolids(box: Box, oldX: real, oldZ: real)
      modifies this`x, this`z, this`speed
      ensures speed == Scaled(old(speed), SolidBounce, SolidHits(box, solids))
      ensures SolidHits(box, solids) > 0 ==> x == oldX && z == oldZ
      ensures SolidHits(box, solids) == 0 ==> x == old(x) && z == old(z)
    {
      var i := 0;
      while i < |solids|
        invariant 0 <= i <= |solids|
        invariant speed == Scaled(old(speed), SolidBounce, SolidHits(box, solids[..i]))
        invariant SolidHits(box, solids[..i]) > 0 ==> x == oldX && z == oldZ
        invariant SolidHits(box, solids[..i]) == 0 ==> x == old(x) && z == old(z)
      {
        if Intersects(box, solids[i]) {
          x, z := oldX, oldZ;
          speed := speed * SolidBounce;
        }
        assert solids[..i + 1][..i] == solids[..i];
        i := i + 1;
      }
      assert solids[..|solids|] == solids;
    }

    /** One movable against the car box: the pushed object and the car's speed
        after it (damped by 0.7 when the two meet). The statements are those of
        the loop body, in the source's order; `Push` is the value they are
        proved to compute, which the frame specification uses. */
    static method PushOne(m: Prop, box: Box, cx: real, cz: real, s: real, len: (real, real) -> real)
      returns (r: Prop, t: real)
      ensures r == Push(m, box, cx, cz, s, len)
      ensures t == if Intersects(box, PropBox(m)) then s * PushDamping else s
    {
      r, t := m, s;
      if Intersects(box, PropBox(m)) {
        var dir := Normalize(m.px - cx, m.pz - cz, len);
        var force := Abs(s) * PushForce;
        r := m.(vx := m.vx + dir.0 * force, vz := m.vz + dir.1 * force);
        t := s * PushDamping;
      }
    }

    /** The movable-object loop: every movable whose box meets the car box gets
        an impulse away from the car's current position, and slows the car. */
    method PushMovables(box: Box, len: (real, real) -> real)
      modifies this`speed, props
      ensures props[..] == PushAll(old(props[..]), box, x, z, old(speed), len)
      ensures speed == Scaled(old(speed), PushDamping, PropHits(box, old(props[..])))
    {
      ghost var ms := props[..];
      ghost var s0 := speed;
      var cx, cz := x, z;
      var i := 0;
      while i < props.Length
        invariant 0 <= i <= props.Length
        invariant speed == Scaled(s0, PushDamping, PropHits(box, ms[..i]))
        invariant props[..i] == PushAll(ms[..i], box, cx, cz, s0, len)
        invariant props[i..] == ms[i..]
      {
        assert props[i] == ms[i];
        PushAllSnoc(ms, box, cx, cz, s0, len, i);
        DampStep(ms, box, s0, i);
        ghost var done := props[..i];
        ghost var pushed := Push(ms[i], box, cx, cz, speed, len);
        props[i], speed := PushOne(props[i], box, cx, cz, speed, len);
        assert props[..i + 1] == done + [pushed];
        assert props[i + 1..] == ms[i + 1..];
        i := i + 1;
      }
      assert ms[..props.Length] == ms;
      assert props[..] == props[..props.Length];
    }

    /** One movable's motion for the frame, step by step as the source does it
        (move, friction, each wall, rest test). `Drift` is the value these steps
        are proved to compute, which the frame specification uses. */
    static method DriftOne(m: Prop) returns (r: Prop)
      ensures r == Drift(m)
    {
      var px, pz := m.px + m.vx, m.pz + m.vz;
      var vx, vz := m.vx * Friction, m.vz * Friction;
      if Abs(px) > PropLimit {
        px := Sign(px) * PropLimit;
        vx := vx * WallBounce;
      }
      if Abs(pz) > PropLimit {
        pz := Sign(pz) * PropLimit;
        vz := vz * WallBounce;
      }
      if vx * vx + vz * vz < RestSpeed * RestSpeed {
        vx, vz := 0.0, 0.0;
      }
      r := Prop(px, pz, vx, vz, m.shape);
    }

    /** The movables' own motion: velocity, friction, the +-85 walls and the rest
        threshold, one object at a time. */
    method DriftMovables()
      modifies props
      ensures props[..] == DriftAll(old(props[..]))
    {
      var i := 0;
      while i < props.Length
        invariant 0 <= i <= props.Length
        invariant forall j :: 0 <= j < i ==> props[j] == Drift(old(props[j]))
        invariant forall j :: i <= j < props.Length ==> props[j] == old(props[j])
      {
        props[i] := DriftOne(props[i]);
        i := i + 1;
      }
    }

    /** Speed, engine sound and heading: W/ArrowUp accelerates, S/ArrowDown
        brakes and reverses, neither coasts toward 0 and stops the engine sound
        below the moving threshold; steering only while moving. */
    method DriveCar()
      modifies this`speed, this`engineRunning, this`rotation
      ensures speed == NextSpeed(old(speed), ControlsOf(keys))
      ensures engineRunning == NextEngine(old(engineRunning), ControlsOf(keys), speed, audio, muted)
      ensures rotation == NextRotation(old(rotation), speed, ControlsOf(keys))
    {
      var c := ControlsOf(keys);
      if c.accelerate {
        speed := Min(speed + Acceleration, MaxSpeed);
        if !engineRunning { PlayEngineSound(); }
      } else if c.brake {
        speed := Max(speed - Acceleration, ReverseLimit);
        if !engineRunning { PlayEngineSound(); }
      } else {
        if speed > 0.0 {
          speed := Max(0.0, speed - Deceleration);
        } else if speed < 0.0 {
          speed := Min(0.0, speed + Deceleration);
        }
        if Abs(speed) < MovingThreshold && engineRunning { StopEngineSound(); }
      }
      if Abs(speed) > MovingThreshold {
        if c.left { rotation := rotation + TurnSpeed; }
        if c.right { rotation := rotation - TurnSpeed; }
      }
    }

    /** Move along the heading, take the car's box at the new position once,
        and answer the solids. */
    method MoveCar(h: Host) returns (box: Box)
      modifies this`x, this`z, this`speed
      ensures box == ProposedBox(old(Snap()), h)
      ensures Snap() == Collide(SceneOf(), old(Snap()), h)
    {
      var oldX, oldZ := x, z;
      x := x + h.sin(rotation) * speed;
      z := z + h.cos(rotation) * speed;
      box := h.carBox(x, z, rotation);
      assert x == ProposedX(old(Snap()), h) && z == ProposedZ(old(Snap()), h);
      ResolveSolids(box, oldX, oldZ);
    }

    /** The movables' motion, then the car's bounds. */
    method SettleAll()
      modifies this`x, this`z, props
      ensures Snap() == Settle(old(Snap()))
    {
      DriftMovables();
      x := Max(-CarLimit, Min(CarLimit, x));
      z := Max(-CarLimit, Min(CarLimit, z));
    }

    /** The nearest-object scan, the prompt, and the E key. */
    method UpdatePrompt()
      requires AnchorsValid(landmarks, props.Length)
      modifies this`current, this`promptVisible, this`modal, this`keys
      ensures Snap() == Interact(SceneOf(), old(Snap()))
    {
      var near := FindNearest(Points(landmarks, props[..]), x, z);
      if near.Some? && near != current {
        current := near;
        promptVisible := true;
      } else if near.None? {
        current := None;
        promptVisible := false;
      }
      if Held(keys, "KeyE") && current.Some? {
        modal := current;
        keys := keys["KeyE" := false];
      }
    }

    /** updateCar: one frame. */
    method UpdateCar(h: Host)
      requires Valid()
      modifies this, props
      ensures Valid()
      ensures Snap() == Tick(SceneOf(), old(Snap()), h)
    {
      ghost var s0 := Snap();
      DriveCar();
      assert Snap() == Drive(SceneOf(), s0);
      ghost var s1 := Snap();
      var box := MoveCar(h);
      ghost var s2 := Snap();
      PushMovables(box, h.length);
      assert Snap() == PushProps(s2, box, h);
      SettleAll();
      UpdatePrompt();
      TickKeepsInvariant(SceneOf(), s0, h);
    }

    /** The wheel handler's angle update. */
    method HandleWheel(deltaY: real)
      requires Valid()
      modifies this`cameraAngle
      ensures Valid()
      ensures Snap() == Simulation.Wheel(old(Snap()), deltaY)
    {
      var delta := deltaY * WheelStep;
      cameraAngle := cameraAngle - delta;
      cameraAngle := Max(MinCameraAngle, Min(MaxCameraAngle, cameraAngle));
      HandlersKeepInvariant(SceneOf(), old(Snap()), deltaY, "");
    }

    /** toggleMute. */
    method ToggleMute()
      requires Valid()
      modifies this`muted, this`engineRunning, this`savedMuted
      ensures Valid()
      ensures Snap() == Simulation.ToggleMute(old(Snap()))
    {
      muted := !muted;
      if muted && engineRunning {
        StopEngineSound();
      }
      savedMuted := muted;
      HandlersKeepInvariant(SceneOf(), old(Snap()), 0.0, "");
    }

    /** The keydown handler. */
    method KeyDown(code: string)
      requires Valid()
      modifies this`keys
      ensures Valid()
      ensures Snap() == Simulation.KeyDown(old(Snap()), code)
    {
      keys := keys[code := true];
      HandlersKeepInvariant(SceneOf(), old(Snap()), 0.0, code);
    }

    /** The keyup handler. */
    method KeyUp(code: string)
      requires Valid()
      modifies this`keys
      ensures Valid()
      ensures Snap() == Simulation.KeyUp(old(Snap()), code)
    {
      keys := keys[code := false];
      HandlersKeepInvariant(SceneOf(), old(Snap()), 0.0, code);
    }
  }
}
