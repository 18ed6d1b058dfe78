/** The car physics of the scene's per-frame `updateCar` (script.js): speed,
    steering, the response to solid and movable objects, and the movable
    objects' own motion. All numbers are reals: floating-point rounding is not
    modelled. */
module Physics {
  import opened Geometry

  const MaxSpeed: real := 0.3
  /** Reverse is capped at half the forward maximum. */
  const ReverseLimit: real := -MaxSpeed * 0.5
  const Acceleration: real := 0.01
  const Deceleration: real := 0.005
  const TurnSpeed: real := 0.03
  /** Below this speed the car does not turn and a coasting engine is stopped. */
  const MovingThreshold: real := 0.01
  /** Speed factor for each solid object the car runs into. */
  const SolidBounce: real := -0.3
  /** Speed factor for each movable object the car pushes. */
  const PushDamping: real := 0.7
  const PushForce: real := 2.0
  const Friction: real := 0.92
  /** Movable objects stay within this distance of the origin on each axis. */
  const PropLimit: real := 85.0
  const WallBounce: real := -0.5
  /** A movable object slower than this comes to rest. */
  const RestSpeed: real := 0.01
  /** The car stays within this distance of the origin on each axis. */
  const CarLimit: real := 90.0

  /** The driving intents read from the pressed-keys map at the start of a frame. */
  datatype Controls = Controls(accelerate: bool, brake: bool, left: bool, right: bool)

  /** `keysPressed[code]` is truthy: a key never pressed is absent. */
  predicate Held(keys: map<string, bool>, code: string)
  {
    code in keys && keys[code]
  }

  /** Each intent is held through either of its two keys. */
  function ControlsOf(keys: map<string, bool>): (c: Controls)
  {
    Controls(Held(keys, "KeyW") || Held(keys, "ArrowUp"),
             Held(keys, "KeyS") || Held(keys, "ArrowDown"),
             Held(keys, "KeyA") || Held(keys, "ArrowLeft"),
             Held(keys, "KeyD") || Held(keys, "ArrowRight"))
  }

  predicate SpeedInRange(s: real)
  {
    ReverseLimit <= s <= MaxSpeed
  }

  // ---------------------------------------------------------------- speed

  /** Accelerate, else brake, else coast toward zero without crossing it. */
  function NextSpeed(s: real, c: Controls): real
  {
    if c.accelerate then Min(s + Acceleration, MaxSpeed)
    else if c.brake then Max(s - Acceleration, ReverseLimit)
    else if s > 0.0 then Max(0.0, s - Deceleration)
    else if s < 0.0 then Min(0.0, s + Deceleration)
    else s
  }

  lemma NextSpeedInRange(s: real, c: Controls)
    requires SpeedInRange(s)
    ensures SpeedInRange(NextSpeed(s, c))
  {
  }

  /** Accelerating never slows a car that is within its limits and gains at most
      `Acceleration`; braking (without accelerating) mirrors it in reverse. */
  lemma AccelerateAndBrake(s: real, c: Controls)
    requires SpeedInRange(s)
    ensures c.accelerate ==>
      s <= NextSpeed(s, c) <= s + Acceleration &&
      (NextSpeed(s, c) == MaxSpeed || NextSpeed(s, c) == s + Acceleration)
    ensures !c.accelerate && c.brake ==>
      s - Acceleration <= NextSpeed(s, c) <= s &&
      (NextSpeed(s, c) == ReverseLimit || NextSpeed(s, c) == s - Acceleration)
  {
  }

  /** With neither pedal held the speed moves toward zero by `Deceleration`, or
      stops at zero, and never changes sign. */
  lemma CoastTowardZero(s: real, c: Controls)
    requires !c.accelerate && !c.brake
    ensures var r := NextSpeed(s, c);
      (s >= 0.0 ==> 0.0 <= r <= s) &&
      (s <= 0.0 ==> s <= r <= 0.0) &&
      Abs(r) <= Abs(s) &&
      (r == 0.0 || Abs(s) - Abs(r) == Deceleration) &&
      Abs(s) - Abs(r) <= Deceleration
  {
  }

  /** isEngineRunning after the speed update: pressing a pedal starts the engine
      sound when audio is available and not muted; coasting below the moving
      threshold stops it. `s` is the updated speed. */
  function NextEngine(running: bool, c: Controls, s: real, audio: bool, muted: bool): (r: bool)
    ensures r && !running ==> (c.accelerate || c.brake) && audio && !muted
    ensures running && !r ==> !c.accelerate && !c.brake && Abs(s) < MovingThreshold
    ensures (c.accelerate || c.brake) && audio && !muted ==> r
    ensures !c.accelerate && !c.brake && Abs(s) < MovingThreshold ==> !r
  {
    if c.accelerate || c.brake then running || (audio && !muted)
    else running && !(Abs(s) < MovingThreshold)
  }

  // ------------------------------------------------------------- steering

  /** Left adds `TurnSpeed`, then right subtracts it, only while moving. `s` is
      the updated speed. */
  function NextRotation(rot: real, s: real, c: Controls): real
  {
    if Abs(s) > MovingThreshold then
      var turned := if c.left then rot + TurnSpeed else rot;
      if c.right then turned - TurnSpeed else turned
    else rot
  }

  lemma SteeringOnlyWhileMoving(rot: real, s: real, c: Controls)
    ensures Abs(s) <= MovingThreshold ==> NextRotation(rot, s, c) == rot
    ensures Abs(s) > MovingThreshold ==>
      NextRotation(rot, s, c) - rot ==
        if c.left && !c.right then TurnSpeed
        else if c.right && !c.left then -TurnSpeed
        else 0.0
  {
  }

  // ----------------------------------------------------- repeated factors

  /** `s` multiplied `k` times by `factor`: s * factor^k. */
  function Scaled(s: real, factor: real, k: nat): real
  {
    if k == 0 then s else Scaled(s, factor, k - 1) * factor
  }

  /** Bouncing off any number of solids keeps the speed within its limits and
      never makes it larger. */
  lemma {:induction false} BounceStaysInRange(s: real, k: nat)
    requires SpeedInRange(s)
    ensures SpeedInRange(Scaled(s, SolidBounce, k))
    ensures Abs(Scaled(s, SolidBounce, k)) <= Abs(s)
  {
    if k > 0 {
      BounceStaysInRange(s, k - 1);
    }
  }

  /** Pushing any number of movables keeps the speed within its limits, keeps its
      sign and never makes it larger. */
  lemma {:induction false} DampingStaysInRange(s: real, k: nat)
    requires SpeedInRange(s)
    ensures SpeedInRange(Scaled(s, PushDamping, k))
    ensures Abs(Scaled(s, PushDamping, k)) <= Abs(s)
    ensures s >= 0.0 ==> Scaled(s, PushDamping, k) >= 0.0
    ensures s <= 0.0 ==> Scaled(s, PushDamping, k) <= 0.0
  {
    if k > 0 {
      DampingStaysInRange(s, k - 1);
    }
  }

  // ------------------------------------------------------- solid objects

  /** The number of solid boxes the car box overlaps. */
  function SolidHits(car: Box, solids: seq<Box>): (k: nat)
    ensures k <= |solids|
  {
    if solids == [] then 0
    else SolidHits(car, solids[..|solids| - 1]) + (if Intersects(car, solids[|solids| - 1]) then 1 else 0)
  }

  /** No bounce happens exactly when the car box meets no solid. */
  lemma {:induction false} NoSolidHits(car: Box, solids: seq<Box>)
    ensures SolidHits(car, solids) == 0 <==> forall i :: 0 <= i < |solids| ==> !Intersects(car, solids[i])
  {
    if solids != [] {
      var init := solids[..|solids| - 1];
      NoSolidHits(car, init);
      assert forall i :: 0 <= i < |init| ==> init[i] == solids[i];
    }
  }

  // ----------------------------------------------------- movable objects

  /** A movable object: its mesh position, its velocity, and its box relative to
      its position (its shape and orientation never change). */
  datatype Prop = Prop(px: real, pz: real, vx: real, vz: real, shape: Box)

  function PropBox(m: Prop): Box
  {
    Translate(m.shape, m.px, m.pz)
  }

  /** The number of movables whose boxes the car box overlaps. */
  function PropHits(car: Box, ms: seq<Prop>): (k: nat)
    ensures k <= |ms|
  {
    if ms == [] then 0
    else PropHits(car, ms[..|ms| - 1]) + (if Intersects(car, PropBox(ms[|ms| - 1])) then 1 else 0)
  }

  /** No push damping happens exactly when the car box meets no movable. */
  lemma {:induction false} NoPropHits(car: Box, ms: seq<Prop>)
    ensures PropHits(car, ms) == 0 <==> forall i :: 0 <= i < |ms| ==> !Intersects(car, PropBox(ms[i]))
  {
    if ms != [] {
      var init := ms[..|ms| - 1];
      NoPropHits(car, init);
      assert forall i :: 0 <= i < |init| ==> init[i] == ms[i];
    }
  }

  /** The push a movable receives from a car at (cx, cz) moving at speed `s`: its
      velocity gains the normalised car-to-object direction times |s| * 2.
      `len` is the library's vector length. */
  function Push(m: Prop, car: Box, cx: real, cz: real, s: real, len: (real, real) -> real): (r: Prop)
    ensures r.px == m.px && r.pz == m.pz && r.shape == m.shape
    ensures !Intersects(car, PropBox(m)) ==> r == m
  {
    if Intersects(car, PropBox(m)) then
      var dir := Normalize(m.px - cx, m.pz - cz, len);
      var force := Abs(s) * PushForce;
      m.(vx := m.vx + dir.0 * force, vz := m.vz + dir.1 * force)
    else m
  }

  /** All pushes of one frame, in list order: each overlapping movable is pushed
      with the car's speed as damped by the overlapping movables before it. */
  function PushAll(ms: seq<Prop>, car: Box, cx: real, cz: real, s: real, len: (real, real) -> real): (r: seq<Prop>)
    ensures |r| == |ms|
  {
    if ms == [] then []
    else
      var n := |ms| - 1;
      PushAll(ms[..n], car, cx, cz, s, len) +
        [Push(ms[n], car, cx, cz, Scaled(s, PushDamping, PropHits(car, ms[..n])), len)]
  }

  /** Entry j of `PushAll` is movable j pushed with the speed the overlapping
      movables before it left. */
  lemma {:induction false} PushAllAt(ms: seq<Prop>, car: Box, cx: real, cz: real, s: real, len: (real, real) -> real, j: nat)
    requires j < |ms|
    ensures PushAll(ms, car, cx, cz, s, len)[j] == Push(ms[j], car, cx, cz, Scaled(s, PushDamping, PropHits(car, ms[..j])), len)
  {
    var n := |ms| - 1;
    if j < n {
      PushAllAt(ms[..n], car, cx, cz, s, len, j);
      assert ms[..n][..j] == ms[..j];
    }
  }

  /** Extending the list by one movable extends the pushes by that movable's push. */
  lemma PushAllSnoc(ms: seq<Prop>, car: Box, cx: real, cz: real, s: real, len: (real, real) -> real, i: nat)
    requires i < |ms|
    ensures PushAll(ms[..i + 1], car, cx, cz, s, len) ==
      PushAll(ms[..i], car, cx, cz, s, len) + [Push(ms[i], car, cx, cz, Scaled(s, PushDamping, PropHits(car, ms[..i])), len)]
  {
    assert ms[..i + 1][..i] == ms[..i];
  }

  lemma PropHitsStep(car: Box, ms: seq<Prop>, i: nat)
    requires i < |ms|
    ensures PropHits(car, ms[..i + 1]) == PropHits(car, ms[..i]) + (if Intersects(car, PropBox(ms[i])) then 1 else 0)
  {
    assert ms[..i + 1][..i] == ms[..i];
  }

  /** Step j of the push loop: the speed after movable j is the speed the
      movables before it left, damped once more when movable j overlaps. */
  lemma DampStep(ms: seq<Prop>, car: Box, s: real, j: nat)
    requires j < |ms|
    ensures var before := Scaled(s, PushDamping, PropHits(car, ms[..j]));
      Scaled(s, PushDamping, PropHits(car, ms[..j + 1])) ==
        (if Intersects(car, PropBox(ms[j])) then before * PushDamping else before)
  {
    PropHitsStep(car, ms, j);
  }

  /** An overlapping movable's velocity changes by `force` = |s| * 2 along the
      car-to-object direction divided by the direction's length (or not divided,
      when that length is 0). */
  lemma PushImpulse(m: Prop, car: Box, cx: real, cz: real, s: real, len: (real, real) -> real)
    requires Intersects(car, PropBox(m))
    ensures var r := Push(m, car, cx, cz, s, len);
      var dx, dz, force := m.px - cx, m.pz - cz, Abs(s) * PushForce;
      var l := len(dx, dz);
      (l != 0.0 ==> (r.vx - m.vx) * l == dx * force && (r.vz - m.vz) * l == dz * force) &&
      (l == 0.0 ==> r.vx - m.vx == dx * force && r.vz - m.vz == dz * force)
  {
    var dx, dz, force := m.px - cx, m.pz - cz, Abs(s) * PushForce;
    var dir := Normalize(dx, dz, len);
    NormalizeScales(dx, dz, len);
    MulSwap(dir.0, force, len(dx, dz));
    MulSwap(dir.1, force, len(dx, dz));
  }

  /** When the direction the library returns is a unit vector, the velocity
      change has length |s| * 2. */
  lemma PushImpulseLength(m: Prop, car: Box, cx: real, cz: real, s: real, len: (real, real) -> real)
    requires Intersects(car, PropBox(m))
    ensures var r := Push(m, car, cx, cz, s, len);
      var dir := Normalize(m.px - cx, m.pz - cz, len);
      var force := Abs(s) * PushForce;
      dir.0 * dir.0 + dir.1 * dir.1 == 1.0 ==>
        (r.vx - m.vx) * (r.vx - m.vx) + (r.vz - m.vz) * (r.vz - m.vz) == force * force
  {
    var dir := Normalize(m.px - cx, m.pz - cz, len);
    var r := Push(m, car, cx, cz, s, len);
    if dir.0 * dir.0 + dir.1 * dir.1 == 1.0 {
      UnitScaled(dir.0, dir.1, Abs(s) * PushForce, r.vx - m.vx, r.vz - m.vz);
    }
  }

  lemma MulSwap(a: real, f: real, l: real)
    ensures (a * f) * l == (a * l) * f
  {
  }

  /** A unit vector (n0, n1) scaled by f has squared length f * f. */
  lemma UnitScaled(n0: real, n1: real, f: real, a: real, b: real)
    requires n0 * n0 + n1 * n1 == 1.0
    requires a == n0 * f && b == n1 * f
    ensures a * a + b * b == f * f
  {
    calc {
      a * a + b * b;
      (n0 * f) * (n0 * f) + (n1 * f) * (n1 * f);
      (n0 * n0) * (f * f) + (n1 * n1) * (f * f);
      (n0 * n0 + n1 * n1) * (f * f);
    }
  }

  /** A velocity component after friction, and after the half-strength bounce
      when the position `p` it produced lies beyond a wall. */
  function WallVelocity(v: real, p: real): real
  {
    if Abs(p) > PropLimit then v * Friction * WallBounce else v * Friction
  }

  /** One frame of a movable's own motion: move by the velocity, apply friction,
      keep within the limits on each axis (bouncing that velocity component back
      at half strength), and come to rest when slower than `RestSpeed`. The rest
      test compares squared lengths, which agrees with Vector3.length() < 0.01. */
  function Drift(m: Prop): (r: Prop)
    ensures Abs(r.px) <= PropLimit && Abs(r.pz) <= PropLimit
    ensures Abs(m.px + m.vx) <= PropLimit ==> r.px == m.px + m.vx
    ensures Abs(m.pz + m.vz) <= PropLimit ==> r.pz == m.pz + m.vz
    ensures var vx, vz := WallVelocity(m.vx, m.px + m.vx), WallVelocity(m.vz, m.pz + m.vz);
      (vx * vx + vz * vz < RestSpeed * RestSpeed ==> r.vx == 0.0 && r.vz == 0.0) &&
      (vx * vx + vz * vz >= RestSpeed * RestSpeed ==> r.vx == vx && r.vz == vz)
    ensures (r.vx == 0.0 && r.vz == 0.0) || r.vx * r.vx + r.vz * r.vz >= RestSpeed * RestSpeed
    ensures r.shape == m.shape
  {
    var px, pz := m.px + m.vx, m.pz + m.vz;
    var vx, vz := m.vx * Friction, m.vz * Friction;
    var px', vx' := if Abs(px) > PropLimit then Sign(px) * PropLimit else px,
                    if Abs(px) > PropLimit then vx * WallBounce else vx;
    var pz', vz' := if Abs(pz) > PropLimit then Sign(pz) * PropLimit else pz,
                    if Abs(pz) > PropLimit then vz * WallBounce else vz;
    if vx' * vx' + vz' * vz' < RestSpeed * RestSpeed then Prop(px', pz', 0.0, 0.0, m.shape)
    else Prop(px', pz', vx', vz', m.shape)
  }

  /** A movable that crosses a limit is put on it, on the side it crossed, and
      that velocity component becomes its friction-reduced value times -0.5;
      it is 0 instead exactly when the velocity after friction and bounces is
      shorter than `RestSpeed`. */
  lemma DriftAtWall(m: Prop)
    ensures var r := Drift(m);
      var vx, vz := WallVelocity(m.vx, m.px + m.vx), WallVelocity(m.vz, m.pz + m.vz);
      var moving := vx * vx + vz * vz >= RestSpeed * RestSpeed;
      (m.px + m.vx > PropLimit ==> r.px == PropLimit && r.vx == (if moving then m.vx * Friction * WallBounce else 0.0)) &&
      (m.px + m.vx < -PropLimit ==> r.px == -PropLimit && r.vx == (if moving then m.vx * Friction * WallBounce else 0.0)) &&
      (m.pz + m.vz > PropLimit ==> r.pz == PropLimit && r.vz == (if moving then m.vz * Friction * WallBounce else 0.0)) &&
      (m.pz + m.vz < -PropLimit ==> r.pz == -PropLimit && r.vz == (if moving then m.vz * Friction * WallBounce else 0.0))
  {
  }

  /** A movable at rest inside the limits stays where it is. */
  lemma DriftAtRest(m: Prop)
    requires m.vx == 0.0 && m.vz == 0.0
    requires Abs(m.px) <= PropLimit && Abs(m.pz) <= PropLimit
    ensures Drift(m) == m
  {
  }

  function DriftAll(ms: seq<Prop>): (r: seq<Prop>)
    ensures |r| == |ms|
    ensures forall i :: 0 <= i < |r| ==> Abs(r[i].px) <= PropLimit && Abs(r[i].pz) <= PropLimit
  {
    seq(|ms|, j requires 0 <= j < |ms| => Drift(ms[j]))
  }
}
