/** The choice of the interactive object the "press E" prompt offers: the nearest
    interactive object within reach of the car, the first one on ties. */
module Proximity {

  datatype Option<T> = None | Some(value: T)

  /** Where an interactive object is this frame, and whether it is interactive. */
  datatype Point = Point(x: real, y: real, z: real, interactive: bool)

  /** The car's position is on the ground plane. */
  const CarHeight: real := 0.0
  /** Objects at distance 5 or more are out of reach. */
  const Reach: real := 5.0

  /** Squared distance from the car at (cx, CarHeight, cz). Comparing squared
      distances decides `dist < 5` and `dist < minDist` exactly as comparing the
      distances themselves does, since both are non-negative. */
  function DistSq(p: Point, cx: real, cz: real): real
  {
    (p.x - cx) * (p.x - cx) + (p.y - CarHeight) * (p.y - CarHeight) + (p.z - cz) * (p.z - cz)
  }

  predicate Qualifies(p: Point, cx: real, cz: real)
  {
    p.interactive && DistSq(p, cx, cz) < Reach * Reach
  }

  /** The scan of the objects in list order, keeping the first strictly closer
      qualifying object. */
  function Nearest(ps: seq<Point>, cx: real, cz: real): (r: Option<nat>)
    ensures r.Some? ==> r.value < |ps|
  {
    if ps == [] then None
    else
      var best := Nearest(ps[..|ps| - 1], cx, cz);
      var p := ps[|ps| - 1];
      if Qualifies(p, cx, cz) && (best.None? || DistSq(p, cx, cz) < DistSq(ps[best.value], cx, cz))
      then Some(|ps| - 1)
      else best
  }

  /** The selected object qualifies and no qualifying object is closer;
      every qualifying object before it is strictly farther; and nothing is
      selected exactly when nothing qualifies. */
  lemma {:induction false} NearestIsFirstClosest(ps: seq<Point>, cx: real, cz: real)
    ensures Nearest(ps, cx, cz).None? <==> forall j :: 0 <= j < |ps| ==> !Qualifies(ps[j], cx, cz)
    ensures var r := Nearest(ps, cx, cz);
      r.Some? ==>
        Qualifies(ps[r.value], cx, cz) &&
        (forall j :: 0 <= j < |ps| && Qualifies(ps[j], cx, cz) ==> DistSq(ps[r.value], cx, cz) <= DistSq(ps[j], cx, cz)) &&
        (forall j :: 0 <= j < r.value && Qualifies(ps[j], cx, cz) ==> DistSq(ps[r.value], cx, cz) < DistSq(ps[j], cx, cz))
  {
    if ps != [] {
      var init := ps[..|ps| - 1];
      NearestIsFirstClosest(init, cx, cz);
      assert forall j :: 0 <= j < |init| ==> init[j] == ps[j];
    }
  }

  /** The loop of the frame update: `minDist` starts at infinity (here: nothing
      selected yet) and an object is taken when it is within reach, strictly
      closer than the best so far, and interactive. */
  method FindNearest(ps: seq<Point>, cx: real, cz: real) returns (r: Option<nat>)
    ensures r == Nearest(ps, cx, cz)
  {
    r := None;
    var minDist := 0.0;
    var i := 0;
    while i < |ps|
      invariant 0 <= i <= |ps|
      invariant r == Nearest(ps[..i], cx, cz)
      invariant r.Some? ==> r.value < i && minDist == DistSq(ps[r.value], cx, cz)
    {
      var dist := DistSq(ps[i], cx, cz);
      if dist < Reach * Reach && (r.None? || dist < minDist) && ps[i].interactive {
        minDist := dist;
        r := Some(i);
      }
      assert ps[..i + 1][..i] == ps[..i];
      i := i + 1;
    }
    assert ps[..|ps|] == ps;
  }
}
