/** Scalar helpers and the horizontal geometry that the car step borrows from
    the browser's Math object and the 3-D library (boxes, vector normalisation). */
module Geometry {

  function Abs(v: real): real { if v < 0.0 then -v else v }

  /** Math.min and Math.max on two numbers. */
  function Min(a: real, b: real): real { if a <= b then a else b }
  function Max(a: real, b: real): real { if a >= b then a else b }

  /** Math.sign. */
  function Sign(v: real): real { if v > 0.0 then 1.0 else if v < 0.0 then -1.0 else 0.0 }

  /** The clamp idiom Math.max(lo, Math.min(hi, v)). */
  function Clamp(v: real, lo: real, hi: real): (r: real)
    requires lo <= hi
    ensures lo <= r <= hi
    ensures lo <= v <= hi ==> r == v
    ensures v < lo ==> r == lo
    ensures hi < v ==> r == hi
  {
    Max(lo, Min(hi, v))
  }

  /** The horizontal (x/z) extent of an axis-aligned bounding box. */
  datatype Box = Box(minX: real, maxX: real, minZ: real, maxZ: real)

  /** Box3.intersectsBox on the horizontal axes: two boxes meet unless one of the
      four separating planes lies strictly between them (touching counts). */
  predicate Intersects(a: Box, b: Box)
  {
    !(b.maxX < a.minX || b.minX > a.maxX || b.maxZ < a.minZ || b.minZ > a.maxZ)
  }

  /** A box moved by (dx, dz): the world box of an object whose shape and
      orientation are fixed, placed at (dx, dz). */
  function Translate(b: Box, dx: real, dz: real): Box
  {
    Box(b.minX + dx, b.maxX + dx, b.minZ + dz, b.maxZ + dz)
  }

  /** Vector3.normalize on a horizontal vector: divide by the length, or by 1 when
      the length is 0. The length itself is the library's, passed in as `len`. */
  function Normalize(dx: real, dz: real, len: (real, real) -> real): (real, real)
  {
    var d := if len(dx, dz) == 0.0 then 1.0 else len(dx, dz);
    (dx / d, dz / d)
  }

  /** The normalised vector times the length gives the vector back; a zero
      length leaves the vector as it was. */
  lemma NormalizeScales(dx: real, dz: real, len: (real, real) -> real)
    ensures var n := Normalize(dx, dz, len);
      (len(dx, dz) != 0.0 ==> n.0 * len(dx, dz) == dx && n.1 * len(dx, dz) == dz) &&
      (len(dx, dz) == 0.0 ==> n == (dx, dz))
  {
  }
}
