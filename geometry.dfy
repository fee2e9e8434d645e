/** Integer 3-vectors, window shapes, bounding boxes and Python's slice
    arithmetic, shared by the grid builder, the cache and the result writer. */
module Geometry {

  /** A point (or offset) in voxel coordinates, ordered x, y, z. */
  datatype Vec3 = Vec3(x: int, y: int, z: int)

  /** A window shape, stride or box extent, ordered x, y, z. */
  datatype Shape3 = Shape3(x: nat, y: nat, z: nat)

  /** The [x, y, z, ext_x, ext_y, ext_z] list of a data source. */
  datatype BBox = BBox(origin: Vec3, extent: Shape3)

  function Add(a: Vec3, b: Vec3): Vec3 {
    Vec3(a.x + b.x, a.y + b.y, a.z + b.z)
  }

  function Sub(a: Vec3, b: Vec3): Vec3 {
    Vec3(a.x - b.x, a.y - b.y, a.z - b.z)
  }

  function AsVec(s: Shape3): Vec3 {
    Vec3(s.x, s.y, s.z)
  }

  /** np.floor(shape / 2) per axis (a shape is never negative). */
  function Half(s: Shape3): Vec3 {
    Vec3(s.x / 2, s.y / 2, s.z / 2)
  }

  predicate Positive(s: Shape3) {
    s.x > 0 && s.y > 0 && s.z > 0
  }

  predicate AtMost(a: Shape3, b: Shape3) {
    a.x <= b.x && a.y <= b.y && a.z <= b.z
  }

  /** The box `inner` lies inside the box `outer` along every axis. */
  predicate Within(inner: BBox, outer: BBox) {
    && outer.origin.x <= inner.origin.x && inner.origin.x + inner.extent.x <= outer.origin.x + outer.extent.x
    && outer.origin.y <= inner.origin.y && inner.origin.y + inner.extent.y <= outer.origin.y + outer.extent.y
    && outer.origin.z <= inner.origin.z && inner.origin.z + inner.extent.z <= outer.origin.z + outer.extent.z
  }

  /** How Python normalises a slice bound for a sequence of length n:
      a negative bound counts from the end, and the result is clamped. */
  function SliceBound(i: int, n: nat): (r: nat)
    ensures r <= n
    ensures 0 <= i <= n ==> r == i
    ensures i > n ==> r == n
    ensures i < 0 && i + n >= 0 ==> r == i + n
    ensures i + n < 0 ==> r == 0
  {
    if i < 0 then (if i + n < 0 then 0 else i + n)
    else if i > n then n
    else i
  }

  /** s[lo:hi] with Python semantics and step 1. */
  function Slice<T>(s: seq<T>, lo: int, hi: int): (r: seq<T>)
    ensures 0 <= lo <= hi <= |s| ==> r == s[lo..hi]
    ensures |r| <= |s|
  {
    var a, b := SliceBound(lo, |s|), SliceBound(hi, |s|);
    if b <= a then [] else s[a..b]
  }
}
