/** Voxel cubes as the wkw library reads and writes them, the store they
    come from, Python's slicing of a cube, the cache directory mapping and
    the data-completeness test of WkwData. */
module Cube {
  import opened Outcomes
  import opened Geometry

  /** A wkw dataset path (a directory name). */
  type Path = string

  /** The channel values of one voxel: wkw arrays are (channel, x, y, z),
      so a cube here holds the channel axis inside each voxel. */
  type Voxel = seq<int>

  /** A cube indexed [x][y][z]. */
  type Cube = seq<seq<seq<Voxel>>>

  /** The file system as the wkw library sees it: the voxel stored at every
      point of every dataset path. */
  datatype Store = Store(at: (Path, Vec3) -> Voxel)

  /** Every row has the lengths of the shape. */
  predicate HasShape<T>(c: seq<seq<seq<T>>>, s: Shape3) {
    && |c| == s.x
    && (forall i :: 0 <= i < |c| ==> |c[i]| == s.y)
    && (forall i, j :: 0 <= i < |c| && 0 <= j < |c[i]| ==> |c[i][j]| == s.z)
  }

  /** wkw_read(path, box): the voxels of the box, origin first. */
  function Read(st: Store, path: Path, box: BBox): (c: Cube)
    ensures HasShape(c, box.extent)
    ensures forall i, j, k :: 0 <= i < box.extent.x && 0 <= j < box.extent.y && 0 <= k < box.extent.z ==>
      c[i][j][k] == st.at(path, Vec3(box.origin.x + i, box.origin.y + j, box.origin.z + k))
  {
    seq(box.extent.x, i =>
      seq(box.extent.y, j =>
        seq(box.extent.z, k => st.at(path, Vec3(box.origin.x + i, box.origin.y + j, box.origin.z + k)))))
  }

  /** c[lo.x : lo.x + ext.x, lo.y : lo.y + ext.y, lo.z : lo.z + ext.z] with
      Python's slice rules on every axis. */
  function Slice3<T>(c: seq<seq<seq<T>>>, lo: Vec3, ext: Shape3): seq<seq<seq<T>>> {
    var xs := Slice(c, lo.x, lo.x + ext.x);
    seq(|xs|, i requires 0 <= i < |xs| => Slice2(xs[i], lo, ext))
  }

  /** The y and z slices of one x-plane of a cube. */
  function Slice2<T>(p: seq<seq<T>>, lo: Vec3, ext: Shape3): seq<seq<T>> {
    var ys := Slice(p, lo.y, lo.y + ext.y);
    seq(|ys|, j requires 0 <= j < |ys| => Slice(ys[j], lo.z, lo.z + ext.z))
  }

  /** Two cubes of one shape that agree voxel by voxel are equal. */
  lemma {:induction false} CubeExt<T>(a: seq<seq<seq<T>>>, b: seq<seq<seq<T>>>, s: Shape3)
    requires HasShape(a, s) && HasShape(b, s)
    requires forall i, j, k :: 0 <= i < s.x && 0 <= j < s.y && 0 <= k < s.z ==> a[i][j][k] == b[i][j][k]
    ensures a == b
  {
    forall i | 0 <= i < s.x ensures a[i] == b[i] {
      forall j | 0 <= j < s.y ensures a[i][j] == b[i][j] {
        assert |a[i][j]| == |b[i][j]| == s.z;
      }
    }
  }

  /** A slice whose bounds lie inside the cube is the plain sub-cube. */
  lemma {:induction false} SliceInside<T>(c: seq<seq<seq<T>>>, s: Shape3, lo: Vec3, ext: Shape3)
    requires HasShape(c, s)
    requires 0 <= lo.x && lo.x + ext.x <= s.x
    requires 0 <= lo.y && lo.y + ext.y <= s.y
    requires 0 <= lo.z && lo.z + ext.z <= s.z
    ensures HasShape(Slice3(c, lo, ext), ext)
    ensures forall i, j, k :: 0 <= i < ext.x && 0 <= j < ext.y && 0 <= k < ext.z ==>
      Slice3(c, lo, ext)[i][j][k] == c[lo.x + i][lo.y + j][lo.z + k]
  {
    var r := Slice3(c, lo, ext);
    assert Slice(c, lo.x, lo.x + ext.x) == c[lo.x..lo.x + ext.x];
    assert |r| == ext.x;
    forall i | 0 <= i < ext.x
      ensures |r[i]| == ext.y
      ensures forall j :: 0 <= j < ext.y ==> |r[i][j]| == ext.z
      ensures forall j, k :: 0 <= j < ext.y && 0 <= k < ext.z ==> r[i][j][k] == c[lo.x + i][lo.y + j][lo.z + k]
    {
      assert r[i] == Slice2(c[lo.x + i], lo, ext);
      PlaneInside(c[lo.x + i], s, lo, ext);
    }
  }

  /** A plane slice whose bounds lie inside the plane is the plain sub-plane. */
  lemma {:induction false} PlaneInside<T>(p: seq<seq<T>>, s: Shape3, lo: Vec3, ext: Shape3)
    requires |p| == s.y && forall j :: 0 <= j < |p| ==> |p[j]| == s.z
    requires 0 <= lo.y && lo.y + ext.y <= s.y
    requires 0 <= lo.z && lo.z + ext.z <= s.z
    ensures |Slice2(p, lo, ext)| == ext.y
    ensures forall j :: 0 <= j < ext.y ==> |Slice2(p, lo, ext)[j]| == ext.z
    ensures forall j, k :: 0 <= j < ext.y && 0 <= k < ext.z ==> Slice2(p, lo, ext)[j][k] == p[lo.y + j][lo.z + k]
  {
    var q := Slice2(p, lo, ext);
    assert Slice(p, lo.y, lo.y + ext.y) == p[lo.y..lo.y + ext.y];
    forall j | 0 <= j < ext.y
      ensures q[j] == p[lo.y + j][lo.z..lo.z + ext.z]
    {
    }
  }

  /** Slicing the read of a box at the offset of a box inside it gives the
      read of the inner box: what a memory-cache hit relies on. */
  lemma {:induction false} SliceOfRead(st: Store, path: Path, outer: BBox, inner: BBox)
    requires Within(inner, outer)
    ensures Slice3(Read(st, path, outer), Sub(inner.origin, outer.origin), inner.extent) == Read(st, path, inner)
  {
    var c, want := Read(st, path, outer), Read(st, path, inner);
    var d, e := Sub(inner.origin, outer.origin), inner.extent;
    forall i, j, k | 0 <= i < e.x && 0 <= j < e.y && 0 <= k < e.z
      ensures c[d.x + i][d.y + j][d.z + k] == want[i][j][k]
    {
      ReadShift(st, path, outer, inner, i, j, k);
    }
    SliceMatches(c, outer.extent, d, want, e);
  }

  /** A slice inside the cube equals any cube whose voxels are the ones
      at the slice's offset. */
  lemma {:induction false} SliceMatches<T>(c: seq<seq<seq<T>>>, s: Shape3, lo: Vec3, want: seq<seq<seq<T>>>, e: Shape3)
    requires HasShape(c, s) && HasShape(want, e)
    requires 0 <= lo.x && lo.x + e.x <= s.x
    requires 0 <= lo.y && lo.y + e.y <= s.y
    requires 0 <= lo.z && lo.z + e.z <= s.z
    requires forall i, j, k :: 0 <= i < e.x && 0 <= j < e.y && 0 <= k < e.z ==>
      c[lo.x + i][lo.y + j][lo.z + k] == want[i][j][k]
    ensures Slice3(c, lo, e) == want
  {
    SliceInside(c, s, lo, e);
    CubeExt(Slice3(c, lo, e), want, e);
  }

  /** A voxel of the inner box sits at the offset position in the outer read. */
  lemma {:induction false} ReadShift(st: Store, path: Path, outer: BBox, inner: BBox, i: nat, j: nat, k: nat)
    requires Within(inner, outer)
    requires i < inner.extent.x && j < inner.extent.y && k < inner.extent.z
    ensures var d := Sub(inner.origin, outer.origin);
      Read(st, path, outer)[d.x + i][d.y + j][d.z + k] == Read(st, path, inner)[i][j][k]
  {
    var d := Sub(inner.origin, outer.origin);
    assert Vec3(outer.origin.x + (d.x + i), outer.origin.y + (d.y + j), outer.origin.z + (d.z + k))
        == Vec3(inner.origin.x + i, inner.origin.y + j, inner.origin.z + k);
  }

  /** The voxel of `data` at a point, with the data's origin at `offset`. */
  predicate InData(data: Cube, offset: Vec3, v: Vec3) {
    var i, j, k := v.x - offset.x, v.y - offset.y, v.z - offset.z;
    0 <= i < |data| && 0 <= j < |data[i]| && 0 <= k < |data[i][j]|
  }

  /** wkw_write(path, box, data): the data's own voxels land at the box
      origin onwards (the box extent is not used); everything else keeps its
      value. */
  function WriteBlock(st: Store, path: Path, offset: Vec3, data: Cube): Store {
    Store((p: Path, v: Vec3) =>
      if p == path && InData(data, offset, v)
      then data[v.x - offset.x][v.y - offset.y][v.z - offset.z]
      else st.at(p, v))
  }

  /** wkw_create(path): a new dataset with the default single channel, in
      which every voxel reads as zero. */
  function Created(st: Store, path: Path): (r: Store)
    ensures forall v :: r.at(path, v) == [0]
    ensures forall p, v :: p != path ==> r.at(p, v) == st.at(p, v)
  {
    Store((p: Path, v: Vec3) => if p == path then [0] else st.at(p, v))
  }

  /** Reading back the box just written returns the data written. */
  lemma {:induction false} ReadAfterWrite(st: Store, path: Path, box: BBox, data: Cube)
    requires HasShape(data, box.extent)
    ensures Read(WriteBlock(st, path, box.origin, data), path, box) == data
  {
    var r := Read(WriteBlock(st, path, box.origin, data), path, box);
    forall i, j, k | 0 <= i < box.extent.x && 0 <= j < box.extent.y && 0 <= k < box.extent.z
      ensures r[i][j][k] == data[i][j][k]
    {
      assert InData(data, box.origin, Vec3(box.origin.x + i, box.origin.y + j, box.origin.z + k));
    }
    CubeExt(r, data, box.extent);
  }

  /** A write changes no other path and no voxel outside the data. */
  lemma {:induction false} WriteBlockFrame(st: Store, path: Path, offset: Vec3, data: Cube, p: Path, v: Vec3)
    requires p != path || !InData(data, offset, v)
    ensures WriteBlock(st, path, offset, data).at(p, v) == st.at(p, v)
  {
  }

  /** A read of a box that misses the written path, or lies outside the
      written data, sees what it saw before. */
  lemma {:induction false} ReadUnaffected(st: Store, path: Path, offset: Vec3, data: Cube, p: Path, box: BBox)
    requires p != path
    ensures Read(WriteBlock(st, path, offset, data), p, box) == Read(st, p, box)
  {
    var a, b := Read(WriteBlock(st, path, offset, data), p, box), Read(st, p, box);
    forall i, j, k | 0 <= i < box.extent.x && 0 <= j < box.extent.y && 0 <= k < box.extent.z
      ensures a[i][j][k] == b[i][j][k]
    {
      WriteBlockFrame(st, path, offset, data, p, Vec3(box.origin.x + i, box.origin.y + j, box.origin.z + k));
    }
    CubeExt(a, b, box.extent);
  }

  /** os.path.join(root, path[1:]) for two components on POSIX: a second
      component that is absolute replaces the root, and a separator is
      inserted unless the root is empty or already ends in one. */
  function CachePath(root: Path, path: Path): (r: Path)
    ensures |path| >= 2 && path[0] == '/' && path[1] != '/' && |root| > 0 && root[|root| - 1] != '/' ==>
      r == root + path
    ensures |path| >= 2 && path[0] == '/' && path[1] != '/' && |root| > 0 && root[|root| - 1] == '/' ==>
      r == root + path[1..]
  {
    var rest := if |path| == 0 then "" else path[1..];
    if |rest| > 0 && rest[0] == '/' then rest
    else if |root| == 0 || root[|root| - 1] == '/' then root + rest
    else root + "/" + rest
  }

  /** Some channel of the voxel is non-zero. */
  predicate NonZero(v: Voxel) {
    exists ch :: 0 <= ch < |v| && v[ch] != 0
  }

  /** np.any(data[:, i, :, :]) */
  predicate AnyAtX(c: Cube, i: nat) {
    exists j, k :: i < |c| && 0 <= j < |c[i]| && 0 <= k < |c[i][j]| && NonZero(c[i][j][k])
  }

  /** np.any(data[:, :, j, :]) */
  predicate AnyAtY(c: Cube, j: nat) {
    exists i, k :: 0 <= i < |c| && j < |c[i]| && 0 <= k < |c[i][j]| && NonZero(c[i][j][k])
  }

  /** np.any(data[:, :, :, k]) */
  predicate AnyAtZ(c: Cube, k: nat) {
    exists i, j :: 0 <= i < |c| && 0 <= j < |c[i]| && k < |c[i][j]| && NonZero(c[i][j][k])
  }

  /** assert_data_completeness: all six faces (index 0 and index -1 of each
      spatial axis) hold a non-zero value. All six terms are evaluated, so
      indexing an empty axis raises. */
  function DataCompleteness(c: Cube): (r: Result<bool>)
    ensures r.Err? <==> |c| == 0 || |c[0]| == 0 || |c[0][0]| == 0
    ensures r.Err? ==> r.error == EmptyFace
  {
    if |c| == 0 || |c[0]| == 0 || |c[0][0]| == 0 then Err(EmptyFace)
    else
      var nx, ny, nz := |c|, |c[0]|, |c[0][0]|;
      Ok(AnyAtX(c, 0) && AnyAtX(c, nx - 1) && AnyAtY(c, 0) && AnyAtY(c, ny - 1)
         && AnyAtZ(c, 0) && AnyAtZ(c, nz - 1))
  }

  /** On a cube of shape s the test fails exactly when an axis is empty,
      and is true exactly when each face of the box holds a non-zero voxel. */
  lemma {:induction false} CompletenessFaces(c: Cube, s: Shape3)
    requires HasShape(c, s)
    ensures DataCompleteness(c).Err? <==> !Positive(s)
    ensures var lx, ly, lz := s.x - 1, s.y - 1, s.z - 1;
      DataCompleteness(c) == Ok(true) <==>
      && Positive(s)
      && (exists j, k :: 0 <= j < s.y && 0 <= k < s.z && NonZero(c[0][j][k]))
      && (exists j, k :: 0 <= j < s.y && 0 <= k < s.z && NonZero(c[lx][j][k]))
      && (exists i, k :: 0 <= i < s.x && 0 <= k < s.z && NonZero(c[i][0][k]))
      && (exists i, k :: 0 <= i < s.x && 0 <= k < s.z && NonZero(c[i][ly][k]))
      && (exists i, j :: 0 <= i < s.x && 0 <= j < s.y && NonZero(c[i][j][0]))
      && (exists i, j :: 0 <= i < s.x && 0 <= j < s.y && NonZero(c[i][j][lz]))
  {
  }

  /** A cube of positive shape with a zero voxel everywhere (a cache region
      never written) is incomplete. */
  lemma {:induction false} ZeroCubeIncomplete(c: Cube, s: Shape3)
    requires HasShape(c, s) && Positive(s)
    requires forall i, j, k :: 0 <= i < s.x && 0 <= j < s.y && 0 <= k < s.z ==> !NonZero(c[i][j][k])
    ensures DataCompleteness(c) == Ok(false)
  {
    assert !AnyAtX(c, 0);
  }

  /** A cube of positive shape with no zero voxel is complete. */
  lemma {:induction false} FullCubeComplete(c: Cube, s: Shape3)
    requires HasShape(c, s) && Positive(s)
    requires forall i, j, k :: 0 <= i < s.x && 0 <= j < s.y && 0 <= k < s.z ==> NonZero(c[i][j][k])
    ensures DataCompleteness(c) == Ok(true)
  {
    assert NonZero(c[0][0][0]) && NonZero(c[s.x - 1][0][0]) && NonZero(c[0][s.y - 1][0]);
    assert NonZero(c[0][0][s.z - 1]);
  }
}
