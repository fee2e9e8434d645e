/** Coordinate grid builder: the window centres that tile one data source's
    bounding box (WkwData.get_data_mesh). */
module Mesh {
  import opened Geometry
  import opened RowMajor

  /** np.arange(start, stop, step) for integers and a positive step. */
  function Arange(start: int, stop: int, step: nat): (r: seq<int>)
    requires step > 0
    decreases stop - start
    ensures |r| == if stop <= start then 0 else (stop - start + step - 1) / step
    ensures forall i :: 0 <= i < |r| ==> r[i] == start + i * step
  {
    if stop <= start then []
    else
      var rest := Arange(start + step, stop, step);
      ArangeLengthStep(stop - start, step, |rest|);
      [start] + rest
  }

  /** One element more than the arange that starts one step later. */
  lemma {:induction false} ArangeLengthStep(a: int, step: nat, restLen: int)
    requires step > 0 && a > 0
    requires restLen == if a <= step then 0 else (a - step + step - 1) / step
    ensures 1 + restLen == (a + step - 1) / step
  {
    if a <= step {
      DivModUnique(a + step - 1, step, 1, a - 1);
    } else {
      var q, r := (a - 1) / step, (a - 1) % step;
      DivModUnique(a + step - 1, step, q + 1, r);
    }
  }

  /** n_fits along one axis: floor((extent - window) / stride) + 1. It is
      zero or negative when the window does not fit. */
  function FitCount(extent: nat, window: nat, stride: nat): int
    requires stride > 0
  {
    (extent - window) / stride + 1
  }

  /** The number of coordinates np.arange yields for n_fits. */
  function AxisLength(extent: nat, window: nat, stride: nat): nat
    requires stride > 0
  {
    var n := FitCount(extent, window, stride);
    if n > 0 then n else 0
  }

  /** The window-centre coordinates along one axis, built as the source
      does: corner_min = floor(origin + window / 2), corner_max =
      corner_min + (n_fits - 1) * stride, arange(corner_min, corner_max + stride, stride). */
  function AxisCoords(origin: int, extent: nat, window: nat, stride: nat): (r: seq<int>)
    requires stride > 0
    ensures |r| == AxisLength(extent, window, stride)
    ensures forall i :: 0 <= i < |r| ==> r[i] == origin + window / 2 + i * stride
  {
    var cornerMin := origin + window / 2;
    var n := FitCount(extent, window, stride);
    var cornerMax := cornerMin + (n - 1) * stride;
    ArangeOfFits(cornerMin, n, stride);
    Arange(cornerMin, cornerMax + stride, stride)
  }

  /** arange(c, c + n * stride, stride) has max(n, 0) entries. */
  lemma {:induction false} ArangeOfFits(c: int, n: int, stride: nat)
    requires stride > 0
    ensures |Arange(c, c + (n - 1) * stride + stride, stride)| == if n > 0 then n else 0
  {
    assert (n - 1) * stride + stride == n * stride;
    if n > 0 {
      DivModUnique(n * stride + stride - 1, stride, n, stride - 1);
    } else {
      MulMono(n, 0, stride);
    }
  }

  type Grid3 = seq<seq<seq<int>>>

  /** The three arrays np.meshgrid(x, y, z) returns, with their common shape. */
  datatype Mesh = Mesh(x: Grid3, y: Grid3, z: Grid3, dims: Dims)

  predicate IsGrid(g: Grid3, d: Dims) {
    && |g| == d.d0
    && (forall i :: 0 <= i < d.d0 ==> |g[i]| == d.d1)
    && (forall i, j :: 0 <= i < d.d0 && 0 <= j < d.d1 ==> |g[i][j]| == d.d2)
  }

  predicate WellFormed(m: Mesh) {
    IsGrid(m.x, m.dims) && IsGrid(m.y, m.dims) && IsGrid(m.z, m.dims)
  }

  function At(g: Grid3, c: Cell): int
    requires c.i0 < |g| && c.i1 < |g[c.i0]| && c.i2 < |g[c.i0][c.i1]|
  {
    g[c.i0][c.i1][c.i2]
  }

  /** The centre held by one cell of the mesh: (xm[c], ym[c], zm[c]). */
  function Center(m: Mesh, c: Cell): Vec3
    requires WellFormed(m) && InBounds(c, m.dims)
  {
    Vec3(At(m.x, c), At(m.y, c), At(m.z, c))
  }

  /** np.meshgrid(xs, ys, zs) with its default 'xy' indexing: the arrays
      have shape (len(ys), len(xs), len(zs)), so axis 0 indexes y and
      axis 1 indexes x. */
  function MeshGrid(xs: seq<int>, ys: seq<int>, zs: seq<int>): (m: Mesh)
    ensures m.dims == Dims(|ys|, |xs|, |zs|) && WellFormed(m)
    ensures forall c :: InBounds(c, m.dims) ==>
      Center(m, c) == Vec3(xs[c.i1], ys[c.i0], zs[c.i2])
  {
    Mesh(seq(|ys|, i => seq(|xs|, j requires 0 <= j < |xs| => seq(|zs|, k => xs[j]))),
         seq(|ys|, i requires 0 <= i < |ys| => seq(|xs|, j => seq(|zs|, k => ys[i]))),
         seq(|ys|, i => seq(|xs|, j => seq(|zs|, k requires 0 <= k < |zs| => zs[k]))),
         Dims(|ys|, |xs|, |zs|))
  }

  /** The grid of window centres for a data source box, a window shape
      and a stride (the 'input' and the 'target' entries of the source's
      result are the same arrays). */
  function DataMesh(box: BBox, window: Shape3, stride: Shape3): (m: Mesh)
    requires Positive(stride)
    ensures WellFormed(m)
    ensures m.dims == Dims(AxisLength(box.extent.y, window.y, stride.y),
                           AxisLength(box.extent.x, window.x, stride.x),
                           AxisLength(box.extent.z, window.z, stride.z))
  {
    MeshGrid(AxisCoords(box.origin.x, box.extent.x, window.x, stride.x),
             AxisCoords(box.origin.y, box.extent.y, window.y, stride.y),
             AxisCoords(box.origin.z, box.extent.z, window.z, stride.z))
  }

  /** Every cell of the grid holds corner_min + (i1, i0, i2) * stride,
      with corner_min = origin + floor(window / 2): x follows the second
      array axis and y the first. */
  lemma {:induction false} DataMeshCenter(box: BBox, window: Shape3, stride: Shape3, c: Cell)
    requires Positive(stride)
    requires InBounds(c, DataMesh(box, window, stride).dims)
    ensures Center(DataMesh(box, window, stride), c) ==
      Vec3(box.origin.x + window.x / 2 + c.i1 * stride.x,
           box.origin.y + window.y / 2 + c.i0 * stride.y,
           box.origin.z + window.z / 2 + c.i2 * stride.z)
  {
    var xs := AxisCoords(box.origin.x, box.extent.x, window.x, stride.x);
    var ys := AxisCoords(box.origin.y, box.extent.y, window.y, stride.y);
    var zs := AxisCoords(box.origin.z, box.extent.z, window.z, stride.z);
    assert Center(MeshGrid(xs, ys, zs), c) == Vec3(xs[c.i1], ys[c.i0], zs[c.i2]);
  }

  /** The grid has one cell per window placement: the product of the
      per-axis counts (in the grid's axis order y, x, z), and none when the
      window does not fit along an axis. */
  lemma {:induction false} DataMeshCellCount(box: BBox, window: Shape3, stride: Shape3)
    requires Positive(stride)
    ensures Size(DataMesh(box, window, stride).dims) ==
      AxisLength(box.extent.y, window.y, stride.y) *
      (AxisLength(box.extent.x, window.x, stride.x) * AxisLength(box.extent.z, window.z, stride.z))
    ensures Size(DataMesh(box, window, stride).dims) == 0 <==>
      (box.extent.x < window.x || box.extent.y < window.y || box.extent.z < window.z)
  {
    var nx := AxisLength(box.extent.x, window.x, stride.x);
    var ny := AxisLength(box.extent.y, window.y, stride.y);
    var nz := AxisLength(box.extent.z, window.z, stride.z);
    FitCountPositive(box.extent.x, window.x, stride.x);
    FitCountPositive(box.extent.y, window.y, stride.y);
    FitCountPositive(box.extent.z, window.z, stride.z);
    ProductZero(nx, nz);
    ProductZero(ny, nx * nz);
  }

  /** A product of naturals is zero exactly when a factor is. */
  lemma {:induction false} ProductZero(a: nat, b: nat)
    ensures a * b == 0 <==> a == 0 || b == 0
  {
    if a > 0 && b > 0 {
      MulAtLeast(a, b);
    }
  }

  /** At least one window fits along an axis exactly when it is no larger
      than the extent. */
  lemma {:induction false} FitCountPositive(extent: nat, window: nat, stride: nat)
    requires stride > 0
    ensures AxisLength(extent, window, stride) > 0 <==> window <= extent
  {
    if window > extent {
      DivModUnique(extent - window, stride, (extent - window) / stride, (extent - window) % stride);
      assert extent - window < 0;
      if (extent - window) / stride >= 0 {
        MulMono(0, (extent - window) / stride, stride);
      }
    }
  }
}
