/** The result volumes of write_output_to_cache and the padding of targets:
    float volumes whose unset voxels hold NaN, C-order reshape, numpy's
    slice assignment with broadcasting, and np.pad with a constant. */
module Sparse {
  import opened Outcomes
  import opened Geometry
  import opened RowMajor
  import Cube

  /** A dense float array indexed [x][y][z]. */
  type Values = seq<seq<seq<real>>>

  /** A float32 result volume; None stands for NaN (not yet written). */
  type Volume = seq<seq<seq<Option<real>>>>

  function Dims3(s: Shape3): Dims {
    Dims(s.x, s.y, s.z)
  }

  predicate InShape(s: Shape3, i: int, j: int, k: int) {
    0 <= i < s.x && 0 <= j < s.y && 0 <= k < s.z
  }

  /** np.full(shape, np.nan): a volume with nothing written. */
  function Unknown(s: Shape3): (v: Volume)
    ensures Cube.HasShape(v, s)
    ensures forall i, j, k :: InShape(s, i, j, k) ==> v[i][j][k] == None
  {
    seq(s.x, i => seq(s.y, j => seq(s.z, k => None)))
  }

  /** The value of a flat C-order array at a cell. */
  function FlatAt(flat: seq<real>, d: Dims, c: Cell): real
    requires |flat| == Size(d) && InBounds(c, d)
  {
    UnravelRavel(c, d);
    flat[Ravel(c, d)]
  }

  /** ndarray.reshape(shape) of an array whose values, in C order, are
      `flat`: it fails unless the element counts agree. */
  function Reshape(flat: seq<real>, s: Shape3): (r: Result<Values>)
    ensures r.Err? <==> |flat| != Size(Dims3(s))
    ensures r.Err? ==> r.error == ShapeMismatch
    ensures r.Ok? ==> Cube.HasShape(r.value, s)
  {
    var d := Dims3(s);
    if |flat| != Size(d) then Err(ShapeMismatch)
    else Ok(seq(s.x, i requires 0 <= i < s.x =>
              seq(s.y, j requires 0 <= j < s.y =>
                seq(s.z, k requires 0 <= k < s.z => FlatAt(flat, d, Cell(i, j, k))))))
  }

  /** The C-order flattening (ravel) of an array of shape s. */
  function Flatten<T>(c: seq<seq<seq<T>>>, s: Shape3): (r: seq<T>)
    requires Cube.HasShape(c, s)
    ensures |r| == Size(Dims3(s))
  {
    seq(Size(Dims3(s)), n requires 0 <= n < Size(Dims3(s)) =>
      var cl := Unravel(n, Dims3(s));
      c[cl.i0][cl.i1][cl.i2])
  }

  /** Reshaping the flattening of an array gives the array back. */
  lemma {:induction false} ReshapeFlatten(c: Values, s: Shape3)
    requires Cube.HasShape(c, s)
    ensures Reshape(Flatten(c, s), s) == Ok(c)
  {
    var d := Dims3(s);
    var flat := Flatten(c, s);
    var r := Reshape(flat, s).value;
    forall i, j, k | InShape(s, i, j, k) ensures r[i][j][k] == c[i][j][k] {
      UnravelRavel(Cell(i, j, k), d);
    }
    Cube.CubeExt(r, c, s);
  }

  /** Flattening a reshaped array gives the flat values back. */
  lemma {:induction false} FlattenReshape(flat: seq<real>, s: Shape3)
    requires |flat| == Size(Dims3(s))
    ensures Reshape(flat, s).Ok? && Flatten(Reshape(flat, s).value, s) == flat
  {
    var d := Dims3(s);
    var r := Reshape(flat, s).value;
    var back := Flatten(r, s);
    forall n | 0 <= n < |flat| ensures back[n] == flat[n] {
      var cl := Unravel(n, d);
      assert back[n] == r[cl.i0][cl.i1][cl.i2];
    }
  }

  /** The index range [a, b) that the Python slice lo:hi selects on an axis
      of length n; an empty selection is reported as [a, a). */
  function AxisRange(lo: int, hi: int, n: nat): (r: (nat, nat))
    ensures r.0 <= r.1 <= n
    ensures 0 <= lo <= hi <= n ==> r == (lo, hi)
  {
    var a, b := SliceBound(lo, n), SliceBound(hi, n);
    if b <= a then (a, a) else (a, b)
  }

  /** numpy broadcasts a value axis of length t onto a target axis of
      length len when they agree or when t is 1. */
  predicate Broadcasts(t: nat, len: nat) {
    t == len || t == 1
  }

  /** The value index that target offset d reads under broadcasting. */
  function BroadcastIndex(t: nat, d: nat): nat {
    if t == 1 then 0 else d
  }

  /** The selection of vol[lo.x:hi.x, lo.y:hi.y, lo.z:hi.z] on a volume of
      shape s, as three index ranges. */
  function Region(s: Shape3, lo: Vec3, hi: Vec3): (r: ((nat, nat), (nat, nat), (nat, nat))) {
    (AxisRange(lo.x, hi.x, s.x), AxisRange(lo.y, hi.y, s.y), AxisRange(lo.z, hi.z, s.z))
  }

  predicate InRegion(rg: ((nat, nat), (nat, nat), (nat, nat)), i: int, j: int, k: int) {
    rg.0.0 <= i < rg.0.1 && rg.1.0 <= j < rg.1.1 && rg.2.0 <= k < rg.2.1
  }

  /** vol[lo.x:hi.x, lo.y:hi.y, lo.z:hi.z] = val, where val has shape t:
      it fails unless val broadcasts onto the selected region. */
  function AssignRegion(vol: Volume, s: Shape3, lo: Vec3, hi: Vec3, val: Values, t: Shape3): (r: Result<Volume>)
    requires Cube.HasShape(vol, s) && Cube.HasShape(val, t)
    ensures var rg := Region(s, lo, hi);
      r.Err? <==> !(Broadcasts(t.x, rg.0.1 - rg.0.0) && Broadcasts(t.y, rg.1.1 - rg.1.0)
                    && Broadcasts(t.z, rg.2.1 - rg.2.0))
    ensures r.Err? ==> r.error == ShapeMismatch
    ensures r.Ok? ==> Cube.HasShape(r.value, s)
  {
    var rg := Region(s, lo, hi);
    var (ax, ex) := rg.0;
    var (ay, ey) := rg.1;
    var (az, ez) := rg.2;
    if !(Broadcasts(t.x, ex - ax) && Broadcasts(t.y, ey - ay) && Broadcasts(t.z, ez - az)) then
      Err(ShapeMismatch)
    else
      Ok(seq(s.x, i requires 0 <= i < s.x =>
           seq(s.y, j requires 0 <= j < s.y =>
             seq(s.z, k requires 0 <= k < s.z =>
               if InRegion(rg, i, j, k)
               then Some(val[BroadcastIndex(t.x, i - ax)][BroadcastIndex(t.y, j - ay)][BroadcastIndex(t.z, k - az)])
               else vol[i][j][k]))))
  }

  /** The write of write_output_to_cache, for a block inside the volume:
      it succeeds, sets exactly the cells [lo, lo + t) to the block's values
      and leaves every other cell as it was. */
  lemma {:induction false} AssignBlock(vol: Volume, s: Shape3, lo: Vec3, val: Values, t: Shape3)
    requires Cube.HasShape(vol, s) && Cube.HasShape(val, t)
    requires 0 <= lo.x && lo.x + t.x <= s.x
    requires 0 <= lo.y && lo.y + t.y <= s.y
    requires 0 <= lo.z && lo.z + t.z <= s.z
    ensures AssignRegion(vol, s, lo, Add(lo, AsVec(t)), val, t).Ok?
    ensures var w := AssignRegion(vol, s, lo, Add(lo, AsVec(t)), val, t).value;
      forall i, j, k :: InShape(s, i, j, k) ==>
        w[i][j][k] == if InShape(t, i - lo.x, j - lo.y, k - lo.z)
                      then Some(val[i - lo.x][j - lo.y][k - lo.z]) else vol[i][j][k]
  {
    var rg := Region(s, lo, Add(lo, AsVec(t)));
    assert rg == ((lo.x, lo.x + t.x), (lo.y, lo.y + t.y), (lo.z, lo.z + t.z));
  }

  /** np.floor((input_shape - output_shape) / 2) per axis; the division by
      a positive constant rounds toward minus infinity, as np.floor does. */
  function PadWidths(inputShape: Shape3, outputShape: Shape3): (w: Vec3)
    ensures AtMost(outputShape, inputShape) ==>
      && 2 * w.x <= inputShape.x - outputShape.x <= 2 * w.x + 1
      && 2 * w.y <= inputShape.y - outputShape.y <= 2 * w.y + 1
      && 2 * w.z <= inputShape.z - outputShape.z <= 2 * w.z + 1
  {
    Vec3((inputShape.x - outputShape.x) / 2, (inputShape.y - outputShape.y) / 2,
         (inputShape.z - outputShape.z) / 2)
  }

  /** The padded cell value: the source value inside, the constant outside. */
  function PadAt<T>(a: seq<seq<seq<T>>>, s: Shape3, w: Vec3, zero: T, i: int, j: int, k: int): T
    requires Cube.HasShape(a, s)
  {
    if InShape(s, i - w.x, j - w.y, k - w.z) then a[i - w.x][j - w.y][k - w.z] else zero
  }

  /** np.pad(a, ((w.x, w.x), (w.y, w.y), (w.z, w.z)), 'constant'): a
      negative width raises. */
  function Pad<T>(a: seq<seq<seq<T>>>, s: Shape3, w: Vec3, zero: T): (r: Result<seq<seq<seq<T>>>>)
    requires Cube.HasShape(a, s)
    ensures r.Err? <==> w.x < 0 || w.y < 0 || w.z < 0
    ensures r.Err? ==> r.error == NegativePadding
    ensures r.Ok? ==> Cube.HasShape(r.value, Shape3(s.x + 2 * w.x, s.y + 2 * w.y, s.z + 2 * w.z))
  {
    if w.x < 0 || w.y < 0 || w.z < 0 then Err(NegativePadding)
    else
      var n := Shape3(s.x + 2 * w.x, s.y + 2 * w.y, s.z + 2 * w.z);
      Ok(seq(n.x, i => seq(n.y, j => seq(n.z, k => PadAt(a, s, w, zero, i, j, k)))))
  }

  /** Padding is undone by slicing at the widths: the original array sits
      in the middle of the padded one. */
  lemma {:induction false} UnpadPad<T>(a: seq<seq<seq<T>>>, s: Shape3, w: Vec3, zero: T)
    requires Cube.HasShape(a, s)
    requires w.x >= 0 && w.y >= 0 && w.z >= 0
    ensures Pad(a, s, w, zero).Ok?
    ensures Cube.Slice3(Pad(a, s, w, zero).value, w, s) == a
  {
    var n := Shape3(s.x + 2 * w.x, s.y + 2 * w.y, s.z + 2 * w.z);
    var p := Pad(a, s, w, zero).value;
    forall i, j, k | InShape(s, i, j, k) ensures p[w.x + i][w.y + j][w.z + k] == a[i][j][k] {
      assert InShape(s, (w.x + i) - w.x, (w.y + j) - w.y, (w.z + k) - w.z);
    }
    Cube.SliceMatches(p, n, w, a, s);
  }

  /** Every cell of the border the padding adds holds the constant. */
  lemma {:induction false} PadBorder<T>(a: seq<seq<seq<T>>>, s: Shape3, w: Vec3, zero: T, i: nat, j: nat, k: nat)
    requires Cube.HasShape(a, s)
    requires w.x >= 0 && w.y >= 0 && w.z >= 0
    requires InShape(Shape3(s.x + 2 * w.x, s.y + 2 * w.y, s.z + 2 * w.z), i, j, k)
    requires !InShape(s, i - w.x, j - w.y, k - w.z)
    ensures Pad(a, s, w, zero).value[i][j][k] == zero
  {
  }

  /** Padding a target of the output shape by PadWidths yields the input
      shape when the two shapes differ by an even amount on every axis. */
  lemma {:induction false} PadToInputShape<T>(a: seq<seq<seq<T>>>, inputShape: Shape3, outputShape: Shape3, zero: T)
    requires Cube.HasShape(a, outputShape) && AtMost(outputShape, inputShape)
    requires (inputShape.x - outputShape.x) % 2 == 0 && (inputShape.y - outputShape.y) % 2 == 0
    requires (inputShape.z - outputShape.z) % 2 == 0
    ensures Pad(a, outputShape, PadWidths(inputShape, outputShape), zero).Ok?
    ensures Cube.HasShape(Pad(a, outputShape, PadWidths(inputShape, outputShape), zero).value, inputShape)
  {
  }
}
