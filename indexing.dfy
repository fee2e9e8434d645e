/** Index translator: the contiguous global index range of every data
    source, and the translation of a global sample index to its source, its
    grid cell, its window centre and its window box. */
module Indexing {
  import opened Outcomes
  import opened RowMajor
  import opened Geometry
  import opened Mesh

  function Sum(s: seq<nat>): nat {
    if s == [] then 0 else Sum(s[..|s| - 1]) + s[|s| - 1]
  }

  lemma {:induction false} SumPrefixStep(s: seq<nat>, i: nat)
    requires i < |s|
    ensures Sum(s[..i + 1]) == Sum(s[..i]) + s[i]
  {
    assert s[..i + 1][..i] == s[..i];
  }

  lemma {:induction false} SumPrefixMono(s: seq<nat>, i: nat, j: nat)
    requires i <= j <= |s|
    ensures Sum(s[..i]) <= Sum(s[..j])
    decreases j - i
  {
    if i < j {
      SumPrefixStep(s, j - 1);
      SumPrefixMono(s, i, j - 1);
    }
  }

  /** The number of grid cells of every data source, in registration order. */
  function CellCounts(meshes: seq<Mesh>): (r: seq<nat>)
    ensures |r| == |meshes|
    ensures forall i :: 0 <= i < |meshes| ==> r[i] == Size(meshes[i].dims)
  {
    seq(|meshes|, i requires 0 <= i < |meshes| => Size(meshes[i].dims))
  }

  /** Closed form of the ranges: source i owns the global indices from the
      sum of the earlier cell counts up to that sum plus its own count, minus one. */
  predicate RangesFor(counts: seq<nat>, mins: seq<int>, maxs: seq<int>) {
    && |mins| == |counts| && |maxs| == |counts|
    && forall i :: 0 <= i < |counts| ==>
         mins[i] == Sum(counts[..i]) && maxs[i] == Sum(counts[..i + 1]) - 1
  }

  /** The ranges follow the recurrence the source writes down: the first
      minimum is 0, every later minimum is the previous maximum plus one,
      every maximum is the minimum plus the cell count minus one, and the
      dataset length is the last maximum plus one. */
  lemma {:induction false} RangesRecurrence(counts: seq<nat>, mins: seq<int>, maxs: seq<int>)
    requires RangesFor(counts, mins, maxs)
    ensures |counts| > 0 ==> mins[0] == 0
    ensures forall i :: 0 < i < |counts| ==> mins[i] == maxs[i - 1] + 1
    ensures forall i :: 0 <= i < |counts| ==> maxs[i] == mins[i] + counts[i] - 1
    ensures |counts| > 0 ==> Len(maxs) == Ok(Sum(counts))
  {
    forall i | 0 <= i < |counts| ensures maxs[i] == mins[i] + counts[i] - 1 {
      SumPrefixStep(counts, i);
    }
    if |counts| > 0 {
      assert counts[..|counts|] == counts;
    }
  }

  /** __len__: the last maximum plus one; indexing [-1] fails on no sources. */
  function Len(maxs: seq<int>): (r: Result<int>)
    ensures r.Err? <==> maxs == []
  {
    if maxs == [] then Err(EmptySequence) else Ok(maxs[|maxs| - 1] + 1)
  }

  /** The scan behind np.argmax(maxs >= idx), from position `from` on. */
  function ArgFirst(maxs: seq<int>, idx: int, from: nat): (r: nat)
    requires from <= |maxs|
    decreases |maxs| - from
    ensures (exists i :: from <= i < |maxs| && maxs[i] >= idx) ==>
      from <= r < |maxs| && maxs[r] >= idx && forall j :: from <= j < r ==> maxs[j] < idx
    ensures (forall i :: from <= i < |maxs| ==> maxs[i] < idx) ==> r == 0
  {
    if from == |maxs| then 0
    else if maxs[from] >= idx then from
    else ArgFirst(maxs, idx, from + 1)
  }

  /** np.argmax(np.asarray(maxs) >= idx): the first source whose maximum is
      at least idx, 0 when there is none, and an error on no sources. */
  function FirstAtLeast(maxs: seq<int>, idx: int): (r: Result<nat>)
    ensures r.Err? <==> maxs == []
    ensures r.Ok? ==> r.value < |maxs|
    ensures r.Ok? && (exists i :: 0 <= i < |maxs| && maxs[i] >= idx) ==>
      maxs[r.value] >= idx && forall j :: 0 <= j < r.value ==> maxs[j] < idx
    ensures r.Ok? && (forall i :: 0 <= i < |maxs| ==> maxs[i] < idx) ==> r.value == 0
  {
    if maxs == [] then Err(EmptySequence) else Ok(ArgFirst(maxs, idx, 0))
  }

  /** get_source_mesh_for_sample_idx: the owning source and the unravelled
      cell of idx - min within that source's mesh shape. unravel_index
      rejects a position outside [0, size). */
  function SourceMeshForSampleIdx(mins: seq<int>, maxs: seq<int>, meshes: seq<Mesh>, idx: int)
    : Result<(nat, Cell)>
    requires |mins| == |maxs| == |meshes|
  {
    match FirstAtLeast(maxs, idx)
    case Err(e) => Err(e)
    case Ok(s) =>
      var local := idx - mins[s];
      if 0 <= local < Size(meshes[s].dims) then Ok((s, Unravel(local, meshes[s].dims)))
      else Err(IndexOutOfBounds)
  }

  /** The meshes are well formed and the ranges were assigned from their
      cell counts. */
  predicate Tiled(mins: seq<int>, maxs: seq<int>, meshes: seq<Mesh>) {
    && (forall i :: 0 <= i < |meshes| ==> WellFormed(meshes[i]))
    && RangesFor(CellCounts(meshes), mins, maxs)
  }

  /** The ranges tile [0, len): every index in it lies in the range of
      exactly one source, the first whose maximum reaches it. */
  lemma {:induction false} RangesTile(counts: seq<nat>, mins: seq<int>, maxs: seq<int>, idx: int, s: nat)
    requires RangesFor(counts, mins, maxs)
    requires 0 <= idx < Sum(counts)
    requires FirstAtLeast(maxs, idx) == Ok(s)
    ensures s < |counts| && mins[s] <= idx <= maxs[s]
    ensures forall t :: 0 <= t < |counts| && mins[t] <= idx <= maxs[t] ==> t == s
  {
    var n := |counts|;
    assert maxs[n - 1] >= idx by {
      assert counts[..n] == counts;
    }
    assert maxs[s] >= idx && forall j :: 0 <= j < s ==> maxs[j] < idx;
    assert mins[s] <= idx by {
      if s > 0 {
        SumPrefixStep(counts, s - 1);
        assert mins[s] == maxs[s - 1] + 1;
      }
    }
    forall t | 0 <= t < n && mins[t] <= idx <= maxs[t] ensures t == s {
      if t > s {
        SumPrefixMono(counts, s + 1, t);
      }
    }
  }

  /** Every index in [0, len) is translated: to the source whose range holds
      it, and to an in-bounds cell that ravels back to idx - min. */
  lemma {:induction false} LocateInRange(mins: seq<int>, maxs: seq<int>, meshes: seq<Mesh>, idx: int)
    requires Tiled(mins, maxs, meshes)
    requires 0 <= idx < Sum(CellCounts(meshes))
    ensures SourceMeshForSampleIdx(mins, maxs, meshes, idx).Ok?
    ensures var (s, c) := SourceMeshForSampleIdx(mins, maxs, meshes, idx).value;
      && s < |meshes| && mins[s] <= idx <= maxs[s]
      && InBounds(c, meshes[s].dims) && mins[s] + Ravel(c, meshes[s].dims) == idx
      && forall t :: 0 <= t < |meshes| && mins[t] <= idx <= maxs[t] ==> t == s
  {
    var counts := CellCounts(meshes);
    assert |maxs| > 0;
    var s := FirstAtLeast(maxs, idx).value;
    RangesTile(counts, mins, maxs, idx, s);
    SumPrefixStep(counts, s);
  }

  /** Indices outside [0, len) are rejected. */
  lemma {:induction false} LocateOutOfRange(mins: seq<int>, maxs: seq<int>, meshes: seq<Mesh>, idx: int)
    requires Tiled(mins, maxs, meshes)
    requires idx < 0 || idx >= Sum(CellCounts(meshes))
    ensures SourceMeshForSampleIdx(mins, maxs, meshes, idx).Err?
  {
    var counts := CellCounts(meshes);
    var n := |counts|;
    if n > 0 {
      var s := FirstAtLeast(maxs, idx).value;
      if idx < 0 {
        assert maxs[0] == counts[0] as int - 1 by { SumPrefixStep(counts, 0); }
        assert s == 0;
      } else {
        forall i | 0 <= i < n ensures maxs[i] < idx {
          SumPrefixMono(counts, i + 1, n);
          assert counts[..n] == counts;
        }
        assert s == 0;
        SumPrefixMono(counts, 1, n);
        SumPrefixStep(counts, 0);
        assert counts[..n] == counts;
      }
    }
  }

  /** The translation is onto: the global index of any in-bounds cell of
      any source, min + ravel(cell), translates back to that source and cell. */
  lemma {:induction false} LocateGlobal(mins: seq<int>, maxs: seq<int>, meshes: seq<Mesh>, s: nat, c: Cell)
    requires Tiled(mins, maxs, meshes)
    requires s < |meshes| && InBounds(c, meshes[s].dims)
    ensures SourceMeshForSampleIdx(mins, maxs, meshes, mins[s] + Ravel(c, meshes[s].dims)) == Ok((s, c))
  {
    var counts := CellCounts(meshes);
    var d := meshes[s].dims;
    var idx := mins[s] + Ravel(c, d);
    UnravelRavel(c, d);
    SumPrefixStep(counts, s);
    assert idx < Sum(counts) by {
      SumPrefixMono(counts, s + 1, |counts|);
      assert counts[..|counts|] == counts;
    }
    var t := FirstAtLeast(maxs, idx).value;
    RangesTile(counts, mins, maxs, idx, t);
    SourceMeshAt(mins, maxs, meshes, s, c);
  }

  /** The translation once the owning source is known: the cell ravels back. */
  lemma {:induction false} SourceMeshAt(mins: seq<int>, maxs: seq<int>, meshes: seq<Mesh>, s: nat, c: Cell)
    requires |mins| == |maxs| == |meshes| && s < |meshes| && InBounds(c, meshes[s].dims)
    requires FirstAtLeast(maxs, mins[s] + Ravel(c, meshes[s].dims)) == Ok(s)
    ensures SourceMeshForSampleIdx(mins, maxs, meshes, mins[s] + Ravel(c, meshes[s].dims)) == Ok((s, c))
  {
    UnravelRavel(c, meshes[s].dims);
  }

  /** 'input' or 'target': which window shape (and which path and box of a
      data source) a lookup uses. */
  datatype Role = Input | Target

  /** get_center_for_sample_idx: the mesh value at the sample's cell. */
  function CenterForSampleIdx(mins: seq<int>, maxs: seq<int>, meshes: seq<Mesh>, idx: int)
    : (r: Result<Vec3>)
    requires |mins| == |maxs| == |meshes|
    requires forall i :: 0 <= i < |meshes| ==> WellFormed(meshes[i])
    ensures r.Ok? <==> SourceMeshForSampleIdx(mins, maxs, meshes, idx).Ok?
  {
    match SourceMeshForSampleIdx(mins, maxs, meshes, idx)
    case Err(e) => Err(e)
    case Ok((s, c)) => Ok(Center(meshes[s], c))
  }

  /** get_bbox_for_sample_idx: the owning source and the window of the
      given shape whose origin is the mesh value minus floor(shape / 2). */
  function BBoxForSampleIdx(mins: seq<int>, maxs: seq<int>, meshes: seq<Mesh>, shape: Shape3, idx: int)
    : (r: Result<(nat, BBox)>)
    requires |mins| == |maxs| == |meshes|
    requires forall i :: 0 <= i < |meshes| ==> WellFormed(meshes[i])
    ensures r.Ok? ==> r.value.0 < |meshes|
  {
    match SourceMeshForSampleIdx(mins, maxs, meshes, idx)
    case Err(e) => Err(e)
    case Ok((s, c)) => Ok((s, BBox(Sub(Center(meshes[s], c), Half(shape)), shape)))
  }

  /** The box of a sample is centred (floor-rounded) on the centre that
      get_center_for_sample_idx returns for the same index, has the window
      shape as extent, and both lookups fail together. */
  lemma {:induction false} BBoxAroundCenter(mins: seq<int>, maxs: seq<int>, meshes: seq<Mesh>, shape: Shape3, idx: int)
    requires |mins| == |maxs| == |meshes|
    requires forall i :: 0 <= i < |meshes| ==> WellFormed(meshes[i])
    ensures BBoxForSampleIdx(mins, maxs, meshes, shape, idx).Ok? <==>
            CenterForSampleIdx(mins, maxs, meshes, idx).Ok?
    ensures BBoxForSampleIdx(mins, maxs, meshes, shape, idx).Ok? ==>
      var b := BBoxForSampleIdx(mins, maxs, meshes, shape, idx).value.1;
      var center := CenterForSampleIdx(mins, maxs, meshes, idx).value;
      b.extent == shape && Add(b.origin, Half(shape)) == center
  {
  }

  /** With meshes built by DataMesh from the sources' input boxes, the
      input-shaped window of every sample lies inside its source's input
      box, and so does a target-shaped window no larger than the input
      window. */
  lemma {:induction false} SampleBoxWithinSource(mins: seq<int>, maxs: seq<int>, meshes: seq<Mesh>,
                              boxes: seq<BBox>, inputShape: Shape3, stride: Shape3,
                              shape: Shape3, idx: int)
    requires Positive(stride) && AtMost(shape, inputShape)
    requires |boxes| == |meshes|
    requires forall i :: 0 <= i < |meshes| ==> meshes[i] == DataMesh(boxes[i], inputShape, stride)
    requires Tiled(mins, maxs, meshes)
    requires BBoxForSampleIdx(mins, maxs, meshes, shape, idx).Ok?
    ensures var (s, b) := BBoxForSampleIdx(mins, maxs, meshes, shape, idx).value;
      Within(b, boxes[s])
  {
    var (s, c) := SourceMeshForSampleIdx(mins, maxs, meshes, idx).value;
    var box := boxes[s];
    DataMeshCenter(box, inputShape, stride, c);
    AxisWithin(box.origin.x, box.extent.x, inputShape.x, stride.x, shape.x, c.i1);
    AxisWithin(box.origin.y, box.extent.y, inputShape.y, stride.y, shape.y, c.i0);
    AxisWithin(box.origin.z, box.extent.z, inputShape.z, stride.z, shape.z, c.i2);
  }

  /** One axis of SampleBoxWithinSource: the j-th centre minus half a
      window no wider than the input window stays inside the extent. */
  lemma {:induction false} AxisWithin(origin: int, extent: nat, window: nat, stride: nat, shape: nat, j: nat)
    requires stride > 0 && shape <= window
    requires j < AxisLength(extent, window, stride)
    ensures var lo := origin + window / 2 + j * stride - shape / 2;
      origin <= lo && lo + shape <= origin + extent
  {
    var q := (extent - window) / stride;
    assert j <= q;
    MulMono(j, q, stride);
    DivModUnique(extent - window, stride, q, (extent - window) % stride);
  }
}
