/** Split planner: train/validation/test index lists, by fraction of a
    permutation or by whole data sources (WkwData.get_data_ind_splits). */
module Splits {
  import opened Outcomes
  import opened Geometry

  /** The three index lists a split produces. */
  datatype Split = Split(train: seq<int>, validation: seq<int>, test: seq<int>)

  /** A DataSplit: fractions (entering as the counts int(frac * len)) or
      lists of data source ids (strata). */
  datatype DataSplit =
    | Fractions(nTrain: nat, nValidation: nat, nTest: nat)
    | Strata(trainIds: seq<string>, validationIds: seq<string>, testIds: seq<string>)

  /** set(s), built element by element. */
  function SetOf(s: seq<int>): set<int> {
    if s == [] then {} else SetOf(s[..|s| - 1]) + {s[|s| - 1]}
  }

  lemma {:induction false} InSetOf(s: seq<int>)
    ensures forall x :: x in SetOf(s) <==> x in s
  {
    if s != [] {
      InSetOf(s[..|s| - 1]);
      assert s == s[..|s| - 1] + [s[|s| - 1]];
    }
  }

  /** set(range(n)) */
  function AllInds(n: nat): (r: set<int>)
    ensures forall x :: x in r <==> 0 <= x < n
  {
    var rng := Range(0, n);
    InSetOf(rng);
    assert forall x :: x in rng <==> 0 <= x < n by {
      forall x | 0 <= x < n ensures x in rng {
        assert rng[x] == x;
      }
    }
    SetOf(rng)
  }

  predicate Distinct(s: seq<int>) {
    forall i, j :: 0 <= i < j < |s| ==> s[i] != s[j]
  }

  /** What np.random.permutation(range(n)) returns: each of 0 .. n-1 once. */
  predicate IsPermutation(perm: seq<int>) {
    Distinct(perm) && SetOf(perm) == AllInds(|perm|)
  }

  function Min(a: int, b: int): int {
    if a <= b then a else b
  }

  /** The three lists are pairwise disjoint, free of repeats, and together
      hold exactly the indices 0 .. n-1. */
  predicate Partition(sp: Split, n: nat) {
    && Distinct(sp.train) && Distinct(sp.validation) && Distinct(sp.test)
    && SetOf(sp.train) !! SetOf(sp.validation)
    && SetOf(sp.train) !! SetOf(sp.test)
    && SetOf(sp.validation) !! SetOf(sp.test)
    && SetOf(sp.train) + SetOf(sp.validation) + SetOf(sp.test) == AllInds(n)
  }

  lemma {:induction false} DistinctCard(s: seq<int>)
    requires Distinct(s)
    ensures |SetOf(s)| == |s|
  {
    if s != [] {
      var t := s[..|s| - 1];
      assert Distinct(t);
      DistinctCard(t);
      InSetOf(t);
    }
  }

  lemma {:induction false} SetOfConcat(a: seq<int>, b: seq<int>)
    ensures SetOf(a + b) == SetOf(a) + SetOf(b)
  {
    if b != [] {
      var c := b[..|b| - 1];
      assert (a + b)[..|a + b| - 1] == a + c;
      SetOfConcat(a, c);
    } else {
      assert a + b == a;
    }
  }

  /** Slices of a repeat-free sequence at disjoint positions share no element. */
  lemma {:induction false} SlicesDisjoint(s: seq<int>, a: nat, b: nat, c: nat, d: nat)
    requires Distinct(s) && a <= b <= c <= d <= |s|
    ensures SetOf(s[a..b]) !! SetOf(s[c..d])
  {
    InSetOf(s[a..b]);
    InSetOf(s[c..d]);
    forall x | x in SetOf(s[a..b]) ensures x !in SetOf(s[c..d]) {
      var i :| 0 <= i < b - a && s[a..b][i] == x;
      assert s[a + i] == x;
    }
  }

  /** The lengths the three fraction slices are cut at: the cumulative
      counts, clamped at the length as Python slices are. */
  function Cuts(n: nat, nTrain: nat, nValidation: nat, nTest: nat): (r: (nat, nat, nat))
    ensures r.0 <= r.1 <= r.2 <= n
  {
    (Min(nTrain, n), Min(nTrain + nValidation, n), Min(nTrain + nValidation + nTest, n))
  }

  /** The split the fraction strategy makes of a permutation: three
      consecutive slices, with whatever follows the last (at most one index
      when it succeeds) appended to train. */
  function FractionSlices(perm: seq<int>, nTrain: nat, nValidation: nat, nTest: nat): Split {
    var (a, b, e) := Cuts(|perm|, nTrain, nValidation, nTest);
    Split(perm[..a] + perm[e..], perm[a..b], perm[b..e])
  }

  /** The fraction split: consecutive slices [0, t), [t, t+v), [t+v, t+v+s)
      of the permutation (Python slices, so clamped at its length); the
      indices no slice took are computed as a set difference, a single one
      is appended to train, and more than one raises. */
  method FractionSplit(perm: seq<int>, nTrain: nat, nValidation: nat, nTest: nat)
    returns (r: Result<Split>)
    requires IsPermutation(perm)
    ensures r.Err? <==> |perm| - Cuts(|perm|, nTrain, nValidation, nTest).2 > 1
    ensures r.Err? ==> r.error == MoreThanOneIndexLeft
    ensures r.Ok? ==> r.value == FractionSlices(perm, nTrain, nValidation, nTest)
  {
    var n := |perm|;
    // Python clamps slice bounds at the length; all bounds here are non-negative.
    var a, b, e := Min(nTrain, n), Min(nTrain + nValidation, n), Min(nTrain + nValidation + nTest, n);
    var train, validation, test := perm[..a], perm[a..b], perm[b..e];
    var left := AllInds(n) - SetOf(train + validation + test);
    FractionLeftover(perm, a, b, e, left);
    if |left| == 1 {
      var x :| x in left;
      train := train + [x];
    } else if |left| > 1 {
      return Err(MoreThanOneIndexLeft);
    } else {
      assert perm[e..] == [];
      assert train == perm[..a] + perm[e..];
    }
    r := Ok(Split(train, validation, test));
  }

  /** What the three slices miss: the indices after the last cut. */
  lemma {:induction false} FractionLeftover(perm: seq<int>, a: nat, b: nat, e: nat, left: set<int>)
    requires IsPermutation(perm) && a <= b <= e <= |perm|
    requires left == AllInds(|perm|) - SetOf(perm[..a] + perm[a..b] + perm[b..e])
    ensures |left| == |perm| - e
    ensures |left| == 1 ==> left == {perm[e]} && perm[e..] == [perm[e]]
  {
    assert perm[..a] + perm[a..b] + perm[b..e] == perm[..e];
    TailSet(perm, e);
    if |perm| - e == 1 {
      SingleLeftover(perm, e);
    }
  }

  /** When the fraction split succeeds, the three lists partition 0 .. n-1:
      no index is lost, none is repeated, none is in two lists. */
  lemma {:induction false} FractionSlicesPartition(perm: seq<int>, nTrain: nat, nValidation: nat, nTest: nat)
    requires IsPermutation(perm)
    requires |perm| - Cuts(|perm|, nTrain, nValidation, nTest).2 <= 1
    ensures Partition(FractionSlices(perm, nTrain, nValidation, nTest), |perm|)
    ensures var sp := FractionSlices(perm, nTrain, nValidation, nTest);
      |sp.train| + |sp.validation| + |sp.test| == |perm|
  {
    var (a, b, e) := Cuts(|perm|, nTrain, nValidation, nTest);
    FractionPartition(perm, a, b, e);
  }

  /** A Python slice with bounds 0 <= lo <= hi is the plain slice at the
      bounds clamped to the length. */
  lemma {:induction false} SliceClamped(s: seq<int>, lo: nat, hi: nat)
    requires lo <= hi
    ensures Slice(s, lo, hi) == s[Min(lo, |s|)..Min(hi, |s|)]
  {
  }

  /** What the first e entries of a permutation miss is the set of the rest. */
  lemma {:induction false} TailSet(perm: seq<int>, e: nat)
    requires IsPermutation(perm) && e <= |perm|
    ensures AllInds(|perm|) - SetOf(perm[..e]) == SetOf(perm[e..])
    ensures |SetOf(perm[e..])| == |perm| - e
  {
    var head, tail := perm[..e], perm[e..];
    assert perm == head + tail;
    assert Distinct(tail);
    DistinctCard(tail);
    assert head == perm[0..e] && tail == perm[e..|perm|];
    SlicesDisjoint(perm, 0, e, e, |perm|);
    SetOfConcat(head, tail);
    DisjointUnionMinus(SetOf(head), SetOf(tail));
  }

  lemma {:induction false} DisjointUnionMinus(a: set<int>, b: set<int>)
    requires a !! b
    ensures (a + b) - a == b
  {
  }

  lemma {:induction false} SingleLeftover(perm: seq<int>, e: nat)
    requires IsPermutation(perm) && e <= |perm|
    requires |SetOf(perm[e..])| == 1
    ensures e < |perm| && perm[e..] == [perm[e]] && SetOf(perm[e..]) == {perm[e]}
  {
    assert Distinct(perm[e..]);
    DistinctCard(perm[e..]);
  }

  lemma {:induction false} FractionPartition(perm: seq<int>, a: nat, b: nat, e: nat)
    requires IsPermutation(perm) && a <= b <= e <= |perm| && |perm| - e <= 1
    ensures Partition(Split(perm[..a] + perm[e..], perm[a..b], perm[b..e]), |perm|)
  {
    var n := |perm|;
    var p0, p1, p2, p3 := perm[..a], perm[a..b], perm[b..e], perm[e..];
    SlicesUnion(perm, a, b, e);
    DistinctSlice(perm, 0, a);
    DistinctSlice(perm, a, b);
    DistinctSlice(perm, b, e);
    DistinctSlice(perm, e, n);
    SlicesDisjoint(perm, 0, a, a, b);
    SlicesDisjoint(perm, 0, a, b, e);
    SlicesDisjoint(perm, a, b, b, e);
    SlicesDisjoint(perm, 0, a, e, n);
    SlicesDisjoint(perm, a, b, e, n);
    SlicesDisjoint(perm, b, e, e, n);
    SetOfConcat(p0, p3);
    DistinctConcat(p0, p3);
  }

  /** The four consecutive slices together hold the permutation's entries. */
  lemma {:induction false} SlicesUnion(perm: seq<int>, a: nat, b: nat, e: nat)
    requires IsPermutation(perm) && a <= b <= e <= |perm|
    ensures perm[0..a] == perm[..a] && perm[e..|perm|] == perm[e..]
    ensures SetOf(perm[..a]) + SetOf(perm[a..b]) + SetOf(perm[b..e]) + SetOf(perm[e..]) == AllInds(|perm|)
  {
    var p0, p1, p2, p3 := perm[..a], perm[a..b], perm[b..e], perm[e..];
    assert perm == p0 + p1 + p2 + p3;
    SetOfConcat(p0 + p1 + p2, p3);
    SetOfConcat(p0 + p1, p2);
    SetOfConcat(p0, p1);
  }

  lemma {:induction false} DistinctSlice(s: seq<int>, lo: nat, hi: nat)
    requires Distinct(s) && lo <= hi <= |s|
    ensures Distinct(s[lo..hi])
  {
  }

  lemma {:induction false} DistinctConcat(x: seq<int>, y: seq<int>)
    requires Distinct(x) && Distinct(y) && SetOf(x) !! SetOf(y)
    ensures Distinct(x + y)
  {
    InSetOf(x);
    InSetOf(y);
    forall i, j | 0 <= i < j < |x + y| ensures (x + y)[i] != (x + y)[j] {
      if i < |x| <= j {
        assert (x + y)[i] in SetOf(x) && (x + y)[j] in SetOf(y);
      }
    }
  }

  /** datasource_id_to_idx: [ds.id for ds in sources].index(id), which
      raises when no source has the id. */
  function IdToIdx(ids: seq<string>, id: string): (r: Result<nat>)
    ensures r.Ok? <==> id in ids
    ensures r.Ok? ==> r.value < |ids| && ids[r.value] == id &&
                      forall j :: 0 <= j < r.value ==> ids[j] != id
    ensures r.Err? ==> r.error == UnknownSourceId(id)
  {
    if ids == [] then Err(UnknownSourceId(id))
    else if ids[0] == id then Ok(0)
    else match IdToIdx(ids[1..], id)
      case Ok(i) => Ok(i + 1)
      case Err(e) => Err(e)
  }

  /** list(range(lo, hi)) */
  function Range(lo: int, hi: int): (r: seq<int>)
    ensures |r| == if hi <= lo then 0 else hi - lo
    ensures forall i :: 0 <= i < |r| ==> r[i] == lo + i
  {
    if hi <= lo then [] else seq(hi - lo, i => lo + i)
  }

  /** The indices one strata list contributes: for each listed id in order,
      the whole range [min, max] of the source that id names. */
  function StrataInds(listed: seq<string>, ids: seq<string>, mins: seq<int>, maxs: seq<int>)
    : Result<seq<int>>
    requires |mins| == |ids| && |maxs| == |ids|
    decreases |listed|
  {
    if listed == [] then Ok([])
    else
      match StrataInds(listed[..|listed| - 1], ids, mins, maxs)
      case Err(e) => Err(e)
      case Ok(prefix) =>
        match IdToIdx(ids, listed[|listed| - 1])
        case Err(e) => Err(e)
        case Ok(k) => Ok(prefix + Range(mins[k], maxs[k] + 1))
  }

  /** The loop of one strata list: `inds += list(range(min, max + 1))` per id. */
  method CollectStrata(listed: seq<string>, ids: seq<string>, mins: seq<int>, maxs: seq<int>)
    returns (r: Result<seq<int>>)
    requires |mins| == |ids| && |maxs| == |ids|
    ensures r == StrataInds(listed, ids, mins, maxs)
  {
    var inds := [];
    for i := 0 to |listed|
      invariant StrataInds(listed[..i], ids, mins, maxs) == Ok(inds)
    {
      assert listed[..i + 1][..i] == listed[..i];
      var k := IdToIdx(ids, listed[i]);
      if k.Err? {
        StrataErrPersists(listed, ids, mins, maxs, i + 1);
        return Err(k.error);
      }
      inds := inds + Range(mins[k.value], maxs[k.value] + 1);
    }
    assert listed[..|listed|] == listed;
    r := Ok(inds);
  }

  lemma {:induction false} StrataErrPersists(listed: seq<string>, ids: seq<string>, mins: seq<int>, maxs: seq<int>, i: nat)
    requires |mins| == |ids| && |maxs| == |ids| && i <= |listed|
    requires StrataInds(listed[..i], ids, mins, maxs).Err?
    ensures StrataInds(listed, ids, mins, maxs) == StrataInds(listed[..i], ids, mins, maxs)
    decreases |listed| - i
  {
    if i < |listed| {
      assert listed[..i + 1][..i] == listed[..i];
      StrataErrPersists(listed, ids, mins, maxs, i + 1);
    } else {
      assert listed[..i] == listed;
    }
  }

  /** A strata list fails exactly when it names an id no source has, and
      then with the first such id. */
  lemma {:induction false} StrataFails(listed: seq<string>, ids: seq<string>, mins: seq<int>, maxs: seq<int>)
    requires |mins| == |ids| && |maxs| == |ids|
    ensures StrataInds(listed, ids, mins, maxs).Err? <==> exists j :: 0 <= j < |listed| && listed[j] !in ids
    ensures StrataInds(listed, ids, mins, maxs).Err? ==>
      exists j :: 0 <= j < |listed| && listed[j] !in ids &&
        StrataInds(listed, ids, mins, maxs).error == UnknownSourceId(listed[j]) &&
        forall i :: 0 <= i < j ==> listed[i] in ids
  {
    if listed != [] {
      var init := listed[..|listed| - 1];
      StrataFails(init, ids, mins, maxs);
      assert forall j :: 0 <= j < |init| ==> init[j] == listed[j];
    }
  }

  /** x lies in the range [min, max] of the source with the given id. */
  predicate InSourceRange(id: string, ids: seq<string>, mins: seq<int>, maxs: seq<int>, x: int)
    requires |mins| == |ids| && |maxs| == |ids|
  {
    IdToIdx(ids, id).Ok? && mins[IdToIdx(ids, id).value] <= x <= maxs[IdToIdx(ids, id).value]
  }

  /** On success an index is contributed exactly when it lies in the range
      [min, max] of the source named by one of the listed ids. */
  lemma {:induction false} StrataMembers(listed: seq<string>, ids: seq<string>, mins: seq<int>, maxs: seq<int>, x: int)
    requires |mins| == |ids| && |maxs| == |ids|
    requires StrataInds(listed, ids, mins, maxs).Ok?
    ensures x in StrataInds(listed, ids, mins, maxs).value <==>
      exists j :: 0 <= j < |listed| && InSourceRange(listed[j], ids, mins, maxs, x)
  {
    if listed != [] {
      var last := |listed| - 1;
      var init := listed[..last];
      StrataStep(listed, ids, mins, maxs);
      StrataMembers(init, ids, mins, maxs, x);
      var k := IdToIdx(ids, listed[last]).value;
      RangeMembers(mins[k], maxs[k], x);
      ExistsInPrefix(listed, init, ids, mins, maxs, x);
    }
  }

  /** One step of StrataInds: the ids before the last, then the last id's range. */
  lemma {:induction false} StrataStep(listed: seq<string>, ids: seq<string>, mins: seq<int>, maxs: seq<int>)
    requires |mins| == |ids| && |maxs| == |ids|
    requires listed != [] && StrataInds(listed, ids, mins, maxs).Ok?
    ensures StrataInds(listed[..|listed| - 1], ids, mins, maxs).Ok?
    ensures IdToIdx(ids, listed[|listed| - 1]).Ok?
    ensures var k := IdToIdx(ids, listed[|listed| - 1]).value;
      StrataInds(listed, ids, mins, maxs).value ==
        StrataInds(listed[..|listed| - 1], ids, mins, maxs).value + Range(mins[k], maxs[k] + 1)
  {
  }

  lemma {:induction false} RangeMembers(lo: int, hi: int, x: int)
    ensures x in Range(lo, hi + 1) <==> lo <= x <= hi
  {
    if lo <= x <= hi {
      assert Range(lo, hi + 1)[x - lo] == x;
    }
  }

  /** Some listed id covers x exactly when one before the last does or the last does. */
  lemma {:induction false} ExistsInPrefix(listed: seq<string>, init: seq<string>, ids: seq<string>,
                                          mins: seq<int>, maxs: seq<int>, x: int)
    requires |mins| == |ids| && |maxs| == |ids| && listed != [] && init == listed[..|listed| - 1]
    ensures (exists j :: 0 <= j < |listed| && InSourceRange(listed[j], ids, mins, maxs, x)) <==>
      (exists j :: 0 <= j < |init| && InSourceRange(init[j], ids, mins, maxs, x))
      || InSourceRange(listed[|listed| - 1], ids, mins, maxs, x)
  {
    if exists j :: 0 <= j < |listed| && InSourceRange(listed[j], ids, mins, maxs, x) {
      var j :| 0 <= j < |listed| && InSourceRange(listed[j], ids, mins, maxs, x);
      if j < |init| {
        assert init[j] == listed[j];
      }
    }
    if exists j :: 0 <= j < |init| && InSourceRange(init[j], ids, mins, maxs, x) {
      var j :| 0 <= j < |init| && InSourceRange(init[j], ids, mins, maxs, x);
      assert init[j] == listed[j];
    }
  }
}
