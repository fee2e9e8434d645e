/** The WkwData dataset object: the grids and index ranges it builds when
    constructed, the split it plans, the RAM and disk caches it fills and
    reads, and the sparse result volumes it writes. */
module WkwDataset {
  import opened Outcomes
  import opened Geometry
  import opened RowMajor
  import opened Mesh
  import opened Indexing
  import opened Splits
  import Cube
  import Sparse

  type Path = Cube.Path

  /** The fields of a DataSource the dataset object itself reads (means,
      standard deviations and the binary-target fields only feed
      normalisation and torch). */
  datatype Source = Source(id: string, inputPath: Path, inputBox: BBox, targetPath: Path, targetBox: BBox)

  /** data_cache_input: path -> str(bbox) -> cube. A box stands for its
      str() key: two boxes print alike exactly when they are equal. */
  type InputCache = map<Path, map<BBox, Cube.Cube>>

  /** data_cache_output: path -> str(bbox) -> output label -> volume. */
  type OutputCache = map<Path, map<BBox, map<string, Sparse.Volume>>>

  /** What filling a cache reads and changes: the store, the dataset paths
      holding a header.wkw, and the RAM cache. */
  datatype Tiers = Tiers(fs: Cube.Store, headers: set<Path>, ram: InputCache)

  /** cache_RAM, cache_HDD and cache_HDD_root. */
  datatype CacheConfig = CacheConfig(ram: bool, hdd: bool, root: Path)

  // ---------------------------------------------------------------------
  // Grids and ranges of a list of sources

  /** get_data_meshes: one grid per source, over its input box. */
  function SourceMeshes(sources: seq<Source>, inputShape: Shape3, stride: Shape3): (r: seq<Mesh>)
    requires Positive(stride)
    ensures |r| == |sources|
    ensures forall i :: 0 <= i < |sources| ==> r[i] == DataMesh(sources[i].inputBox, inputShape, stride)
  {
    seq(|sources|, i requires 0 <= i < |sources| => DataMesh(sources[i].inputBox, inputShape, stride))
  }

  /** The ids of the sources, in order (what datasource_id_to_idx searches). */
  function SourceIds(sources: seq<Source>): (r: seq<string>)
    ensures |r| == |sources| && forall i :: 0 <= i < |sources| ==> r[i] == sources[i].id
  {
    seq(|sources|, i requires 0 <= i < |sources| => sources[i].id)
  }

  /** The input boxes of the sources, in order. */
  function InputBoxes(sources: seq<Source>): (r: seq<BBox>)
    ensures |r| == |sources| && forall i :: 0 <= i < |sources| ==> r[i] == sources[i].inputBox
  {
    seq(|sources|, i requires 0 <= i < |sources| => sources[i].inputBox)
  }

  // ---------------------------------------------------------------------
  // The split get_data_ind_splits plans

  /** The split for a DataSplit. Fractions: len() fails on no sources, then
      the slices of the permutation (more than one leftover raises).
      Strata: the train, validation and test lists in that order, the first
      unknown id raising. */
  function PlannedSplit(split: DataSplit, perm: seq<int>, ids: seq<string>, mins: seq<int>, maxs: seq<int>)
    : (r: Result<Split>)
    requires |mins| == |ids| && |maxs| == |ids|
    ensures split.Fractions? && maxs == [] ==> r == Err(EmptySequence)
    ensures split.Fractions? && maxs != [] ==>
      var cut := Cuts(|perm|, split.nTrain, split.nValidation, split.nTest).2;
      && (r.Err? <==> |perm| - cut > 1)
      && (r.Err? ==> r.error == MoreThanOneIndexLeft)
    ensures split.Strata? ==>
      (r.Ok? <==> StrataInds(split.trainIds, ids, mins, maxs).Ok? &&
                  StrataInds(split.validationIds, ids, mins, maxs).Ok? &&
                  StrataInds(split.testIds, ids, mins, maxs).Ok?)
  {
    match split
    case Fractions(nTrain, nValidation, nTest) =>
      if maxs == [] then Err(EmptySequence)
      else if |perm| - Cuts(|perm|, nTrain, nValidation, nTest).2 > 1 then Err(MoreThanOneIndexLeft)
      else Ok(FractionSlices(perm, nTrain, nValidation, nTest))
    case Strata(trainIds, validationIds, testIds) =>
      match StrataInds(trainIds, ids, mins, maxs)
      case Err(e) => Err(e)
      case Ok(train) =>
        match StrataInds(validationIds, ids, mins, maxs)
        case Err(e) => Err(e)
        case Ok(validation) =>
          match StrataInds(testIds, ids, mins, maxs)
          case Err(e) => Err(e)
          case Ok(test) => Ok(Split(train, validation, test))
  }

  /** A fraction split of a permutation of the dataset's indices partitions
      [0, len): the lists are disjoint, repeat nothing and cover every
      index. */
  lemma {:induction false} FractionPlanPartitions(nTrain: nat, nValidation: nat, nTest: nat, perm: seq<int>,
                                                  ids: seq<string>, mins: seq<int>, maxs: seq<int>)
    requires |mins| == |ids| && |maxs| == |ids| && maxs != []
    requires IsPermutation(perm) && |perm| == Len(maxs).value
    requires PlannedSplit(Fractions(nTrain, nValidation, nTest), perm, ids, mins, maxs).Ok?
    ensures Partition(PlannedSplit(Fractions(nTrain, nValidation, nTest), perm, ids, mins, maxs).value,
                      Len(maxs).value)
  {
    FractionSlicesPartition(perm, nTrain, nValidation, nTest);
  }

  /** A strata split puts an index into a list exactly when it lies in the
      range of a source whose id that list names; sources named by no list
      contribute nothing. */
  lemma {:induction false} StrataPlanMembers(split: DataSplit, perm: seq<int>, ids: seq<string>,
                                             mins: seq<int>, maxs: seq<int>, x: int)
    requires |mins| == |ids| && |maxs| == |ids| && split.Strata?
    requires PlannedSplit(split, perm, ids, mins, maxs).Ok?
    ensures var sp := PlannedSplit(split, perm, ids, mins, maxs).value;
      && (x in sp.train <==> exists j :: 0 <= j < |split.trainIds| &&
                               InSourceRange(split.trainIds[j], ids, mins, maxs, x))
      && (x in sp.validation <==> exists j :: 0 <= j < |split.validationIds| &&
                                    InSourceRange(split.validationIds[j], ids, mins, maxs, x))
      && (x in sp.test <==> exists j :: 0 <= j < |split.testIds| &&
                              InSourceRange(split.testIds[j], ids, mins, maxs, x))
  {
    StrataMembers(split.trainIds, ids, mins, maxs, x);
    StrataMembers(split.validationIds, ids, mins, maxs, x);
    StrataMembers(split.testIds, ids, mins, maxs, x);
  }

  // ---------------------------------------------------------------------
  // fill_cache

  /** The data fill_cache obtains for (path, box). With the disk tier on
      and a header at the cache path it reads the disk copy, keeps it if
      complete and re-reads the source path otherwise; the completeness
      test raises on a box with an empty axis. */
  function FillRead(t: Tiers, cfg: CacheConfig, path: Path, box: BBox): (r: Result<Cube.Cube>)
    ensures var cp := Cube.CachePath(cfg.root, path);
      r.Err? <==> cfg.hdd && cp in t.headers && !Positive(box.extent)
    ensures r.Err? ==> r.error == EmptyFace
    ensures r.Ok? ==> Cube.HasShape(r.value, box.extent)
  {
    var cp := Cube.CachePath(cfg.root, path);
    if cfg.hdd && cp in t.headers then
      var cached := Cube.Read(t.fs, cp, box);
      Cube.CompletenessFaces(cached, box.extent);
      match Cube.DataCompleteness(cached)
      case Err(e) => Err(e)
      case Ok(complete) => if complete then Ok(cached) else Ok(Cube.Read(t.fs, path, box))
    else Ok(Cube.Read(t.fs, path, box))
  }

  /** Disk data is used only when it is complete: what a fill obtains is a
      read of the source path, or a read of the cache path whose six faces
      all hold a non-zero voxel. Incomplete disk data is fetched again, and
      without the disk tier (or a header) the source path is read. */
  lemma {:induction false} FillReadAccepts(t: Tiers, cfg: CacheConfig, path: Path, box: BBox)
    ensures var cp := Cube.CachePath(cfg.root, path);
      var disk := Cube.Read(t.fs, cp, box);
      && (!(cfg.hdd && cp in t.headers) ==> FillRead(t, cfg, path, box) == Ok(Cube.Read(t.fs, path, box)))
      && (cfg.hdd && cp in t.headers && Cube.DataCompleteness(disk) == Ok(false) ==>
            FillRead(t, cfg, path, box) == Ok(Cube.Read(t.fs, path, box)))
      && (cfg.hdd && cp in t.headers && Cube.DataCompleteness(disk) == Ok(true) ==>
            FillRead(t, cfg, path, box) == Ok(disk))
      && (FillRead(t, cfg, path, box).Ok? && FillRead(t, cfg, path, box).value != Cube.Read(t.fs, path, box) ==>
            && cfg.hdd && cp in t.headers && FillRead(t, cfg, path, box).value == disk
            && Cube.DataCompleteness(disk) == Ok(true))
  {
  }

  function RamAt(ram: InputCache, path: Path, box: BBox): Option<Cube.Cube> {
    if path in ram && box in ram[path] then Some(ram[path][box]) else None
  }

  /** One fill_cache(path, box): store the data in RAM under (path, box)
      when the RAM tier is on; with the disk tier on, create the cache
      dataset if it has no header yet and write the data at the box origin. */
  function FillStep(t: Tiers, cfg: CacheConfig, path: Path, box: BBox): (r: Result<Tiers>)
    ensures r.Err? <==> FillRead(t, cfg, path, box).Err?
    ensures r.Err? ==> r.error == FillRead(t, cfg, path, box).error
  {
    match FillRead(t, cfg, path, box)
    case Err(e) => Err(e)
    case Ok(data) =>
      var ram := if !cfg.ram then t.ram
                 else if path !in t.ram then t.ram[path := map[box := data]]
                 else t.ram[path := t.ram[path][box := data]];
      if cfg.hdd then
        var cp := Cube.CachePath(cfg.root, path);
        var fs := if cp in t.headers then t.fs else Cube.Created(t.fs, cp);
        Ok(Tiers(Cube.WriteBlock(fs, cp, box.origin, data), t.headers + {cp}, ram))
      else Ok(Tiers(t.fs, t.headers, ram))
  }

  /** What one fill changes: the RAM entry (path, box) holds the data read
      and no other RAM entry moves; with the RAM tier off the RAM cache is
      untouched. With the disk tier on the cache path gains a header and
      reads back the data over the box; with it off the store and the
      headers are untouched. Every other path of the store keeps its
      contents. */
  lemma {:induction false} FillStepEffect(t: Tiers, cfg: CacheConfig, path: Path, box: BBox)
    requires FillStep(t, cfg, path, box).Ok?
    ensures var t1 := FillStep(t, cfg, path, box).value;
      var data := FillRead(t, cfg, path, box).value;
      var cp := Cube.CachePath(cfg.root, path);
      && (cfg.ram ==> RamAt(t1.ram, path, box) == Some(data))
      && (cfg.ram ==> forall p, b :: (p, b) != (path, box) ==> RamAt(t1.ram, p, b) == RamAt(t.ram, p, b))
      && (cfg.ram ==> t1.ram.Keys == t.ram.Keys + {path})
      && (!cfg.ram ==> t1.ram == t.ram)
      && (cfg.hdd ==> t1.headers == t.headers + {cp} && Cube.Read(t1.fs, cp, box) == data)
      && (cfg.hdd ==> forall p, v :: p != cp ==> t1.fs.at(p, v) == t.fs.at(p, v))
      && (!cfg.hdd ==> t1.fs == t.fs && t1.headers == t.headers)
  {
    var data := FillRead(t, cfg, path, box).value;
    if cfg.hdd {
      var cp := Cube.CachePath(cfg.root, path);
      var fs := if cp in t.headers then t.fs else Cube.Created(t.fs, cp);
      Cube.ReadAfterWrite(fs, cp, box, data);
    }
  }

  /** A read of another path is not affected by creating a dataset. */
  lemma {:induction false} ReadAfterCreate(st: Cube.Store, cp: Path, p: Path, box: BBox)
    requires p != cp
    ensures Cube.Read(Cube.Created(st, cp), p, box) == Cube.Read(st, p, box)
  {
    var a, b := Cube.Read(Cube.Created(st, cp), p, box), Cube.Read(st, p, box);
    Cube.CubeExt(a, b, box.extent);
  }

  /** The store after a fill with the disk tier on: the cache path reads
      back the data over the box, and every other path reads as before. */
  lemma {:induction false} FillStore(t: Tiers, cfg: CacheConfig, path: Path, box: BBox)
    requires cfg.hdd && FillStep(t, cfg, path, box).Ok?
    ensures var t1 := FillStep(t, cfg, path, box).value;
      var cp := Cube.CachePath(cfg.root, path);
      && cp in t1.headers
      && Cube.Read(t1.fs, cp, box) == FillRead(t, cfg, path, box).value
      && (path != cp ==> Cube.Read(t1.fs, path, box) == Cube.Read(t.fs, path, box))
  {
    var cp := Cube.CachePath(cfg.root, path);
    var data := FillRead(t, cfg, path, box).value;
    var fs := if cp in t.headers then t.fs else Cube.Created(t.fs, cp);
    Cube.ReadAfterWrite(fs, cp, box, data);
    if path != cp {
      Cube.ReadUnaffected(fs, cp, box.origin, data, path, box);
      if cp !in t.headers {
        ReadAfterCreate(t.fs, cp, path, box);
      }
    }
  }

  /** Filling again is idempotent on what is obtained: with the disk tier
      on, a second fill of the same non-empty box obtains exactly the data
      the first one stored (the disk copy is kept when complete, and the
      unchanged source is re-read otherwise). The cache path must differ
      from the source path. */
  lemma {:induction false} FillReadAgain(t: Tiers, cfg: CacheConfig, path: Path, box: BBox)
    requires cfg.hdd && Positive(box.extent) && Cube.CachePath(cfg.root, path) != path
    requires FillStep(t, cfg, path, box).Ok?
    ensures FillRead(FillStep(t, cfg, path, box).value, cfg, path, box) == FillRead(t, cfg, path, box)
  {
    var t1 := FillStep(t, cfg, path, box).value;
    var data := FillRead(t, cfg, path, box).value;
    FillStore(t, cfg, path, box);
    FillReadAccepts(t, cfg, path, box);
    FillReadAccepts(t1, cfg, path, box);
    Cube.CompletenessFaces(data, box.extent);
  }

  /** ... and so a second fill stores the same RAM entry again and adds no
      header: the RAM cache and the header set are left as they were. */
  lemma {:induction false} FillTwice(t: Tiers, cfg: CacheConfig, path: Path, box: BBox)
    requires cfg.hdd && Positive(box.extent) && Cube.CachePath(cfg.root, path) != path
    requires FillStep(t, cfg, path, box).Ok?
    ensures var t1 := FillStep(t, cfg, path, box).value;
      && FillStep(t1, cfg, path, box).Ok?
      && FillStep(t1, cfg, path, box).value.ram == t1.ram
      && FillStep(t1, cfg, path, box).value.headers == t1.headers
  {
    var t1 := FillStep(t, cfg, path, box).value;
    var data := FillRead(t, cfg, path, box).value;
    FillReadAgain(t, cfg, path, box);
    FillStore(t, cfg, path, box);
    if cfg.ram {
      FillStepEffect(t, cfg, path, box);
      assert RamAt(t1.ram, path, box) == Some(data);
      StoreSame(t1.ram[path], box);
      StoreSame(t1.ram, path);
    }
  }

  /** Storing under a key the value it already holds changes nothing. */
  lemma {:induction false} StoreSame<K, V>(m: map<K, V>, k: K)
    requires k in m
    ensures m[k := m[k]] == m
  {
  }

  /** The fills of one source: its input, then its target. */
  function FillOne(t: Tiers, cfg: CacheConfig, s: Source): (r: (Tiers, Option<Error>)) {
    match FillStep(t, cfg, s.inputPath, s.inputBox)
    case Err(e) => (t, Some(e))
    case Ok(t2) =>
      match FillStep(t2, cfg, s.targetPath, s.targetBox)
      case Err(e) => (t2, Some(e))
      case Ok(t3) => (t3, None)
  }

  /** fill_caches: fill_cache of each source's input, then of its target,
      source by source; the first failure stops the loop, and the tiers are
      left as the fills before it made them. */
  function FillSources(t: Tiers, cfg: CacheConfig, sources: seq<Source>): (r: (Tiers, Option<Error>))
    decreases |sources|
  {
    if sources == [] then (t, None)
    else
      var (t1, e) := FillSources(t, cfg, sources[..|sources| - 1]);
      if e.Some? then (t1, e) else FillOne(t1, cfg, sources[|sources| - 1])
  }

  /** One more source after an error-free prefix. */
  lemma {:induction false} FillSourcesStep(t: Tiers, cfg: CacheConfig, sources: seq<Source>, i: nat, t1: Tiers)
    requires i < |sources| && FillSources(t, cfg, sources[..i]) == (t1, None)
    ensures FillSources(t, cfg, sources[..i + 1]) == FillOne(t1, cfg, sources[i])
  {
    assert sources[..i + 1][..i] == sources[..i];
  }

  /** Once a fill has failed, the later sources change nothing. */
  lemma {:induction false} FillErrPersists(t: Tiers, cfg: CacheConfig, sources: seq<Source>, i: nat)
    requires i <= |sources| && FillSources(t, cfg, sources[..i]).1.Some?
    ensures FillSources(t, cfg, sources) == FillSources(t, cfg, sources[..i])
    decreases |sources| - i
  {
    if i < |sources| {
      assert sources[..|sources| - 1][..i] == sources[..i];
      FillErrPersists(t, cfg, sources[..|sources| - 1], i);
    } else {
      assert sources[..i] == sources;
    }
  }

  /** With the RAM tier off, filling never touches the RAM cache. */
  lemma {:induction false} FillSourcesRamOff(t: Tiers, cfg: CacheConfig, sources: seq<Source>)
    requires !cfg.ram
    ensures FillSources(t, cfg, sources).0.ram == t.ram
    decreases |sources|
  {
    if sources != [] {
      var init := sources[..|sources| - 1];
      FillSourcesRamOff(t, cfg, init);
      var (t1, e) := FillSources(t, cfg, init);
      var s := sources[|sources| - 1];
      if e.None? && FillStep(t1, cfg, s.inputPath, s.inputBox).Ok? {
        var t2 := FillStep(t1, cfg, s.inputPath, s.inputBox).value;
        FillStepEffect(t1, cfg, s.inputPath, s.inputBox);
        if FillStep(t2, cfg, s.targetPath, s.targetBox).Ok? {
          FillStepEffect(t2, cfg, s.targetPath, s.targetBox);
        }
      }
    }
  }

  // ---------------------------------------------------------------------
  // wkw_read_cached

  /** Python's list indexing: a negative index counts from the end. */
  function PyIndex(n: nat, i: int): (r: Result<nat>)
    ensures r.Ok? <==> -(n as int) <= i < n
    ensures r.Ok? ==> r.value < n && (i >= 0 ==> r.value == i)
    ensures r.Err? ==> r.error == IndexOutOfBounds
  {
    if 0 <= i < n then Ok(i) else if -(n as int) <= i < 0 then Ok(n + i) else Err(IndexOutOfBounds)
  }

  /** The path and registered box of a source for a role ('input' picks
      input_path and input_bbox, 'target' the target ones). */
  function RolePath(s: Source, role: Role): Path {
    if role == Input then s.inputPath else s.targetPath
  }

  function RoleBox(s: Source, role: Role): BBox {
    if role == Input then s.inputBox else s.targetBox
  }

  /** wkw_read_cached(source_idx, role, box) as it is meant to read: on a
      RAM entry for the source's (path, registered box), the slice of the
      cached cube at box origin - registered origin with the box's extent;
      otherwise a read of the cache path if it has a header, and of the
      source path if not. */
  function ReadCached(t: Tiers, root: Path, sources: seq<Source>, sourceIdx: int, role: Role, box: BBox)
    : (r: Result<Cube.Cube>)
    ensures r.Err? <==> PyIndex(|sources|, sourceIdx).Err?
    ensures r.Err? ==> r.error == IndexOutOfBounds
  {
    match PyIndex(|sources|, sourceIdx)
    case Err(e) => Err(e)
    case Ok(k) =>
      var path, abs := RolePath(sources[k], role), RoleBox(sources[k], role);
      if path in t.ram && abs in t.ram[path] then
        Ok(Cube.Slice3(t.ram[path][abs], Sub(box.origin, abs.origin), box.extent))
      else
        var cp := Cube.CachePath(root, path);
        if cp in t.headers then Ok(Cube.Read(t.fs, cp, box)) else Ok(Cube.Read(t.fs, path, box))
  }

  /** wkw_read_cached as written: the RAM test joins its two lookups with
      the bitwise `&`, so both are evaluated and the inner dict lookup
      raises a KeyError when the path has no RAM entry at all. */
  function ReadCachedAsWritten(t: Tiers, root: Path, sources: seq<Source>, sourceIdx: int, role: Role, box: BBox)
    : (r: Result<Cube.Cube>)
    ensures r.Err? <==> PyIndex(|sources|, sourceIdx).Err? ||
                        RolePath(sources[PyIndex(|sources|, sourceIdx).value], role) !in t.ram
  {
    match PyIndex(|sources|, sourceIdx)
    case Err(e) => Err(e)
    case Ok(k) =>
      var path, abs := RolePath(sources[k], role), RoleBox(sources[k], role);
      if path !in t.ram then Err(MissingKey)
      else if abs in t.ram[path] then
        Ok(Cube.Slice3(t.ram[path][abs], Sub(box.origin, abs.origin), box.extent))
      else
        var cp := Cube.CachePath(root, path);
        if cp in t.headers then Ok(Cube.Read(t.fs, cp, box)) else Ok(Cube.Read(t.fs, path, box))
  }

  /** The two agree whenever the path has a RAM entry, and only then: with
      no RAM entry for the path the code as written raises where the
      intended reader falls back to the disk or the source. */
  lemma {:induction false} ReadCachedAsWrittenDiffers(t: Tiers, root: Path, sources: seq<Source>,
                                                      sourceIdx: int, role: Role, box: BBox)
    requires 0 <= sourceIdx < |sources|
    ensures RolePath(sources[sourceIdx], role) in t.ram ==>
      ReadCachedAsWritten(t, root, sources, sourceIdx, role, box) == ReadCached(t, root, sources, sourceIdx, role, box)
    ensures RolePath(sources[sourceIdx], role) !in t.ram ==>
      && ReadCachedAsWritten(t, root, sources, sourceIdx, role, box) == Err(MissingKey)
      && ReadCached(t, root, sources, sourceIdx, role, box).Ok?
  {
  }

  /** A RAM hit returns what a direct read of the box returns: when the
      cached cube is a read of the registered box from some store and path,
      any box inside the registered box reads the same through the cache. */
  lemma {:induction false} ReadCachedHit(t: Tiers, root: Path, sources: seq<Source>, sourceIdx: nat, role: Role,
                                         box: BBox, st: Cube.Store, from: Path)
    requires sourceIdx < |sources|
    requires var s := sources[sourceIdx];
      RamAt(t.ram, RolePath(s, role), RoleBox(s, role)) == Some(Cube.Read(st, from, RoleBox(s, role)))
    requires Within(box, RoleBox(sources[sourceIdx], role))
    ensures ReadCached(t, root, sources, sourceIdx, role, box) == Ok(Cube.Read(st, from, box))
  {
    Cube.SliceOfRead(st, from, RoleBox(sources[sourceIdx], role), box);
  }

  /** After the fill of a source's (path, box) with the RAM tier on, a
      cached read of any box inside it returns a direct read of that box
      from the source path, or from a cache path holding a header whose
      copy of the filled box was complete. */
  lemma {:induction false} FillThenRead(t: Tiers, cfg: CacheConfig, sources: seq<Source>, sourceIdx: nat,
                                        role: Role, box: BBox)
    requires cfg.ram && sourceIdx < |sources|
    requires var s := sources[sourceIdx];
      FillStep(t, cfg, RolePath(s, role), RoleBox(s, role)).Ok?
    requires Within(box, RoleBox(sources[sourceIdx], role))
    ensures var s := sources[sourceIdx];
      var path, abs := RolePath(s, role), RoleBox(s, role);
      var cp := Cube.CachePath(cfg.root, path);
      var t1 := FillStep(t, cfg, path, abs).value;
      || ReadCached(t1, cfg.root, sources, sourceIdx, role, box) == Ok(Cube.Read(t.fs, path, box))
      || (&& cfg.hdd && cp in t.headers && Cube.DataCompleteness(Cube.Read(t.fs, cp, abs)) == Ok(true)
          && ReadCached(t1, cfg.root, sources, sourceIdx, role, box) == Ok(Cube.Read(t.fs, cp, box)))
  {
    var s := sources[sourceIdx];
    var path, abs := RolePath(s, role), RoleBox(s, role);
    var cp := Cube.CachePath(cfg.root, path);
    FillStepEffect(t, cfg, path, abs);
    FillReadAccepts(t, cfg, path, abs);
    var t1 := FillStep(t, cfg, path, abs).value;
    if FillRead(t, cfg, path, abs).value == Cube.Read(t.fs, path, abs) {
      ReadCachedHit(t1, cfg.root, sources, sourceIdx, role, box, t.fs, path);
    } else {
      ReadCachedHit(t1, cfg.root, sources, sourceIdx, role, box, t.fs, cp);
    }
  }

  /** With the RAM tier off and the disk tier on, the fills leave the RAM
      cache empty, so the code as written fails on every cached read. */
  lemma {:induction false} DiskOnlyReadsFail(t: Tiers, cfg: CacheConfig, sources: seq<Source>, sourceIdx: int,
                                             role: Role, box: BBox)
    requires !cfg.ram && t.ram == map[]
    requires 0 <= sourceIdx < |sources|
    ensures var t1 := FillSources(t, cfg, sources).0;
      && ReadCachedAsWritten(t1, cfg.root, sources, sourceIdx, role, box) == Err(MissingKey)
      && ReadCached(t1, cfg.root, sources, sourceIdx, role, box).Ok?
  {
    FillSourcesRamOff(t, cfg, sources);
  }

  // ---------------------------------------------------------------------
  // write_output_to_cache

  /** The volume under (path, box, label), if the three lookups all hit. */
  function Lookup3(c: OutputCache, path: Path, box: BBox, outLabel: string): Option<Sparse.Volume> {
    if path in c && box in c[path] && outLabel in c[path][box] then Some(c[path][box][outLabel]) else None
  }

  /** Every volume has the extent of the box it is filed under. */
  ghost predicate OutputShaped(c: OutputCache) {
    forall p, b, l :: Lookup3(c, p, b, l).Some? ==> Cube.HasShape(Lookup3(c, p, b, l).value, b.extent)
  }

  /** The lazy allocation: an empty dict for a new path, an empty dict for
      a new box, and an all-unknown volume of the box's extent for a new
      label. */
  function Allocate(c: OutputCache, path: Path, box: BBox, outLabel: string): (r: OutputCache)
    ensures Lookup3(r, path, box, outLabel).Some?
  {
    var c1 := if path !in c then c[path := map[]] else c;
    var c2 := if box !in c1[path] then c1[path := c1[path][box := map[]]] else c1;
    if outLabel !in c2[path][box] then c2[path := c2[path][box := c2[path][box][outLabel := Sparse.Unknown(box.extent)]]]
    else c2
  }

  /** WriteOne along each of its failure paths. */
  lemma {:induction false} WriteOneFails(c: OutputCache, mins: seq<int>, maxs: seq<int>, meshes: seq<Mesh>,
                                         sources: seq<Source>, outputShape: Shape3, outputs: seq<seq<real>>,
                                         n: nat, sampleIdx: int, outLabel: string)
    requires |mins| == |maxs| == |meshes| == |sources|
    requires forall i :: 0 <= i < |meshes| ==> WellFormed(meshes[i])
    requires OutputShaped(c)
    ensures var b := BBoxForSampleIdx(mins, maxs, meshes, outputShape, sampleIdx);
      var r := WriteOne(c, mins, maxs, meshes, sources, outputShape, outputs, n, sampleIdx, outLabel);
      && (b.Err? ==> r == (c, Some(b.error)))
      && (b.Ok? ==>
            var (s, box) := b.value;
            var path, wbox := sources[s].inputPath, sources[s].inputBox;
            var c1 := Allocate(c, path, wbox, outLabel);
            && (n >= |outputs| ==> r == (c1, Some(IndexOutOfBounds)))
            && (n < |outputs| && Sparse.Reshape(outputs[n], outputShape).Err? ==>
                  r == (c1, Some(Sparse.Reshape(outputs[n], outputShape).error))))
  {
  }

  /** The three lazy steps, one at a time, give Allocate. */
  lemma {:induction false} AllocateIs(c: OutputCache, path: Path, box: BBox, outLabel: string,
                                      c1: OutputCache, c2: OutputCache, c3: OutputCache)
    requires c1 == if path !in c then c[path := map[]] else c
    requires path in c1
    requires c2 == if box !in c1[path] then c1[path := c1[path][box := map[]]] else c1
    requires path in c2 && box in c2[path]
    requires c3 == if outLabel !in c2[path][box]
                   then c2[path := c2[path][box := c2[path][box][outLabel := Sparse.Unknown(box.extent)]]]
                   else c2
    ensures c3 == Allocate(c, path, box, outLabel)
  {
  }

  /** Allocation happens only on the first write: an existing volume is
      kept, a missing one becomes all-unknown with the box's extent, and
      no other (path, box, label) entry changes. */
  lemma {:induction false} AllocateOnce(c: OutputCache, path: Path, box: BBox, outLabel: string)
    ensures Lookup3(Allocate(c, path, box, outLabel), path, box, outLabel) ==
      if Lookup3(c, path, box, outLabel).Some? then Lookup3(c, path, box, outLabel) else Some(Sparse.Unknown(box.extent))
    ensures forall p, b, l :: (p, b, l) != (path, box, outLabel) ==>
      Lookup3(Allocate(c, path, box, outLabel), p, b, l) == Lookup3(c, p, b, l)
  {
  }

  /** Storing a volume back under (path, box, label), which is present. */
  function Install(c: OutputCache, path: Path, box: BBox, outLabel: string, v: Sparse.Volume): (r: OutputCache)
    requires Lookup3(c, path, box, outLabel).Some?
    ensures Lookup3(r, path, box, outLabel) == Some(v)
    ensures forall p, b, l :: (p, b, l) != (path, box, outLabel) ==> Lookup3(r, p, b, l) == Lookup3(c, p, b, l)
  {
    c[path := c[path][box := c[path][box][outLabel := v]]]
  }

  /** One pass of the loop, for the output at position n and its sample
      index: the target-shaped box of the sample, the volume of the owning
      source's input path and box (allocated first), then the right-hand
      side (the output, reshaped to the target shape) and the assignment
      into the sub-box at box origin - input box origin. A failure after
      the allocation keeps the allocation. */
  function WriteOne(c: OutputCache, mins: seq<int>, maxs: seq<int>, meshes: seq<Mesh>, sources: seq<Source>,
                    outputShape: Shape3, outputs: seq<seq<real>>, n: nat, sampleIdx: int, outLabel: string)
    : (r: (OutputCache, Option<Error>))
    requires |mins| == |maxs| == |meshes| == |sources|
    requires forall i :: 0 <= i < |meshes| ==> WellFormed(meshes[i])
    requires OutputShaped(c)
    ensures OutputShaped(r.0)
  {
    match BBoxForSampleIdx(mins, maxs, meshes, outputShape, sampleIdx)
    case Err(e) => (c, Some(e))
    case Ok((s, box)) =>
      var path, wbox := sources[s].inputPath, sources[s].inputBox;
      var c1 := Allocate(c, path, wbox, outLabel);
      AllocateShaped(c, path, wbox, outLabel);
      var vol := Lookup3(c1, path, wbox, outLabel).value;
      if n >= |outputs| then (c1, Some(IndexOutOfBounds))
      else
        match Sparse.Reshape(outputs[n], outputShape)
        case Err(e) => (c1, Some(e))
        case Ok(vals) =>
          var lo := Sub(box.origin, wbox.origin);
          match Sparse.AssignRegion(vol, wbox.extent, lo, Add(lo, AsVec(box.extent)), vals, outputShape)
          case Err(e) => (c1, Some(e))
          case Ok(v) =>
            InstallShaped(c1, path, wbox, outLabel, v);
            (Install(c1, path, wbox, outLabel, v), None)
  }

  lemma {:induction false} AllocateShaped(c: OutputCache, path: Path, box: BBox, outLabel: string)
    requires OutputShaped(c)
    ensures OutputShaped(Allocate(c, path, box, outLabel))
  {
    AllocateOnce(c, path, box, outLabel);
  }

  lemma {:induction false} InstallShaped(c: OutputCache, path: Path, box: BBox, outLabel: string, v: Sparse.Volume)
    requires OutputShaped(c) && Lookup3(c, path, box, outLabel).Some? && Cube.HasShape(v, box.extent)
    ensures OutputShaped(Install(c, path, box, outLabel, v))
  {
  }

  /** The whole loop over (position, sample index) pairs; the first failure
      stops it with the cache as the earlier passes left it. */
  function WriteAll(c: OutputCache, mins: seq<int>, maxs: seq<int>, meshes: seq<Mesh>, sources: seq<Source>,
                    outputShape: Shape3, outputs: seq<seq<real>>, sampleInds: seq<int>, outLabel: string)
    : (r: (OutputCache, Option<Error>))
    requires |mins| == |maxs| == |meshes| == |sources|
    requires forall i :: 0 <= i < |meshes| ==> WellFormed(meshes[i])
    requires OutputShaped(c)
    ensures OutputShaped(r.0)
    decreases |sampleInds|
  {
    if sampleInds == [] then (c, None)
    else
      var n := |sampleInds| - 1;
      var (c1, e) := WriteAll(c, mins, maxs, meshes, sources, outputShape, outputs, sampleInds[..n], outLabel);
      if e.Some? then (c1, e)
      else WriteOne(c1, mins, maxs, meshes, sources, outputShape, outputs, n, sampleInds[n], outLabel)
  }

  /** One more sample index after an error-free prefix. */
  lemma {:induction false} WriteAllStep(c: OutputCache, mins: seq<int>, maxs: seq<int>, meshes: seq<Mesh>,
                                        sources: seq<Source>, outputShape: Shape3, outputs: seq<seq<real>>,
                                        sampleInds: seq<int>, outLabel: string, i: nat, c1: OutputCache)
    requires |mins| == |maxs| == |meshes| == |sources|
    requires forall i :: 0 <= i < |meshes| ==> WellFormed(meshes[i])
    requires OutputShaped(c) && OutputShaped(c1) && i < |sampleInds|
    requires WriteAll(c, mins, maxs, meshes, sources, outputShape, outputs, sampleInds[..i], outLabel) == (c1, None)
    ensures WriteAll(c, mins, maxs, meshes, sources, outputShape, outputs, sampleInds[..i + 1], outLabel) ==
            WriteOne(c1, mins, maxs, meshes, sources, outputShape, outputs, i, sampleInds[i], outLabel)
  {
    assert sampleInds[..i + 1][..i] == sampleInds[..i];
  }

  /** Once a pass has failed, the later sample indices change nothing. */
  lemma {:induction false} WriteErrPersists(c: OutputCache, mins: seq<int>, maxs: seq<int>, meshes: seq<Mesh>,
                                            sources: seq<Source>, outputShape: Shape3, outputs: seq<seq<real>>,
                                            sampleInds: seq<int>, outLabel: string, i: nat)
    requires |mins| == |maxs| == |meshes| == |sources|
    requires forall i :: 0 <= i < |meshes| ==> WellFormed(meshes[i])
    requires OutputShaped(c) && i <= |sampleInds|
    requires WriteAll(c, mins, maxs, meshes, sources, outputShape, outputs, sampleInds[..i], outLabel).1.Some?
    ensures WriteAll(c, mins, maxs, meshes, sources, outputShape, outputs, sampleInds, outLabel) ==
            WriteAll(c, mins, maxs, meshes, sources, outputShape, outputs, sampleInds[..i], outLabel)
    decreases |sampleInds| - i
  {
    if i < |sampleInds| {
      assert sampleInds[..|sampleInds| - 1][..i] == sampleInds[..i];
      WriteErrPersists(c, mins, maxs, meshes, sources, outputShape, outputs, sampleInds[..|sampleInds| - 1], outLabel, i);
    } else {
      assert sampleInds[..i] == sampleInds;
    }
  }

  /** A sample index outside [0, len) is rejected before anything is
      allocated. */
  lemma {:induction false} WriteOneRejects(c: OutputCache, mins: seq<int>, maxs: seq<int>, meshes: seq<Mesh>,
                                           sources: seq<Source>, outputShape: Shape3, outputs: seq<seq<real>>,
                                           n: nat, sampleIdx: int, outLabel: string)
    requires |mins| == |maxs| == |meshes| == |sources|
    requires Tiled(mins, maxs, meshes) && OutputShaped(c)
    requires sampleIdx < 0 || sampleIdx >= Sum(CellCounts(meshes))
    ensures var r := WriteOne(c, mins, maxs, meshes, sources, outputShape, outputs, n, sampleIdx, outLabel);
      r.0 == c && r.1.Some?
  {
    LocateOutOfRange(mins, maxs, meshes, sampleIdx);
  }

  /** The volume after one write: the values of the block on the cells
      [lo, lo + t), and elsewhere the volume before (unknown on the first
      write). */
  ghost predicate WrittenBlock(v: Sparse.Volume, prev: Option<Sparse.Volume>, s: Shape3, lo: Vec3,
                               vals: Sparse.Values, t: Shape3)
    requires Cube.HasShape(vals, t)
    requires prev.Some? ==> Cube.HasShape(prev.value, s)
  {
    && Cube.HasShape(v, s)
    && forall i, j, k :: Sparse.InShape(s, i, j, k) ==>
         v[i][j][k] == if Sparse.InShape(t, i - lo.x, j - lo.y, k - lo.z)
                       then Some(vals[i - lo.x][j - lo.y][k - lo.z])
                       else if prev.Some? then prev.value[i][j][k] else None
  }

  /** A write of an in-range sample (owned by source s, with target box
      `box`) whose output reshapes to vals, on grids built from the
      sources' input boxes with a target window no larger than the input
      window: it succeeds; the volume of the source's (input path, input
      box, label) then holds vals exactly on the cells [box origin - input
      box origin, + target shape) and elsewhere what it held before
      (unknown, if this was the first write); every other (path, box,
      label) entry is unchanged. */
  lemma {:induction false} WriteOneRegion(c: OutputCache, mins: seq<int>, maxs: seq<int>, sources: seq<Source>,
                                          inputShape: Shape3, outputShape: Shape3, stride: Shape3,
                                          outputs: seq<seq<real>>, n: nat, sampleIdx: int, outLabel: string,
                                          s: nat, box: BBox, vals: Sparse.Values)
    requires Positive(stride) && AtMost(outputShape, inputShape)
    requires |mins| == |maxs| == |sources|
    requires Tiled(mins, maxs, SourceMeshes(sources, inputShape, stride)) && OutputShaped(c)
    requires BBoxForSampleIdx(mins, maxs, SourceMeshes(sources, inputShape, stride), outputShape, sampleIdx)
             == Ok((s, box))
    requires n < |outputs| && Sparse.Reshape(outputs[n], outputShape) == Ok(vals)
    ensures s < |sources|
    ensures var path, wbox := sources[s].inputPath, sources[s].inputBox;
      var prev := Lookup3(c, path, wbox, outLabel);
      var r := WriteOne(c, mins, maxs, SourceMeshes(sources, inputShape, stride), sources, outputShape,
                        outputs, n, sampleIdx, outLabel);
      && r.1 == None
      && Lookup3(r.0, path, wbox, outLabel).Some?
      && WrittenBlock(Lookup3(r.0, path, wbox, outLabel).value, prev, wbox.extent,
                      Sub(box.origin, wbox.origin), vals, outputShape)
      && (forall p, b, l :: (p, b, l) != (path, wbox, outLabel) ==> Lookup3(r.0, p, b, l) == Lookup3(c, p, b, l))
  {
    var meshes := SourceMeshes(sources, inputShape, stride);
    TargetInSource(mins, maxs, sources, inputShape, outputShape, stride, sampleIdx, s, box);
    var path, wbox := sources[s].inputPath, sources[s].inputBox;
    var c1 := Allocate(c, path, wbox, outLabel);
    AllocateOnce(c, path, wbox, outLabel);
    AllocateShaped(c, path, wbox, outLabel);
    var lo := Sub(box.origin, wbox.origin);
    var v := BlockWrite(Lookup3(c1, path, wbox, outLabel).value, Lookup3(c, path, wbox, outLabel),
                        wbox.extent, lo, vals, outputShape);
    WriteOneUnfold(c, mins, maxs, meshes, sources, outputShape, outputs, n, sampleIdx, outLabel, s, box, vals, v);
  }

  /** The target box of a sample lies inside its source's input box, as
      offsets into the volume of that box. */
  lemma {:induction false} TargetInSource(mins: seq<int>, maxs: seq<int>, sources: seq<Source>,
                                          inputShape: Shape3, outputShape: Shape3, stride: Shape3,
                                          sampleIdx: int, s: nat, box: BBox)
    requires Positive(stride) && AtMost(outputShape, inputShape)
    requires |mins| == |maxs| == |sources|
    requires Tiled(mins, maxs, SourceMeshes(sources, inputShape, stride))
    requires BBoxForSampleIdx(mins, maxs, SourceMeshes(sources, inputShape, stride), outputShape, sampleIdx)
             == Ok((s, box))
    ensures s < |sources| && box.extent == outputShape
    ensures var wbox := sources[s].inputBox;
      var lo := Sub(box.origin, wbox.origin);
      && 0 <= lo.x && lo.x + outputShape.x <= wbox.extent.x
      && 0 <= lo.y && lo.y + outputShape.y <= wbox.extent.y
      && 0 <= lo.z && lo.z + outputShape.z <= wbox.extent.z
  {
    SampleBoxWithinSource(mins, maxs, SourceMeshes(sources, inputShape, stride), InputBoxes(sources),
                          inputShape, stride, outputShape, sampleIdx);
  }

  /** The assignment of a block inside the volume succeeds and gives a
      WrittenBlock of the volume it started from. */
  lemma {:induction false} BlockWrite(vol: Sparse.Volume, prev: Option<Sparse.Volume>, s: Shape3, lo: Vec3,
                                      vals: Sparse.Values, t: Shape3)
    returns (v: Sparse.Volume)
    requires Cube.HasShape(vol, s) && Cube.HasShape(vals, t)
    requires vol == if prev.Some? then prev.value else Sparse.Unknown(s)
    requires 0 <= lo.x && lo.x + t.x <= s.x
    requires 0 <= lo.y && lo.y + t.y <= s.y
    requires 0 <= lo.z && lo.z + t.z <= s.z
    ensures Sparse.AssignRegion(vol, s, lo, Add(lo, AsVec(t)), vals, t) == Ok(v)
    ensures WrittenBlock(v, prev, s, lo, vals, t)
  {
    Sparse.AssignBlock(vol, s, lo, vals, t);
    v := Sparse.AssignRegion(vol, s, lo, Add(lo, AsVec(t)), vals, t).value;
  }

  /** WriteOne once the output has been reshaped: the failed assignment,
      or the stored volume. */
  lemma {:induction false} WriteOneUnfold(c: OutputCache, mins: seq<int>, maxs: seq<int>, meshes: seq<Mesh>,
                                          sources: seq<Source>, outputShape: Shape3, outputs: seq<seq<real>>,
                                          n: nat, sampleIdx: int, outLabel: string,
                                          s: nat, box: BBox, vals: Sparse.Values, v: Sparse.Volume)
    requires |mins| == |maxs| == |meshes| == |sources|
    requires forall i :: 0 <= i < |meshes| ==> WellFormed(meshes[i])
    requires OutputShaped(c)
    requires BBoxForSampleIdx(mins, maxs, meshes, outputShape, sampleIdx) == Ok((s, box))
    requires n < |outputs| && Sparse.Reshape(outputs[n], outputShape) == Ok(vals)
    ensures var path, wbox := sources[s].inputPath, sources[s].inputBox;
      var c1 := Allocate(c, path, wbox, outLabel);
      var lo := Sub(box.origin, wbox.origin);
      var w := Sparse.AssignRegion(Lookup3(c1, path, wbox, outLabel).value, wbox.extent, lo,
                                   Add(lo, AsVec(box.extent)), vals, outputShape);
      && (w.Err? ==> WriteOne(c, mins, maxs, meshes, sources, outputShape, outputs, n, sampleIdx, outLabel) ==
                       (c1, Some(w.error)))
      && (w == Ok(v) ==> WriteOne(c, mins, maxs, meshes, sources, outputShape, outputs, n, sampleIdx, outLabel) ==
                           (Install(c1, path, wbox, outLabel, v), None))
  {
  }

  // ---------------------------------------------------------------------
  // The dataset object

  /** A WkwData: its settings, fixed by the constructor, the state its
      methods change, and the store and header set of the file system it
      reads and writes. */
  class WkwData {
    const inputShape: Shape3
    const outputShape: Shape3
    const sources: seq<Source>
    const stride: Shape3
    const cacheRAM: bool
    const cacheHDD: bool
    const cacheRoot: Path

    var fs: Cube.Store
    var headers: set<Path>
    var cacheInput: InputCache
    var cacheOutput: OutputCache
    var meshes: seq<Mesh>
    var indsMin: seq<int>
    var indsMax: seq<int>
    var trainInds: seq<int>
    var validationInds: seq<int>
    var testInds: seq<int>

    /** The grids are those of the sources, the index ranges tile them,
        every result volume has its box's extent, and nothing is held in
        RAM with the RAM tier off. */
    ghost predicate Valid()
      reads this`meshes, this`indsMin, this`indsMax, this`cacheOutput, this`cacheInput
    {
      Indexed() && Cached()
    }

    ghost predicate Indexed()
      reads this`meshes, this`indsMin, this`indsMax
    {
      && Positive(stride)
      && meshes == SourceMeshes(sources, inputShape, stride)
      && |indsMin| == |sources| && |indsMax| == |sources|
      && Tiled(indsMin, indsMax, meshes)
    }

    ghost predicate Cached()
      reads this`cacheOutput, this`cacheInput
    {
      OutputShaped(cacheOutput) && (!cacheRAM ==> cacheInput == map[])
    }

    function Config(): CacheConfig {
      CacheConfig(cacheRAM, cacheHDD, cacheRoot)
    }

    function State(): Tiers
      reads this
    {
      Tiers(fs, headers, cacheInput)
    }

    /** __init__ up to the split: the stride defaults to the target shape
        and the cache root to '.', the caches and the splits start empty,
        and the grids and the index ranges are computed. */
    constructor (inputShape: Shape3, targetShape: Shape3, sources: seq<Source>, stride: Option<Shape3>,
                 cacheRAM: bool, cacheHDD: bool, cacheRoot: Option<Path>, fs: Cube.Store, headers: set<Path>)
      requires Positive(if stride.Some? then stride.value else targetShape)
      ensures this.inputShape == inputShape && this.outputShape == targetShape && this.sources == sources
      ensures this.stride == if stride.Some? then stride.value else targetShape
      ensures this.cacheRAM == cacheRAM && this.cacheHDD == cacheHDD
      ensures this.cacheRoot == if cacheRoot.Some? then cacheRoot.value else "."
      ensures this.fs == fs && this.headers == headers
      ensures cacheInput == map[] && cacheOutput == map[]
      ensures trainInds == [] && validationInds == [] && testInds == []
      ensures Valid()
    {
      this.inputShape := inputShape;
      this.outputShape := targetShape;
      this.sources := sources;
      this.stride := if stride.Some? then stride.value else targetShape;
      this.cacheRAM := cacheRAM;
      this.cacheHDD := cacheHDD;
      this.cacheRoot := if cacheRoot.Some? then cacheRoot.value else ".";
      this.fs := fs;
      this.headers := headers;
      cacheInput := map[];
      cacheOutput := map[];
      meshes := [];
      indsMin := [];
      indsMax := [];
      trainInds := [];
      validationInds := [];
      testInds := [];
      new;
      GetDataMeshes();
      GetDataIndRanges();
    }

    /** get_data_meshes: appends the grid of every source, in order. */
    method GetDataMeshes()
      requires Positive(stride)
      modifies this`meshes
      ensures meshes == old(meshes) + SourceMeshes(sources, inputShape, stride)
    {
      ghost var start := meshes;
      for i := 0 to |sources|
        invariant |meshes| == |start| + i && meshes[..|start|] == start
        invariant forall j :: 0 <= j < i ==> meshes[|start| + j] == DataMesh(sources[j].inputBox, inputShape, stride)
      {
        meshes := meshes + [DataMesh(sources[i].inputBox, inputShape, stride)];
      }
      assert meshes == start + SourceMeshes(sources, inputShape, stride);
    }

    /** get_data_ind_ranges: source 0 starts at 0, every later source one
        past the previous maximum, and every maximum is the minimum plus
        the cell count minus one; so the ranges are the running sums of
        the cell counts. */
    method GetDataIndRanges()
      requires |meshes| == |sources| && indsMin == [] && indsMax == []
      modifies this`indsMin, this`indsMax
      ensures RangesFor(CellCounts(meshes), indsMin, indsMax)
    {
      ghost var counts := CellCounts(meshes);
      for s := 0 to |sources|
        invariant |indsMin| == s && |indsMax| == s
        invariant forall i :: 0 <= i < s ==>
          indsMin[i] == Sum(counts[..i]) && indsMax[i] == Sum(counts[..i + 1]) - 1
      {
        if s == 0 {
          indsMin := indsMin + [0];
        } else {
          indsMin := indsMin + [indsMax[s - 1] + 1];
        }
        SumPrefixStep(counts, s);
        indsMax := indsMax + [indsMin[s] + Size(meshes[s].dims) - 1];
      }
    }

    /** __len__ is the total number of grid cells of all sources. */
    lemma {:induction false} LengthIsCellTotal()
      requires Valid() && sources != []
      ensures Len(indsMax) == Ok(Sum(CellCounts(meshes)))
    {
      RangesRecurrence(CellCounts(meshes), indsMin, indsMax);
    }

    /** get_data_ind_splits with the permutation and the counts
        int(fraction * len) given: the three lists become the planned
        split; on an error they are left as they were. */
    method GetDataIndSplits(split: DataSplit, perm: seq<int>) returns (r: Result<()>)
      requires Valid()
      requires split.Fractions? && indsMax != [] ==> IsPermutation(perm) && |perm| == Len(indsMax).value
      modifies this`trainInds, this`validationInds, this`testInds
      ensures var plan := PlannedSplit(split, perm, SourceIds(sources), indsMin, indsMax);
        && (r.Err? <==> plan.Err?)
        && (r.Err? ==> r.error == plan.error)
        && (plan.Ok? ==> Split(trainInds, validationInds, testInds) == plan.value)
        && (plan.Err? ==> trainInds == old(trainInds) && validationInds == old(validationInds) &&
                          testInds == old(testInds))
    {
      match split {
        case Fractions(nTrain, nValidation, nTest) =>
          if indsMax == [] {
            return Err(EmptySequence);
          }
          var sp := FractionSplit(perm, nTrain, nValidation, nTest);
          if sp.Err? {
            return Err(sp.error);
          }
          trainInds, validationInds, testInds := sp.value.train, sp.value.validation, sp.value.test;
        case Strata(trainIds, validationIds, testIds) =>
          var ids := SourceIds(sources);
          var train := CollectStrata(trainIds, ids, indsMin, indsMax);
          if train.Err? {
            return Err(train.error);
          }
          var validation := CollectStrata(validationIds, ids, indsMin, indsMax);
          if validation.Err? {
            return Err(validation.error);
          }
          var test := CollectStrata(testIds, ids, indsMin, indsMax);
          if test.Err? {
            return Err(test.error);
          }
          trainInds, validationInds, testInds := train.value, validation.value, test.value;
      }
      r := Ok(());
    }

    /** fill_cache(path, box): the tiers become those of FillStep; on an
        error nothing has changed. */
    method FillCache(path: Path, box: BBox) returns (r: Result<()>)
      modifies this`fs, this`headers, this`cacheInput
      ensures var step := FillStep(old(State()), Config(), path, box);
        && (r.Err? <==> step.Err?)
        && (r.Err? ==> r.error == step.error && State() == old(State()))
        && (step.Ok? ==> State() == step.value)
    {
      var cachePath := Cube.CachePath(cacheRoot, path);
      var data: Cube.Cube;
      if cacheHDD && cachePath in headers {
        data := Cube.Read(fs, cachePath, box);
        var complete := Cube.DataCompleteness(data);
        if complete.Err? {
          return Err(complete.error);
        }
        if !complete.value {
          data := Cube.Read(fs, path, box);
        }
      } else {
        data := Cube.Read(fs, path, box);
      }
      assert FillRead(old(State()), Config(), path, box) == Ok(data);
      if cacheRAM {
        if path !in cacheInput {
          cacheInput := cacheInput[path := map[box := data]];
        } else {
          cacheInput := cacheInput[path := cacheInput[path][box := data]];
        }
      }
      if cacheHDD {
        if cachePath !in headers {
          fs := Cube.Created(fs, cachePath);
          headers := headers + {cachePath};
        }
        assert headers == old(headers) + {cachePath};
        fs := Cube.WriteBlock(fs, cachePath, box.origin, data);
      }
      r := Ok(());
    }

    /** fill_caches: the tiers become those of FillSources, and the first
        error is returned. */
    method FillCaches() returns (r: Result<()>)
      requires Cached()
      modifies this`fs, this`headers, this`cacheInput
      ensures Cached()
      ensures var (t, e) := FillSources(old(State()), Config(), sources);
        && State() == t
        && (r.Err? <==> e.Some?)
        && (e.Some? ==> r.error == e.value)
    {
      ghost var t0 := State();
      ghost var cfg := Config();
      if !cacheRAM {
        FillSourcesRamOff(t0, cfg, sources);
      }
      for i := 0 to |sources|
        invariant FillSources(t0, cfg, sources[..i]) == (State(), None)
      {
        ghost var t1 := State();
        FillSourcesStep(t0, cfg, sources, i, t1);
        var a := FillCache(sources[i].inputPath, sources[i].inputBox);
        if a.Err? {
          assert FillSources(t0, cfg, sources[..i + 1]) == (t1, Some(a.error));
          FillErrPersists(t0, cfg, sources, i + 1);
          return a;
        }
        ghost var t2 := State();
        var b := FillCache(sources[i].targetPath, sources[i].targetBox);
        if b.Err? {
          assert FillSources(t0, cfg, sources[..i + 1]) == (t2, Some(b.error));
          FillErrPersists(t0, cfg, sources, i + 1);
          return b;
        }
        assert FillSources(t0, cfg, sources[..i + 1]) == (State(), None);
      }
      assert sources[..|sources|] == sources;
      r := Ok(());
    }

    /** The rest of __init__: get_data_ind_splits when a split is given,
        then fill_caches when either cache tier is on. A failed split
        leaves the lists and the tiers as they were; the fill then runs
        from the tiers as the constructor left them. */
    method FinishInit(split: Option<DataSplit>, perm: seq<int>) returns (r: Result<()>)
      requires Valid()
      requires split.Some? && split.value.Fractions? && indsMax != [] ==>
        IsPermutation(perm) && |perm| == Len(indsMax).value
      modifies this`trainInds, this`validationInds, this`testInds, this`fs, this`headers, this`cacheInput
      ensures Valid()
      ensures var plan := if split.Some? then PlannedSplit(split.value, perm, SourceIds(sources), indsMin, indsMax)
                          else Ok(Split(old(trainInds), old(validationInds), old(testInds)));
        var fill := FillSources(old(State()), Config(), sources);
        var fills := cacheRAM || cacheHDD;
        && (plan.Err? ==> r == Err(plan.error) && State() == old(State()))
        && (plan.Err? ==> trainInds == old(trainInds) && validationInds == old(validationInds) &&
                          testInds == old(testInds))
        && (plan.Ok? ==> Split(trainInds, validationInds, testInds) == plan.value)
        && (plan.Ok? && fills ==> State() == fill.0 && (r.Err? <==> fill.1.Some?) &&
                                  (fill.1.Some? ==> r.error == fill.1.value))
        && (plan.Ok? && !fills ==> State() == old(State()) && r == Ok(()))
    {
      if split.Some? {
        var sp := GetDataIndSplits(split.value, perm);
        if sp.Err? {
          return sp;
        }
      }
      if cacheRAM || cacheHDD {
        r := FillCaches();
      } else {
        r := Ok(());
      }
    }

    /** One pass of write_output_to_cache's loop, for the output at
        position n and sample index sampleIdx: the result cache and the
        error become those of WriteOne. */
    method WriteSample(outputs: seq<seq<real>>, n: nat, sampleIdx: int, outLabel: string)
      returns (e: Option<Error>)
      requires |indsMin| == |indsMax| == |meshes| == |sources|
      requires forall i :: 0 <= i < |meshes| ==> WellFormed(meshes[i])
      requires OutputShaped(cacheOutput)
      modifies this`cacheOutput
      ensures (cacheOutput, e) == WriteOne(old(cacheOutput), indsMin, indsMax, meshes, sources, outputShape,
                                           outputs, n, sampleIdx, outLabel)
    {
      ghost var c1 := cacheOutput;
      ghost var want := WriteOne(c1, indsMin, indsMax, meshes, sources, outputShape, outputs, n, sampleIdx, outLabel);
      var b := BBoxForSampleIdx(indsMin, indsMax, meshes, outputShape, sampleIdx);
      if b.Err? {
        assert want == (c1, Some(b.error)) by {
          WriteOneFails(c1, indsMin, indsMax, meshes, sources, outputShape, outputs, n, sampleIdx, outLabel);
        }
        return Some(b.error);
      }
      var (s, box) := b.value;
      var path, wbox := sources[s].inputPath, sources[s].inputBox;
      var c: OutputCache := cacheOutput;
      if path !in c {
        c := c[path := map[]];
      }
      ghost var a1 := c;
      if wbox !in c[path] {
        c := c[path := c[path][wbox := map[]]];
      }
      ghost var a2 := c;
      if outLabel !in c[path][wbox] {
        c := c[path := c[path][wbox := c[path][wbox][outLabel := Sparse.Unknown(wbox.extent)]]];
      }
      assert c == Allocate(c1, path, wbox, outLabel) by {
        AllocateIs(c1, path, wbox, outLabel, a1, a2, c);
      }
      cacheOutput := c;
      if n >= |outputs| {
        assert want == (c, Some(IndexOutOfBounds)) by {
          WriteOneFails(c1, indsMin, indsMax, meshes, sources, outputShape, outputs, n, sampleIdx, outLabel);
        }
        return Some(IndexOutOfBounds);
      }
      var vals := Sparse.Reshape(outputs[n], outputShape);
      if vals.Err? {
        assert want == (c, Some(vals.error)) by {
          WriteOneFails(c1, indsMin, indsMax, meshes, sources, outputShape, outputs, n, sampleIdx, outLabel);
        }
        return Some(vals.error);
      }
      var lo := Sub(box.origin, wbox.origin);
      assert Lookup3(c, path, wbox, outLabel).Some? && Cube.HasShape(c[path][wbox][outLabel], wbox.extent) by {
        AllocateShaped(c1, path, wbox, outLabel);
      }
      var data := c[path][wbox][outLabel];
      var w := Sparse.AssignRegion(data, wbox.extent, lo, Add(lo, AsVec(box.extent)), vals.value, outputShape);
      if w.Err? {
        assert want == (c, Some(w.error)) by {
          WriteOneUnfold(c1, indsMin, indsMax, meshes, sources, outputShape, outputs, n, sampleIdx, outLabel,
                         s, box, vals.value, data);
        }
        return Some(w.error);
      }
      assert want == (Install(c, path, wbox, outLabel, w.value), None) by {
        WriteOneUnfold(c1, indsMin, indsMax, meshes, sources, outputShape, outputs, n, sampleIdx, outLabel,
                       s, box, vals.value, w.value);
      }
      cacheOutput := c[path := c[path][wbox := c[path][wbox][outLabel := w.value]]];
      e := None;
    }

    /** write_output_to_cache: the result cache becomes that of WriteAll,
        and the first error is returned. */
    method WriteOutputToCache(outputs: seq<seq<real>>, sampleInds: seq<int>, outLabel: string)
      returns (r: Result<()>)
      requires Valid()
      modifies this`cacheOutput
      ensures OutputShaped(cacheOutput)
      ensures var (c, e) := WriteAll(old(cacheOutput), indsMin, indsMax, meshes, sources, outputShape,
                                     outputs, sampleInds, outLabel);
        && cacheOutput == c
        && (r.Err? <==> e.Some?)
        && (e.Some? ==> r.error == e.value)
    {
      ghost var c0 := cacheOutput;
      for i := 0 to |sampleInds|
        invariant OutputShaped(cacheOutput)
        invariant WriteAll(c0, indsMin, indsMax, meshes, sources, outputShape, outputs, sampleInds[..i], outLabel)
                  == (cacheOutput, None)
      {
        WriteAllStep(c0, indsMin, indsMax, meshes, sources, outputShape, outputs, sampleInds, outLabel, i,
                     cacheOutput);
        var e := WriteSample(outputs, i, sampleInds[i], outLabel);
        if e.Some? {
          WriteErrPersists(c0, indsMin, indsMax, meshes, sources, outputShape, outputs, sampleInds, outLabel, i + 1);
          return Err(e.value);
        }
      }
      assert sampleInds[..|sampleInds|] == sampleInds;
      r := Ok(());
    }
  }
}
