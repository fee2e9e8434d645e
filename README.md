# WkwData: grids, index translation, splits, caches and sparse results

This project models the indexing, splitting and caching engine of the
`WkwData` dataset class of genEM3 (`genEM3/data/wkwdata.py`) and proves
properties of that model in Dafny. A `WkwData` is built from a list of data
sources. Each source names a wkw dataset path and a bounding box for its
input and for its target. The class then does the following:

- It places one window of the input shape at every stride step inside each
  source's input box. This gives each source a coordinate grid
  (`np.meshgrid` of three `np.arange`s).
- It gives every source a contiguous range of global sample indices, and
  translates a global index back to its source, grid cell, window centre
  and window box.
- It splits the indices into train, validation and test lists. The split
  is either by fractions of a permutation or by whole sources.
- It fills a RAM cache and a disk cache of the sources' cubes. A disk copy
  is trusted only when each of its six faces holds a non-zero voxel.
- It reads sub-boxes through those caches.
- It writes network outputs into sparse result volumes, one per
  (path, box, label), which start as all NaN.
- It converts the JSON registry of data sources between a long form and a
  short form that factors out the properties all sources share.

Modules follow the structure of the code:

| module | file | models |
|---|---|---|
| `Outcomes` | outcomes.dfy | the exceptions the code raises, as `Error`, and `Option`/`Result` |
| `Geometry` | geometry.dfy | vectors, shapes, bounding boxes, Python's slice bounds |
| `RowMajor` | rowmajor.dfy | C-order `ravel`/`unravel_index` |
| `Mesh` | mesh.dfy | `get_data_mesh`: `np.arange`, `np.meshgrid` with its `'xy'` axis order |
| `Indexing` | indexing.dfy | `get_data_ind_ranges`, `__len__`, `get_source_mesh_for_sample_idx`, `get_bbox_for_sample_idx`, `get_center_for_sample_idx` |
| `Splits` | splits.dfy | `get_data_ind_splits` (fraction and strata strategies), `datasource_id_to_idx` |
| `Cube` | cube.dfy | the wkw store as a total function, `wkw_read`/`wkw_write`/`wkw_create`, slicing of a cube, the cache path, `assert_data_completeness` |
| `Sparse` | sparse.dfy | result volumes with NaN as `None`, `reshape`, slice assignment with broadcasting, `pad` |
| `Registry` | registry.dfy | `convert_ds_to_dict`, `convert_ds_to_list`, `ds_find_shared_properties`, `convert_to_short_ds`, the merge of `read_short_ds_json`, `concat_datasources` |
| `WkwDataset` | wkwdata.dfy | the `WkwData` class (fields updated in place by its methods) and the functions specifying its methods |

The parts of the class that update state are methods of `class WkwData`:

- the constructor;
- `GetDataMeshes`;
- `GetDataIndRanges`;
- `GetDataIndSplits`;
- `FillCache` and `FillCaches`;
- `FinishInit`;
- `WriteSample` and `WriteOutputToCache`.

Their fields are `seq`s and `map`s that the methods reassign. Each method
is proved against a function of the old state (`FillStep`, `FillSources`,
`PlannedSplit`, `WriteOne`, `WriteAll`), and the lemmas beside those
functions state what the code promises.

Inputs from outside the program are parameters:

- the file system is `Store` (a voxel for every path and point) plus the
  set of paths that hold a `header.wkw`;
- the random permutation of the fraction split is passed in, with the
  counts `int(fraction * len)`;
- the outputs written to the result cache are flat `real` sequences.

Three behaviours of the code worth knowing, which the model keeps:

- `wkw_read_cached` reads the disk copy whenever a header exists at the
  cache path (wkwdata.py:417-419). It does not check completeness there,
  and it does not look at `cache_HDD`.
- A window larger than the box does not fail: `np.arange` yields no
  coordinates, and the source gets an empty grid with an empty index
  range (`Mesh.DataMeshCellCount`).
- `fill_cache` writes the data to the disk cache whenever the disk tier
  is on, including when it was just read from there.

## Model

| member | source | states |
|---|---|---|
| Mesh.Arange | genEM3/data/wkwdata.py:168-170 | `np.arange(start, stop, step)` has ceil((stop - start) / step) entries (none when stop <= start), and entry i is start + i * step |
| Mesh.AxisCoords | genEM3/data/wkwdata.py:163-170 | the coordinates along one axis number max(n_fits, 0), with n_fits = floor((extent - window) / stride) + 1, and entry i is origin + floor(window / 2) + i * stride |
| Mesh.MeshGrid | genEM3/data/wkwdata.py:171 | the meshgrid arrays have shape (len y, len x, len z), and cell (i0, i1, i2) holds (x[i1], y[i0], z[i2]) |
| Mesh.DataMesh | genEM3/data/wkwdata.py:161-175 | the grid of a source is well formed with shape (ny, nx, nz), one count per axis |
| Mesh.DataMeshCenter | genEM3/data/wkwdata.py:163-171 | every cell holds corner_min + (i1, i0, i2) * stride: x follows the second array axis and y the first |
| Mesh.DataMeshCellCount | genEM3/data/wkwdata.py:165-171 | the cell count is the product of the three per-axis counts, and it is zero exactly when the window exceeds the extent on some axis |
| Mesh.FitCountPositive | genEM3/data/wkwdata.py:165-166 | at least one window fits along an axis exactly when the window is no larger than the extent |
| RowMajor.Unravel | genEM3/data/wkwdata.py:487-488 | `np.unravel_index` of a position below the size gives an in-bounds cell that ravels back to that position |
| RowMajor.UnravelRavel | genEM3/data/wkwdata.py:487-488 | the C-order position of an in-bounds cell lies in [0, size) and unravels back to the cell; with Unravel, the two are inverse bijections |
| Indexing.CellCounts | genEM3/data/wkwdata.py:189-190 | one count per source, the size of its grid |
| Indexing.RangesRecurrence | genEM3/data/wkwdata.py:177-190 | the ranges satisfy the code's recurrence: the first min is 0, min_i = max_(i-1) + 1, max_i = min_i + count_i - 1, and len is the total cell count |
| Indexing.Len | genEM3/data/wkwdata.py:149-151 | `__len__` fails (index [-1] of an empty list) exactly when there are no sources |
| Indexing.FirstAtLeast | genEM3/data/wkwdata.py:485 | `np.argmax(maxs >= idx)`: fails on no sources; otherwise an in-range index that is the first one with max >= idx, or 0 when there is none |
| Indexing.RangesTile | genEM3/data/wkwdata.py:177-190 | every index in [0, len) lies in the range of exactly one source, the one `argmax` picks |
| Indexing.LocateInRange | genEM3/data/wkwdata.py:483-490 | an index in [0, len) translates to the unique source whose range holds it and to an in-bounds cell with min + ravel(cell) == idx |
| Indexing.LocateOutOfRange | genEM3/data/wkwdata.py:483-490 | an index outside [0, len) is rejected |
| Indexing.LocateGlobal | genEM3/data/wkwdata.py:483-490 | the translation is onto: min_s + ravel(c) translates back to (s, c) for every source s and in-bounds cell c |
| Indexing.CenterForSampleIdx | genEM3/data/wkwdata.py:476-481 | the centre lookup succeeds exactly when the source/cell translation does |
| Indexing.BBoxForSampleIdx | genEM3/data/wkwdata.py:461-474 | the box lookup names an existing source |
| Indexing.BBoxAroundCenter | genEM3/data/wkwdata.py:461-481 | the box and the centre of a sample fail together; the box has the window shape as extent and origin centre - floor(shape / 2) |
| Indexing.SampleBoxWithinSource | genEM3/data/wkwdata.py:461-474 | for grids built from the input boxes, every sample window no larger than the input window lies inside its source's input box |
| Splits.AllInds | genEM3/data/wkwdata.py:198 | `set(range(n))` holds exactly 0 .. n-1 |
| Splits.FractionSplit | genEM3/data/wkwdata.py:194-218 | fails (more than one index left) exactly when more than one index follows the last clamped cut; otherwise returns the consecutive slices of the permutation, with the single leftover index appended to train |
| Splits.FractionSlicesPartition | genEM3/data/wkwdata.py:209-218 | on success the three lists are pairwise disjoint and free of repeats, their union is {0 .. N-1}, and their lengths add up to N (the code's length assertion) |
| Splits.IdToIdx | genEM3/data/wkwdata.py:530-532 | `list.index`: succeeds exactly when some source has the id, returns the first position holding it, and fails with that id otherwise |
| Splits.CollectStrata | genEM3/data/wkwdata.py:221-224 | the `+=` loop over the listed ids computes StrataInds: each id's range [min, max], in list order, or the first failure |
| Splits.StrataFails | genEM3/data/wkwdata.py:220-234 | a strata list fails exactly when it names an id no source has, and then with the first such id |
| Splits.StrataMembers | genEM3/data/wkwdata.py:220-234 | on success an index is in a list exactly when it lies in the range of a source that list names |
| WkwDataset.SourceMeshes | genEM3/data/wkwdata.py:157-159 | one grid per source, built over its input box with the input shape and the stride |
| WkwDataset.PlannedSplit | genEM3/data/wkwdata.py:192-238 | fractions fail on no sources and on more than one leftover index; strata succeed exactly when all three lists name only known ids |
| WkwDataset.FractionPlanPartitions | genEM3/data/wkwdata.py:194-218 | a successful fraction split of a permutation of [0, len) partitions [0, len) |
| WkwDataset.StrataPlanMembers | genEM3/data/wkwdata.py:220-238 | each strata list holds exactly the indices of the sources it names, so sources named by no list are in no split |
| WkwDataset.FillRead | genEM3/data/wkwdata.py:366-375 | the fill's read fails exactly when the disk tier is on, a header exists and the box has an empty axis; otherwise the data has the box's shape |
| WkwDataset.FillReadAccepts | genEM3/data/wkwdata.py:369-375 | disk data is used only when all six faces hold a non-zero voxel; incomplete disk data is re-read from the source path, and without the disk tier or a header the source path is read |
| WkwDataset.FillStep | genEM3/data/wkwdata.py:364-392 | a fill fails exactly when its read fails, with the same error |
| WkwDataset.FillStepEffect | genEM3/data/wkwdata.py:377-392 | with RAM on, the entry (path, box) holds the data and no other RAM entry changes; with RAM off, RAM is untouched; with the disk tier on, the cache path has a header, reads back the data and no other path changes; with it off, the store and headers are untouched |
| WkwDataset.FillStore | genEM3/data/wkwdata.py:384-392 | after a fill with the disk tier on, the cache path reads back the data, and the source path reads as before when it differs from the cache path |
| WkwDataset.FillReadAgain | genEM3/data/wkwdata.py:364-392 | a second fill of the same non-empty box obtains the same data as the first |
| WkwDataset.FillTwice | genEM3/data/wkwdata.py:364-392 | a second fill of the same non-empty box succeeds and leaves the RAM cache and the header set unchanged |
| WkwDataset.FillSourcesStep | genEM3/data/wkwdata.py:358-362 | one more source after an error-free prefix is its input fill, then its target fill |
| WkwDataset.FillErrPersists | genEM3/data/wkwdata.py:357-362 | after the first failing fill, the later sources change nothing |
| WkwDataset.FillSourcesRamOff | genEM3/data/wkwdata.py:377-382 | with the RAM tier off, filling all sources never touches the RAM cache |
| WkwDataset.PyIndex | genEM3/data/wkwdata.py:397-402 | Python list indexing of `data_sources[source_idx]`: succeeds exactly for -n <= i < n, and negative indices count from the end |
| WkwDataset.ReadCached | genEM3/data/wkwdata.py:394-424 | the corrected cached read fails only on a source index out of range |
| WkwDataset.ReadCachedAsWritten | genEM3/data/wkwdata.py:405 | the read as written fails exactly when the source index is out of range or the path has no RAM entry (KeyError from the bitwise `&`) |
| WkwDataset.ReadCachedAsWrittenDiffers | genEM3/data/wkwdata.py:404-422 | as-written and corrected reads agree whenever the path has a RAM entry; without one the as-written read raises and the corrected one succeeds |
| WkwDataset.ReadCachedHit | genEM3/data/wkwdata.py:405-413 | on a RAM hit whose cube is a read of the registered box, the slice at box origin - registered origin with the box's extent equals a direct read of any box inside it |
| WkwDataset.FillThenRead | genEM3/data/wkwdata.py:377-413 | after a fill with RAM on, a cached read of a box inside the filled box equals a direct read from the source path, or from the cache path when its copy was complete |
| WkwDataset.DiskOnlyReadsFail | genEM3/data/wkwdata.py:405 | with RAM off and the disk tier on, after the fills every as-written cached read raises, while the corrected one succeeds |
| WkwDataset.Allocate | genEM3/data/wkwdata.py:314-322 | after the lazy allocation a volume exists under (path, box, label) |
| WkwDataset.AllocateIs | genEM3/data/wkwdata.py:314-322 | the three `if ... not in` steps in sequence give Allocate |
| WkwDataset.AllocateOnce | genEM3/data/wkwdata.py:314-322 | an existing volume is kept, a missing one becomes all NaN with the box's extent, and no other (path, box, label) entry changes |
| WkwDataset.Install | genEM3/data/wkwdata.py:329 | storing the volume back changes exactly the entry (path, box, label) |
| WkwDataset.WriteOne | genEM3/data/wkwdata.py:308-329 | one pass of the loop keeps every volume at its box's extent |
| WkwDataset.WriteAll | genEM3/data/wkwdata.py:308-329 | the whole loop keeps every volume at its box's extent |
| WkwDataset.WriteOneFails | genEM3/data/wkwdata.py:309-328 | an index the translation rejects leaves the cache unchanged; a missing output or a failed reshape fails after the allocation, which stays |
| WkwDataset.WriteAllStep | genEM3/data/wkwdata.py:308 | one more pass after an error-free prefix is WriteOne at that position |
| WkwDataset.WriteErrPersists | genEM3/data/wkwdata.py:308-329 | after the first failing pass the later sample indices change nothing |
| WkwDataset.WriteOneRejects | genEM3/data/wkwdata.py:309 | a sample index outside [0, len) fails before anything is allocated |
| WkwDataset.TargetInSource | genEM3/data/wkwdata.py:324-325 | a sample's target box lies inside its source's input box: `data_min >= 0` and `data_max <=` the input extent on every axis |
| WkwDataset.BlockWrite | genEM3/data/wkwdata.py:328 | assigning a block inside the volume succeeds and gives a WrittenBlock of the volume it started from |
| WkwDataset.WriteOneUnfold | genEM3/data/wkwdata.py:324-329 | after the reshape, a pass fails with the assignment's error or stores the assigned volume |
| WkwDataset.WriteOneRegion | genEM3/data/wkwdata.py:311-329 | a write of an in-range sample succeeds; the volume of (input path, input box, label) holds the output exactly on [box origin - input origin, + target shape) and elsewhere what it held before (NaN on the first write); every other (path, box, label) entry is unchanged |
| WkwDataset.WkwData.constructor | genEM3/data/wkwdata.py:110-141 | stride defaults to the target shape and the cache root to '.'; caches and splits start empty; the grids and index ranges are computed, so the object is Valid |
| WkwDataset.WkwData.GetDataMeshes | genEM3/data/wkwdata.py:157-159 | appends the grid of every source, in order |
| WkwDataset.WkwData.GetDataIndRanges | genEM3/data/wkwdata.py:177-190 | the appending loop leaves min/max lists that are the running sums of the cell counts |
| WkwDataset.WkwData.LengthIsCellTotal | genEM3/data/wkwdata.py:149-151 | `__len__` is the total number of grid cells |
| WkwDataset.WkwData.GetDataIndSplits | genEM3/data/wkwdata.py:192-238 | the three lists become the planned split and the method fails exactly when the plan does, with the plan's error; on an error the lists are unchanged |
| WkwDataset.WkwData.FillCache | genEM3/data/wkwdata.py:364-392 | the tiers become FillStep's; on an error they are unchanged |
| WkwDataset.WkwData.FillCaches | genEM3/data/wkwdata.py:357-362 | the tiers become FillSources' and its first error is returned; nothing enters RAM with the RAM tier off |
| WkwDataset.WkwData.FinishInit | genEM3/data/wkwdata.py:143-147 | the split is planned when one is given, then the caches are filled when either tier is on; a failed split changes nothing |
| WkwDataset.WkwData.WriteSample | genEM3/data/wkwdata.py:309-329 | one pass of the loop, with the three lazy ifs, the reshape and the slice assignment, leaves the result cache and error of WriteOne |
| WkwDataset.WkwData.WriteOutputToCache | genEM3/data/wkwdata.py:300-329 | the result cache becomes WriteAll's and the first error is returned; every volume keeps its box's extent |
| Cube.Read | genEM3/data/wkwdata.py:616-620 | `wkw_read` of a box has the box's shape, and voxel (i, j, k) is the store's voxel at origin + (i, j, k) |
| Cube.SliceInside | genEM3/data/wkwdata.py:408-413 | a slice whose bounds lie inside the cube has the requested extent and holds the voxels at the offset |
| Cube.SliceOfRead | genEM3/data/wkwdata.py:405-413 | slicing the read of a box at the offset of an inner box equals the read of the inner box |
| Cube.Created | genEM3/data/wkwdata.py:627-629 | `wkw_create` makes every voxel of the new path read as zero and leaves other paths alone |
| Cube.ReadAfterWrite | genEM3/data/wkwdata.py:622-625 | reading back the box just written returns the data written |
| Cube.ReadUnaffected | genEM3/data/wkwdata.py:622-625 | a write does not change reads of other paths |
| Cube.CachePath | genEM3/data/wkwdata.py:366 | `os.path.join(root, path[1:])` for an absolute path is root + path when the root has no trailing separator, and root + path[1:] when it has one (as every configured root does) |
| Cube.DataCompleteness | genEM3/data/wkwdata.py:632-638 | the completeness test raises exactly when an axis is empty |
| Cube.CompletenessFaces | genEM3/data/wkwdata.py:632-638 | on a cube of shape s, the test is true exactly when each of the six faces holds a non-zero voxel |
| Cube.ZeroCubeIncomplete | genEM3/data/wkwdata.py:632-638 | an all-zero cube (a never-written cache region) is incomplete |
| Cube.FullCubeComplete | genEM3/data/wkwdata.py:632-638 | a cube without zero voxels is complete |
| Sparse.Unknown | genEM3/data/wkwdata.py:321 | `np.full(extent, np.nan)` has the extent's shape and every cell is NaN |
| Sparse.Reshape | genEM3/data/wkwdata.py:328 | `reshape(output_shape)` fails exactly when the element counts differ, and otherwise has that shape |
| Sparse.ReshapeFlatten | genEM3/data/wkwdata.py:328 | reshaping the C-order flattening of an array gives the array back |
| Sparse.FlattenReshape | genEM3/data/wkwdata.py:328 | flattening a reshaped array gives the flat values back |
| Sparse.AssignRegion | genEM3/data/wkwdata.py:328 | slice assignment fails exactly when the value does not broadcast onto the selected region, and otherwise keeps the volume's shape |
| Sparse.AssignBlock | genEM3/data/wkwdata.py:324-328 | assigning a block that fits sets exactly the cells [lo, lo + shape) to the block's values and leaves every other cell as it was |
| Sparse.PadWidths | genEM3/data/wkwdata.py:351 | when the target shape is at most the input shape, each pad width w satisfies 2w <= input - output <= 2w + 1 |
| Sparse.Pad | genEM3/data/wkwdata.py:352-354 | `np.pad` of a bare 3-D array with constant mode fails exactly on a negative width and otherwise grows each axis by twice its width |
| Sparse.UnpadPad | genEM3/data/wkwdata.py:350-355 | slicing the padded array at the widths gives the original array back |
| Sparse.PadBorder | genEM3/data/wkwdata.py:352-354 | every cell of the added border holds the constant |
| Sparse.PadToInputShape | genEM3/data/wkwdata.py:350-355 | padding a bare 3-D array of the output shape by PadWidths gives the input shape when the shapes differ by an even amount |
| Registry.AsDict | genEM3/data/wkwdata.py:847 | `d._asdict()` records the id under "id" |
| Registry.FromDict | genEM3/data/wkwdata.py:859 | `DataSource(**m)` gives, on success, a well-formed source that takes m's value for every non-id field m has |
| Registry.FromAsDict | genEM3/data/wkwdata.py:838-859 | the dict of a source converts back to the same source |
| Registry.KeyOfInjective | genEM3/data/wkwdata.py:847 | equal 'datasource_<id>' keys mean equal ids |
| Registry.Put | genEM3/data/wkwdata.py:847 | storing into an ordered dict keeps the length for an existing key and appends a new key last |
| Registry.PutEntries | genEM3/data/wkwdata.py:847 | in an ordered dict with distinct keys, storing under an existing key replaces that entry's value in place and leaves every other entry unchanged |
| Registry.ConvertDsToDictListing | genEM3/data/wkwdata.py:838-847 | with distinct ids the long dict lists every source with its key and record, in order |
| Geometry.SliceBound | genEM3/data/wkwdata.py:408-413 | a Python slice bound is clamped to [0, n]: a bound inside is kept, a negative one counts from the end, and one past either end is clamped |
| Geometry.Slice | genEM3/data/wkwdata.py:408-413 | a numpy slice with in-range bounds is the plain sub-sequence, and no slice is longer than the sequence |
| Registry.FindShared | genEM3/data/wkwdata.py:768-800 | finding shared properties fails exactly on an empty list |
| Registry.FindSharedMeaning | genEM3/data/wkwdata.py:768-800 | a shared property has its value in every record, and every property of the first record that all records agree on is shared |
| Registry.Strip | genEM3/data/wkwdata.py:759-762 | popping the shared keys leaves exactly the other keys with their values |
| Registry.StripAll | genEM3/data/wkwdata.py:757-762 | every record of the long dict loses the shared keys, and the keys keep their order |
| Registry.ConvertToShort | genEM3/data/wkwdata.py:740-765 | a dict with 'shared_properties' is returned unchanged and any other dict is rejected; an empty list without given properties fails; the short dict is 'shared_properties' followed by one entry per long entry |
| Registry.Rest | genEM3/data/wkwdata.py:729-730 | dropping 'shared_properties' keeps exactly the other entries |
| Registry.Lookup | genEM3/data/wkwdata.py:733 | the record found is stored under the key |
| Registry.MergeShort | genEM3/data/wkwdata.py:726-734 | without 'shared_properties' the dict is unchanged; with it the merge succeeds exactly when every other key contains 'datasource_', and each record is updated with the shared values |
| Registry.Overlay | genEM3/data/wkwdata.py:732-733 | `update` lays the shared record over every record, with the shared values winning |
| Registry.ConvertDsToList | genEM3/data/wkwdata.py:850-859 | on success one source per record, each converted from its record |
| Registry.ShortRoundTrip | genEM3/data/wkwdata.py:726-765 | the short form of a non-empty list of well-formed sources with distinct ids reads back as the same list |
| Registry.StripRestore | genEM3/data/wkwdata.py:732-762 | stripping the shared keys and merging the shared record back gives the record |
| Registry.NatToStringInjective | genEM3/data/wkwdata.py:880 | different positions give different `str(it)` ids |
| Registry.Renumbered | genEM3/data/wkwdata.py:877-881 | the sources keep their order and source i gets id str(i) |
| Registry.ConcatDatasources | genEM3/data/wkwdata.py:862-887 | the loops concatenate the lists in order and renumber the ids from 0 |
| Registry.RenumberedDistinct | genEM3/data/wkwdata.py:877-881 | after concatenation the ids are distinct |

## Left out

- Reading and writing JSON files (`datasources_from_json`, `datasources_to_json`, `write_short_ds_json`, the file part of `read_short_ds_json`, the output file of `concat_datasources`) is file I/O. The model starts from the parsed dicts and lists.
- `wkw.Dataset` I/O (`wkw_read`, `wkw_write`, `wkw_create`, `wkw_header`) is an abstract total store plus a set of paths holding a header. The voxel type that `wkw_header` reports is not modelled; a created dataset reads as one zero channel. `os.makedirs` and `os.path.exists` on directories are not modelled.
- `wkw_write_cache` is file output with dtype casts.
- `interpolate_sparse_cache` is scipy `griddata` on floats.
- `normalize`, `get_datasource_stats`, `get_datasources_stats`, `update_datasource_stats` and `update_datasources_stats` are float statistics over random samples.
- `get_ordered_sample`, `__getitem__`, `get_random_sample`, `collate_fn` and `show_sample` are torch tensors, transforms, randomness and plotting.
- `get_source_idx_from_sample_idx`, `get_target_from_sample_idx` and `datasource_idx_to_id` are cached or trivial lookups with nothing to prove.
- `datasources_bbox_from_json`, `disk_usage` and `compare_ds_targets` are JSON, file-system walks and pandas.
- `np.random.permutation`: the permutation is an input, and so are the counts `int(fraction * len)`, so there is no float arithmetic or randomness.
- Converting a torch tensor of sample indices to a list (wkwdata.py:305-306) is torch.
- Float32 storage of result volumes: values are exact `real`s, with no rounding.
- Result volumes and cached cubes are values (`seq`s), not shared numpy arrays. The in-place slice assignment of wkwdata.py:327-329 is modelled as building the new volume and storing it back under the same key. The code does the same store, so no aliasing is lost.
- `str(bbox)` keys are modelled by the box value itself: integer lists print alike exactly when they are equal.
- The per-sample `'input'` and `'target'` grids are one grid, because the code stores the same arrays under both keys (wkwdata.py:172-173).
- Data source ids are modelled as strings, a modelling choice: `DataSourceDefaults` gives `id` the type object `str` as its default value and declares no type, so int ids and mismatches between int and string ids in a strata list are not modelled. The fields `input_mean`, `input_std`, `target_class` and `target_binary` do not appear in `WkwDataset.Source`, because the modelled methods never read them.
- `pad` is modelled as `np.pad` on a bare 3-D array (`Sparse.Pad`, `Sparse.PadToInputShape`). The code calls it with `pad_target=True` on the target of a sample (wkwdata.py:284-285). A target read from wkw is a 4-D channel-first cube (wkwdata.py:280-282, :408-413), on which three width pairs make `np.pad` raise. A target copied from the input (:276) is 3-D with the channel first, so the widths fall on the channel axis. A binary target (:271) is 0-D or 1-D and raises too. None of these call shapes is modelled.
- Registry.FromDict: returns `Err(NonStringId)` for a record without "id" or with a non-string id. `DataSource(**m)` accepts both: the id then takes the default, the type `str`, or keeps the int. That error is not raised by the code.
- WkwDataset.WkwData.constructor: requires a positive stride (the given one, or the target shape when none is given). A zero stride or target axis makes `np.arange` at wkwdata.py:168-170 raise ZeroDivisionError inside `__init__`, and that crash is not modelled.
- WkwDataset.WkwData.constructor: an `__init__` that raises cannot return an error, so the split and the cache fill are the separate method `FinishInit`, called on the constructed object.
- WkwDataset.WriteOneRegion: stated for target windows no larger than the input window. With a larger target window the slice can stick out of the volume, and the assignment then fails or writes a clipped region. `WriteOne` models that case, but no lemma describes its result.
- WkwDataset.FillReadAgain and WkwDataset.FillTwice: stated for a non-empty box whose cache path differs from its source path. With an empty box the completeness test raises. When the two paths coincide, the cache write overwrites the source.
- Sparse.PadToInputShape: stated for shapes that differ by an even amount on every axis. With an odd difference the padded target is one voxel short.
- Registry.ShortRoundTrip: stated for well-formed sources with distinct ids. With a repeated id the long dict keeps only the last record for that id, so fewer sources come back.

## Findings

| source | as written | input that shows it | evidently intended | confidence | as-written member | corrected member |
|---|---|---|---|---|---|---|
| genEM3/data/wkwdata.py:405 | the RAM test joins `wkw_path in cache` and `str(abs_pos) in cache[wkw_path]` with the bitwise `&`, which evaluates both, so the second lookup raises `KeyError` when the path has no RAM entry | `cache_RAM=False, cache_HDD=True`: the fills leave the RAM cache empty, and every `wkw_read_cached` then raises instead of reading the disk cache (`DiskOnlyReadsFail`) | a short-circuit `and`, so a read without a RAM entry falls back to the disk cache or the source | not executed | WkwDataset.ReadCachedAsWritten | WkwDataset.ReadCached |

The as-written member `ReadCachedAsWritten` comes with two lemmas:

- `ReadCachedAsWrittenDiffers`: the two readers agree whenever the path
  has a RAM entry, and otherwise only the corrected one succeeds;
- `DiskOnlyReadsFail`: a disk-only configuration.

The corrected `ReadCached` is the reader the rest of the model uses. The
properties proved about it are:

- `ReadCachedHit`: a RAM hit returns the voxels of a direct read;
- `FillThenRead`: after a fill, a cached read returns a direct read of
  the source, or of a complete disk copy.
