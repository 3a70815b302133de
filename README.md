# magpylib field assembly, modelled in Dafny

magpylib computes the magnetic field (B or H) of permanent magnets, current
loops, line currents and dipoles at the pixels of sensors. This project models
the part of magpylib that turns a list of *sources* and *Collections* and a
list of *sensors*, each with its own path of positions and orientations, into
one field array:

- `getBH_level2` (module `Level2`, with `PathAlign`, `Tiling`, `Grouping`,
  `Assemble` and `Shaping`):
  - every path is padded to the longest one with its last entry;
  - the sensor pixels become global observation points at every path step;
  - the sources are grouped by type (seven buckets);
  - each bucket gets one vectorised dictionary (`get_src_dict` and the
    `tile_*` helpers) and one batch call;
  - the batch results are scattered back into the source order;
  - the rows of each Collection are summed;
  - the field is rotated back into each sensor's frame;
  - the array is reshaped to `(L, M, K, pixel shape…, 3)`, optionally summed
    over the sources and squeezed;
  - the padded paths are truncated again.
- `getBH_level1` (module `Dispatch`): for one same-type batch, move the
  observation points into the source frame, call the kernel for the batch's
  type tag with the keys that tag needs, and rotate the result back.
- The `Collection` class (module `Collections`):
  - the `sources` setter, which drops duplicates and non-sources;
  - `add`, `remove`, `+`, `-`, iteration and indexing;
  - the fan-out of `move`, `rotate` and `reset_path` to the members.

The objects are instances of one class `Objects.MagObject`. It has an immutable
type tag and attribute record, and mutable `position` and `orientation` paths.
`getBH_level2` pads and truncates these paths in place. The pure parts of the
computation work on `Snapshot` values of these objects. Three things are
parameters of the model:

- the closed-form field kernels (`Dispatch.Kernels`);
- the application of a rotation to a vector (`rot`), of which only one fact is
  used: the unit quaternion acts as the identity;
- B versus H (`bh`).

Vectors are triples of reals.

The headline results:

- `Level2.GetBHLevel2` returns exactly the *designed* field `Level2.Designed`.
  For every source entry, path step, sensor and pixel, that field is the
  kernel field of the source (or the sum over the Collection's sources) at the
  pixel's global position at that step, expressed in the sensor's frame at
  that step. Paths shorter than the longest count as staying at their last
  entry.
- It fails exactly when the pixel shapes differ or a CylinderSegment has a
  malformed dimension.
- On success every object has its original paths back.
- The grouping and scatter-back is a permutation of the source rows.
- The Collection operations keep the member list duplicate-free and in
  first-occurrence order.

## Model

| member | source | states |
|---|---|---|
| Level2.GetBHLevel2 | magpylib/_lib/fields/field_wrap_BH_level2.py:134-329 | different pixel shapes give `Err(BadUserInput)` and leave the paths untouched; otherwise the result is Ok iff every CylinderSegment is well formed, and its value is the designed field of the objects as they were; on success every path is back to its old value, and on a failed bucket the paths stay padded to the longest |
| Level2.EvaluateAligned | magpylib/_lib/fields/field_wrap_BH_level2.py:206-327 | padding, evaluation and reset together: Ok iff the segments are well formed; an Ok value is the field of the inputs padded to the longest path; afterwards the snapshots equal the originals on success and the padded ones on failure |
| Level2.EvaluatePadded | magpylib/_lib/fields/field_wrap_BH_level2.py:235-322 | on snapshots padded to the longest path, the evaluation gives the field of the padded inputs, and fails exactly when a CylinderSegment is malformed |
| Level2.Evaluate | magpylib/_lib/fields/field_wrap_BH_level2.py:235-322 | grouping, bucket evaluation, scatter, Collection sum, back-rotation and arrangement together yield the reference field `FieldOf`; Ok iff the segments are well formed |
| Level2.AlignPaths | magpylib/_lib/fields/field_wrap_BH_level2.py:207-233 | run on the deduplicated object list, the padding leaves every participating object, even one listed twice, with its paths padded to the longest path; each recorded object is a participant, recorded once with its old length, and every object not recorded already had the longest length |
| Level2.AlignedThrough | magpylib/_lib/fields/field_wrap_BH_level2.py:207-221 | the padding and the reset records of the deduplicated list carry over to the original list through the index map |
| Level2.PaddedThrough | magpylib/_lib/fields/field_wrap_BH_level2.py:207-233 | padding the deduplicated list pads every entry of the original list that maps onto it |
| Level2.SnapsThrough | magpylib/_lib/fields/field_wrap_BH_level2.py:207 | every entry of the original list has the snapshot of the deduplicated entry it maps to |
| Level2.RestorePaths | magpylib/_lib/fields/field_wrap_BH_level2.py:324-327 | truncating each recorded object to its recorded length gives every object its pre-padding snapshot back |
| Level2.ExpectOrientFlags | magpylib/_lib/fields/field_wrap_BH_level2.py:193-204 | flags taken before padding still describe the padded orientation paths, so the back-rotation shortcuts are sound |
| Level2.ObjListFacts | magpylib/_lib/fields/field_wrap_BH_level2.py:207-216 | the deduplicated participant list is non-empty, has well-formed paths and the same longest path as the full list |
| Level2.LongestBounds | magpylib/_lib/fields/field_wrap_BH_level2.py:215-216 | every source and sensor path is at most as long as the longest |
| Level2.PaddedFacts | magpylib/_lib/fields/field_wrap_BH_level2.py:223-233 | after padding to the longest path all paths have that length, and padding changes no CylinderSegment's well-formedness |
| Level2.PadSources | magpylib/_lib/fields/field_wrap_BH_level2.py:223-233 | padded sources have paths of the common length and keep their dimensions |
| Level2.PadSensors | magpylib/_lib/fields/field_wrap_BH_level2.py:223-233 | padded sensors have paths of the common length and keep their pixels |
| Level2.FlattenEntriesLayout | magpylib/_lib/fields/field_wrap_BH_level2.py:169-173 | the flattened source list holds exactly the entries' sources, its length is the sum of the sizes, and entry `s` occupies the slice starting at its offset |
| Level2.InputFacts | magpylib/_lib/fields/field_wrap_BH_level2.py:169-191 | the guaranteed inputs give a non-empty participant list with well-formed paths, whose snapshots are the sources' snapshots followed by the sensors' |
| PathAlign.Pad | magpylib/_lib/fields/field_wrap_BH_level2.py:223-233 | the padded path has length `m` (or is unchanged when it is already that long), starts with the original path and continues with copies of its last entry |
| PathAlign.PadTruncate | magpylib/_lib/fields/field_wrap_BH_level2.py:324-327 | truncating a padded path to its old length gives the path back; a path of length `m` is not changed |
| PathAlign.PadConstant | magpylib/_lib/fields/field_wrap_BH_level2.py:223-233 | padding a constant path keeps it constant |
| PathAlign.MaxPathLength | magpylib/_lib/fields/field_wrap_BH_level2.py:216 | the result bounds every length and is one of them |
| PathAlign.Dedup | magpylib/_lib/fields/field_wrap_BH_level2.py:207 | a duplicate-free list holding exactly the elements of the input |
| PathAlign.PadSnap | magpylib/_lib/fields/field_wrap_BH_level2.py:223-233 | a padded snapshot keeps its type and attributes, and both of its paths are padded |
| PathAlign.PadAll | magpylib/_lib/fields/field_wrap_BH_level2.py:223-233 | every snapshot padded to `m` |
| PathAlign.PaddedSnaps | magpylib/_lib/fields/field_wrap_BH_level2.py:223-233 | objects whose paths are the padded old paths have the padded snapshots |
| PathAlign.TilePaths | magpylib/_lib/fields/field_wrap_BH_level2.py:215-233 | `m` is the longest path length; afterwards every snapshot is padded to `m`; an object is recorded iff its length differs from `m`, with its old length, which is below `m` |
| PathAlign.RecordResets | magpylib/_lib/fields/field_wrap_BH_level2.py:218-221 | the recorded objects are exactly those whose length differs from `m`, without repetition, each paired with its length |
| PathAlign.PadRecorded | magpylib/_lib/fields/field_wrap_BH_level2.py:223-233 | each recorded object gets its old paths padded to `m`; objects already of length `m` are untouched |
| PathAlign.PadObject | magpylib/_lib/fields/field_wrap_BH_level2.py:226-233 | one object's position and orientation paths become their padded versions |
| PathAlign.ResetsPadded | magpylib/_lib/fields/field_wrap_BH_level2.py:219-233 | padding the recorded objects pads every object's snapshot, since the others already had length `m` |
| PathAlign.ResetPaths | magpylib/_lib/fields/field_wrap_BH_level2.py:324-327 | each recorded object is truncated to its recorded length |
| Objects.GroupIndex | magpylib/_lib/fields/field_wrap_BH_level2.py:248-269 | a tag has a bucket iff it is one of the seven source kinds, and the bucket is below seven |
| Objects.BucketTypeInverse | magpylib/_lib/fields/field_wrap_BH_level2.py:248-269 | buckets and source kinds correspond one to one |
| Grouping.BucketIndices | magpylib/_lib/fields/field_wrap_BH_level2.py:246-269 | the increasing list of exactly the source indices whose tag belongs to the bucket |
| Grouping.BucketsPartition | magpylib/_lib/fields/field_wrap_BH_level2.py:246-269 | a source index lies in exactly one bucket (that of its kind), or in none when its tag is no source kind |
| Grouping.ScatterInverse | magpylib/_lib/fields/field_wrap_BH_level2.py:279-280 | two positions of a bucket name the same output row iff they are equal |
| Grouping.GroupSources | magpylib/_lib/fields/field_wrap_BH_level2.py:246-269 | the grouping loop gives seven buckets whose order lists are the bucket indices, and each bucket's `u`-th source is the source its order list names |
| Grouping.SourceFields | magpylib/_lib/fields/field_wrap_BH_level2.py:272-280 | reference: one field block per source, in source order |
| Grouping.BucketField | magpylib/_lib/fields/field_wrap_BH_level2.py:274-278 | a bucket's dispatch and reshape succeeds iff it is a well-formed bucket, and then holds every member's field block |
| Grouping.EvaluateBucket | magpylib/_lib/fields/field_wrap_BH_level2.py:273-280 | one non-empty bucket: on success every member's preallocated row holds that member's field block and no other row changes; a failure means some CylinderSegment is malformed, and nothing was written |
| Grouping.EvaluateGroups | magpylib/_lib/fields/field_wrap_BH_level2.py:271-280 | bucket evaluation with scatter into the preallocated rows is Ok iff every CylinderSegment is well formed, and then equals the per-source reference fields in source order |
| Grouping.ScatterRows | magpylib/_lib/fields/field_wrap_BH_level2.py:279-280 | row `idx[u]` of the array receives `rows[u]`; rows no index names keep their contents |
| Grouping.ScatterTarget | magpylib/_lib/fields/field_wrap_BH_level2.py:279-280 | each bucket position writes a source row of its own kind that no earlier position wrote |
| Grouping.BucketOfSorted | magpylib/_lib/fields/field_wrap_BH_level2.py:246-269 | every member of a non-empty bucket has that bucket's kind and the common path length |
| Grouping.BadSegmentFound | magpylib/_lib/fields/field_wrap_BH_level2.py:274-277 | a bucket that fails its dispatch contains a malformed CylinderSegment |
| Grouping.BucketIffDispatchOk | magpylib/_lib/fields/field_wrap_BH_level2.py:274-277 | get_src_dict succeeds for a non-empty same-kind bucket, and the dispatch on its dictionary succeeds iff the bucket is well formed |
| Grouping.SegmentRowOf | magpylib/_lib/fields/field_wrap_BH_level2.py:34-39 | when a CylinderSegment dictionary with the tiled dimensions is in the dispatch's domain, every member's dimension has five entries |
| Tiling.TileMag | magpylib/_lib/fields/field_wrap_BH_level2.py:10-15 | `lg·nPP` rows; row `i` carries the magnetization of source `i / nPP` |
| Tiling.TileDimension | magpylib/_lib/fields/field_wrap_BH_level2.py:18-39 | `lg·nPP` rows; row `i` carries the dimension of source `i / nPP` (Cuboid, Cylinder, CylinderSegment) |
| Tiling.TileMoment | magpylib/_lib/fields/field_wrap_BH_level2.py:50-55 | `lg·nPP` rows; row `i` carries the moment of source `i / nPP` |
| Tiling.TileDiaAsWritten | magpylib/_lib/fields/field_wrap_BH_level2.py:42-47 | as written: row `i` carries the diameter of source `i % lg`, because the tiling repeats a one-dimensional array whole |
| Tiling.TileCurrentAsWritten | magpylib/_lib/fields/field_wrap_BH_level2.py:58-63 | as written: row `i` carries the current of source `i % lg` |
| Tiling.TileDia | magpylib/_lib/fields/field_wrap_BH_level2.py:42-47 | corrected: row `i` carries the diameter of source `i / nPP`, like the other tilings |
| Tiling.TileCurrent | magpylib/_lib/fields/field_wrap_BH_level2.py:58-63 | corrected: row `i` carries the current of source `i / nPP` |
| Tiling.TileDiaLayoutsAgree | magpylib/_lib/fields/field_wrap_BH_level2.py:42-63 | the two layouts coincide for one source or one observation row |
| Tiling.TileDiaAsWrittenMisaligned | magpylib/_lib/fields/field_wrap_BH_level2.py:42-47 | with two spheres of different diameter and at least two rows each, row 1 belongs to source 0 but the as-written tiling gives it source 1's diameter |
| Tiling.TileCurrentAsWrittenMisaligned | magpylib/_lib/fields/field_wrap_BH_level2.py:58-63 | the same misalignment for the currents of two Circular loops |
| Tiling.TileDiaTwoSpheres | magpylib/_lib/fields/field_wrap_BH_level2.py:42-47 | concrete case: diameters 1 and 2 with two rows each give `[1, 2, 1, 2]` as written and `[1, 1, 2, 2]` as intended |
| Tiling.GetSrcDict | magpylib/_lib/fields/field_wrap_BH_level2.py:66-131 | an empty group raises `IndexError`; an unknown tag raises the internal error; otherwise the dictionary carries the group's tag and the keys that tag needs; positions and orientations are tiled per path step over the pixels, and the observation rows are repeated whole once per source |
| Tiling.RowSources | magpylib/_lib/fields/field_wrap_BH_level2.py:74-83 | dictionary row `s·(m·k·kp) + (j·k+i)·kp + p` pairs source `s` at step `j` with pixel `p` of sensor `i` at step `j` |
| Tiling.RowKernel | magpylib/_lib/fields/field_wrap_BH_level2.py:276-277 | a dispatch row that pairs source `s` at step `j` with point `o` is that source's field at `o` |
| Tiling.PixelMatch | magpylib/_lib/fields/field_wrap_BH_level2.py:276-278 | element `[s][j][i][p]` of the reshaped bucket result is source `s` at step `j` evaluated at pixel `p` of sensor `i` |
| Tiling.GroupField | magpylib/_lib/fields/field_wrap_BH_level2.py:276-278 | the dispatch of a well-formed bucket succeeds, has `lg·m·k·kp` rows, and reshaped to `(lg, m, k·kp)` it is every member's field block |
| Tiling.FieldBlock | magpylib/_lib/fields/field_wrap_BH_level2.py:272-278 | a source's block has one vector per step, sensor and pixel: its field at that observation point |
| Tiling.ReshapeGroupAt | magpylib/_lib/fields/field_wrap_BH_level2.py:278 | element `[s][j][i][p]` of the reshape is flat row `s·(m·k·kp) + (j·k+i)·kp + p` |
| Tiling.FlattenObsAt | magpylib/_lib/fields/field_wrap_BH_level2.py:238-241 | flat observation row `(j·k+i)·kp + p` is pixel `p` of sensor `i` at step `j` |
| Tiling.LocateRow | magpylib/_lib/fields/field_wrap_BH_level2.py:74-83 | a dictionary row determines its source, step, sensor and pixel |
| Tiling.DispatchWellFormed | magpylib/_lib/fields/field_wrap_BH_level2.py:66-129 | the dictionary of a well-formed bucket is in the dispatch's error-free domain and has `lg·m·k·kp` observation rows |
| Tiling.DictAligned | magpylib/_lib/fields/field_wrap_BH_level2.py:66-129 | for a bucket, get_src_dict succeeds and its position, orientation and observer rows all number `lg·nPP` |
| Tiling.SegmentWidths | magpylib/_lib/fields/field_wrap_BH_level2.py:34-39 | in a well-formed CylinderSegment bucket every tiled dimension row has five entries |
| Assemble.SumBlocks | magpylib/_lib/fields/field_wrap_BH_level2.py:288 | every entry of the result is the sum of that entry over the blocks |
| Assemble.SumSingle | magpylib/_lib/fields/field_wrap_BH_level2.py:288 | summing one block gives the block |
| Assemble.Collapsed | magpylib/_lib/fields/field_wrap_BH_level2.py:284-289 | reference: one row per top-level entry; a Collection's row is the sum of its sources' rows, a bare source's row is its own |
| Assemble.CollapseCollections | magpylib/_lib/fields/field_wrap_BH_level2.py:284-289 | the sum-and-delete loop yields exactly the reference rows |
| Assemble.CollapseGuard | magpylib/_lib/fields/field_wrap_BH_level2.py:284 | there are never fewer source rows than entries, and with as many the reference leaves the rows unchanged, so the `l > l0` guard is sound |
| Assemble.ConcatLayout | magpylib/_lib/fields/field_wrap_BH_level2.py:285-289 | entry `s` of a concatenation occupies the slice starting at the sum of the earlier lengths |
| Assemble.ConcatMembers | magpylib/_lib/fields/field_wrap_BH_level2.py:169-173 | an element is in the concatenation iff it is in one of the parts |
| Assemble.ConcatLength | magpylib/_lib/fields/field_wrap_BH_level2.py:169-173 | the concatenation is as long as the parts together |
| Assemble.RotateUnit | magpylib/_lib/fields/field_wrap_BH_level2.py:295 | rotating back by the unit orientation changes nothing, so unrotated sensors may be skipped |
| Assemble.RotatedBack | magpylib/_lib/fields/field_wrap_BH_level2.py:291-310 | reference: every vector of sensor `i` at step `j` rotated by the inverse of that sensor's orientation at step `j` |
| Assemble.BackRotate | magpylib/_lib/fields/field_wrap_BH_level2.py:293-310 | the loop with its two shortcuts (unrotated sensors skipped, static sensors rotated in one step) gives exactly the reference |
| Assemble.RotateSensor | magpylib/_lib/fields/field_wrap_BH_level2.py:296-304 | the static case: sensor `i0` rotated back by one orientation at every step, all other sensors untouched |
| Assemble.RotatePath | magpylib/_lib/fields/field_wrap_BH_level2.py:305-310 | the general case: sensor `i0` rotated back at every step by its orientation there, all other sensors untouched |
| Assemble.RotateStep | magpylib/_lib/fields/field_wrap_BH_level2.py:307-310 | one step of one sensor rotated back, everything else untouched |
| Shaping.Arrange | magpylib/_lib/fields/field_wrap_BH_level2.py:313-314 | shape `(l0, m, k) + pixel shape`, and reading the data back with the dispatch layout gives the rows |
| Shaping.ArrangeBlock | magpylib/_lib/fields/field_wrap_BH_level2.py:317-318 | the summed array has shape `(m, k) + pixel shape` and reads back to the summed block |
| Shaping.ArrangeShape | magpylib/_lib/fields/field_wrap_BH_level2.py:313-314 | the size of shape `(n, m, k) + pixel shape` is `n·m·k` times the pixel count |
| Shaping.DropOnes | magpylib/_lib/fields/field_wrap_BH_level2.py:321-322 | the squeezed shape has no axis of length 1, only axes of the input, and the same size; that the kept axes keep their order is `Shaping.DropOnesConcat` |
| Shaping.DropOnesNoOp | magpylib/_lib/fields/field_wrap_BH_level2.py:321-322 | squeezing leaves a shape unchanged iff it has no axis of length 1 |
| Shaping.DropOnesIdempotent | magpylib/_lib/fields/field_wrap_BH_level2.py:321-322 | squeezing twice is squeezing once |
| Shaping.DropOnesKeeps | magpylib/_lib/fields/field_wrap_BH_level2.py:321-322 | an axis length other than 1 survives squeezing iff it was present |
| Shaping.DropOnesSingle | magpylib/_lib/fields/field_wrap_BH_level2.py:321-322 | one axis is dropped by squeezing iff its length is 1 |
| Shaping.DropOnesConcat | magpylib/_lib/fields/field_wrap_BH_level2.py:321-322 | squeezing a shape split in two is squeezing each part and concatenating, so the kept axes stay in their order |
| Shaping.Finish | magpylib/_lib/fields/field_wrap_BH_level2.py:313-322 | the final shape is `(l0, m, k) + pixel shape`, without `l0` after `sumup`, squeezed when asked |
| Shaping.Unsqueezed | magpylib/_lib/fields/field_wrap_BH_level2.py:313-318 | the shape before squeezing, with and without `sumup` |
| Shaping.FinishData | magpylib/_lib/fields/field_wrap_BH_level2.py:313-322 | the final data read back to the per-source rows, or with `sumup` to their sum; squeezing does not move them |
| Shaping.FlattenBlock | magpylib/_lib/fields/field_wrap_BH_level2.py:318 | a flattened block reads back to the block |
| Dispatch.SegmentToTile | magpylib/_lib/fields/field_wrap_BH_level1.py:56-59 | the radii are half the diameters, the angles are kept, and the z range is centred on 0 with the height as its width |
| Dispatch.SegmentTileRoundTrip | magpylib/_lib/fields/field_wrap_BH_level1.py:56-59 | the dimension conversion and its inverse undo each other |
| Dispatch.LineFromVertBatch | magpylib/_lib/fields/field_wrap_BH_level1.py:78-80 | the vertex-list kernel succeeds iff there is one current per vertex list and the rows split evenly over the lists; then one vector per row |
| Dispatch.KernelField | magpylib/_lib/fields/field_wrap_BH_level1.py:42-87 | an unknown tag gives the internal error; a success has one vector per row, and the tag's keys are present (the value of each row is stated by `Dispatch.DispatchRow`) |
| Dispatch.GetBHLevel1 | magpylib/_lib/fields/field_wrap_BH_level1.py:12-92 | a dictionary whose position, orientation and observer rows are not all of one length gives a shape error (numpy broadcasting is not modelled); an unknown tag gives the internal error; a success has one vector per observer row, and the needed keys are present |
| Dispatch.DispatchRow | magpylib/_lib/fields/field_wrap_BH_level1.py:38-92 | for a well-formed dictionary the dispatch succeeds, and row `i` of the result is `rot(q_i, K_i(rot(q_i⁻¹, o_i − p_i)))`: the observer minus the position, turned into the source frame by the inverse orientation, evaluated by the one kernel of the type tag with row `i`'s keys (`Dispatch.TagKernel`; the tile dimensions of `SegmentToTile` for a CylinderSegment, the vertex list and current of source `i / (N / nv)` for a Line with vertices), and rotated back by the same orientation |
| Dispatch.GetBHLevel1OkIff | magpylib/_lib/fields/field_wrap_BH_level1.py:42-87 | the dispatch succeeds iff the dictionary is aligned, has a source tag, and has the needed keys with the right shapes |
| Dispatch.OnlyNeededKeysRead | magpylib/_lib/fields/field_wrap_BH_level1.py:43-84 | two dictionaries that agree on the base keys and on the keys their tag needs give the same result |
| Dispatch.LineBranch | magpylib/_lib/fields/field_wrap_BH_level1.py:76-84 | a Line with `vertices` evaluates row `i` with the vertex list and current of source `i / (N / nv)`; without it, row `i` uses its own segment start, end and current |
| Dispatch.TranslationInvariant | magpylib/_lib/fields/field_wrap_BH_level1.py:38-40 | moving the source positions and the observers by the same offset does not change the field |
| Dispatch.UnrotatedSources | magpylib/_lib/fields/field_wrap_BH_level1.py:38-90 | with the unit orientation on every row, the dispatch is the bare kernel at observer minus position |
| Collections.Collection.constructor | magpylib/_lib/obj_classes/class_Collection.py:84-91 | the members are the given objects, run through the `sources` setter |
| Collections.Collection.SetSources | magpylib/_lib/obj_classes/class_Collection.py:100-111 | the stored list is the given one with later duplicates and non-sources dropped; it is duplicate-free |
| Collections.FormattedFacts | magpylib/_lib/obj_classes/class_Collection.py:100-111 | the formatted list is duplicate-free, holds only sources, holds every given source and keeps first-occurrence order |
| Collections.OnlySources | magpylib/_lib/obj_classes/class_Collection.py:109 | the filter keeps exactly the objects of the seven source kinds |
| Collections.OnlySourcesOrder | magpylib/_lib/obj_classes/class_Collection.py:109 | filtering keeps the relative order |
| Collections.OnlySourcesDistinct | magpylib/_lib/obj_classes/class_Collection.py:109 | filtering a duplicate-free list keeps it duplicate-free |
| Collections.DedupNoOp | magpylib/_lib/obj_classes/class_Collection.py:107 | removing duplicates from a duplicate-free list changes nothing |
| Collections.DedupIdempotent | magpylib/_lib/obj_classes/class_Collection.py:107 | removing duplicates twice is doing it once |
| Collections.DedupSnoc | magpylib/_lib/obj_classes/class_Collection.py:167 | an object appended at the end is kept exactly when it was not seen before |
| Collections.DedupPrefix | magpylib/_lib/obj_classes/class_Collection.py:165-167 | appending objects keeps the deduplicated list of the earlier ones as a prefix |
| Collections.DedupOrder | magpylib/_lib/obj_classes/class_Collection.py:107 | the deduplicated list is in first-occurrence order |
| Collections.Collection.Add | magpylib/_lib/obj_classes/class_Collection.py:162-170 | the new list is the old members followed by the new objects, deduplicated; it holds exactly the old members and the new objects, keeps the old members in their places and is in first-occurrence order; the same Collection is returned |
| Collections.AddFacts | magpylib/_lib/obj_classes/class_Collection.py:162-169 | membership, prefix and order of the deduplicated concatenation |
| Collections.Collection.Remove | magpylib/_lib/obj_classes/class_Collection.py:201-202 | a member is removed at its first occurrence and nothing else changes; a non-member raises `ValueError` and leaves the list as it was |
| Collections.RemoveFirst | magpylib/_lib/obj_classes/class_Collection.py:201 | the list is one shorter |
| Collections.RemoveFirstFacts | magpylib/_lib/obj_classes/class_Collection.py:201 | without duplicates, removal leaves exactly the other members, in order and still without duplicates |
| Collections.Collection.Plus | magpylib/_lib/obj_classes/class_Collection.py:115-117 | `col + src` is `add` and returns the Collection itself |
| Collections.Collection.Minus | magpylib/_lib/obj_classes/class_Collection.py:120-122 | `col - src` is `remove`, with its `ValueError` |
| Collections.Collection.Iter | magpylib/_lib/obj_classes/class_Collection.py:125-126 | iteration yields the members in stored order, the same ones indexing gives |
| Collections.Collection.GetItem | magpylib/_lib/obj_classes/class_Collection.py:129-130 | indices from `-n` to `n-1` give a member, negative ones counting from the end; anything else raises `IndexError` |
| Collections.GetItemFromEnd | magpylib/_lib/obj_classes/class_Collection.py:129-130 | index `t - n` and index `t` reach the same member iteration yields at `t` |
| Collections.Collection.ForEach | magpylib/_lib/obj_classes/class_Collection.py:260-398 | the fan-out of `move`, `rotate` and `rotate_from_angax`: every member gets the paths its own operation computes from its current ones; the member list does not change |
| Collections.Collection.ResetPath | magpylib/_lib/obj_classes/class_Collection.py:451-453 | every member is put back to a one-step path at the origin with the unit rotation, so the longest member path has length 1 |

## Left out

- Kernels: the closed-form field kernels (`field_BH_cuboid` and the others) are floating-point numerics outside this model. They are the `Dispatch.Kernels` parameter. Each kernel is modelled as a function of one row (that row's excitation, dimension and relative position), not of the whole batch; `Dispatch.DispatchRow` and `Level2.Designed` rest on this, which holds for vectorised closed-form kernels that treat the rows independently.
- Rotations: `scipy` rotations are the `rot` parameter. Only one fact about them is assumed: the unit quaternion is the identity.
- Numbers: floating point is modelled as real arithmetic. Summation order and rounding are not modelled.
- Input formatting: `format_src_inputs`, `format_obs_inputs`, `check_dimensions`, `check_excitations`, `format_obj_input`, `check_duplicates`, `only_allowed_src_types` and `check_static_sensor_orient` are not part of this model.
  - Their guarantees are the preconditions `Level2.SourcesOk` and `Level2.SensorsOk`: sources of the seven kinds, non-empty Collections, three dimension entries for every Cuboid and two for every Cylinder (`Level2.DimensionWidthOk`, checked by the object constructors), well-formed paths, at least one sensor, pixels matching the pixel shape, and at least one pixel per sensor (`Product(pixelShape) > 0`, which no input formatting listed above is known to enforce; a sensor without pixels is outside the model).
  - `check_duplicates` is modelled as keeping first occurrences (`PathAlign.Dedup`).
  - `only_allowed_src_types` is modelled as a filter to the seven kinds (`Collections.OnlySources`).
  - `check_static_sensor_orient` is modelled by its meaning (`Level2.StaticFlags`, whose flags `Level2.ExpectOrientFlags` relates to the padded paths).
- Empty Collections: `Level2.GetBHLevel2` requires every Collection entry to have at least one source. The row-collapsing loop would misalign rows for an empty one, and `format_src_inputs`, which would decide that case, is not part of this model.
- Set order: `set(src_list + sensors)` has an unspecified iteration order. The model visits the objects in first-occurrence order. The padding and the reset do not depend on that order; the model proves this for that order only.
- Error paths: warnings are not modelled. In a failed call, only the bucket-level failure (a malformed CylinderSegment dimension) is modelled as a `Result` error. The other shape errors that the kernels and the `tile_dim_*` reshapes could raise are excluded by the preconditions (Cuboid and Cylinder dimension widths, paths, pixels); a kernel's own checks are outside the model, as under Kernels. When a bucket fails, the paths stay padded, as in the source, where the exception skips the reset.
- Level2.GetBHLevel2: the result is a value of a flat data sequence and a shape (`Shaping.Field`), not a numpy array. `np.empty` preallocation is modelled by an array whose rows are all written.
- Tiling.GetSrcDict: the dictionary is built with the corrected `Tiling.TileDia` and `Tiling.TileCurrent` (source-major rows, like every other key), not with the whole-array repetition of `tile_dia` and `tile_current` as written (see "## Findings"). For a Sphere or Circular bucket with two or more members of different diameter or current and two or more rows per source (`nPP ≥ 2`), the program as written pairs rows with the wrong source's diameter or current (`Tiling.TileDiaAsWrittenMisaligned`, `Tiling.TileCurrentAsWrittenMisaligned`).
- Level2.GetBHLevel2: the equality with `Level2.Designed` is proved for the corrected tilings. For the Sphere and Circular buckets described under `Tiling.GetSrcDict`, the program as written returns a field different from `Level2.Designed`.
- Dispatch.GetBHLevel1: numpy broadcasting at field_wrap_BH_level1.py:39-40 (a single position row or a single rotation applied to every observer row) is not modelled. Such a dictionary gives `Err(BadShape)` in the model; `get_src_dict` always tiles position and orientation to the full row count, so the calls made by `getBH_level2` are not affected.
- Dispatch.LineFromVertBatch: the source-major split of the vertex-list kernel (`N / nv` rows per source, failing iff `nv = 0`, the current count differs from `nv`, or `nv` does not divide `N`) is an assumption about `field_BH_line_from_vert`, whose source is not part of this model. It rests on how `get_src_dict` tiles the observers for a Line with vertices (field_wrap_BH_level2.py:124).
- Collections.Collection.ForEach: the members' own `move`, `rotate` and `rotate_from_angax` are not part of this model. Each is passed as a function from a pose to the new pose, so the contract states the fan-out, not what a move or a rotation does to a path.
- Collections.Collection.ResetPath: the member's own `reset_path` is not part of this model. The model writes its documented effect, a one-step path at the origin with the unit rotation.
- Collections.Collection.Add: it does not filter out non-source objects, as in the source, where `add` skips `only_allowed_src_types`.
- Collections.Collection.GetItem: only integer indices are modelled. `__getitem__` passes its argument straight to the list, so a slice such as `col[0:2]` returns a plain list of members; slicing is not modelled.
- Collection features left out:
  - `copy` is a shallow `copy.copy` with no logic of its own;
  - `set_styles` forwards display styles;
  - `__repr__`, `display` and the `getB`/`getH` front ends belong to other modules.
- Sensors given as bare positions are turned into sensors by `format_obs_inputs`, which is not part of this model. The model takes sensors only.

## Findings

| source | as written | input that shows it | evidently intended | confidence | as-written member | corrected member |
|---|---|---|---|---|---|---|
| magpylib/_lib/fields/field_wrap_BH_level2.py:42-47 | `tile_dia` tiles the one-dimensional diameter array with `np.tile(dia, n_pp)`. This repeats the whole list, so row `i` gets the diameter of source `i % lg`. | Two Spheres with diameters 1 and 2, evaluated at two observation rows: the diameter column is `[1, 2, 1, 2]`, but the rows of source 0 are rows 0 and 1, so source 0's second row is evaluated with diameter 2. | Source-major like `tile_mag`: row `i` carries the diameter of source `i / n_pp`, giving `[1, 1, 2, 2]`. | not executed | Tiling.TileDiaAsWritten (exhibited by Tiling.TileDiaAsWrittenMisaligned and Tiling.TileDiaTwoSpheres) | Tiling.TileDia |
| magpylib/_lib/fields/field_wrap_BH_level2.py:58-63 | `tile_current` uses the same whole-array repetition for the currents of Circular loops. | Two Circular loops with currents 1 and 2 at two observation rows: row 1 belongs to loop 0 but carries current 2. | Row `i` carries the current of source `i / n_pp`. | not executed | Tiling.TileCurrentAsWritten (exhibited by Tiling.TileCurrentAsWrittenMisaligned) | Tiling.TileCurrent |

`Tiling.TileDiaLayoutsAgree` shows that the two layouts agree for a single
source or a single observation row, which is why single-source evaluations
do not show the difference. `Tiling.GetSrcDict`, and through it the whole
model, uses the corrected tilings.
