/** getBH_level2: the field of a list of sources and Collections at a list of
    sensors, along the objects' paths. */
module Level2 {
  import opened Wrappers
  import opened Geometry
  import opened Objects
  import opened Seqs
  import opened Dispatch
  import opened Tiling
  import opened PathAlign
  import opened Grouping
  import opened Assemble
  import opened Shaping

  /** One entry of the top-level source list: a bare source, or a Collection
      given by its sources. */
  datatype Entry = Single(obj: MagObject) | Group(members: seq<MagObject>)

  function Members(e: Entry): seq<MagObject> {
    match e
    case Single(o) => [o]
    case Group(ms) => ms
  }

  /** The entries' source lists. */
  function MemberLists(es: seq<Entry>): (r: seq<seq<MagObject>>)
    ensures |r| == |es| && forall s :: 0 <= s < |es| ==> r[s] == Members(es[s])
  {
    seq(|es|, s requires 0 <= s < |es| => Members(es[s]))
  }

  /** The flattened source list: the entries' sources in order. */
  function FlattenEntries(es: seq<Entry>): seq<MagObject> {
    Concat(MemberLists(es))
  }

  function Sizes(es: seq<Entry>): (r: seq<nat>)
    ensures |r| == |es| && forall s :: 0 <= s < |es| ==> r[s] == |Members(es[s])|
  {
    Lengths(MemberLists(es))
  }

  function IsCol(es: seq<Entry>): (r: seq<bool>)
    ensures |r| == |es| && forall s :: 0 <= s < |es| ==> r[s] == es[s].Group?
  {
    seq(|es|, s requires 0 <= s < |es| => es[s].Group?)
  }

  /** The flattened list holds exactly the entries' sources; it is as long as
      the entries' sizes add up to, and entry `s` occupies the rows from
      `Offset(sizes, s)` on. */
  lemma FlattenEntriesLayout(es: seq<Entry>)
    ensures forall o :: o in FlattenEntries(es) <==> exists s :: 0 <= s < |es| && o in Members(es[s])
    ensures |FlattenEntries(es)| == Total(Sizes(es))
    ensures forall s :: 0 <= s < |es| ==>
      Offset(Sizes(es), s) + |Members(es[s])| <= |FlattenEntries(es)| &&
      FlattenEntries(es)[Offset(Sizes(es), s)..Offset(Sizes(es), s) + |Members(es[s])|] == Members(es[s])
  {
    var xs := MemberLists(es);
    ConcatMembers(xs);
    ConcatLength(xs);
    forall s | 0 <= s < |es|
      ensures Offset(Sizes(es), s) + |Members(es[s])| <= |FlattenEntries(es)|
      ensures FlattenEntries(es)[Offset(Sizes(es), s)..Offset(Sizes(es), s) + |Members(es[s])|] == Members(es[s])
    {
      ConcatLayout(xs, s);
    }
  }

  /** What format_src_inputs and the object constructors guarantee: Collections
      are not empty, every listed object is a source of a kind the kernels
      know, every Cuboid and Cylinder dimension has its width, and every path
      is well formed. */
  predicate SourcesOk(es: seq<Entry>)
    reads FlattenEntries(es)
  {
    && Entries(Sizes(es), IsCol(es))
    && ValidPaths(FlattenEntries(es))
    && forall s :: 0 <= s < |FlattenEntries(es)| ==>
         IsSourceType(FlattenEntries(es)[s].objectType) && DimensionWidthOk(FlattenEntries(es)[s])
  }

  /** The constructors' check of a Cuboid's three and a Cylinder's two
      dimension entries, which `tile_dim_cuboid` and `tile_dim_cylinder`
      rely on when they reshape to rows of that width. */
  predicate DimensionWidthOk(src: MagObject) {
    && (src.objectType == Cuboid ==> |src.attrs.dimension| == 3)
    && (src.objectType == Cylinder ==> |src.attrs.dimension| == 2)
  }

  /** What format_obs_inputs and the Sensor class guarantee: at least one
      sensor, well-formed paths, and a flat pixel list matching its shape. */
  predicate SensorsOk(sensors: seq<MagObject>)
    reads sensors
  {
    && |sensors| > 0
    && forall i :: 0 <= i < |sensors| ==>
         && |sensors[i].position| >= 1 && |sensors[i].orientation| == |sensors[i].position|
         && |sensors[i].attrs.pixel| == Product(sensors[i].attrs.pixelShape)
         && Product(sensors[i].attrs.pixelShape) > 0
  }

  /** All sensors have the pixel array shape of the first. */
  predicate SamePixelShapes(sensors: seq<MagObject>)
    requires |sensors| > 0
  {
    forall i :: 0 <= i < |sensors| ==> sensors[i].attrs.pixelShape == sensors[0].attrs.pixelShape
  }

  function PathLens(snaps: seq<Snapshot>): (r: seq<nat>)
    ensures |r| == |snaps| && forall i :: 0 <= i < |snaps| ==> r[i] == |snaps[i].position|
  {
    seq(|snaps|, i requires 0 <= i < |snaps| => |snaps[i].position|)
  }

  /** The inputs as the callers guarantee them, before padding. */
  ghost predicate BaseInputs(srcs: seq<Snapshot>, sizes: seq<nat>, isCol: seq<bool>, sens: seq<Snapshot>) {
    && |sens| > 0
    && Entries(sizes, isCol) && |srcs| == Total(sizes)
    && (forall s :: 0 <= s < |srcs| ==> ValidPath(srcs[s]) && IsSourceType(srcs[s].objectType))
    && (forall i :: 0 <= i < |sens| ==>
          && ValidPath(sens[i])
          && sens[i].attrs.pixelShape == sens[0].attrs.pixelShape
          && |sens[i].attrs.pixel| == Product(sens[0].attrs.pixelShape))
    && Product(sens[0].attrs.pixelShape) > 0
  }

  /** The inputs for which the field is defined: in addition, every
      CylinderSegment is well formed. */
  ghost predicate ExpectedInputs(srcs: seq<Snapshot>, sizes: seq<nat>, isCol: seq<bool>, sens: seq<Snapshot>) {
    BaseInputs(srcs, sizes, isCol, sens) && SegmentsWellFormed(srcs)
  }

  /** The inputs after padding: every path has the common length `m`. */
  ghost predicate PaddedInputs(ps: seq<Snapshot>, sizes: seq<nat>, isCol: seq<bool>, pn: seq<Snapshot>,
                               m: nat, pixShape: seq<nat>) {
    && m > 0 && |pn| > 0 && Product(pixShape) > 0
    && Entries(sizes, isCol) && |ps| == Total(sizes)
    && Evaluable(ps, m)
    && forall i :: 0 <= i < |pn| ==>
         |pn[i].position| == m && |pn[i].orientation| == m && |pn[i].attrs.pixel| == Product(pixShape)
  }

  /** Every path is at most as long as the longest. */
  lemma LongestBounds(srcs: seq<Snapshot>, sens: seq<Snapshot>)
    requires |srcs + sens| > 0
    ensures var m := MaxPathLength(PathLens(srcs + sens));
      && (forall s :: 0 <= s < |srcs| ==> |srcs[s].position| <= m)
      && (forall i :: 0 <= i < |sens| ==> |sens[i].position| <= m)
  {
    var all := srcs + sens;
    forall s | 0 <= s < |srcs| ensures all[s] == srcs[s] {
    }
    forall i | 0 <= i < |sens| ensures all[|srcs| + i] == sens[i] {
    }
  }

  /** After padding to the longest path every path has that length; padding
      does not touch the dimensions. */
  lemma PaddedFacts(srcs: seq<Snapshot>, sizes: seq<nat>, isCol: seq<bool>, sens: seq<Snapshot>)
    requires BaseInputs(srcs, sizes, isCol, sens)
    ensures var m := MaxPathLength(PathLens(srcs + sens));
      && PaddedInputs(PadAll(srcs, m), sizes, isCol, PadAll(sens, m), m, sens[0].attrs.pixelShape)
      && (SegmentsWellFormed(PadAll(srcs, m)) <==> SegmentsWellFormed(srcs))
  {
    var m := MaxPathLength(PathLens(srcs + sens));
    LongestBounds(srcs, sens);
    assert m >= 1 by {
      assert PathLens(srcs + sens)[|srcs|] == |sens[0].position|;
    }
    PadSources(srcs, m);
    PadSensors(sens, m);
  }

  /** Padded sources have paths of the common length and keep their
      dimensions. */
  lemma PadSources(srcs: seq<Snapshot>, m: nat)
    requires forall s :: 0 <= s < |srcs| ==>
      ValidPath(srcs[s]) && IsSourceType(srcs[s].objectType) && |srcs[s].position| <= m
    ensures Evaluable(PadAll(srcs, m), m)
    ensures SegmentsWellFormed(PadAll(srcs, m)) <==> SegmentsWellFormed(srcs)
  {
    var ps := PadAll(srcs, m);
    assert forall s :: 0 <= s < |srcs| ==> (SegmentOk(ps[s]) <==> SegmentOk(srcs[s]));
  }

  /** Padded sensors have paths of the common length and keep their pixels. */
  lemma PadSensors(sens: seq<Snapshot>, m: nat)
    requires forall i :: 0 <= i < |sens| ==> ValidPath(sens[i]) && |sens[i].position| <= m
    ensures forall i :: 0 <= i < |sens| ==>
      && |PadAll(sens, m)[i].position| == m && |PadAll(sens, m)[i].orientation| == m
      && PadAll(sens, m)[i].attrs == sens[i].attrs
  {
  }

  /** The field of padded inputs: every source's field at every sensor pixel
      at every step, the rows of each Collection summed, every vector
      expressed in its sensor's frame at that step, then arranged, summed and
      squeezed as asked. */
  ghost function FieldOf(bh: bool, ks: Kernels, rot: RotateFn, ps: seq<Snapshot>, sizes: seq<nat>,
                         isCol: seq<bool>, pn: seq<Snapshot>, m: nat, pixShape: seq<nat>,
                         sumup: bool, squeeze: bool): Field
    requires PaddedInputs(ps, sizes, isCol, pn, m, pixShape) && SegmentsWellFormed(ps)
  {
    var kp := Product(pixShape);
    var k := |pn|;
    var obs := ObserverBlocks(pn, m, kp, rot);
    var fields := SourceFields(bh, ks, rot, ps, obs, m, k, kp);
    var summed := Collapsed(fields, sizes, isCol, m, k, kp);
    var orients := seq(k, i requires 0 <= i < k => pn[i].orientation);
    Finish(RotatedBack(summed, orients, rot, m, k, kp), m, k, pixShape, sumup, squeeze)
  }

  /** The field as the design describes it: pad every path to the longest one
      and take the field of the padded inputs. */
  ghost function Expected(bh: bool, ks: Kernels, rot: RotateFn, srcs: seq<Snapshot>, sizes: seq<nat>,
                          isCol: seq<bool>, sens: seq<Snapshot>, sumup: bool, squeeze: bool): Field
    requires ExpectedInputs(srcs, sizes, isCol, sens)
  {
    var m := MaxPathLength(PathLens(srcs + sens));
    PaddedFacts(srcs, sizes, isCol, sens);
    FieldOf(bh, ks, rot, PadAll(srcs, m), sizes, isCol, PadAll(sens, m), m, sens[0].attrs.pixelShape,
            sumup, squeeze)
  }

  /** The buckets as the grouping loop fills them, read off the snapshots. */
  function Gather(ps: seq<Snapshot>, order: seq<seq<nat>>): (r: seq<seq<Snapshot>>)
    requires forall g, u :: 0 <= g < |order| && 0 <= u < |order[g]| ==> order[g][u] < |ps|
    ensures |r| == |order|
    ensures forall g :: 0 <= g < |order| ==>
      |r[g]| == |order[g]| && forall u :: 0 <= u < |order[g]| ==> r[g][u] == ps[order[g][u]]
  {
    seq(|order|, g requires 0 <= g < |order| =>
      seq(|order[g]|, u requires 0 <= u < |order[g]| => ps[order[g][u]]))
  }

  /** The evaluation on the padded paths: group, evaluate the buckets, sum
      the Collections' rows, rotate back into the sensor frames and arrange.
      It fails exactly when a CylinderSegment is malformed. */
  method Evaluate(bh: bool, ks: Kernels, rot: RotateFn, srcList: seq<MagObject>, ps: seq<Snapshot>,
                  sizes: seq<nat>, isCol: seq<bool>, pn: seq<Snapshot>, m: nat, pixShape: seq<nat>,
                  unrotated: seq<bool>, isStatic: seq<bool>, sumup: bool, squeeze: bool)
    returns (r: Result<Field>)
    requires PaddedInputs(ps, sizes, isCol, pn, m, pixShape)
    requires ObjectTypes(srcList) == Types(ps)
    requires |unrotated| == |pn| && |isStatic| == |pn|
    requires forall i :: 0 <= i < |pn| && unrotated[i] ==> Unrotated(pn[i].orientation)
    requires forall i :: 0 <= i < |pn| && isStatic[i] ==> Static(pn[i].orientation)
    requires IsRotation(rot)
    ensures r.Ok? <==> SegmentsWellFormed(ps)
    ensures r.Ok? ==> r.value == FieldOf(bh, ks, rot, ps, sizes, isCol, pn, m, pixShape, sumup, squeeze)
  {
    var k := |pn|;
    var kp := Product(pixShape);
    var obs := ObserverBlocks(pn, m, kp, rot);
    var srcSorted, order := GroupSources(srcList);
    var sorted := Gather(ps, order);
    assert Sorted(ps, sorted, order);
    var res := EvaluateGroups(bh, ks, rot, ps, sorted, order, obs, m, k, kp);
    if res.Err? {
      return Err(res.error);
    }
    var B := res.value;

    // one row per top-level entry
    var C := B;
    if |B| > |sizes| {
      C := CollapseCollections(B, sizes, isCol, m, k, kp);
    } else {
      CollapseGuard(B, sizes, isCol, m, k, kp);
    }

    // into the sensor frames, then arrange
    var orients := seq(k, i requires 0 <= i < k => pn[i].orientation);
    var D := BackRotate(C, orients, unrotated, isStatic, rot, m, k, kp);
    r := Ok(Finish(D, m, k, pixShape, sumup, squeeze));
  }

  /** The maximum of a list of lengths is the value that bounds them all and
      is one of them. */
  lemma MaxIs(xs: seq<nat>, v: nat)
    requires |xs| > 0 && forall t :: 0 <= t < |xs| ==> xs[t] <= v
    requires exists t :: 0 <= t < |xs| && xs[t] == v
    ensures MaxPathLength(xs) == v
  {
  }

  /** Two lists of lengths with the same values have the same maximum. */
  lemma MaxTransfer(xs: seq<nat>, ys: seq<nat>)
    requires |xs| > 0 && |ys| > 0
    requires forall u :: 0 <= u < |ys| ==> ys[u] in xs
    requires forall t :: 0 <= t < |xs| ==> xs[t] in ys
    ensures MaxPathLength(xs) == MaxPathLength(ys)
  {
    var v := MaxPathLength(xs);
    var t :| 0 <= t < |xs| && xs[t] == v;
    assert v in ys;
    forall w | 0 <= w < |ys| ensures ys[w] <= v {
      assert ys[w] in xs;
    }
    MaxIs(ys, v);
  }

  /** Every path length of `objs` is that of an object of `objList`. */
  lemma LengthsCovered(objList: seq<MagObject>, objs: seq<MagObject>)
    requires forall o :: o in objs ==> o in objList
    ensures forall u :: 0 <= u < |objs| ==> PathLengths(objs)[u] in PathLengths(objList)
  {
    forall u | 0 <= u < |objs| ensures PathLengths(objs)[u] in PathLengths(objList) {
      assert objs[u] in objs;
      var t :| 0 <= t < |objList| && objList[t] == objs[u];
      assert PathLengths(objList)[t] == PathLengths(objs)[u];
    }
  }

  /** The objects of the call, sources first. */
  function Participants(sources: seq<Entry>, sensors: seq<MagObject>): seq<MagObject> {
    FlattenEntries(sources) + sensors
  }

  /** The deduplicated object list has well-formed paths and the same longest
      path as the list it was made from. */
  lemma ObjListFacts(all: seq<MagObject>, objList: seq<MagObject>)
    requires |all| > 0 && ValidPaths(all)
    requires forall t :: 0 <= t < |objList| ==> objList[t] in all
    requires forall t :: 0 <= t < |all| ==> all[t] in objList
    ensures ValidPaths(objList) && |objList| > 0
    ensures MaxPathLength(PathLengths(objList)) == MaxPathLength(PathLengths(all))
  {
    assert all[0] in objList;
    forall t | 0 <= t < |objList| ensures |objList[t].position| >= 1 && |objList[t].orientation| == |objList[t].position| {
      var u :| 0 <= u < |all| && all[u] == objList[t];
    }
    LengthsCovered(objList, all);
    LengthsCovered(all, objList);
    MaxTransfer(PathLengths(objList), PathLengths(all));
  }

  /** The path lengths read off the snapshots. */
  lemma PathLensSnaps(objs: seq<MagObject>)
    ensures PathLens(Snaps(objs)) == PathLengths(objs)
  {
  }

  /** Every path padded to the longest one. */
  function AlignAll(snaps: seq<Snapshot>): (r: seq<Snapshot>)
    requires |snaps| > 0 && AllValid(snaps)
    ensures |r| == |snaps|
  {
    PadAll(snaps, MaxPathLength(PathLens(snaps)))
  }

  /** The padding step on the objects themselves: every path is padded to the
      longest, and the objects whose length changed are recorded with their
      own length. */
  method AlignPaths(all: seq<MagObject>) returns (m: nat, resetObj: seq<MagObject>, resetM0: seq<nat>)
    requires |all| > 0 && ValidPaths(all)
    modifies all
    ensures AllValid(old(Snaps(all)))
    ensures m == MaxPathLength(PathLens(old(Snaps(all))))
    ensures Snaps(all) == PadAll(old(Snaps(all)), m) == AlignAll(old(Snaps(all)))
    ensures |resetObj| == |resetM0| && Distinct(resetObj)
    ensures forall w :: 0 <= w < |resetObj| ==> resetObj[w] in all
    ensures forall w, t :: 0 <= w < |resetObj| && 0 <= t < |all| && resetObj[w] == all[t] ==>
      resetM0[w] == |old(Snaps(all))[t].position|
    ensures forall t :: 0 <= t < |all| && all[t] !in resetObj ==> |old(Snaps(all))[t].position| == m
  {
    ghost var before := Snaps(all);
    var objList := Dedup(all);
    ObjListFacts(all, objList);
    PathLensSnaps(all);
    ghost var idx := IndexIn(all, objList);
    ghost var ob := Snaps(objList);
    SnapsThrough(all, objList, idx);
    m, resetObj, resetM0 := TilePaths(objList);
    ghost var obAfter := Snaps(objList);
    SnapsThrough(all, objList, idx);
    AlignedThrough(all, objList, idx, before, ob, Snaps(all), obAfter, m, resetObj, resetM0);
  }

  /** The snapshots of `all` read off those of `objList` through `idx`. */
  lemma SnapsThrough(all: seq<MagObject>, objList: seq<MagObject>, idx: seq<nat>)
    requires |idx| == |all| && forall t :: 0 <= t < |all| ==> idx[t] < |objList| && objList[idx[t]] == all[t]
    ensures forall t :: 0 <= t < |all| ==> Snaps(all)[t] == Snaps(objList)[idx[t]]
  {
  }

  /** What the tiling step on the deduplicated list `objList` (snapshots `ob`
      before and `obAfter` after) means for the objects `all` it was made
      from (snapshots `before` and `after`); `idx` locates each of `all` in
      `objList`. */
  lemma AlignedThrough(all: seq<MagObject>, objList: seq<MagObject>, idx: seq<nat>,
                       before: seq<Snapshot>, ob: seq<Snapshot>, after: seq<Snapshot>, obAfter: seq<Snapshot>,
                       m: nat, resetObj: seq<MagObject>, resetM0: seq<nat>)
    requires |all| > 0 && |before| == |all| && |after| == |all| && |ob| == |objList| == |obAfter|
    requires |idx| == |all| && forall t :: 0 <= t < |all| ==>
      && idx[t] < |objList| && objList[idx[t]] == all[t]
      && before[t] == ob[idx[t]] && after[t] == obAfter[idx[t]]
    requires forall u :: 0 <= u < |objList| ==> objList[u] in all
    requires AllValid(ob) && obAfter == PadAll(ob, m)
    requires |resetObj| == |resetM0|
    requires forall w :: 0 <= w < |resetObj| ==> resetObj[w] in objList
    requires forall w, u :: 0 <= w < |resetObj| && 0 <= u < |objList| && resetObj[w] == objList[u] ==>
      resetM0[w] == |ob[u].position|
    requires forall u :: 0 <= u < |objList| ==> (objList[u] in resetObj <==> |ob[u].position| != m)
    ensures AllValid(before) && after == PadAll(before, m)
    ensures forall w :: 0 <= w < |resetObj| ==> resetObj[w] in all
    ensures forall w, t :: 0 <= w < |resetObj| && 0 <= t < |all| && resetObj[w] == all[t] ==>
      resetM0[w] == |before[t].position|
    ensures forall t :: 0 <= t < |all| && all[t] !in resetObj ==> |before[t].position| == m
  {
    PaddedThrough(before, ob, after, obAfter, idx, m);
    forall w | 0 <= w < |resetObj| ensures resetObj[w] in all {
      var u :| 0 <= u < |objList| && objList[u] == resetObj[w];
    }
    forall w, t | 0 <= w < |resetObj| && 0 <= t < |all| && resetObj[w] == all[t]
      ensures resetM0[w] == |before[t].position|
    {
      assert resetObj[w] == objList[idx[t]];
    }
    forall t | 0 <= t < |all| && all[t] !in resetObj ensures |before[t].position| == m {
      assert objList[idx[t]] !in resetObj;
    }
  }

  /** Snapshots read through an index map into padded snapshots are padded. */
  lemma PaddedThrough(before: seq<Snapshot>, ob: seq<Snapshot>, after: seq<Snapshot>, obAfter: seq<Snapshot>,
                      idx: seq<nat>, m: nat)
    requires |before| == |after| == |idx| && |obAfter| == |ob|
    requires forall t :: 0 <= t < |idx| ==> idx[t] < |ob| && before[t] == ob[idx[t]] && after[t] == obAfter[idx[t]]
    requires AllValid(ob) && obAfter == PadAll(ob, m)
    ensures AllValid(before) && after == PadAll(before, m)
  {
    forall t | 0 <= t < |idx| ensures ValidPath(before[t]) && after[t] == PadSnap(before[t], m) {
      assert before[t] == ob[idx[t]];
    }
  }

  /** The reset step and what it restores: every padded object gets back the
      path it had before padding. */
  method RestorePaths(all: seq<MagObject>, resetObj: seq<MagObject>, resetM0: seq<nat>,
                      ghost orig: seq<Snapshot>, m: nat)
    requires |orig| == |all| && AllValid(orig) && Snaps(all) == PadAll(orig, m)
    requires |resetObj| == |resetM0| && Distinct(resetObj)
    requires forall w :: 0 <= w < |resetObj| ==> resetObj[w] in all
    requires forall w, t :: 0 <= w < |resetObj| && 0 <= t < |all| && resetObj[w] == all[t] ==>
      resetM0[w] == |orig[t].position|
    requires forall t :: 0 <= t < |all| && all[t] !in resetObj ==> |orig[t].position| == m
    modifies resetObj
    ensures Snaps(all) == orig
  {
    ghost var padded := Snaps(all);
    forall w | 0 <= w < |resetObj|
      ensures resetM0[w] <= |resetObj[w].position| && resetM0[w] <= |resetObj[w].orientation|
    {
      var t :| 0 <= t < |all| && all[t] == resetObj[w];
      assert padded[t] == PadSnap(orig[t], m);
    }
    ResetPaths(resetObj, resetM0);
    forall t | 0 <= t < |all| ensures all[t].Snap() == orig[t] {
      assert padded[t] == PadSnap(orig[t], m);
      PadTruncate(orig[t].position, m);
      PadTruncate(orig[t].orientation, m);
      if all[t] in resetObj {
        var w :| 0 <= w < |resetObj| && resetObj[w] == all[t];
      }
    }
  }

  /** Which sensors need no back-rotation: those whose every orientation is
      the unit rotation. */
  function UnrotatedFlags(sens: seq<Snapshot>): (r: seq<bool>)
    ensures |r| == |sens|
    ensures forall i :: 0 <= i < |sens| ==> (r[i] <==> Unrotated(sens[i].orientation))
  {
    seq(|sens|, i requires 0 <= i < |sens| => Unrotated(sens[i].orientation))
  }

  /** Which sensors keep one orientation along the whole path. */
  function StaticFlags(sens: seq<Snapshot>): (r: seq<bool>)
    ensures |r| == |sens|
    ensures forall i :: 0 <= i < |sens| ==> (r[i] <==> Static(sens[i].orientation))
  {
    seq(|sens|, i requires 0 <= i < |sens| => Static(sens[i].orientation))
  }

  /** Padding keeps the flags the back-rotation reads off the unpadded
      orientation paths. */
  lemma ExpectOrientFlags(sens0: seq<Snapshot>, m: nat, pn: seq<Snapshot>, unrotated: seq<bool>, isStatic: seq<bool>)
    requires forall i :: 0 <= i < |sens0| ==> ValidPath(sens0[i])
    requires pn == PadAll(sens0, m)
    requires unrotated == UnrotatedFlags(sens0) && isStatic == StaticFlags(sens0)
    ensures |unrotated| == |pn| && |isStatic| == |pn|
    ensures forall i :: 0 <= i < |pn| && unrotated[i] ==> Unrotated(pn[i].orientation)
    ensures forall i :: 0 <= i < |pn| && isStatic[i] ==> Static(pn[i].orientation)
  {
    forall i | 0 <= i < |pn| && unrotated[i] ensures Unrotated(pn[i].orientation) {
      PadConstant(sens0[i].orientation, m, UnitQuat);
    }
    forall i | 0 <= i < |pn| && isStatic[i] ensures Static(pn[i].orientation) {
      var path := sens0[i].orientation;
      PadConstant(path, m, path[0]);
      assert Pad(path, m)[..|path|] == path;
    }
  }

  /** The snapshots of two lists one after the other. */
  lemma SnapsAppend(a: seq<MagObject>, b: seq<MagObject>)
    ensures Snaps(a + b) == Snaps(a) + Snaps(b)
  {
    assert forall t :: 0 <= t < |a| ==> (a + b)[t] == a[t];
    assert forall t :: |a| <= t < |a + b| ==> (a + b)[t] == b[t - |a|];
  }

  /** Padding a concatenation pads each part. */
  lemma PadAllAppend(a: seq<Snapshot>, b: seq<Snapshot>, m: nat)
    requires AllValid(a) && AllValid(b)
    ensures AllValid(a + b)
    ensures PadAll(a + b, m) == PadAll(a, m) + PadAll(b, m)
  {
    assert forall t :: 0 <= t < |a| ==> (a + b)[t] == a[t];
    assert forall t :: |a| <= t < |a + b| ==> (a + b)[t] == b[t - |a|];
  }

  /** Padding keeps the kinds. */
  lemma TypesPadded(snaps: seq<Snapshot>, m: nat)
    requires AllValid(snaps)
    ensures Types(PadAll(snaps, m)) == Types(snaps)
  {
  }

  /** The evaluation on the padded snapshots `snaps` of the objects whose
      snapshots before padding were `srcs0` (the sources) followed by `sens0`
      (the sensors): the designed field. */
  method EvaluatePadded(bh: bool, ks: Kernels, rot: RotateFn, srcList: seq<MagObject>,
                        ghost srcs0: seq<Snapshot>, ghost sens0: seq<Snapshot>,
                        sizes: seq<nat>, isCol: seq<bool>, m: nat, snaps: seq<Snapshot>,
                        unrotated: seq<bool>, isStatic: seq<bool>, sumup: bool, squeeze: bool)
    returns (r: Result<Field>)
    requires BaseInputs(srcs0, sizes, isCol, sens0)
    requires m == MaxPathLength(PathLens(srcs0 + sens0))
    requires snaps == PadAll(srcs0, m) + PadAll(sens0, m)
    requires ObjectTypes(srcList) == Types(srcs0)
    requires unrotated == UnrotatedFlags(sens0) && isStatic == StaticFlags(sens0)
    requires IsRotation(rot)
    ensures r.Ok? <==> SegmentsWellFormed(srcs0)
    ensures r.Ok? ==> r.value == Expected(bh, ks, rot, srcs0, sizes, isCol, sens0, sumup, squeeze)
  {
    var n := |srcList|;
    var ps, pn := snaps[..n], snaps[n..];
    assert ps == PadAll(srcs0, m) && pn == PadAll(sens0, m);
    TypesPadded(srcs0, m);
    PaddedFacts(srcs0, sizes, isCol, sens0);
    ExpectOrientFlags(sens0, m, pn, unrotated, isStatic);
    assert pn[0].attrs == sens0[0].attrs;
    r := Evaluate(bh, ks, rot, srcList, ps, sizes, isCol, pn, m, pn[0].attrs.pixelShape,
                  unrotated, isStatic, sumup, squeeze);
  }

  /** The call's inputs as the callers guarantee them. */
  lemma InputFacts(sources: seq<Entry>, sensors: seq<MagObject>)
    requires SourcesOk(sources) && SensorsOk(sensors) && SamePixelShapes(sensors)
    ensures var all := Participants(sources, sensors);
      && |all| > 0 && ValidPaths(all)
      && Snaps(all) == Snaps(FlattenEntries(sources)) + Snaps(sensors)
      && BaseInputs(Snaps(FlattenEntries(sources)), Sizes(sources), IsCol(sources), Snaps(sensors))
      && Types(Snaps(FlattenEntries(sources))) == ObjectTypes(FlattenEntries(sources))
  {
    var srcList := FlattenEntries(sources);
    var all := Participants(sources, sensors);
    FlattenEntriesLayout(sources);
    SnapsAppend(srcList, sensors);
    assert all[|srcList|] == sensors[0];
  }

  /** The field the design describes for the objects as they are. */
  ghost function Designed(bh: bool, ks: Kernels, rot: RotateFn, sources: seq<Entry>, sensors: seq<MagObject>,
                          sumup: bool, squeeze: bool): Field
    reads FlattenEntries(sources), sensors
    requires SourcesOk(sources) && SensorsOk(sensors) && SamePixelShapes(sensors)
    requires SegmentsWellFormed(Snaps(FlattenEntries(sources)))
  {
    InputFacts(sources, sensors);
    Expected(bh, ks, rot, Snaps(FlattenEntries(sources)), Sizes(sources), IsCol(sources), Snaps(sensors),
             sumup, squeeze)
  }

  /** The padding, the evaluation and the reset on the objects `all`, whose
      snapshots are `srcs0` (the sources) followed by `sens0` (the sensors). */
  method EvaluateAligned(bh: bool, ks: Kernels, rot: RotateFn, srcList: seq<MagObject>, all: seq<MagObject>,
                         ghost srcs0: seq<Snapshot>, ghost sens0: seq<Snapshot>, sizes: seq<nat>, isCol: seq<bool>,
                         unrotated: seq<bool>, isStatic: seq<bool>, sumup: bool, squeeze: bool)
    returns (r: Result<Field>)
    requires |all| > 0 && ValidPaths(all) && Snaps(all) == srcs0 + sens0
    requires BaseInputs(srcs0, sizes, isCol, sens0)
    requires ObjectTypes(srcList) == Types(srcs0)
    requires unrotated == UnrotatedFlags(sens0) && isStatic == StaticFlags(sens0)
    requires IsRotation(rot)
    modifies all
    ensures r.Ok? <==> SegmentsWellFormed(srcs0)
    ensures r.Ok? ==> r.value == Expected(bh, ks, rot, srcs0, sizes, isCol, sens0, sumup, squeeze)
    ensures r.Ok? ==> Snaps(all) == srcs0 + sens0
    ensures r.Err? ==> AllValid(srcs0 + sens0) && Snaps(all) == AlignAll(srcs0 + sens0)
  {
    ghost var orig := Snaps(all);
    var m, resetObj, resetM0 := AlignPaths(all);
    PadAllAppend(srcs0, sens0, m);
    ghost var padded := Snaps(all);
    assert padded == AlignAll(orig);
    r := EvaluatePadded(bh, ks, rot, srcList, srcs0, sens0, sizes, isCol, m, Snaps(all),
                        unrotated, isStatic, sumup, squeeze);
    assert Snaps(all) == padded;
    if r.Err? {
      assert AllValid(srcs0 + sens0);
      return;
    }
    assert r.value == Expected(bh, ks, rot, srcs0, sizes, isCol, sens0, sumup, squeeze);
    RestorePaths(all, resetObj, resetM0, orig, m);
    assert Snaps(all) == orig;
  }

  /** The whole evaluation. A sensor whose pixel shape differs from the
      first's is refused before anything changes. Otherwise every path is
      padded to the longest; when a bucket fails (a CylinderSegment with a
      malformed dimension) the exception leaves the paths padded; on success
      the paths are truncated back and the result is the designed field. */
  method GetBHLevel2(bh: bool, ks: Kernels, rot: RotateFn, sources: seq<Entry>, sensors: seq<MagObject>,
                     sumup: bool, squeeze: bool)
    returns (r: Result<Field>)
    requires SourcesOk(sources) && SensorsOk(sensors) && IsRotation(rot)
    modifies Participants(sources, sensors)
    ensures !SamePixelShapes(sensors) ==> r == Err(BadUserInput)
    ensures r.Ok? <==> SamePixelShapes(sensors) && SegmentsWellFormed(old(Snaps(FlattenEntries(sources))))
    ensures r.Ok? ==> r.value == old(Designed(bh, ks, rot, sources, sensors, sumup, squeeze))
    ensures r.Ok? || !SamePixelShapes(sensors) ==>
      Snaps(Participants(sources, sensors)) == old(Snaps(Participants(sources, sensors)))
    ensures r.Err? && SamePixelShapes(sensors) ==>
      && AllValid(old(Snaps(Participants(sources, sensors))))
      && Snaps(Participants(sources, sensors)) == AlignAll(old(Snaps(Participants(sources, sensors))))
  {
    var srcList := FlattenEntries(sources);
    if !SamePixelShapes(sensors) {
      return Err(BadUserInput);
    }
    var all := Participants(sources, sensors);
    InputFacts(sources, sensors);

    // sensors that need no back-rotation, and sensors with one orientation
    var unrotated := UnrotatedFlags(Snaps(sensors));
    var isStatic := StaticFlags(Snaps(sensors));
    r := EvaluateAligned(bh, ks, rot, srcList, all, Snaps(srcList), Snaps(sensors), Sizes(sources), IsCol(sources),
                         unrotated, isStatic, sumup, squeeze);
  }
}
