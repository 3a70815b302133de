/** Bucketing the flat source list by type, evaluating each non-empty bucket in
    one dispatch, and scattering the bucket results back to the sources'
    original places. */
module Grouping {
  import opened Wrappers
  import opened Geometry
  import opened Objects
  import opened Seqs
  import opened Dispatch
  import opened Tiling

  /** The field of one source against all observation points: `[j][i][p]` for
      path step, sensor and pixel. */
  type Block = seq<seq<seq<Vec3>>>

  function Types(srcs: seq<Snapshot>): (r: seq<ObjectType>)
    ensures |r| == |srcs|
    ensures forall s :: 0 <= s < |srcs| ==> r[s] == srcs[s].objectType
  {
    seq(|srcs|, s requires 0 <= s < |srcs| => srcs[s].objectType)
  }

  function ObjectTypes(objs: seq<MagObject>): (r: seq<ObjectType>)
    ensures |r| == |objs|
    ensures forall s :: 0 <= s < |objs| ==> r[s] == objs[s].objectType
  {
    seq(|objs|, s requires 0 <= s < |objs| => objs[s].objectType)
  }

  /** The tags read off the objects are the tags of their snapshots: a type
      tag never changes, whatever the paths hold. */
  lemma ObjectTypesSnaps(objs: seq<MagObject>)
    ensures ObjectTypes(objs) == Types(Snaps(objs))
  {
  }

  /** The indices below `n` whose tag belongs to bucket `g`, in increasing order. */
  function {:induction false} BucketPrefix(types: seq<ObjectType>, n: nat, g: nat): (r: seq<nat>)
    requires n <= |types|
    ensures forall u :: 0 <= u < |r| ==> r[u] < n && GroupIndex(types[r[u]]) == Some(g)
    ensures forall u, w :: 0 <= u < w < |r| ==> r[u] < r[w]
    ensures forall i :: 0 <= i < n && GroupIndex(types[i]) == Some(g) ==> i in r
  {
    if n == 0 then []
    else
      var pre := BucketPrefix(types, n - 1, g);
      if GroupIndex(types[n - 1]) == Some(g) then pre + [n - 1] else pre
  }

  /** The flat-list indices sorted into bucket `g`: exactly the indices whose
      tag belongs to `g`, in increasing order. */
  function BucketIndices(types: seq<ObjectType>, g: nat): (r: seq<nat>)
    ensures forall u :: 0 <= u < |r| ==> r[u] < |types| && GroupIndex(types[r[u]]) == Some(g)
    ensures forall u, w :: 0 <= u < w < |r| ==> r[u] < r[w]
    ensures forall i :: 0 <= i < |types| && GroupIndex(types[i]) == Some(g) ==> i in r
  {
    BucketPrefix(types, |types|, g)
  }

  /** Every source index lands in exactly one bucket, the one of its tag; an
      index whose tag is not a source kind lands in none. */
  lemma BucketsPartition(types: seq<ObjectType>, i: nat)
    requires i < |types|
    ensures IsSourceType(types[i]) ==>
      forall g :: 0 <= g < NumBuckets ==> (i in BucketIndices(types, g) <==> g == GroupIndex(types[i]).value)
    ensures !IsSourceType(types[i]) ==>
      forall g :: 0 <= g < NumBuckets ==> i !in BucketIndices(types, g)
  {
    forall g | 0 <= g < NumBuckets
      ensures i in BucketIndices(types, g) ==> GroupIndex(types[i]) == Some(g)
    {
      var r := BucketIndices(types, g);
      if i in r {
        var u :| 0 <= u < |r| && r[u] == i;
      }
    }
  }

  /** Scatter-back is a bijection: position `u` of bucket `g` and the flat
      index it names determine each other. */
  lemma ScatterInverse(types: seq<ObjectType>, g: nat, u: nat, w: nat)
    requires u < |BucketIndices(types, g)| && w < |BucketIndices(types, g)|
    ensures BucketIndices(types, g)[u] == BucketIndices(types, g)[w] <==> u == w
  {
  }

  /** `ys` holds the elements of `xs` at the indices `idx`, in that order. */
  ghost predicate Picks<T>(xs: seq<T>, idx: seq<nat>, ys: seq<T>) {
    |ys| == |idx| && forall u :: 0 <= u < |idx| ==> idx[u] < |xs| && ys[u] == xs[idx[u]]
  }

  lemma PicksSnoc<T>(xs: seq<T>, idx: seq<nat>, ys: seq<T>, i: nat)
    requires Picks(xs, idx, ys) && i < |xs|
    ensures Picks(xs, idx + [i], ys + [xs[i]])
  {
  }

  /** The grouping loop: walk the flat list once and append each source and its
      index to the list of its bucket. */
  method GroupSources(srcList: seq<MagObject>) returns (srcSorted: seq<seq<MagObject>>, order: seq<seq<nat>>)
    ensures |srcSorted| == NumBuckets && |order| == NumBuckets
    ensures forall g :: 0 <= g < NumBuckets ==> order[g] == BucketIndices(ObjectTypes(srcList), g)
    ensures forall g :: 0 <= g < NumBuckets ==>
      |srcSorted[g]| == |order[g]| &&
      forall u :: 0 <= u < |order[g]| ==> order[g][u] < |srcList| && srcSorted[g][u] == srcList[order[g][u]]
  {
    var types := ObjectTypes(srcList);
    srcSorted := [[], [], [], [], [], [], []];
    order := [[], [], [], [], [], [], []];
    for i := 0 to |srcList|
      invariant |srcSorted| == NumBuckets && |order| == NumBuckets
      invariant forall g :: 0 <= g < NumBuckets ==> order[g] == BucketPrefix(types, i, g)
      invariant forall g :: 0 <= g < NumBuckets ==> Picks(srcList, order[g], srcSorted[g])
    {
      match GroupIndex(types[i])
      case Some(g) =>
        PicksSnoc(srcList, order[g], srcSorted[g], i);
        srcSorted := srcSorted[g := srcSorted[g] + [srcList[i]]];
        order := order[g := order[g] + [i]];
      case None =>
    }
  }

  /** All paths have the common length `m`, and every CylinderSegment has a
      five-entry dimension. */
  ghost predicate Evaluable(srcs: seq<Snapshot>, m: nat) {
    forall s :: 0 <= s < |srcs| ==>
      && IsSourceType(srcs[s].objectType)
      && |srcs[s].position| == m && |srcs[s].orientation| == m
  }

  /** A CylinderSegment's dimension has its five entries. */
  predicate SegmentOk(src: Snapshot) {
    src.objectType == CylinderSegment ==> |src.attrs.dimension| == 5
  }

  predicate SegmentsWellFormed(srcs: seq<Snapshot>) {
    forall s :: 0 <= s < |srcs| ==> SegmentOk(srcs[s])
  }

  /** The bucket `g` as the grouping loop leaves it. */
  ghost predicate Sorted(srcs: seq<Snapshot>, sorted: seq<seq<Snapshot>>, order: seq<seq<nat>>) {
    && |sorted| == NumBuckets && |order| == NumBuckets
    && (forall g :: 0 <= g < NumBuckets ==> order[g] == BucketIndices(Types(srcs), g))
    && (forall g :: 0 <= g < NumBuckets ==>
          |sorted[g]| == |order[g]| &&
          forall u :: 0 <= u < |order[g]| ==> sorted[g][u] == srcs[order[g][u]])
  }

  /** Every source's own field against the observation points. */
  function SourceFields(bh: bool, ks: Kernels, rot: RotateFn, srcs: seq<Snapshot>,
                        obs: seq<seq<seq<Vec3>>>, m: nat, k: nat, kp: nat): (r: seq<Block>)
    requires Evaluable(srcs, m) && SegmentsWellFormed(srcs) && ObsShape(obs, m, k, kp)
    ensures |r| == |srcs|
    ensures forall s :: 0 <= s < |srcs| ==> r[s] == FieldBlock(bh, ks, rot, srcs[s], obs, m, k, kp)
  {
    seq(|srcs|, s requires 0 <= s < |srcs| => FieldBlock(bh, ks, rot, srcs[s], obs, m, k, kp))
  }

  /** Sources of one kind whose paths all have the common length `m`. */
  ghost predicate SameKind(group: seq<Snapshot>, m: nat) {
    && |group| > 0 && IsSourceType(group[0].objectType)
    && (forall s :: 0 <= s < |group| ==> group[s].objectType == group[0].objectType)
    && (forall s :: 0 <= s < |group| ==> |group[s].position| == m && |group[s].orientation| == m)
  }

  /** One bucket's evaluation: pack it, dispatch it, and reshape the flat
      output to (lg, m, k, kp). It succeeds exactly when the bucket's
      CylinderSegments are well formed, and then holds every member's field. */
  function BucketField(bh: bool, ks: Kernels, rot: RotateFn, group: seq<Snapshot>,
                       obs: seq<seq<seq<Vec3>>>, m: nat, k: nat, kp: nat): (r: Result<seq<Block>>)
    requires SameKind(group, m) && ObsShape(obs, m, k, kp) && m > 0 && k > 0 && kp > 0
    ensures r.Ok? <==> Bucket(group, m)
    ensures r.Ok? ==> |r.value| == |group|
    ensures r.Ok? ==> forall s :: 0 <= s < |group| ==> r.value[s] == FieldBlock(bh, ks, rot, group[s], obs, m, k, kp)
  {
    var nPix := k * kp;
    var nPP := m * nPix;
    var poso := FlattenObs(obs);
    FlattenObsLength(obs, m, k, kp);
    BucketIffDispatchOk(bh, ks, rot, group, obs, m, k, kp);
    var d := GetSrcDict(group, nPix, nPP, poso).value;
    match GetBHLevel1(bh, d, ks, rot)
    case Err(e) => Err(e)
    case Ok(out) =>
      GroupField(bh, ks, rot, group, obs, m, k, kp);
      Ok(ReshapeGroup(out, |group|, m, k, kp))
  }

  /** One pass of the evaluation loop: bucket `g` is packed and dispatched,
      and row `u` of its result goes to the preallocated row `order[g][u]`.
      A malformed CylinderSegment in the bucket fails it before anything is
      written. */
  method EvaluateBucket(bh: bool, ks: Kernels, rot: RotateFn, srcs: seq<Snapshot>,
                        sorted: seq<seq<Snapshot>>, order: seq<seq<nat>>,
                        obs: seq<seq<seq<Vec3>>>, m: nat, k: nat, kp: nat, g: nat, B: array<Block>)
    returns (err: Option<Error>)
    requires Evaluable(srcs, m) && ObsShape(obs, m, k, kp) && Sorted(srcs, sorted, order)
    requires m > 0 && k > 0 && kp > 0 && g < NumBuckets && |sorted[g]| > 0 && B.Length == |srcs|
    modifies B
    ensures err.Some? ==> !SegmentsWellFormed(srcs) && B[..] == old(B[..])
    ensures err.None? ==> forall u :: 0 <= u < |order[g]| ==>
      SegmentOk(srcs[order[g][u]]) && B[order[g][u]] == FieldBlock(bh, ks, rot, srcs[order[g][u]], obs, m, k, kp)
    ensures forall s :: 0 <= s < B.Length && s !in order[g] ==> B[s] == old(B[s])
  {
    BucketOfSorted(srcs, sorted, order, m, g);
    var res := BucketField(bh, ks, rot, sorted[g], obs, m, k, kp);
    if res.Err? {
      BadSegmentFound(srcs, sorted, order, m, g);
      return Some(res.error);
    }
    forall u | 0 <= u < |order[g]|
      ensures SegmentOk(srcs[order[g][u]])
      ensures res.value[u] == FieldBlock(bh, ks, rot, srcs[order[g][u]], obs, m, k, kp)
    {
      assert sorted[g][u] == srcs[order[g][u]];
    }
    ScatterRows(B, order[g], res.value);
    err := None;
  }

  /** The evaluation loop: for each non-empty bucket, evaluate it and write
      row `u` of its result to the preallocated row `order[g][u]`. A
      CylinderSegment with a malformed dimension fails its bucket. */
  method EvaluateGroups(bh: bool, ks: Kernels, rot: RotateFn, srcs: seq<Snapshot>,
                        sorted: seq<seq<Snapshot>>, order: seq<seq<nat>>,
                        obs: seq<seq<seq<Vec3>>>, m: nat, k: nat, kp: nat)
    returns (r: Result<seq<Block>>)
    requires Evaluable(srcs, m) && ObsShape(obs, m, k, kp) && Sorted(srcs, sorted, order)
    requires m > 0 && k > 0 && kp > 0
    ensures r.Ok? <==> SegmentsWellFormed(srcs)
    ensures r.Ok? ==> r.value == SourceFields(bh, ks, rot, srcs, obs, m, k, kp)
  {
    var l := |srcs|;
    var types := Types(srcs);
    // the field block of every source whose dimension is well formed
    ghost var ref := seq(l, s requires 0 <= s < l =>
      if SegmentOk(srcs[s]) then FieldBlock(bh, ks, rot, srcs[s], obs, m, k, kp) else []);
    var B := new Block[l](_ => []);
    for g := 0 to NumBuckets
      invariant forall s :: 0 <= s < l && GroupIndex(types[s]).value < g ==>
        SegmentOk(srcs[s]) && B[s] == ref[s]
    {
      if |sorted[g]| > 0 {
        var err := EvaluateBucket(bh, ks, rot, srcs, sorted, order, obs, m, k, kp, g, B);
        if err.Some? {
          return Err(err.value);
        }
        forall s | 0 <= s < l && GroupIndex(types[s]).value == g ensures SegmentOk(srcs[s]) && B[s] == ref[s] {
          var u :| 0 <= u < |order[g]| && order[g][u] == s;
        }
      } else {
        forall s | 0 <= s < l ensures GroupIndex(types[s]) != Some(g) {
          assert s !in order[g];
        }
      }
    }
    r := Ok(B[..]);
    assert B[..] == SourceFields(bh, ks, rot, srcs, obs, m, k, kp);
  }

  /** The scatter-back: row `u` of a bucket's result goes to row `idx[u]` of
      the preallocated output; rows no index names keep their contents. */
  method ScatterRows(B: array<Block>, idx: seq<nat>, rows: seq<Block>)
    requires |idx| == |rows|
    requires forall u :: 0 <= u < |idx| ==> idx[u] < B.Length
    requires forall u, w :: 0 <= u < w < |idx| ==> idx[u] < idx[w]
    modifies B
    ensures forall u :: 0 <= u < |idx| ==> B[idx[u]] == rows[u]
    ensures forall s :: 0 <= s < B.Length && s !in idx ==> B[s] == old(B[s])
  {
    for u := 0 to |idx|
      invariant forall w :: 0 <= w < u ==> B[idx[w]] == rows[w]
      invariant forall s :: 0 <= s < B.Length && s !in idx[..u] ==> B[s] == old(B[s])
    {
      B[idx[u]] := rows[u];
      assert idx[..u + 1] == idx[..u] + [idx[u]];
    }
    assert idx[..|idx|] == idx;
  }

  /** A non-empty sorted bucket holds sources of its bucket's kind with
      common-length paths. */
  lemma BucketOfSorted(srcs: seq<Snapshot>, sorted: seq<seq<Snapshot>>, order: seq<seq<nat>>, m: nat, g: nat)
    requires Evaluable(srcs, m) && Sorted(srcs, sorted, order) && g < NumBuckets && |sorted[g]| > 0
    ensures forall u :: 0 <= u < |sorted[g]| ==> sorted[g][u].objectType == BucketType(g)
    ensures SameKind(sorted[g], m)
  {
    forall u | 0 <= u < |sorted[g]| ensures sorted[g][u].objectType == BucketType(g) {
      BucketTypeInverse(srcs[order[g][u]].objectType, g);
    }
    BucketTypeInverse(BucketType(g), g);
  }

  lemma BadSegmentFound(srcs: seq<Snapshot>, sorted: seq<seq<Snapshot>>, order: seq<seq<nat>>, m: nat, g: nat)
    requires Evaluable(srcs, m) && Sorted(srcs, sorted, order) && g < NumBuckets && |sorted[g]| > 0
    requires !Bucket(sorted[g], m)
    ensures !SegmentsWellFormed(srcs)
  {
    BucketOfSorted(srcs, sorted, order, m, g);
    var u :| 0 <= u < |sorted[g]| && |sorted[g][u].attrs.dimension| != 5;
    assert srcs[order[g][u]] == sorted[g][u];
  }

  /** A bucket passes the dispatch exactly when its CylinderSegments are well
      formed. */
  lemma BucketIffDispatchOk(bh: bool, ks: Kernels, rot: RotateFn, group: seq<Snapshot>,
                            obs: seq<seq<seq<Vec3>>>, m: nat, k: nat, kp: nat)
    requires SameKind(group, m) && ObsShape(obs, m, k, kp) && m > 0 && k > 0 && kp > 0
    ensures GetSrcDict(group, k * kp, m * (k * kp), FlattenObs(obs)).Ok?
    ensures Bucket(group, m) <==>
      GetBHLevel1(bh, GetSrcDict(group, k * kp, m * (k * kp), FlattenObs(obs)).value, ks, rot).Ok?
  {
    var nPP := m * (k * kp);
    assert nPP > 0 by {
      MulMonotone(1, m, k * kp);
      MulMonotone(1, k, kp);
    }
    var d := GetSrcDict(group, k * kp, nPP, FlattenObs(obs)).value;
    GetBHLevel1OkIff(bh, d, ks, rot);
    if Bucket(group, m) {
      DispatchWellFormed(group, m, k, kp, obs);
    }
    if WellFormed(d) && group[0].objectType == CylinderSegment {
      forall u | 0 <= u < |group| ensures |group[u].attrs.dimension| == 5 {
        SegmentRowOf(group, nPP, u, d);
      }
    }
  }

  /** A malformed dimension of source `u` shows up in one of its tiled rows. */
  lemma SegmentRowOf(group: seq<Snapshot>, nPP: nat, u: nat, d: SrcDict)
    requires u < |group| && WellFormed(d) && d.sourceType == CylinderSegment
    requires d.dimension == Some(TileDimension(group, nPP)) && nPP > 0
    ensures |group[u].attrs.dimension| == 5
  {
    var dim := TileDimension(group, nPP);
    MulMonotone(u + 1, |group|, nPP);
    MulSucc(u, nPP);
    DivModUnique(u * nPP, nPP, u, 0);
    assert dim[u * nPP] == group[u].attrs.dimension;
  }

  /** Row `u` of bucket `g` writes a source row that no earlier bucket and no
      earlier row of this bucket wrote. */
  lemma ScatterTarget(srcs: seq<Snapshot>, sorted: seq<seq<Snapshot>>, order: seq<seq<nat>>, m: nat, g: nat, u: nat)
    requires Sorted(srcs, sorted, order) && g < NumBuckets && u < |order[g]|
    ensures order[g][u] < |srcs| && GroupIndex(Types(srcs)[order[g][u]]) == Some(g)
    ensures order[g][u] !in order[g][..u]
    ensures sorted[g][u] == srcs[order[g][u]]
  {
  }
}
