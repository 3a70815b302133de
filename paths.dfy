/** Path alignment around one field evaluation: every participating object's
    path is padded to the longest length `m` by repeating its last state, and
    the padded objects are truncated back to their own length afterwards. */
module PathAlign {
  import opened Geometry
  import opened Objects
  import opened Seqs

  /** A path filled up to length `m` with copies of its last entry. */
  function Pad<T>(path: seq<T>, m: nat): (r: seq<T>)
    requires |path| >= 1
    ensures |path| <= m ==> |r| == m
    ensures |path| >= m ==> r == path
    ensures r[..|path|] == path
    ensures forall t :: |path| <= t < |r| ==> r[t] == Last(path)
  {
    if |path| >= m then path else path + Repeat(Last(path), m - |path|)
  }

  /** Truncating a padded path to its own length gives it back. */
  lemma PadTruncate<T>(path: seq<T>, m: nat)
    requires |path| >= 1
    ensures Pad(path, m)[..|path|] == path
    ensures |path| == m ==> Pad(path, m) == path
  {
  }

  /** Padding keeps a path constant when it was constant, so a static or
      unrotated orientation stays so. */
  lemma {:induction false} PadConstant<T>(path: seq<T>, m: nat, c: T)
    requires |path| >= 1
    requires forall t :: 0 <= t < |path| ==> path[t] == c
    ensures forall t :: 0 <= t < |Pad(path, m)| ==> Pad(path, m)[t] == c
  {
    var r := Pad(path, m);
    forall t | 0 <= t < |r| ensures r[t] == c {
      if t >= |path| {
        assert r[t] == Last(path) == path[|path| - 1];
      } else {
        assert r[t] == r[..|path|][t];
      }
    }
  }

  /** The largest path length. */
  function MaxPathLength(lengths: seq<nat>): (m: nat)
    requires |lengths| > 0
    ensures forall t :: 0 <= t < |lengths| ==> lengths[t] <= m
    ensures exists t :: 0 <= t < |lengths| && lengths[t] == m
  {
    if |lengths| == 1 then lengths[0]
    else
      var rest := MaxPathLength(lengths[1..]);
      assert forall t :: 1 <= t < |lengths| ==> lengths[t] == lengths[1..][t - 1];
      if lengths[0] >= rest then lengths[0] else rest
  }

  /** No object appears twice. */
  predicate Distinct(objs: seq<MagObject>) {
    forall a, b :: 0 <= a < b < |objs| ==> objs[a] != objs[b]
  }

  /** Duplicate elimination: every object kept at its first occurrence. This
      is also the order in which the model visits `set(...)` of the
      participating objects. */
  function Dedup(s: seq<MagObject>): (r: seq<MagObject>)
    ensures Distinct(r) && |r| <= |s|
    ensures forall t :: 0 <= t < |r| ==> r[t] in s
    ensures forall t :: 0 <= t < |s| ==> s[t] in r
  {
    if s == [] then []
    else
      var p := s[..|s| - 1];
      var r := Dedup(p);
      assert forall t :: 0 <= t < |p| ==> s[t] == p[t];
      if Last(s) in r then r else r + [Last(s)]
  }

  /** The lengths of the objects' paths. */
  function PathLengths(objs: seq<MagObject>): (r: seq<nat>)
    reads objs
    ensures |r| == |objs|
    ensures forall t :: 0 <= t < |objs| ==> r[t] == |objs[t].position|
  {
    seq(|objs|, t reads objs requires 0 <= t < |objs| => |objs[t].position|)
  }

  /** The objects' paths as construction leaves them. */
  predicate ValidPaths(objs: seq<MagObject>)
    reads objs
  {
    forall t :: 0 <= t < |objs| ==>
      |objs[t].position| >= 1 && |objs[t].orientation| == |objs[t].position|
  }

  /** A snapshot whose paths are padded to length `m`. */
  function PadSnap(s: Snapshot, m: nat): (r: Snapshot)
    requires ValidPath(s)
    ensures r.objectType == s.objectType && r.attrs == s.attrs
    ensures r.position == Pad(s.position, m) && r.orientation == Pad(s.orientation, m)
  {
    s.(position := Pad(s.position, m), orientation := Pad(s.orientation, m))
  }

  /** Every snapshot has a well-formed path. */
  ghost predicate AllValid(snaps: seq<Snapshot>) {
    forall t :: 0 <= t < |snaps| ==> ValidPath(snaps[t])
  }

  function PadAll(snaps: seq<Snapshot>, m: nat): (r: seq<Snapshot>)
    requires AllValid(snaps)
    ensures |r| == |snaps| && forall i :: 0 <= i < |snaps| ==> r[i] == PadSnap(snaps[i], m)
  {
    seq(|snaps|, i requires 0 <= i < |snaps| => PadSnap(snaps[i], m))
  }

  /** Objects whose paths are the padded paths of `before` have the padded
      snapshots. */
  lemma PaddedSnaps(objs: seq<MagObject>, before: seq<Snapshot>, m: nat)
    requires |before| == |objs| && AllValid(before)
    requires forall t :: 0 <= t < |objs| ==>
      && objs[t].objectType == before[t].objectType && objs[t].attrs == before[t].attrs
      && objs[t].position == Pad(before[t].position, m) && objs[t].orientation == Pad(before[t].orientation, m)
    ensures Snaps(objs) == PadAll(before, m)
  {
  }

  /** The tiling step: compute `m`, record every object whose length differs
      from `m` together with its original length, and (when `m > 1`) pad those
      objects' position and orientation paths with their last entries. */
  method TilePaths(objs: seq<MagObject>) returns (m: nat, resetObj: seq<MagObject>, resetM0: seq<nat>)
    requires |objs| > 0 && Distinct(objs) && ValidPaths(objs)
    modifies objs
    ensures AllValid(old(Snaps(objs)))
    ensures m == MaxPathLength(old(PathLengths(objs)))
    ensures Snaps(objs) == PadAll(old(Snaps(objs)), m)
    ensures |resetObj| == |resetM0| && Distinct(resetObj)
    ensures forall w :: 0 <= w < |resetObj| ==> resetObj[w] in objs
    ensures forall w, u :: 0 <= w < |resetObj| && 0 <= u < |objs| && resetObj[w] == objs[u] ==>
      resetM0[w] == |old(Snaps(objs))[u].position|
    ensures forall w :: 0 <= w < |resetM0| ==> resetM0[w] < m
    ensures forall u :: 0 <= u < |objs| ==> (objs[u] in resetObj <==> |old(Snaps(objs))[u].position| != m)
  {
    ghost var before := Snaps(objs);
    var lengths := PathLengths(objs);
    assert forall u :: 0 <= u < |objs| ==> lengths[u] == |before[u].position|;
    m := MaxPathLength(lengths);
    ghost var pos;
    resetObj, resetM0, pos := RecordResets(objs, lengths, m);
    if m > 1 {
      PadRecorded(objs, resetObj, resetM0, m, before, pos);
      ResetsPadded(objs, resetObj, pos, before, m);
    } else {
      assert Snaps(objs) == before;
      PaddedSnaps(objs, before, m);
    }
  }

  /** The mask step: the objects whose length is not `m`, in order, with their
      lengths. */
  method RecordResets(objs: seq<MagObject>, lengths: seq<nat>, m: nat)
    returns (resetObj: seq<MagObject>, resetM0: seq<nat>, ghost pos: seq<nat>)
    requires |lengths| == |objs| && Distinct(objs)
    requires forall t :: 0 <= t < |lengths| ==> lengths[t] <= m
    ensures |resetObj| == |resetM0| && Distinct(resetObj)
    ensures forall u :: 0 <= u < |resetObj| ==> resetObj[u] in objs
    ensures forall u, v :: 0 <= u < |resetObj| && 0 <= v < |objs| && resetObj[u] == objs[v] ==>
      resetM0[u] == lengths[v]
    ensures forall u :: 0 <= u < |resetM0| ==> resetM0[u] < m
    ensures forall v :: 0 <= v < |objs| ==> (objs[v] in resetObj <==> lengths[v] != m)
    ensures |pos| == |resetObj| && forall w :: 0 <= w < |resetObj| ==>
      pos[w] < |objs| && objs[pos[w]] == resetObj[w] && resetM0[w] == lengths[pos[w]]
  {
    resetObj, resetM0, pos := [], [], [];
    var t := 0;
    while t < |objs|
      invariant 0 <= t <= |objs|
      invariant |resetObj| == |resetM0| && Distinct(resetObj)
      invariant forall u :: 0 <= u < |resetM0| ==> resetM0[u] < m
      invariant forall v :: 0 <= v < t ==> (objs[v] in resetObj <==> lengths[v] != m)
      invariant forall v :: t <= v < |objs| ==> objs[v] !in resetObj
      invariant |pos| == |resetObj| && forall w :: 0 <= w < |resetObj| ==>
        pos[w] < t && objs[pos[w]] == resetObj[w] && resetM0[w] == lengths[pos[w]]
    {
      if lengths[t] != m {
        resetObj, resetM0, pos := resetObj + [objs[t]], resetM0 + [lengths[t]], pos + [t];
      }
      t := t + 1;
    }
    forall u | 0 <= u < |resetObj| ensures resetObj[u] in objs {
      assert objs[pos[u]] == resetObj[u];
    }
    forall u, v | 0 <= u < |resetObj| && 0 <= v < |objs| && resetObj[u] == objs[v]
      ensures resetM0[u] == lengths[v]
    {
      assert objs[pos[u]] == objs[v];
    }
  }

  /** The padding loop over the recorded objects, whose snapshots before
      padding are `before`. */
  method PadRecorded(objs: seq<MagObject>, resetObj: seq<MagObject>, resetM0: seq<nat>, m: nat,
                     ghost before: seq<Snapshot>, ghost pos: seq<nat>)
    requires Distinct(objs) && |before| == |objs| && AllValid(before)
    requires forall u :: 0 <= u < |objs| ==>
      objs[u].position == before[u].position && objs[u].orientation == before[u].orientation
    requires |resetObj| == |resetM0| == |pos| && Distinct(resetObj)
    requires forall w :: 0 <= w < |resetObj| ==>
      pos[w] < |objs| && objs[pos[w]] == resetObj[w] && resetM0[w] == |before[pos[w]].position| < m
    modifies objs
    ensures forall v :: 0 <= v < |resetObj| ==>
      && resetObj[v].position == Pad(before[pos[v]].position, m)
      && resetObj[v].orientation == Pad(before[pos[v]].orientation, m)
    ensures forall u :: 0 <= u < |objs| && |before[u].position| == m ==>
      objs[u].position == before[u].position && objs[u].orientation == before[u].orientation
    ensures forall u :: 0 <= u < |objs| && objs[u] !in resetObj ==>
      objs[u].position == before[u].position && objs[u].orientation == before[u].orientation
  {
    var w := 0;
    while w < |resetObj|
      invariant 0 <= w <= |resetObj|
      invariant forall v :: 0 <= v < w ==>
        && resetObj[v].position == Pad(before[pos[v]].position, m)
        && resetObj[v].orientation == Pad(before[pos[v]].orientation, m)
      invariant forall v :: w <= v < |resetObj| ==>
        resetObj[v].position == before[pos[v]].position && resetObj[v].orientation == before[pos[v]].orientation
      invariant forall u :: 0 <= u < |objs| && objs[u] !in resetObj ==>
        objs[u].position == before[u].position && objs[u].orientation == before[u].orientation
    {
      var obj := resetObj[w];
      var m0 := resetM0[w];
      ghost var b := before[pos[w]];
      assert obj == objs[pos[w]] && obj.position == b.position && obj.orientation == b.orientation;
      PadObject(obj, m0, m);
      w := w + 1;
    }
    assert forall u :: 0 <= u < |objs| && |before[u].position| == m ==> objs[u] !in resetObj;
  }

  /** One recorded object of length `m0` padded with its last position and
      orientation to length `m`. */
  method PadObject(obj: MagObject, m0: nat, m: nat)
    requires |obj.position| == m0 && |obj.orientation| == m0 && 1 <= m0 < m
    modifies obj
    ensures obj.position == Pad(old(obj.position), m) && obj.orientation == Pad(old(obj.orientation), m)
  {
    obj.position := obj.position + Repeat(Last(obj.position), m - m0);
    obj.orientation := obj.orientation + Repeat(Last(obj.orientation), m - m0);
  }

  /** After the padding loop: every recorded object holds its padded path and
      every other object already had length `m`, so all snapshots are padded. */
  lemma ResetsPadded(objs: seq<MagObject>, resetObj: seq<MagObject>, pos: seq<nat>, before: seq<Snapshot>, m: nat)
    requires Distinct(objs) && |before| == |objs| && AllValid(before)
    requires |pos| == |resetObj|
    requires forall v :: 0 <= v < |resetObj| ==> pos[v] < |objs| && objs[pos[v]] == resetObj[v]
    requires forall v :: 0 <= v < |resetObj| ==>
      && resetObj[v].position == Pad(before[pos[v]].position, m)
      && resetObj[v].orientation == Pad(before[pos[v]].orientation, m)
    requires forall u :: 0 <= u < |objs| && |before[u].position| == m ==>
      objs[u].position == before[u].position && objs[u].orientation == before[u].orientation
    requires forall u :: 0 <= u < |objs| ==> (objs[u] in resetObj <==> |before[u].position| != m)
    requires forall u :: 0 <= u < |objs| ==>
      objs[u].objectType == before[u].objectType && objs[u].attrs == before[u].attrs
    ensures Snaps(objs) == PadAll(before, m)
  {
    forall u | 0 <= u < |objs|
      ensures objs[u].position == Pad(before[u].position, m) && objs[u].orientation == Pad(before[u].orientation, m)
    {
      if objs[u] in resetObj {
        var v :| 0 <= v < |resetObj| && resetObj[v] == objs[u];
        assert pos[v] == u;
      }
    }
    PaddedSnaps(objs, before, m);
  }

  /** The reset step: truncate each recorded object to its original length. */
  method ResetPaths(resetObj: seq<MagObject>, resetM0: seq<nat>)
    requires |resetObj| == |resetM0| && Distinct(resetObj)
    requires forall t :: 0 <= t < |resetObj| ==>
      resetM0[t] <= |resetObj[t].position| && resetM0[t] <= |resetObj[t].orientation|
    modifies set o | o in resetObj
    ensures forall t :: 0 <= t < |resetObj| ==>
      && resetObj[t].position == old(resetObj[t].position)[..resetM0[t]]
      && resetObj[t].orientation == old(resetObj[t].orientation)[..resetM0[t]]
  {
    var u := 0;
    while u < |resetObj|
      invariant 0 <= u <= |resetObj|
      invariant forall w :: u <= w < |resetObj| ==> unchanged(resetObj[w])
      invariant forall w :: 0 <= w < u ==>
        && resetObj[w].position == old(resetObj[w].position)[..resetM0[w]]
        && resetObj[w].orientation == old(resetObj[w].orientation)[..resetM0[w]]
    {
      var obj := resetObj[u];
      obj.position := obj.position[..resetM0[u]];
      obj.orientation := obj.orientation[..resetM0[u]];
      u := u + 1;
    }
  }
}
