/** After the buckets are evaluated: the observation points the sensors
    contribute, the summation of each Collection's rows, the back-rotation into
    each sensor's frame, and the final reshape, sum over sources and squeeze. */
module Assemble {
  import opened Geometry
  import opened Objects
  import opened Seqs
  import opened Tiling
  import opened Grouping

  // ---------------------------------------------------------------------------
  // Observation points

  /** The pixel positions of sensor `i` at path step `j` in global coordinates:
      the pixel rotated by the sensor's orientation and moved to its position. */
  function ObserverBlocks(sensors: seq<Snapshot>, m: nat, kp: nat, rot: RotateFn): (obs: seq<seq<seq<Vec3>>>)
    requires forall i :: 0 <= i < |sensors| ==>
      |sensors[i].position| >= m && |sensors[i].orientation| >= m && |sensors[i].attrs.pixel| == kp
    ensures ObsShape(obs, m, |sensors|, kp)
    ensures forall j, i, p :: 0 <= j < m && 0 <= i < |sensors| && 0 <= p < kp ==>
      obs[j][i][p] == Add(rot(sensors[i].orientation[j], sensors[i].attrs.pixel[p]), sensors[i].position[j])
  {
    seq(m, j requires 0 <= j < m =>
      seq(|sensors|, i requires 0 <= i < |sensors| =>
        seq(kp, p requires 0 <= p < kp =>
          Add(rot(sensors[i].orientation[j], sensors[i].attrs.pixel[p]), sensors[i].position[j]))))
  }

  // ---------------------------------------------------------------------------
  // Collections: summing their members' rows

  function ZeroBlock(m: nat, k: nat, kp: nat): (b: Block)
    ensures Shape3(b, m, k, kp)
    ensures forall j, i, p :: 0 <= j < m && 0 <= i < k && 0 <= p < kp ==> b[j][i][p] == Zero
  {
    seq(m, j => seq(k, i => seq(kp, p => Zero)))
  }

  function AddBlocks(a: Block, b: Block, m: nat, k: nat, kp: nat): (r: Block)
    requires Shape3(a, m, k, kp) && Shape3(b, m, k, kp)
    ensures Shape3(r, m, k, kp)
    ensures forall j, i, p :: 0 <= j < m && 0 <= i < k && 0 <= p < kp ==>
      r[j][i][p] == Add(a[j][i][p], b[j][i][p])
  {
    seq(m, j requires 0 <= j < m =>
      seq(k, i requires 0 <= i < k =>
        seq(kp, p requires 0 <= p < kp => Add(a[j][i][p], b[j][i][p]))))
  }

  ghost predicate AllShape3(bs: seq<Block>, m: nat, k: nat, kp: nat) {
    forall t :: 0 <= t < |bs| ==> Shape3(bs[t], m, k, kp)
  }

  /** The vectors at one array position across a list of blocks. */
  function Column(bs: seq<Block>, m: nat, k: nat, kp: nat, j: nat, i: nat, p: nat): (c: seq<Vec3>)
    requires AllShape3(bs, m, k, kp) && j < m && i < k && p < kp
    ensures |c| == |bs| && forall t :: 0 <= t < |bs| ==> c[t] == bs[t][j][i][p]
  {
    seq(|bs|, t requires 0 <= t < |bs| => bs[t][j][i][p])
  }

  /** `np.sum(bs, axis=0)`: every array position holds the sum of the blocks'
      vectors there. */
  function {:induction false} SumBlocks(bs: seq<Block>, m: nat, k: nat, kp: nat): (r: Block)
    requires AllShape3(bs, m, k, kp)
    ensures Shape3(r, m, k, kp)
    ensures forall j, i, p :: 0 <= j < m && 0 <= i < k && 0 <= p < kp ==>
      r[j][i][p] == SumVecs(Column(bs, m, k, kp, j, i, p))
  {
    if bs == [] then ZeroBlock(m, k, kp)
    else
      var rest := SumBlocks(bs[1..], m, k, kp);
      var r := AddBlocks(bs[0], rest, m, k, kp);
      assert forall j, i, p :: 0 <= j < m && 0 <= i < k && 0 <= p < kp ==>
        Column(bs, m, k, kp, j, i, p)[1..] == Column(bs[1..], m, k, kp, j, i, p);
      r
  }

  /** A one-member sum is that member. */
  lemma SumSingle(b: Block, m: nat, k: nat, kp: nat)
    requires Shape3(b, m, k, kp)
    ensures SumBlocks([b], m, k, kp) == b
  {
    var r := SumBlocks([b], m, k, kp);
    forall j, i, p | 0 <= j < m && 0 <= i < k && 0 <= p < kp ensures r[j][i][p] == b[j][i][p] {
      var c := Column([b], m, k, kp, j, i, p);
      assert c[1..] == [];
    }
    SeqEqual3(r, b, m, k, kp);
  }

  function Total(xs: seq<nat>): nat {
    if xs == [] then 0 else Total(xs[..|xs| - 1]) + Last(xs)
  }

  /** The first flat row of top-level entry `s`. */
  function Offset(sizes: seq<nat>, s: nat): nat
    requires s <= |sizes|
  {
    Total(sizes[..s])
  }

  lemma OffsetStep(sizes: seq<nat>, s: nat)
    requires s < |sizes|
    ensures Offset(sizes, s + 1) == Offset(sizes, s) + sizes[s]
  {
    assert sizes[..s + 1][..s] == sizes[..s];
  }

  lemma {:induction false} OffsetBound(sizes: seq<nat>, s: nat)
    requires s <= |sizes|
    ensures Offset(sizes, s) <= Total(sizes)
    decreases |sizes| - s
  {
    if s == |sizes| {
      assert sizes[..s] == sizes;
    } else {
      OffsetStep(sizes, s);
      OffsetBound(sizes, s + 1);
    }
  }

  /** The lists one after the other. */
  function Concat<T>(xs: seq<seq<T>>): seq<T> {
    if xs == [] then [] else Concat(xs[..|xs| - 1]) + Last(xs)
  }

  function Lengths<T>(xs: seq<seq<T>>): (r: seq<nat>)
    ensures |r| == |xs| && forall s :: 0 <= s < |xs| ==> r[s] == |xs[s]|
  {
    seq(|xs|, s requires 0 <= s < |xs| => |xs[s]|)
  }

  /** An element is in the concatenation exactly when it is in one of the
      lists. */
  lemma {:induction false} ConcatMembers<T>(xs: seq<seq<T>>)
    ensures forall x :: x in Concat(xs) <==> exists s :: 0 <= s < |xs| && x in xs[s]
  {
    if xs != [] {
      var pre := xs[..|xs| - 1];
      ConcatMembers(pre);
      assert forall s :: 0 <= s < |pre| ==> pre[s] == xs[s];
    }
  }

  lemma {:induction false} ConcatLength<T>(xs: seq<seq<T>>)
    ensures |Concat(xs)| == Total(Lengths(xs))
  {
    if xs != [] {
      var n := |xs| - 1;
      ConcatLength(xs[..n]);
      assert Lengths(xs)[..n] == Lengths(xs[..n]);
    }
  }

  /** List `s` occupies the concatenation from `Offset(Lengths(xs), s)` on. */
  lemma {:induction false} ConcatLayout<T>(xs: seq<seq<T>>, s: nat)
    requires s < |xs|
    ensures Offset(Lengths(xs), s) + |xs[s]| <= |Concat(xs)|
    ensures Concat(xs)[Offset(Lengths(xs), s)..Offset(Lengths(xs), s) + |xs[s]|] == xs[s]
  {
    var n := |xs| - 1;
    var pre := xs[..n];
    var a := Concat(pre);
    var sz := Lengths(xs);
    assert sz[..n] == Lengths(pre);
    assert Concat(xs) == a + xs[n];
    ConcatLength(pre);
    if s < n {
      ConcatLayout(pre, s);
      assert sz[..s] == Lengths(pre)[..s];
      assert pre[s] == xs[s];
    } else {
      assert sz[..s] == Lengths(pre);
    }
  }

  /** The top level: entry `s` is a Collection of `sizes[s] >= 1` sources or a
      bare source (`sizes[s] == 1`); the flattened list lists their sources in
      order. */
  predicate Entries(sizes: seq<nat>, isCol: seq<bool>) {
    && |sizes| == |isCol|
    && (forall s :: 0 <= s < |sizes| ==> (if isCol[s] then sizes[s] >= 1 else sizes[s] == 1))
  }

  /** The row of entry `s` after summation: a Collection's row is the sum of
      its sources' rows, a bare source's row is its own. */
  function EntryRow(B: seq<Block>, sizes: seq<nat>, isCol: seq<bool>, m: nat, k: nat, kp: nat, s: nat): (r: Block)
    requires Entries(sizes, isCol) && s < |sizes| && |B| == Total(sizes) && AllShape3(B, m, k, kp)
    ensures Shape3(r, m, k, kp)
  {
    OffsetStep(sizes, s);
    OffsetBound(sizes, s + 1);
    var o := Offset(sizes, s);
    if isCol[s] then SumBlocks(B[o..o + sizes[s]], m, k, kp) else B[o]
  }

  function Collapsed(B: seq<Block>, sizes: seq<nat>, isCol: seq<bool>, m: nat, k: nat, kp: nat): (r: seq<Block>)
    requires Entries(sizes, isCol) && |B| == Total(sizes) && AllShape3(B, m, k, kp)
    ensures |r| == |sizes| && AllShape3(r, m, k, kp)
    ensures forall s :: 0 <= s < |sizes| ==> r[s] == EntryRow(B, sizes, isCol, m, k, kp, s)
  {
    seq(|sizes|, s requires 0 <= s < |sizes| => EntryRow(B, sizes, isCol, m, k, kp, s))
  }

  /** Two lists that agree from `i` and from `o` on agree on the next `n`
      entries and after them. */
  lemma SlicesFrom<T>(C: seq<T>, B: seq<T>, i: nat, o: nat, n: nat)
    requires i <= |C| && o + n <= |B| && C[i..] == B[o..]
    ensures i + n <= |C| && C[i..i + n] == B[o..o + n] && C[i + n..] == B[o + n..]
  {
    assert |C| - i == |B| - o;
    assert C[i..i + n] == C[i..][..n];
    assert B[o..o + n] == B[o..][..n];
    assert C[i + n..] == C[i..][n..];
    assert B[o + n..] == B[o..][n..];
  }

  /** The summation loop: walking the top-level entries, a Collection's first
      row becomes the sum of its rows and the rest of them are deleted. */
  method CollapseCollections(B: seq<Block>, sizes: seq<nat>, isCol: seq<bool>, m: nat, k: nat, kp: nat)
    returns (C: seq<Block>)
    requires Entries(sizes, isCol) && |B| == Total(sizes) && AllShape3(B, m, k, kp)
    ensures C == Collapsed(B, sizes, isCol, m, k, kp)
  {
    C := B;
    assert sizes[..0] == [];
    for i := 0 to |sizes|
      invariant Offset(sizes, i) <= |B| && |C| == i + (|B| - Offset(sizes, i))
      invariant forall s :: 0 <= s < i ==> C[s] == EntryRow(B, sizes, isCol, m, k, kp, s)
      invariant C[i..] == B[Offset(sizes, i)..]
    {
      OffsetStep(sizes, i);
      OffsetBound(sizes, i + 1);
      SlicesFrom(C, B, i, Offset(sizes, i), sizes[i]);
      if isCol[i] {
        var colLen := sizes[i];
        // row i becomes the sum of the Collection's rows, the rest of them go
        var rest := C[i + colLen..];
        C := C[..i] + [SumBlocks(C[i..i + colLen], m, k, kp)] + rest;
        assert C[i + 1..] == rest;
      }
    }
    assert sizes[..|sizes|] == sizes;
  }

  lemma {:induction false} TotalOnes(sizes: seq<nat>)
    requires forall s :: 0 <= s < |sizes| ==> sizes[s] >= 1
    ensures Total(sizes) >= |sizes|
    ensures Total(sizes) == |sizes| <==> forall s :: 0 <= s < |sizes| ==> sizes[s] == 1
  {
    if sizes != [] {
      var pre := sizes[..|sizes| - 1];
      TotalOnes(pre);
      assert forall s :: 0 <= s < |pre| ==> pre[s] == sizes[s];
    }
  }

  /** The summation is skipped unless the flattened list is longer than the
      top level, and that is sound: otherwise every Collection has exactly one
      source and summation changes nothing. */
  lemma CollapseGuard(B: seq<Block>, sizes: seq<nat>, isCol: seq<bool>, m: nat, k: nat, kp: nat)
    requires Entries(sizes, isCol) && |B| == Total(sizes) && AllShape3(B, m, k, kp)
    ensures |B| >= |sizes|
    ensures |B| == |sizes| ==> Collapsed(B, sizes, isCol, m, k, kp) == B
  {
    TotalOnes(sizes);
    if |B| == |sizes| {
      var r := Collapsed(B, sizes, isCol, m, k, kp);
      forall s | 0 <= s < |sizes| ensures r[s] == B[s] {
        OnesOffset(sizes, s);
        OffsetStep(sizes, s);
        OffsetBound(sizes, s + 1);
        SumSingle(B[s], m, k, kp);
        assert B[s..s + 1] == [B[s]];
      }
    }
  }

  lemma {:induction false} OnesOffset(sizes: seq<nat>, s: nat)
    requires s <= |sizes| && forall t :: 0 <= t < |sizes| ==> sizes[t] == 1
    ensures Offset(sizes, s) == s
  {
    if s > 0 {
      OnesOffset(sizes, s - 1);
      OffsetStep(sizes, s - 1);
    }
  }

  // ---------------------------------------------------------------------------
  // Back-rotation into the sensor frames

  /** The pixels of one sensor rotated by the inverse of orientation `q`. */
  function RotatePixels(px: seq<Vec3>, q: Quat, rot: RotateFn): (r: seq<Vec3>)
    ensures |r| == |px| && forall p :: 0 <= p < |px| ==> r[p] == rot(Inverse(q), px[p])
  {
    seq(|px|, p requires 0 <= p < |px| => rot(Inverse(q), px[p]))
  }

  /** The unit orientation needs no back-rotation. */
  lemma RotateUnit(px: seq<Vec3>, rot: RotateFn)
    requires IsRotation(rot)
    ensures RotatePixels(px, UnitQuat, rot) == px
  {
    var r := RotatePixels(px, UnitQuat, rot);
    InverseInvolution(UnitQuat);
    forall p | 0 <= p < |px| ensures r[p] == px[p] {
      assert r[p] == rot(UnitQuat, px[p]);
    }
  }

  /** Every field vector expressed in the frame its sensor has at that path
      step. */
  function RotatedBack(C: seq<Block>, orients: seq<seq<Quat>>, rot: RotateFn, m: nat, k: nat, kp: nat): (r: seq<Block>)
    requires Shape4(C, |C|, m, k, kp) && |orients| == k
    requires forall i :: 0 <= i < k ==> |orients[i]| == m
    ensures Shape4(r, |C|, m, k, kp)
    ensures forall s, j, i :: 0 <= s < |C| && 0 <= j < m && 0 <= i < k ==>
      r[s][j][i] == RotatePixels(C[s][j][i], orients[i][j], rot)
  {
    seq(|C|, s requires 0 <= s < |C| =>
      seq(m, j requires 0 <= j < m =>
        seq(k, i requires 0 <= i < k => RotatePixels(C[s][j][i], orients[i][j], rot))))
  }

  /** A path of orientations all equal to the first. */
  predicate Static(path: seq<Quat>) {
    forall t :: 0 <= t < |path| ==> path[t] == path[0]
  }

  /** A path of unit orientations only. */
  predicate Unrotated(path: seq<Quat>) {
    forall t :: 0 <= t < |path| ==> path[t] == UnitQuat
  }

  /** The back-rotation loop. Sensors flagged unrotated are skipped; a sensor
      flagged static is rotated by the inverse of its first orientation over
      the whole path in one step; any other sensor step by step with the
      inverse of its orientation at that step. The flags were taken from the
      paths before padding, which keeps both properties. */
  method BackRotate(C: seq<Block>, orients: seq<seq<Quat>>, unrotated: seq<bool>, isStatic: seq<bool>,
                    rot: RotateFn, m: nat, k: nat, kp: nat)
    returns (D: seq<Block>)
    requires Shape4(C, |C|, m, k, kp) && |orients| == k && |unrotated| == k && |isStatic| == k
    requires forall i :: 0 <= i < k ==> |orients[i]| == m
    requires forall i :: 0 <= i < k && unrotated[i] ==> Unrotated(orients[i])
    requires forall i :: 0 <= i < k && isStatic[i] ==> Static(orients[i])
    requires IsRotation(rot) && m > 0
    ensures D == RotatedBack(C, orients, rot, m, k, kp)
  {
    D := C;
    for i := 0 to k
      invariant Shape4(D, |C|, m, k, kp)
      invariant forall s, j, i' :: 0 <= s < |C| && 0 <= j < m && 0 <= i' < i ==>
        D[s][j][i'] == RotatePixels(C[s][j][i'], orients[i'][j], rot)
      invariant forall s, j, i' :: 0 <= s < |C| && 0 <= j < m && i <= i' < k ==> D[s][j][i'] == C[s][j][i']
    {
      if !unrotated[i] {
        if isStatic[i] {
          D := RotateSensor(D, i, orients[i][0], rot, m, k, kp);
          forall s, j | 0 <= s < |C| && 0 <= j < m
            ensures D[s][j][i] == RotatePixels(C[s][j][i], orients[i][j], rot)
          {
            assert orients[i][j] == orients[i][0];
          }
        } else {
          D := RotatePath(D, i, orients[i], rot, m, k, kp);
        }
      } else {
        forall s, j | 0 <= s < |C| && 0 <= j < m
          ensures D[s][j][i] == RotatePixels(C[s][j][i], orients[i][j], rot)
        {
          assert orients[i][j] == UnitQuat;
          RotateUnit(C[s][j][i], rot);
        }
      }
    }
    RowsEqual(D, RotatedBack(C, orients, rot, m, k, kp), |C|, m, k, kp);
  }

  /** The general case: sensor `i0`'s slice rotated step by step, path step
      `j` by the inverse of `path[j]`. */
  method RotatePath(D: seq<Block>, i0: nat, path: seq<Quat>, rot: RotateFn, m: nat, k: nat, kp: nat)
    returns (E: seq<Block>)
    requires Shape4(D, |D|, m, k, kp) && i0 < k && |path| == m
    ensures Shape4(E, |D|, m, k, kp)
    ensures forall s, j :: 0 <= s < |D| && 0 <= j < m ==> E[s][j][i0] == RotatePixels(D[s][j][i0], path[j], rot)
    ensures forall s, j, i :: 0 <= s < |D| && 0 <= j < m && 0 <= i < k && i != i0 ==> E[s][j][i] == D[s][j][i]
  {
    E := D;
    for j := 0 to m
      invariant Shape4(E, |D|, m, k, kp)
      invariant forall s, j', i :: 0 <= s < |D| && 0 <= j' < m && 0 <= i < k && i != i0 ==> E[s][j'][i] == D[s][j'][i]
      invariant forall s, j' :: 0 <= s < |D| && 0 <= j' < j ==> E[s][j'][i0] == RotatePixels(D[s][j'][i0], path[j'], rot)
      invariant forall s, j' :: 0 <= s < |D| && j <= j' < m ==> E[s][j'][i0] == D[s][j'][i0]
    {
      E := RotateStep(E, j, i0, path[j], rot, m, k, kp);
    }
  }

  /** The static case: sensor `i0`'s slice rotated over all path steps. */
  function RotateSensor(D: seq<Block>, i0: nat, q: Quat, rot: RotateFn, m: nat, k: nat, kp: nat): (r: seq<Block>)
    requires Shape4(D, |D|, m, k, kp) && i0 < k
    ensures Shape4(r, |D|, m, k, kp)
    ensures forall s, j :: 0 <= s < |D| && 0 <= j < m ==> r[s][j][i0] == RotatePixels(D[s][j][i0], q, rot)
    ensures forall s, j, i :: 0 <= s < |D| && 0 <= j < m && 0 <= i < k && i != i0 ==> r[s][j][i] == D[s][j][i]
  {
    seq(|D|, s requires 0 <= s < |D| =>
      seq(m, j requires 0 <= j < m => D[s][j][i0 := RotatePixels(D[s][j][i0], q, rot)]))
  }

  /** The general case: sensor `i0`'s slice at path step `j0` rotated. */
  function RotateStep(D: seq<Block>, j0: nat, i0: nat, q: Quat, rot: RotateFn, m: nat, k: nat, kp: nat): (r: seq<Block>)
    requires Shape4(D, |D|, m, k, kp) && j0 < m && i0 < k
    ensures Shape4(r, |D|, m, k, kp)
    ensures forall s :: 0 <= s < |D| ==> r[s][j0][i0] == RotatePixels(D[s][j0][i0], q, rot)
    ensures forall s, j, i :: 0 <= s < |D| && 0 <= j < m && 0 <= i < k && (j != j0 || i != i0) ==>
      r[s][j][i] == D[s][j][i]
  {
    seq(|D|, s requires 0 <= s < |D| =>
      D[s][j0 := D[s][j0][i0 := RotatePixels(D[s][j0][i0], q, rot)]])
  }

  /** Two arrays of shape (l, m, k, kp) agreeing on every pixel row are equal. */
  lemma RowsEqual(a: seq<Block>, b: seq<Block>, l: nat, m: nat, k: nat, kp: nat)
    requires Shape4(a, l, m, k, kp) && Shape4(b, l, m, k, kp)
    requires forall s, j, i :: 0 <= s < l && 0 <= j < m && 0 <= i < k ==> a[s][j][i] == b[s][j][i]
    ensures a == b
  {
    forall s | 0 <= s < l ensures a[s] == b[s] {
      forall j | 0 <= j < m ensures a[s][j] == b[s][j] {
      }
    }
  }
}
