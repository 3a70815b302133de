/** Packing one same-type bucket of sources into the row arrays of the dispatch
    (tile_* and get_src_dict). A bucket of `lg` sources is evaluated against
    `nPP = m * nPix` observation rows per source (`m` path steps, `nPix` pixels
    of all sensors together); row `s * nPP + x` pairs source `s` with
    observation row `x`. */
module Tiling {
  import opened Wrappers
  import opened Geometry
  import opened Objects
  import opened Seqs
  import opened Dispatch

  function Magnetizations(group: seq<Snapshot>): (r: seq<Vec3>)
    ensures |r| == |group|
    ensures forall s :: 0 <= s < |group| ==> r[s] == group[s].attrs.magnetization
  {
    seq(|group|, s requires 0 <= s < |group| => group[s].attrs.magnetization)
  }

  function Dimensions(group: seq<Snapshot>): (r: seq<seq<real>>)
    ensures |r| == |group|
    ensures forall s :: 0 <= s < |group| ==> r[s] == group[s].attrs.dimension
  {
    seq(|group|, s requires 0 <= s < |group| => group[s].attrs.dimension)
  }

  function Diameters(group: seq<Snapshot>): (r: seq<real>)
    ensures |r| == |group|
    ensures forall s :: 0 <= s < |group| ==> r[s] == group[s].attrs.diameter
  {
    seq(|group|, s requires 0 <= s < |group| => group[s].attrs.diameter)
  }

  function Moments(group: seq<Snapshot>): (r: seq<Vec3>)
    ensures |r| == |group|
    ensures forall s :: 0 <= s < |group| ==> r[s] == group[s].attrs.moment
  {
    seq(|group|, s requires 0 <= s < |group| => group[s].attrs.moment)
  }

  function Currents(group: seq<Snapshot>): (r: seq<real>)
    ensures |r| == |group|
    ensures forall s :: 0 <= s < |group| ==> r[s] == group[s].attrs.current
  {
    seq(|group|, s requires 0 <= s < |group| => group[s].attrs.current)
  }

  function VertexLists(group: seq<Snapshot>): (r: seq<seq<Vec3>>)
    ensures |r| == |group|
    ensures forall s :: 0 <= s < |group| ==> r[s] == group[s].attrs.vertices
  {
    seq(|group|, s requires 0 <= s < |group| => group[s].attrs.vertices)
  }

  function Positions(group: seq<Snapshot>): (r: seq<seq<Vec3>>)
    ensures |r| == |group|
    ensures forall s :: 0 <= s < |group| ==> r[s] == group[s].position
  {
    seq(|group|, s requires 0 <= s < |group| => group[s].position)
  }

  function Orientations(group: seq<Snapshot>): (r: seq<seq<Quat>>)
    ensures |r| == |group|
    ensures forall s :: 0 <= s < |group| ==> r[s] == group[s].orientation
  {
    seq(|group|, s requires 0 <= s < |group| => group[s].orientation)
  }

  /** tile_mag: row `i` carries the magnetization of source `i / nPP`. */
  function TileMag(group: seq<Snapshot>, nPP: nat): (r: seq<Vec3>)
    ensures |r| == |group| * nPP
    ensures forall i :: 0 <= i < |r| ==>
      nPP > 0 && 0 <= i / nPP < |group| && r[i] == group[i / nPP].attrs.magnetization
  {
    TileRows(Magnetizations(group), nPP)
  }

  /** tile_dim_cuboid, tile_dim_cylinder and tile_dim_cylinder_section: row `i`
      carries the dimension of source `i / nPP`. */
  function TileDimension(group: seq<Snapshot>, nPP: nat): (r: seq<seq<real>>)
    ensures |r| == |group| * nPP
    ensures forall i :: 0 <= i < |r| ==>
      nPP > 0 && 0 <= i / nPP < |group| && r[i] == group[i / nPP].attrs.dimension
  {
    TileRows(Dimensions(group), nPP)
  }

  /** tile_moment: row `i` carries the moment of source `i / nPP`. */
  function TileMoment(group: seq<Snapshot>, nPP: nat): (r: seq<Vec3>)
    ensures |r| == |group| * nPP
    ensures forall i :: 0 <= i < |r| ==>
      nPP > 0 && 0 <= i / nPP < |group| && r[i] == group[i / nPP].attrs.moment
  {
    TileRows(Moments(group), nPP)
  }

  /** tile_dia as written: numpy tiles a one-dimensional array whole, so row
      `i` carries the diameter of source `i % lg`. */
  function TileDiaAsWritten(group: seq<Snapshot>, nPP: nat): (r: seq<real>)
    ensures |r| == nPP * |group|
    ensures forall i :: 0 <= i < |r| ==> |group| > 0 && r[i] == group[i % |group|].attrs.diameter
  {
    RepeatWhole(Diameters(group), nPP)
  }

  /** tile_current as written: observation-major like tile_dia. */
  function TileCurrentAsWritten(group: seq<Snapshot>, nPP: nat): (r: seq<real>)
    ensures |r| == nPP * |group|
    ensures forall i :: 0 <= i < |r| ==> |group| > 0 && r[i] == group[i % |group|].attrs.current
  {
    RepeatWhole(Currents(group), nPP)
  }

  /** The diameter tiling the rest of the layout needs: source-major, row `i`
      carrying the diameter of source `i / nPP`. */
  function TileDia(group: seq<Snapshot>, nPP: nat): (r: seq<real>)
    ensures |r| == |group| * nPP
    ensures forall i :: 0 <= i < |r| ==>
      nPP > 0 && 0 <= i / nPP < |group| && r[i] == group[i / nPP].attrs.diameter
  {
    TileRows(Diameters(group), nPP)
  }

  /** The source-major current tiling. */
  function TileCurrent(group: seq<Snapshot>, nPP: nat): (r: seq<real>)
    ensures |r| == |group| * nPP
    ensures forall i :: 0 <= i < |r| ==>
      nPP > 0 && 0 <= i / nPP < |group| && r[i] == group[i / nPP].attrs.current
  {
    TileRows(Currents(group), nPP)
  }

  /** The two layouts agree when there is one source or one observation row,
      which is why single-source evaluations do not show the difference. */
  lemma TileDiaLayoutsAgree(group: seq<Snapshot>, nPP: nat)
    requires |group| == 1 || nPP == 1
    ensures TileDiaAsWritten(group, nPP) == TileDia(group, nPP)
    ensures TileCurrentAsWritten(group, nPP) == TileCurrent(group, nPP)
  {
    var a, b := TileDiaAsWritten(group, nPP), TileDia(group, nPP);
    var c, e := TileCurrentAsWritten(group, nPP), TileCurrent(group, nPP);
    if |group| == 1 {
      assert |a| == |b|;
      forall i | 0 <= i < |a| ensures a[i] == b[i] && c[i] == e[i] {
        assert i % 1 == 0;
      }
    } else {
      assert |a| == |b|;
      forall i | 0 <= i < |a| ensures a[i] == b[i] && c[i] == e[i] {
        DivModUnique(i, 1, i, 0);
      }
    }
  }

  /** With two sources of different diameter and at least two observation rows,
      row 1 belongs to source 0 but the as-written tiling gives it source 1's
      diameter. */
  lemma TileDiaAsWrittenMisaligned(group: seq<Snapshot>, nPP: nat)
    requires |group| >= 2 && nPP >= 2
    requires group[0].attrs.diameter != group[1].attrs.diameter
    ensures TileDia(group, nPP)[1] == group[0].attrs.diameter
    ensures TileDiaAsWritten(group, nPP)[1] == group[1].attrs.diameter
  {
    DivModUnique(1, nPP, 0, 1);
    DivModUnique(1, |group|, 0, 1);
    MulMonotone(1, |group|, nPP);
  }

  /** The same misalignment for the current of two Circular loops. */
  lemma TileCurrentAsWrittenMisaligned(group: seq<Snapshot>, nPP: nat)
    requires |group| >= 2 && nPP >= 2
    requires group[0].attrs.current != group[1].attrs.current
    ensures TileCurrent(group, nPP)[1] == group[0].attrs.current
    ensures TileCurrentAsWritten(group, nPP)[1] == group[1].attrs.current
  {
    DivModUnique(1, nPP, 0, 1);
    DivModUnique(1, |group|, 0, 1);
    MulMonotone(1, |group|, nPP);
  }

  function SphereOfDiameter(dia: real): Snapshot {
    Snapshot(Sphere, Attributes(Vec3(0.0, 0.0, 1.0), [], dia, Zero, 0.0, [], [], []),
             [Zero], [UnitQuat])
  }

  /** Two static Spheres of diameters 1 and 2 against two observation points. */
  lemma TileDiaTwoSpheres()
    ensures TileDiaAsWritten([SphereOfDiameter(1.0), SphereOfDiameter(2.0)], 2) == [1.0, 2.0, 1.0, 2.0]
    ensures TileDia([SphereOfDiameter(1.0), SphereOfDiameter(2.0)], 2) == [1.0, 1.0, 2.0, 2.0]
  {
    var g := [SphereOfDiameter(1.0), SphereOfDiameter(2.0)];
    var a, b := TileDiaAsWritten(g, 2), TileDia(g, 2);
    assert a[0] == 1.0 && a[1] == 2.0 && a[2] == 1.0 && a[3] == 2.0 by {
      DivModUnique(1, 2, 0, 1);
      DivModUnique(2, 2, 1, 0);
      DivModUnique(3, 2, 1, 1);
    }
    assert b[0] == 1.0 && b[1] == 1.0 && b[2] == 2.0 && b[3] == 2.0 by {
      DivModUnique(1, 2, 0, 1);
      DivModUnique(2, 2, 1, 0);
      DivModUnique(3, 2, 1, 1);
    }
  }

  /** The observation points of all sensors, step-major: `obs[j][i][p]` is pixel
      `p` of sensor `i` at path step `j`, and the flat row is `(j*k + i)*kp + p`. */
  function FlattenObs(obs: seq<seq<seq<Vec3>>>): seq<Vec3> {
    Flatten(seq(|obs|, j requires 0 <= j < |obs| => Flatten(obs[j])))
  }

  /** `obs` has `m` steps of `k` sensors of `kp` pixels. */
  ghost predicate ObsShape(obs: seq<seq<seq<Vec3>>>, m: nat, k: nat, kp: nat) {
    |obs| == m && forall j :: 0 <= j < m ==> Uniform(obs[j], kp) && |obs[j]| == k
  }

  lemma FlattenObsAt(obs: seq<seq<seq<Vec3>>>, m: nat, k: nat, kp: nat, j: nat, i: nat, p: nat)
    requires ObsShape(obs, m, k, kp) && j < m && i < k && p < kp
    ensures |FlattenObs(obs)| == m * (k * kp)
    ensures 0 <= (j * k + i) * kp + p < m * (k * kp) && FlattenObs(obs)[(j * k + i) * kp + p] == obs[j][i][p]
  {
    var rows := seq(|obs|, j requires 0 <= j < |obs| => Flatten(obs[j]));
    forall j' | 0 <= j' < m ensures |rows[j']| == k * kp {
      FlattenLength(obs[j'], kp);
    }
    FlattenIndex(rows, k * kp, j, i * kp + p) by {
      ChunkBound(i, k, kp);
    }
    FlattenIndex(obs[j], kp, i, p);
    IndexIdentities(0, j, i, p, m, k, kp);
    IndexBound(j, i, p, m, k, kp);
  }

  /** get_src_dict: the dispatch dictionary of a bucket. Positions and
      orientations are tiled per path step over the `nPix` pixels, the
      observation rows are repeated whole once per source, and the attribute
      keys follow the bucket's type tag. */
  function GetSrcDict(group: seq<Snapshot>, nPix: nat, nPP: nat, poso: seq<Vec3>): (r: Result<SrcDict>)
    ensures group == [] ==> r == Err(IndexError)
    ensures group != [] ==> (r.Err? <==> !IsSourceType(group[0].objectType))
    ensures r.Err? ==> r.error == IndexError || r.error == InternalError
    ensures r.Ok? ==>
      && r.value.sourceType == group[0].objectType
      && HasNeededKeys(r.value)
      && r.value.position == TileRows(Flatten(Positions(group)), nPix)
      && r.value.orientation == TileRows(Flatten(Orientations(group)), nPix)
      && r.value.observer == RepeatWhole(poso, |group|)
  {
    var posv := TileRows(Flatten(Positions(group)), nPix);
    var rotv := TileRows(Flatten(Orientations(group)), nPix);
    var posov := RepeatWhole(poso, |group|);
    if group == [] then Err(IndexError)
    else
      var t := group[0].objectType;
      var base := SrcDict(t, None, None, None, None, None, None, None, None, posv, posov, rotv);
      match t
      case Sphere =>
        Ok(base.(magnetization := Some(TileMag(group, nPP)), diameter := Some(TileDia(group, nPP))))
      case Cuboid =>
        Ok(base.(magnetization := Some(TileMag(group, nPP)), dimension := Some(TileDimension(group, nPP))))
      case Cylinder =>
        Ok(base.(magnetization := Some(TileMag(group, nPP)), dimension := Some(TileDimension(group, nPP))))
      case CylinderSegment =>
        Ok(base.(magnetization := Some(TileMag(group, nPP)), dimension := Some(TileDimension(group, nPP))))
      case Dipole =>
        Ok(base.(moment := Some(TileMoment(group, nPP))))
      case Circular =>
        Ok(base.(current := Some(TileCurrent(group, nPP)), diameter := Some(TileDia(group, nPP))))
      case Line =>
        Ok(base.(current := Some(Currents(group)), vertices := Some(VertexLists(group))))
      case _ => Err(InternalError)
  }

  /** A bucket as get_src_dict is called with it: sources of one kind whose
      paths all have the common length `m`, CylinderSegments with five-entry
      dimensions. */
  ghost predicate Bucket(group: seq<Snapshot>, m: nat) {
    && |group| > 0 && IsSourceType(group[0].objectType)
    && (forall s :: 0 <= s < |group| ==> group[s].objectType == group[0].objectType)
    && (forall s :: 0 <= s < |group| ==> |group[s].position| == m && |group[s].orientation| == m)
    && (group[0].objectType == CylinderSegment ==>
          forall s :: 0 <= s < |group| ==> |group[s].attrs.dimension| == 5)
  }

  /** What the source contributes at path step `j` and global point `o`: the
      kernel of its kind on the point in its own frame, rotated back. A Line is
      given by its vertices. */
  function SourceAt(bh: bool, ks: Kernels, rot: RotateFn, src: Snapshot, j: nat, o: Vec3): Vec3
    requires j < |src.position| && j < |src.orientation|
    requires src.objectType == CylinderSegment ==> |src.attrs.dimension| == 5
  {
    var q := src.orientation[j];
    var rel := rot(Inverse(q), Sub(o, src.position[j]));
    var a := src.attrs;
    var b := match src.objectType
      case Cuboid => ks.cuboid(bh, a.magnetization, a.dimension, rel)
      case Cylinder => ks.cylinder(bh, a.magnetization, a.dimension, rel)
      case CylinderSegment => ks.cylinderTile(bh, a.magnetization, SegmentToTile(a.dimension), rel)
      case Sphere => ks.sphere(bh, a.magnetization, a.diameter, rel)
      case Dipole => ks.dipole(bh, a.moment, rel)
      case Circular => ks.circular(bh, a.current, a.diameter, rel)
      case Line => ks.lineFromVert(bh, a.current, a.vertices, rel)
      case _ => Zero;
    rot(q, b)
  }

  /** Where row `s * nPP + (j*k + i)*kp + p` of the dictionary takes its
      position, orientation and observation point from. */
  lemma RowSources(group: seq<Snapshot>, m: nat, k: nat, kp: nat, obs: seq<seq<seq<Vec3>>>,
                   s: nat, j: nat, i: nat, p: nat) returns (row: nat)
    requires Bucket(group, m) && ObsShape(obs, m, k, kp)
    requires s < |group| && j < m && i < k && p < kp
    ensures row == s * (m * (k * kp)) + ((j * k + i) * kp + p)
    ensures (j * k + i) * kp + p < m * (k * kp) && |FlattenObs(obs)| == m * (k * kp)
    ensures row < |group| * (m * (k * kp))
    ensures row < |TileRows(Flatten(Positions(group)), k * kp)|
      && TileRows(Flatten(Positions(group)), k * kp)[row] == group[s].position[j]
    ensures row < |TileRows(Flatten(Orientations(group)), k * kp)|
      && TileRows(Flatten(Orientations(group)), k * kp)[row] == group[s].orientation[j]
    ensures row < |RepeatWhole(FlattenObs(obs), |group|)|
      && RepeatWhole(FlattenObs(obs), |group|)[row] == obs[j][i][p]
  {
    var nPix := k * kp;
    var nPP := m * nPix;
    var x := (j * k + i) * kp + p;
    assert s * nPP >= 0 && x >= 0 by {
      MulNonNeg(s, nPP);
      MulNonNeg(j * k + i, kp);
    }
    row := s * nPP + x;
    MulNonNeg(s, m);
    MulNonNeg(i, kp);
    var a: nat, q: nat := s * m + j, i * kp + p;
    IndexIdentities(s, j, i, p, m, k, kp);
    assert row == a * nPix + q;
    ChunkBound(i, k, kp);
    assert q < nPix;
    assert a < |group| * m by {
      ChunkBound(s, |group|, m);
    }
    FlattenObsAt(obs, m, k, kp, j, i, p);
    RepeatWholeAt(FlattenObs(obs), |group|, s, x, row);
    FlattenIndex(Positions(group), m, s, j);
    FlattenIndex(Orientations(group), m, s, j);
    TileRowsAt(Flatten(Positions(group)), nPix, a, q, row);
    TileRowsAt(Flatten(Orientations(group)), nPix, a, q, row);
  }

  /** The field of one source at path step `j` on the pixels of sensor `i`. */
  function FieldPixels(bh: bool, ks: Kernels, rot: RotateFn, src: Snapshot,
                       obs: seq<seq<seq<Vec3>>>, m: nat, k: nat, kp: nat, j: nat, i: nat): (r: seq<Vec3>)
    requires ObsShape(obs, m, k, kp) && j < m && i < k
    requires |src.position| >= m && |src.orientation| >= m
    requires src.objectType == CylinderSegment ==> |src.attrs.dimension| == 5
    ensures |r| == kp
    ensures forall p :: 0 <= p < kp ==> r[p] == SourceAt(bh, ks, rot, src, j, obs[j][i][p])
  {
    seq(kp, p requires 0 <= p < kp => SourceAt(bh, ks, rot, src, j, obs[j][i][p]))
  }

  /** The field of one source as a block `[j][i][p]`: path step, sensor, pixel. */
  function FieldBlock(bh: bool, ks: Kernels, rot: RotateFn, src: Snapshot,
                      obs: seq<seq<seq<Vec3>>>, m: nat, k: nat, kp: nat): (b: seq<seq<seq<Vec3>>>)
    requires ObsShape(obs, m, k, kp)
    requires |src.position| >= m && |src.orientation| >= m
    requires src.objectType == CylinderSegment ==> |src.attrs.dimension| == 5
    ensures Shape3(b, m, k, kp)
    ensures forall j, i, p :: 0 <= j < m && 0 <= i < k && 0 <= p < kp ==>
      b[j][i][p] == SourceAt(bh, ks, rot, src, j, obs[j][i][p])
  {
    seq(m, j requires 0 <= j < m =>
      seq(k, i requires 0 <= i < k => FieldPixels(bh, ks, rot, src, obs, m, k, kp, j, i)))
  }

  /** numpy's reshape of the flat dispatch output to (lg, m, k, kp). */
  function ReshapeGroup(out: seq<Vec3>, lg: nat, m: nat, k: nat, kp: nat): (r: seq<seq<seq<seq<Vec3>>>>)
    requires |out| == lg * (m * (k * kp))
    ensures Shape4(r, lg, m, k, kp)
  {
    var blocks := Chunk(out, lg, m * (k * kp));
    seq(lg, s requires 0 <= s < lg => Reshape3(blocks[s], m, k, kp))
  }

  lemma ReshapeGroupAt(out: seq<Vec3>, lg: nat, m: nat, k: nat, kp: nat, s: nat, j: nat, i: nat, p: nat)
    requires |out| == lg * (m * (k * kp))
    requires s < lg && j < m && i < k && p < kp
    ensures (j * k + i) * kp + p < m * (k * kp)
    ensures var x := s * (m * (k * kp)) + ((j * k + i) * kp + p);
      0 <= x < |out| && ReshapeGroup(out, lg, m, k, kp)[s][j][i][p] == out[x]
  {
    var nPP := m * (k * kp);
    var blocks := Chunk(out, lg, nPP);
    assert s * nPP >= 0 && (j * k + i) * kp >= 0 by {
      MulNonNeg(s, nPP);
      MulNonNeg(j * k + i, kp);
    }
    Reshape3At(blocks[s], m, k, kp, j, i, p);
    IndexIdentities(0, j, i, p, m, k, kp);
    ChunkAt(out, lg, nPP, s, (j * k + i) * kp + p);
  }

  /** The packing is right: for a bucket, get_src_dict and the dispatch succeed,
      and the output reshaped to (lg, m, k, kp) holds, for each source, its own
      field at every path step, sensor and pixel. */
  lemma GroupField(bh: bool, ks: Kernels, rot: RotateFn, group: seq<Snapshot>,
                   obs: seq<seq<seq<Vec3>>>, m: nat, k: nat, kp: nat)
    requires Bucket(group, m) && ObsShape(obs, m, k, kp)
    ensures var d := GetSrcDict(group, k * kp, m * (k * kp), FlattenObs(obs));
      && d.Ok?
      && GetBHLevel1(bh, d.value, ks, rot).Ok?
      && |GetBHLevel1(bh, d.value, ks, rot).value| == |group| * (m * (k * kp))
      && ReshapeGroup(GetBHLevel1(bh, d.value, ks, rot).value, |group|, m, k, kp)
         == seq(|group|, s requires 0 <= s < |group| => FieldBlock(bh, ks, rot, group[s], obs, m, k, kp))
  {
    var lg := |group|;
    var d := GetSrcDict(group, k * kp, m * (k * kp), FlattenObs(obs)).value;
    DispatchWellFormed(group, m, k, kp, obs);
    GetBHLevel1OkIff(bh, d, ks, rot);
    var out := GetBHLevel1(bh, d, ks, rot).value;
    var lhs := ReshapeGroup(out, lg, m, k, kp);
    var rhs := seq(lg, s requires 0 <= s < lg => FieldBlock(bh, ks, rot, group[s], obs, m, k, kp));
    forall s, j, i, p | 0 <= s < lg && 0 <= j < m && 0 <= i < k && 0 <= p < kp
      ensures lhs[s][j][i][p] == rhs[s][j][i][p]
    {
      PixelMatch(bh, ks, rot, group, obs, m, k, kp, s, j, i, p);
    }
    SeqEqual4(lhs, rhs, lg, m, k, kp);
  }

  /** One element of the reshaped output: source `s`, step `j`, sensor `i`, pixel `p`. */
  lemma PixelMatch(bh: bool, ks: Kernels, rot: RotateFn, group: seq<Snapshot>,
                   obs: seq<seq<seq<Vec3>>>, m: nat, k: nat, kp: nat, s: nat, j: nat, i: nat, p: nat)
    requires Bucket(group, m) && ObsShape(obs, m, k, kp)
    requires s < |group| && j < m && i < k && p < kp
    ensures var d := GetSrcDict(group, k * kp, m * (k * kp), FlattenObs(obs));
      && d.Ok?
      && GetBHLevel1(bh, d.value, ks, rot).Ok?
      && |GetBHLevel1(bh, d.value, ks, rot).value| == |group| * (m * (k * kp))
      && ReshapeGroup(GetBHLevel1(bh, d.value, ks, rot).value, |group|, m, k, kp)[s][j][i][p]
         == SourceAt(bh, ks, rot, group[s], j, obs[j][i][p])
  {
    var nPix := k * kp;
    var nPP := m * nPix;
    var poso := FlattenObs(obs);
    var d := GetSrcDict(group, nPix, nPP, poso).value;
    DispatchWellFormed(group, m, k, kp, obs);
    GetBHLevel1OkIff(bh, d, ks, rot);
    var out := GetBHLevel1(bh, d, ks, rot).value;
    var o := obs[j][i][p];
    var row := LocateRow(group, m, k, kp, obs, out, s, j, i, p);
    RowKernel(bh, ks, rot, group, m, nPix, nPP, poso, row, s, j, o);
  }

  /** The flat row that element `[s][j][i][p]` of the reshaped output comes from,
      and the dictionary entries of that row. */
  lemma LocateRow(group: seq<Snapshot>, m: nat, k: nat, kp: nat, obs: seq<seq<seq<Vec3>>>,
                  out: seq<Vec3>, s: nat, j: nat, i: nat, p: nat) returns (row: nat)
    requires Bucket(group, m) && ObsShape(obs, m, k, kp)
    requires s < |group| && j < m && i < k && p < kp
    requires |out| == |group| * (m * (k * kp))
    ensures m * (k * kp) > 0 && row < |out| && row / (m * (k * kp)) == s
    ensures ReshapeGroup(out, |group|, m, k, kp)[s][j][i][p] == out[row]
    ensures GetSrcDict(group, k * kp, m * (k * kp), FlattenObs(obs)).Ok?
    ensures var d := GetSrcDict(group, k * kp, m * (k * kp), FlattenObs(obs)).value;
      && row < |d.position| && d.position[row] == group[s].position[j]
      && row < |d.orientation| && d.orientation[row] == group[s].orientation[j]
      && row < |d.observer| && d.observer[row] == obs[j][i][p]
  {
    var nPP := m * (k * kp);
    var x := (j * k + i) * kp + p;
    assert s * nPP >= 0 && x >= 0 by {
      MulNonNeg(s, nPP);
      MulNonNeg(j * k + i, kp);
    }
    row := s * nPP + x;
    assert row < |out| && ReshapeGroup(out, |group|, m, k, kp)[s][j][i][p] == out[row] by {
      ReshapeGroupAt(out, |group|, m, k, kp, s, j, i, p);
    }
    assert x < nPP by {
      IndexBound(j, i, p, m, k, kp);
    }
    assert row / nPP == s by {
      DivModUnique(row, nPP, s, x);
    }
    FlattenObsLength(obs, m, k, kp);
    DictAligned(group, m, k * kp, nPP, FlattenObs(obs));
    var row2 := RowSources(group, m, k, kp, obs, s, j, i, p);
  }

  lemma FlattenObsLength(obs: seq<seq<seq<Vec3>>>, m: nat, k: nat, kp: nat)
    requires ObsShape(obs, m, k, kp)
    ensures |FlattenObs(obs)| == m * (k * kp)
  {
    var rows := seq(|obs|, j requires 0 <= j < |obs| => Flatten(obs[j]));
    forall j' | 0 <= j' < m ensures |rows[j']| == k * kp {
      FlattenLength(obs[j'], kp);
    }
    FlattenLength(rows, k * kp);
  }

  /** The dictionary of a bucket is in the dispatch's error-free domain. */
  lemma DispatchWellFormed(group: seq<Snapshot>, m: nat, k: nat, kp: nat, obs: seq<seq<seq<Vec3>>>)
    requires Bucket(group, m) && ObsShape(obs, m, k, kp)
    ensures GetSrcDict(group, k * kp, m * (k * kp), FlattenObs(obs)).Ok?
    ensures WellFormed(GetSrcDict(group, k * kp, m * (k * kp), FlattenObs(obs)).value)
    ensures |GetSrcDict(group, k * kp, m * (k * kp), FlattenObs(obs)).value.observer| == |group| * (m * (k * kp))
  {
    var nPix := k * kp;
    var nPP := m * nPix;
    var lg := |group|;
    var poso := FlattenObs(obs);
    FlattenObsLength(obs, m, k, kp);
    DictAligned(group, m, nPix, nPP, poso);
    var d := GetSrcDict(group, nPix, nPP, poso).value;
    if group[0].objectType == CylinderSegment {
      SegmentWidths(group, m, nPP);
    } else if group[0].objectType == Line {
      DivModUnique(lg * nPP, lg, nPP, 0);
    }
  }

  lemma DictAligned(group: seq<Snapshot>, m: nat, nPix: nat, nPP: nat, poso: seq<Vec3>)
    requires Bucket(group, m) && nPP == m * nPix && |poso| == nPP
    ensures GetSrcDict(group, nPix, nPP, poso).Ok?
    ensures var d := GetSrcDict(group, nPix, nPP, poso).value;
      Aligned(d) && |d.observer| == |group| * nPP
  {
    FlattenLength(Positions(group), m);
    FlattenLength(Orientations(group), m);
    MulAssoc(|group|, m, nPix);
  }

  lemma SegmentWidths(group: seq<Snapshot>, m: nat, nPP: nat)
    requires Bucket(group, m) && group[0].objectType == CylinderSegment
    ensures AllWidth(TileDimension(group, nPP), 5)
  {
    var dim := TileDimension(group, nPP);
    forall r | 0 <= r < |dim| ensures |dim[r]| == 5 {
      assert dim[r] == group[r / nPP].attrs.dimension;
    }
  }

  /** Row `row` of the dispatch output, which belongs to source `s` at path
      step `j` and observation point `o`, is that source's field there. */
  lemma RowKernel(bh: bool, ks: Kernels, rot: RotateFn, group: seq<Snapshot>, m: nat,
                  nPix: nat, nPP: nat, poso: seq<Vec3>, row: nat, s: nat, j: nat, o: Vec3)
    requires Bucket(group, m) && s < |group| && j < m
    requires GetSrcDict(group, nPix, nPP, poso).Ok?
    requires var d := GetSrcDict(group, nPix, nPP, poso).value;
      && WellFormed(d) && |d.observer| == |group| * nPP
      && row < |d.observer| && nPP > 0 && row / nPP == s
      && d.position[row] == group[s].position[j]
      && d.orientation[row] == group[s].orientation[j]
      && d.observer[row] == o
    ensures var d := GetSrcDict(group, nPix, nPP, poso).value;
      GetBHLevel1(bh, d, ks, rot).Ok? && row < |GetBHLevel1(bh, d, ks, rot).value|
      && GetBHLevel1(bh, d, ks, rot).value[row] == SourceAt(bh, ks, rot, group[s], j, o)
  {
    var d := GetSrcDict(group, nPix, nPP, poso).value;
    GetBHLevel1OkIff(bh, d, ks, rot);
    var rel := RelativePositions(d, rot);
    var kf := KernelField(bh, d, ks, rel).value;
    assert rel[row] == rot(Inverse(group[s].orientation[j]), Sub(o, group[s].position[j]));
    if group[0].objectType == Line {
      DivModUnique(|group| * nPP, |group|, nPP, 0);
    }
  }
}
