/** The vectorised field dispatch of one same-type batch (getBH_level1): move the
    observation points into the source frame, call the kernel of the batch's type
    tag on the keys that tag needs, and rotate the kernel's field back. */
module Dispatch {
  import opened Wrappers
  import opened Geometry
  import opened Objects
  import opened Seqs

  /** The closed-form field kernels, one value per input row. They are floating
      point numerics outside this model, so they are parameters. The first
      argument selects B (true) or H (false). */
  datatype Kernels = Kernels(
    cuboid: (bool, Vec3, seq<real>, Vec3) -> Vec3,
    cylinder: (bool, Vec3, seq<real>, Vec3) -> Vec3,
    cylinderTile: (bool, Vec3, seq<real>, Vec3) -> Vec3,
    sphere: (bool, Vec3, real, Vec3) -> Vec3,
    dipole: (bool, Vec3, Vec3) -> Vec3,
    circular: (bool, real, real, Vec3) -> Vec3,
    line: (bool, real, Vec3, Vec3, Vec3) -> Vec3,
    lineFromVert: (bool, real, seq<Vec3>, Vec3) -> Vec3)

  /** The keyword dictionary passed to the dispatch. Every key except the base
      keys (type tag, position, observer, orientation) may be absent. */
  datatype SrcDict = SrcDict(
    sourceType: ObjectType,
    magnetization: Option<seq<Vec3>>,
    dimension: Option<seq<seq<real>>>,
    diameter: Option<seq<real>>,
    moment: Option<seq<Vec3>>,
    current: Option<seq<real>>,
    vertices: Option<seq<seq<Vec3>>>,
    segmentStart: Option<seq<Vec3>>,
    segmentEnd: Option<seq<Vec3>>,
    position: seq<Vec3>,
    observer: seq<Vec3>,
    orientation: seq<Quat>)

  /** Position and orientation have one row per observation row. */
  predicate Aligned(d: SrcDict) {
    |d.position| == |d.observer| && |d.orientation| == |d.observer|
  }

  /** Every row has `w` entries. */
  predicate AllWidth(rows: seq<seq<real>>, w: nat) {
    forall r :: 0 <= r < |rows| ==> |rows[r]| == w
  }

  /** CylinderSegment dimension (d1, d2, h, phi1, phi2) as the cylinder-tile
      kernel wants it: (r1, r2, phi1, phi2, z1, z2). */
  function SegmentToTile(d: seq<real>): (t: seq<real>)
    requires |d| == 5
    ensures |t| == 6
    ensures 2.0 * t[0] == d[0] && 2.0 * t[1] == d[1]
    ensures t[2] == d[3] && t[3] == d[4]
    ensures t[5] - t[4] == d[2] && t[4] == -t[5]
  {
    [d[0] / 2.0, d[1] / 2.0, d[3], d[4], -d[2] / 2.0, d[2] / 2.0]
  }

  /** The inverse conversion, from a tile dimension centred on z = 0. */
  function TileToSegment(t: seq<real>): (d: seq<real>)
    requires |t| == 6
    ensures |d| == 5
  {
    [2.0 * t[0], 2.0 * t[1], t[5] - t[4], t[2], t[3]]
  }

  lemma SegmentTileRoundTrip(d: seq<real>, t: seq<real>)
    requires |d| == 5 && |t| == 6
    ensures TileToSegment(SegmentToTile(d)) == d
    ensures t[4] == -t[5] ==> SegmentToTile(TileToSegment(t)) == t
  {
  }

  /** Observation point `i` relative to the source, in the source frame. */
  function RelativePositions(d: SrcDict, rot: RotateFn): (rel: seq<Vec3>)
    requires Aligned(d)
    ensures |rel| == |d.observer|
    ensures forall i :: 0 <= i < |rel| ==>
      rel[i] == rot(Inverse(d.orientation[i]), Sub(d.observer[i], d.position[i]))
  {
    seq(|d.observer|, i requires 0 <= i < |d.observer| =>
      rot(Inverse(d.orientation[i]), Sub(d.observer[i], d.position[i])))
  }

  /** The line-from-vertices kernel over a batch: it tiles the per-source currents
      and vertex lists itself, source-major, `n / |vertices|` rows per source. */
  function LineFromVertBatch(bh: bool, ks: Kernels, current: seq<real>,
                             vertices: seq<seq<Vec3>>, rel: seq<Vec3>): (r: Result<seq<Vec3>>)
    ensures r.Ok? <==> |vertices| > 0 && |current| == |vertices| && |rel| % |vertices| == 0
    ensures r.Ok? ==> |r.value| == |rel|
    ensures r.Err? ==> r.error == BadShape
  {
    var nv := |vertices|;
    if nv == 0 || |current| != nv || |rel| % nv != 0 then Err(BadShape)
    else
      var npp := |rel| / nv;
      Ok(seq(|rel|, i requires 0 <= i < |rel| =>
        DivSplit(i, nv, npp);
        ks.lineFromVert(bh, current[i / npp], vertices[i / npp], rel[i])))
  }

  /** The kernel call of the dispatch, on observation points already in the
      source frame. Keys are read in the order the tag's branch reads them. */
  function KernelField(bh: bool, d: SrcDict, ks: Kernels, rel: seq<Vec3>): (r: Result<seq<Vec3>>)
    ensures r.Ok? ==> |r.value| == |rel|
    ensures r == Err(InternalError) <==> !IsSourceType(d.sourceType)
    ensures r.Ok? ==> HasNeededKeys(d)
  {
    var n := |rel|;
    match d.sourceType
    case Cuboid =>
      if d.magnetization.None? then Err(MissingKey("magnetization"))
      else if d.dimension.None? then Err(MissingKey("dimension"))
      else
        var mag, dim := d.magnetization.value, d.dimension.value;
        if |mag| != n || |dim| != n then Err(BadShape)
        else Ok(seq(n, i requires 0 <= i < n => ks.cuboid(bh, mag[i], dim[i], rel[i])))
    case Cylinder =>
      if d.magnetization.None? then Err(MissingKey("magnetization"))
      else if d.dimension.None? then Err(MissingKey("dimension"))
      else
        var mag, dim := d.magnetization.value, d.dimension.value;
        if |mag| != n || |dim| != n then Err(BadShape)
        else Ok(seq(n, i requires 0 <= i < n => ks.cylinder(bh, mag[i], dim[i], rel[i])))
    case CylinderSegment =>
      if d.magnetization.None? then Err(MissingKey("magnetization"))
      else if d.dimension.None? then Err(MissingKey("dimension"))
      else
        var mag, dim := d.magnetization.value, d.dimension.value;
        if !AllWidth(dim, 5) || |mag| != n || |dim| != n then Err(BadShape)
        else Ok(seq(n, i requires 0 <= i < n =>
          ks.cylinderTile(bh, mag[i], SegmentToTile(dim[i]), rel[i])))
    case Sphere =>
      if d.magnetization.None? then Err(MissingKey("magnetization"))
      else if d.diameter.None? then Err(MissingKey("diameter"))
      else
        var mag, dia := d.magnetization.value, d.diameter.value;
        if |mag| != n || |dia| != n then Err(BadShape)
        else Ok(seq(n, i requires 0 <= i < n => ks.sphere(bh, mag[i], dia[i], rel[i])))
    case Dipole =>
      if d.moment.None? then Err(MissingKey("moment"))
      else
        var mom := d.moment.value;
        if |mom| != n then Err(BadShape)
        else Ok(seq(n, i requires 0 <= i < n => ks.dipole(bh, mom[i], rel[i])))
    case Circular =>
      if d.current.None? then Err(MissingKey("current"))
      else if d.diameter.None? then Err(MissingKey("diameter"))
      else
        var cur, dia := d.current.value, d.diameter.value;
        if |cur| != n || |dia| != n then Err(BadShape)
        else Ok(seq(n, i requires 0 <= i < n => ks.circular(bh, cur[i], dia[i], rel[i])))
    case Line =>
      if d.current.None? then Err(MissingKey("current"))
      else if d.vertices.Some? then
        LineFromVertBatch(bh, ks, d.current.value, d.vertices.value, rel)
      else if d.segmentStart.None? then Err(MissingKey("segment_start"))
      else if d.segmentEnd.None? then Err(MissingKey("segment_end"))
      else
        var cur, st, en := d.current.value, d.segmentStart.value, d.segmentEnd.value;
        if |cur| != n || |st| != n || |en| != n then Err(BadShape)
        else Ok(seq(n, i requires 0 <= i < n => ks.line(bh, cur[i], st[i], en[i], rel[i])))
    case _ => Err(InternalError)
  }

  /** The keys the dispatch reads for the dictionary's type tag are present. */
  predicate HasNeededKeys(d: SrcDict) {
    match d.sourceType
    case Cuboid => d.magnetization.Some? && d.dimension.Some?
    case Cylinder => d.magnetization.Some? && d.dimension.Some?
    case CylinderSegment => d.magnetization.Some? && d.dimension.Some?
    case Sphere => d.magnetization.Some? && d.diameter.Some?
    case Dipole => d.moment.Some?
    case Circular => d.current.Some? && d.diameter.Some?
    case Line =>
      d.current.Some? && (d.vertices.Some? || (d.segmentStart.Some? && d.segmentEnd.Some?))
    case _ => false
  }

  /** getBH_level1: one field row per observation row, in the global frame. */
  function GetBHLevel1(bh: bool, d: SrcDict, ks: Kernels, rot: RotateFn): (r: Result<seq<Vec3>>)
    ensures r.Ok? ==> Aligned(d) && HasNeededKeys(d) && |r.value| == |d.observer|
    ensures r == Err(InternalError) <==> Aligned(d) && !IsSourceType(d.sourceType)
    ensures !Aligned(d) ==> r == Err(BadShape)
  {
    if !Aligned(d) then Err(BadShape)
    else
      var rel := RelativePositions(d, rot);
      match KernelField(bh, d, ks, rel)
      case Err(e) => Err(e)
      case Ok(b) => Ok(RotateBack(b, d.orientation, rot))
  }

  /** Row `i` of `b` rotated by `qs[i]`. */
  function RotateBack(b: seq<Vec3>, qs: seq<Quat>, rot: RotateFn): (r: seq<Vec3>)
    requires |qs| == |b|
    ensures |r| == |b|
    ensures forall i :: 0 <= i < |b| ==> r[i] == rot(qs[i], b[i])
  {
    seq(|b|, i requires 0 <= i < |b| => rot(qs[i], b[i]))
  }

  /** Two dictionaries that agree on the base keys and on every key their common
      type tag reads. For a Line, the presence of `vertices` picks the branch. */
  predicate SameNeededKeys(d1: SrcDict, d2: SrcDict) {
    && d1.sourceType == d2.sourceType
    && d1.position == d2.position && d1.observer == d2.observer
    && d1.orientation == d2.orientation
    && match d1.sourceType
       case Cuboid => d1.magnetization == d2.magnetization && d1.dimension == d2.dimension
       case Cylinder => d1.magnetization == d2.magnetization && d1.dimension == d2.dimension
       case CylinderSegment =>
         d1.magnetization == d2.magnetization && d1.dimension == d2.dimension
       case Sphere => d1.magnetization == d2.magnetization && d1.diameter == d2.diameter
       case Dipole => d1.moment == d2.moment
       case Circular => d1.current == d2.current && d1.diameter == d2.diameter
       case Line =>
         d1.current == d2.current && d1.vertices == d2.vertices
         && (d1.vertices.None? ==>
               d1.segmentStart == d2.segmentStart && d1.segmentEnd == d2.segmentEnd)
       case _ => true
  }

  /** Only the keys the type tag needs are read: the others cannot change the result. */
  lemma OnlyNeededKeysRead(bh: bool, d1: SrcDict, d2: SrcDict, ks: Kernels, rot: RotateFn)
    requires SameNeededKeys(d1, d2)
    ensures GetBHLevel1(bh, d1, ks, rot) == GetBHLevel1(bh, d2, ks, rot)
  {
    if Aligned(d1) {
      var rel := RelativePositions(d1, rot);
      assert rel == RelativePositions(d2, rot);
      assert KernelField(bh, d1, ks, rel) == KernelField(bh, d2, ks, rel);
    }
  }

  /** The line kernel is chosen by the presence of `vertices`: with it, row `i` is
      the vertex kernel of source `i / (n / |vertices|)`; without it, the segment
      kernel of row `i`. */
  lemma LineBranch(bh: bool, d: SrcDict, ks: Kernels, rot: RotateFn, i: nat)
    requires d.sourceType == Line && GetBHLevel1(bh, d, ks, rot).Ok?
    requires i < |d.observer|
    ensures var rel := RelativePositions(d, rot);
      var out := GetBHLevel1(bh, d, ks, rot).value;
      if d.vertices.Some? then
        var nv := |d.vertices.value|;
        nv > 0 && |d.observer| % nv == 0 && 0 <= i / (|d.observer| / nv) < nv
        && |d.current.value| == nv
        && out[i] == rot(d.orientation[i], ks.lineFromVert(bh,
             d.current.value[i / (|d.observer| / nv)], d.vertices.value[i / (|d.observer| / nv)], rel[i]))
      else
        && |d.current.value| == |d.observer|
        && |d.segmentStart.value| == |d.observer| && |d.segmentEnd.value| == |d.observer|
        && out[i] == rot(d.orientation[i], ks.line(bh, d.current.value[i],
             d.segmentStart.value[i], d.segmentEnd.value[i], rel[i]))
  {
    var rel := RelativePositions(d, rot);
    if d.vertices.Some? {
      var nv := |d.vertices.value|;
      DivSplit(i, nv, |d.observer| / nv);
    }
  }

  /** Moving source and observation points by the same offset leaves the field
      unchanged: the kernel only sees the difference. */
  lemma TranslationInvariant(bh: bool, d: SrcDict, ks: Kernels, rot: RotateFn, t: Vec3)
    ensures GetBHLevel1(bh, d, ks, rot)
         == GetBHLevel1(bh, d.(position := Translate(d.position, t), observer := Translate(d.observer, t)), ks, rot)
  {
    var d' := d.(position := Translate(d.position, t), observer := Translate(d.observer, t));
    if Aligned(d) {
      forall i | 0 <= i < |d.observer|
        ensures Sub(d'.observer[i], d'.position[i]) == Sub(d.observer[i], d.position[i])
      {
        SubShift(d.observer[i], d.position[i], t);
      }
      assert RelativePositions(d, rot) == RelativePositions(d', rot);
    }
  }

  function Translate(vs: seq<Vec3>, t: Vec3): (r: seq<Vec3>)
    ensures |r| == |vs|
    ensures forall i :: 0 <= i < |vs| ==> r[i] == Add(vs[i], t)
  {
    seq(|vs|, i requires 0 <= i < |vs| => Add(vs[i], t))
  }

  /** Observer minus source position, row by row, with no rotation. */
  function Offsets(d: SrcDict): (r: seq<Vec3>)
    requires Aligned(d)
    ensures |r| == |d.observer|
    ensures forall i :: 0 <= i < |r| ==> r[i] == Sub(d.observer[i], d.position[i])
  {
    seq(|d.observer|, i requires 0 <= i < |d.observer| => Sub(d.observer[i], d.position[i]))
  }

  /** Rotating back by the unit rotation on every row changes nothing. */
  lemma RotateBackUnit(b: seq<Vec3>, qs: seq<Quat>, rot: RotateFn)
    requires IsRotation(rot) && |qs| == |b|
    requires forall i :: 0 <= i < |qs| ==> qs[i] == UnitQuat
    ensures RotateBack(b, qs, rot) == b
  {
  }

  /** With the unit rotation on every row the dispatch is the bare kernel on
      observer minus position. */
  lemma UnrotatedSources(bh: bool, d: SrcDict, ks: Kernels, rot: RotateFn)
    requires IsRotation(rot) && Aligned(d)
    requires forall i :: 0 <= i < |d.orientation| ==> d.orientation[i] == UnitQuat
    ensures GetBHLevel1(bh, d, ks, rot) == KernelField(bh, d, ks, Offsets(d))
  {
    var rel := RelativePositions(d, rot);
    forall i | 0 <= i < |rel| ensures rel[i] == Offsets(d)[i] {
      InverseInvolution(d.orientation[i]);
    }
    assert rel == Offsets(d);
    var kf := KernelField(bh, d, ks, rel);
    if kf.Ok? {
      RotateBackUnit(kf.value, d.orientation, rot);
    }
  }

  /** The error-free domain of the dispatch: aligned rows, a source tag, the keys
      its branch reads, one row of each per observation row (per source for the
      vertex kernel), and five-entry CylinderSegment dimensions. */
  predicate WellFormed(d: SrcDict) {
    var n := |d.observer|;
    && Aligned(d)
    && match d.sourceType
       case Cuboid =>
         d.magnetization.Some? && d.dimension.Some?
         && |d.magnetization.value| == n && |d.dimension.value| == n
       case Cylinder =>
         d.magnetization.Some? && d.dimension.Some?
         && |d.magnetization.value| == n && |d.dimension.value| == n
       case CylinderSegment =>
         d.magnetization.Some? && d.dimension.Some?
         && |d.magnetization.value| == n && |d.dimension.value| == n
         && AllWidth(d.dimension.value, 5)
       case Sphere =>
         d.magnetization.Some? && d.diameter.Some?
         && |d.magnetization.value| == n && |d.diameter.value| == n
       case Dipole => d.moment.Some? && |d.moment.value| == n
       case Circular =>
         d.current.Some? && d.diameter.Some?
         && |d.current.value| == n && |d.diameter.value| == n
       case Line =>
         d.current.Some? &&
         if d.vertices.Some? then
           |d.vertices.value| > 0 && |d.current.value| == |d.vertices.value|
           && n % |d.vertices.value| == 0
         else
           d.segmentStart.Some? && d.segmentEnd.Some?
           && |d.current.value| == n && |d.segmentStart.value| == n && |d.segmentEnd.value| == n
       case _ => false
  }

  lemma GetBHLevel1OkIff(bh: bool, d: SrcDict, ks: Kernels, rot: RotateFn)
    ensures GetBHLevel1(bh, d, ks, rot).Ok? <==> WellFormed(d)
  {
  }

  /** The one kernel the type tag selects, applied to the attributes of row
      `i` at the point `x` of the source frame. A Line with `vertices` uses the
      vertex list and current of source `i / (n / |vertices|)`. */
  function TagKernel(bh: bool, d: SrcDict, ks: Kernels, i: nat, x: Vec3): Vec3
    requires WellFormed(d) && i < |d.observer|
  {
    match d.sourceType
    case Cuboid => ks.cuboid(bh, d.magnetization.value[i], d.dimension.value[i], x)
    case Cylinder => ks.cylinder(bh, d.magnetization.value[i], d.dimension.value[i], x)
    case CylinderSegment =>
      ks.cylinderTile(bh, d.magnetization.value[i], SegmentToTile(d.dimension.value[i]), x)
    case Sphere => ks.sphere(bh, d.magnetization.value[i], d.diameter.value[i], x)
    case Dipole => ks.dipole(bh, d.moment.value[i], x)
    case Circular => ks.circular(bh, d.current.value[i], d.diameter.value[i], x)
    case Line =>
      if d.vertices.Some? then
        var nv := |d.vertices.value|;
        var npp := |d.observer| / nv;
        DivSplit(i, nv, npp);
        ks.lineFromVert(bh, d.current.value[i / npp], d.vertices.value[i / npp], x)
      else
        ks.line(bh, d.current.value[i], d.segmentStart.value[i], d.segmentEnd.value[i], x)
    case _ => Zero
  }

  /** Every row of a well-formed dispatch: the observation point minus the
      source position, rotated into the source frame, goes to the kernel of the
      tag, and the kernel's field is rotated back by the same orientation. */
  lemma DispatchRow(bh: bool, d: SrcDict, ks: Kernels, rot: RotateFn, i: nat)
    requires WellFormed(d) && i < |d.observer|
    ensures GetBHLevel1(bh, d, ks, rot).Ok?
    ensures GetBHLevel1(bh, d, ks, rot).value[i]
         == rot(d.orientation[i],
                TagKernel(bh, d, ks, i, rot(Inverse(d.orientation[i]), Sub(d.observer[i], d.position[i]))))
  {
    GetBHLevel1OkIff(bh, d, ks, rot);
    if d.sourceType == Line && d.vertices.Some? {
      var nv := |d.vertices.value|;
      DivSplit(i, nv, |d.observer| / nv);
    }
  }
}
