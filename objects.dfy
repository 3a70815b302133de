/** The objects the field layer works on: magnets, currents, the dipole and
    sensors. In the library they share a base class holding a position path and
    an orientation path; here they are one class with a fixed type tag and a
    fixed attribute record. */
module Objects {
  import opened Wrappers
  import opened Geometry

  /** The `_object_type` tag. The first seven are the source kinds the field
      kernels know; `Other` stands for any other tag string. */
  datatype ObjectType =
    | Cuboid | Cylinder | CylinderSegment | Sphere | Dipole | Circular | Line
    | Sensor
    | Other(name: string)

  predicate IsSourceType(t: ObjectType) {
    !t.Sensor? && !t.Other?
  }

  /** Number of fixed source buckets. */
  const NumBuckets: nat := 7

  /** The bucket each source kind is sorted into, in the order of the
      grouping loop; every other tag has none. */
  function GroupIndex(t: ObjectType): (g: Option<nat>)
    ensures g.Some? <==> IsSourceType(t)
    ensures g.Some? ==> g.value < NumBuckets
  {
    match t
    case Cuboid => Some(0)
    case Cylinder => Some(1)
    case CylinderSegment => Some(2)
    case Sphere => Some(3)
    case Dipole => Some(4)
    case Circular => Some(5)
    case Line => Some(6)
    case _ => None
  }

  /** The source kind of bucket `g`. */
  function BucketType(g: nat): ObjectType
    requires g < NumBuckets
  {
    [Cuboid, Cylinder, CylinderSegment, Sphere, Dipole, Circular, Line][g]
  }

  /** Buckets and source kinds correspond one to one. */
  lemma BucketTypeInverse(t: ObjectType, g: nat)
    requires g < NumBuckets
    ensures GroupIndex(BucketType(g)) == Some(g)
    ensures GroupIndex(t) == Some(g) <==> t == BucketType(g)
  {
  }

  /** Every attribute slot an object can carry; each kind uses the ones its
      type needs: magnets `magnetization` and `dimension` (a Sphere its
      `diameter`), a Circular loop `current` and `diameter`, a Line `current`
      and `vertices`, a Dipole `moment`, a Sensor `pixel`, stored flat, with
      `pixelShape` the leading axes of its pixel array (without the trailing 3). */
  datatype Attributes = Attributes(
    magnetization: Vec3,
    dimension: seq<real>,
    diameter: real,
    moment: Vec3,
    current: real,
    vertices: seq<Vec3>,
    pixel: seq<Vec3>,
    pixelShape: seq<nat>)

  /** The state of an object at one moment. */
  datatype Snapshot = Snapshot(
    objectType: ObjectType,
    attrs: Attributes,
    position: seq<Vec3>,
    orientation: seq<Quat>)

  /** What construction guarantees of a path: not empty, and as many
      orientations as positions. */
  predicate ValidPath(s: Snapshot) {
    |s.position| >= 1 && |s.orientation| == |s.position|
  }

  /** Product of the entries of a shape. */
  function Product(shape: seq<nat>): nat {
    if shape == [] then 1 else shape[0] * Product(shape[1..])
  }

  class MagObject {
    const objectType: ObjectType
    const attrs: Attributes
    var position: seq<Vec3>
    var orientation: seq<Quat>

    constructor (objectType: ObjectType, attrs: Attributes, position: seq<Vec3>, orientation: seq<Quat>)
      ensures this.objectType == objectType && this.attrs == attrs
      ensures this.position == position && this.orientation == orientation
    {
      this.objectType := objectType;
      this.attrs := attrs;
      this.position := position;
      this.orientation := orientation;
    }

    function Snap(): Snapshot
      reads this
    {
      Snapshot(objectType, attrs, position, orientation)
    }
  }

  function Snaps(objs: seq<MagObject>): (r: seq<Snapshot>)
    reads objs
    ensures |r| == |objs|
    ensures forall i :: 0 <= i < |objs| ==> r[i] == objs[i].Snap()
  {
    seq(|objs|, i reads objs requires 0 <= i < |objs| => objs[i].Snap())
  }
}
