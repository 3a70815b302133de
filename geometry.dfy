/** Field vectors and orientations. Field values are exact real triples;
    an orientation is a quaternion `(x, y, z, w)` as scipy stores it. How a
    quaternion acts on a vector (scipy's `Rotation.apply`) is rotation
    mathematics outside this model: it is passed in as a function `RotateFn`. */
module Geometry {

  datatype Vec3 = Vec3(x: real, y: real, z: real)

  const Zero := Vec3(0.0, 0.0, 0.0)

  function Add(a: Vec3, b: Vec3): Vec3 {
    Vec3(a.x + b.x, a.y + b.y, a.z + b.z)
  }

  function Sub(a: Vec3, b: Vec3): Vec3 {
    Vec3(a.x - b.x, a.y - b.y, a.z - b.z)
  }

  /** Observer minus source position does not change when both are shifted
      by the same vector. */
  lemma SubShift(a: Vec3, b: Vec3, t: Vec3)
    ensures Sub(Add(a, t), Add(b, t)) == Sub(a, b)
  {
  }

  datatype Quat = Quat(x: real, y: real, z: real, w: real)

  /** The quaternion of the unit rotation, `[0, 0, 0, 1]`. */
  const UnitQuat := Quat(0.0, 0.0, 0.0, 1.0)

  /** scipy's `Rotation.inv()`: the conjugate quaternion. */
  function Inverse(q: Quat): Quat {
    Quat(-q.x, -q.y, -q.z, q.w)
  }

  /** Inverting twice gives the rotation back, and the unit rotation is its
      own inverse. */
  lemma InverseInvolution(q: Quat)
    ensures Inverse(Inverse(q)) == q
    ensures Inverse(q) == UnitQuat <==> q == UnitQuat
  {
  }

  /** `rot(q, v)` is `Rotation.from_quat(q).apply(v)`. */
  type RotateFn = (Quat, Vec3) -> Vec3

  /** The one property of rotation application the model relies on: the unit
      rotation leaves every vector as it is. */
  ghost predicate IsRotation(rot: RotateFn) {
    forall v :: rot(UnitQuat, v) == v
  }

  /** Sum of a sequence of vectors (the empty sum is the zero vector). */
  function SumVecs(vs: seq<Vec3>): Vec3 {
    if vs == [] then Zero else Add(vs[0], SumVecs(vs[1..]))
  }
}
