/**
 * Three-component vectors. `Vec3` stands for the THREE.Vector3 values the
 * simulation passes around (world coordinates, velocities); `Cell` is an
 * integer voxel coordinate.
 */
module Geometry {

  datatype Axis = X | Y | Z

  datatype Vec3 = Vec3(x: real, y: real, z: real)

  datatype Cell = Cell(x: int, y: int, z: int)

  const Zero := Vec3(0.0, 0.0, 0.0)

  /** `v[axis]` */
  function Component(v: Vec3, axis: Axis): real
  {
    match axis
    case X => v.x
    case Y => v.y
    case Z => v.z
  }

  /** `v[axis] = value` on a copy of `v`. */
  function WithComponent(v: Vec3, axis: Axis, value: real): (r: Vec3)
    ensures Component(r, axis) == value
    ensures forall other :: other != axis ==> Component(r, other) == Component(v, other)
  {
    match axis
    case X => v.(x := value)
    case Y => v.(y := value)
    case Z => v.(z := value)
  }

  function Add(a: Vec3, b: Vec3): Vec3
  {
    Vec3(a.x + b.x, a.y + b.y, a.z + b.z)
  }

  function Sub(a: Vec3, b: Vec3): Vec3
  {
    Vec3(a.x - b.x, a.y - b.y, a.z - b.z)
  }

  function Scale(v: Vec3, k: real): Vec3
  {
    Vec3(v.x * k, v.y * k, v.z * k)
  }

  function Dot(a: Vec3, b: Vec3): real
  {
    a.x * b.x + a.y * b.y + a.z * b.z
  }

  function LengthSq(v: Vec3): real
  {
    Dot(v, v)
  }

  /** The integer cell as a real vector. */
  function CellVec(c: Cell): Vec3
  {
    Vec3(c.x as real, c.y as real, c.z as real)
  }

  /** `THREE.MathUtils.clamp(value, lo, hi)`, i.e. `max(lo, min(hi, value))`. */
  function Clamp(value: real, lo: real, hi: real): (r: real)
    ensures lo <= hi ==> lo <= r <= hi
    ensures lo <= value <= hi ==> r == value
    ensures lo <= hi && value < lo ==> r == lo
    ensures lo <= hi && value > hi ==> r == hi
  {
    var m := if value < hi then value else hi;
    if m > lo then m else lo
  }

  function Min(a: real, b: real): real { if a < b then a else b }

  function Max(a: real, b: real): real { if a > b then a else b }

  function MinInt(a: int, b: int): int { if a < b then a else b }

  function MaxInt(a: int, b: int): int { if a > b then a else b }
}
