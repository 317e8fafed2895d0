/** Small value types shared by the head-tracking and scene modules. */
module Common {

  /** A value that may be absent: TypeScript's `T | null`. */
  datatype Option<+T> = None | Some(value: T)

  /** A three-component vector, the shape of Three.js `position`, `rotation` and `scale`. */
  datatype Vec3 = Vec3(x: real, y: real, z: real)

  function Abs(v: real): (r: real)
    ensures r >= 0.0
    ensures r == v || r == -v
  {
    if v < 0.0 then -v else v
  }
}
