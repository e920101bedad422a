/** Value types the scripts take from the engine: 2D and 3D vectors, an optional
    reference, and the one engine math function the controller calls. */
module EngineTypes {

  /** Rigidbody2D velocity. */
  datatype Vec2 = Vec2(x: real, y: real)

  /** Transform scale; the scripts use its x component as the facing sign. */
  datatype Vec3 = Vec3(x: real, y: real, z: real)

  /** A serialized reference that may be left unset in the editor. */
  datatype Option<T> = None | Some(value: T)

  /** Vector2.zero */
  const Zero2: Vec2 := Vec2(0.0, 0.0)

  /** Vector3.one */
  const One3: Vec3 := Vec3(1.0, 1.0, 1.0)

  /** Mathf.Sign: 1 for zero and for positive values, -1 for negative ones. */
  function Sign(x: real): (r: real)
    ensures r == 1.0 || r == -1.0
    ensures r == 1.0 <==> x >= 0.0
  {
    if x >= 0.0 then 1.0 else -1.0
  }
}
