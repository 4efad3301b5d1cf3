/** Small value types shared by the whole overlay model. */
module Common {

  /** An optional value: Python's `None` or a present value. */
  datatype Option<+T> = None | Some(value: T)

  /** A point or direction in 3D, with real coordinates standing in for the
      floating-point triples the program hands to OpenGL. */
  datatype Vec3 = Vec3(x: real, y: real, z: real)
}
