/** Vocabulary shared by the physics and visibility systems. */
module Common {
  /** Entity ids are strings in the engine. */
  type EntityId = string

  /** A JavaScript value that may be `undefined`. */
  datatype Option<+T> = None | Some(value: T)

  /** A 2D vector; the engine's floating-point coordinates are modelled as integers. */
  datatype Vec2 = Vec2(x: int, y: int)
}
