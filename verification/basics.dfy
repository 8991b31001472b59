/** Small value types shared by every module of the model. */
module Basics {

  /** Presence or absence of a value (a C++ null pointer or an unset text buffer). */
  datatype Option<+T> = None | Some(value: T)

  /** A point or vector of the physics world (Chipmunk's `cpVect`). Exact reals
      stand in for the engine's floats; the model only swaps and negates them. */
  datatype Vec = V(x: real, y: real)

  function Add(p: Vec, q: Vec): Vec { V(p.x + q.x, p.y + q.y) }

  function Sub(p: Vec, q: Vec): Vec { V(p.x - q.x, p.y - q.y) }

  function Scale(p: Vec, k: real): Vec { V(p.x * k, p.y * k) }

  function Neg(p: Vec): Vec { V(-p.x, -p.y) }

  /** Counter-clockwise quarter turn, Chipmunk's `cpvperp`. */
  function Perp(p: Vec): Vec { V(-p.y, p.x) }

  /** Clockwise quarter turn, Chipmunk's `cpvrperp`. */
  function RPerp(p: Vec): Vec { V(p.y, -p.x) }
}
