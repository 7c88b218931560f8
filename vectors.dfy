/**
 * Two-dimensional vectors over the reals.  The program's own vector module is
 * not part of this model; its operations are componentwise, so they are
 * written out here.  Floating point is not modelled: coordinates are reals.
 */
module Vectors {

  datatype Vec = Vec(x: real, y: real)

  const Zero: Vec := Vec(0.0, 0.0)

  function Add(a: Vec, b: Vec): Vec
  {
    Vec(a.x + b.x, a.y + b.y)
  }

  function Sub(a: Vec, b: Vec): Vec
  {
    Vec(a.x - b.x, a.y - b.y)
  }

  function Scale(a: Vec, k: real): Vec
  {
    Vec(a.x * k, a.y * k)
  }
}
