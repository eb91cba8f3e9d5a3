// Two-dimensional position vectors over the reals, with the two vector
// operations the curve demo needs (in the original they come from a helper
// library; here they are defined directly).
module Vectors {

  /** A position vector in normalized device coordinates. */
  datatype Vec2 = Vec2(x: real, y: real)

  function Add(u: Vec2, v: Vec2): Vec2 {
    Vec2(u.x + v.x, u.y + v.y)
  }

  function Scale(s: real, v: Vec2): (r: Vec2)
    ensures s == 1.0 ==> r == v
    ensures s == 0.0 ==> r == Vec2(0.0, 0.0)
  {
    Vec2(s * v.x, s * v.y)
  }

  /** The vector seen as the two-element array of its coordinates, x first. */
  function Coords(v: Vec2): seq<real> {
    [v.x, v.y]
  }
}
