/**
  Two-dimensional vectors. `Vec2` stands for `sf::Vector2f`; the model uses exact
  real arithmetic instead of single-precision floats.
 */
module Geometry {

  datatype Vec2 = Vec2(x: real, y: real)

  /** The value of a default-constructed vector. */
  const Zero: Vec2 := Vec2(0.0, 0.0)

  function Add(a: Vec2, b: Vec2): Vec2 {
    Vec2(a.x + b.x, a.y + b.y)
  }

  function Sub(a: Vec2, b: Vec2): Vec2 {
    Vec2(a.x - b.x, a.y - b.y)
  }

  /** `v` scaled by the factor `k`. */
  function Scale(k: real, v: real): real {
    k * v
  }

  /** Componentwise (Hadamard) product, as written out field by field in the source. */
  function Mul(a: Vec2, b: Vec2): Vec2 {
    Vec2(a.x * b.x, a.y * b.y)
  }

  /** The two axes of the plane; layouts name one of them the primary axis. */
  datatype Axis = X | Y

  function Other(axis: Axis): Axis {
    if axis == X then Y else X
  }

  /** The component of `v` along `axis`. */
  function Get(v: Vec2, axis: Axis): real {
    if axis == X then v.x else v.y
  }

  /** The vector whose component along `axis` is `along` and along the other axis is `across`. */
  function Compose(axis: Axis, along: real, across: real): (r: Vec2)
    ensures Get(r, axis) == along && Get(r, Other(axis)) == across
  {
    if axis == X then Vec2(along, across) else Vec2(across, along)
  }

  /** A factor distributes over a sum. */
  lemma ScaleAdds(k: real, a: real, c: real)
    ensures Scale(k, a) + Scale(k, c) == Scale(k, a + c)
  {
  }

  /** Reading one component commutes with the componentwise operations. */
  lemma GetDistributes(a: Vec2, b: Vec2, axis: Axis)
    ensures Get(Add(a, b), axis) == Get(a, axis) + Get(b, axis)
    ensures Get(Sub(a, b), axis) == Get(a, axis) - Get(b, axis)
    ensures Get(Mul(a, b), axis) == Get(a, axis) * Get(b, axis)
  {
  }
}
