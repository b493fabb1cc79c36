/** Coordinate pairs and polylines (svg2polylines/src/lib.rs, `CoordinatePair`
    and `Polyline`). An `f64` coordinate is modelled as an exact `real`, so
    resolving a relative coordinate is exact addition. */
module Geometry {

  /** A point of a polyline: an x and a y coordinate. */
  datatype Pair = Pair(x: real, y: real)

  /** An ordered sequence of coordinate pairs. */
  type Polyline = seq<Pair>

  const Origin: Pair := Pair(0.0, 0.0)

  /** The point reached from `base` by moving `delta`. */
  function Offset(base: Pair, delta: Pair): (r: Pair)
    ensures Difference(r, base) == delta
  {
    Pair(base.x + delta.x, base.y + delta.y)
  }

  /** The vector from `base` to `p`. */
  function Difference(p: Pair, base: Pair): Pair
  {
    Pair(p.x - base.x, p.y - base.y)
  }

  function Last(s: seq<Pair>): Pair
    requires s != []
  {
    s[|s| - 1]
  }
}
