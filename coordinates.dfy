/**
 * Map coordinates. The widget only assigns coordinates and compares them for
 * exact equality, so a coordinate is an opaque pair: `x` is the first
 * component of a QPointF (longitude for a qmapcontrol Point, latitude for the
 * vehicle positions, which the widget passes as (lat, lon)) and `y` the second.
 */
module Coordinates {
  datatype Coord = Coord(x: real, y: real)

  /** No coordinate occurs twice. */
  predicate Distinct(cs: seq<Coord>)
  {
    forall i, j :: 0 <= i < j < |cs| ==> cs[i] != cs[j]
  }
}
