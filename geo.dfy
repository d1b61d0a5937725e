/** Geometry as the estimator sees it: the drawn polygon, and its area as the
    foreign turf.area routine reports it. */
module Geo {

  /** A value that may be missing (JavaScript's null). */
  datatype Option<+T> = None | Some(value: T) {
    function GetOr(default: T): T {
      match this
      case Some(v) => v
      case None => default
    }
  }

  /** A (longitude, latitude) pair of a GeoJSON ring. */
  datatype Position = Position(lng: real, lat: real)

  /** The GeoJSON polygon of a drawn layer (`layer.toGeoJSON()`): an outer
      ring followed by any holes. The estimator never looks inside it. */
  datatype Polygon = Polygon(rings: seq<seq<Position>>)

  /** Square metres as turf.area reports them: never negative. */
  type AreaM2 = r: real | 0.0 <= r

  /** The spherical area routine turf.area, which is foreign code: it is a
      parameter of the model. `None` stands for the exception it may throw. */
  type AreaOracle = Polygon -> Option<AreaM2>

  /** getPolygonAreaM2: the area of the retained polygon, or null when no
      polygon is retained or when turf.area throws. */
  function PolygonAreaM2(last: Option<Polygon>, turfArea: AreaOracle): (a: Option<real>)
    ensures a.Some? <==> last.Some? && turfArea(last.value).Some?
    ensures a.Some? ==> 0.0 <= a.value && a.value == turfArea(last.value).value
  {
    match last
    case None => None
    case Some(p) =>
      match turfArea(p)
      case None => None
      case Some(m2) => Some(m2)
  }
}
