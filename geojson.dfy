/** GeoJSON geometries as they appear in the tracking documents
    (`location` of telemetry points and sightings, `geometry` of geofences).
    Coordinates are opaque floating-point payload; nothing computes on them. */
module GeoJson {

  /** A position is a list of numbers, longitude first, then latitude
      (section 3.1.1 of RFC 7946). */
  type Position = seq<real>

  /** A linear ring is a list of positions (section 3.1.6 of RFC 7946). */
  type Ring = seq<Position>

  /** The `type` member of a geometry object is the constructor; `coordinates`
      is its payload. */
  datatype Geometry =
    | Point(position: Position)
    | Polygon(rings: seq<Ring>)
    | MultiPolygon(polygons: seq<seq<Ring>>)

  /** Longitude of a position (section 3.1.1 of RFC 7946: first element). */
  function Longitude(p: Position): real
    requires |p| >= 2
  {
    p[0]
  }

  /** Latitude of a position (section 3.1.1 of RFC 7946: second element). */
  function Latitude(p: Position): real
    requires |p| >= 2
  {
    p[1]
  }

  /** A Point geometry whose position has at least longitude and latitude
      (sections 3.1.1 and 3.1.2 of RFC 7946). */
  predicate IsPoint(g: Geometry) {
    g.Point? && |g.position| >= 2
  }

  /** A closed linear ring: four or more positions, first equal to last
      (section 3.1.6 of RFC 7946). */
  predicate IsLinearRing(r: Ring) {
    |r| >= 4 && r[0] == r[|r| - 1] && forall p :: p in r ==> |p| >= 2
  }

  /** A Polygon geometry whose every ring is a closed linear ring
      (section 3.1.6 of RFC 7946). */
  predicate IsPolygon(g: Geometry) {
    g.Polygon? && forall r :: r in g.rings ==> IsLinearRing(r)
  }

  /** The helper `_geo_point(lon, lat)`: a Point whose position is
      longitude, then latitude. */
  function GeoPoint(lon: real, lat: real): (g: Geometry)
    ensures IsPoint(g)
    ensures Longitude(g.position) == lon && Latitude(g.position) == lat
    ensures |g.position| == 2
  {
    Point([lon, lat])
  }

  /** The helper `_geo_polygon(coords)`: a Polygon carrying the rings unchanged. */
  function GeoPolygon(rings: seq<Ring>): (g: Geometry)
    ensures g.Polygon? && g.rings == rings
    ensures IsPolygon(g) <==> forall r :: r in rings ==> IsLinearRing(r)
  {
    Polygon(rings)
  }
}
