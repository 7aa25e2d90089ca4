/**
 * The geometry vocabulary shared by both phases: JTS coordinates and envelopes,
 * the double values the speed computation can produce, and the shapes returned
 * by the spatial4j antimeridian cut, which is an oracle here.
 */
module Geometry {
  import opened Wrappers

  /**
   * A JTS `Coordinate`. `z` and `m` are `None` where JTS holds NaN: a coordinate
   * built from two values has neither, one built from three has no `m`.
   */
  datatype Coordinate = Coordinate(x: real, y: real, z: Option<real>, m: Option<real>)

  function XY(x: real, y: real): Coordinate { Coordinate(x, y, None, None) }

  /** JTS `Coordinate.equals` compares x and y only. */
  predicate SameXY(a: Coordinate, b: Coordinate) { a.x == b.x && a.y == b.y }

  /** `Math.signum` (signed zeros are not distinguished). */
  function Signum(v: real): (s: real)
    ensures s == 1.0 || s == -1.0 || s == 0.0
    ensures (s > 0.0 <==> v > 0.0) && (s < 0.0 <==> v < 0.0)
  {
    if v > 0.0 then 1.0 else if v < 0.0 then -1.0 else 0.0
  }

  /**
   * The values a row listener hands to the sink for one coordinate:
   * x and y, then z when it is not NaN, then m when z and m are not NaN.
   */
  function CoordinateValues(c: Coordinate): (vs: seq<real>)
    ensures 2 <= |vs| <= 4 && vs[0] == c.x && vs[1] == c.y
    ensures |vs| >= 3 <==> c.z.Some?
    ensures c.z.Some? ==> vs[2] == c.z.value
    ensures |vs| == 4 <==> c.z.Some? && c.m.Some?
    ensures |vs| == 4 ==> vs[3] == c.m.value
  {
    [c.x, c.y]
    + (if c.z.Some? then [c.z.value] + (if c.m.Some? then [c.m.value] else []) else [])
  }

  /**
   * A Java double as far as this core needs one: speeds are m / s with m >= 0,
   * so the only non-finite results are +Infinity (m > 0, s = 0) and NaN
   * (0 / 0, or a missing timestamp).
   */
  datatype Num = Finite(v: real) | Infinity | NaN

  /** A WGS84 orthodromic distance in metres (an oracle, never negative). */
  type Distance = d: real | d >= 0.0

  /**
   * A JTS `Envelope`; it is null (holds no point) when maxX < minX.
   * The empty envelope holds minX = 0, maxX = -1, minY = 0, maxY = -1.
   */
  datatype Envelope = Envelope(minX: real, maxX: real, minY: real, maxY: real)

  const EmptyEnvelope := Envelope(0.0, -1.0, 0.0, -1.0)

  predicate IsNull(e: Envelope) { e.maxX < e.minX }

  function Min(a: real, b: real): real { if a <= b then a else b }
  function Max(a: real, b: real): real { if a >= b then a else b }

  /** `Envelope.expandToInclude(Coordinate)`. */
  function Include(e: Envelope, c: Coordinate): (r: Envelope)
    ensures !IsNull(r)
    ensures r.minX <= c.x <= r.maxX && r.minY <= c.y <= r.maxY
  {
    if IsNull(e) then Envelope(c.x, c.x, c.y, c.y)
    else Envelope(Min(e.minX, c.x), Max(e.maxX, c.x), Min(e.minY, c.y), Max(e.maxY, c.y))
  }

  /** `Envelope.expandToInclude(Envelope)`. */
  function Merge(e: Envelope, o: Envelope): (r: Envelope)
    ensures IsNull(r) <==> IsNull(e) && IsNull(o)
    ensures !IsNull(e) && !IsNull(o) ==>
      r.minX == Min(e.minX, o.minX) && r.maxX == Max(e.maxX, o.maxX) &&
      r.minY == Min(e.minY, o.minY) && r.maxY == Max(e.maxY, o.maxY)
  {
    if IsNull(o) then e
    else if IsNull(e) then o
    else Envelope(Min(e.minX, o.minX), Max(e.maxX, o.maxX), Min(e.minY, o.minY), Max(e.maxY, o.maxY))
  }

  /** One member of the collection the antimeridian cut returns. */
  datatype Piece =
    | LinePiece(start: Coordinate, end: Coordinate)  // a LineString; only its first two points are read
    | PointPiece(p: Coordinate)
    | OtherPiece

  /**
   * What spatial4j's `JtsGeometry(line, GEO, true, true).getGeom()` returns for
   * the two-point line from `last` to `current`: the line itself, a geometry
   * collection (only its first two members are read), or something else.
   */
  datatype Cut = Whole | Collection(first: Piece, second: Piece) | Unexpected
}
