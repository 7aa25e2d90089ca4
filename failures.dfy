/** The exceptions the core throws, as values. */
module Failures {
  import opened Wrappers
  import opened Geometry
  import opened Json

  datatype Failure =
    // SimplifiedPointCountExceededException
    | PointCountExceeded(allowed: int, batched: int)
    // JTS refuses a LineString of exactly one point (the simplifier's input)
    | InvalidLineString(points: nat)
    // ValidationException: a speed above the configured maximum
    | SpeedExceeded(from: Coordinate, to: Coordinate, knots: Num, allowedKnots: real)
    // IllegalStateException "An error occurred splitting AM"
    | SplitFailed(current: Coordinate, last: Coordinate)
    // IllegalStateException "Unable to determine AM split order"
    | SplitOrderUnknown(current: Coordinate, last: Coordinate)
    // IllegalArgumentException "Not a JSON object"
    | NotAnObject
    // IllegalArgumentException "Geometry was not an object"
    | GeometryNotObject
    // IllegalArgumentException "coordinates was not an array"
    | CoordinatesNotArray
    // IllegalArgumentException "Invalid geojson type for AM splitting"
    | InvalidGeoJsonType(expected: string, found: Json)
    // IllegalArgumentException "Invalid coordinate"
    | InvalidCoordinate(values: seq<Option<real>>)
    // NullPointerException: a null element unboxed into a coordinate ordinate
    | NullOrdinate(values: seq<Option<real>>)
    // UnsupportedOperationException: adding to the fixed-size list `Arrays.asList` returns
    | FixedSizeList
    // Jackson cannot read the value into the requested Java type
    | Unreadable(found: Json)

  /** Decimal digits of a natural number. */
  function NatToString(n: nat): (s: string)
    ensures |s| >= 1
    ensures forall i :: 0 <= i < |s| ==> '0' <= s[i] <= '9'
  {
    if n < 10 then [Digit(n)] else NatToString(n / 10) + [Digit(n % 10)]
  }

  function Digit(d: nat): (c: char)
    requires d < 10
    ensures '0' <= c <= '9'
  {
    ['0', '1', '2', '3', '4', '5', '6', '7', '8', '9'][d]
  }

  /** Java's `long` to decimal string. */
  function IntToString(i: int): string
  {
    if i < 0 then "-" + NatToString(-i) else NatToString(i)
  }

  /** The message SimplifiedPointCountExceededException carries. */
  function PointCountMessage(allowed: int, batched: int): string
  {
    "Simplified point count exceeded: allowed = " + IntToString(allowed) + " batched points = " + IntToString(batched)
  }

  /**
   * The ValidationException message. `f` renders a double as `%f` does and
   * `instant` renders epoch milliseconds as `Instant.toString` does; both are
   * outside the model.
   */
  function SpeedMessage(from: Coordinate, to: Coordinate, knots: Num, allowedKnots: real,
                        f: real -> string, instant: real -> string): string
  {
    "Speed from (" + f(from.x) + ", " + f(from.y) + ", " + Millis(from, instant) + ") to ("
    + f(to.x) + ", " + f(to.y) + ", " + Millis(to, instant) + ") was " + NumText(knots, f)
    + " knots, which exceeded allowed maximum of " + f(allowedKnots) + " knots"
  }

  function NumText(n: Num, f: real -> string): string
  {
    match n
    case Finite(v) => f(v)
    case Infinity => "Infinity"
    case NaN => "NaN"
  }

  function Millis(c: Coordinate, instant: real -> string): string
  {
    if c.z.Some? then instant(c.z.value) else instant(0.0)  // (long) NaN is 0
  }

  lemma PointCountMessageExample()
    ensures PointCountMessage(1, 2) == "Simplified point count exceeded: allowed = 1 batched points = 2"
  {
  }
}
