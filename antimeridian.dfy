/**
 * AntimeridianUtils: where a segment from `last` to `current` is cut at the
 * antimeridian (RFC 7946, section 3.1.9), and the speed check between two
 * timestamped coordinates. The crossing test itself (spatial4j) and the
 * WGS84 distance are oracles handed in by the caller.
 */
module Antimeridian {
  import opened Wrappers
  import opened Geometry
  import opened Failures

  /**
   * spatial4j's `JtsGeometry(line, GEO, true, true).getGeom()` for the
   * two-point line from its first argument to its second.
   */
  type Cutter = (Coordinate, Coordinate) -> Cut

  // ---------------------------------------------------------------------
  // Speed
  // ---------------------------------------------------------------------

  const MetersPerNmile: real := 1852.0
  const SecondsPerHour: real := 3600.0

  /** `mpsToKnots`: metres per second times 3600 / 1852. */
  function MpsToKnots(mps: Num): (k: Num)
    ensures mps.Finite? <==> k.Finite?
    ensures mps.Finite? ==> k.v * MetersPerNmile == mps.v * SecondsPerHour
    ensures mps.Infinity? ==> k.Infinity?
    ensures mps.NaN? ==> k.NaN?
  {
    match mps
    case Finite(v) => Finite(v * (SecondsPerHour / MetersPerNmile))
    case Infinity => Infinity
    case NaN => NaN
  }

  /** Seconds from `c1` to `c2`: `(c2.getZ() - c1.getZ()) / 1000`, `None` when a timestamp is NaN. */
  function Elapsed(c1: Coordinate, c2: Coordinate): (s: Option<real>)
    ensures s.Some? <==> c1.z.Some? && c2.z.Some?
    ensures s.Some? ==> s.value * 1000.0 == c2.z.value - c1.z.value
  {
    if c1.z.Some? && c2.z.Some? then Some((c2.z.value - c1.z.value) / 1000.0) else None
  }

  /** The double division `m / s` for a distance `m >= 0`. */
  function Divide(m: Distance, s: Option<real>): (q: Num)
    ensures q.Finite? <==> s.Some? && s.value != 0.0
    ensures q.Infinity? <==> s == Some(0.0) && m > 0.0
  {
    if s.None? then NaN
    else if s.value == 0.0 then (if m == 0.0 then NaN else Infinity)
    else Finite(m / s.value)
  }

  /** A finite quotient times the divisor gives back the distance. */
  lemma DivideInverts(m: Distance, s: Option<real>)
    requires Divide(m, s).Finite?
    ensures Divide(m, s).v * s.value == m
  {
  }

  /** `maxAllowedSpeedKnts > 0 && knots > maxAllowedSpeedKnts` on a Java double (NaN compares false). */
  predicate Exceeds(knots: Num, maxKnots: real)
  {
    maxKnots > 0.0 && match knots
      case Finite(k) => k > maxKnots
      case Infinity => true
      case NaN => false
  }

  /** The limit check both getSpeed methods share: the speed, or the ValidationException. */
  function CheckSpeed(maxKnots: real, c1: Coordinate, c2: Coordinate, mps: Num): (r: Result<Num, Failure>)
    ensures r.Err? <==> Exceeds(MpsToKnots(mps), maxKnots)
    ensures r.Ok? ==> r.value == mps
    ensures r.Err? ==> r.error == SpeedExceeded(c1, c2, MpsToKnots(mps), maxKnots)
  {
    var knots := MpsToKnots(mps);
    if Exceeds(knots, maxKnots) then Err(SpeedExceeded(c1, c2, knots, maxKnots)) else Ok(mps)
  }

  /**
   * `getSpeed(max, c1, c2, m, allowDuplicateTimestamps)`: `None` is Java's
   * null, returned for a repeated timestamp when duplicates are allowed.
   */
  function GetSpeed(maxKnots: real, c1: Coordinate, c2: Coordinate, m: Distance,
                    allowDuplicateTimestamps: bool): (r: Result<Option<Num>, Failure>)
    ensures r == Ok(None) <==> allowDuplicateTimestamps && c1.z.Some? && c2.z == c1.z
  {
    if allowDuplicateTimestamps && c1.z.Some? && c2.z.Some? && c2.z.value == c1.z.value then Ok(None)
    else
      var s := Elapsed(c1, c2);
      if s == Some(0.0) && m == 0.0 then Ok(Some(Finite(0.0)))
      else
        match CheckSpeed(maxKnots, c1, c2, Divide(m, s))
        case Ok(v) => Ok(Some(v))
        case Err(e) => Err(e)
  }

  /** The 4-argument `getSpeed`: the same with duplicates not allowed, so never null. */
  function GetSpeedStrict(maxKnots: real, c1: Coordinate, c2: Coordinate, m: Distance): (r: Result<Num, Failure>)
    ensures r.Ok? <==> GetSpeed(maxKnots, c1, c2, m, false).Ok?
    ensures r.Ok? ==> GetSpeed(maxKnots, c1, c2, m, false).value == Some(r.value)
  {
    match GetSpeed(maxKnots, c1, c2, m, false)
    case Ok(Some(v)) => Ok(v)
    case Ok(None) => assert false; Ok(NaN)
    case Err(e) => Err(e)
  }

  /** A repeated timestamp over no distance is speed zero (allowed duplicate points). */
  lemma GetSpeedStandingStill(maxKnots: real, c1: Coordinate, c2: Coordinate, allowDuplicates: bool)
    requires c1.z.Some? && c2.z == c1.z && !allowDuplicates
    ensures GetSpeed(maxKnots, c1, c2, 0.0, allowDuplicates) == Ok(Some(Finite(0.0)))
  {
    assert Elapsed(c1, c2) == Some(0.0);
  }

  /**
   * The speed check is exact: getSpeed throws precisely when the knots exceed
   * a positive maximum, and otherwise returns m / s, so a returned speed never
   * exceeds a positive maximum.
   */
  lemma GetSpeedChecked(maxKnots: real, c1: Coordinate, c2: Coordinate, m: Distance, allowDuplicates: bool)
    requires !(allowDuplicates && c1.z.Some? && c2.z == c1.z)
    requires !(Elapsed(c1, c2) == Some(0.0) && m == 0.0)
    ensures GetSpeed(maxKnots, c1, c2, m, allowDuplicates).Err?
        <==> Exceeds(MpsToKnots(Divide(m, Elapsed(c1, c2))), maxKnots)
    ensures GetSpeed(maxKnots, c1, c2, m, allowDuplicates).Err? ==> maxKnots > 0.0
    ensures GetSpeed(maxKnots, c1, c2, m, allowDuplicates).Ok? ==>
      GetSpeed(maxKnots, c1, c2, m, allowDuplicates).value == Some(Divide(m, Elapsed(c1, c2)))
  {
  }

  /** A finite speed returned under a positive maximum is at most that many knots, and times the elapsed seconds gives the distance. */
  lemma GetSpeedWithinLimit(maxKnots: real, c1: Coordinate, c2: Coordinate, m: Distance, allowDuplicates: bool, v: real)
    requires maxKnots > 0.0
    requires GetSpeed(maxKnots, c1, c2, m, allowDuplicates) == Ok(Some(Finite(v)))
    ensures v * SecondsPerHour <= maxKnots * MetersPerNmile
    ensures Elapsed(c1, c2).Some?
    ensures Elapsed(c1, c2).value != 0.0 ==> v * Elapsed(c1, c2).value == m
  {
    var s := Elapsed(c1, c2);
    if s == Some(0.0) && m == 0.0 {
      assert v == 0.0;
    } else {
      var k := MpsToKnots(Finite(v));
      assert !Exceeds(k, maxKnots);
      assert k.v <= maxKnots;
      assert k.v * MetersPerNmile == v * SecondsPerHour;
      if s.value != 0.0 {
        DivideInverts(m, s);
      }
    }
  }

  /** Under a positive maximum, getSpeed never returns an infinite speed. */
  lemma GetSpeedNeverInfinite(maxKnots: real, c1: Coordinate, c2: Coordinate, m: Distance, allowDuplicates: bool)
    requires maxKnots > 0.0
    ensures GetSpeed(maxKnots, c1, c2, m, allowDuplicates) != Ok(Some(Infinity))
  {
  }

  // ---------------------------------------------------------------------
  // Antimeridian split
  // ---------------------------------------------------------------------

  /** `signsEqual`: both negative, both positive, or both zero. */
  predicate SignsEqual(a: real, b: real)
  {
    (a < 0.0 && b < 0.0) || (a > 0.0 && b > 0.0) || (a == 0.0 && b == 0.0)
  }

  /** On signum values, `signsEqual` is plain equality. */
  lemma SignsEqualIsSignumEquality(a: real, b: real)
    ensures SignsEqual(Signum(a), Signum(b)) <==> Signum(a) == Signum(b)
    ensures SignsEqual(a, b) <==> Signum(a) == Signum(b)
  {
  }

  /** `is180`: the longitude is exactly 180 or -180. */
  predicate Is180(c: Coordinate)
  {
    c.x == 180.0 || c.x == -180.0
  }

  /** Strictly opposite longitudes, the only case in which the cut is consulted. */
  predicate OppositeSides(last: Coordinate, current: Coordinate)
  {
    (current.x < 0.0 && last.x > 0.0) || (current.x > 0.0 && last.x < 0.0)
  }

  /**
   * `resolveCoordinate`: the endpoint of the line that is not `last`
   * (compared in two dimensions): its second point when its first is `last`,
   * its first otherwise.
   */
  function ResolveCoordinate(line: Piece, last: Coordinate): (r: Coordinate)
    requires line.LinePiece?
    ensures r == line.start || r == line.end
    ensures !SameXY(line.start, last) ==> r == line.start
  {
    if SameXY(line.start, last) then line.end else line.start
  }

  /** When exactly one endpoint of the line is `last`, the resolved coordinate is the other one. */
  lemma ResolveAvoidsLast(line: Piece, last: Coordinate)
    requires line.LinePiece?
    requires SameXY(line.start, last) != SameXY(line.end, last)
    ensures !SameXY(ResolveCoordinate(line, last), last)
    ensures SameXY(line.start, last) ==> ResolveCoordinate(line, last) == line.end
  {
  }

  /**
   * The first `geometryParse`: a two-member collection of two lines, or of a
   * line and a point; anything else is the "error occurred splitting AM" failure.
   */
  function GeometryParse(current: Coordinate, last: Coordinate, l1: Piece, l2: Piece): (r: Result<seq<Coordinate>, Failure>)
    ensures r.Ok? ==> |r.value| == 1 || |r.value| == 4
    ensures r.Ok? && |r.value| == 4 ==> l1.LinePiece? && l2.LinePiece?
    ensures r.Err? && r.error.SplitFailed? ==> r.error == SplitFailed(current, last)
  {
    if l1.LinePiece? && l2.LinePiece? then GeometryParseLines(current, last, l1, l2)
    else if l1.LinePiece? && l2.PointPiece? then Ok([ResolveCoordinate(l1, last)])
    else if l2.LinePiece? && l1.PointPiece? then Ok([ResolveCoordinate(l2, last)])
    else Err(SplitFailed(current, last))
  }

  /**
   * The second `geometryParse`: both lines' points, the line that starts at
   * `last` (or whose partner ends at `current`) first.
   */
  function GeometryParseLines(current: Coordinate, last: Coordinate, l1: Piece, l2: Piece): (r: Result<seq<Coordinate>, Failure>)
    requires l1.LinePiece? && l2.LinePiece?
    ensures r.Ok? ==> |r.value| == 4
    ensures r.Err? ==> r.error == SplitOrderUnknown(current, last)
  {
    if SameXY(l1.start, last) || SameXY(l2.end, current) then Ok([l1.start, l1.end, l2.start, l2.end])
    else if SameXY(l2.start, last) || SameXY(l1.end, current) then Ok([l2.start, l2.end, l1.start, l1.end])
    else Err(SplitOrderUnknown(current, last))
  }

  /**
   * The order of a four-point split: the two lines back to back, the one
   * that leaves `last` first; when neither order can be recognised the split
   * fails.
   */
  lemma SplitOrder(current: Coordinate, last: Coordinate, l1: Piece, l2: Piece)
    requires l1.LinePiece? && l2.LinePiece?
    ensures var r := GeometryParseLines(current, last, l1, l2);
      && (r.Err? <==> !SameXY(l1.start, last) && !SameXY(l2.end, current)
                      && !SameXY(l2.start, last) && !SameXY(l1.end, current))
      && (SameXY(l1.start, last) ==> r == Ok([l1.start, l1.end, l2.start, l2.end]))
      && (SameXY(l2.start, last) && !SameXY(l1.start, last) && !SameXY(l2.end, current) ==> r == Ok([l2.start, l2.end, l1.start, l1.end]))
      && (r.Ok? ==> SameXY(r.value[0], last) || SameXY(r.value[3], current)
                    || SameXY(r.value[2], last) || SameXY(r.value[1], current))
  {
  }

  /** The shared tail of both `splitAm`s: neither point on the antimeridian. */
  function SplitOffAntimeridian(last: Coordinate, current: Coordinate, cut: Cutter): (r: Result<seq<Coordinate>, Failure>)
    ensures r.Ok? ==> |r.value| == 1 || |r.value| == 4
  {
    if OppositeSides(last, current) then
      match cut(last, current)
      case Whole => Ok([current])
      case Collection(l1, l2) => GeometryParse(current, last, l1, l2)
      case Unexpected => Err(SplitFailed(current, last))
    else Ok([current])
  }

  /** `splitAm(last, current, geometryFactory)`. */
  function SplitAm(last: Coordinate, current: Coordinate, cut: Cutter): (r: Result<seq<Coordinate>, Failure>)
  {
    var lastSign := Signum(last.x);
    var currentSign := Signum(current.x);
    if Is180(last) then
      if Is180(current) then Ok([Coordinate(last.x, current.y, current.z, None)])
      else if SignsEqual(lastSign, currentSign) then Ok([current])
      else Ok([current, XY(180.0 * lastSign, last.y), XY(180.0 * currentSign, last.y)])
    else if Is180(current) then Ok([Coordinate(180.0 * lastSign, current.y, current.z, None)])
    else SplitOffAntimeridian(last, current, cut)
  }

  /** A split has one, three or four coordinates. */
  lemma SplitAmSizes(last: Coordinate, current: Coordinate, cut: Cutter)
    ensures var r := SplitAm(last, current, cut);
      r.Ok? ==> |r.value| == 1 || |r.value| == 3 || |r.value| == 4
    ensures var r := SplitAm(last, current, cut);
      r.Ok? && |r.value| == 3 ==> Is180(last) && !Is180(current)
  {
  }

  /** Both points on the antimeridian: one coordinate, at last's longitude with current's latitude and time. */
  lemma SplitAmAlongAntimeridian(last: Coordinate, current: Coordinate, cut: Cutter)
    requires Is180(last) && Is180(current)
    ensures SplitAm(last, current, cut) == Ok([Coordinate(last.x, current.y, current.z, None)])
  {
  }

  /**
   * Leaving the antimeridian: to the side `last` is on (by signum) the
   * result is `current` alone; to the other side (or to longitude 0) it is
   * `current` followed by the two antimeridian points at last's latitude.
   */
  lemma SplitAmFromAntimeridian(last: Coordinate, current: Coordinate, cut: Cutter)
    requires Is180(last) && !Is180(current)
    ensures Signum(last.x) == Signum(current.x) ==> SplitAm(last, current, cut) == Ok([current])
    ensures Signum(last.x) != Signum(current.x) ==>
      SplitAm(last, current, cut) == Ok([current, XY(180.0 * Signum(last.x), last.y), XY(180.0 * Signum(current.x), last.y)])
    ensures current.x < 0.0 < last.x ==>
      SplitAm(last, current, cut) == Ok([current, XY(180.0, last.y), XY(-180.0, last.y)])
  {
    SignsEqualIsSignumEquality(last.x, current.x);
  }

  /**
   * Arriving on the antimeridian: one coordinate on last's side of it, with
   * current's latitude and time; from longitude 0 its longitude is 0.
   */
  lemma SplitAmOntoAntimeridian(last: Coordinate, current: Coordinate, cut: Cutter)
    requires !Is180(last) && Is180(current)
    ensures var r := SplitAm(last, current, cut);
      && r.Ok? && |r.value| == 1
      && r.value[0].y == current.y && r.value[0].z == current.z
      && (last.x > 0.0 ==> r.value[0].x == 180.0)
      && (last.x < 0.0 ==> r.value[0].x == -180.0)
      && (last.x == 0.0 ==> r.value[0].x == 0.0)
  {
  }

  /**
   * Off the antimeridian and not on strictly opposite sides, the result is
   * `current` alone, whatever the cut would have said: it is not consulted.
   */
  lemma SplitAmSameSide(last: Coordinate, current: Coordinate, cut: Cutter, other: Cutter)
    requires !Is180(last) && !Is180(current) && !OppositeSides(last, current)
    ensures SplitAm(last, current, cut) == Ok([current])
    ensures SplitAm(last, current, cut) == SplitAm(last, current, other)
  {
  }

  /** Off the antimeridian, four points come only from a cut into two lines, in one of the two orders. */
  lemma OffAntimeridianFourPoints(last: Coordinate, current: Coordinate, cut: Cutter)
    requires var r := SplitOffAntimeridian(last, current, cut); r.Ok? && |r.value| == 4
    ensures OppositeSides(last, current) && cut(last, current).Collection?
    ensures var c := cut(last, current);
      && c.first.LinePiece? && c.second.LinePiece?
      && var r := SplitOffAntimeridian(last, current, cut).value;
         r == [c.first.start, c.first.end, c.second.start, c.second.end]
         || r == [c.second.start, c.second.end, c.first.start, c.first.end]
  {
  }

  /** With a point on the antimeridian the cut is not consulted and the split has at most three points. */
  lemma OnAntimeridianNoCut(last: Coordinate, current: Coordinate, cut: Cutter)
    requires Is180(last) || Is180(current)
    ensures SplitAm(last, current, cut).Ok? && |SplitAm(last, current, cut).value| <= 3
  {
  }

  lemma Reordered(a: Coordinate, b: Coordinate, c: Coordinate, d: Coordinate)
    ensures multiset([a, b, c, d]) == multiset{a, b, c, d}
    ensures multiset([c, d, a, b]) == multiset{a, b, c, d}
  {
  }

  /**
   * A four-point split is exactly the two lines of a cut into two lines;
   * a split of more than one point off the antimeridian needs opposite sides.
   */
  lemma SplitAmFourPoints(last: Coordinate, current: Coordinate, cut: Cutter)
    ensures var r := SplitAm(last, current, cut);
      r.Ok? && |r.value| == 4 ==>
        && OppositeSides(last, current)
        && cut(last, current).Collection?
        && cut(last, current).first.LinePiece? && cut(last, current).second.LinePiece?
        && multiset(r.value) == multiset{cut(last, current).first.start, cut(last, current).first.end,
                                         cut(last, current).second.start, cut(last, current).second.end}
  {
    if Is180(last) || Is180(current) {
      SplitAmSizes(last, current, cut);
      OnAntimeridianNoCut(last, current, cut);
    } else {
      assert SplitAm(last, current, cut) == SplitOffAntimeridian(last, current, cut);
      if SplitAm(last, current, cut).Ok? && |SplitAm(last, current, cut).value| == 4 {
        OffAntimeridianFourPoints(last, current, cut);
        var c := cut(last, current);
        Reordered(c.first.start, c.first.end, c.second.start, c.second.end);
      }
    }
  }
}
