/**
 * The pure side of GeoJsonMultiLineParser: its own (older) antimeridian
 * split and speed computation, reading a coordinate, the running
 * statistics, the two half-envelopes and the bbox they give, and the
 * counting functions the output's shape is stated with.
 */
module ParserLogic {
  import opened Wrappers
  import opened Geometry
  import opened Json
  import opened Failures
  import opened Antimeridian

  // ---------------------------------------------------------------------
  // The parser's own splitAm and getSpeed
  // ---------------------------------------------------------------------

  /**
   * The parser's `splitAm(coordinate, last)`. Unlike AntimeridianUtils it
   * only special-cases a `current` on the antimeridian, and then (unless
   * `last` is on it too) always answers three points: `last` and the two
   * antimeridian points at current's latitude on last's side and the other.
   */
  function ParserSplitAm(current: Coordinate, last: Coordinate, cut: Cutter): (r: Result<seq<Coordinate>, Failure>)
  {
    if Is180(current) then
      if Is180(last) then Ok([Coordinate(last.x, current.y, current.z, None)])
      else
        var sign := Signum(last.x);
        Ok([last, XY(180.0 * sign, current.y), XY(180.0 * sign * -1.0, current.y)])
    else SplitOffAntimeridian(last, current, cut)
  }

  /** The parser's splits also have one, three or four points; three exactly when only `current` is on the antimeridian. */
  lemma ParserSplitSizes(current: Coordinate, last: Coordinate, cut: Cutter)
    ensures var r := ParserSplitAm(current, last, cut);
      r.Ok? ==> |r.value| == 1 || |r.value| == 3 || |r.value| == 4
    ensures var r := ParserSplitAm(current, last, cut);
      r.Ok? && |r.value| == 3 <==> Is180(current) && !Is180(last)
    ensures Is180(current) ==> ParserSplitAm(current, last, cut).Ok?
  {
  }

  /**
   * A three-point split starts at `last` and puts the two inserted points
   * at current's latitude. Off the prime meridian they lie on the
   * antimeridian, on last's side first; from a `last` at longitude 0 the
   * sign taken is 0, so both inserted points lie at longitude 0 and the
   * line is cut there, far from the antimeridian.
   */
  lemma ParserThreePointSplit(current: Coordinate, last: Coordinate, cut: Cutter)
    requires Is180(current) && !Is180(last)
    ensures var r := ParserSplitAm(current, last, cut).value;
      && |r| == 3 && r[0] == last
      && r[1].y == current.y && r[2].y == current.y
    ensures var r := ParserSplitAm(current, last, cut).value;
      last.x != 0.0 ==>
        && Is180(r[1]) && Is180(r[2]) && r[1].x == -r[2].x
        && (r[1].x > 0.0 <==> last.x > 0.0)
    ensures var r := ParserSplitAm(current, last, cut).value;
      last.x == 0.0 ==> r[1] == XY(0.0, current.y) && r[2] == XY(0.0, current.y) && !Is180(r[1])
  {
  }

  /**
   * The two splitAm versions disagree: approaching the antimeridian from
   * the same side, the utility answers one point and the parser three.
   */
  lemma SplitVersionsDiffer(cut: Cutter)
    ensures SplitAm(XY(170.0, 10.0), XY(180.0, 20.0), cut) == Ok([XY(180.0, 20.0)])
    ensures ParserSplitAm(XY(180.0, 20.0), XY(170.0, 10.0), cut)
            == Ok([XY(170.0, 10.0), XY(180.0, 20.0), XY(-180.0, 20.0)])
  {
  }

  /** The parser's `getSpeed`: no duplicate-timestamp or standing-still case. */
  function ParserGetSpeed(maxKnots: real, c1: Coordinate, c2: Coordinate, m: Distance): (r: Result<Num, Failure>)
    ensures r.Ok? ==> r.value == Divide(m, Elapsed(c1, c2))
    ensures r.Err? <==> Exceeds(MpsToKnots(Divide(m, Elapsed(c1, c2))), maxKnots)
  {
    CheckSpeed(maxKnots, c1, c2, Divide(m, Elapsed(c1, c2)))
  }

  /**
   * Where the two getSpeed versions part: for a repeated timestamp the
   * utility answers 0 over no distance, the parser NaN; over some distance
   * the parser's speed is infinite, which a positive maximum rejects.
   */
  lemma ParserSpeedOnRepeatedTimestamp(maxKnots: real, c1: Coordinate, c2: Coordinate, m: Distance)
    requires c1.z.Some? && c2.z == c1.z
    ensures m == 0.0 ==> ParserGetSpeed(maxKnots, c1, c2, m) == Ok(NaN)
    ensures m == 0.0 ==> GetSpeedStrict(maxKnots, c1, c2, m) == Ok(Finite(0.0))
    ensures m > 0.0 && maxKnots > 0.0 ==> ParserGetSpeed(maxKnots, c1, c2, m).Err?
    ensures m > 0.0 && maxKnots <= 0.0 ==> ParserGetSpeed(maxKnots, c1, c2, m) == Ok(Infinity)
  {
    assert Elapsed(c1, c2) == Some(0.0);
  }

  // ---------------------------------------------------------------------
  // Reading a coordinate
  // ---------------------------------------------------------------------

  /** One list element read as a `Double`: a number, or null for JSON null. */
  function Element(j: Json): Option<real>
  {
    if j.JNum? then Some(j.n) else None
  }

  /** The JSON an element was read from. */
  function ElementJson(e: Option<real>): Json
  {
    if e.Some? then JNum(e.value) else JNull
  }

  /** The elements of a list of JSON items when every one is a number or null. */
  function Numbers(items: seq<Json>): Option<seq<Option<real>>>
  {
    if items == [] then Some([])
    else if !(items[0].JNum? || items[0].JNull?) then None
    else
      match Numbers(items[1..])
      case None => None
      case Some(rest) => Some([Element(items[0])] + rest)
  }

  /** `objectMapper.readValue(parser, List<Double>)`: an array of numbers and nulls. */
  function ReadDoubles(v: Json): Result<seq<Option<real>>, Failure>
  {
    if v.JArr? && Numbers(v.items).Some? then Ok(Numbers(v.items).value) else Err(Unreadable(v))
  }

  /** Reading succeeds exactly on lists of numbers and nulls, and gives back each element in order. */
  lemma {:induction false} NumbersRead(items: seq<Json>)
    ensures Numbers(items).Some? <==> forall i :: 0 <= i < |items| ==> items[i].JNum? || items[i].JNull?
    ensures Numbers(items).Some? ==>
      |Numbers(items).value| == |items| && forall i :: 0 <= i < |items| ==> items[i] == ElementJson(Numbers(items).value[i])
  {
    if items != [] {
      NumbersRead(items[1..]);
      assert forall i :: 1 <= i < |items| ==> items[i] == items[1..][i - 1];
    }
  }

  lemma ReadDoublesSpec(v: Json)
    ensures ReadDoubles(v).Ok? <==> v.JArr? && forall i :: 0 <= i < |v.items| ==> v.items[i].JNum? || v.items[i].JNull?
    ensures ReadDoubles(v).Ok? ==>
      |ReadDoubles(v).value| == |v.items| && forall i :: 0 <= i < |v.items| ==> v.items[i] == ElementJson(ReadDoubles(v).value[i])
  {
    if v.JArr? {
      NumbersRead(v.items);
    }
  }

  /** How many leading elements `arrayToCoordinate` unboxes: x, y, then z and m when present. */
  function Unboxed(values: seq<Option<real>>): nat
  {
    if |values| < 4 then |values| else 4
  }

  /** Some element that `arrayToCoordinate` unboxes is null. */
  predicate HasNullOrdinate(values: seq<Option<real>>)
  {
    exists i :: 0 <= i < Unboxed(values) && values[i].None?
  }

  /**
   * `arrayToCoordinate`: x, y, then z and m when present. Fewer than two
   * values fail as an invalid coordinate; a null among the values it
   * unboxes fails as unboxing null does.
   */
  function ArrayToCoordinate(values: seq<Option<real>>): (r: Result<Coordinate, Failure>)
    ensures r.Err? <==> |values| < 2 || HasNullOrdinate(values)
    ensures |values| < 2 ==> r == Err(InvalidCoordinate(values))
    ensures |values| >= 2 && HasNullOrdinate(values) ==> r == Err(NullOrdinate(values))
  {
    if |values| < 2 then Err(InvalidCoordinate(values))
    else if HasNullOrdinate(values) then Err(NullOrdinate(values))
    else if |values| >= 4 then Ok(Coordinate(values[0].value, values[1].value, Some(values[2].value), Some(values[3].value)))
    else if |values| == 3 then Ok(Coordinate(values[0].value, values[1].value, Some(values[2].value), None))
    else Ok(XY(values[0].value, values[1].value))
  }

  /** One point of a line string: the array read as doubles, then turned into a coordinate. */
  function ReadPoint(item: Json): Result<Coordinate, Failure>
  {
    match ReadDoubles(item)
    case Err(e) => Err(e)
    case Ok(values) => ArrayToCoordinate(values)
  }

  /**
   * A point reads exactly when it is an array of at least two numbers and
   * nulls whose first (up to four) elements are numbers, and its x and y
   * are the first two; anything else in the array, or a non-array, fails as
   * unreadable, a shorter array as an invalid coordinate, and a null among
   * the first four as a null ordinate.
   */
  lemma ReadPointSpec(item: Json)
    ensures ReadPoint(item).Ok? <==>
      && item.JArr? && |item.items| >= 2
      && (forall i :: 0 <= i < |item.items| ==> item.items[i].JNum? || item.items[i].JNull?)
      && (forall i :: 0 <= i < |item.items| && i < 4 ==> item.items[i].JNum?)
    ensures ReadPoint(item).Ok? ==>
      item.items[0] == JNum(ReadPoint(item).value.x) && item.items[1] == JNum(ReadPoint(item).value.y)
    ensures ReadDoubles(item).Err? ==> ReadPoint(item) == Err(Unreadable(item))
    ensures ReadDoubles(item).Ok? && |item.items| < 2 ==>
      ReadPoint(item) == Err(InvalidCoordinate(ReadDoubles(item).value))
    ensures ReadDoubles(item).Ok? && |item.items| >= 2 && (exists i :: 0 <= i < |item.items| && i < 4 && item.items[i].JNull?) ==>
      ReadPoint(item) == Err(NullOrdinate(ReadDoubles(item).value))
  {
    ReadDoublesSpec(item);
    if ReadDoubles(item).Ok? {
      var vs := ReadDoubles(item).value;
      assert forall i :: 0 <= i < |vs| ==> (vs[i].None? <==> item.items[i].JNull?);
    }
  }

  /**
   * Reading is lossless up to four values: the coordinate gives back the
   * values it unboxed (elements beyond m are dropped, and may be null).
   */
  lemma ArrayToCoordinateRoundTrip(values: seq<Option<real>>)
    requires ArrayToCoordinate(values).Ok?
    ensures var vs := CoordinateValues(ArrayToCoordinate(values).value);
      |vs| == Unboxed(values) && forall i :: 0 <= i < |vs| ==> values[i] == Some(vs[i])
  {
  }

  /** The elements a list of plain numbers reads as. */
  function Boxed(vs: seq<real>): (r: seq<Option<real>>)
    ensures |r| == |vs| && forall i :: 0 <= i < |vs| ==> r[i] == Some(vs[i])
  {
    seq(|vs|, i requires 0 <= i < |vs| => Some(vs[i]))
  }

  /** Every coordinate the parser reads, written back as values, is read as itself. */
  lemma CoordinateRoundTrip(c: Coordinate)
    requires c.m.Some? ==> c.z.Some?
    ensures ArrayToCoordinate(Boxed(CoordinateValues(c))) == Ok(c)
  {
  }

  // ---------------------------------------------------------------------
  // Running statistics
  // ---------------------------------------------------------------------

  function Sum(ds: seq<real>): real
  {
    if ds == [] then 0.0 else Sum(ds[..|ds| - 1]) + ds[|ds| - 1]
  }

  /**
   * `avg + (v - avg) / n` on Java doubles: once an infinite speed has entered,
   * the next step is Infinity - Infinity, so the mean turns NaN for good.
   */
  function RunningMean(avg: Num, v: Num, n: nat): Num
    requires n > 0
  {
    match (avg, v)
    case (Finite(a), Finite(x)) => Finite(a + (x - a) / (n as real))
    case (Finite(_), Infinity) => Infinity
    case _ => NaN
  }

  /** The value `avgSpeedM` holds after the given speeds went through `updateStats`. */
  function Mean(speeds: seq<Num>): Num
  {
    if speeds == [] then Finite(0.0)
    else RunningMean(Mean(speeds[..|speeds| - 1]), speeds[|speeds| - 1], |speeds|)
  }

  function Finites(xs: seq<real>): (r: seq<Num>)
    ensures |r| == |xs|
  {
    if xs == [] then [] else Finites(xs[..|xs| - 1]) + [Finite(xs[|xs| - 1])]
  }

  function Average(xs: seq<real>): real
  {
    if xs == [] then 0.0 else Sum(xs) / (|xs| as real)
  }

  /** The incremental update computes the arithmetic mean of finite speeds. */
  lemma {:induction false} MeanIsAverage(xs: seq<real>)
    ensures Mean(Finites(xs)) == Finite(Average(xs))
    decreases |xs|
  {
    if xs != [] {
      var init := xs[..|xs| - 1];
      var x := xs[|xs| - 1];
      var fs := Finites(xs);
      assert fs[..|fs| - 1] == Finites(init);
      MeanIsAverage(init);
      assert init == [] ==> Sum(init) == 0.0;
      MeanStep(Sum(init), x, |init|);
    }
  }

  /** One step of the incremental mean, as arithmetic. */
  lemma MeanStep(s: real, x: real, n: nat)
    requires n == 0 ==> s == 0.0
    ensures var a := if n == 0 then 0.0 else s / (n as real);
      a + (x - a) / ((n + 1) as real) == (s + x) / ((n + 1) as real)
  {
    var a := if n == 0 then 0.0 else s / (n as real);
    var k := (n + 1) as real;
    if n > 0 {
      assert a * (n as real) == s;
    }
    assert a * k - a == a * (n as real) == s;
    calc {
      (a + (x - a) / k) * k;
      a * k + (x - a);
      s + x;
    }
  }

  /** A non-finite mean stays non-finite: one NaN or infinite speed spoils every later average. */
  lemma MeanStaysNonFinite(speeds: seq<Num>, v: Num)
    requires !Mean(speeds).Finite?
    ensures !Mean(speeds + [v]).Finite?
    ensures Mean(speeds).NaN? ==> Mean(speeds + [v]).NaN?
  {
    assert (speeds + [v])[..|speeds|] == speeds;
  }

  // ---------------------------------------------------------------------
  // Envelopes and the bbox
  // ---------------------------------------------------------------------

  /** The envelope of the points, grown one `expandToInclude` at a time. */
  function Bounds(cs: seq<Coordinate>): (e: Envelope)
    ensures IsNull(e) <==> cs == []
    ensures cs == [] ==> e == EmptyEnvelope
  {
    if cs == [] then EmptyEnvelope else Include(Bounds(cs[..|cs| - 1]), cs[|cs| - 1])
  }

  /** The points routed to the west envelope: strictly negative longitude. */
  function West(cs: seq<Coordinate>): seq<Coordinate>
  {
    if cs == [] then []
    else West(cs[..|cs| - 1]) + (if cs[|cs| - 1].x < 0.0 then [cs[|cs| - 1]] else [])
  }

  /** The points routed to the east envelope: longitude zero or more. */
  function East(cs: seq<Coordinate>): seq<Coordinate>
  {
    if cs == [] then []
    else East(cs[..|cs| - 1]) + (if cs[|cs| - 1].x >= 0.0 then [cs[|cs| - 1]] else [])
  }

  /** Each point goes to exactly one half: west when its longitude is negative, east otherwise (0 included). */
  lemma {:induction false} Routing(cs: seq<Coordinate>, c: Coordinate)
    ensures c in West(cs) <==> c in cs && c.x < 0.0
    ensures c in East(cs) <==> c in cs && c.x >= 0.0
    decreases |cs|
  {
    if cs != [] {
      var init := cs[..|cs| - 1];
      assert cs == init + [cs[|cs| - 1]];
      Routing(init, c);
    }
  }

  /** Every point lies inside the envelope of the points. */
  lemma {:induction false} BoundsContain(cs: seq<Coordinate>, c: Coordinate)
    requires c in cs
    ensures var e := Bounds(cs); e.minX <= c.x <= e.maxX && e.minY <= c.y <= e.maxY
    decreases |cs|
  {
    var init := cs[..|cs| - 1];
    if c != cs[|cs| - 1] {
      assert c in init by { assert cs == init + [cs[|cs| - 1]]; }
      BoundsContain(init, c);
    }
  }

  /** The envelope's x-range is spanned by the points: some point sits on each edge. */
  lemma {:induction false} BoundsAttained(cs: seq<Coordinate>)
    requires cs != []
    ensures exists c :: c in cs && c.x == Bounds(cs).minX
    ensures exists c :: c in cs && c.x == Bounds(cs).maxX
    decreases |cs|
  {
    var init := cs[..|cs| - 1];
    var last := cs[|cs| - 1];
    assert last in cs;
    if init != [] {
      BoundsAttained(init);
      var lo :| lo in init && lo.x == Bounds(init).minX;
      var hi :| hi in init && hi.x == Bounds(init).maxX;
      assert cs == init + [last];
      assert lo in cs && hi in cs;
    }
  }

  lemma MergeIncludeLeft(w: Envelope, e: Envelope, c: Coordinate)
    requires IsNull(w) ==> w == EmptyEnvelope
    ensures Merge(Include(w, c), e) == Include(Merge(w, e), c)
  {
  }

  lemma MergeIncludeRight(w: Envelope, e: Envelope, c: Coordinate)
    requires IsNull(e) ==> e == EmptyEnvelope
    ensures Merge(w, Include(e, c)) == Include(Merge(w, e), c)
  {
  }

  /** Merging the west and east envelopes gives the envelope of all the points. */
  lemma {:induction false} MergeHalves(cs: seq<Coordinate>)
    ensures Merge(Bounds(West(cs)), Bounds(East(cs))) == Bounds(cs)
    decreases |cs|
  {
    if cs != [] {
      var init := cs[..|cs| - 1];
      var c := cs[|cs| - 1];
      MergeHalves(init);
      var w, e := West(init), East(init);
      if c.x < 0.0 {
        assert West(cs) == w + [c];
        assert (w + [c])[..|w|] == w;
        assert East(cs) == e;
        MergeIncludeLeft(Bounds(w), Bounds(e), c);
      } else {
        assert East(cs) == e + [c];
        assert (e + [c])[..|e|] == e;
        assert West(cs) == w;
        MergeIncludeRight(Bounds(w), Bounds(e), c);
      }
    }
  }

  /**
   * `writeBBox`'s four values as the source computes them, minX, minY, maxX,
   * maxY: the merged envelope, or after a crossing the east half's west
   * edge, the west half's east edge and the latitudes of both halves, empty
   * or not.
   */
  function BBoxValuesAsWritten(west: Envelope, east: Envelope, crossed: bool): (b: seq<real>)
    ensures |b| == 4
  {
    if !crossed then
      var e := Merge(west, east);
      [e.minX, e.minY, e.maxX, e.maxY]
    else [east.minX, Min(west.minY, east.minY), west.maxX, Max(west.maxY, east.maxY)]
  }

  /**
   * A crossing may leave one half empty: a line that reaches the
   * antimeridian from the east and stops there is cut (the parser's split
   * has three points), yet every point it read lies east. The empty west
   * half's placeholder values then reach the bbox: latitude 0 and
   * longitude -1, which no point has.
   */
  lemma BBoxLeaksEmptyHalf(cut: Cutter)
    ensures |ParserSplitAm(XY(180.0, 20.0), XY(170.0, 10.0), cut).value| == 3
    ensures var cs := [XY(170.0, 10.0), XY(180.0, 20.0)];
      && West(cs) == [] && Bounds(cs) == Envelope(170.0, 180.0, 10.0, 20.0)
      && BBoxValuesAsWritten(Bounds(West(cs)), Bounds(East(cs)), true) == [170.0, 0.0, -1.0, 20.0]
  {
    var cs := [XY(170.0, 10.0), XY(180.0, 20.0)];
    assert cs[..1] == [XY(170.0, 10.0)];
    assert West(cs[..1]) == [] && East(cs[..1]) == cs[..1];
  }

  /**
   * The bbox the model writes: the source's, except that a crossing with an
   * empty half is taken as no crossing, so the placeholder values of an
   * empty envelope never reach it.
   */
  function BBoxValues(west: Envelope, east: Envelope, crossed: bool): (b: seq<real>)
    ensures |b| == 4
  {
    BBoxValuesAsWritten(west, east, crossed && !IsNull(west) && !IsNull(east))
  }

  /**
   * The correction changes nothing unless a crossing left a half empty; on
   * the points read, the two agree whenever both halves hold a point or
   * there was no crossing.
   */
  lemma BBoxCorrectionAgrees(west: Envelope, east: Envelope, crossed: bool, cs: seq<Coordinate>)
    ensures !(crossed && (IsNull(west) || IsNull(east))) ==>
      BBoxValues(west, east, crossed) == BBoxValuesAsWritten(west, east, crossed)
    ensures crossed && (IsNull(west) || IsNull(east)) ==>
      BBoxValues(west, east, crossed) == BBoxValuesAsWritten(west, east, false)
    ensures (West(cs) != [] && East(cs) != []) || !crossed ==>
      BBoxValues(Bounds(West(cs)), Bounds(East(cs)), crossed)
      == BBoxValuesAsWritten(Bounds(West(cs)), Bounds(East(cs)), crossed)
  {
  }

  /** The bbox's south and north edges are those of the points read, crossing or not. */
  lemma BBoxLatitudes(cs: seq<Coordinate>, crossed: bool, c: Coordinate)
    requires c in cs
    ensures var b := BBoxValues(Bounds(West(cs)), Bounds(East(cs)), crossed);
      b[1] == Bounds(cs).minY && b[3] == Bounds(cs).maxY && b[1] <= c.y <= b[3]
  {
    MergeHalves(cs);
    BoundsContain(cs, c);
  }

  /** The bbox is left out when no statistics were gathered and the values are the empty envelope's. */
  predicate BBoxOmitted(values: seq<real>, count: int)
  {
    count == 0 && values == [0.0, 0.0, -1.0, -1.0]
  }

  /** The west envelope lies west of longitude 0 and the east one does not. */
  lemma WestBoundsNegative(cs: seq<Coordinate>)
    ensures West(cs) != [] ==> Bounds(West(cs)).maxX < 0.0
    ensures East(cs) != [] ==> Bounds(East(cs)).minX >= 0.0
  {
    var w, e := West(cs), East(cs);
    if w != [] {
      BoundsAttained(w);
      var hi :| hi in w && hi.x == Bounds(w).maxX;
      Routing(cs, hi);
    }
    if e != [] {
      BoundsAttained(e);
      var lo :| lo in e && lo.x == Bounds(e).minX;
      Routing(cs, lo);
    }
  }

  /** Without a crossing the bbox is exactly the envelope of every point read. */
  lemma BBoxWithoutCrossing(cs: seq<Coordinate>)
    ensures var b := Bounds(cs);
      BBoxValues(Bounds(West(cs)), Bounds(East(cs)), false) == [b.minX, b.minY, b.maxX, b.maxY]
  {
    MergeHalves(cs);
  }

  /**
   * A crossing that left one half empty changes nothing: the corrected bbox
   * is the envelope of every point read, as without a crossing.
   */
  lemma BBoxEmptyHalfIsEnvelope(cs: seq<Coordinate>, crossed: bool)
    requires West(cs) == [] || East(cs) == []
    ensures var b := Bounds(cs);
      BBoxValues(Bounds(West(cs)), Bounds(East(cs)), crossed) == [b.minX, b.minY, b.maxX, b.maxY]
  {
    BBoxWithoutCrossing(cs);
  }

  /**
   * With a crossing and points on both sides, the bbox wraps the
   * antimeridian as RFC 7946 section 5.2 asks: its west edge (from the east
   * half) lies east of its east edge (from the west half), every point lies
   * on one of the two arcs it spans, and its latitudes cover every point.
   */
  lemma BBoxAcrossAntimeridian(cs: seq<Coordinate>, c: Coordinate)
    requires West(cs) != [] && East(cs) != []
    requires c in cs
    ensures var b := BBoxValues(Bounds(West(cs)), Bounds(East(cs)), true);
      && b[2] < 0.0 <= b[0]
      && (c.x >= b[0] || c.x <= b[2])
      && b[1] <= c.y <= b[3]
  {
    var w, e := West(cs), East(cs);
    Routing(cs, c);
    WestBoundsNegative(cs);
    if c.x < 0.0 {
      BoundsContain(w, c);
    } else {
      BoundsContain(e, c);
    }
  }

  /** The bbox is written exactly when some coordinate was read (or statistics were gathered). */
  lemma BBoxWrittenIffPoints(cs: seq<Coordinate>, crossed: bool, count: int)
    ensures cs == [] ==> BBoxValues(Bounds(West(cs)), Bounds(East(cs)), crossed) == [0.0, 0.0, -1.0, -1.0]
    ensures cs != [] ==> !BBoxOmitted(BBoxValues(Bounds(West(cs)), Bounds(East(cs)), crossed), count)
  {
    var w, e := West(cs), East(cs);
    if cs != [] {
      var c := cs[0];
      Routing(cs, c);
      if c.x < 0.0 {
        BoundsContain(w, c);
      } else {
        BoundsContain(e, c);
      }
    }
  }

  // ---------------------------------------------------------------------
  // Counting the output's structure
  // ---------------------------------------------------------------------

  /** The token a `copyCurrentEvent` emits when the parser stands at the start of this value. */
  function FirstToken(v: Json): Token
  {
    match v
    case JObj(_) => StartObject
    case JArr(_) => StartArray
    case _ => Value(v)
  }

  /**
   * The arrays opened at nesting `d` (counted from the start of `ts`):
   * with `d` the level of a line string, the number of line strings.
   */
  function Opens(ts: seq<Token>, d: int): nat
  {
    if ts == [] then 0
    else Opens(ts[..|ts| - 1], d) + (if ts[|ts| - 1] == StartArray && Depth(ts[..|ts| - 1]) == d then 1 else 0)
  }

  lemma {:induction false} OpensAppend(a: seq<Token>, b: seq<Token>, d: int)
    ensures Opens(a + b, d) == Opens(a, d) + Opens(b, d - Depth(a))
    decreases |b|
  {
    if b == [] {
      assert a + b == a;
    } else {
      var b' := b[..|b| - 1];
      assert (a + b)[..|a + b| - 1] == a + b';
      OpensAppend(a, b', d);
      DepthAppend(a, b');
    }
  }

  lemma OpensSingle(t: Token, d: int)
    ensures Opens([t], d) == if t == StartArray && d == 0 then 1 else 0
    ensures Depth([t]) == Weight(t)
  {
    assert [t][..0] == [];
  }

  /** Occurrences of a character. */
  function Count(s: string, ch: char): nat
  {
    if s == [] then 0 else Count(s[..|s| - 1], ch) + (if s[|s| - 1] == ch then 1 else 0)
  }

  lemma {:induction false} CountAppend(a: string, b: string, ch: char)
    ensures Count(a + b, ch) == Count(a, ch) + Count(b, ch)
    decreases |b|
  {
    if b == [] {
      assert a + b == a;
    } else {
      var b' := b[..|b| - 1];
      assert (a + b)[..|a + b| - 1] == a + b';
      CountAppend(a, b', ch);
    }
  }

  lemma {:induction false} CountAbsent(s: string, ch: char)
    requires ch !in s
    ensures Count(s, ch) == 0
    decreases |s|
  {
    if s != [] {
      assert s == s[..|s| - 1] + [s[|s| - 1]];
      CountAbsent(s[..|s| - 1], ch);
    }
  }

  /** A formatted number as the parser writes it, both to JSON and to WKT. */
  function PointTokens(fx: string, fy: string): seq<Token>
  {
    [StartArray, NumberText(fx), NumberText(fy), EndArray]
  }

  function PointText(fx: string, fy: string): string
  {
    " " + fx + " " + fy
  }

  /** A point is one balanced array, opened at the level it is written at. */
  lemma PointTokensShape(fx: string, fy: string, d: int)
    ensures Depth(PointTokens(fx, fy)) == 0
    ensures Opens(PointTokens(fx, fy), d) == if d == 0 then 1 else 0
  {
    var t := PointTokens(fx, fy);
    assert t == [StartArray] + [NumberText(fx)] + [NumberText(fy)] + [EndArray];
    OpensSingle(StartArray, d); OpensSingle(NumberText(fx), d - 1);
    OpensSingle(NumberText(fy), d - 1); OpensSingle(EndArray, d - 1);
    OpensAppend([StartArray], [NumberText(fx)], d);
    DepthAppend([StartArray], [NumberText(fx)]);
    OpensAppend([StartArray] + [NumberText(fx)], [NumberText(fy)], d);
    DepthAppend([StartArray] + [NumberText(fx)], [NumberText(fy)]);
    OpensAppend([StartArray] + [NumberText(fx)] + [NumberText(fy)], [EndArray], d);
    DepthAppend([StartArray] + [NumberText(fx)] + [NumberText(fy)], [EndArray]);
  }

  /** Formatted numbers carry no parentheses (DecimalFormat writes digits, sign, point, exponent). */
  predicate ParenFree(s: string)
  {
    '(' !in s && ')' !in s
  }

  lemma PointTextParens(fx: string, fy: string)
    requires ParenFree(fx) && ParenFree(fy)
    ensures Count(PointText(fx, fy), '(') == 0 && Count(PointText(fx, fy), ')') == 0
  {
    CountAbsent(PointText(fx, fy), '(');
    CountAbsent(PointText(fx, fy), ')');
  }
}
