/**
 * BaseRowListener: phase 1. Rows arrive in timestamp order; rows the filter
 * accepts ("target" rows) are confirmed, rows it rejects are held back and
 * only become part of the track when a later target row confirms them. The
 * confirmed buffer is simplified and written in batches; a time gap longer
 * than `msSplit` starts a new line of the MultiLineString.
 *
 * Each operation is specified by a function on `ListenerState` (the
 * listener's fields plus the history the invariants talk about); the class's
 * methods are proved to compute those functions, and the invariants are
 * lemmas about them.
 */
module RowListener {
  import opened Wrappers
  import opened Geometry
  import opened Json
  import opened Failures
  import opened Properties
  import opened MultiLineWriter

  /** What the listener asks its line writer for. */
  datatype SinkEvent = LineStart | LineEnd | Point(c: Coordinate)

  /** Every request sent to the line writer since `start`, the latest last. */
  datatype Trace = Empty | Then(before: Trace, last: SinkEvent)

  /** The constructor's arguments, and the three `DataRow` getters. */
  datatype Config<-T> = Config(
    msSplit: int,
    simplify: seq<Coordinate> -> seq<Coordinate>,   // GeometrySimplifier.simplifyGeometry
    batchSize: int,
    filterRow: T -> bool,
    maxAllowedSimplifiedPoints: int,
    timestampOf: T -> int,                           // getTimestamp().toEpochMilli()
    lonOf: T -> real,
    latOf: T -> real)

  /**
   * The listener's seven fields, then its history: the rows processed, the
   * last target row, the rows behind the potential buffer, what was sent to
   * the line writer, and how many coordinates entered the confirmed buffer.
   */
  datatype ListenerState<T> = ListenerState(
    confirmed: seq<Coordinate>,
    potential: seq<Coordinate>,
    lastTimestamp: Option<int>,
    writingLine: bool,
    unsimplified: int,
    simplified: int,
    target: int,
    rows: seq<T>,
    lastTarget: Option<T>,
    potentialRows: seq<T>,
    events: Trace,
    confirmedIn: int)

  /** The state an operation leaves, and whether it threw. */
  datatype Step<T> = Step(state: ListenerState<T>, outcome: Outcome<Failure>)

  function Initial<T>(): ListenerState<T>
  {
    ListenerState([], [], None, false, 0, 0, 0, [], None, [], Empty, 0)
  }

  // ---------------------------------------------------------------------------
  // The sink trace

  function EventTokens(w: GeoJsonMultiLineWriter, e: SinkEvent): seq<Token>
  {
    match e
    case LineStart => [StartArray]
    case LineEnd => [EndArray]
    case Point(c) => w.CoordinateTokens(CoordinateValues(c))
  }

  /** The tokens a trace puts into the generator. */
  function Render(w: GeoJsonMultiLineWriter, t: Trace): seq<Token>
  {
    match t
    case Empty => []
    case Then(before, e) => Render(w, before) + EventTokens(w, e)
  }

  lemma AppendAssoc<X>(a: seq<X>, b: seq<X>, c: seq<X>)
    ensures (a + b) + c == a + (b + c)
  {
  }

  /** The first `n` coordinates of `cs`, written one after another after `t`. */
  function Extend(t: Trace, cs: seq<Coordinate>, n: nat): Trace
    requires n <= |cs|
  {
    if n == 0 then t else Then(Extend(t, cs, n - 1), Point(cs[n - 1]))
  }

  /**
   * `Some(open)` when the trace is well nested (lines never nest, points
   * only inside a line); `open` tells whether the last line is still open.
   */
  function LineState(t: Trace): Option<bool>
  {
    match t
    case Empty => Some(false)
    case Then(before, e) =>
      var s := LineState(before);
      if s.None? then None
      else match e
        case LineStart => if s.value then None else Some(true)
        case LineEnd => if s.value then Some(false) else None
        case Point(_) => if s.value then Some(true) else None
  }

  /** How many coordinates the trace writes. */
  function PointCount(t: Trace): nat
  {
    match t
    case Empty => 0
    case Then(before, e) => PointCount(before) + (if e.Point? then 1 else 0)
  }

  /** The coordinates the trace writes. */
  function Written(t: Trace): set<Coordinate>
  {
    match t
    case Empty => {}
    case Then(before, e) => Written(before) + (if e.Point? then {e.c} else {})
  }

  /** Points written into an open line keep it open, are counted, and come from `cs`. */
  lemma {:induction false} ExtendOpenLine(t: Trace, cs: seq<Coordinate>, n: nat)
    requires n <= |cs| && LineState(t) == Some(true)
    ensures LineState(Extend(t, cs, n)) == Some(true)
    ensures PointCount(Extend(t, cs, n)) == PointCount(t) + n
    ensures forall x :: x in Written(Extend(t, cs, n)) ==> x in Written(t) || x in cs
  {
    if n > 0 {
      ExtendOpenLine(t, cs, n - 1);
    }
  }

  /** Well-nested traces leave exactly the open line, if any, unclosed. */
  lemma {:induction false} RenderDepth(w: GeoJsonMultiLineWriter, t: Trace)
    requires LineState(t).Some?
    ensures Depth(Render(w, t)) == if LineState(t).value then 1 else 0
  {
    match t
    case Empty =>
    case Then(before, e) =>
      RenderDepth(w, before);
      DepthAppend(Render(w, before), EventTokens(w, e));
      match e
      case LineStart => DepthPrefix([StartArray], 1);
      case LineEnd => DepthPrefix([EndArray], 1);
      case Point(c) => w.CoordinateTokensDepth(CoordinateValues(c));
  }

  /** Once every line is closed, `start`, the lines and `finish` make a balanced document. */
  lemma FinishedDocumentBalanced(w: GeoJsonMultiLineWriter, t: Trace, p: PropertiesValue)
    requires LineState(t) == Some(false)
    ensures Depth(StartTokens + Render(w, t) + FinishTokens(p)) == 0
  {
    FeatureFrame(p);
    RenderDepth(w, t);
    DepthAppend(StartTokens, Render(w, t));
    DepthAppend(StartTokens + Render(w, t), FinishTokens(p));
  }

  // ---------------------------------------------------------------------------
  // The operations, as functions

  function ToCoordinate<T>(c: Config<T>, row: T): Coordinate
  {
    Coordinate(c.lonOf(row), c.latOf(row), Some(c.timestampOf(row) as real), None)
  }

  predicate IsBatchFull<T>(c: Config<T>, confirmed: seq<Coordinate>)
  {
    |confirmed| > c.batchSize
  }

  predicate IsSplittingEnabled<T>(c: Config<T>)
  {
    c.msSplit > 0
  }

  predicate ShouldSplit<T>(c: Config<T>, lastTimestamp: Option<int>, timestamp: int)
  {
    IsSplittingEnabled(c) && lastTimestamp.Some? && timestamp - lastTimestamp.value > c.msSplit
  }

  /** `addConfirmedRow`: the held-back rows and then the row join the confirmed buffer. */
  function AddConfirmedRowStep<T>(c: Config<T>, s: ListenerState<T>, row: T): ListenerState<T>
  {
    s.(target := s.target + 1,
       lastTimestamp := Some(c.timestampOf(row)),
       confirmed := s.confirmed + s.potential + [ToCoordinate(c, row)],
       potential := [],
       rows := s.rows + [row],
       lastTarget := Some(row),
       potentialRows := [],
       confirmedIn := s.confirmedIn + |s.potential| + 1)
  }

  /** `addPotentialRow`: the row is held back, unless no target row has been seen yet. */
  function AddPotentialRowStep<T>(c: Config<T>, s: ListenerState<T>, row: T): ListenerState<T>
  {
    if s.lastTimestamp.Some? then
      s.(potential := s.potential + [ToCoordinate(c, row)],
         potentialRows := s.potentialRows + [row],
         rows := s.rows + [row])
    else
      s.(rows := s.rows + [row])
  }

  /** The exception `incrementSimplifiedPointCount` throws once the new count `n` passes a positive limit. */
  function CountCheck(max: int, n: int): Outcome<Failure>
  {
    if max > 0 && n > max then Fail(PointCountExceeded(max, n)) else Pass
  }

  /** `incrementSimplifiedPointCount`: the count goes up before the limit is checked. */
  function IncrementStep<T>(c: Config<T>, s: ListenerState<T>): Step<T>
  {
    Step(s.(simplified := s.simplified + 1), CountCheck(c.maxAllowedSimplifiedPoints, s.simplified + 1))
  }

  /** What the loop of `writeConfirmed` leaves: the count, the trace, and whether it threw. */
  datatype LoopResult = LoopResult(count: int, events: Trace, outcome: Outcome<Failure>)

  /**
   * The loop of `writeConfirmed` from point `i` on: count the point, throw if
   * the count passed the limit, otherwise write it and go on.
   */
  function WriteLoop(max: int, count: int, t: Trace, pts: seq<Coordinate>, i: nat): LoopResult
    requires i <= |pts|
    decreases |pts| - i
  {
    if i == |pts| then LoopResult(count, t, Pass)
    else
      var check := CountCheck(max, count + 1);
      if check.Fail? then LoopResult(count + 1, t, check)
      else WriteLoop(max, count + 1, Then(t, Point(pts[i])), pts, i + 1)
  }

  /** The loop of `writeConfirmed` over the simplified points. */
  function WritePointsStep<T>(c: Config<T>, s: ListenerState<T>, pts: seq<Coordinate>): Step<T>
  {
    var l := WriteLoop(c.maxAllowedSimplifiedPoints, s.simplified, s.events, pts, 0);
    Step(s.(simplified := l.count, events := l.events), l.outcome)
  }

  /** `writeConfirmed`: count the buffer as unsimplified, simplify it and write it into the open line. */
  function WriteConfirmedStep<T>(c: Config<T>, s: ListenerState<T>): Step<T>
  {
    var s1 := s.(unsimplified := s.unsimplified + |s.confirmed|);
    if |s.confirmed| == 1 then Step(s1, Fail(InvalidLineString(1)))
    else
      var w := WritePointsStep(c, s1.(writingLine := true, events := Opened(s.events, s.writingLine)),
                               c.simplify(s.confirmed));
      Step(if w.outcome.Pass? then w.state.(confirmed := []) else w.state, w.outcome)
  }

  /** `maybeStartLine` on the trace. */
  function Opened(t: Trace, writingLine: bool): Trace
  {
    if writingLine then t else Then(t, LineStart)
  }

  /** `maybeEndLine` on the trace. */
  function Closed(t: Trace, writingLine: bool): Trace
  {
    if writingLine then Then(t, LineEnd) else t
  }

  /**
   * `split`: end the open line; what is confirmed becomes a line of its own,
   * or is dropped (but counted) when it is a single point; the held-back rows
   * are discarded.
   */
  function SplitStep<T>(c: Config<T>, s: ListenerState<T>): Step<T>
  {
    var s1 := s.(writingLine := false, events := Closed(s.events, s.writingLine));
    if |s.confirmed| >= 2 then
      var w := WriteConfirmedStep(c, s1);
      if w.outcome.Fail? then w
      else
        Step(w.state.(writingLine := false, events := Then(w.state.events, LineEnd), potential := [], potentialRows := []),
             Pass)
    else if |s.confirmed| == 1 then
      Step(s1.(confirmed := [], unsimplified := s.unsimplified + 1, potential := [], potentialRows := []), Pass)
    else
      Step(s1.(potential := [], potentialRows := []), Pass)
  }

  /** The first part of `processRow`: a full batch is written. */
  function FlushStep<T>(c: Config<T>, s: ListenerState<T>): Step<T>
  {
    if IsBatchFull(c, s.confirmed) then WriteConfirmedStep(c, s) else Step(s, Pass)
  }

  /** The second part of `processRow`: a time gap splits the line. */
  function GapStep<T>(c: Config<T>, s: ListenerState<T>, row: T): Step<T>
  {
    if ShouldSplit(c, s.lastTimestamp, c.timestampOf(row)) then SplitStep(c, s) else Step(s, Pass)
  }

  /** The last part of `processRow`: the row is confirmed or held back. */
  function BufferRowStep<T>(c: Config<T>, s: ListenerState<T>, row: T): ListenerState<T>
  {
    if c.filterRow(row) then AddConfirmedRowStep(c, s, row) else AddPotentialRowStep(c, s, row)
  }

  /** `processRow`: flush a full batch, split on a time gap, then buffer the row. */
  function ProcessRowStep<T>(c: Config<T>, s: ListenerState<T>, row: T): Step<T>
  {
    var w := FlushStep(c, s);
    if w.outcome.Fail? then w
    else
      var sp := GapStep(c, w.state, row);
      if sp.outcome.Fail? then sp
      else Step(BufferRowStep(c, sp.state, row), Pass)
  }

  /** `finish`: an open line takes what is confirmed (a lone point unsimplified) and is closed; otherwise `split`. */
  function FinishStep<T>(c: Config<T>, s: ListenerState<T>): Step<T>
  {
    if s.writingLine then CloseLineStep(c, s) else SplitStep(c, s)
  }

  /** The open-line branch of `finish`: write what is confirmed, then end the line. */
  function CloseLineStep<T>(c: Config<T>, s: ListenerState<T>): Step<T>
  {
      var body :=
        if |s.confirmed| >= 2 then WriteConfirmedStep(c, s)
        else if |s.confirmed| == 1 then
          var inc := IncrementStep(c, s);
          if inc.outcome.Fail? then inc
          else Step(inc.state.(unsimplified := s.unsimplified + 1, events := Then(s.events, Point(s.confirmed[0]))),
                    Pass)
        else Step(s, Pass);
      if body.outcome.Fail? then body
      else Step(body.state.(writingLine := false, events := Then(body.state.events, LineEnd)), Pass)
  }

  /** What `finish` hands to `lineWriter.finish`: the three counts and nothing else. */
  function FinalProperties<T>(s: ListenerState<T>): PropertiesValue
  {
    PropertiesValue(None, None, Some(s.unsimplified), Some(s.simplified), Some(s.target), map[])
  }

  /** `processRow` for each row in turn, stopping at the first exception. */
  function ProcessRowsStep<T>(c: Config<T>, s: ListenerState<T>, rows: seq<T>): Step<T>
    decreases |rows|
  {
    if rows == [] then Step(s, Pass)
    else
      var first := ProcessRowStep(c, s, rows[0]);
      if first.outcome.Fail? then first else ProcessRowsStep(c, first.state, rows[1..])
  }

  // ---------------------------------------------------------------------------
  // Facts about single steps

  /** Writing `n` points after a first one is writing `n + 1` points. */
  lemma {:induction false} ExtendThen(t: Trace, c: Coordinate, cs: seq<Coordinate>, n: nat)
    requires n <= |cs|
    ensures Extend(Then(t, Point(c)), cs, n) == Extend(t, [c] + cs, n + 1)
  {
    if n > 0 {
      ExtendThen(t, c, cs, n - 1);
    }
  }

  /** Whether counting `n` more points after `used` passes a positive limit `max`. */
  predicate Exceeds(max: int, used: int, n: nat)
  {
    max > 0 && n > 0 && used + n > max
  }

  /** How many of `n` points fit under a positive limit `max` after `used`. */
  function WrittenCount(max: int, used: int, n: nat): nat
  {
    if !Exceeds(max, used, n) then n else if used < max then max - used else 0
  }

  /**
   * The loop in closed form: under the limit it writes and counts every
   * point; otherwise it writes the points that fit and throws, reporting the
   * count one past them.
   */
  lemma {:induction false} WriteLoopClosed(max: int, count: int, t: Trace, pts: seq<Coordinate>, i: nat)
    requires i <= |pts|
    ensures var n := |pts| - i;
      var k := WrittenCount(max, count, n);
      WriteLoop(max, count, t, pts, i) ==
        LoopResult(count + k + (if Exceeds(max, count, n) then 1 else 0),
                   Extend(t, pts[i..], k),
                   if Exceeds(max, count, n) then Fail(PointCountExceeded(max, count + k + 1)) else Pass)
    decreases |pts| - i
  {
    if i < |pts| && CountCheck(max, count + 1).Pass? {
      var rest := |pts| - (i + 1);
      WriteLoopClosed(max, count + 1, Then(t, Point(pts[i])), pts, i + 1);
      ExtendThen(t, pts[i], pts[i + 1..], WrittenCount(max, count + 1, rest));
      assert [pts[i]] + pts[i + 1..] == pts[i..];
    }
  }

  /**
   * The point limit: with a positive limit the loop throws exactly when the
   * points do not fit in what is left, having written what fits and counted
   * one past the limit; otherwise every point is written and counted.
   */
  lemma WritePointsBudget<T>(c: Config<T>, s: ListenerState<T>, pts: seq<Coordinate>)
    requires 0 <= s.simplified
    requires c.maxAllowedSimplifiedPoints > 0 ==> s.simplified <= c.maxAllowedSimplifiedPoints
    ensures var r := WritePointsStep(c, s, pts);
      var max := c.maxAllowedSimplifiedPoints;
      && (r.outcome.Fail? <==> max > 0 && s.simplified + |pts| > max)
      && (r.outcome.Fail? ==>
            r.state.events == Extend(s.events, pts, max - s.simplified) &&
            r.outcome == Fail(PointCountExceeded(max, max + 1)) &&
            r.state.simplified == max + 1)
      && (r.outcome.Pass? ==>
            r.state.events == Extend(s.events, pts, |pts|) &&
            r.state.simplified == s.simplified + |pts| &&
            (max > 0 ==> r.state.simplified <= max))
  {
    WriteLoopClosed(c.maxAllowedSimplifiedPoints, s.simplified, s.events, pts, 0);
    assert pts[0..] == pts;
  }

  // ---------------------------------------------------------------------------
  // Invariants

  /** Douglas-Peucker only ever keeps points of its input. */
  ghost predicate KeepsPoints(simplify: seq<Coordinate> -> seq<Coordinate>)
  {
    forall s, c :: c in simplify(s) ==> c in s
  }

  /** The coordinates of `rows`, in order. */
  function Coords<T>(c: Config<T>, rows: seq<T>): seq<Coordinate>
  {
    if rows == [] then [] else Coords(c, rows[..|rows| - 1]) + [ToCoordinate(c, rows[|rows| - 1])]
  }

  /** The coordinates of `rows`, as a set. */
  ghost function RowCoordinates<T>(c: Config<T>, rows: seq<T>): set<Coordinate>
  {
    if rows == [] then {} else RowCoordinates(c, rows[..|rows| - 1]) + {ToCoordinate(c, rows[|rows| - 1])}
  }

  function TargetCount<T>(c: Config<T>, rows: seq<T>): nat
  {
    if rows == [] then 0
    else TargetCount(c, rows[..|rows| - 1]) + (if c.filterRow(rows[|rows| - 1]) then 1 else 0)
  }

  /**
   * `lastTimestamp` is the last target row's; a non-target row is held only
   * after a target row; the confirmed buffer is empty or ends with the last
   * target row's coordinate; the potential buffer holds the coordinates of
   * the non-target rows behind it, in order.
   */
  ghost predicate BuffersInv<T>(c: Config<T>, s: ListenerState<T>)
  {
    && s.lastTimestamp == (if s.lastTarget.Some? then Some(c.timestampOf(s.lastTarget.value)) else None)
    && (s.lastTarget.Some? ==> s.lastTarget.value in s.rows && c.filterRow(s.lastTarget.value))
    && (s.lastTarget.None? ==> s.confirmed == [] && s.potential == [])
    && (s.confirmed != [] ==>
          s.lastTarget.Some? && s.confirmed[|s.confirmed| - 1] == ToCoordinate(c, s.lastTarget.value))
    && s.potential == Coords(c, s.potentialRows)
    && (forall r :: r in s.potentialRows ==> !c.filterRow(r))
  }

  /** Every buffered or written coordinate is the coordinate of a processed row. */
  ghost predicate FromRows<T>(c: Config<T>, s: ListenerState<T>)
  {
    && (forall x :: x in s.confirmed ==> x in RowCoordinates(c, s.rows))
    && (forall x :: x in s.potential ==> x in RowCoordinates(c, s.rows))
    && Written(s.events) <= RowCoordinates(c, s.rows)
  }

  /** The trace is well nested and the counters count what their names say. */
  ghost predicate CountsInv<T>(c: Config<T>, s: ListenerState<T>)
  {
    && LineState(s.events) == Some(s.writingLine)
    && s.target == TargetCount(c, s.rows)
    && s.simplified == PointCount(s.events)
    && (c.maxAllowedSimplifiedPoints > 0 ==> s.simplified <= c.maxAllowedSimplifiedPoints)
    && s.unsimplified + |s.confirmed| == s.confirmedIn
  }

  ghost predicate Inv<T>(c: Config<T>, s: ListenerState<T>)
  {
    KeepsPoints(c.simplify) && BuffersInv(c, s) && FromRows(c, s) && CountsInv(c, s)
  }

  lemma InitialInv<T>(c: Config<T>)
    requires KeepsPoints(c.simplify)
    ensures Inv(c, Initial())
  {
    var s := Initial<T>();
    assert s.rows == [] && s.potentialRows == [] && s.potential == [] && s.lastTarget.None?;
  }

  lemma RowsExtend<T>(c: Config<T>, rows: seq<T>, row: T)
    ensures RowCoordinates(c, rows + [row]) == RowCoordinates(c, rows) + {ToCoordinate(c, row)}
    ensures Coords(c, rows + [row]) == Coords(c, rows) + [ToCoordinate(c, row)]
    ensures TargetCount(c, rows + [row]) == TargetCount(c, rows) + (if c.filterRow(row) then 1 else 0)
  {
    assert (rows + [row])[..|rows|] == rows;
  }

  lemma AddConfirmedRowInv<T>(c: Config<T>, s: ListenerState<T>, row: T)
    requires Inv(c, s) && c.filterRow(row)
    ensures Inv(c, AddConfirmedRowStep(c, s, row))
  {
    var r := AddConfirmedRowStep(c, s, row);
    RowsExtend(c, s.rows, row);
    assert BuffersInv(c, r);
    assert FromRows(c, r);
    assert CountsInv(c, r);
  }

  lemma AddPotentialRowInv<T>(c: Config<T>, s: ListenerState<T>, row: T)
    requires Inv(c, s) && !c.filterRow(row)
    ensures Inv(c, AddPotentialRowStep(c, s, row))
  {
    var r := AddPotentialRowStep(c, s, row);
    RowsExtend(c, s.rows, row);
    RowsExtend(c, s.potentialRows, row);
    assert BuffersInv(c, r);
    assert FromRows(c, r);
    assert CountsInv(c, r);
  }

  lemma WriteConfirmedInv<T>(c: Config<T>, s: ListenerState<T>)
    requires Inv(c, s)
    requires WriteConfirmedStep(c, s).outcome.Pass?
    ensures Inv(c, WriteConfirmedStep(c, s).state)
  {
    var start := Opened(s.events, s.writingLine);
    var pts := c.simplify(s.confirmed);
    var s2 := s.(unsimplified := s.unsimplified + |s.confirmed|).(writingLine := true, events := start);
    WritePointsBudget(c, s2, pts);
    ExtendOpenLine(start, pts, |pts|);
    var r := WriteConfirmedStep(c, s).state;
    assert r.events == Extend(start, pts, |pts|);
    assert Written(r.events) <= RowCoordinates(c, s.rows);
  }

  lemma SplitInv<T>(c: Config<T>, s: ListenerState<T>)
    requires Inv(c, s)
    requires SplitStep(c, s).outcome.Pass?
    ensures Inv(c, SplitStep(c, s).state)
  {
    var s1 := s.(writingLine := false, events := Closed(s.events, s.writingLine));
    assert Inv(c, s1);
    if |s.confirmed| >= 2 {
      WriteConfirmedInv(c, s1);
    }
  }

  lemma FlushInv<T>(c: Config<T>, s: ListenerState<T>)
    requires Inv(c, s) && FlushStep(c, s).outcome.Pass?
    ensures Inv(c, FlushStep(c, s).state) && FlushStep(c, s).state.rows == s.rows
  {
    if IsBatchFull(c, s.confirmed) {
      WriteConfirmedInv(c, s);
    }
  }

  lemma GapInv<T>(c: Config<T>, s: ListenerState<T>, row: T)
    requires Inv(c, s) && GapStep(c, s, row).outcome.Pass?
    ensures Inv(c, GapStep(c, s, row).state) && GapStep(c, s, row).state.rows == s.rows
  {
    if ShouldSplit(c, s.lastTimestamp, c.timestampOf(row)) {
      SplitInv(c, s);
    }
  }

  lemma BufferRowInv<T>(c: Config<T>, s: ListenerState<T>, row: T)
    requires Inv(c, s)
    ensures Inv(c, BufferRowStep(c, s, row)) && BufferRowStep(c, s, row).rows == s.rows + [row]
  {
    if c.filterRow(row) {
      AddConfirmedRowInv(c, s, row);
    } else {
      AddPotentialRowInv(c, s, row);
    }
  }

  /** Every row that does not throw keeps the invariants. */
  lemma ProcessRowInv<T>(c: Config<T>, s: ListenerState<T>, row: T)
    requires Inv(c, s)
    requires ProcessRowStep(c, s, row).outcome.Pass?
    ensures Inv(c, ProcessRowStep(c, s, row).state)
    ensures ProcessRowStep(c, s, row).state.rows == s.rows + [row]
  {
    var w := FlushStep(c, s);
    FlushInv(c, s);
    var sp := GapStep(c, w.state, row);
    GapInv(c, w.state, row);
    BufferRowInv(c, sp.state, row);
  }

  /**
   * What `processRow` does, in the terms the listener promises: a batch is
   * flushed only when the confirmed buffer holds more than `batchSize`
   * coordinates; a split happens only when splitting is enabled, a target
   * row has been seen and the gap to the last target row's timestamp exceeds
   * `msSplit`; then the row is confirmed (with the held-back rows before it)
   * or held back.
   */
  lemma ProcessRowEffect<T>(c: Config<T>, s: ListenerState<T>, row: T)
    requires Inv(c, s)
    requires ProcessRowStep(c, s, row).outcome.Pass?
    ensures
      var r := ProcessRowStep(c, s, row);
      var full := |s.confirmed| > c.batchSize;
      var gap := c.msSplit > 0 && s.lastTarget.Some? &&
                 c.timestampOf(row) - c.timestampOf(s.lastTarget.value) > c.msSplit;
      var kept := if full || gap then [] else s.confirmed;
      var held := if gap then [] else s.potential;
      && r.state.writingLine == ((full || s.writingLine) && !gap)
      && r.state.unsimplified == s.unsimplified + (if full || gap then |s.confirmed| else 0)
      && (!full && !gap ==> r.state.events == s.events)
      && (c.filterRow(row) ==>
            r.state.confirmed == kept + held + [ToCoordinate(c, row)] && r.state.potential == [] &&
            r.state.lastTimestamp == Some(c.timestampOf(row)) && r.state.target == s.target + 1)
      && (!c.filterRow(row) ==>
            r.state.confirmed == kept && r.state.target == s.target &&
            r.state.potential == held + (if s.lastTarget.Some? then [ToCoordinate(c, row)] else []) &&
            r.state.lastTimestamp == s.lastTimestamp)
  {
    var w := FlushStep(c, s);
    FlushFacts(c, s);
    GapFacts(c, w.state, row);
  }

  /** What the flush part of `processRow` changes. */
  lemma FlushFacts<T>(c: Config<T>, s: ListenerState<T>)
    requires FlushStep(c, s).outcome.Pass?
    ensures var w := FlushStep(c, s).state;
      var full := IsBatchFull(c, s.confirmed);
      && w.confirmed == (if full then [] else s.confirmed)
      && w.potential == s.potential && w.lastTimestamp == s.lastTimestamp
      && w.lastTarget == s.lastTarget && w.target == s.target
      && w.writingLine == (full || s.writingLine)
      && w.unsimplified == s.unsimplified + (if full then |s.confirmed| else 0)
      && (!full ==> w.events == s.events)
  {
  }

  /** What the split part of `processRow` changes. */
  lemma GapFacts<T>(c: Config<T>, s: ListenerState<T>, row: T)
    requires GapStep(c, s, row).outcome.Pass?
    ensures var g := GapStep(c, s, row).state;
      var gap := ShouldSplit(c, s.lastTimestamp, c.timestampOf(row));
      && g.confirmed == (if gap then [] else s.confirmed)
      && g.potential == (if gap then [] else s.potential)
      && g.lastTimestamp == s.lastTimestamp && g.lastTarget == s.lastTarget && g.target == s.target
      && g.writingLine == (s.writingLine && !gap)
      && g.unsimplified == s.unsimplified + (if gap then |s.confirmed| else 0)
      && (!gap ==> g.events == s.events)
  {
  }

  /**
   * After a `finish` that does not throw, every line is closed, the counts
   * are those of the whole run, and every written coordinate is a processed
   * row's (lon, lat, epoch-millis timestamp).
   */
  lemma FinishFacts<T>(c: Config<T>, s: ListenerState<T>)
    requires Inv(c, s)
    requires FinishStep(c, s).outcome.Pass?
    ensures var r := FinishStep(c, s).state;
      && LineState(r.events) == Some(false)
      && r.simplified == PointCount(r.events)
      && r.target == TargetCount(c, r.rows)
      && r.unsimplified == r.confirmedIn
      && r.rows == s.rows
      && Written(r.events) <= RowCoordinates(c, r.rows)
  {
    if s.writingLine {
      if |s.confirmed| >= 2 {
        WriteConfirmedInv(c, s);
      }
    } else {
      SplitInv(c, s);
    }
  }

  lemma RowsSplit<T>(done: seq<T>, rows: seq<T>)
    requires rows != []
    ensures done + rows == (done + [rows[0]]) + rows[1..]
  {
    assert rows == [rows[0]] + rows[1..];
  }

  /** A run of rows that does not throw keeps the invariants and records every row. */
  lemma {:induction false} ProcessRowsInv<T>(c: Config<T>, s: ListenerState<T>, rows: seq<T>)
    requires Inv(c, s)
    requires ProcessRowsStep(c, s, rows).outcome.Pass?
    ensures Inv(c, ProcessRowsStep(c, s, rows).state)
    ensures ProcessRowsStep(c, s, rows).state.rows == s.rows + rows
    decreases |rows|
  {
    if rows == [] {
      assert s.rows + rows == s.rows;
    } else {
      var first := ProcessRowStep(c, s, rows[0]);
      ProcessRowInv(c, s, rows[0]);
      assert first.outcome.Pass?;
      ProcessRowsInv(c, first.state, rows[1..]);
      RowsSplit(s.rows, rows);
    }
  }

  /**
   * A whole run from a fresh listener: if every `processRow` and `finish`
   * complete, the document the generator receives is balanced, every line is
   * closed, `targetPointCount` counts the rows the filter accepts,
   * `simplifiedPointCount` the coordinates written, and every coordinate
   * written is a row's.
   */
  lemma WholeRun<T>(c: Config<T>, w: GeoJsonMultiLineWriter, rows: seq<T>)
    requires KeepsPoints(c.simplify)
    requires ProcessRowsStep(c, Initial(), rows).outcome.Pass?
    requires FinishStep(c, ProcessRowsStep(c, Initial(), rows).state).outcome.Pass?
    ensures
      var fin := FinishStep(c, ProcessRowsStep(c, Initial(), rows).state).state;
      && LineState(fin.events) == Some(false)
      && Depth(StartTokens + Render(w, fin.events) + FinishTokens(FinalProperties(fin))) == 0
      && fin.target == TargetCount(c, rows)
      && fin.simplified == PointCount(fin.events)
      && Written(fin.events) <= RowCoordinates(c, rows)
  {
    InitialInv(c);
    var run := ProcessRowsStep(c, Initial(), rows);
    ProcessRowsInv(c, Initial(), rows);
    assert Initial<T>().rows + rows == rows;
    FinishFacts(c, run.state);
    var fin := FinishStep(c, run.state).state;
    FinishedDocumentBalanced(w, fin.events, FinalProperties(fin));
  }

  // ---------------------------------------------------------------------------
  // The listener

  class BaseRowListener<T> {
    const msSplit: int
    const simplify: seq<Coordinate> -> seq<Coordinate>
    const lineWriter: GeoJsonMultiLineWriter
    const batchSize: int
    const filterRow: T -> bool
    const maxAllowedSimplifiedPoints: int
    const timestampOf: T -> int
    const lonOf: T -> real
    const latOf: T -> real

    var confirmedLineString: seq<Coordinate>
    var potentialLineString: seq<Coordinate>
    var lastTimestamp: Option<int>
    var writingLine: bool
    var unsimplifiedPointCount: int
    var simplifiedPointCount: int
    var targetPointCount: int

    ghost var rows: seq<T>
    ghost var lastTarget: Option<T>
    ghost var potentialRows: seq<T>
    ghost var events: Trace
    ghost var confirmedIn: int
    ghost var base: seq<Token>

    function Cfg(): Config<T>
    {
      Config(msSplit, simplify, batchSize, filterRow, maxAllowedSimplifiedPoints, timestampOf, lonOf, latOf)
    }

    ghost function State(): ListenerState<T>
      reads this
    {
      ListenerState(confirmedLineString, potentialLineString, lastTimestamp, writingLine,
            unsimplifiedPointCount, simplifiedPointCount, targetPointCount,
            rows, lastTarget, potentialRows, events, confirmedIn)
    }

    /** The generator holds what `start` left, then the listener's trace rendered. */
    ghost predicate Synced()
      reads this`base, this`events, lineWriter.generator`tokens
    {
      lineWriter.generator.tokens == base + Render(lineWriter, events)
    }

    constructor (msSplit: int, simplify: seq<Coordinate> -> seq<Coordinate>, lineWriter: GeoJsonMultiLineWriter,
                 batchSize: int, filterRow: T -> bool, maxAllowedSimplifiedPoints: int,
                 timestampOf: T -> int, lonOf: T -> real, latOf: T -> real)
      ensures Cfg() == Config(msSplit, simplify, batchSize, filterRow, maxAllowedSimplifiedPoints, timestampOf, lonOf, latOf)
      ensures this.lineWriter == lineWriter
      ensures State() == Initial()
    {
      this.msSplit := msSplit;
      this.simplify := simplify;
      this.lineWriter := lineWriter;
      this.batchSize := batchSize;
      this.filterRow := filterRow;
      this.maxAllowedSimplifiedPoints := maxAllowedSimplifiedPoints;
      this.timestampOf := timestampOf;
      this.lonOf := lonOf;
      this.latOf := latOf;
      confirmedLineString := [];
      potentialLineString := [];
      lastTimestamp := None;
      writingLine := false;
      unsimplifiedPointCount := 0;
      simplifiedPointCount := 0;
      targetPointCount := 0;
      rows := [];
      lastTarget := None;
      potentialRows := [];
      events := Empty;
      confirmedIn := 0;
    }

    /** The five-argument constructor: no limit on simplified points. */
    constructor WithoutLimit(msSplit: int, simplify: seq<Coordinate> -> seq<Coordinate>,
                             lineWriter: GeoJsonMultiLineWriter, batchSize: int, filterRow: T -> bool,
                             timestampOf: T -> int, lonOf: T -> real, latOf: T -> real)
      ensures Cfg() == Config(msSplit, simplify, batchSize, filterRow, 0, timestampOf, lonOf, latOf)
      ensures this.lineWriter == lineWriter
      ensures State() == Initial()
    {
      this.msSplit := msSplit;
      this.simplify := simplify;
      this.lineWriter := lineWriter;
      this.batchSize := batchSize;
      this.filterRow := filterRow;
      this.maxAllowedSimplifiedPoints := 0;
      this.timestampOf := timestampOf;
      this.lonOf := lonOf;
      this.latOf := latOf;
      confirmedLineString := [];
      potentialLineString := [];
      lastTimestamp := None;
      writingLine := false;
      unsimplifiedPointCount := 0;
      simplifiedPointCount := 0;
      targetPointCount := 0;
      rows := [];
      lastTarget := None;
      potentialRows := [];
      events := Empty;
      confirmedIn := 0;
    }

    method Start()
      modifies this, lineWriter.generator
      ensures State() == old(State()).(confirmed := [], potential := [], potentialRows := [], events := Empty)
      ensures base == old(lineWriter.generator.tokens) + StartTokens
      ensures Synced()
    {
      confirmedLineString := [];
      potentialLineString := [];
      potentialRows := [];
      events := Empty;
      lineWriter.Start();
      base := lineWriter.generator.tokens;
    }

    method MaybeStartLine()
      requires Synced()
      modifies this`writingLine, this`events, lineWriter.generator
      ensures Synced() && writingLine
      ensures events == Opened(old(events), old(writingLine))
    {
      if !writingLine {
        lineWriter.StartLine();
        writingLine := true;
        AppendAssoc(base, Render(lineWriter, events), [StartArray]);
        events := Then(events, LineStart);
      }
    }

    method MaybeEndLine()
      requires Synced()
      modifies this`writingLine, this`events, lineWriter.generator
      ensures Synced() && !writingLine
      ensures events == Closed(old(events), old(writingLine))
    {
      if writingLine {
        EndLine();
      }
    }

    method EndLine()
      requires Synced()
      modifies this`writingLine, this`events, lineWriter.generator
      ensures Synced() && !writingLine
      ensures events == Then(old(events), LineEnd)
    {
      lineWriter.EndLine();
      writingLine := false;
      AppendAssoc(base, Render(lineWriter, events), [EndArray]);
      events := Then(events, LineEnd);
    }

    /** `writeCoordinate(coordinate)`: x, y, then z and m when present. */
    method WriteCoordinate(coordinate: Coordinate)
      requires Synced()
      modifies this`events, lineWriter.generator
      ensures Synced()
      ensures events == Then(old(events), Point(coordinate))
    {
      lineWriter.WriteCoordinate(CoordinateValues(coordinate));
      AppendAssoc(base, Render(lineWriter, events), EventTokens(lineWriter, Point(coordinate)));
      events := Then(events, Point(coordinate));
    }

    method IncrementSimplifiedPointCount() returns (r: Outcome<Failure>)
      modifies this`simplifiedPointCount
      ensures simplifiedPointCount == old(simplifiedPointCount) + 1
      ensures r == CountCheck(maxAllowedSimplifiedPoints, simplifiedPointCount)
    {
      simplifiedPointCount := simplifiedPointCount + 1;
      if maxAllowedSimplifiedPoints > 0 && simplifiedPointCount > maxAllowedSimplifiedPoints {
        return Fail(PointCountExceeded(maxAllowedSimplifiedPoints, simplifiedPointCount));
      }
      r := Pass;
    }

    method AddConfirmedRow(row: T)
      modifies this`targetPointCount, this`lastTimestamp, this`confirmedIn, this`confirmedLineString,
               this`potentialLineString, this`potentialRows, this`rows, this`lastTarget
      ensures State() == AddConfirmedRowStep(Cfg(), old(State()), row)
    {
      var coordinate := ToCoordinate(Cfg(), row);
      targetPointCount, lastTimestamp := targetPointCount + 1, Some(Cfg().timestampOf(row));
      confirmedLineString, confirmedIn :=
        confirmedLineString + potentialLineString + [coordinate], confirmedIn + |potentialLineString| + 1;
      potentialLineString, potentialRows, rows, lastTarget := [], [], rows + [row], Some(row);
    }

    method AddPotentialRow(row: T)
      modifies this`potentialLineString, this`potentialRows, this`rows
      ensures State() == AddPotentialRowStep(Cfg(), old(State()), row)
    {
      if lastTimestamp.Some? {
        potentialLineString := potentialLineString + [ToCoordinate(Cfg(), row)];
        potentialRows := potentialRows + [row];
      }
      rows := rows + [row];
    }

    /** One iteration of the loop of `writeConfirmed`: count the point, then write it. */
    method WritePoint(coordinate: Coordinate) returns (r: Outcome<Failure>)
      requires Synced()
      modifies this`simplifiedPointCount, this`events, lineWriter.generator
      ensures Synced()
      ensures simplifiedPointCount == old(simplifiedPointCount) + 1
      ensures r == CountCheck(maxAllowedSimplifiedPoints, simplifiedPointCount)
      ensures events == if r.Pass? then Then(old(events), Point(coordinate)) else old(events)
    {
      r := IncrementSimplifiedPointCount();
      if r.Pass? {
        WriteCoordinate(coordinate);
      }
    }

    /** The loop of `writeConfirmed`. */
    method WritePoints(simplified: seq<Coordinate>) returns (r: Outcome<Failure>)
      requires Synced()
      modifies this`simplifiedPointCount, this`events, lineWriter.generator
      ensures Synced()
      ensures LoopResult(simplifiedPointCount, events, r) ==
        WriteLoop(maxAllowedSimplifiedPoints, old(simplifiedPointCount), old(events), simplified, 0)
    {
      ghost var result := WriteLoop(maxAllowedSimplifiedPoints, simplifiedPointCount, events, simplified, 0);
      var i := 0;
      while i < |simplified|
        invariant 0 <= i <= |simplified|
        invariant Synced()
        invariant WriteLoop(maxAllowedSimplifiedPoints, simplifiedPointCount, events, simplified, i) == result
      {
        r := WritePoint(simplified[i]);
        if r.Fail? {
          return;
        }
        i := i + 1;
      }
      r := Pass;
    }

    method WriteConfirmed() returns (r: Outcome<Failure>)
      requires Synced()
      modifies this`unsimplifiedPointCount, this`confirmedLineString, this`writingLine, this`simplifiedPointCount,
               this`events, lineWriter.generator
      ensures Synced()
      ensures State() == WriteConfirmedStep(Cfg(), old(State())).state
      ensures r == WriteConfirmedStep(Cfg(), old(State())).outcome
    {
      unsimplifiedPointCount := unsimplifiedPointCount + |confirmedLineString|;
      if |confirmedLineString| == 1 {
        return Fail(InvalidLineString(1));
      }
      var simplified := Cfg().simplify(confirmedLineString);
      MaybeStartLine();
      ghost var s2 := State();
      r := WritePoints(simplified);
      assert State() == WritePointsStep(Cfg(), s2, simplified).state;
      if r.Pass? {
        confirmedLineString := [];
      }
    }

    method Split() returns (r: Outcome<Failure>)
      requires Synced()
      modifies this`unsimplifiedPointCount, this`confirmedLineString, this`writingLine, this`simplifiedPointCount,
               this`events, this`potentialLineString, this`potentialRows, lineWriter.generator
      ensures Synced()
      ensures State() == SplitStep(Cfg(), old(State())).state
      ensures r == SplitStep(Cfg(), old(State())).outcome
    {
      ghost var s0 := State();
      MaybeEndLine();
      assert State() == s0.(writingLine := false, events := Closed(s0.events, s0.writingLine));
      if |confirmedLineString| >= 2 {
        r := WriteConfirmed();
        if r.Fail? {
          return;
        }
        ghost var s1 := State();
        EndLine();
        assert State() == s1.(writingLine := false, events := Then(s1.events, LineEnd));
      } else {
        if |confirmedLineString| == 1 {
          confirmedLineString, unsimplifiedPointCount := [], unsimplifiedPointCount + 1;
        }
        r := Pass;
      }
      potentialLineString, potentialRows := [], [];
    }

    method ProcessRow(row: T) returns (r: Outcome<Failure>)
      requires Synced()
      modifies this`unsimplifiedPointCount, this`confirmedLineString, this`writingLine, this`simplifiedPointCount,
               this`events, this`potentialLineString, this`potentialRows, this`targetPointCount, this`lastTimestamp,
               this`confirmedIn, this`rows, this`lastTarget, lineWriter.generator
      ensures Synced()
      ensures State() == ProcessRowStep(Cfg(), old(State()), row).state
      ensures r == ProcessRowStep(Cfg(), old(State()), row).outcome
    {
      var timestamp := timestampOf(row);
      if IsBatchFull(Cfg(), confirmedLineString) {
        r := WriteConfirmed();
        if r.Fail? {
          return;
        }
      }
      if ShouldSplit(Cfg(), lastTimestamp, timestamp) {
        r := Split();
        if r.Fail? {
          return;
        }
      }
      if filterRow(row) {
        AddConfirmedRow(row);
      } else {
        AddPotentialRow(row);
      }
      r := Pass;
    }

    /** The first part of `finish`: close the open line, or split what is buffered. */
    method CloseGeometry() returns (r: Outcome<Failure>)
      requires Synced()
      modifies this`unsimplifiedPointCount, this`confirmedLineString, this`writingLine, this`simplifiedPointCount,
               this`events, this`potentialLineString, this`potentialRows, lineWriter.generator
      ensures Synced()
      ensures State() == FinishStep(Cfg(), old(State())).state
      ensures r == FinishStep(Cfg(), old(State())).outcome
    {
      if writingLine {
        r := CloseLine();
      } else {
        r := Split();
      }
    }

    /** The open-line branch of `finish`. */
    method CloseLine() returns (r: Outcome<Failure>)
      requires Synced()
      modifies this`unsimplifiedPointCount, this`confirmedLineString, this`writingLine, this`simplifiedPointCount,
               this`events, lineWriter.generator
      ensures Synced()
      ensures State() == CloseLineStep(Cfg(), old(State())).state
      ensures r == CloseLineStep(Cfg(), old(State())).outcome
    {
      ghost var s0 := State();
      if |confirmedLineString| >= 2 {
        r := WriteConfirmed();
        if r.Fail? {
          return;
        }
      } else if |confirmedLineString| == 1 {
        r := IncrementSimplifiedPointCount();
        if r.Fail? {
          return;
        }
        unsimplifiedPointCount := unsimplifiedPointCount + 1;
        WriteCoordinate(confirmedLineString[0]);
        assert State() == s0.(simplified := s0.simplified + 1, unsimplified := s0.unsimplified + 1,
                              events := Then(s0.events, Point(s0.confirmed[0])));
      }
      ghost var s1 := State();
      EndLine();
      assert State() == s1.(writingLine := false, events := Then(s1.events, LineEnd));
      r := Pass;
    }

    method Finish() returns (r: Outcome<Failure>)
      requires Synced()
      modifies this`unsimplifiedPointCount, this`confirmedLineString, this`writingLine, this`simplifiedPointCount,
               this`events, this`potentialLineString, this`potentialRows, lineWriter.generator
      ensures State() == FinishStep(Cfg(), old(State())).state
      ensures r == FinishStep(Cfg(), old(State())).outcome
      ensures r.Fail? ==> Synced()
      ensures r.Pass? ==>
        lineWriter.generator.tokens == base + Render(lineWriter, events) + FinishTokens(FinalProperties(State()))
    {
      r := CloseGeometry();
      if r.Fail? {
        return;
      }
      var b := new Builder.Configure();
      b := b.WithSimplifiedPointCount(Some(simplifiedPointCount));
      b := b.WithUnsimplifiedPointCount(Some(unsimplifiedPointCount));
      b := b.WithTargetPointCount(Some(targetPointCount));
      var properties := b.Build();
      assert properties.Value() == FinalProperties(State());
      lineWriter.Finish(properties);
    }
  }
}
