# trackline core, modelled in Dafny

trackline turns a time-ordered stream of longitude/latitude samples into a
GeoJSON Feature whose geometry is a MultiLineString (RFC 7946, sections 3.1.5
and 3.2). It works in two phases:

* **Phase 1, `BaseRowListener` with `GeoJsonMultiLineWriter`.** Rows arrive
  one at a time. Rows accepted by the filter ("target" rows) are confirmed.
  Rejected rows are held back and join the track only when a later target row
  confirms them. A confirmed buffer longer than `batchSize` is simplified
  (Douglas–Peucker) and written into the open line. A time gap longer than
  `msSplit` ends the line. A positive `maxAllowedSimplifiedPoints` caps the
  number of coordinates written. At the end the writer gets the three point
  counts as the Feature's properties.
* **Phase 2, `GeoJsonMultiLineParser`.** The Feature is re-read and copied
  to a JSON generator. Every segment that crosses the antimeridian is cut
  (RFC 7946, section 3.1.9). The parser also:
  * writes the same lines as WKT (OGC Simple Features Access, part 1,
    clause 7);
  * sums the geodesic distance and keeps a running mean of the speed,
    rejecting any speed above a maximum;
  * keeps a west and an east half-envelope, and from them a bbox that wraps
    the antimeridian (RFC 7946, section 5.2);
  * merges the statistics and any caller-supplied fields into the
    `GeometryProperties` record it read.

`AntimeridianUtils` holds the newer shared versions of the antimeridian
split and the speed check. The parser keeps its own older versions, and the
model has both.

## Modules

| file | module | models |
|---|---|---|
| `wrappers.dfy` | `Wrappers` | `Option`, `Result` and `Outcome` (pass, or the exception thrown) |
| `geometry.dfy` | `Geometry` | JTS coordinates (a NaN z or m is `None`), envelopes, `Math.signum`, the double results a speed can have, and the shape of the spatial4j cut |
| `json.dfy` | `Json` | JSON values read by Jackson, generator tokens, and the two outputs as append-only traces |
| `failures.dfy` | `Failures` | the exceptions, as values |
| `properties.dfy` | `Properties` | `GeometryProperties`, its `Builder`, and how Jackson builds one from JSON |
| `writer.dfy` | `MultiLineWriter` | `GeoJsonMultiLineWriter` |
| `listener.dfy` | `RowListener` | `BaseRowListener`: each operation is a function on the listener state, the class's methods are proved to compute those functions, and the invariants are lemmas about them |
| `antimeridian.dfy` | `Antimeridian` | `AntimeridianUtils` |
| `parser_logic.dfy` | `ParserLogic` | the pure parts of the parser: its own `splitAm` and `getSpeed`, reading a coordinate, the running mean, the half-envelopes and the bbox |
| `parser.dfy` | `MultiLineParser` | the `GeoJsonMultiLineParser` class, with its loops over members, line strings and points |

## Modelling choices

* **Doubles are `real`.** A speed is `Finite(v)`, `Infinity` or `NaN`.
  These are the only values `m / s` can take for a distance `m >= 0`.
* **Oracles are parameters fixed at construction.** They are:
  * the Douglas–Peucker simplifier (`simplify`);
  * the GeoTools WGS84 distance (`distance`, never negative);
  * the spatial4j cut of a two-point line (`cut`: the line itself, a
    two-member collection, or something else);
  * `DecimalFormat` (`decimal`).
* **JTS `Coordinate.equals` compares x and y only** (`SameXY`).
* **Phase-2 input is a parsed JSON value.** It is not modelled as a token
  stream. A value copied through unchanged is one `Value` token.
* **Counters are unbounded integers.**

Notes on what the code does, which the model follows:

* **The bbox wraps only when a crossing was recorded.** It does not also
  wrap when the merged envelope is wider than 180 degrees
  (`GeoJsonMultiLineParser.java:287-299`). After a crossing that leaves one
  half-envelope empty the code writes placeholder values; the model keeps
  the corrected bbox described under Findings, and agrees with the code in
  every other case (`BBoxCorrectionAgrees`).
* **Equal timestamps with duplicates allowed.** `getSpeed` returns null for
  any distance, not only for a nonzero one (`AntimeridianUtils.java:44-49`).
* **No distance-based split in phase 1.** Phase 1 splits lines on time gaps
  only (`msSplit`).
* **No ±180 normalisation or speed check in phase 1.** `BaseRowListener`
  does neither.
* **The parser cuts at longitude 0 after a point on the prime meridian.**
  When a point on ±180 follows a point at longitude 0, the parser's
  `splitAm` takes the sign of 0, so both inserted points lie at (0, y) and
  the line is broken there (`ParserThreePointSplit`).
* **JSON null inside a point.** Jackson reads a null element of a point
  array as a null `Double`; `arrayToCoordinate` fails when it unboxes one
  (the first two, three or four elements) and ignores one beyond the
  fourth.

## Model

Paths are relative to the repository root.

| member | source | states |
|---|---|---|
| Geometry.Signum | src/main/java/edu/colorado/cires/cmg/tracklinegen/AntimeridianUtils.java:76-77 | `Math.signum` is -1, 0 or 1 and has the sign of its argument |
| Geometry.CoordinateValues | src/main/java/edu/colorado/cires/cmg/tracklinegen/BaseRowListener.java:134-146 | the values handed to the writer are x and y, then z when it is not NaN, then m when z and m are not NaN |
| Geometry.Include | src/main/java/edu/colorado/cires/cmg/tracklinegen/GeoJsonMultiLineParser.java:275-278 | `expandToInclude(coordinate)` gives a non-null envelope containing the point |
| Geometry.Merge | src/main/java/edu/colorado/cires/cmg/tracklinegen/GeoJsonMultiLineParser.java:288-289 | merging two envelopes is null exactly when both are; when neither is, each edge is the outer one of the two |
| Failures.PointCountMessageExample | src/main/java/edu/colorado/cires/cmg/tracklinegen/BaseRowListener.java:151-153 | the point-limit message reads "Simplified point count exceeded: allowed = 1 batched points = 2" for limit 1 (`PointCountMessage` builds it) |
| Properties.FieldMap.constructor | src/main/java/edu/colorado/cires/cmg/tracklinegen/GeometryProperties.java:63 | a new map of other fields is empty |
| Properties.GeometryProperties.FromBuilder | src/main/java/edu/colorado/cires/cmg/tracklinegen/GeometryProperties.java:21-28 | the record takes the builder's five values and shares its very map |
| Properties.Builder.Configure | src/main/java/edu/colorado/cires/cmg/tracklinegen/GeometryProperties.java:63-75 | `configure()` starts with every statistic null and a new empty map |
| Properties.Builder.ConfigureFrom | src/main/java/edu/colorado/cires/cmg/tracklinegen/GeometryProperties.java:77-84 | `configure(p)` holds p's five values and the very same map object |
| Properties.Builder.WithDistanceM | src/main/java/edu/colorado/cires/cmg/tracklinegen/GeometryProperties.java:86-89 | changes the distance only, keeps the map, returns the builder itself |
| Properties.Builder.WithAvgSpeedMPS | src/main/java/edu/colorado/cires/cmg/tracklinegen/GeometryProperties.java:91-94 | changes the mean speed only, keeps the map, returns the builder itself |
| Properties.Builder.WithUnsimplifiedPointCount | src/main/java/edu/colorado/cires/cmg/tracklinegen/GeometryProperties.java:96-99 | changes that count only, keeps the map, returns the builder itself |
| Properties.Builder.WithSimplifiedPointCount | src/main/java/edu/colorado/cires/cmg/tracklinegen/GeometryProperties.java:101-104 | changes that count only, keeps the map, returns the builder itself |
| Properties.Builder.WithTargetPointCount | src/main/java/edu/colorado/cires/cmg/tracklinegen/GeometryProperties.java:106-109 | changes that count only, keeps the map, returns the builder itself |
| Properties.Builder.WithOtherField | src/main/java/edu/colorado/cires/cmg/tracklinegen/GeometryProperties.java:111-115 | puts or overwrites exactly one key of the map; every other value of the builder is unchanged |
| Properties.Builder.Build | src/main/java/edu/colorado/cires/cmg/tracklinegen/GeometryProperties.java:117-119 | a fresh record with the builder's values and its map object |
| Properties.SharedMapUpdate | src/main/java/edu/colorado/cires/cmg/tracklinegen/GeometryProperties.java:77-84 | an entry added through a builder made from a record lands in that record's own map: the two share it |
| Properties.TruncateToLong | src/main/java/edu/colorado/cires/cmg/tracklinegen/GeometryProperties.java:96-109 | a JSON number read into a `Long` count is truncated toward zero |
| Properties.DecodeMember | src/main/java/edu/colorado/cires/cmg/tracklinegen/GeometryProperties.java:111-115 | a member whose name is none of the five statistics goes into the map under its name and changes nothing else |
| Properties.DecodeKeepsLastOtherField | src/main/java/edu/colorado/cires/cmg/tracklinegen/GeometryProperties.java:111-115 | an unknown member's value ends up in the decoded map, and the last of several members with one name wins |
| Properties.Deserialize | src/main/java/edu/colorado/cires/cmg/tracklinegen/GeoJsonMultiLineParser.java:135-137 | reading the "properties" value gives null for JSON null, a failure for a non-object, and for an object a fresh record with a fresh map equal to the members decoded in order (or the decoding failure); the members are decoded in order by `Decode`, a statistic through `ReadDouble` (distance, mean speed) or `ReadLong` (the three counts), any other member into the map |
| MultiLineWriter.BuildPattern | src/main/java/edu/colorado/cires/cmg/tracklinegen/GeoJsonMultiLineWriter.java:18-21 | the pattern is "0." followed by one '#' per decimal place of the precision |
| MultiLineWriter.FeatureFrame | src/main/java/edu/colorado/cires/cmg/tracklinegen/GeoJsonMultiLineWriter.java:25-51 | `start` opens three containers and `finish` closes three |
| MultiLineWriter.GeoJsonMultiLineWriter.constructor | src/main/java/edu/colorado/cires/cmg/tracklinegen/GeoJsonMultiLineWriter.java:16-23 | keeps the generator and builds the pattern "0." plus one '#' per decimal place |
| MultiLineWriter.GeoJsonMultiLineWriter.NumberTokensShape | src/main/java/edu/colorado/cires/cmg/tracklinegen/GeoJsonMultiLineWriter.java:72-74 | one formatted number per value, in the values' order |
| MultiLineWriter.GeoJsonMultiLineWriter.CoordinateTokensShape | src/main/java/edu/colorado/cires/cmg/tracklinegen/GeoJsonMultiLineWriter.java:69-79 | a coordinate is a start-array, exactly one formatted number per value in order, and an end-array (`CoordinateTokens` around `NumberTokens`) |
| MultiLineWriter.GeoJsonMultiLineWriter.CoordinateTokensDepth | src/main/java/edu/colorado/cires/cmg/tracklinegen/GeoJsonMultiLineWriter.java:69-79 | a coordinate array is closed as soon as it is written |
| MultiLineWriter.GeoJsonMultiLineWriter.Start | src/main/java/edu/colorado/cires/cmg/tracklinegen/GeoJsonMultiLineWriter.java:25-39 | appends exactly: object start, "type": "Feature", "geometry", object start, "type": "MultiLineString", "coordinates", array start |
| MultiLineWriter.GeoJsonMultiLineWriter.Finish | src/main/java/edu/colorado/cires/cmg/tracklinegen/GeoJsonMultiLineWriter.java:41-51 | appends exactly: array end, object end, "properties", the record, object end (`FinishTokens`) |
| MultiLineWriter.GeoJsonMultiLineWriter.EndLine | src/main/java/edu/colorado/cires/cmg/tracklinegen/GeoJsonMultiLineWriter.java:53-59 | appends one array end and nothing else |
| MultiLineWriter.GeoJsonMultiLineWriter.StartLine | src/main/java/edu/colorado/cires/cmg/tracklinegen/GeoJsonMultiLineWriter.java:61-67 | appends one array start and nothing else |
| MultiLineWriter.GeoJsonMultiLineWriter.WriteCoordinate | src/main/java/edu/colorado/cires/cmg/tracklinegen/GeoJsonMultiLineWriter.java:69-79 | appends the coordinate array of the values: one formatted number each, in order |
| MultiLineWriter.GeoJsonMultiLineWriter.WriteLonLat | src/main/java/edu/colorado/cires/cmg/tracklinegen/GeoJsonMultiLineWriter.java:81-87 | succeeds exactly when there are no extra values and then writes [lon, lat]; with extra values the fixed-size list refuses them and nothing is written |
| RowListener.RenderDepth | src/main/java/edu/colorado/cires/cmg/tracklinegen/BaseRowListener.java:115-132 | a well-nested sequence of line starts, points and line ends leaves exactly the open line, if any, unclosed |
| RowListener.FinishedDocumentBalanced | src/main/java/edu/colorado/cires/cmg/tracklinegen/GeoJsonMultiLineWriter.java:25-51 | once every line is closed, `start`, the lines and `finish` close every container they open |
| RowListener.WriteLoopClosed | src/main/java/edu/colorado/cires/cmg/tracklinegen/BaseRowListener.java:161-164 | the write loop writes and counts every point under the limit; otherwise it writes what fits and throws with the count one past it |
| RowListener.WritePointsBudget | src/main/java/edu/colorado/cires/cmg/tracklinegen/BaseRowListener.java:148-164 | with a positive limit the loop throws exactly when the points do not fit; it then reports "allowed = N batched points = N+1" and has written only the points that fit; otherwise every point is written and counted and the count stays within the limit |
| RowListener.InitialInv | src/main/java/edu/colorado/cires/cmg/tracklinegen/BaseRowListener.java:19-25 | a new listener satisfies every buffer, counter and nesting invariant |
| RowListener.AddConfirmedRowInv | src/main/java/edu/colorado/cires/cmg/tracklinegen/BaseRowListener.java:187-193 | confirming a target row keeps the invariants: the confirmed buffer ends with that row's coordinate and the held-back rows are gone |
| RowListener.AddPotentialRowInv | src/main/java/edu/colorado/cires/cmg/tracklinegen/BaseRowListener.java:195-199 | holding back a non-target row keeps the invariants: held only after a target row, in order |
| RowListener.WriteConfirmedInv | src/main/java/edu/colorado/cires/cmg/tracklinegen/BaseRowListener.java:157-166 | a `writeConfirmed` that does not throw keeps the invariants |
| RowListener.SplitInv | src/main/java/edu/colorado/cires/cmg/tracklinegen/BaseRowListener.java:168-181 | a `split` that does not throw keeps the invariants |
| RowListener.FlushInv | src/main/java/edu/colorado/cires/cmg/tracklinegen/BaseRowListener.java:62-64 | flushing a full batch keeps the invariants and the rows seen |
| RowListener.GapInv | src/main/java/edu/colorado/cires/cmg/tracklinegen/BaseRowListener.java:65-67 | splitting on a gap keeps the invariants and the rows seen |
| RowListener.BufferRowInv | src/main/java/edu/colorado/cires/cmg/tracklinegen/BaseRowListener.java:68-72 | confirming or holding back the row keeps the invariants and records the row |
| RowListener.ProcessRowInv | src/main/java/edu/colorado/cires/cmg/tracklinegen/BaseRowListener.java:60-73 | every `processRow` that does not throw keeps the invariants and records the row |
| RowListener.ProcessRowEffect | src/main/java/edu/colorado/cires/cmg/tracklinegen/BaseRowListener.java:60-73 | a batch is flushed only when more than `batchSize` coordinates are confirmed; a split happens only when `msSplit > 0`, a target row was seen, and the gap to the last target row's time exceeds `msSplit`; then a target row joins the confirmed buffer after the held-back rows and sets the timestamp, and a non-target row is held back only after a target row; the batch test is `isBatchFull` (`IsBatchFull`, BaseRowListener.java:103-105), the gap test `shouldSplit` with `isSplittingEnabled` (`ShouldSplit`, `IsSplittingEnabled`, :107-113), and a row enters a buffer as `toCoordinate` gives it (`ToCoordinate`, :183-185) |
| RowListener.FlushFacts | src/main/java/edu/colorado/cires/cmg/tracklinegen/BaseRowListener.java:62-64 | a flush empties the confirmed buffer, adds its size to the unsimplified count and leaves a line open; without a flush nothing changes |
| RowListener.GapFacts | src/main/java/edu/colorado/cires/cmg/tracklinegen/BaseRowListener.java:65-67 | after a split no line is open, both buffers are empty, and a lone confirmed point is dropped but counted as unsimplified; without a split nothing changes |
| RowListener.FinishFacts | src/main/java/edu/colorado/cires/cmg/tracklinegen/BaseRowListener.java:76-89 | after a `finish` that does not throw, every line is closed, the simplified count is the number of coordinates written, the target count is the number of rows the filter accepted, the unsimplified count is the number of coordinates confirmed, and every written coordinate is a row's |
| RowListener.ProcessRowsInv | src/main/java/edu/colorado/cires/cmg/tracklinegen/BaseRowListener.java:60-73 | a run of rows that does not throw keeps the invariants and records every row |
| RowListener.AddConfirmedRowStep | src/main/java/edu/colorado/cires/cmg/tracklinegen/BaseRowListener.java:187-193 | `addConfirmedRow` on the state: the held-back coordinates then the row's join the confirmed buffer, the target count goes up and the timestamp becomes the row's |
| RowListener.AddPotentialRowStep | src/main/java/edu/colorado/cires/cmg/tracklinegen/BaseRowListener.java:195-199 | `addPotentialRow` on the state: the row's coordinate is held back only once a target row was seen |
| RowListener.CountCheck | src/main/java/edu/colorado/cires/cmg/tracklinegen/BaseRowListener.java:150-153 | the point-count exception, thrown exactly when the new count passes a positive limit |
| RowListener.IncrementStep | src/main/java/edu/colorado/cires/cmg/tracklinegen/BaseRowListener.java:148-155 | `incrementSimplifiedPointCount` on the state: the count goes up before it is checked |
| RowListener.WriteLoop | src/main/java/edu/colorado/cires/cmg/tracklinegen/BaseRowListener.java:161-164 | the loop over the simplified points: count each, stop at the first count past the limit, otherwise write it |
| RowListener.WritePointsStep | src/main/java/edu/colorado/cires/cmg/tracklinegen/BaseRowListener.java:161-164 | the loop run on the state's count and trace |
| RowListener.WriteConfirmedStep | src/main/java/edu/colorado/cires/cmg/tracklinegen/BaseRowListener.java:157-166 | `writeConfirmed` on the state: count the buffer as unsimplified, refuse a single point as JTS does, open a line if needed, write the simplified points and empty the buffer |
| RowListener.Opened | src/main/java/edu/colorado/cires/cmg/tracklinegen/BaseRowListener.java:115-120 | `maybeStartLine` on the trace |
| RowListener.Closed | src/main/java/edu/colorado/cires/cmg/tracklinegen/BaseRowListener.java:122-127 | `maybeEndLine` on the trace |
| RowListener.SplitStep | src/main/java/edu/colorado/cires/cmg/tracklinegen/BaseRowListener.java:168-181 | `split` on the state: end the open line; two or more confirmed points become a line, one is dropped but counted; the held-back rows are discarded |
| RowListener.FlushStep | src/main/java/edu/colorado/cires/cmg/tracklinegen/BaseRowListener.java:62-64 | a full batch is written |
| RowListener.GapStep | src/main/java/edu/colorado/cires/cmg/tracklinegen/BaseRowListener.java:65-67 | a time gap longer than `msSplit` splits the line |
| RowListener.BufferRowStep | src/main/java/edu/colorado/cires/cmg/tracklinegen/BaseRowListener.java:68-72 | a target row is confirmed, any other held back |
| RowListener.ProcessRowStep | src/main/java/edu/colorado/cires/cmg/tracklinegen/BaseRowListener.java:60-73 | `processRow` on the state: flush, gap, buffer, stopping at the first exception |
| RowListener.FinishStep | src/main/java/edu/colorado/cires/cmg/tracklinegen/BaseRowListener.java:76-89 | `finish` on the state: an open line is closed, otherwise what is buffered is split |
| RowListener.CloseLineStep | src/main/java/edu/colorado/cires/cmg/tracklinegen/BaseRowListener.java:77-85 | the open-line branch of `finish`: two or more points are written simplified, a lone point counted and written as is, then the line ends |
| RowListener.FinalProperties | src/main/java/edu/colorado/cires/cmg/tracklinegen/BaseRowListener.java:90-96 | the record handed to `lineWriter.finish`: the three counts only |
| RowListener.ProcessRowsStep | src/main/java/edu/colorado/cires/cmg/tracklinegen/BaseRowListener.java:60-73 | `processRow` for each row in turn, stopping at the first exception |
| RowListener.WholeRun | src/main/java/edu/colorado/cires/cmg/tracklinegen/BaseRowListener.java:52-97 | a whole run that does not throw writes a balanced document with every line closed; `targetPointCount` counts the accepted rows; `simplifiedPointCount` counts the coordinates written; each written coordinate is some row's (lon, lat, epoch millis) |
| RowListener.BaseRowListener.constructor | src/main/java/edu/colorado/cires/cmg/tracklinegen/BaseRowListener.java:28-41 | keeps the configuration and starts with empty buffers, no timestamp, no open line and zero counts |
| RowListener.BaseRowListener.WithoutLimit | src/main/java/edu/colorado/cires/cmg/tracklinegen/BaseRowListener.java:43-50 | the five-argument constructor is the six-argument one with limit 0 |
| RowListener.BaseRowListener.Start | src/main/java/edu/colorado/cires/cmg/tracklinegen/BaseRowListener.java:52-57 | empties both buffers and writes the writer's `start` tokens; nothing else changes |
| RowListener.BaseRowListener.MaybeStartLine | src/main/java/edu/colorado/cires/cmg/tracklinegen/BaseRowListener.java:115-120 | starts a line only when none is open; afterwards one is open |
| RowListener.BaseRowListener.MaybeEndLine | src/main/java/edu/colorado/cires/cmg/tracklinegen/BaseRowListener.java:122-127 | ends a line only when one is open; afterwards none is |
| RowListener.BaseRowListener.EndLine | src/main/java/edu/colorado/cires/cmg/tracklinegen/BaseRowListener.java:129-132 | ends the line unconditionally |
| RowListener.BaseRowListener.WriteCoordinate | src/main/java/edu/colorado/cires/cmg/tracklinegen/BaseRowListener.java:134-146 | writes the coordinate's x, y and, when present, z and m |
| RowListener.BaseRowListener.IncrementSimplifiedPointCount | src/main/java/edu/colorado/cires/cmg/tracklinegen/BaseRowListener.java:148-155 | the count goes up by one, then throws exactly when it passes a positive limit |
| RowListener.BaseRowListener.AddConfirmedRow | src/main/java/edu/colorado/cires/cmg/tracklinegen/BaseRowListener.java:187-193 | the target count goes up, the timestamp becomes the row's, and the held-back coordinates followed by the row's join the confirmed buffer |
| RowListener.BaseRowListener.AddPotentialRow | src/main/java/edu/colorado/cires/cmg/tracklinegen/BaseRowListener.java:195-199 | the row's coordinate is held back only when a target row's timestamp is known |
| RowListener.BaseRowListener.WritePoint | src/main/java/edu/colorado/cires/cmg/tracklinegen/BaseRowListener.java:161-164 | counts the point, then writes it only when the limit was not passed |
| RowListener.BaseRowListener.WritePoints | src/main/java/edu/colorado/cires/cmg/tracklinegen/BaseRowListener.java:161-164 | the loop leaves the count, the writes and the outcome that `WriteLoopClosed` gives in closed form |
| RowListener.BaseRowListener.WriteConfirmed | src/main/java/edu/colorado/cires/cmg/tracklinegen/BaseRowListener.java:157-166 | counts the buffer as unsimplified, opens a line if needed, writes the simplified points and empties the buffer; a one-point buffer is refused by the line-string constructor |
| RowListener.BaseRowListener.Split | src/main/java/edu/colorado/cires/cmg/tracklinegen/BaseRowListener.java:168-181 | ends the open line; two or more confirmed points become a line of their own; a lone one is dropped but counted; the held-back rows are discarded |
| RowListener.BaseRowListener.ProcessRow | src/main/java/edu/colorado/cires/cmg/tracklinegen/BaseRowListener.java:60-73 | flushes a full batch, splits on a gap, then confirms or holds back the row, stopping at the first exception |
| RowListener.BaseRowListener.CloseGeometry | src/main/java/edu/colorado/cires/cmg/tracklinegen/BaseRowListener.java:77-88 | closes the open line, or splits what is buffered when no line is open |
| RowListener.BaseRowListener.CloseLine | src/main/java/edu/colorado/cires/cmg/tracklinegen/BaseRowListener.java:77-85 | writes what is confirmed (a lone point unsimplified, counted in both counts), then ends the line |
| RowListener.BaseRowListener.Finish | src/main/java/edu/colorado/cires/cmg/tracklinegen/BaseRowListener.java:76-97 | after closing the geometry, hands the writer a record holding exactly the three counts |
| Antimeridian.MpsToKnots | src/main/java/edu/colorado/cires/cmg/tracklinegen/AntimeridianUtils.java:35-37 | knots × 1852 = metres per second × 3600; Infinity and NaN stay as they are |
| Antimeridian.Elapsed | src/main/java/edu/colorado/cires/cmg/tracklinegen/AntimeridianUtils.java:44-51 | the seconds are known exactly when both timestamps are, and seconds × 1000 is their difference |
| Antimeridian.Divide | src/main/java/edu/colorado/cires/cmg/tracklinegen/AntimeridianUtils.java:55 | m / s is finite exactly for known nonzero seconds, and +Infinity exactly for a positive distance over zero seconds |
| Antimeridian.DivideInverts | src/main/java/edu/colorado/cires/cmg/tracklinegen/AntimeridianUtils.java:55 | a finite speed times the seconds is the distance |
| Antimeridian.CheckSpeed | src/main/java/edu/colorado/cires/cmg/tracklinegen/AntimeridianUtils.java:57-67 | throws exactly when the knots exceed a positive maximum, naming both coordinates, the knots and the maximum; otherwise returns the speed; the test is `Exceeds` and the message `SpeedMessage` |
| Antimeridian.GetSpeed | src/main/java/edu/colorado/cires/cmg/tracklinegen/AntimeridianUtils.java:44-49 | returns null exactly when duplicates are allowed and both timestamps are known and equal |
| Antimeridian.GetSpeedStrict | src/main/java/edu/colorado/cires/cmg/tracklinegen/AntimeridianUtils.java:39-41 | the four-argument overload succeeds exactly when the five-argument one with duplicates refused does, and returns its value, never null |
| Antimeridian.GetSpeedStandingStill | src/main/java/edu/colorado/cires/cmg/tracklinegen/AntimeridianUtils.java:51-54 | with duplicates refused, a repeated timestamp over zero distance gives speed 0, not an error |
| Antimeridian.GetSpeedChecked | src/main/java/edu/colorado/cires/cmg/tracklinegen/AntimeridianUtils.java:55-67 | outside the null and standing-still cases, throws exactly when the knots of m / s exceed the maximum (only a positive one), and otherwise returns m / s |
| Antimeridian.GetSpeedWithinLimit | src/main/java/edu/colorado/cires/cmg/tracklinegen/AntimeridianUtils.java:51-67 | a finite speed returned under a positive maximum is at most the maximum in knots, and times the nonzero seconds gives the distance |
| Antimeridian.GetSpeedNeverInfinite | src/main/java/edu/colorado/cires/cmg/tracklinegen/AntimeridianUtils.java:55-67 | under a positive maximum no infinite speed is returned |
| Antimeridian.SignsEqualIsSignumEquality | src/main/java/edu/colorado/cires/cmg/tracklinegen/AntimeridianUtils.java:31-33 | `signsEqual` holds exactly when the two signums are equal |
| Antimeridian.SignsEqual | src/main/java/edu/colorado/cires/cmg/tracklinegen/AntimeridianUtils.java:31-33 | `signsEqual`: both negative, both positive, or both zero |
| Antimeridian.Is180 | src/main/java/edu/colorado/cires/cmg/tracklinegen/AntimeridianUtils.java:70-72 | `is180`: the longitude is exactly 180 or -180 |
| Antimeridian.ResolveCoordinate | src/main/java/edu/colorado/cires/cmg/tracklinegen/AntimeridianUtils.java:117-122 | the result is an endpoint of the line, the first one whenever the first is not `last` |
| Antimeridian.ResolveAvoidsLast | src/main/java/edu/colorado/cires/cmg/tracklinegen/AntimeridianUtils.java:117-122 | when exactly one endpoint is `last`, the result is the other one |
| Antimeridian.GeometryParse | src/main/java/edu/colorado/cires/cmg/tracklinegen/AntimeridianUtils.java:123-141 | one or four coordinates, four only from two lines; an unexpected pair of pieces is the "error occurred splitting AM" failure |
| Antimeridian.GeometryParseLines | src/main/java/edu/colorado/cires/cmg/tracklinegen/AntimeridianUtils.java:143-160 | four coordinates, or the "Unable to determine AM split order" failure |
| Antimeridian.SplitOrder | src/main/java/edu/colorado/cires/cmg/tracklinegen/AntimeridianUtils.java:143-160 | fails exactly when none of the four endpoint tests holds; the line leaving `last` comes first |
| Antimeridian.SplitAmSizes | src/main/java/edu/colorado/cires/cmg/tracklinegen/AntimeridianUtils.java:74-116 | a split has one, three or four coordinates, three only when `last` is on the antimeridian and `current` is not |
| Antimeridian.SplitAmAlongAntimeridian | src/main/java/edu/colorado/cires/cmg/tracklinegen/AntimeridianUtils.java:79-82 | both points on ±180 give one coordinate: last's longitude, current's latitude and time |
| Antimeridian.SplitAmFromAntimeridian | src/main/java/edu/colorado/cires/cmg/tracklinegen/AntimeridianUtils.java:83-90 | leaving ±180 to last's side gives [current]; otherwise current, then (180·sign(last), last.y), then (180·sign(current), last.y) |
| Antimeridian.SplitAmOntoAntimeridian | src/main/java/edu/colorado/cires/cmg/tracklinegen/AntimeridianUtils.java:92-94 | arriving on ±180 gives one coordinate at 180·signum(last.x) (0 when last.x is 0) with current's latitude and time |
| Antimeridian.SplitAmSameSide | src/main/java/edu/colorado/cires/cmg/tracklinegen/AntimeridianUtils.java:96-114 | off ±180 and not strictly on opposite sides, the result is [current] whatever the cut would say (`OppositeSides` is the strict test of AntimeridianUtils.java:97) |
| Antimeridian.OffAntimeridianFourPoints | src/main/java/edu/colorado/cires/cmg/tracklinegen/AntimeridianUtils.java:97-103 | four points off ±180 come only from a cut into two lines, in one of the two orders |
| Antimeridian.OnAntimeridianNoCut | src/main/java/edu/colorado/cires/cmg/tracklinegen/AntimeridianUtils.java:79-94 | with a point on ±180 the split always succeeds with at most three points |
| Antimeridian.SplitAmFourPoints | src/main/java/edu/colorado/cires/cmg/tracklinegen/AntimeridianUtils.java:74-116 | a four-point split needs opposite sides and a cut into two lines, and is a permutation of the two lines' endpoints |
| Antimeridian.SplitOffAntimeridian | src/main/java/edu/colorado/cires/cmg/tracklinegen/AntimeridianUtils.java:96-115 | off ±180 the cut is consulted only for strictly opposite sides; its answer gives one or four coordinates, or the "error occurred splitting AM" failure |
| Antimeridian.SplitAm | src/main/java/edu/colorado/cires/cmg/tracklinegen/AntimeridianUtils.java:74-116 | `splitAm(last, current)` by its four cases: both on ±180, leaving ±180, arriving on ±180, and off ±180 (its properties are the `SplitAm*` lemmas) |
| ParserLogic.ParserSplitSizes | src/main/java/edu/colorado/cires/cmg/tracklinegen/GeoJsonMultiLineParser.java:373-409 | the parser's split has one, three or four points, three exactly when only `coordinate` is on ±180 |
| ParserLogic.ParserSplitAm | src/main/java/edu/colorado/cires/cmg/tracklinegen/GeoJsonMultiLineParser.java:373-409 | the parser's `splitAm(coordinate, last)`: both on ±180 give one point, only `coordinate` on ±180 gives three, otherwise the off-antimeridian split (its properties are `ParserSplitSizes` and `ParserThreePointSplit`) |
| ParserLogic.ParserThreePointSplit | src/main/java/edu/colorado/cires/cmg/tracklinegen/GeoJsonMultiLineParser.java:376-387 | a three-point split starts at `last`, then two points at current's latitude: off the prime meridian they are the two ±180 points, last's side first; from a `last` at longitude 0 both are (0, y), so the line is cut at longitude 0 |
| ParserLogic.SplitVersionsDiffer | src/main/java/edu/colorado/cires/cmg/tracklinegen/GeoJsonMultiLineParser.java:376-387 | from (170, 10) to (180, 20) the shared utility answers one point and the parser three |
| ParserLogic.ParserGetSpeed | src/main/java/edu/colorado/cires/cmg/tracklinegen/GeoJsonMultiLineParser.java:252-267 | returns m / s unless the knots exceed a positive maximum, and throws exactly then |
| ParserLogic.ParserSpeedOnRepeatedTimestamp | src/main/java/edu/colorado/cires/cmg/tracklinegen/GeoJsonMultiLineParser.java:252-256 | for a repeated timestamp the parser gives NaN over no distance (the utility gives 0), and over a distance an infinite speed that a positive maximum rejects |
| ParserLogic.ReadDoublesSpec | src/main/java/edu/colorado/cires/cmg/tracklinegen/GeoJsonMultiLineParser.java:328 | reading a `List<Double>` succeeds exactly on an array of numbers and nulls, and gives each element in order (a null as a null element) |
| ParserLogic.ReadDoubles | src/main/java/edu/colorado/cires/cmg/tracklinegen/GeoJsonMultiLineParser.java:328 | `readValue(parser, List<Double>)`: the elements of an array of numbers and nulls, otherwise unreadable (characterised by `ReadDoublesSpec`) |
| ParserLogic.ArrayToCoordinate | src/main/java/edu/colorado/cires/cmg/tracklinegen/GeoJsonMultiLineParser.java:213-225 | fails with "Invalid coordinate" and the values exactly when there are fewer than two; otherwise fails as unboxing null exactly when one of the first two, three or four elements it reads is null |
| ParserLogic.ReadPointSpec | src/main/java/edu/colorado/cires/cmg/tracklinegen/GeoJsonMultiLineParser.java:328-329 | a point reads exactly when it is an array of numbers and nulls, at least two long, whose first (up to four) elements are numbers; x and y are the first two; otherwise it is unreadable, an invalid coordinate, or a null ordinate |
| ParserLogic.ReadPoint | src/main/java/edu/colorado/cires/cmg/tracklinegen/GeoJsonMultiLineParser.java:328-329 | a point is read as a list of doubles and then turned into a coordinate (characterised by `ReadPointSpec`) |
| ParserLogic.ArrayToCoordinateRoundTrip | src/main/java/edu/colorado/cires/cmg/tracklinegen/GeoJsonMultiLineParser.java:213-225 | a coordinate read gives back the first two, three or four elements it was read from, all of them non-null |
| ParserLogic.CoordinateRoundTrip | src/main/java/edu/colorado/cires/cmg/tracklinegen/GeoJsonMultiLineParser.java:213-225 | a coordinate written as values (none null) reads back as itself |
| ParserLogic.MeanIsAverage | src/main/java/edu/colorado/cires/cmg/tracklinegen/GeoJsonMultiLineParser.java:269-273 | after n finite speeds the running mean is their arithmetic mean |
| ParserLogic.RunningMean | src/main/java/edu/colorado/cires/cmg/tracklinegen/GeoJsonMultiLineParser.java:272 | one step `avg + (v - avg) / n` on doubles: finite for finite values, Infinity when a first infinite speed enters a finite mean, NaN otherwise |
| ParserLogic.Mean | src/main/java/edu/colorado/cires/cmg/tracklinegen/GeoJsonMultiLineParser.java:269-273 | the mean after `updateStats` was given these speeds in order, starting from 0 (see `MeanIsAverage`) |
| ParserLogic.MeanStep | src/main/java/edu/colorado/cires/cmg/tracklinegen/GeoJsonMultiLineParser.java:272 | one step of `avg + (v - avg) / n` turns the mean of n - 1 values into the mean of n |
| ParserLogic.MeanStaysNonFinite | src/main/java/edu/colorado/cires/cmg/tracklinegen/GeoJsonMultiLineParser.java:272 | once the mean is NaN or infinite it never becomes finite again, and NaN stays NaN |
| ParserLogic.Bounds | src/main/java/edu/colorado/cires/cmg/tracklinegen/GeoJsonMultiLineParser.java:50-51 | the envelope of the points is null exactly when there are none, and is then a new `Envelope()`: x from 0 to -1, y from 0 to -1 |
| ParserLogic.Routing | src/main/java/edu/colorado/cires/cmg/tracklinegen/GeoJsonMultiLineParser.java:275-278 | a point goes to the west envelope exactly when its longitude is negative, to the east one otherwise (0 included) |
| ParserLogic.BoundsContain | src/main/java/edu/colorado/cires/cmg/tracklinegen/GeoJsonMultiLineParser.java:277 | every point lies inside the envelope of the points |
| ParserLogic.BoundsAttained | src/main/java/edu/colorado/cires/cmg/tracklinegen/GeoJsonMultiLineParser.java:277 | some point lies on the envelope's west edge and some on its east edge |
| ParserLogic.MergeHalves | src/main/java/edu/colorado/cires/cmg/tracklinegen/GeoJsonMultiLineParser.java:288-289 | merging the two half-envelopes gives the envelope of all the points |
| ParserLogic.BBoxLeaksEmptyHalf | src/main/java/edu/colorado/cires/cmg/tracklinegen/GeoJsonMultiLineParser.java:287-299 | the line [(170, 10), (180, 20)] records a crossing with an empty west half, and the bbox as written is [170, 0, -1, 20], not the envelope [170, 10, 180, 20] |
| ParserLogic.BBoxValuesAsWritten | src/main/java/edu/colorado/cires/cmg/tracklinegen/GeoJsonMultiLineParser.java:287-299 | `writeBBox`'s values as the code computes them: the merged envelope without a crossing, otherwise minX from the east half, maxX from the west half and the outer latitudes |
| ParserLogic.BBoxValues | src/main/java/edu/colorado/cires/cmg/tracklinegen/GeoJsonMultiLineParser.java:287-299 | the corrected values of Findings: a crossing that left a half empty counts as no crossing |
| ParserLogic.BBoxCorrectionAgrees | src/main/java/edu/colorado/cires/cmg/tracklinegen/GeoJsonMultiLineParser.java:287-299 | the corrected bbox equals the code's unless a crossing left a half empty, and then equals the code's no-crossing bbox; on the points read, it equals the code's whenever both halves hold a point or there was no crossing |
| ParserLogic.BBoxOmitted | src/main/java/edu/colorado/cires/cmg/tracklinegen/GeoJsonMultiLineParser.java:301-304 | the bbox is left out exactly when no statistics were gathered and the values are [0, 0, -1, -1] |
| ParserLogic.BBoxLatitudes | src/main/java/edu/colorado/cires/cmg/tracklinegen/GeoJsonMultiLineParser.java:287-299 | the bbox's south and north edges are those of the points read, crossing or not, so every point's latitude lies between them |
| ParserLogic.BBoxEmptyHalfIsEnvelope | src/main/java/edu/colorado/cires/cmg/tracklinegen/GeoJsonMultiLineParser.java:287-299 | the corrected bbox after a crossing that left one half empty is the envelope of every point read, as without a crossing |
| ParserLogic.WestBoundsNegative | src/main/java/edu/colorado/cires/cmg/tracklinegen/GeoJsonMultiLineParser.java:276 | the west envelope lies west of longitude 0 and the east one at or east of it |
| ParserLogic.BBoxWithoutCrossing | src/main/java/edu/colorado/cires/cmg/tracklinegen/GeoJsonMultiLineParser.java:287-293 | without a crossing the bbox is exactly the envelope of every point read |
| ParserLogic.BBoxAcrossAntimeridian | src/main/java/edu/colorado/cires/cmg/tracklinegen/GeoJsonMultiLineParser.java:294-299 | with a crossing and points on both sides, the bbox wraps the antimeridian: its west edge lies east of its east edge, every point is on one of the two arcs, and its latitudes cover every point |
| ParserLogic.BBoxWrittenIffPoints | src/main/java/edu/colorado/cires/cmg/tracklinegen/GeoJsonMultiLineParser.java:301-304 | the bbox values are the empty envelope's when no point was read, and are never omitted once one was |
| ParserLogic.PointTokensShape | src/main/java/edu/colorado/cires/cmg/tracklinegen/GeoJsonMultiLineParser.java:227-234 | a point is one balanced array, opened at the level it is written at |
| ParserLogic.PointTextParens | src/main/java/edu/colorado/cires/cmg/tracklinegen/GeoJsonMultiLineParser.java:231-232 | a point's WKT text holds no parenthesis |
| MultiLineParser.MergedPropertiesSpec | src/main/java/edu/colorado/cires/cmg/tracklinegen/GeoJsonMultiLineParser.java:149-163 | the written record carries the distance and mean speed, keeps the read record's point counts, and holds every additional field plus every read field no additional field overrides |
| MultiLineParser.StatsSnoc | src/main/java/edu/colorado/cires/cmg/tracklinegen/GeoJsonMultiLineParser.java:269-273 | one more `updateStats` adds the distance to the sum and takes one running-mean step |
| MultiLineParser.EnvelopesSnoc | src/main/java/edu/colorado/cires/cmg/tracklinegen/GeoJsonMultiLineParser.java:275-278 | one more point widens exactly the envelope of its own half |
| MultiLineParser.GeoJsonMultiLineParser.constructor | src/main/java/edu/colorado/cires/cmg/tracklinegen/GeoJsonMultiLineParser.java:50-69 | the pattern is "0." plus one '#' per decimal place; no points, statistics, crossing, bbox or properties yet |
| MultiLineParser.GeoJsonMultiLineParser.PlanShape | src/main/java/edu/colorado/cires/cmg/tracklinegen/GeoJsonMultiLineParser.java:331-364 | a point's output is balanced and breaks the output line at most once, exactly when a multi-point split follows a previous point of its line string; a first point adds no statistics |
| MultiLineParser.GeoJsonMultiLineParser.PointShape | src/main/java/edu/colorado/cires/cmg/tracklinegen/GeoJsonMultiLineParser.java:227-234 | a written point is one closed array and its WKT, with or without the ",", holds no parenthesis |
| MultiLineParser.GeoJsonMultiLineParser.CrossingShape | src/main/java/edu/colorado/cires/cmg/tracklinegen/GeoJsonMultiLineParser.java:347-364 | a cut closes the output line and opens the next exactly once, and adds one "(" and one ")" to the WKT |
| MultiLineParser.GeoJsonMultiLineParser.PlanStats | src/main/java/edu/colorado/cires/cmg/tracklinegen/GeoJsonMultiLineParser.java:331-364 | statistics come only from a point after another in its line string and a one- or four-point split, the speed being the distance over the time from the previous point to the split's last point; a crossing is recorded exactly for a split of more than one point; a first point is copied as read |
| MultiLineParser.GeoJsonMultiLineParser.UpdateStats | src/main/java/edu/colorado/cires/cmg/tracklinegen/GeoJsonMultiLineParser.java:269-273 | count + 1, distance summed, one running-mean step; the invariant tying them to every distance and speed given is kept |
| MultiLineParser.GeoJsonMultiLineParser.ProcessBoundingBox | src/main/java/edu/colorado/cires/cmg/tracklinegen/GeoJsonMultiLineParser.java:275-278 | widens the west envelope for a negative longitude, the east one otherwise, and each stays the envelope of its half of all points read |
| MultiLineParser.GeoJsonMultiLineParser.UpdateLastCoordinate | src/main/java/edu/colorado/cires/cmg/tracklinegen/GeoJsonMultiLineParser.java:71-74 | sets both the line's and the absolute last coordinate |
| MultiLineParser.GeoJsonMultiLineParser.ResetLastCoordinate | src/main/java/edu/colorado/cires/cmg/tracklinegen/GeoJsonMultiLineParser.java:76-78 | forgets the line's last coordinate and keeps the absolute one |
| MultiLineParser.GeoJsonMultiLineParser.WriteArray | src/main/java/edu/colorado/cires/cmg/tracklinegen/GeoJsonMultiLineParser.java:227-243 | writes x and y formatted, as a JSON array and as " x y" in WKT |
| MultiLineParser.GeoJsonMultiLineParser.WriteBBox | src/main/java/edu/colorado/cires/cmg/tracklinegen/GeoJsonMultiLineParser.java:280-321 | keeps the corrected bbox of the half-envelopes (see Findings and `WriteBBox` under Left out) unless no statistics were gathered and the values are the empty envelope's |
| MultiLineParser.GeoJsonMultiLineParser.FirstPoint | src/main/java/edu/colorado/cires/cmg/tracklinegen/GeoJsonMultiLineParser.java:331-338 | the first point of a line string is written as read; against the previous line string's last point it can only set the crossing flag |
| MultiLineParser.GeoJsonMultiLineParser.NextPoint | src/main/java/edu/colorado/cires/cmg/tracklinegen/GeoJsonMultiLineParser.java:339-364 | a later point continues the line with statistics or cuts it, as the parser's split says |
| MultiLineParser.GeoJsonMultiLineParser.Resume | src/main/java/edu/colorado/cires/cmg/tracklinegen/GeoJsonMultiLineParser.java:342-346 | writes "," and the point; fails exactly when the parser's `getSpeed` throws, and otherwise hands the distance and that speed to `updateStats` |
| MultiLineParser.GeoJsonMultiLineParser.Continue | src/main/java/edu/colorado/cires/cmg/tracklinegen/GeoJsonMultiLineParser.java:341-346 | the no-cut branch measures the leg from the previous point to the split's point with the distance oracle, then proceeds as `Resume` |
| MultiLineParser.GeoJsonMultiLineParser.BreakLine | src/main/java/edu/colorado/cires/cmg/tracklinegen/GeoJsonMultiLineParser.java:349-354 | writes the point on this side, ends the array, starts the next, and writes "), (" and the point on the other side |
| MultiLineParser.GeoJsonMultiLineParser.Cross | src/main/java/edu/colorado/cires/cmg/tracklinegen/GeoJsonMultiLineParser.java:347-364 | a cut's output and statistics are exactly its crossing plan's; it sets the crossing flag and breaks the line once |
| MultiLineParser.GeoJsonMultiLineParser.ResumeAcross | src/main/java/edu/colorado/cires/cmg/tracklinegen/GeoJsonMultiLineParser.java:356-363 | a four-point cut writes "," and its last point, measures both legs' summed distance, and fails exactly as `getSpeed` from `last` to that point does; otherwise its output and statistic are the crossing plan's |
| MultiLineParser.GeoJsonMultiLineParser.WritePoint | src/main/java/edu/colorado/cires/cmg/tracklinegen/GeoJsonMultiLineParser.java:331-364 | the output, flags and statistics of one point are those of its step plan, and a failure is the plan's |
| MultiLineParser.GeoJsonMultiLineParser.StepAlone | src/main/java/edu/colorado/cires/cmg/tracklinegen/GeoJsonMultiLineParser.java:331-364 | a single point's step (`Steps`) holds exactly when `StepPlan` against the line string's last coordinate (none at a line string's start) and the absolute last one gives that plan; `StepPlan` is `FirstPlan` (:331-338) at a line string's start, otherwise `NextPlan` (:339-346), which uses `CrossingPlan` (:347-364) for a split of more than one point |
| MultiLineParser.GeoJsonMultiLineParser.StepsDetermined | src/main/java/edu/colorado/cires/cmg/tracklinegen/GeoJsonMultiLineParser.java:331-364 | the points read decide the plans: two plan sequences for the same points after the same point are equal |
| MultiLineParser.GeoJsonMultiLineParser.AdvancesOne | src/main/java/edu/colorado/cires/cmg/tracklinegen/GeoJsonMultiLineParser.java:329-367 | appending a point and adding its `StepPlan` plan's statistics, crossing and cut is an advance by that one reading |
| MultiLineParser.GeoJsonMultiLineParser.OneAdvance | src/main/java/edu/colorado/cires/cmg/tracklinegen/GeoJsonMultiLineParser.java:329-367 | conversely, an advance by one reading appended that point, added its plan's statistics, crossing and cut, and the plan is `StepPlan`'s against the point read before |
| MultiLineParser.GeoJsonMultiLineParser.AdvancesTrans | src/main/java/edu/colorado/cires/cmg/tracklinegen/GeoJsonMultiLineParser.java:202-208 | two advances in a row are one advance over both runs of points and both plan sequences, the second run's first point stepping against the first run's last |
| MultiLineParser.GeoJsonMultiLineParser.StepsShaped | src/main/java/edu/colorado/cires/cmg/tracklinegen/GeoJsonMultiLineParser.java:331-364 | every plan `StepPlan` gives for the points read is balanced, opens one array per cut, and has one "(" and one ")" per cut |
| MultiLineParser.GeoJsonMultiLineParser.StepsShape | src/main/java/edu/colorado/cires/cmg/tracklinegen/GeoJsonMultiLineParser.java:327-368 | whatever points are read, their steps' output together is balanced, opens one array per cut at the points' level, and its WKT has as many "(" and ")" as cuts |
| MultiLineParser.GeoJsonMultiLineParser.Remember | src/main/java/edu/colorado/cires/cmg/tracklinegen/GeoJsonMultiLineParser.java:366-367 | the point joins its half-envelope and becomes the last coordinate, keeping the invariant |
| MultiLineParser.GeoJsonMultiLineParser.WriteBalanced | src/main/java/edu/colorado/cires/cmg/tracklinegen/GeoJsonMultiLineParser.java:331-364 | one point's output, statistics, crossing and cut are exactly those of `StepPlan` against the line string's last coordinate and the absolute last one, and a failure is `StepPlan`'s error; that output is balanced and breaks the line at most once, a first point adding no statistic |
| MultiLineParser.GeoJsonMultiLineParser.ProcessCoordinate | src/main/java/edu/colorado/cires/cmg/tracklinegen/GeoJsonMultiLineParser.java:329-367 | the coordinate goes through its `StepPlan` step: the plan's output is written, its statistics, crossing and cut are added, and the point is appended to the points read and becomes the last coordinate (an `Advances` by that one reading); the output is balanced with at most one cut |
| MultiLineParser.GeoJsonMultiLineParser.ProcessPoint | src/main/java/edu/colorado/cires/cmg/tracklinegen/GeoJsonMultiLineParser.java:328-367 | an unreadable point fails with the read error; a readable one is the coordinate `ReadPoint` gives, appended to the points read and made the last coordinate, and what is written and recorded (output, distance, speed, crossing, cut) is its `StepPlan` plan's |
| MultiLineParser.GeoJsonMultiLineParser.ProcessPoints | src/main/java/edu/colorado/cires/cmg/tracklinegen/GeoJsonMultiLineParser.java:327-368 | every point is readable and the run advances by exactly these points in order (`LineReadings`), each through `StepPlan` with its plan, the first against the previous line string's last point; the output is the plans' output, balanced with one break per cut; an empty line string adds no statistic, otherwise fewer statistics than points |
| MultiLineParser.GeoJsonMultiLineParser.AppendPoint | src/main/java/edu/colorado/cires/cmg/tracklinegen/GeoJsonMultiLineParser.java:327-368 | one pass of the points loop: the readability, output and `Advances` facts for the first i points are extended to point i, with at most one statistic more and none for the first point |
| MultiLineParser.GeoJsonMultiLineParser.ProcessLineString | src/main/java/edu/colorado/cires/cmg/tracklinegen/GeoJsonMultiLineParser.java:323-371 | a non-array fails as unreadable (see Left out); otherwise every point is readable, the run advances by its points' `StepPlan` steps, and the output is "[" and "(", the plans' output, "]" and ")": one output line plus one per cut, balanced |
| MultiLineParser.GeoJsonMultiLineParser.ProcessLines | src/main/java/edu/colorado/cires/cmg/tracklinegen/GeoJsonMultiLineParser.java:202-208 | every line string is readable; the run advances by all their points in order (`LinesReadings`), and the output is the line strings' outputs, the WKT ones joined by ",": n output lines plus one per cut, balanced |
| MultiLineParser.GeoJsonMultiLineParser.AppendLine | src/main/java/edu/colorado/cires/cmg/tracklinegen/GeoJsonMultiLineParser.java:203-206 | one pass of the line-string loop: "," before every line string but the first, then the line string's steps extend the readability, output and `Advances` facts from i line strings to i + 1 |
| MultiLineParser.GeoJsonMultiLineParser.ProcessCoordinates | src/main/java/edu/colorado/cires/cmg/tracklinegen/GeoJsonMultiLineParser.java:194-211 | a non-array fails with "coordinates was not an array"; otherwise the run advances by every point of every line string in order, and the output is one array holding one line per line string plus one per cut, with balanced WKT parentheses |
| MultiLineParser.GeoJsonMultiLineParser.VerifyFeatureType | src/main/java/edu/colorado/cires/cmg/tracklinegen/GeoJsonMultiLineParser.java:420-427 | copies the value and succeeds exactly when it is the expected type name |
| MultiLineParser.GeoJsonMultiLineParser.CopyEverythingElse | src/main/java/edu/colorado/cires/cmg/tracklinegen/GeoJsonMultiLineParser.java:411-418 | an object or a scalar is copied whole; an array is refused |
| MultiLineParser.GeoJsonMultiLineParser.GeometryMember | src/main/java/edu/colorado/cires/cmg/tracklinegen/GeoJsonMultiLineParser.java:180-189 | the member's name, then: for "coordinates" the converted array, the run advancing by its points and the corrected bbox kept (`CoordinatesMember`); otherwise the value copied whole and nothing else changed, a "type" being "MultiLineString" |
| MultiLineParser.GeoJsonMultiLineParser.CoordinatesMember | src/main/java/edu/colorado/cires/cmg/tracklinegen/GeoJsonMultiLineParser.java:184-186 | the "coordinates" member: its name, the converted array of `ProcessCoordinates` with the run advanced by all its points, then `writeBBox` keeps the corrected bbox of the envelopes and the crossing |
| MultiLineParser.GeoJsonMultiLineParser.GeometryMembers | src/main/java/edu/colorado/cires/cmg/tracklinegen/GeoJsonMultiLineParser.java:179-190 | the output is the members' outputs in order, each its name then its copied or converted value; the run advances by the points of every "coordinates" member in order; every "type" is "MultiLineString", every "coordinates" readable lines; without coordinates nothing else changes, and otherwise the corrected bbox follows from all points read |
| MultiLineParser.GeoJsonMultiLineParser.AppendGeometryMember | src/main/java/edu/colorado/cires/cmg/tracklinegen/GeoJsonMultiLineParser.java:179-189 | one pass of the geometry loop: member i handled, and the output, `Advances`, checked-member and bbox facts kept for the members before it (`GeometryPrefix`) extended to it |
| MultiLineParser.GeoJsonMultiLineParser.ProcessGeometry | src/main/java/edu/colorado/cires/cmg/tracklinegen/GeoJsonMultiLineParser.java:172-192 | a non-object fails with "Geometry was not an object"; otherwise the output is "{", each member's name and copied or converted value in order, and "}"; the WKT starts with "MULTILINESTRING " and its parentheses balance; the bbox kept is the corrected one |
| MultiLineParser.GeoJsonMultiLineParser.ReadProperties | src/main/java/edu/colorado/cires/cmg/tracklinegen/GeoJsonMultiLineParser.java:135-137 | the "properties" value is read into the `properties` field, not copied |
| MultiLineParser.GeoJsonMultiLineParser.FeatureMember | src/main/java/edu/colorado/cires/cmg/tracklinegen/GeoJsonMultiLineParser.java:128-141 | "properties" is read and writes nothing; any other member writes its name then: the converted geometry object for "geometry" (a valid MultiLineString), its value copied whole otherwise, a "type" being "Feature" |
| MultiLineParser.GeoJsonMultiLineParser.GeometryField | src/main/java/edu/colorado/cires/cmg/tracklinegen/GeoJsonMultiLineParser.java:132-134 | the output is the "geometry" name, then "{", the geometry's members converted in order, and "}" |
| MultiLineParser.GeoJsonMultiLineParser.CopiedField | src/main/java/edu/colorado/cires/cmg/tracklinegen/GeoJsonMultiLineParser.java:129-140 | writes the member's name and its value's first token; a "type" passes exactly when it is "Feature", any other member exactly when it is not an array, and then the value is copied whole |
| MultiLineParser.GeoJsonMultiLineParser.FeatureMembers | src/main/java/edu/colorado/cires/cmg/tracklinegen/GeoJsonMultiLineParser.java:126-142 | the output is the members' outputs in order, "properties" writing nothing and every other member its name then its value; the run advances by the geometry's points; every "type" is "Feature", every "geometry" valid, the record held is the last "properties" member's, and the bbox is the corrected one |
| MultiLineParser.GeoJsonMultiLineParser.AppendFeatureMember | src/main/java/edu/colorado/cires/cmg/tracklinegen/GeoJsonMultiLineParser.java:126-141 | one pass of the feature loop: member i handled, and the output, `Advances`, checked-member, record and bbox facts kept for the members before it (`FeaturePrefix`) extended to it |
| MultiLineParser.PropertiesNeverCopied | src/main/java/edu/colorado/cires/cmg/tracklinegen/GeoJsonMultiLineParser.java:135-137 | in the feature's copied members no "properties" member is written: exactly the "properties" members write nothing, and no member's output starts with the name "properties" |
| MultiLineParser.GeoJsonMultiLineParser.PutAll | src/main/java/edu/colorado/cires/cmg/tracklinegen/GeoJsonMultiLineParser.java:157-161 | every additional field is put into the map, in any order |
| MultiLineParser.GeoJsonMultiLineParser.BuildProperties | src/main/java/edu/colorado/cires/cmg/tracklinegen/GeoJsonMultiLineParser.java:149-163 | the record becomes the merged record of `MergedPropertiesSpec` |
| MultiLineParser.GeoJsonMultiLineParser.Parse | src/main/java/edu/colorado/cires/cmg/tracklinegen/GeoJsonMultiLineParser.java:118-170 | a non-object fails with "Not a JSON object"; on success the output is "{", each member other than "properties" as its name then its value (the geometry converted), the bbox when one is kept, the merged properties and "}", balanced, with balanced WKT; the run advances by the geometry's points, and when the parse gathers the first statistic the bbox is `BBoxValues` of the envelopes of the points read before and during the parse, with the crossing flag |
| MultiLineParser.GeoJsonMultiLineParser.FeatureBody | src/main/java/edu/colorado/cires/cmg/tracklinegen/GeoJsonMultiLineParser.java:126-168 | after the "{": the members as `FeatureMembers` handles them, then `Finish`, with the bbox stated over the points read |
| MultiLineParser.GeoJsonMultiLineParser.Finish | src/main/java/edu/colorado/cires/cmg/tracklinegen/GeoJsonMultiLineParser.java:144-168 | writes the bbox when there is one, then "properties" with the merged record, then the end of the object |

## Left out

- Douglas–Peucker simplification (`GeometrySimplifier`) is a parameter: the listener only relies on it keeping points of its input.
- The WGS84 orthodromic distance is a parameter returning a non-negative number; `getDistance` in both files is not modelled further.
- The spatial4j antimeridian cut is a parameter (`Cutter`); whether a segment really crosses is not modelled.
- `DecimalFormat` rounding is a parameter; the model assumes formatted numbers carry no parentheses (`PlainNumbers`), which holds for the digits, sign, point and exponent it writes.
- Floating point: doubles are reals; rounding, overflow to infinity and signed zeros are not modelled; -Infinity cannot arise since distances are never negative.
- Java `long` overflow of the counters is not modelled.
- I/O exceptions, the `RuntimeException` wrapping in the writer, and logging are not modelled.
- The exception messages are not modelled beyond the point-count one; the speed message's `%f` and `Instant` renderings are left as parameters (`SpeedMessage`).
- The generic JSON copy-through (`copyInternal`, `copyArray`, `copyObject`) is one `Value` token per copied value.
- CopyEverythingElse: an array-valued member outside the geometry's "type" and "coordinates" leaves Jackson's reader out of step with the input; the model stops there with a failure instead of following the desynchronised stream.
- Jackson's coercions of other scalars (strings holding numbers, booleans) when reading `List<Double>` or the properties are not modelled: such values are unreadable. A JSON null element of a point is modelled (`ReadDoubles`, `ArrayToCoordinate`).
- ProcessLineString: a line string that is not an array fails as unreadable once its first token and "(" are written; the source (`GeoJsonMultiLineParser.java:323-327`) copies that token and goes on reading with its reader out of step with the input, which the model does not follow.
- WriteBBox: keeps the corrected bbox of Findings (`BBoxValues`), not the values `GeoJsonMultiLineParser.java:294-299` compute; the two differ only after a crossing that left one half-envelope empty (`BBoxCorrectionAgrees`), and the contracts of `GeometryMember`, `GeometryMembers`, `ProcessGeometry`, `GeometryField`, `CoordinatesMember`, `AppendGeometryMember`, `FeatureMember`, `FeatureMembers`, `AppendFeatureMember`, `FeatureBody` and `Parse` state the corrected bbox too.
- What has already been written when an exception is thrown is not stated; callers discard partial output.
- The order in which `additionalProperties` are put into the map is not modelled (any order gives the same map, since the keys are distinct).
- The `GeometryProperties` getters are not separate members: what they return is `Value()`.
- The parser's private `mpsToKnots` is the same computation as `AntimeridianUtils.mpsToKnots` and uses it.
- The three-argument `parse` overload is `Parse` with no additional properties.
- Calling `processRow` or `finish` before `start` (a null buffer in the source) is not modelled: the buffers start empty.
- Parse: the bbox is stated for a feature whose coordinates produced statistics; for points without statistics (one-point line strings) it is kept as well, which `BBoxWrittenIffPoints` shows for the values but the contract of `Parse` does not repeat.

## Findings

| source | as written | input that shows it | evidently intended | confidence | as-written member | corrected member |
|---|---|---|---|---|---|---|
| src/main/java/edu/colorado/cires/cmg/tracklinegen/GeoJsonMultiLineParser.java:287-299 | after a recorded crossing the bbox takes minX from the east envelope and maxX from the west envelope even when one of them is empty, so the empty envelope's placeholder values (0 and -1) reach the bbox | one line string [[170, 10], [180, 20]]: the parser's split of the second point has three points, so a crossing is recorded, but no point lies west; the bbox is [170, 0, -1, 20] | the envelope of the points read, [170, 10, 180, 20]: a crossing that left one half empty is treated as no crossing | medium, not executed | ParserLogic.BBoxLeaksEmptyHalf | ParserLogic.BBoxEmptyHalfIsEnvelope |
