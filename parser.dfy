/**
 * GeoJsonMultiLineParser, phase 2: it reads a GeoJSON Feature whose geometry
 * is a MultiLineString and copies it to the output. On the way it cuts every
 * segment that crosses the antimeridian, writes the same lines as WKT (OGC
 * Simple Features Access, part 1, clause 7), sums the distance, keeps the
 * running mean speed, and adds a bbox that is correct across the
 * antimeridian (RFC 7946, section 5.2).
 *
 * The input is a parsed JSON value rather than a token stream. The two
 * outputs are append-only traces.
 */
module MultiLineParser {
  import opened Wrappers
  import opened Geometry
  import opened Json
  import opened Failures
  import opened Properties
  import opened MultiLineWriter
  import opened Antimeridian
  import opened ParserLogic

  /** What one point hands to `updateStats`: the distance and the speed. */
  datatype Stat = Stat(m: Distance, v: Num)

  /**
   * What reading one point does: the coordinate read, the tokens and WKT
   * text written, whether a crossing is recorded, how many times the output
   * line is broken (0 or 1), and the statistics gathered, if any.
   */
  datatype Plan = Plan(c: Coordinate, tokens: seq<Token>, text: string, crosses: bool, breaks: nat, stat: Option<Stat>)

  /**
   * The part of the parser's state that reading points changes: every
   * coordinate read, what `updateStats` was given, whether a crossing was
   * recorded, and how often the output line was cut.
   */
  datatype Run = Run(points: seq<Coordinate>, distances: seq<real>, speeds: seq<Num>, crossed: bool, splits: nat)

  /** The speeds handed to `updateStats`, with this step's. */
  function WithSpeed(speeds: seq<Num>, s: Option<Stat>): seq<Num> { if s.Some? then speeds + [s.value.v] else speeds }

  /** The distances handed to `updateStats`, with this step's. */
  function WithDistance(distances: seq<real>, s: Option<Stat>): seq<real> { if s.Some? then distances + [s.value.m] else distances }

  /** A list of doubles as the object mapper writes it: a JSON array of numbers. */
  function NumberArray(vs: seq<real>): Json
  {
    JArr(seq(|vs|, i requires 0 <= i < |vs| => JNum(vs[i])))
  }

  /** The bbox field, written after everything else when the parser holds one. */
  function BBoxTokens(bbox: Option<seq<real>>): seq<Token>
  {
    if bbox.Some? then [FieldName("bbox"), Value(NumberArray(bbox.value))] else []
  }

  /** The members' tokens one after the other, in the order the members came. */
  function Flatten(chunks: seq<seq<Token>>): seq<Token>
  {
    if chunks == [] then [] else Flatten(chunks[..|chunks| - 1]) + chunks[|chunks| - 1]
  }

  lemma FlattenSnoc(chunks: seq<seq<Token>>, c: seq<Token>)
    ensures Flatten(chunks + [c]) == Flatten(chunks) + c
  {
    assert (chunks + [c])[..|chunks|] == chunks;
  }

  /**
   * What one member of the geometry object leaves in the output once it is
   * handled: its name, then the converted line strings for "coordinates"
   * (an array) and the value copied whole for anything else.
   */
  predicate GeometryChunk(name: string, v: Json, chunk: seq<Token>)
  {
    && |chunk| >= 2 && chunk[0] == FieldName(name)
    && (name == "coordinates" ==> |chunk| >= 3 && chunk[1] == StartArray && chunk[|chunk| - 1] == EndArray)
    && (name != "coordinates" ==> chunk == [FieldName(name), Value(v)])
  }

  /** The "coordinates" member's name put before its converted array. */
  lemma CoordinatesChunk(v: Json, inner: seq<Token>, lineplans: seq<seq<Plan>>)
    requires inner == [StartArray] + LinesTokens(lineplans) + [EndArray] && Depth(inner) == 0
    ensures var tokens := [FieldName("coordinates")] + inner;
      && tokens == [FieldName("coordinates"), StartArray] + LinesTokens(lineplans) + [EndArray]
      && Depth(tokens) == 0 && GeometryChunk("coordinates", v, tokens)
  {
    Regroup([FieldName("coordinates")], [StartArray] + LinesTokens(lineplans), [EndArray]);
    Regroup([FieldName("coordinates")], [StartArray], LinesTokens(lineplans));
    DepthAppend([FieldName("coordinates")], inner);
    OpensSingle(FieldName("coordinates"), 0);
  }

  /**
   * What one member of the feature object leaves in the output once it is
   * handled: nothing for "properties" (it is read, and written at the end),
   * the name then the converted geometry object for "geometry", and the
   * name then the value copied whole for anything else.
   */
  predicate FeatureChunk(name: string, v: Json, chunk: seq<Token>)
  {
    if name == "properties" then chunk == []
    else
      && |chunk| >= 2 && chunk[0] == FieldName(name)
      && (name == "geometry" ==> |chunk| >= 3 && chunk[1] == StartObject && chunk[|chunk| - 1] == EndObject)
      && (name != "geometry" ==> chunk == [FieldName(name), Value(v)])
  }

  /** The first `n` members each left their chunk. */
  predicate GeometryChunks(members: seq<(string, Json)>, n: nat, chunks: seq<seq<Token>>)
  {
    n <= |members| && |chunks| == n
    && forall k :: 0 <= k < n ==> GeometryChunk(members[k].0, members[k].1, chunks[k])
  }

  predicate FeatureChunks(members: seq<(string, Json)>, n: nat, chunks: seq<seq<Token>>)
  {
    n <= |members| && |chunks| == n
    && forall k :: 0 <= k < n ==> FeatureChunk(members[k].0, members[k].1, chunks[k])
  }

  lemma GeometryChunksSnoc(members: seq<(string, Json)>, n: nat, chunks: seq<seq<Token>>, c: seq<Token>)
    requires GeometryChunks(members, n, chunks) && n < |members|
    requires GeometryChunk(members[n].0, members[n].1, c)
    ensures GeometryChunks(members, n + 1, chunks + [c]) && Flatten(chunks + [c]) == Flatten(chunks) + c
  {
    FlattenSnoc(chunks, c);
  }

  lemma FeatureChunksSnoc(members: seq<(string, Json)>, n: nat, chunks: seq<seq<Token>>, c: seq<Token>)
    requires FeatureChunks(members, n, chunks) && n < |members|
    requires FeatureChunk(members[n].0, members[n].1, c)
    ensures FeatureChunks(members, n + 1, chunks + [c]) && Flatten(chunks + [c]) == Flatten(chunks) + c
  {
    FlattenSnoc(chunks, c);
  }

  /**
   * The feature's body never copies a "properties" member: every field name
   * the members wrote at their head is the name of a member other than
   * "properties", in the members' order.
   */
  lemma PropertiesNeverCopied(members: seq<(string, Json)>, chunks: seq<seq<Token>>)
    requires FeatureChunks(members, |members|, chunks)
    ensures forall k :: 0 <= k < |chunks| ==> chunks[k] == [] || chunks[k][0] != FieldName("properties")
    ensures forall k :: 0 <= k < |chunks| ==> (chunks[k] == [] <==> members[k].0 == "properties")
  {
    forall k | 0 <= k < |chunks|
      ensures chunks[k] == [] || chunks[k][0] != FieldName("properties")
      ensures chunks[k] == [] <==> members[k].0 == "properties"
    {
      assert FeatureChunk(members[k].0, members[k].1, chunks[k]);
    }
  }

  // -------------------------------------------------------------------
  // The points of the input, and what reading them did
  // -------------------------------------------------------------------

  /** A point of the input, and whether it is the first of its line string. */
  datatype Reading = Reading(c: Coordinate, opens: bool)

  /** The coordinate a point reads as; a point that cannot be read stops the parser, and reads here as the origin. */
  function PointOf(item: Json): Coordinate
  {
    if ReadPoint(item).Ok? then ReadPoint(item).value else XY(0.0, 0.0)
  }

  /** The points of one line string, in order; the first opens it. */
  function LineReadings(items: seq<Json>): (rs: seq<Reading>)
    ensures |rs| == |items|
  {
    seq(|items|, k requires 0 <= k < |items| => Reading(PointOf(items[k]), k == 0))
  }

  lemma LineReadingsSnoc(items: seq<Json>, i: nat)
    requires i < |items|
    ensures LineReadings(items)[..i + 1] == LineReadings(items)[..i] + [Reading(PointOf(items[i]), i == 0)]
  {
  }

  /** The points of the line strings, one line string after the other. */
  function LinesReadings(lines: seq<Json>): seq<Reading>
  {
    if lines == [] then []
    else
      var line := lines[|lines| - 1];
      LinesReadings(lines[..|lines| - 1]) + (if line.JArr? then LineReadings(line.items) else [])
  }

  /** The points a member of the geometry object holds: those of "coordinates", none for any other. */
  function CoordinatesReadings(name: string, v: Json): seq<Reading>
  {
    if name == "coordinates" && v.JArr? then LinesReadings(v.items) else []
  }

  /** The points of a geometry object, member after member. */
  function GeometryReadings(members: seq<(string, Json)>): seq<Reading>
  {
    if members == [] then []
    else
      var (name, v) := members[|members| - 1];
      GeometryReadings(members[..|members| - 1]) + CoordinatesReadings(name, v)
  }

  /** The points a member of the feature object holds: those of "geometry", none for any other. */
  function GeometryFieldReadings(name: string, v: Json): seq<Reading>
  {
    if name == "geometry" && v.JObj? then GeometryReadings(v.members) else []
  }

  /** The points of a feature object, member after member. */
  function FeatureReadings(members: seq<(string, Json)>): seq<Reading>
  {
    if members == [] then []
    else
      var (name, v) := members[|members| - 1];
      FeatureReadings(members[..|members| - 1]) + GeometryFieldReadings(name, v)
  }

  lemma LinesReadingsSnoc(lines: seq<Json>, i: nat)
    requires i < |lines| && lines[i].JArr?
    ensures LinesReadings(lines[..i + 1]) == LinesReadings(lines[..i]) + LineReadings(lines[i].items)
  {
    assert lines[..i + 1][..i] == lines[..i];
  }

  lemma GeometryReadingsSnoc(members: seq<(string, Json)>, i: nat)
    requires i < |members|
    ensures GeometryReadings(members[..i + 1]) == GeometryReadings(members[..i]) + CoordinatesReadings(members[i].0, members[i].1)
  {
    assert members[..i + 1][..i] == members[..i];
  }

  lemma FeatureReadingsSnoc(members: seq<(string, Json)>, i: nat)
    requires i < |members|
    ensures FeatureReadings(members[..i + 1]) == FeatureReadings(members[..i]) + GeometryFieldReadings(members[i].0, members[i].1)
  {
    assert members[..i + 1][..i] == members[..i];
  }

  /** The coordinates of the points, in order. */
  function Coords(rs: seq<Reading>): (cs: seq<Coordinate>)
    ensures |cs| == |rs| && forall k :: 0 <= k < |rs| ==> cs[k] == rs[k].c
  {
    seq(|rs|, k requires 0 <= k < |rs| => rs[k].c)
  }

  /** The point read before the k-th: the one before it among `rs`, or `a0` before the first. */
  function Prev(rs: seq<Reading>, a0: Option<Coordinate>, k: nat): Option<Coordinate>
    requires k <= |rs|
  {
    if k == 0 then a0 else Some(rs[k - 1].c)
  }

  /** After these points, the last one read is the last of them, or the one before them when there are none. */
  lemma LastAfter(before: seq<Coordinate>, rs: seq<Reading>)
    ensures LastOf(before + Coords(rs)) == Prev(rs, LastOf(before), |rs|)
  {
    if rs == [] {
      assert before + Coords(rs) == before;
    }
  }

  /** What these points wrote, one after the other. */
  function PlansTokens(ps: seq<Plan>): seq<Token>
  {
    if ps == [] then [] else PlansTokens(ps[..|ps| - 1]) + ps[|ps| - 1].tokens
  }

  function PlansText(ps: seq<Plan>): string
  {
    if ps == [] then "" else PlansText(ps[..|ps| - 1]) + ps[|ps| - 1].text
  }

  /** The distances and speeds these points handed to `updateStats`, in order. */
  function PlansDistances(ps: seq<Plan>): seq<real>
  {
    if ps == [] then [] else WithDistance(PlansDistances(ps[..|ps| - 1]), ps[|ps| - 1].stat)
  }

  function PlansSpeeds(ps: seq<Plan>): seq<Num>
  {
    if ps == [] then [] else WithSpeed(PlansSpeeds(ps[..|ps| - 1]), ps[|ps| - 1].stat)
  }

  /** Whether one of these points recorded a crossing, and how often they cut the output line. */
  predicate Crosses(ps: seq<Plan>)
  {
    if ps == [] then false else Crosses(ps[..|ps| - 1]) || ps[|ps| - 1].crosses
  }

  function Breaks(ps: seq<Plan>): nat
  {
    if ps == [] then 0 else Breaks(ps[..|ps| - 1]) + ps[|ps| - 1].breaks
  }

  /** Everything these points did is what the two runs of points did, one after the other. */
  lemma PlansAppend(p1: seq<Plan>, p2: seq<Plan>)
    ensures PlansTokens(p1 + p2) == PlansTokens(p1) + PlansTokens(p2)
    ensures PlansText(p1 + p2) == PlansText(p1) + PlansText(p2)
    ensures PlansDistances(p1 + p2) == PlansDistances(p1) + PlansDistances(p2)
    ensures PlansSpeeds(p1 + p2) == PlansSpeeds(p1) + PlansSpeeds(p2)
    ensures Crosses(p1 + p2) == (Crosses(p1) || Crosses(p2))
    ensures Breaks(p1 + p2) == Breaks(p1) + Breaks(p2)
  {
    TokensAppend(p1, p2);
    TextAppend(p1, p2);
    StatsAppend(p1, p2);
    CutsAppend(p1, p2);
  }

  lemma {:induction false} TokensAppend(p1: seq<Plan>, p2: seq<Plan>)
    ensures PlansTokens(p1 + p2) == PlansTokens(p1) + PlansTokens(p2)
  {
    if p2 == [] {
      assert p1 + p2 == p1;
    } else {
      var init, last := p2[..|p2| - 1], p2[|p2| - 1];
      TokensAppend(p1, init);
      assert (p1 + p2)[..|p1 + p2| - 1] == p1 + init;
      assert (p1 + p2)[|p1 + p2| - 1] == last;
      Regroup(PlansTokens(p1), PlansTokens(init), last.tokens);
    }
  }

  lemma {:induction false} TextAppend(p1: seq<Plan>, p2: seq<Plan>)
    ensures PlansText(p1 + p2) == PlansText(p1) + PlansText(p2)
  {
    if p2 == [] {
      assert p1 + p2 == p1;
    } else {
      var init, last := p2[..|p2| - 1], p2[|p2| - 1];
      TextAppend(p1, init);
      assert (p1 + p2)[..|p1 + p2| - 1] == p1 + init;
      assert (p1 + p2)[|p1 + p2| - 1] == last;
      Regroup(PlansText(p1), PlansText(init), last.text);
    }
  }

  lemma {:induction false} StatsAppend(p1: seq<Plan>, p2: seq<Plan>)
    ensures PlansDistances(p1 + p2) == PlansDistances(p1) + PlansDistances(p2)
    ensures PlansSpeeds(p1 + p2) == PlansSpeeds(p1) + PlansSpeeds(p2)
  {
    if p2 == [] {
      assert p1 + p2 == p1;
    } else {
      var init := p2[..|p2| - 1];
      StatsAppend(p1, init);
      assert (p1 + p2)[..|p1 + p2| - 1] == p1 + init;
      assert (p1 + p2)[|p1 + p2| - 1] == p2[|p2| - 1];
    }
  }

  lemma {:induction false} CutsAppend(p1: seq<Plan>, p2: seq<Plan>)
    ensures Crosses(p1 + p2) == (Crosses(p1) || Crosses(p2))
    ensures Breaks(p1 + p2) == Breaks(p1) + Breaks(p2)
  {
    if p2 == [] {
      assert p1 + p2 == p1;
    } else {
      var init := p2[..|p2| - 1];
      CutsAppend(p1, init);
      assert (p1 + p2)[..|p1 + p2| - 1] == p1 + init;
      assert (p1 + p2)[|p1 + p2| - 1] == p2[|p2| - 1];
    }
  }

  /** One more point's output after the points' before it. */
  lemma PlansSnoc(base: seq<Token>, baseText: string, plans: seq<Plan>, p: Plan)
    ensures base + PlansTokens(plans) + p.tokens == base + PlansTokens(plans + [p])
    ensures baseText + PlansText(plans) + p.text == baseText + PlansText(plans + [p])
  {
    assert (plans + [p])[..|plans|] == plans;
    Regroup(base, PlansTokens(plans), p.tokens);
    Regroup(baseText, PlansText(plans), p.text);
  }

  /** A point's output is balanced and opens one array at the points' level per cut. */
  predicate Shaped(p: Plan)
  {
    && Depth(p.tokens) == 0 && Opens(p.tokens, -1) == p.breaks
    && Count(p.text, '(') == p.breaks && Count(p.text, ')') == p.breaks
  }

  lemma PlansShape(plans: seq<Plan>)
    requires forall k :: 0 <= k < |plans| ==> Shaped(plans[k])
    ensures Depth(PlansTokens(plans)) == 0 && Opens(PlansTokens(plans), -1) == Breaks(plans)
    ensures Count(PlansText(plans), '(') == Breaks(plans) && Count(PlansText(plans), ')') == Breaks(plans)
  {
    PlansTokensShape(plans);
    PlansTextShape(plans);
  }

  lemma {:induction false} PlansTokensShape(plans: seq<Plan>)
    requires forall k :: 0 <= k < |plans| ==> Shaped(plans[k])
    ensures Depth(PlansTokens(plans)) == 0 && Opens(PlansTokens(plans), -1) == Breaks(plans)
  {
    if plans != [] {
      var n := |plans| - 1;
      var init, last := plans[..n], plans[n];
      PlansTokensShape(init);
      assert Shaped(last);
      assert PlansTokens(plans) == PlansTokens(init) + last.tokens && Breaks(plans) == Breaks(init) + last.breaks;
      OpensAppend(PlansTokens(init), last.tokens, -1);
      DepthAppend(PlansTokens(init), last.tokens);
    }
  }

  lemma {:induction false} PlansTextShape(plans: seq<Plan>)
    requires forall k :: 0 <= k < |plans| ==> Shaped(plans[k])
    ensures Count(PlansText(plans), '(') == Breaks(plans) && Count(PlansText(plans), ')') == Breaks(plans)
  {
    if plans == [] {
      assert PlansText(plans) == [];
    } else {
      var n := |plans| - 1;
      var init, last := plans[..n], plans[n];
      PlansTextShape(init);
      assert Shaped(last);
      CountAppend(PlansText(init), last.text, '(');
      CountAppend(PlansText(init), last.text, ')');
    }
  }

  /** One point's plan alone. */
  lemma PlanAlone(p: Plan)
    ensures PlansTokens([p]) == p.tokens && PlansText([p]) == p.text
    ensures PlansDistances([p]) == WithDistance([], p.stat) && PlansSpeeds([p]) == WithSpeed([], p.stat)
    ensures Crosses([p]) == p.crosses && Breaks([p]) == p.breaks
  {
    assert [p][..0] == [];
  }

  /** A line string's output: its points between "[" and "]", and between "(" and ")". */
  function LineTokens(ps: seq<Plan>): seq<Token>
  {
    [StartArray] + PlansTokens(ps) + [EndArray]
  }

  function LineText(ps: seq<Plan>): string
  {
    "(" + PlansText(ps) + ")"
  }

  /** The line strings' output, one per line string read, their texts separated by ",". */
  function LinesTokens(lps: seq<seq<Plan>>): seq<Token>
  {
    if lps == [] then [] else LinesTokens(lps[..|lps| - 1]) + LineTokens(lps[|lps| - 1])
  }

  function LinesText(lps: seq<seq<Plan>>): string
  {
    if lps == [] then ""
    else LinesText(lps[..|lps| - 1]) + (if |lps| > 1 then "," else "") + LineText(lps[|lps| - 1])
  }

  /** The points of the line strings, one line string after the other. */
  function Concat(lps: seq<seq<Plan>>): seq<Plan>
  {
    if lps == [] then [] else Concat(lps[..|lps| - 1]) + lps[|lps| - 1]
  }

  lemma LinesSnoc(lps: seq<seq<Plan>>, ps: seq<Plan>)
    ensures LinesTokens(lps + [ps]) == LinesTokens(lps) + LineTokens(ps)
    ensures LinesText(lps + [ps]) == LinesText(lps) + (if lps != [] then "," else "") + LineText(ps)
    ensures Concat(lps + [ps]) == Concat(lps) + ps
  {
    assert (lps + [ps])[..|lps|] == lps;
  }

  /** One more line string's output after the ones before it. */
  lemma LinesOutputSnoc(base: seq<Token>, baseText: string, lps: seq<seq<Plan>>, ps: seq<Plan>)
    ensures base + LinesTokens(lps) + LineTokens(ps) == base + LinesTokens(lps + [ps])
    ensures lps == [] ==> baseText + LinesText(lps) + LineText(ps) == baseText + LinesText(lps + [ps])
    ensures lps != [] ==> baseText + LinesText(lps) + "," + LineText(ps) == baseText + LinesText(lps + [ps])
  {
    LinesSnoc(lps, ps);
    Regroup(base, LinesTokens(lps), LineTokens(ps));
    if lps == [] {
      assert LinesText(lps) + "" == LinesText(lps);
      Regroup(baseText, LinesText(lps), LineText(ps));
    } else {
      Regroup(baseText, LinesText(lps), ",");
      Regroup(baseText, LinesText(lps) + ",", LineText(ps));
    }
  }

  /**
   * The line strings' output is balanced, opens one array at their level
   * per line string read and per cut, and its WKT parentheses match that
   * count.
   */
  lemma LinesShape(lps: seq<seq<Plan>>)
    requires forall k :: 0 <= k < |Concat(lps)| ==> Shaped(Concat(lps)[k])
    ensures Depth(LinesTokens(lps)) == 0 && Opens(LinesTokens(lps), 0) == |lps| + Breaks(Concat(lps))
    ensures Count(LinesText(lps), '(') == |lps| + Breaks(Concat(lps)) && Count(LinesText(lps), ')') == |lps| + Breaks(Concat(lps))
  {
    LinesTokensShape(lps);
    LinesTextShape(lps);
  }

  /** The last line string's points and the ones before it, each shaped. */
  lemma ConcatShaped(lps: seq<seq<Plan>>)
    requires lps != [] && forall k :: 0 <= k < |Concat(lps)| ==> Shaped(Concat(lps)[k])
    ensures var init, ps := lps[..|lps| - 1], lps[|lps| - 1];
      && (forall k :: 0 <= k < |Concat(init)| ==> Shaped(Concat(init)[k]))
      && (forall k :: 0 <= k < |ps| ==> Shaped(ps[k]))
      && Breaks(Concat(lps)) == Breaks(Concat(init)) + Breaks(ps)
  {
    var init, ps := lps[..|lps| - 1], lps[|lps| - 1];
    assert Concat(lps) == Concat(init) + ps;
    forall k | 0 <= k < |Concat(init)|
      ensures Shaped(Concat(init)[k])
    {
      assert Concat(init)[k] == Concat(lps)[k];
    }
    forall k | 0 <= k < |ps|
      ensures Shaped(ps[k])
    {
      assert ps[k] == Concat(lps)[|Concat(init)| + k];
    }
    CutsAppend(Concat(init), ps);
  }

  lemma {:induction false} LinesTokensShape(lps: seq<seq<Plan>>)
    requires forall k :: 0 <= k < |Concat(lps)| ==> Shaped(Concat(lps)[k])
    ensures Depth(LinesTokens(lps)) == 0 && Opens(LinesTokens(lps), 0) == |lps| + Breaks(Concat(lps))
  {
    if lps == [] {
      assert LinesTokens(lps) == [] && Concat(lps) == [];
    } else {
      var init, ps := lps[..|lps| - 1], lps[|lps| - 1];
      ConcatShaped(lps);
      LinesTokensShape(init);
      PlansShape(ps);
      TokensStep(init, ps, |init| + Breaks(Concat(init)), Breaks(ps));
      SplitLast(lps);
    }
  }

  /** The arrays opened by one more line string's output. */
  lemma TokensStep(init: seq<seq<Plan>>, ps: seq<Plan>, n: nat, b: nat)
    requires Depth(LinesTokens(init)) == 0 && Opens(LinesTokens(init), 0) == n
    requires Depth(PlansTokens(ps)) == 0 && Opens(PlansTokens(ps), -1) == b
    ensures Depth(LinesTokens(init + [ps])) == 0 && Opens(LinesTokens(init + [ps]), 0) == n + 1 + b
  {
    LinesSnoc(init, ps);
    Enclosed(PlansTokens(ps), "", 0, b, 0);
    OpensAppend(LinesTokens(init), LineTokens(ps), 0);
    DepthAppend(LinesTokens(init), LineTokens(ps));
  }

  lemma {:induction false} LinesTextShape(lps: seq<seq<Plan>>)
    requires forall k :: 0 <= k < |Concat(lps)| ==> Shaped(Concat(lps)[k])
    ensures Count(LinesText(lps), '(') == |lps| + Breaks(Concat(lps)) && Count(LinesText(lps), ')') == |lps| + Breaks(Concat(lps))
  {
    if lps == [] {
      assert LinesText(lps) == "" && Concat(lps) == [];
    } else {
      var init, ps := lps[..|lps| - 1], lps[|lps| - 1];
      ConcatShaped(lps);
      LinesTextShape(init);
      PlansShape(ps);
      TextStep(init, ps, |init| + Breaks(Concat(init)), Breaks(ps));
      SplitLast(lps);
    }
  }

  /** The parentheses of one more line string's text. */
  lemma TextStep(init: seq<seq<Plan>>, ps: seq<Plan>, n: nat, b: nat)
    requires Count(LinesText(init), '(') == n && Count(LinesText(init), ')') == n
    requires Count(PlansText(ps), '(') == b && Count(PlansText(ps), ')') == b
    ensures Count(LinesText(init + [ps]), '(') == n + 1 + b && Count(LinesText(init + [ps]), ')') == n + 1 + b
  {
    LinesSnoc(init, ps);
    var t := LinesText(init) + (if init != [] then "," else "");
    if init != [] {
      Separated(LinesText(init));
    } else {
      assert t == LinesText(init);
    }
    Enclosed([], PlansText(ps), 0, 0, b);
    CountAppend(t, LineText(ps), '(');
    CountAppend(t, LineText(ps), ')');
  }

  lemma ValidSnoc(lines: seq<Json>, i: nat)
    requires i < |lines| && forall k :: 0 <= k <= i ==> ValidLine(lines[k])
    ensures forall k :: 0 <= k < i + 1 ==> ValidLine(lines[k])
  {
  }

  lemma ValidPointSnoc(items: seq<Json>, i: nat)
    requires i < |items| && forall k :: 0 <= k <= i ==> ValidPoint(items[k])
    ensures forall k :: 0 <= k < i + 1 ==> ValidPoint(items[k])
  {
  }

  /** A point the parser can read: an array of at least two numbers. */
  predicate ValidPoint(item: Json)
  {
    ReadPoint(item).Ok?
  }

  predicate ValidLine(line: Json)
  {
    line.JArr? && forall k :: 0 <= k < |line.items| ==> ValidPoint(line.items[k])
  }

  predicate ValidLines(coords: Json)
  {
    coords.JArr? && forall k :: 0 <= k < |coords.items| ==> ValidLine(coords.items[k])
  }

  /** Every member with this name has this value. */
  predicate AllNamed(members: seq<(string, Json)>, name: string, value: Json)
  {
    forall k :: 0 <= k < |members| && members[k].0 == name ==> members[k].1 == value
  }

  /** A geometry the parser accepts: an object of type MultiLineString whose coordinates are readable lines. */
  predicate ValidGeometry(g: Json)
  {
    && g.JObj?
    && AllNamed(g.members, "type", JStr("MultiLineString"))
    && CoordinatesReadable(g.members)
  }

  /** Every "coordinates" member holds readable lines. */
  predicate CoordinatesReadable(members: seq<(string, Json)>)
  {
    forall k :: 0 <= k < |members| && members[k].0 == "coordinates" ==> ValidLines(members[k].1)
  }

  /** Every "geometry" member is one the parser accepts. */
  predicate GeometriesValid(members: seq<(string, Json)>)
  {
    forall k :: 0 <= k < |members| && members[k].0 == "geometry" ==> ValidGeometry(members[k].1)
  }

  lemma GeometriesValidSnoc(members: seq<(string, Json)>, i: nat)
    requires i < |members| && GeometriesValid(members[..i]) && (members[i].0 == "geometry" ==> ValidGeometry(members[i].1))
    ensures GeometriesValid(members[..i + 1])
  {
    assert forall k :: 0 <= k <= i ==> members[..i + 1][k] == members[k];
  }

  lemma AllNamedSnoc(members: seq<(string, Json)>, i: nat, name: string, value: Json)
    requires i < |members| && AllNamed(members[..i], name, value) && (members[i].0 == name ==> members[i].1 == value)
    ensures AllNamed(members[..i + 1], name, value)
  {
    assert forall k :: 0 <= k <= i ==> members[..i + 1][k] == members[k];
  }

  lemma CoordinatesReadableSnoc(members: seq<(string, Json)>, i: nat)
    requires i < |members| && CoordinatesReadable(members[..i]) && (members[i].0 == "coordinates" ==> ValidLines(members[i].1))
    ensures CoordinatesReadable(members[..i + 1])
  {
    assert forall k :: 0 <= k <= i ==> members[..i + 1][k] == members[k];
  }

  predicate HasMember(members: seq<(string, Json)>, name: string)
  {
    exists k :: 0 <= k < |members| && members[k].0 == name
  }

  /** The record read from a "properties" member; null reads as none. */
  function PropertiesRead(v: Json): Option<PropertiesValue>
  {
    if v.JObj? && Decode(v.members).Ok? then Some(Decode(v.members).value) else None
  }

  /** What the `properties` field holds after these members: the last "properties" member's record, else what it held before. */
  function PropertiesAfter(members: seq<(string, Json)>, before: Option<PropertiesValue>): Option<PropertiesValue>
  {
    if members == [] then before
    else if members[|members| - 1].0 == "properties" then PropertiesRead(members[|members| - 1].1)
    else PropertiesAfter(members[..|members| - 1], before)
  }

  lemma PropertiesAfterSnoc(members: seq<(string, Json)>, i: nat, before: Option<PropertiesValue>)
    requires i < |members|
    ensures PropertiesAfter(members[..i + 1], before)
      == if members[i].0 == "properties" then PropertiesRead(members[i].1) else PropertiesAfter(members[..i], before)
  {
    assert members[..i + 1][..i] == members[..i];
  }

  /**
   * The record `parse` writes: the input's record (an empty one when there
   * is none) with the distance and mean speed set and the additional fields
   * put into its map.
   */
  function MergedProperties(base: Option<PropertiesValue>, distanceM: real, avgSpeedM: Num,
                            additional: map<string, Json>): PropertiesValue
  {
    var b := if base.Some? then base.value else PropertiesValue(None, None, None, None, None, map[]);
    b.(distanceM := Some(Finite(distanceM)), avgSpeedMPS := Some(avgSpeedM), otherFields := b.otherFields + additional)
  }

  /**
   * The merged record carries the distance and the mean speed, keeps the
   * read record's point counts, and holds every additional field and every
   * field read that no additional field overrides.
   */
  lemma MergedPropertiesSpec(base: Option<PropertiesValue>, distanceM: real, avgSpeedM: Num, additional: map<string, Json>)
    ensures var p := MergedProperties(base, distanceM, avgSpeedM, additional);
      && p.distanceM == Some(Finite(distanceM)) && p.avgSpeedMPS == Some(avgSpeedM)
      && (base.None? ==> p.unsimplifiedPointCount.None? && p.otherFields == additional)
      && (base.Some? ==>
            && p.unsimplifiedPointCount == base.value.unsimplifiedPointCount
            && p.simplifiedPointCount == base.value.simplifiedPointCount
            && p.targetPointCount == base.value.targetPointCount)
      && (forall k :: k in additional ==> k in p.otherFields && p.otherFields[k] == additional[k])
      && (base.Some? ==> forall k :: k in base.value.otherFields && k !in additional ==>
            k in p.otherFields && p.otherFields[k] == base.value.otherFields[k])
  {
  }

  /** `count`, `distanceM` and `avgSpeedM` once these distances and speeds went through `updateStats`. */
  function StatsOf(distances: seq<real>, speeds: seq<Num>): (nat, real, Num)
  {
    (|speeds|, Sum(distances), Mean(speeds))
  }

  /** One more call of `updateStats` adds to the sum and takes one running-mean step. */
  lemma StatsSnoc(distances: seq<real>, speeds: seq<Num>, m: real, v: Num)
    ensures Sum(distances + [m]) == Sum(distances) + m
    ensures Mean(speeds + [v]) == RunningMean(Mean(speeds), v, |speeds| + 1)
  {
    var ds, vs := distances + [m], speeds + [v];
    assert ds[..|ds| - 1] == distances && ds[|ds| - 1] == m;
    assert vs[..|vs| - 1] == speeds && vs[|vs| - 1] == v;
  }

  /** The west and the east envelope over these points. */
  function EnvelopesOf(points: seq<Coordinate>): (Envelope, Envelope)
  {
    (Bounds(West(points)), Bounds(East(points)))
  }

  /** One more point widens exactly the envelope of its own half. */
  lemma EnvelopesSnoc(points: seq<Coordinate>, c: Coordinate)
    ensures Bounds(West(points + [c])) == if c.x < 0.0 then Include(Bounds(West(points)), c) else Bounds(West(points))
    ensures Bounds(East(points + [c])) == if c.x < 0.0 then Bounds(East(points)) else Include(Bounds(East(points)), c)
  {
    var ps := points + [c];
    assert ps[..|points|] == points;
    var w, e := West(points), East(points);
    if c.x < 0.0 {
      assert West(ps) == w + [c] && East(ps) == e;
      assert (w + [c])[..|w|] == w;
    } else {
      assert West(ps) == w && East(ps) == e + [c];
      assert (e + [c])[..|e|] == e;
    }
  }

  /** Regrouping appended output; the trace of a step is built up one write at a time. */
  lemma SplitLast<T>(s: seq<T>)
    requires s != []
    ensures s[..|s| - 1] + [s[|s| - 1]] == s
  {
  }

  lemma Regroup<T>(a: seq<T>, b: seq<T>, c: seq<T>)
    ensures a + b + c == a + (b + c)
  {
  }

  function LastOf(points: seq<Coordinate>): Option<Coordinate>
  {
    if points == [] then None else Some(points[|points| - 1])
  }

  /**
   * Two balanced outputs one after the other, each opening arrays at level
   * `d` and parentheses as often: their counts add up.
   */
  lemma Joined(t: seq<Token>, x: string, u: seq<Token>, y: string, d: int, n: nat, b: nat)
    requires Depth(t) == 0 && Opens(t, d) == n && Count(x, '(') == n && Count(x, ')') == n
    requires Depth(u) == 0 && Opens(u, d) == b && Count(y, '(') == b && Count(y, ')') == b
    ensures Depth(t + u) == 0 && Opens(t + u, d) == n + b
    ensures Count(x + y, '(') == n + b && Count(x + y, ')') == n + b
  {
    OpensAppend(t, u, d);
    DepthAppend(t, u);
    CountAppend(x, y, '(');
    CountAppend(x, y, ')');
  }

  /**
   * A cut: a balanced output, the line's "]" and the next line's "[", then
   * another; in WKT the two sides are joined by "), (".
   */
  lemma CutShape(t: seq<Token>, x: string, u: seq<Token>, y: string)
    requires Depth(t) == 0 && Opens(t, -1) == 0 && Count(x, '(') == 0 && Count(x, ')') == 0
    requires Depth(u) == 0 && Opens(u, -1) == 0 && Count(y, '(') == 0 && Count(y, ')') == 0
    ensures Depth(t + [EndArray, StartArray] + u) == 0 && Opens(t + [EndArray, StartArray] + u, -1) == 1
    ensures Count(x + "), (" + y, '(') == 1 && Count(x + "), (" + y, ')') == 1
  {
    CutTokens(t, u);
    CutText(x, y);
  }

  /** The tokens of a cut: "]" and "[" between two balanced halves open one array at the line's level. */
  lemma CutTokens(t: seq<Token>, u: seq<Token>)
    requires Depth(t) == 0 && Opens(t, -1) == 0 && Depth(u) == 0 && Opens(u, -1) == 0
    ensures Depth(t + [EndArray, StartArray] + u) == 0 && Opens(t + [EndArray, StartArray] + u, -1) == 1
  {
    var brk := [EndArray, StartArray];
    OpensSingle(EndArray, -1);
    OpensSingle(StartArray, 0);
    assert brk == [EndArray] + [StartArray];
    OpensAppend([EndArray], [StartArray], -1);
    DepthAppend([EndArray], [StartArray]);
    OpensAppend(t, brk, -1);
    DepthAppend(t, brk);
    OpensAppend(t + brk, u, -1);
    DepthAppend(t + brk, u);
  }

  /** The WKT of a cut: "), (" between two texts without parentheses adds one of each. */
  lemma CutText(x: string, y: string)
    requires Count(x, '(') == 0 && Count(x, ')') == 0 && Count(y, '(') == 0 && Count(y, ')') == 0
    ensures Count(x + "), (" + y, '(') == 1 && Count(x + "), (" + y, ')') == 1
  {
    assert "), ("[..3] == "), " && "), "[..2] == ")," && "),"[..1] == ")" && ")"[..0] == "";
    CountAppend(x, "), (", '(');
    CountAppend(x, "), (", ')');
    CountAppend(x + "), (", y, '(');
    CountAppend(x + "), (", y, ')');
  }

  /** The "," between line strings holds no parenthesis. */
  lemma Separated(x: string)
    ensures Count(x + ",", '(') == Count(x, '(') && Count(x + ",", ')') == Count(x, ')')
  {
    assert ","[..0] == "";
    CountAppend(x, ",", '(');
    CountAppend(x, ",", ')');
  }

  /** A line string's points between "[" and "]" and between "(" and ")", appended to the output. */
  lemma LineShape(before: seq<Token>, t: seq<Token>, beforeText: string, x: string, k: nat)
    requires Depth(t) == 0 && Opens(t, -1) == k && Count(x, '(') == k && Count(x, ')') == k
    ensures var a := [StartArray] + t + [EndArray];
      && before + [StartArray] + t + [EndArray] == before + a
      && Depth(a) == 0 && Opens(a, 0) == 1 + k
    ensures var y := "(" + x + ")";
      && beforeText + "(" + x + ")" == beforeText + y
      && Count(y, '(') == 1 + k && Count(y, ')') == 1 + k
  {
    Enclosed(t, x, 0, k, k);
  }

  /**
   * A balanced output between "[" and "]" and between "(" and ")": the
   * array opened counts at its own level, what it holds one level below.
   */
  lemma Enclosed(t: seq<Token>, x: string, d: int, k: nat, n: nat)
    requires Depth(t) == 0 && Opens(t, d - 1) == k && Count(x, '(') == n && Count(x, ')') == n
    ensures Depth([StartArray] + t + [EndArray]) == 0 && Opens([StartArray] + t + [EndArray], d) == ((if d == 0 then 1 else 0) + k)
    ensures Count("(" + x + ")", '(') == 1 + n && Count("(" + x + ")", ')') == 1 + n
  {
    OpensSingle(StartArray, d);
    OpensSingle(EndArray, d - 1);
    OpensAppend([StartArray], t, d);
    DepthAppend([StartArray], t);
    OpensAppend([StartArray] + t, [EndArray], d);
    DepthAppend([StartArray] + t, [EndArray]);
    assert "("[..0] == "" && ")"[..0] == "";
    CountAppend("(", x, '(');
    CountAppend("(", x, ')');
    CountAppend("(" + x, ")", '(');
    CountAppend("(" + x, ")", ')');
  }

  /** Two outputs that each close what they open and balance their parentheses: so does the pair. */
  lemma Balanced(t: seq<Token>, x: string, u: seq<Token>, y: string)
    requires Depth(t) == 0 && Count(x, '(') == Count(x, ')')
    requires Depth(u) == 0 && Count(y, '(') == Count(y, ')')
    ensures Depth(t + u) == 0 && Count(x + y, '(') == Count(x + y, ')')
  {
    DepthAppend(t, u);
    CountAppend(x, y, '(');
    CountAppend(x, y, ')');
  }

  /** The geometry object around balanced members, and its WKT tag before their text. */
  lemma GeometryShape(t: seq<Token>, x: string)
    requires Depth(t) == 0 && Count(x, '(') == Count(x, ')')
    ensures Depth([StartObject] + t + [EndObject]) == 0
    ensures Count("MULTILINESTRING " + x, '(') == Count("MULTILINESTRING " + x, ')')
  {
    DepthAppend([StartObject], t);
    DepthAppend([StartObject] + t, [EndObject]);
    OpensSingle(StartObject, 0);
    OpensSingle(EndObject, 0);
    CountAbsent("MULTILINESTRING ", '(');
    CountAbsent("MULTILINESTRING ", ')');
    CountAppend("MULTILINESTRING ", x, '(');
    CountAppend("MULTILINESTRING ", x, ')');
  }

  /** A field whose value is a converted object: the name adds no depth and heads the object. */
  lemma FieldShape(name: string, inner: seq<Token>, chunks: seq<seq<Token>>)
    requires Depth(inner) == 0 && inner == [StartObject] + Flatten(chunks) + [EndObject]
    ensures Depth([FieldName(name)] + inner) == 0
    ensures [FieldName(name)] + inner == [FieldName(name), StartObject] + Flatten(chunks) + [EndObject]
  {
    DepthAppend([FieldName(name)], inner);
    OpensSingle(FieldName(name), 0);
  }

  /** A member copied as its name and one value token. */
  lemma ScalarShape(name: string, t: Token)
    requires Weight(t) == 0
    ensures Depth([FieldName(name), t]) == 0 && Count("", '(') == Count("", ')')
  {
    OpensSingle(FieldName(name), 0);
    OpensSingle(t, 0);
    DepthAppend([FieldName(name)], [t]);
  }

  /** A member that `parse` hands to `processGeometry` and that holds coordinates to convert. */
  predicate Converts(name: string, v: Json)
  {
    name == "geometry" && v.JObj? && HasMember(v.members, "coordinates")
  }

  /** The entries of `m` under the keys in `done`. */
  function Restrict(m: map<string, Json>, done: set<string>): map<string, Json>
  {
    map k | k in done && k in m :: m[k]
  }

  /** Putting one more entry of `m` is restricting `m` to one more key. */
  lemma RestrictAdd(base: map<string, Json>, m: map<string, Json>, done: set<string>, k: string)
    requires k in m
    ensures (base + Restrict(m, done))[k := m[k]] == base + Restrict(m, done + {k})
  {
  }

  lemma RestrictAll(m: map<string, Json>)
    ensures Restrict(m, m.Keys) == m
  {
  }

  /** The additional properties `parse` was given; null is none. */
  function Additional(additional: Option<map<string, Json>>): map<string, Json>
  {
    if additional.Some? then additional.value else map[]
  }

  /** A name occurs among the first i + 1 members iff it occurs among the first i or is the (i + 1)-th's. */
  lemma HasMemberSnoc(members: seq<(string, Json)>, i: nat, name: string)
    requires i < |members|
    ensures HasMember(members[..i + 1], name) <==> HasMember(members[..i], name) || members[i].0 == name
  {
    var m, m' := members[..i + 1], members[..i];
    if HasMember(m', name) {
      var k :| 0 <= k < |m'| && m'[k].0 == name;
      assert m[k] == m'[k];
    }
    if members[i].0 == name {
      assert m[i].0 == name;
    }
    if HasMember(m, name) && members[i].0 != name {
      var k :| 0 <= k < |m| && m[k].0 == name;
      assert m'[k] == m[k];
    }
  }

  class GeoJsonMultiLineParser {
    const pattern: string
    const decimal: Formatter
    const maxAllowedSpeedKnts: real
    const cut: Cutter
    /** GeoTools' WGS84 orthodromic distance. */
    const distance: (Coordinate, Coordinate) -> Distance

    var westBoundingBox: Envelope
    var eastBoundingBox: Envelope
    var crossedAntimeridian: bool
    var distanceM: real
    var count: nat
    var avgSpeedM: Num
    var properties: Option<GeometryProperties>
    var bbox: Option<seq<real>>
    var lastCoordinate: Option<Coordinate>
    var absoluteLastCoordinate: Option<Coordinate>

    /** Every coordinate read, what `updateStats` was given, and the line breaks made. */
    ghost var points: seq<Coordinate>
    ghost var distances: seq<real>
    ghost var speeds: seq<Num>
    ghost var splits: nat

    /**
     * The statistics are the sum and the running mean of what `updateStats`
     * was given; each envelope holds exactly its half of the points read;
     * `absoluteLastCoordinate` is the last point read and `lastCoordinate`
     * is it or null.
     */
    ghost predicate Valid()
      reads this
    {
      && |distances| == |speeds| && (count, distanceM, avgSpeedM) == StatsOf(distances, speeds)
      && (westBoundingBox, eastBoundingBox) == EnvelopesOf(points)
      && absoluteLastCoordinate == LastOf(points)
      && (lastCoordinate.None? || lastCoordinate == absoluteLastCoordinate)
    }

    /** Formatted numbers hold no parentheses. */
    ghost predicate PlainNumbers()
    {
      forall v :: ParenFree(Format(v))
    }

    ghost function Place(): (seq<Coordinate>, Option<Coordinate>, Option<Coordinate>, Envelope, Envelope)
      reads this
    {
      (points, lastCoordinate, absoluteLastCoordinate, westBoundingBox, eastBoundingBox)
    }

    ghost function Statistics(): (seq<real>, seq<Num>, nat, real, Num)
      reads this
    {
      (distances, speeds, count, distanceM, avgSpeedM)
    }

    ghost function SoFar(): Run
      reads this
    {
      Run(points, distances, speeds, crossedAntimeridian, splits)
    }

    ghost function Flags(): (bool, nat)
      reads this
    {
      (crossedAntimeridian, splits)
    }

    ghost function Kept(): (Option<seq<real>>, Option<GeometryProperties>)
      reads this
    {
      (bbox, properties)
    }

    /** The record the object mapper would write for the `properties` field now. */
    ghost function PropValue(): Option<PropertiesValue>
      reads this, if properties.Some? then {properties.value.otherFields} else {}
    {
      if properties.Some? then Some(properties.value.Value()) else None
    }

    constructor (precision: int, maxAllowedSpeedKnts: real, decimal: Formatter, cut: Cutter,
                 distance: (Coordinate, Coordinate) -> Distance)
      ensures Valid()
      ensures |pattern| == 2 + (if precision > 0 then precision else 0)
      ensures pattern[..2] == "0." && forall i :: 2 <= i < |pattern| ==> pattern[i] == '#'
      ensures this.maxAllowedSpeedKnts == maxAllowedSpeedKnts && this.decimal == decimal
      ensures this.cut == cut && this.distance == distance
      ensures points == [] && speeds == [] && Flags() == (false, 0) && Kept() == (None, None)
      ensures lastCoordinate.None?
    {
      var p := BuildPattern(precision);
      this.pattern := p;
      this.decimal := decimal;
      this.maxAllowedSpeedKnts := maxAllowedSpeedKnts;
      this.cut := cut;
      this.distance := distance;
      westBoundingBox, eastBoundingBox := EmptyEnvelope, EmptyEnvelope;
      crossedAntimeridian := false;
      distanceM, count, avgSpeedM := 0.0, 0, Finite(0.0);
      properties, bbox := None, None;
      lastCoordinate, absoluteLastCoordinate := None, None;
      points, distances, speeds, splits := [], [], [], 0;
    }

    function Format(v: real): string { decimal(pattern, v) }

    function Point(c: Coordinate): seq<Token> { PointTokens(Format(c.x), Format(c.y)) }

    function Text(c: Coordinate): string { PointText(Format(c.x), Format(c.y)) }

    // -------------------------------------------------------------------
    // What one point does
    // -------------------------------------------------------------------

    /** The first point of a line string: copied as read; against the previous line string's last point it can only record a crossing. */
    function FirstPlan(c: Coordinate, absLast: Option<Coordinate>): Result<Plan, Failure>
    {
      if absLast.None? then Ok(Plan(c, Point(c), Text(c), false, 0, None))
      else
        match ParserSplitAm(c, absLast.value, cut)
        case Err(e) => Err(e)
        case Ok(split) => Ok(Plan(c, Point(c), Text(c), |split| > 1, 0, None))
    }

    /** A later point: either one more point of the line, with statistics, or a cut. */
    function NextPlan(c: Coordinate, last: Coordinate): Result<Plan, Failure>
    {
      match ParserSplitAm(c, last, cut)
      case Err(e) => Err(e)
      case Ok(split) =>
        if |split| == 1 then
          var m := distance(last, split[0]);
          match ParserGetSpeed(maxAllowedSpeedKnts, last, split[0], m)
          case Err(e) => Err(e)
          case Ok(v) => Ok(Plan(c, Point(c), "," + Text(c), false, 0, Some(Stat(m, v))))
        else
          ParserSplitSizes(c, last, cut);
          CrossingPlan(c, last, split)
    }

    /**
     * A cut: the point on this side ends the output line and a new line
     * starts on the other side; only a four-point cut gathers statistics.
     */
    function CrossingPlan(c: Coordinate, last: Coordinate, split: seq<Coordinate>): Result<Plan, Failure>
      requires |split| == 3 || |split| == 4
    {
      var tokens := Point(split[1]) + [EndArray, StartArray] + Point(split[2]);
      var text := "," + Text(split[1]) + "), (" + Text(split[2]);
      if |split| == 4 then
        var m := distance(split[0], split[1]) + distance(split[2], split[3]);
        match ParserGetSpeed(maxAllowedSpeedKnts, last, split[3], m)
        case Err(e) => Err(e)
        case Ok(v) => Ok(Plan(c, tokens + Point(split[3]), text + ("," + Text(split[3])), true, 1, Some(Stat(m, v))))
      else Ok(Plan(c, tokens, text, true, 1, None))
    }

    /** What one point read does, with or without a previous point in its line string. */
    function StepPlan(c: Coordinate, last: Option<Coordinate>, absLast: Option<Coordinate>): Result<Plan, Failure>
    {
      if last.None? then FirstPlan(c, absLast) else NextPlan(c, last.value)
    }

    /**
     * A point's output is balanced and breaks the line at most once: the
     * tokens open one array at the line's level per break, and the WKT
     * gains one "(" and one ")" per break. Only a point after another in
     * its line string gathers statistics.
     */
    lemma PlanShape(c: Coordinate, last: Option<Coordinate>, absLast: Option<Coordinate>, p: Plan)
      requires PlainNumbers() && StepPlan(c, last, absLast) == Ok(p)
      ensures Depth(p.tokens) == 0 && Opens(p.tokens, -1) == p.breaks
      ensures Count(p.text, '(') == p.breaks && Count(p.text, ')') == p.breaks
      ensures p.c == c && p.breaks <= 1 && (p.breaks == 1 <==> p.crosses && last.Some?)
      ensures last.None? ==> p.stat.None?
    {
      if p.breaks == 0 {
        PointShape(c);
      } else {
        var split := ParserSplitAm(c, last.value, cut).value;
        ParserSplitSizes(c, last.value, cut);
        CrossingShape(c, last.value, split, p);
      }
    }

    /** A point's tokens are one balanced array; its WKT, with or without the leading ",", holds no parenthesis. */
    lemma PointShape(c: Coordinate)
      requires PlainNumbers()
      ensures Depth(Point(c)) == 0 && Opens(Point(c), -1) == 0
      ensures Count(Text(c), '(') == 0 && Count(Text(c), ')') == 0
      ensures Count("," + Text(c), '(') == 0 && Count("," + Text(c), ')') == 0
    {
      PointTokensShape(Format(c.x), Format(c.y), -1);
      PointTextParens(Format(c.x), Format(c.y));
      assert ","[..0] == "";
      CountAppend(",", Text(c), '(');
      CountAppend(",", Text(c), ')');
    }

    /** A cut's output breaks the line exactly once. */
    lemma CrossingShape(c: Coordinate, last: Coordinate, split: seq<Coordinate>, p: Plan)
      requires PlainNumbers() && (|split| == 3 || |split| == 4) && CrossingPlan(c, last, split) == Ok(p)
      ensures Depth(p.tokens) == 0 && Opens(p.tokens, -1) == 1
      ensures Count(p.text, '(') == 1 && Count(p.text, ')') == 1
    {
      var a, b := split[1], split[2];
      PointShape(a);
      PointShape(b);
      CutShape(Point(a), "," + Text(a), Point(b), Text(b));
      if |split| == 4 {
        var d := split[3];
        PointShape(d);
        Joined(Point(a) + [EndArray, StartArray] + Point(b), "," + Text(a) + "), (" + Text(b),
               Point(d), "," + Text(d), -1, 1, 0);
      }
    }

    /**
     * Statistics come only from a point that follows another in the same
     * line string, and then only from a one- or four-point split; a
     * three-point split adds none. The speed is the distance over the time
     * from the previous point to the split's last point. The first point of
     * a line string is copied as read.
     */
    lemma PlanStats(c: Coordinate, last: Option<Coordinate>, absLast: Option<Coordinate>)
      ensures var r := StepPlan(c, last, absLast);
        r.Ok? ==>
          && r.value.c == c
          && (last.None? ==>
                && r.value.stat.None? && r.value.tokens == Point(c) && r.value.text == Text(c)
                && (r.value.crosses <==> absLast.Some? && |ParserSplitAm(c, absLast.value, cut).value| > 1))
          && (last.Some? ==>
                var split := ParserSplitAm(c, last.value, cut);
                && split.Ok?
                && (r.value.stat.Some? <==> |split.value| == 1 || |split.value| == 4)
                && (r.value.crosses <==> |split.value| > 1)
                && (r.value.stat.Some? ==>
                      r.value.stat.value.v == Divide(r.value.stat.value.m, Elapsed(last.value, split.value[|split.value| - 1]))))
    {
      var r := StepPlan(c, last, absLast);
      if r.Ok? && last.Some? {
        ParserSplitSizes(c, last.value, cut);
      }
    }

    /**
     * Each point went through `StepPlan` and gave its plan: against the
     * point read before it, which is also its line string's previous point
     * unless it opens the line string.
     */
    ghost predicate Steps(rs: seq<Reading>, a0: Option<Coordinate>, plans: seq<Plan>)
    {
      |plans| == |rs| && forall k {:trigger StepOk(rs[k], Prev(rs, a0, k), plans[k])} :: 0 <= k < |rs| ==> StepOk(rs[k], Prev(rs, a0, k), plans[k])
    }

    /** One point's step, after the point `prev`. */
    ghost predicate StepOk(r: Reading, prev: Option<Coordinate>, p: Plan)
    {
      StepPlan(r.c, if r.opens then None else prev, prev) == Ok(p)
    }

    /**
     * From `s0` to `s1` the parser read these points, in order: each was
     * recorded, went through `StepPlan` with its plan, and its statistics,
     * crossing and cut were added.
     */
    ghost predicate Advances(s0: Run, s1: Run, rs: seq<Reading>, plans: seq<Plan>)
    {
      && s1.points == s0.points + Coords(rs)
      && Steps(rs, LastOf(s0.points), plans)
      && s1.distances == s0.distances + PlansDistances(plans)
      && s1.speeds == s0.speeds + PlansSpeeds(plans)
      && s1.crossed == (s0.crossed || Crosses(plans))
      && s1.splits == s0.splits + Breaks(plans)
    }

    /** The points read decide the plans: a point's step is a function of it and the points before it. */
    lemma StepsDetermined(rs: seq<Reading>, a0: Option<Coordinate>, p1: seq<Plan>, p2: seq<Plan>)
      requires Steps(rs, a0, p1) && Steps(rs, a0, p2)
      ensures p1 == p2
    {
      forall k | 0 <= k < |rs|
        ensures p1[k] == p2[k]
      {
        assert StepOk(rs[k], Prev(rs, a0, k), p1[k]) && StepOk(rs[k], Prev(rs, a0, k), p2[k]);
      }
    }

    /** Reading nothing changes nothing. */
    lemma AdvancesNone(s: Run)
      ensures Advances(s, s, [], [])
    {
    }

    /** One point: it is recorded and its plan's statistics, crossing and cut are added. */
    lemma AdvancesOne(s0: Run, s1: Run, c: Coordinate, opens: bool, p: Plan)
      requires Steps([Reading(c, opens)], LastOf(s0.points), [p])
      requires s1.points == s0.points + [c]
      requires s1.distances == WithDistance(s0.distances, p.stat) && s1.speeds == WithSpeed(s0.speeds, p.stat)
      requires s1.crossed == (s0.crossed || p.crosses) && s1.splits == s0.splits + p.breaks
      ensures Advances(s0, s1, [Reading(c, opens)], [p])
    {
      PlanAlone(p);
      assert Coords([Reading(c, opens)]) == [c];
    }

    /** A single point's step is `StepPlan` against the point read before it, and only that. */
    lemma StepAlone(c: Coordinate, last: Option<Coordinate>, absLast: Option<Coordinate>, p: Plan)
      requires last.None? || last == absLast
      ensures Steps([Reading(c, last.None?)], absLast, [p]) <==> StepPlan(c, last, absLast) == Ok(p)
    {
      var rs := [Reading(c, last.None?)];
      assert Prev(rs, absLast, 0) == absLast;
      assert StepOk(rs[0], Prev(rs, absLast, 0), [p][0]) <==> StepPlan(c, last, absLast) == Ok(p);
    }

    /** Conversely, one point read is recorded and went through `StepPlan` against the point before it. */
    lemma OneAdvance(s0: Run, s1: Run, c: Coordinate, opens: bool, p: Plan)
      requires Advances(s0, s1, [Reading(c, opens)], [p])
      ensures StepPlan(c, if opens then None else LastOf(s0.points), LastOf(s0.points)) == Ok(p)
      ensures s1.points == s0.points + [c]
      ensures s1.distances == WithDistance(s0.distances, p.stat) && s1.speeds == WithSpeed(s0.speeds, p.stat)
      ensures s1.crossed == (s0.crossed || p.crosses) && s1.splits == s0.splits + p.breaks
    {
      var rs := [Reading(c, opens)];
      assert StepOk(rs[0], Prev(rs, LastOf(s0.points), 0), [p][0]);
      PlanAlone(p);
      assert Coords(rs) == [c];
      assert WithDistance(s0.distances, p.stat) == s0.distances + WithDistance([], p.stat);
      assert WithSpeed(s0.speeds, p.stat) == s0.speeds + WithSpeed([], p.stat);
    }

    /** Two runs of points one after the other are one run. */
    lemma AdvancesTrans(s0: Run, s1: Run, s2: Run, r1: seq<Reading>, p1: seq<Plan>, r2: seq<Reading>, p2: seq<Plan>)
      requires Advances(s0, s1, r1, p1) && Advances(s1, s2, r2, p2)
      ensures Advances(s0, s2, r1 + r2, p1 + p2)
    {
      PlansAppend(p1, p2);
      assert Coords(r1 + r2) == Coords(r1) + Coords(r2);
      Regroup(s0.points, Coords(r1), Coords(r2));
      Regroup(s0.distances, PlansDistances(p1), PlansDistances(p2));
      Regroup(s0.speeds, PlansSpeeds(p1), PlansSpeeds(p2));
      LastAfter(s0.points, r1);
      StepsAppend(r1, p1, r2, p2, LastOf(s0.points));
    }

    lemma StepsAppend(r1: seq<Reading>, p1: seq<Plan>, r2: seq<Reading>, p2: seq<Plan>, a0: Option<Coordinate>)
      requires Steps(r1, a0, p1) && Steps(r2, Prev(r1, a0, |r1|), p2)
      ensures Steps(r1 + r2, a0, p1 + p2)
    {
      var rs, ps, a1 := r1 + r2, p1 + p2, Prev(r1, a0, |r1|);
      forall k | 0 <= k < |rs|
        ensures StepOk(rs[k], Prev(rs, a0, k), ps[k])
      {
        if k < |r1| {
          assert StepOk(r1[k], Prev(r1, a0, k), p1[k]);
          assert Prev(rs, a0, k) == Prev(r1, a0, k) && rs[k] == r1[k] && ps[k] == p1[k];
        } else {
          var j := k - |r1|;
          assert StepOk(r2[j], Prev(r2, a1, j), p2[j]);
          assert Prev(rs, a0, k) == Prev(r2, a1, j) && rs[k] == r2[j] && ps[k] == p2[j];
        }
      }
    }

    /** A line string's next point extends what its points before it did. */
    lemma LineStep(items: seq<Json>, i: nat, run0: Run, run1: Run, run2: Run, plans0: seq<Plan>, p: Plan)
      requires i < |items| && PointOf(items[i]) == p.c
      requires Advances(run0, run1, LineReadings(items)[..i], plans0)
      requires Advances(run1, run2, [Reading(p.c, i == 0)], [p])
      ensures Advances(run0, run2, LineReadings(items)[..i + 1], plans0 + [p])
    {
      LineReadingsSnoc(items, i);
      AdvancesTrans(run0, run1, run2, LineReadings(items)[..i], plans0, [Reading(p.c, i == 0)], [p]);
    }

    /** Steps taken on a prefix of the points. */
    lemma StepsPrefix(rs: seq<Reading>, a0: Option<Coordinate>, plans: seq<Plan>, n: nat)
      requires Steps(rs, a0, plans) && n <= |rs|
      ensures Steps(rs[..n], a0, plans[..n])
    {
      forall k | 0 <= k < n
        ensures StepOk(rs[..n][k], Prev(rs[..n], a0, k), plans[..n][k])
      {
        assert StepOk(rs[k], Prev(rs, a0, k), plans[k]);
        assert Prev(rs[..n], a0, k) == Prev(rs, a0, k);
      }
    }

    /** A line string read after the ones before it extends what they did. */
    lemma LineRun(lines: seq<Json>, i: nat, run0: Run, run1: Run, run2: Run, lps: seq<seq<Plan>>, plans: seq<Plan>)
      requires i < |lines| && lines[i].JArr?
      requires Advances(run0, run1, LinesReadings(lines[..i]), Concat(lps))
      requires Advances(run1, run2, LineReadings(lines[i].items), plans)
      ensures Advances(run0, run2, LinesReadings(lines[..i + 1]), Concat(lps + [plans]))
    {
      LinesReadingsSnoc(lines, i);
      LinesSnoc(lps, plans);
      AdvancesTrans(run0, run1, run2, LinesReadings(lines[..i]), Concat(lps), LineReadings(lines[i].items), plans);
    }

    /** Every point's plan, as `StepPlan` gives it, is balanced and opens one array per cut. */
    lemma StepsShaped(rs: seq<Reading>, a0: Option<Coordinate>, plans: seq<Plan>)
      requires PlainNumbers() && Steps(rs, a0, plans)
      ensures forall k :: 0 <= k < |plans| ==> Shaped(plans[k])
    {
      forall k | 0 <= k < |plans|
        ensures Shaped(plans[k])
      {
        assert StepOk(rs[k], Prev(rs, a0, k), plans[k]);
        var prev := Prev(rs, a0, k);
        PlanShape(rs[k].c, if rs[k].opens then None else prev, prev, plans[k]);
      }
    }

    /**
     * Whatever points are read, their steps' output is balanced, opens one
     * array at the points' level per cut, and its WKT parentheses match
     * that count.
     */
    lemma StepsShape(rs: seq<Reading>, a0: Option<Coordinate>, plans: seq<Plan>)
      requires PlainNumbers() && Steps(rs, a0, plans)
      ensures Depth(PlansTokens(plans)) == 0 && Opens(PlansTokens(plans), -1) == Breaks(plans)
      ensures Count(PlansText(plans), '(') == Breaks(plans) && Count(PlansText(plans), ')') == Breaks(plans)
    {
      StepsShaped(rs, a0, plans);
      PlansShape(plans);
    }

    // -------------------------------------------------------------------
    // The state-changing steps
    // -------------------------------------------------------------------

    /** `updateStats`: one more distance and speed. */
    method UpdateStats(m: Distance, v: Num)
      requires Valid()
      modifies this
      ensures Valid()
      ensures distances == old(distances) + [m] && speeds == old(speeds) + [v]
      ensures (count, distanceM, avgSpeedM)
        == (old(count) + 1, old(distanceM) + m, RunningMean(old(avgSpeedM), v, old(count) + 1))
      ensures Place() == old(Place()) && Kept() == old(Kept()) && Flags() == old(Flags())
    {
      StatsSnoc(distances, speeds, m, v);
      distanceM := distanceM + m;
      count := count + 1;
      avgSpeedM := RunningMean(avgSpeedM, v, count);
      distances, speeds := distances + [m], speeds + [v];
    }

    /** `processBoundingBox`: the point widens the west envelope when its longitude is negative, the east one otherwise. */
    method ProcessBoundingBox(c: Coordinate)
      requires westBoundingBox == Bounds(West(points)) && eastBoundingBox == Bounds(East(points))
      modifies this`westBoundingBox, this`eastBoundingBox, this`points
      ensures points == old(points) + [c]
      ensures westBoundingBox == Bounds(West(points)) && eastBoundingBox == Bounds(East(points))
      ensures westBoundingBox == if c.x < 0.0 then Include(old(westBoundingBox), c) else old(westBoundingBox)
      ensures eastBoundingBox == if c.x < 0.0 then old(eastBoundingBox) else Include(old(eastBoundingBox), c)
    {
      EnvelopesSnoc(points, c);
      if c.x < 0.0 {
        westBoundingBox := Include(westBoundingBox, c);
      } else {
        eastBoundingBox := Include(eastBoundingBox, c);
      }
      points := points + [c];
    }

    /** `updateLastCoordinate`. */
    method UpdateLastCoordinate(c: Coordinate)
      modifies this`lastCoordinate, this`absoluteLastCoordinate
      ensures lastCoordinate == Some(c) && absoluteLastCoordinate == Some(c)
    {
      lastCoordinate, absoluteLastCoordinate := Some(c), Some(c);
    }

    /** `resetLastCoordinate`: a new line string has no previous point of its own. */
    method ResetLastCoordinate()
      requires Valid()
      modifies this
      ensures Valid() && lastCoordinate.None?
      ensures (points, absoluteLastCoordinate, westBoundingBox, eastBoundingBox)
        == old((points, absoluteLastCoordinate, westBoundingBox, eastBoundingBox))
      ensures Statistics() == old(Statistics()) && Kept() == old(Kept()) && Flags() == old(Flags())
    {
      lastCoordinate := None;
    }

    /** Both `writeArray`s: x and y formatted, as a JSON array and as WKT text. */
    method WriteArray(gen: JsonGenerator, wkt: TextWriter, c: Coordinate)
      modifies gen, wkt
      ensures gen.tokens == old(gen.tokens) + Point(c)
      ensures wkt.text == old(wkt.text) + Text(c)
    {
      gen.Write([StartArray]);
      gen.Write([NumberText(Format(c.x))]);
      gen.Write([NumberText(Format(c.y))]);
      wkt.Write(" " + Format(c.x));
      wkt.Write(" " + Format(c.y));
      gen.Write([EndArray]);
    }

    /**
     * `writeBBox`: without a crossing the merged envelope; with one, the
     * west edge from the east half and the east edge from the west half.
     * Nothing is kept when no statistics were gathered and the values are
     * the empty envelope's. A crossing that left one half empty is taken
     * as none (see `BBoxLeaksEmptyHalf`).
     */
    method WriteBBox()
      modifies this
      ensures var vs := BBoxValues(westBoundingBox, eastBoundingBox, crossedAntimeridian);
        bbox == if BBoxOmitted(vs, count) then old(bbox) else Some(vs)
      ensures Place() == old(Place()) && Statistics() == old(Statistics()) && Flags() == old(Flags())
      ensures properties == old(properties)
    {
      var minY, maxY, minX, maxX;
      if !crossedAntimeridian || IsNull(westBoundingBox) || IsNull(eastBoundingBox) {
        var boundingBox := Merge(westBoundingBox, eastBoundingBox);
        minY, maxY, minX, maxX := boundingBox.minY, boundingBox.maxY, boundingBox.minX, boundingBox.maxX;
      } else {
        minY := Min(westBoundingBox.minY, eastBoundingBox.minY);
        maxY := Max(westBoundingBox.maxY, eastBoundingBox.maxY);
        minX := eastBoundingBox.minX;
        maxX := westBoundingBox.maxX;
      }
      if !(count == 0 && minX == 0.0 && minY == 0.0 && maxX == -1.0 && maxY == -1.0) {
        bbox := Some([minX, minY, maxX, maxY]);
      }
    }

    /** The first point of a line string (`lastCoordinate` is null). */
    method FirstPoint(c: Coordinate, gen: JsonGenerator, wkt: TextWriter) returns (r: Outcome<Failure>)
      requires lastCoordinate.None?
      modifies this, gen, wkt
      ensures var plan := FirstPlan(c, old(absoluteLastCoordinate));
        && (r.Fail? <==> plan.Err?) && (r.Fail? ==> r.error == plan.error)
        && (r.Pass? ==>
              && gen.tokens == old(gen.tokens) + plan.value.tokens && wkt.text == old(wkt.text) + plan.value.text
              && crossedAntimeridian == (old(crossedAntimeridian) || plan.value.crosses))
      ensures Place() == old(Place()) && Statistics() == old(Statistics()) && Kept() == old(Kept())
      ensures splits == old(splits)
    {
      WriteArray(gen, wkt, c);
      r := Pass;
      if absoluteLastCoordinate.Some? {
        var split := ParserSplitAm(c, absoluteLastCoordinate.value, cut);
        if split.Err? {
          r := Fail(split.error);
        } else if |split.value| > 1 {
          crossedAntimeridian := true;
        }
      }
    }

    /** A later point of the line string: one more point with statistics, or a cut. */
    method NextPoint(c: Coordinate, gen: JsonGenerator, wkt: TextWriter) returns (r: Outcome<Failure>)
      requires Valid() && lastCoordinate.Some?
      modifies this, gen, wkt
      ensures var plan := NextPlan(c, old(lastCoordinate).value);
        && (r.Fail? <==> plan.Err?) && (r.Fail? ==> r.error == plan.error)
        && (r.Pass? ==>
              && gen.tokens == old(gen.tokens) + plan.value.tokens && wkt.text == old(wkt.text) + plan.value.text
              && Flags() == (old(crossedAntimeridian) || plan.value.crosses, old(splits) + plan.value.breaks)
              && distances == WithDistance(old(distances), plan.value.stat) && speeds == WithSpeed(old(speeds), plan.value.stat))
      ensures Valid() && Place() == old(Place()) && Kept() == old(Kept())
    {
      var last := lastCoordinate.value;
      var split := ParserSplitAm(c, last, cut);
      if split.Err? {
        r := Fail(split.error);
      } else if |split.value| == 1 {
        r := Continue(c, last, split.value[0], gen, wkt);
      } else {
        ParserSplitSizes(c, last, cut);
        ghost var p;
        r, p := Cross(c, last, split.value, gen, wkt);
      }
    }

    /**
     * One more point of the current output line: "," and the point are
     * written, then the leg of length `m` from `last` to `end` is timed and
     * goes to `updateStats`, unless its speed is over the limit.
     */
    method Resume(c: Coordinate, end: Coordinate, last: Coordinate, m: Distance, gen: JsonGenerator, wkt: TextWriter)
      returns (r: Outcome<Failure>)
      requires Valid()
      modifies this, gen, wkt
      ensures var v := ParserGetSpeed(maxAllowedSpeedKnts, last, end, m);
        && (r.Fail? <==> v.Err?) && (r.Fail? ==> r.error == v.error)
        && gen.tokens == old(gen.tokens) + Point(c) && wkt.text == old(wkt.text) + ("," + Text(c))
        && (r.Pass? ==> distances == old(distances) + [m] && speeds == old(speeds) + [v.value])
      ensures Valid() && Place() == old(Place()) && Kept() == old(Kept()) && Flags() == old(Flags())
    {
      ghost var x0 := wkt.text;
      wkt.Write(",");
      WriteArray(gen, wkt, c);
      assert wkt.text == x0 + ("," + Text(c));
      var v := ParserGetSpeed(maxAllowedSpeedKnts, last, end, m);
      if v.Err? {
        r := Fail(v.error);
      } else {
        UpdateStats(m, v.value);
        r := Pass;
      }
    }

    /** The no-cut branch of `processLineString`: the point continues the line and the leg to the split's point is measured. */
    method Continue(c: Coordinate, last: Coordinate, end: Coordinate, gen: JsonGenerator, wkt: TextWriter)
      returns (r: Outcome<Failure>)
      requires Valid()
      modifies this, gen, wkt
      ensures var m := distance(last, end);
        var v := ParserGetSpeed(maxAllowedSpeedKnts, last, end, m);
        && (r.Fail? <==> v.Err?) && (r.Fail? ==> r.error == v.error)
        && (r.Pass? ==>
              && gen.tokens == old(gen.tokens) + Point(c) && wkt.text == old(wkt.text) + ("," + Text(c))
              && distances == old(distances) + [m] && speeds == old(speeds) + [v.value])
      ensures Valid() && Place() == old(Place()) && Kept() == old(Kept()) && Flags() == old(Flags())
    {
      var m := distance(last, end);
      r := Resume(c, end, last, m, gen, wkt);
    }

    /** The line break of a cut: the point on this side closes the output line, the one on the other side opens the next. */
    method BreakLine(a: Coordinate, b: Coordinate, gen: JsonGenerator, wkt: TextWriter)
      modifies gen, wkt
      ensures gen.tokens == old(gen.tokens) + (Point(a) + [EndArray, StartArray] + Point(b))
      ensures wkt.text == old(wkt.text) + ("," + Text(a) + "), (" + Text(b))
    {
      ghost var t0, x0 := gen.tokens, wkt.text;
      wkt.Write(",");
      WriteArray(gen, wkt, a);
      Regroup(x0, ",", Text(a));
      gen.Write([EndArray, StartArray]);
      Regroup(t0, Point(a), [EndArray, StartArray]);
      wkt.Write("), (");
      Regroup(x0, "," + Text(a), "), (");
      WriteArray(gen, wkt, b);
      Regroup(t0, Point(a) + [EndArray, StartArray], Point(b));
      Regroup(x0, "," + Text(a) + "), (", Text(b));
    }

    /** The cut branch of `processLineString`: end this output line, start the next one. */
    method Cross(c: Coordinate, last: Coordinate, split: seq<Coordinate>, gen: JsonGenerator, wkt: TextWriter)
      returns (r: Outcome<Failure>, ghost p: Plan)
      requires Valid() && (|split| == 3 || |split| == 4)
      modifies this, gen, wkt
      ensures CrossingPlan(c, last, split) == if r.Pass? then Ok(p) else Err(r.error)
      ensures r.Pass? ==>
        && gen.tokens == old(gen.tokens) + p.tokens && wkt.text == old(wkt.text) + p.text
        && Flags() == (true, old(splits) + 1)
        && distances == WithDistance(old(distances), p.stat) && speeds == WithSpeed(old(speeds), p.stat)
      ensures Valid() && Place() == old(Place()) && Kept() == old(Kept())
    {
      crossedAntimeridian, splits := true, splits + 1;
      BreakLine(split[1], split[2], gen, wkt);
      if |split| == 4 {
        r, p := ResumeAcross(c, last, split, gen, wkt, old(gen.tokens), old(wkt.text));
      } else {
        r, p := Pass, Plan(c, Point(split[1]) + [EndArray, StartArray] + Point(split[2]),
                           "," + Text(split[1]) + "), (" + Text(split[2]), true, 1, None);
      }
    }

    /**
     * The four-point tail of a cut: the line goes on to the split's last
     * point, and the speed is that of the two legs' summed distance from
     * `last`.
     */
    method ResumeAcross(c: Coordinate, last: Coordinate, split: seq<Coordinate>, gen: JsonGenerator, wkt: TextWriter,
                        ghost base: seq<Token>, ghost baseText: string)
      returns (r: Outcome<Failure>, ghost p: Plan)
      requires Valid() && |split| == 4
      requires gen.tokens == base + (Point(split[1]) + [EndArray, StartArray] + Point(split[2]))
      requires wkt.text == baseText + ("," + Text(split[1]) + "), (" + Text(split[2]))
      modifies this, gen, wkt
      ensures CrossingPlan(c, last, split) == if r.Pass? then Ok(p) else Err(r.error)
      ensures r.Pass? ==>
        && gen.tokens == base + p.tokens && wkt.text == baseText + p.text
        && distances == WithDistance(old(distances), p.stat) && speeds == WithSpeed(old(speeds), p.stat)
      ensures Valid() && Place() == old(Place()) && Kept() == old(Kept()) && Flags() == old(Flags())
    {
      ghost var tokens, text := Point(split[1]) + [EndArray, StartArray] + Point(split[2]),
        "," + Text(split[1]) + "), (" + Text(split[2]);
      var d := split[3];
      var m := distance(split[0], split[1]);
      m := m + distance(split[2], split[3]);
      r := Resume(d, d, last, m, gen, wkt);
      Regroup(base, tokens, Point(d));
      Regroup(baseText, text, "," + Text(d));
      ghost var v := ParserGetSpeed(maxAllowedSpeedKnts, last, d, m);
      p := Plan(c, tokens, text, true, 1, None);
      if v.Ok? {
        p := Plan(c, tokens + Point(d), text + ("," + Text(d)), true, 1, Some(Stat(m, v.value)));
      }
    }

    /** The output of one point read, as `processLineString` dispatches on `lastCoordinate`. */
    method WritePoint(c: Coordinate, gen: JsonGenerator, wkt: TextWriter) returns (r: Outcome<Failure>, ghost p: Plan)
      requires Valid()
      modifies this, gen, wkt
      ensures StepPlan(c, old(lastCoordinate), old(absoluteLastCoordinate)) == if r.Pass? then Ok(p) else Err(r.error)
      ensures r.Pass? ==>
        && gen.tokens == old(gen.tokens) + p.tokens && wkt.text == old(wkt.text) + p.text
        && Flags() == (old(crossedAntimeridian) || p.crosses, old(splits) + p.breaks)
        && distances == WithDistance(old(distances), p.stat) && speeds == WithSpeed(old(speeds), p.stat)
      ensures Valid() && Place() == old(Place()) && Kept() == old(Kept())
    {
      p := Plan(c, [], "", false, 0, None);
      ghost var last, absLast := lastCoordinate, absoluteLastCoordinate;
      if lastCoordinate.None? {
        r := FirstPoint(c, gen, wkt);
      } else {
        r := NextPoint(c, gen, wkt);
      }
      if r.Pass? {
        p := StepPlan(c, last, absLast).value;
      }
    }

    /** The bookkeeping after a point is written: its envelope, then the last coordinate. */
    method Remember(c: Coordinate)
      requires Valid()
      modifies this`westBoundingBox, this`eastBoundingBox, this`points, this`lastCoordinate, this`absoluteLastCoordinate
      ensures Valid() && points == old(points) + [c] && lastCoordinate == Some(c)
    {
      ProcessBoundingBox(c);
      UpdateLastCoordinate(c);
    }

    /** `WritePoint`, with the shape of what it wrote: balanced, one line break per cut. */
    method WriteBalanced(c: Coordinate, gen: JsonGenerator, wkt: TextWriter) returns (r: Outcome<Failure>, ghost p: Plan)
      requires Valid() && PlainNumbers()
      modifies this, gen, wkt
      ensures r.Fail? ==> StepPlan(c, old(lastCoordinate), old(absoluteLastCoordinate)) == Err(r.error)
      ensures r.Pass? ==> Steps([Reading(c, old(lastCoordinate).None?)], old(absoluteLastCoordinate), [p])
      ensures r.Pass? ==>
        && p.c == c && p.breaks <= 1 && (old(lastCoordinate).None? ==> p.stat.None?)
        && gen.tokens == old(gen.tokens) + p.tokens && wkt.text == old(wkt.text) + p.text
        && Flags() == (old(crossedAntimeridian) || p.crosses, old(splits) + p.breaks)
        && distances == WithDistance(old(distances), p.stat) && speeds == WithSpeed(old(speeds), p.stat)
        && Depth(p.tokens) == 0 && Opens(p.tokens, -1) == p.breaks
        && Count(p.text, '(') == p.breaks && Count(p.text, ')') == p.breaks
      ensures Valid() && Place() == old(Place()) && Kept() == old(Kept())
    {
      ghost var last, absLast := lastCoordinate, absoluteLastCoordinate;
      r, p := WritePoint(c, gen, wkt);
      if r.Pass? {
        PlanShape(c, last, absLast, p);
        StepAlone(c, last, absLast, p);
      }
    }

    /**
     * A coordinate read inside `processLineString`'s loop: write it (or
     * cut), then route it to its envelope and remember it. The ghost `p` is
     * what the step did.
     */
    method ProcessCoordinate(c: Coordinate, gen: JsonGenerator, wkt: TextWriter) returns (r: Outcome<Failure>, ghost p: Plan)
      requires Valid() && PlainNumbers()
      modifies this, gen, wkt
      ensures r.Pass? ==>
        && p.c == c && Valid()
        && Advances(old(SoFar()), SoFar(), [Reading(c, old(lastCoordinate).None?)], [p])
        && gen.tokens == old(gen.tokens) + p.tokens && wkt.text == old(wkt.text) + p.text
        && Flags() == (old(crossedAntimeridian) || p.crosses, old(splits) + p.breaks)
        && points == old(points) + [c] && lastCoordinate == Some(c)
        && distances == WithDistance(old(distances), p.stat) && speeds == WithSpeed(old(speeds), p.stat)
        && Kept() == old(Kept())
        && Depth(p.tokens) == 0 && Opens(p.tokens, -1) == p.breaks
        && Count(p.text, '(') == p.breaks && Count(p.text, ')') == p.breaks
        && p.breaks <= 1 && (old(lastCoordinate).None? ==> p.stat.None?)
    {
      ghost var run := SoFar();
      r, p := WriteBalanced(c, gen, wkt);
      if r.Pass? {
        Remember(c);
        AdvancesOne(run, SoFar(), c, old(lastCoordinate).None?, p);
      }
    }

    /**
     * One pass of `processLineString`'s loop: read the point, then process
     * it. The point is recorded and goes through `StepPlan` against the
     * line string's previous point and the last point read.
     */
    method ProcessPoint(item: Json, gen: JsonGenerator, wkt: TextWriter) returns (r: Outcome<Failure>, ghost p: Plan)
      requires Valid() && PlainNumbers()
      modifies this, gen, wkt
      ensures ReadPoint(item).Err? ==> r == Fail(ReadPoint(item).error)
      ensures r.Pass? ==>
        && ReadPoint(item) == Ok(p.c) && ValidPoint(item) && Valid() && Kept() == old(Kept())
        && gen.tokens == old(gen.tokens) + p.tokens && wkt.text == old(wkt.text) + p.text
        && points == old(points) + [p.c] && lastCoordinate == Some(p.c)
        && distances == WithDistance(old(distances), p.stat) && speeds == WithSpeed(old(speeds), p.stat)
        && Advances(old(SoFar()), SoFar(), [Reading(p.c, old(lastCoordinate).None?)], [p])
        && (old(lastCoordinate).None? ==> p.stat.None?)
    {
      p := Plan(XY(0.0, 0.0), [], "", false, 0, None);
      var coordinate := ReadPoint(item);
      if coordinate.Err? {
        r := Fail(coordinate.error);
      } else {
        r, p := ProcessCoordinate(coordinate.value, gen, wkt);
      }
    }

    // -------------------------------------------------------------------
    // The loops over the input
    // -------------------------------------------------------------------

    /**
     * `processLineString`'s loop over the points of one line string. Every
     * point was read and went through its step in order, and what they
     * wrote is their plans' output; it is balanced and breaks the output
     * line once per cut. The first point added no statistics.
     */
    method ProcessPoints(items: seq<Json>, gen: JsonGenerator, wkt: TextWriter)
      returns (r: Outcome<Failure>, ghost tokens: seq<Token>, ghost text: string, ghost plans: seq<Plan>)
      requires Valid() && PlainNumbers() && lastCoordinate.None?
      modifies this, gen, wkt
      ensures r.Pass? ==>
        && Valid() && splits >= old(splits) && Kept() == old(Kept())
        && gen.tokens == old(gen.tokens) + tokens && wkt.text == old(wkt.text) + text
        && (forall k :: 0 <= k < |items| ==> ValidPoint(items[k]))
        && Advances(old(SoFar()), SoFar(), LineReadings(items), plans)
        && tokens == PlansTokens(plans) && text == PlansText(plans)
        && Depth(tokens) == 0 && Opens(tokens, -1) == splits - old(splits)
        && Count(text, '(') == splits - old(splits) && Count(text, ')') == splits - old(splits)
        && (if items == [] then speeds == old(speeds) else |speeds| < |old(speeds)| + |items|)
    {
      r, plans := Pass, [];
      AdvancesNone(SoFar());
      var i := 0;
      while i < |items|
        invariant 0 <= i <= |items| && r.Pass?
        invariant Valid() && Kept() == old(Kept())
        invariant gen.tokens == old(gen.tokens) + PlansTokens(plans) && wkt.text == old(wkt.text) + PlansText(plans)
        invariant forall k :: 0 <= k < i ==> ValidPoint(items[k])
        invariant Advances(old(SoFar()), SoFar(), LineReadings(items)[..i], plans)
        invariant if i == 0 then lastCoordinate.None? && speeds == old(speeds) else lastCoordinate.Some? && |speeds| < |old(speeds)| + i
      {
        r, plans := AppendPoint(items, i, gen, wkt, old(gen.tokens), old(wkt.text), old(SoFar()), plans);
        if r.Fail? {
          return r, [], "", plans;
        }
        i := i + 1;
      }
      assert LineReadings(items)[..i] == LineReadings(items);
      tokens, text := PlansTokens(plans), PlansText(plans);
      StepsShape(LineReadings(items), old(LastOf(points)), plans);
    }

    /** One pass of the loop of `ProcessPoints`: the point's output and step extend the line string's so far. */
    method AppendPoint(items: seq<Json>, i: nat, gen: JsonGenerator, wkt: TextWriter,
                       ghost base: seq<Token>, ghost baseText: string, ghost run0: Run, ghost plans0: seq<Plan>)
      returns (r: Outcome<Failure>, ghost plans: seq<Plan>)
      requires i < |items| && (lastCoordinate.None? <==> i == 0)
      requires Valid() && PlainNumbers()
      requires gen.tokens == base + PlansTokens(plans0) && wkt.text == baseText + PlansText(plans0)
      requires Advances(run0, SoFar(), LineReadings(items)[..i], plans0)
      requires forall k :: 0 <= k < i ==> ValidPoint(items[k])
      modifies this, gen, wkt
      ensures r.Pass? ==>
        && Valid() && Kept() == old(Kept()) && (forall k :: 0 <= k < i + 1 ==> ValidPoint(items[k]))
        && gen.tokens == base + PlansTokens(plans) && wkt.text == baseText + PlansText(plans)
        && Advances(run0, SoFar(), LineReadings(items)[..i + 1], plans)
        && lastCoordinate.Some?
        && |speeds| <= |old(speeds)| + 1 && (i == 0 ==> speeds == old(speeds))
    {
      ghost var p;
      ghost var run1 := SoFar();
      r, p := ProcessPoint(items[i], gen, wkt);
      plans := plans0 + [p];
      if r.Pass? {
        PlansSnoc(base, baseText, plans0, p);
        LineStep(items, i, run0, run1, SoFar(), plans0, p);
        ValidPointSnoc(items, i);
      }
    }

    /**
     * `processLineString`: the line's array and "(", its points, then "]"
     * and ")". On success every point of the line string was read and went
     * through its step in order, and the output is the line string's
     * array around their plans' output. It is balanced and opens one array
     * at the line's level per output line (one plus the cuts made), and
     * the WKT parentheses match that count.
     */
    method ProcessLineString(line: Json, gen: JsonGenerator, wkt: TextWriter)
      returns (r: Outcome<Failure>, ghost tokens: seq<Token>, ghost text: string, ghost plans: seq<Plan>)
      requires Valid() && PlainNumbers()
      modifies this, gen, wkt
      ensures !line.JArr? ==> r == Fail(Unreadable(line))
      ensures r.Pass? ==>
        && Valid() && ValidLine(line) && splits >= old(splits) && Kept() == old(Kept())
        && gen.tokens == old(gen.tokens) + tokens && wkt.text == old(wkt.text) + text
        && Advances(old(SoFar()), SoFar(), LineReadings(line.items), plans)
        && tokens == LineTokens(plans) && text == LineText(plans)
        && Depth(tokens) == 0 && Opens(tokens, 0) == 1 + (splits - old(splits))
        && Count(text, '(') == 1 + (splits - old(splits)) && Count(text, ')') == 1 + (splits - old(splits))
        && (if line.items == [] then speeds == old(speeds) else |speeds| < |old(speeds)| + |line.items|)
    {
      gen.Write([FirstToken(line)]);
      wkt.Write("(");
      ResetLastCoordinate();
      if !line.JArr? {
        return Fail(Unreadable(line)), [], "", [];
      }
      ghost var inner, innerText;
      r, inner, innerText, plans := ProcessPoints(line.items, gen, wkt);
      tokens, text := [StartArray] + inner + [EndArray], "(" + innerText + ")";
      if r.Pass? {
        gen.Write([EndArray]);
        wkt.Write(")");
        LineShape(old(gen.tokens), inner, old(wkt.text), innerText, splits - old(splits));
      }
    }

    /**
     * `processCoordinates`' loop over the line strings, with "," between
     * them: each line string's points were read and went through their
     * steps in order, and the output is one line string per line string
     * read, split once per cut, balanced.
     */
    method ProcessLines(lines: seq<Json>, gen: JsonGenerator, wkt: TextWriter)
      returns (r: Outcome<Failure>, ghost tokens: seq<Token>, ghost text: string, ghost lineplans: seq<seq<Plan>>)
      requires Valid() && PlainNumbers()
      modifies this, gen, wkt
      ensures r.Pass? ==>
        && Valid() && splits >= old(splits) && Kept() == old(Kept())
        && gen.tokens == old(gen.tokens) + tokens && wkt.text == old(wkt.text) + text
        && (forall k :: 0 <= k < |lines| ==> ValidLine(lines[k]))
        && |lineplans| == |lines| && Advances(old(SoFar()), SoFar(), LinesReadings(lines), Concat(lineplans))
        && tokens == LinesTokens(lineplans) && text == LinesText(lineplans)
        && Depth(tokens) == 0 && Opens(tokens, 0) == |lines| + (splits - old(splits))
        && Count(text, '(') == |lines| + (splits - old(splits)) && Count(text, ')') == |lines| + (splits - old(splits))
    {
      r, lineplans := Pass, [];
      AdvancesNone(SoFar());
      var i := 0;
      while i < |lines|
        invariant 0 <= i <= |lines| && r.Pass?
        invariant Valid() && Kept() == old(Kept())
        invariant gen.tokens == old(gen.tokens) + LinesTokens(lineplans) && wkt.text == old(wkt.text) + LinesText(lineplans)
        invariant forall k :: 0 <= k < i ==> ValidLine(lines[k])
        invariant |lineplans| == i && Advances(old(SoFar()), SoFar(), LinesReadings(lines[..i]), Concat(lineplans))
      {
        r, lineplans := AppendLine(lines, i, gen, wkt, old(gen.tokens), old(wkt.text), old(SoFar()), lineplans);
        if r.Fail? {
          return r, [], "", lineplans;
        }
        i := i + 1;
      }
      assert lines[..i] == lines;
      tokens, text := LinesTokens(lineplans), LinesText(lineplans);
      StepsShaped(LinesReadings(lines), old(LastOf(points)), Concat(lineplans));
      LinesShape(lineplans);
    }

    /**
     * One pass of the loop of `ProcessLines`: "," before every line string
     * but the first, then the line string, extending what was written so far.
     */
    method AppendLine(lines: seq<Json>, i: nat, gen: JsonGenerator, wkt: TextWriter,
                      ghost base: seq<Token>, ghost baseText: string, ghost run0: Run, ghost lps: seq<seq<Plan>>)
      returns (r: Outcome<Failure>, ghost lineplans: seq<seq<Plan>>)
      requires i < |lines| && |lps| == i
      requires Valid() && PlainNumbers()
      requires gen.tokens == base + LinesTokens(lps) && wkt.text == baseText + LinesText(lps)
      requires Advances(run0, SoFar(), LinesReadings(lines[..i]), Concat(lps))
      requires forall k :: 0 <= k < i ==> ValidLine(lines[k])
      modifies this, gen, wkt
      ensures r.Pass? ==>
        && Valid() && Kept() == old(Kept()) && (forall k :: 0 <= k < i + 1 ==> ValidLine(lines[k]))
        && gen.tokens == base + LinesTokens(lineplans) && wkt.text == baseText + LinesText(lineplans)
        && |lineplans| == i + 1 && Advances(run0, SoFar(), LinesReadings(lines[..i + 1]), Concat(lineplans))
    {
      if i > 0 {
        wkt.Write(",");
      }
      ghost var run1 := SoFar();
      ghost var lineTokens, lineText, plans;
      r, lineTokens, lineText, plans := ProcessLineString(lines[i], gen, wkt);
      lineplans := lps + [plans];
      if r.Pass? {
        LinesOutputSnoc(base, baseText, lps, plans);
        LineRun(lines, i, run0, run1, SoFar(), lps, plans);
        ValidSnoc(lines, i);
      }
    }

    /**
     * `processCoordinates`: the MultiLineString's array and "(", the line
     * strings, then "]" and ")". Every point was read and went through its
     * step in order; the output holds one line string per line string read
     * plus one per cut, and its WKT parentheses balance.
     */
    method ProcessCoordinates(coords: Json, gen: JsonGenerator, wkt: TextWriter)
      returns (r: Outcome<Failure>, ghost tokens: seq<Token>, ghost text: string, ghost lineplans: seq<seq<Plan>>)
      requires Valid() && PlainNumbers()
      modifies this, gen, wkt
      ensures !coords.JArr? ==> r == Fail(CoordinatesNotArray)
      ensures r.Pass? ==>
        && Valid() && ValidLines(coords) && splits >= old(splits) && Kept() == old(Kept())
        && gen.tokens == old(gen.tokens) + tokens && wkt.text == old(wkt.text) + text
        && |lineplans| == |coords.items| && Advances(old(SoFar()), SoFar(), LinesReadings(coords.items), Concat(lineplans))
        && tokens == [StartArray] + LinesTokens(lineplans) + [EndArray] && text == "(" + LinesText(lineplans) + ")"
        && Depth(tokens) == 0 && Opens(tokens, 1) == |coords.items| + (splits - old(splits))
        && Count(text, '(') == 1 + |coords.items| + (splits - old(splits)) == Count(text, ')')
    {
      gen.Write([FirstToken(coords)]);
      wkt.Write("(");
      if !coords.JArr? {
        return Fail(CoordinatesNotArray), [], "", [];
      }
      ghost var inner, innerText;
      r, inner, innerText, lineplans := ProcessLines(coords.items, gen, wkt);
      tokens, text := [StartArray] + inner + [EndArray], "(" + innerText + ")";
      if r.Pass? {
        gen.Write([EndArray]);
        wkt.Write(")");
        Regroup(old(gen.tokens), [StartArray], inner);
        Regroup(old(gen.tokens), [StartArray] + inner, [EndArray]);
        Regroup(old(wkt.text), "(", innerText);
        Regroup(old(wkt.text), "(" + innerText, ")");
        ghost var n := |coords.items| + (splits - old(splits));
        Enclosed(inner, innerText, 1, n, n);
      }
    }

    // -------------------------------------------------------------------
    // The geometry and the feature
    // -------------------------------------------------------------------

    /** `verifyFeatureType`: the value is copied and must be the expected type name. */
    method VerifyFeatureType(v: Json, gen: JsonGenerator, expected: string) returns (r: Outcome<Failure>)
      modifies gen
      ensures gen.tokens == old(gen.tokens) + [FirstToken(v)]
      ensures r.Pass? <==> v == JStr(expected)
      ensures r.Fail? ==> r.error == InvalidGeoJsonType(expected, v)
    {
      gen.Write([FirstToken(v)]);
      if v == JStr(expected) {
        r := Pass;
      } else {
        r := Fail(InvalidGeoJsonType(expected, v));
      }
    }

    /**
     * `copyEverythingElse`: an object or a scalar is copied whole. An array
     * has only its start copied, after which the reader is out of step with
     * the input; the model stops there.
     */
    method CopyEverythingElse(v: Json, gen: JsonGenerator) returns (r: Outcome<Failure>)
      modifies gen
      ensures gen.tokens == old(gen.tokens) + [if v.JArr? then StartArray else Value(v)]
      ensures r.Pass? <==> !v.JArr?
      ensures r.Fail? ==> r.error == Unreadable(v)
    {
      if v.JArr? {
        gen.Write([StartArray]);
        r := Fail(Unreadable(v));
      } else {
        gen.Write([Value(v)]);
        r := Pass;
      }
    }

    /**
     * One member of the geometry object: its name is copied, then "type" is
     * checked, "coordinates" converted and followed by `writeBBox`, and
     * anything else copied.
     */
    method GeometryMember(name: string, v: Json, gen: JsonGenerator, wkt: TextWriter)
      returns (r: Outcome<Failure>, ghost tokens: seq<Token>, ghost text: string, ghost plans: seq<Plan>, ghost lineplans: seq<seq<Plan>>)
      requires Valid() && PlainNumbers()
      modifies this, gen, wkt
      ensures r.Pass? ==>
        && Valid() && properties == old(properties)
        && gen.tokens == old(gen.tokens) + tokens && wkt.text == old(wkt.text) + text
        && Depth(tokens) == 0 && Count(text, '(') == Count(text, ')')
        && GeometryChunk(name, v, tokens) && (name != "coordinates" ==> text == "")
        && Advances(old(SoFar()), SoFar(), CoordinatesReadings(name, v), plans)
        && (name == "type" ==> v == JStr("MultiLineString"))
        && (name == "coordinates" ==>
              && ValidLines(v) && |lineplans| == |v.items| && plans == Concat(lineplans)
              && tokens == [FieldName(name), StartArray] + LinesTokens(lineplans) + [EndArray]
              && text == "(" + LinesText(lineplans) + ")"
              && var vs := BBoxValues(westBoundingBox, eastBoundingBox, crossedAntimeridian);
                 bbox == if BBoxOmitted(vs, count) then old(bbox) else Some(vs))
        && (name != "coordinates" ==>
              Place() == old(Place()) && Statistics() == old(Statistics()) && Flags() == old(Flags()) && bbox == old(bbox))
    {
      text, plans, lineplans := "", [], [];
      if name == "coordinates" {
        r, tokens, text, lineplans := CoordinatesMember(v, gen, wkt);
        plans := Concat(lineplans);
        return;
      }
      gen.Write([FieldName(name)]);
      AdvancesNone(SoFar());
      if name == "type" {
        r := VerifyFeatureType(v, gen, "MultiLineString");
        tokens := [FieldName(name), FirstToken(v)];
      } else {
        r := CopyEverythingElse(v, gen);
        tokens := [FieldName(name), if v.JArr? then StartArray else Value(v)];
      }
      if r.Pass? {
        ScalarShape(name, Value(v));
      }
    }

    /** The "coordinates" member: its name, the converted MultiLineString, then the bbox kept up to date. */
    method CoordinatesMember(v: Json, gen: JsonGenerator, wkt: TextWriter)
      returns (r: Outcome<Failure>, ghost tokens: seq<Token>, ghost text: string, ghost lineplans: seq<seq<Plan>>)
      requires Valid() && PlainNumbers()
      modifies this, gen, wkt
      ensures r.Pass? ==>
        && Valid() && properties == old(properties)
        && gen.tokens == old(gen.tokens) + tokens && wkt.text == old(wkt.text) + text
        && Depth(tokens) == 0 && Count(text, '(') == Count(text, ')')
        && GeometryChunk("coordinates", v, tokens)
        && Advances(old(SoFar()), SoFar(), CoordinatesReadings("coordinates", v), Concat(lineplans))
        && ValidLines(v) && |lineplans| == |v.items|
        && tokens == [FieldName("coordinates"), StartArray] + LinesTokens(lineplans) + [EndArray]
        && text == "(" + LinesText(lineplans) + ")"
        && var vs := BBoxValues(westBoundingBox, eastBoundingBox, crossedAntimeridian);
           bbox == if BBoxOmitted(vs, count) then old(bbox) else Some(vs)
    {
      gen.Write([FieldName("coordinates")]);
      ghost var inner;
      r, inner, text, lineplans := ProcessCoordinates(v, gen, wkt);
      tokens := [FieldName("coordinates")] + inner;
      if r.Pass? {
        ghost var run := SoFar();
        WriteBBox();
        assert SoFar() == run;
        Regroup(old(gen.tokens), [FieldName("coordinates")], inner);
        CoordinatesChunk(v, inner, lineplans);
      }
    }

    /** `processGeometry`'s loop over the members of the geometry object. */
    method GeometryMembers(members: seq<(string, Json)>, gen: JsonGenerator, wkt: TextWriter)
      returns (r: Outcome<Failure>, ghost tokens: seq<Token>, ghost text: string, ghost chunks: seq<seq<Token>>, ghost plans: seq<Plan>)
      requires Valid() && PlainNumbers()
      modifies this, gen, wkt
      ensures r.Pass? ==>
        && Valid() && properties == old(properties)
        && Advances(old(SoFar()), SoFar(), GeometryReadings(members), plans)
        && gen.tokens == old(gen.tokens) + tokens && wkt.text == old(wkt.text) + text
        && Depth(tokens) == 0 && Count(text, '(') == Count(text, ')')
        && tokens == Flatten(chunks) && GeometryChunks(members, |members|, chunks)
        && AllNamed(members, "type", JStr("MultiLineString")) && CoordinatesReadable(members)
        && (!HasMember(members, "coordinates") ==>
              Place() == old(Place()) && Statistics() == old(Statistics()) && Flags() == old(Flags()) && bbox == old(bbox))
        && (HasMember(members, "coordinates") && count > 0 ==>
              bbox == Some(BBoxValues(westBoundingBox, eastBoundingBox, crossedAntimeridian)))
    {
      r, tokens, text, chunks, plans := Pass, [], "", [], [];
      AdvancesNone(SoFar());
      var i := 0;
      while i < |members|
        invariant 0 <= i <= |members| && r.Pass? && properties == old(properties)
        invariant GeometryPrefix(members, i, gen, wkt, old(gen.tokens), old(wkt.text), old(SoFar()), old(Place()),
                                 old(Statistics()), old(Flags()), old(bbox), tokens, text, chunks, plans)
      {
        r, tokens, text, chunks, plans :=
          AppendGeometryMember(members, i, gen, wkt, old(gen.tokens), old(wkt.text), old(SoFar()), old(Place()),
                               old(Statistics()), old(Flags()), old(bbox), tokens, text, chunks, plans);
        if r.Fail? {
          return;
        }
        i := i + 1;
      }
      assert members[..i] == members;
    }

    /**
     * What `processGeometry`'s loop keeps for the first `i` members: the
     * points read, the output written, the members checked, and either
     * nothing changed (no coordinates yet) or the bbox written.
     */
    ghost predicate GeometryPrefix(members: seq<(string, Json)>, i: nat, gen: JsonGenerator, wkt: TextWriter,
                                   base: seq<Token>, baseText: string, run0: Run,
                                   place0: (seq<Coordinate>, Option<Coordinate>, Option<Coordinate>, Envelope, Envelope),
                                   stats0: (seq<real>, seq<Num>, nat, real, Num), flags0: (bool, nat), bbox0: Option<seq<real>>,
                                   tokens: seq<Token>, text: string, chunks: seq<seq<Token>>, plans: seq<Plan>)
      reads this, gen, wkt
    {
      && i <= |members| && Valid()
      && Advances(run0, SoFar(), GeometryReadings(members[..i]), plans)
      && gen.tokens == base + tokens && wkt.text == baseText + text
      && Depth(tokens) == 0 && Count(text, '(') == Count(text, ')')
      && tokens == Flatten(chunks) && GeometryChunks(members, i, chunks)
      && AllNamed(members[..i], "type", JStr("MultiLineString")) && CoordinatesReadable(members[..i])
      && (!HasMember(members[..i], "coordinates") ==>
            Place() == place0 && Statistics() == stats0 && Flags() == flags0 && bbox == bbox0)
      && (HasMember(members[..i], "coordinates") && count > 0 ==>
            bbox == Some(BBoxValues(westBoundingBox, eastBoundingBox, crossedAntimeridian)))
    }

    /** One turn of `processGeometry`'s loop: member `i` handled, everything kept for the members before it extended to it. */
    method AppendGeometryMember(members: seq<(string, Json)>, i: nat, gen: JsonGenerator, wkt: TextWriter,
                                ghost base: seq<Token>, ghost baseText: string, ghost run0: Run,
                                ghost place0: (seq<Coordinate>, Option<Coordinate>, Option<Coordinate>, Envelope, Envelope),
                                ghost stats0: (seq<real>, seq<Num>, nat, real, Num), ghost flags0: (bool, nat), ghost bbox0: Option<seq<real>>,
                                ghost tokens0: seq<Token>, ghost text0: string, ghost chunks0: seq<seq<Token>>, ghost plans0: seq<Plan>)
      returns (r: Outcome<Failure>, ghost tokens: seq<Token>, ghost text: string, ghost chunks: seq<seq<Token>>, ghost plans: seq<Plan>)
      requires i < |members| && PlainNumbers()
      requires GeometryPrefix(members, i, gen, wkt, base, baseText, run0, place0, stats0, flags0, bbox0, tokens0, text0, chunks0, plans0)
      modifies this, gen, wkt
      ensures r.Pass? ==>
        && properties == old(properties)
        && GeometryPrefix(members, i + 1, gen, wkt, base, baseText, run0, place0, stats0, flags0, bbox0, tokens, text, chunks, plans)
    {
      ghost var memberTokens, memberText, memberPlans, lineplans;
      ghost var run := SoFar();
      r, memberTokens, memberText, memberPlans, lineplans := GeometryMember(members[i].0, members[i].1, gen, wkt);
      tokens, text, chunks, plans := tokens0 + memberTokens, text0 + memberText, chunks0 + [memberTokens], plans0 + memberPlans;
      if r.Pass? {
        AdvancesTrans(run0, run, SoFar(), GeometryReadings(members[..i]), plans0,
                      CoordinatesReadings(members[i].0, members[i].1), memberPlans);
        GeometryReadingsSnoc(members, i);
        HasMemberSnoc(members, i, "coordinates");
        Regroup(base, tokens0, memberTokens);
        Regroup(baseText, text0, memberText);
        Balanced(tokens0, text0, memberTokens, memberText);
        GeometryChunksSnoc(members, i, chunks0, memberTokens);
        AllNamedSnoc(members, i, "type", JStr("MultiLineString"));
        CoordinatesReadableSnoc(members, i);
      }
    }

    /**
     * `processGeometry`: the geometry object is copied member by member and
     * its WKT is "MULTILINESTRING " and the coordinates' text. On success
     * the geometry is a MultiLineString of readable lines, the tokens close
     * what they open, the parentheses balance, and the bbox is the one
     * `writeBBox` computes from all the points read.
     */
    method ProcessGeometry(geometry: Json, gen: JsonGenerator, wkt: TextWriter)
      returns (r: Outcome<Failure>, ghost tokens: seq<Token>, ghost text: string, ghost chunks: seq<seq<Token>>, ghost plans: seq<Plan>)
      requires Valid() && PlainNumbers()
      modifies this, gen, wkt
      ensures !geometry.JObj? ==> r == Fail(GeometryNotObject)
      ensures r.Pass? ==>
        && ValidGeometry(geometry) && Valid() && properties == old(properties)
        && Advances(old(SoFar()), SoFar(), GeometryReadings(geometry.members), plans)
        && gen.tokens == old(gen.tokens) + tokens && wkt.text == old(wkt.text) + text
        && Depth(tokens) == 0 && tokens == [StartObject] + Flatten(chunks) + [EndObject]
        && GeometryChunks(geometry.members, |geometry.members|, chunks)
        && |text| >= 16 && text[..16] == "MULTILINESTRING " && Count(text, '(') == Count(text, ')')
        && (!HasMember(geometry.members, "coordinates") ==>
              Place() == old(Place()) && Statistics() == old(Statistics()) && Flags() == old(Flags()) && bbox == old(bbox))
        && (HasMember(geometry.members, "coordinates") && count > 0 ==>
              bbox == Some(BBoxValues(westBoundingBox, eastBoundingBox, crossedAntimeridian)))
    {
      gen.Write([FirstToken(geometry)]);
      if !geometry.JObj? {
        return Fail(GeometryNotObject), [], "", [], [];
      }
      wkt.Write("MULTILINESTRING ");
      ghost var inner, innerText;
      r, inner, innerText, chunks, plans := GeometryMembers(geometry.members, gen, wkt);
      tokens, text := [StartObject] + inner + [EndObject], "MULTILINESTRING " + innerText;
      if r.Pass? {
        gen.Write([EndObject]);
        Regroup(old(gen.tokens), [StartObject], inner);
        Regroup(old(gen.tokens), [StartObject] + inner, [EndObject]);
        Regroup(old(wkt.text), "MULTILINESTRING ", innerText);
        GeometryShape(inner, innerText);
      }
    }

    /** The "properties" member: read by the object mapper into the `properties` field, not copied. */
    method ReadProperties(v: Json) returns (r: Outcome<Failure>)
      requires Valid()
      modifies this
      ensures r.Pass? ==> PropValue() == PropertiesRead(v) && (properties.Some? ==> fresh(properties.value.otherFields))
      ensures r.Fail? ==> !v.JNull? && PropertiesRead(v).None?
      ensures Valid() && Place() == old(Place()) && Statistics() == old(Statistics()) && Flags() == old(Flags())
      ensures bbox == old(bbox)
    {
      var read := Deserialize(v);
      if read.Err? {
        r := Fail(read.error);
      } else {
        properties := read.value;
        r := Pass;
      }
    }

    /**
     * One member of the feature object: "type" is copied and checked,
     * "geometry" copied and converted, "properties" read, and anything else
     * copied.
     */
    method FeatureMember(name: string, v: Json, gen: JsonGenerator, wkt: TextWriter)
      returns (r: Outcome<Failure>, ghost tokens: seq<Token>, ghost text: string, ghost plans: seq<Plan>)
      requires Valid() && PlainNumbers()
      modifies this, gen, wkt
      ensures r.Pass? ==>
        && Advances(old(SoFar()), SoFar(), GeometryFieldReadings(name, v), plans)
        && Valid() && gen.tokens == old(gen.tokens) + tokens && wkt.text == old(wkt.text) + text
        && Depth(tokens) == 0 && Count(text, '(') == Count(text, ')')
        && FeatureChunk(name, v, tokens) && (name != "geometry" ==> text == "")
        && (name == "type" ==> v == JStr("Feature"))
        && (name == "geometry" ==> ValidGeometry(v))
        && PropValue() == (if name == "properties" then PropertiesRead(v) else old(PropValue()))
        && (properties.Some? ==> properties == old(properties) || fresh(properties.value.otherFields))
        && (Converts(name, v) && count > 0 ==>
              bbox == Some(BBoxValues(westBoundingBox, eastBoundingBox, crossedAntimeridian)))
        && (!Converts(name, v) ==>
              Place() == old(Place()) && Statistics() == old(Statistics()) && Flags() == old(Flags()) && bbox == old(bbox))
    {
      tokens, text, plans := [], "", [];
      AdvancesNone(SoFar());
      if name == "properties" {
        r := ReadProperties(v);
      } else if name == "geometry" {
        ghost var chunks;
        r, tokens, text, chunks, plans := GeometryField(v, gen, wkt);
      } else {
        r, tokens := CopiedField(name, v, gen);
      }
    }

    /** The "geometry" member: its name, then the converted geometry object. */
    method GeometryField(v: Json, gen: JsonGenerator, wkt: TextWriter)
      returns (r: Outcome<Failure>, ghost tokens: seq<Token>, ghost text: string, ghost chunks: seq<seq<Token>>, ghost plans: seq<Plan>)
      requires Valid() && PlainNumbers()
      modifies this, gen, wkt
      ensures r.Pass? ==>
        && Valid() && properties == old(properties) && ValidGeometry(v)
        && Advances(old(SoFar()), SoFar(), GeometryReadings(v.members), plans)
        && gen.tokens == old(gen.tokens) + tokens && wkt.text == old(wkt.text) + text
        && Depth(tokens) == 0 && Count(text, '(') == Count(text, ')')
        && tokens == [FieldName("geometry"), StartObject] + Flatten(chunks) + [EndObject]
        && GeometryChunks(v.members, |v.members|, chunks)
        && (Converts("geometry", v) && count > 0 ==>
              bbox == Some(BBoxValues(westBoundingBox, eastBoundingBox, crossedAntimeridian)))
        && (!Converts("geometry", v) ==>
              Place() == old(Place()) && Statistics() == old(Statistics()) && Flags() == old(Flags()) && bbox == old(bbox))
    {
      gen.Write([FieldName("geometry")]);
      ghost var inner;
      r, inner, text, chunks, plans := ProcessGeometry(v, gen, wkt);
      tokens := [FieldName("geometry")] + inner;
      if r.Pass? {
        Regroup(old(gen.tokens), [FieldName("geometry")], inner);
        FieldShape("geometry", inner, chunks);
      }
    }

    /** Any other member of the feature: its name and its value copied, a "type" checked. */
    method CopiedField(name: string, v: Json, gen: JsonGenerator) returns (r: Outcome<Failure>, ghost tokens: seq<Token>)
      modifies gen
      ensures gen.tokens == old(gen.tokens) + tokens
      ensures tokens == [FieldName(name), if name == "type" then FirstToken(v) else if v.JArr? then StartArray else Value(v)]
      ensures name == "type" ==> (r.Pass? <==> v == JStr("Feature"))
      ensures name != "type" ==> (r.Pass? <==> !v.JArr?)
      ensures r.Pass? ==> tokens == [FieldName(name), Value(v)] && Depth(tokens) == 0
    {
      gen.Write([FieldName(name)]);
      ghost var t;
      if name == "type" {
        r := VerifyFeatureType(v, gen, "Feature");
        t := FirstToken(v);
      } else {
        r := CopyEverythingElse(v, gen);
        t := if v.JArr? then StartArray else Value(v);
      }
      tokens := [FieldName(name), t];
      if r.Pass? {
        ScalarShape(name, t);
      }
    }

    /** `parse`'s loop over the members of the feature object. */
    method FeatureMembers(members: seq<(string, Json)>, gen: JsonGenerator, wkt: TextWriter)
      returns (r: Outcome<Failure>, ghost tokens: seq<Token>, ghost text: string, ghost chunks: seq<seq<Token>>, ghost plans: seq<Plan>)
      requires Valid() && PlainNumbers()
      modifies this, gen, wkt
      ensures r.Pass? ==>
        && Advances(old(SoFar()), SoFar(), FeatureReadings(members), plans)
        && Valid() && gen.tokens == old(gen.tokens) + tokens && wkt.text == old(wkt.text) + text
        && Depth(tokens) == 0 && Count(text, '(') == Count(text, ')')
        && tokens == Flatten(chunks) && FeatureChunks(members, |members|, chunks)
        && AllNamed(members, "type", JStr("Feature")) && GeometriesValid(members)
        && PropValue() == PropertiesAfter(members, old(PropValue()))
        && (properties.Some? ==> properties == old(properties) || fresh(properties.value.otherFields))
        && (old(count) == 0 && count > 0 ==>
              bbox == Some(BBoxValues(westBoundingBox, eastBoundingBox, crossedAntimeridian)))
    {
      r, tokens, text, chunks, plans := Pass, [], "", [], [];
      AdvancesNone(SoFar());
      var i := 0;
      while i < |members|
        invariant 0 <= i <= |members| && r.Pass?
        invariant FeaturePrefix(members, i, gen, wkt, old(gen.tokens), old(wkt.text), old(SoFar()), old(PropValue()),
                                old(count), tokens, text, chunks, plans)
        invariant properties.Some? ==> properties == old(properties) || fresh(properties.value.otherFields)
      {
        r, tokens, text, chunks, plans :=
          AppendFeatureMember(members, i, gen, wkt, old(gen.tokens), old(wkt.text), old(SoFar()), old(PropValue()),
                              old(count), tokens, text, chunks, plans);
        if r.Fail? {
          return;
        }
        i := i + 1;
      }
      assert members[..i] == members;
    }

    /**
     * What `parse`'s loop over the feature's members keeps for the first `i`
     * of them: the points read, the output written, the members checked, the
     * properties record last read and the bbox once a point was counted.
     */
    ghost predicate FeaturePrefix(members: seq<(string, Json)>, i: nat, gen: JsonGenerator, wkt: TextWriter,
                                  base: seq<Token>, baseText: string, run0: Run, props0: Option<PropertiesValue>, count0: nat,
                                  tokens: seq<Token>, text: string, chunks: seq<seq<Token>>, plans: seq<Plan>)
      reads this, gen, wkt, if properties.Some? then {properties.value.otherFields} else {}
    {
      && i <= |members| && Valid()
      && Advances(run0, SoFar(), FeatureReadings(members[..i]), plans)
      && gen.tokens == base + tokens && wkt.text == baseText + text
      && Depth(tokens) == 0 && Count(text, '(') == Count(text, ')')
      && tokens == Flatten(chunks) && FeatureChunks(members, i, chunks)
      && AllNamed(members[..i], "type", JStr("Feature")) && GeometriesValid(members[..i])
      && PropValue() == PropertiesAfter(members[..i], props0)
      && (count0 == 0 && count > 0 ==> bbox == Some(BBoxValues(westBoundingBox, eastBoundingBox, crossedAntimeridian)))
    }

    /** One turn of `parse`'s loop over the feature's members: member `i` handled, everything kept for the members before it extended to it. */
    method AppendFeatureMember(members: seq<(string, Json)>, i: nat, gen: JsonGenerator, wkt: TextWriter,
                               ghost base: seq<Token>, ghost baseText: string, ghost run0: Run,
                               ghost props0: Option<PropertiesValue>, ghost count0: nat,
                               ghost tokens0: seq<Token>, ghost text0: string, ghost chunks0: seq<seq<Token>>, ghost plans0: seq<Plan>)
      returns (r: Outcome<Failure>, ghost tokens: seq<Token>, ghost text: string, ghost chunks: seq<seq<Token>>, ghost plans: seq<Plan>)
      requires i < |members| && PlainNumbers()
      requires FeaturePrefix(members, i, gen, wkt, base, baseText, run0, props0, count0, tokens0, text0, chunks0, plans0)
      modifies this, gen, wkt
      ensures r.Pass? ==>
        && FeaturePrefix(members, i + 1, gen, wkt, base, baseText, run0, props0, count0, tokens, text, chunks, plans)
        && (properties.Some? ==> properties == old(properties) || fresh(properties.value.otherFields))
    {
      ghost var memberTokens, memberText, memberPlans;
      ghost var run := SoFar();
      r, memberTokens, memberText, memberPlans := FeatureMember(members[i].0, members[i].1, gen, wkt);
      tokens, text, chunks, plans := tokens0 + memberTokens, text0 + memberText, chunks0 + [memberTokens], plans0 + memberPlans;
      if r.Pass? {
        AdvancesTrans(run0, run, SoFar(), FeatureReadings(members[..i]), plans0,
                      GeometryFieldReadings(members[i].0, members[i].1), memberPlans);
        FeatureReadingsSnoc(members, i);
        PropertiesAfterSnoc(members, i, props0);
        Regroup(base, tokens0, memberTokens);
        Regroup(baseText, text0, memberText);
        Balanced(tokens0, text0, memberTokens, memberText);
        FeatureChunksSnoc(members, i, chunks0, memberTokens);
        AllNamedSnoc(members, i, "type", JStr("Feature"));
        GeometriesValidSnoc(members, i);
      }
    }

    /** `withOtherField` for every additional property, in any order: the keys are distinct. */
    static method PutAll(b: Builder, add: map<string, Json>)
      modifies b.otherFields
      ensures b.otherFields.entries == old(b.otherFields.entries) + add
    {
      var keys := add.Keys;
      while keys != {}
        invariant keys <= add.Keys
        invariant b.otherFields.entries == old(b.otherFields.entries) + Restrict(add, add.Keys - keys)
        decreases keys
      {
        var k :| k in keys;
        RestrictAdd(old(b.otherFields.entries), add, add.Keys - keys, k);
        var self := b.WithOtherField(k, add[k]);
        keys := keys - {k};
      }
      RestrictAll(add);
    }

    /**
     * The end of `parse`: the record read (an empty one when there was
     * none) goes through a builder that shares its map, gets the distance
     * and the mean speed, and one entry per additional property.
     */
    method BuildProperties(additional: Option<map<string, Json>>) returns (built: GeometryProperties)
      modifies this, if properties.Some? then {properties.value.otherFields} else {}
      ensures properties == Some(built)
      ensures built.Value() == MergedProperties(old(PropValue()), distanceM, avgSpeedM, Additional(additional))
      ensures Place() == old(Place()) && Statistics() == old(Statistics()) && Flags() == old(Flags()) && bbox == old(bbox)
    {
      if properties.None? {
        var empty := new Builder.Configure();
        var record := empty.Build();
        properties := Some(record);
      }
      var b := new Builder.ConfigureFrom(properties.value);
      b := b.WithDistanceM(Some(Finite(distanceM)));
      b := b.WithAvgSpeedMPS(Some(avgSpeedM));
      PutAll(b, Additional(additional));
      built := b.Build();
      properties := Some(built);
    }

    /**
     * `parse`: the feature object is copied member by member, the bbox
     * follows when one was computed, and the merged properties and the end
     * of the object close the output.
     */
    method Parse(input: Json, gen: JsonGenerator, wkt: TextWriter, additional: Option<map<string, Json>>)
      returns (r: Outcome<Failure>, ghost body: seq<Token>, ghost text: string, ghost chunks: seq<seq<Token>>, ghost plans: seq<Plan>)
      requires Valid() && PlainNumbers()
      modifies this, gen, wkt, if properties.Some? then {properties.value.otherFields} else {}
      ensures !input.JObj? ==> r == Fail(NotAnObject)
      ensures r.Pass? ==>
        && input.JObj? && Valid() && properties.Some?
        && Advances(old(SoFar()), SoFar(), FeatureReadings(input.members), plans)
        && AllNamed(input.members, "type", JStr("Feature"))
        && GeometriesValid(input.members)
        && properties.value.Value() == MergedProperties(PropertiesAfter(input.members, old(PropValue())),
                                                         distanceM, avgSpeedM, Additional(additional))
        && gen.tokens == old(gen.tokens) + [StartObject] + body + BBoxTokens(bbox)
                         + [FieldName("properties"), Properties(properties.value.Value()), EndObject]
        && Depth(body) == 0 && body == Flatten(chunks) && FeatureChunks(input.members, |input.members|, chunks)
        && wkt.text == old(wkt.text) + text && Count(text, '(') == Count(text, ')')
        && (old(count) == 0 && count > 0 ==>
              var read := old(points) + Coords(FeatureReadings(input.members));
              bbox == Some(BBoxValues(Bounds(West(read)), Bounds(East(read)), old(crossedAntimeridian) || Crosses(plans))))
    {
      gen.Write([FirstToken(input)]);
      if !input.JObj? {
        return Fail(NotAnObject), [], "", [], [];
      }
      r, body, text, chunks, plans := FeatureBody(input.members, gen, wkt, additional);
    }

    /** The feature object after its "{": its members, then the bbox, the properties and the "}". */
    method FeatureBody(members: seq<(string, Json)>, gen: JsonGenerator, wkt: TextWriter, additional: Option<map<string, Json>>)
      returns (r: Outcome<Failure>, ghost body: seq<Token>, ghost text: string, ghost chunks: seq<seq<Token>>, ghost plans: seq<Plan>)
      requires Valid() && PlainNumbers()
      modifies this, gen, wkt, if properties.Some? then {properties.value.otherFields} else {}
      ensures r.Pass? ==>
        && Valid() && properties.Some?
        && Advances(old(SoFar()), SoFar(), FeatureReadings(members), plans)
        && AllNamed(members, "type", JStr("Feature")) && GeometriesValid(members)
        && properties.value.Value() == MergedProperties(PropertiesAfter(members, old(PropValue())),
                                                         distanceM, avgSpeedM, Additional(additional))
        && gen.tokens == old(gen.tokens) + body + BBoxTokens(bbox)
                         + [FieldName("properties"), Properties(properties.value.Value()), EndObject]
        && Depth(body) == 0 && body == Flatten(chunks) && FeatureChunks(members, |members|, chunks)
        && wkt.text == old(wkt.text) + text && Count(text, '(') == Count(text, ')')
        && (old(count) == 0 && count > 0 ==>
              var read := old(points) + Coords(FeatureReadings(members));
              bbox == Some(BBoxValues(Bounds(West(read)), Bounds(East(read)), old(crossedAntimeridian) || Crosses(plans))))
    {
      r, body, text, chunks, plans := FeatureMembers(members, gen, wkt);
      if r.Pass? {
        Finish(additional, gen);
      }
    }

    /** The end of `parse`: the bbox when there is one, then the merged properties and the end of the object. */
    method Finish(additional: Option<map<string, Json>>, gen: JsonGenerator)
      requires Valid()
      modifies this, gen, if properties.Some? then {properties.value.otherFields} else {}
      ensures Valid() && properties.Some?
      ensures properties.value.Value() == MergedProperties(old(PropValue()), distanceM, avgSpeedM, Additional(additional))
      ensures gen.tokens == old(gen.tokens) + BBoxTokens(bbox) + [FieldName("properties"), Properties(properties.value.Value()), EndObject]
      ensures Place() == old(Place()) && Statistics() == old(Statistics()) && Flags() == old(Flags()) && bbox == old(bbox)
      ensures SoFar() == old(SoFar())
    {
      gen.Write(BBoxTokens(bbox));
      var built := BuildProperties(additional);
      gen.Write([FieldName("properties"), Properties(built.Value())]);
      gen.Write([EndObject]);
    }
  }
}
