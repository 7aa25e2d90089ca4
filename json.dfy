/**
 * JSON as the two phases see it: values read by Jackson, the tokens a
 * `JsonGenerator` emits, and the two outputs (a generator and a text writer)
 * modelled as append-only traces.
 */
module Json {
  import opened Wrappers
  import opened Geometry

  /** A JSON value as read from the phase-2 input (numbers are finite). */
  datatype Json =
    | JNull
    | JBool(b: bool)
    | JNum(n: real)
    | JStr(s: string)
    | JArr(items: seq<Json>)
    | JObj(members: seq<(string, Json)>)

  /** What the object mapper writes for a `GeometryProperties`. */
  datatype PropertiesValue = PropertiesValue(
    distanceM: Option<Num>,
    avgSpeedMPS: Option<Num>,
    unsimplifiedPointCount: Option<int>,
    simplifiedPointCount: Option<int>,
    targetPointCount: Option<int>,
    otherFields: map<string, Json>)

  /** One `JsonGenerator` call. */
  datatype Token =
    | StartObject
    | EndObject
    | StartArray
    | EndArray
    | FieldName(name: string)
    | NumberText(text: string)         // writeNumber(String): a number already formatted
    | Value(v: Json)                   // writeString, a copied input value, or a value the object mapper serialises whole
    | Properties(p: PropertiesValue)   // writeObject(properties)

  /** Containers opened minus containers closed. */
  function Depth(ts: seq<Token>): int
  {
    if ts == [] then 0
    else Depth(ts[..|ts| - 1]) + Weight(ts[|ts| - 1])
  }

  function Weight(t: Token): int
  {
    match t
    case StartObject => 1
    case StartArray => 1
    case EndObject => -1
    case EndArray => -1
    case _ => 0
  }

  lemma {:induction false} DepthAppend(a: seq<Token>, b: seq<Token>)
    ensures Depth(a + b) == Depth(a) + Depth(b)
    decreases |b|
  {
    if b == [] {
      assert a + b == a;
    } else {
      var b' := b[..|b| - 1];
      assert (a + b)[..|a + b| - 1] == a + b';
      DepthAppend(a, b');
    }
  }

  lemma DepthPrefix(ts: seq<Token>, k: nat)
    requires 0 < k <= |ts|
    ensures Depth(ts[..k]) == Depth(ts[..k - 1]) + Weight(ts[k - 1])
  {
    assert ts[..k][..k - 1] == ts[..k - 1];
  }

  /** The `JsonGenerator` an output is written through: it only ever appends. */
  class JsonGenerator {
    var tokens: seq<Token>

    constructor ()
      ensures tokens == []
    {
      tokens := [];
    }

    method Write(ts: seq<Token>)
      modifies this
      ensures tokens == old(tokens) + ts
    {
      tokens := tokens + ts;
    }
  }

  /** A `java.io.Writer` (the WKT output): it only ever appends. */
  class TextWriter {
    var text: string

    constructor ()
      ensures text == ""
    {
      text := "";
    }

    method Write(s: string)
      modifies this
      ensures text == old(text) + s
    {
      text := text + s;
    }
  }
}
