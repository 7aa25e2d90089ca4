/**
 * GeoJsonMultiLineWriter: the phase-1 sink. Every call appends tokens to the
 * shared `JsonGenerator`; the output is a GeoJSON Feature whose geometry is a
 * MultiLineString (RFC 7946, sections 3.1.5 and 3.2).
 */
module MultiLineWriter {
  import opened Wrappers
  import opened Geometry
  import opened Json
  import opened Failures
  import opened Properties

  /** `new DecimalFormat(pattern, ENGLISH).format(value)`: rounding is outside the model. */
  type Formatter = (string, real) -> string

  /** The `DecimalFormat` pattern: "0." followed by one '#' per decimal place. */
  method BuildPattern(precision: int) returns (pattern: string)
    ensures |pattern| == 2 + (if precision > 0 then precision else 0)
    ensures pattern[..2] == "0."
    ensures forall i :: 2 <= i < |pattern| ==> pattern[i] == '#'
  {
    pattern := "0.";
    var i := 1;
    while i <= precision
      invariant 1 <= i <= (if precision > 0 then precision + 1 else 1)
      invariant |pattern| == i + 1
      invariant pattern[..2] == "0."
      invariant forall k :: 2 <= k < |pattern| ==> pattern[k] == '#'
    {
      pattern := pattern + "#";
      i := i + 1;
    }
  }

  /** What `start()` writes: the Feature, its geometry, and the opening of the coordinates array. */
  const StartTokens: seq<Token> := [
    StartObject,
    FieldName("type"), Value(JStr("Feature")),
    FieldName("geometry"), StartObject,
    FieldName("type"), Value(JStr("MultiLineString")),
    FieldName("coordinates"), StartArray
  ]

  /** What `finish(properties)` writes: it closes the coordinates, the geometry and the Feature. */
  function FinishTokens(p: PropertiesValue): seq<Token>
  {
    [EndArray, EndObject, FieldName("properties"), Properties(p), EndObject]
  }

  /** `finish` closes exactly the three containers `start` opened. */
  lemma FeatureFrame(p: PropertiesValue)
    ensures Depth(StartTokens) == 3 && Depth(FinishTokens(p)) == -3
  {
    var s := StartTokens;
    DepthPrefix(s, 1); DepthPrefix(s, 2); DepthPrefix(s, 3); DepthPrefix(s, 4); DepthPrefix(s, 5);
    DepthPrefix(s, 6); DepthPrefix(s, 7); DepthPrefix(s, 8); DepthPrefix(s, 9);
    assert s[..9] == s;
    var f := FinishTokens(p);
    DepthPrefix(f, 1); DepthPrefix(f, 2); DepthPrefix(f, 3); DepthPrefix(f, 4); DepthPrefix(f, 5);
    assert f[..5] == f;
  }

  class GeoJsonMultiLineWriter {
    const generator: JsonGenerator
    const pattern: string
    const decimal: Formatter

    constructor (generator: JsonGenerator, precision: int, decimal: Formatter)
      ensures this.generator == generator && this.decimal == decimal
      ensures |pattern| == 2 + (if precision > 0 then precision else 0)
      ensures pattern[..2] == "0." && forall i :: 2 <= i < |pattern| ==> pattern[i] == '#'
    {
      this.generator := generator;
      var p := BuildPattern(precision);
      this.pattern := p;
      this.decimal := decimal;
    }

    function Format(v: real): string { decimal(pattern, v) }

    /** One number token per value, in order. */
    function NumberTokens(values: seq<real>): seq<Token>
    {
      if values == [] then []
      else NumberTokens(values[..|values| - 1]) + [NumberText(Format(values[|values| - 1]))]
    }

    /** What `writeCoordinate(values)` writes: an array of the formatted values. */
    function CoordinateTokens(values: seq<real>): seq<Token>
    {
      [StartArray] + NumberTokens(values) + [EndArray]
    }

    lemma {:induction false} NumberTokensShape(values: seq<real>)
      ensures |NumberTokens(values)| == |values|
      ensures forall i :: 0 <= i < |values| ==> NumberTokens(values)[i] == NumberText(Format(values[i]))
      decreases |values|
    {
      if values != [] {
        var init := values[..|values| - 1];
        NumberTokensShape(init);
        assert forall i :: 0 <= i < |init| ==> values[i] == init[i];
      }
    }

    /**
     * A coordinate is an array that opens, holds exactly one formatted number
     * per value in the values' order, and closes.
     */
    lemma CoordinateTokensShape(values: seq<real>)
      ensures var ts := CoordinateTokens(values);
        && |ts| == |values| + 2 && ts[0] == StartArray && ts[|ts| - 1] == EndArray
        && forall i :: 0 <= i < |values| ==> ts[i + 1] == NumberText(Format(values[i]))
    {
      NumberTokensShape(values);
    }

    lemma {:induction false} NumberTokensDepth(values: seq<real>)
      ensures Depth(NumberTokens(values)) == 0
      decreases |values|
    {
      if values != [] {
        var init := values[..|values| - 1];
        NumberTokensDepth(init);
        DepthAppend(NumberTokens(init), [NumberText(Format(values[|values| - 1]))]);
      }
    }

    /** A coordinate array is closed as soon as it is written. */
    lemma CoordinateTokensDepth(values: seq<real>)
      ensures Depth(CoordinateTokens(values)) == 0
    {
      NumberTokensDepth(values);
      DepthAppend([StartArray], NumberTokens(values));
      DepthAppend([StartArray] + NumberTokens(values), [EndArray]);
    }

    method Start()
      modifies generator
      ensures generator.tokens == old(generator.tokens) + StartTokens
    {
      generator.Write([StartObject]);
      generator.Write([FieldName("type")]);
      generator.Write([Value(JStr("Feature"))]);
      generator.Write([FieldName("geometry")]);
      generator.Write([StartObject]);
      generator.Write([FieldName("type")]);
      generator.Write([Value(JStr("MultiLineString"))]);
      generator.Write([FieldName("coordinates")]);
      generator.Write([StartArray]);
    }

    method Finish(properties: GeometryProperties)
      modifies generator
      ensures generator.tokens == old(generator.tokens) + FinishTokens(properties.Value())
    {
      generator.Write([EndArray]);
      generator.Write([EndObject]);
      generator.Write([FieldName("properties")]);
      generator.Write([Properties(properties.Value())]);
      generator.Write([EndObject]);
    }

    method EndLine()
      modifies generator
      ensures generator.tokens == old(generator.tokens) + [EndArray]
    {
      generator.Write([EndArray]);
    }

    method StartLine()
      modifies generator
      ensures generator.tokens == old(generator.tokens) + [StartArray]
    {
      generator.Write([StartArray]);
    }

    method WriteCoordinate(values: seq<real>)
      modifies generator
      ensures generator.tokens == old(generator.tokens) + CoordinateTokens(values)
    {
      generator.Write([StartArray]);
      ghost var head := generator.tokens;
      var i := 0;
      while i < |values|
        invariant 0 <= i <= |values|
        invariant generator.tokens == head + NumberTokens(values[..i])
      {
        NumberTokensSnoc(values, i);
        generator.Write([NumberText(Format(values[i]))]);
        i := i + 1;
      }
      assert values[..|values|] == values;
      generator.Write([EndArray]);
    }

    lemma NumberTokensSnoc(values: seq<real>, i: nat)
      requires i < |values|
      ensures NumberTokens(values[..i + 1]) == NumberTokens(values[..i]) + [NumberText(Format(values[i]))]
    {
      assert values[..i + 1][..i] == values[..i];
    }

    /**
     * `writeCoordinate(lon, lat, additional...)`: `Arrays.asList` gives a
     * fixed-size list, so adding any extra value fails before anything is written.
     */
    method WriteLonLat(lon: real, lat: real, additional: seq<real>) returns (r: Outcome<Failure>)
      modifies generator
      ensures r.Pass? <==> additional == []
      ensures r.Pass? ==> generator.tokens == old(generator.tokens) + CoordinateTokens([lon, lat])
      ensures r.Fail? ==> generator.tokens == old(generator.tokens)
    {
      if |additional| > 0 {
        return Fail(FixedSizeList);
      }
      WriteCoordinate([lon, lat]);
      r := Pass;
    }
  }
}
