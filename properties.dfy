/**
 * GeometryProperties and its Builder. The record's five statistics are
 * immutable, but its map of other fields is a mutable object that a builder
 * made from the record shares: the model keeps that map as a `FieldMap`
 * object so that the aliasing is visible.
 */
module Properties {
  import opened Wrappers
  import opened Geometry
  import opened Json
  import opened Failures

  /** The `HashMap<String, Object>` of extra property fields. */
  class FieldMap {
    var entries: map<string, Json>

    constructor ()
      ensures entries == map[]
    {
      entries := map[];
    }
  }

  class GeometryProperties {
    const distanceM: Option<Num>
    const avgSpeedMPS: Option<Num>
    const unsimplifiedPointCount: Option<int>
    const simplifiedPointCount: Option<int>
    const targetPointCount: Option<int>
    const otherFields: FieldMap

    /** The private constructor `build()` calls: it copies the builder's fields and shares its map. */
    constructor FromBuilder(b: Builder)
      ensures distanceM == b.distanceM && avgSpeedMPS == b.avgSpeedMPS
      ensures unsimplifiedPointCount == b.unsimplifiedPointCount
      ensures simplifiedPointCount == b.simplifiedPointCount
      ensures targetPointCount == b.targetPointCount
      ensures otherFields == b.otherFields
    {
      distanceM := b.distanceM;
      avgSpeedMPS := b.avgSpeedMPS;
      unsimplifiedPointCount := b.unsimplifiedPointCount;
      simplifiedPointCount := b.simplifiedPointCount;
      targetPointCount := b.targetPointCount;
      otherFields := b.otherFields;
    }

    /** What the object mapper writes for this record: the getters and the any-getter map. */
    function Value(): PropertiesValue
      reads otherFields
    {
      PropertiesValue(distanceM, avgSpeedMPS, unsimplifiedPointCount, simplifiedPointCount,
                      targetPointCount, otherFields.entries)
    }
  }

  class Builder {
    var distanceM: Option<Num>
    var avgSpeedMPS: Option<Num>
    var unsimplifiedPointCount: Option<int>
    var simplifiedPointCount: Option<int>
    var targetPointCount: Option<int>
    var otherFields: FieldMap

    /** The record `build()` would make now. */
    function Value(): PropertiesValue
      reads this, otherFields
    {
      PropertiesValue(distanceM, avgSpeedMPS, unsimplifiedPointCount, simplifiedPointCount,
                      targetPointCount, otherFields.entries)
    }

    /** `Builder.configure()`: every statistic null, a new empty map. */
    constructor Configure()
      ensures Value() == PropertiesValue(None, None, None, None, None, map[])
      ensures fresh(otherFields)
    {
      distanceM, avgSpeedMPS := None, None;
      unsimplifiedPointCount, simplifiedPointCount, targetPointCount := None, None, None;
      otherFields := new FieldMap();
    }

    /** `Builder.configure(properties)`: the same five values and the very same map object. */
    constructor ConfigureFrom(p: GeometryProperties)
      ensures Value() == p.Value()
      ensures otherFields == p.otherFields
    {
      distanceM := p.distanceM;
      avgSpeedMPS := p.avgSpeedMPS;
      unsimplifiedPointCount := p.unsimplifiedPointCount;
      simplifiedPointCount := p.simplifiedPointCount;
      targetPointCount := p.targetPointCount;
      otherFields := p.otherFields;
    }

    method WithDistanceM(v: Option<Num>) returns (self: Builder)
      modifies this
      ensures self == this && otherFields == old(otherFields)
      ensures Value() == old(Value()).(distanceM := v)
    {
      distanceM := v;
      self := this;
    }

    method WithAvgSpeedMPS(v: Option<Num>) returns (self: Builder)
      modifies this
      ensures self == this && otherFields == old(otherFields)
      ensures Value() == old(Value()).(avgSpeedMPS := v)
    {
      avgSpeedMPS := v;
      self := this;
    }

    method WithUnsimplifiedPointCount(v: Option<int>) returns (self: Builder)
      modifies this
      ensures self == this && otherFields == old(otherFields)
      ensures Value() == old(Value()).(unsimplifiedPointCount := v)
    {
      unsimplifiedPointCount := v;
      self := this;
    }

    method WithSimplifiedPointCount(v: Option<int>) returns (self: Builder)
      modifies this
      ensures self == this && otherFields == old(otherFields)
      ensures Value() == old(Value()).(simplifiedPointCount := v)
    {
      simplifiedPointCount := v;
      self := this;
    }

    method WithTargetPointCount(v: Option<int>) returns (self: Builder)
      modifies this
      ensures self == this && otherFields == old(otherFields)
      ensures Value() == old(Value()).(targetPointCount := v)
    {
      targetPointCount := v;
      self := this;
    }

    /** The any-setter: puts one entry into the (possibly shared) map. */
    method WithOtherField(name: string, value: Json) returns (self: Builder)
      modifies otherFields
      ensures self == this
      ensures otherFields.entries == old(otherFields.entries)[name := value]
      ensures Value() == old(Value()).(otherFields := old(otherFields.entries)[name := value])
    {
      otherFields.entries := otherFields.entries[name := value];
      self := this;
    }

    method Build() returns (p: GeometryProperties)
      ensures fresh(p)
      ensures p.Value() == Value() && p.otherFields == otherFields
    {
      p := new GeometryProperties.FromBuilder(this);
    }
  }

  /**
   * Adding an entry through a builder made from a record changes the record's
   * own map, because the two share it.
   */
  method SharedMapUpdate(p: GeometryProperties, name: string, value: Json) returns (q: GeometryProperties)
    modifies p.otherFields
    ensures p.otherFields.entries == old(p.otherFields.entries)[name := value]
    ensures q.Value() == p.Value() && q.otherFields == p.otherFields
  {
    var b := new Builder.ConfigureFrom(p);
    b := b.WithOtherField(name, value);
    q := b.Build();
  }

  /** Jackson's conversion of a JSON number into a `Long`: truncation toward zero. */
  function TruncateToLong(n: real): (i: int)
    ensures n >= 0.0 ==> i as real <= n < i as real + 1.0
    ensures n < 0.0 ==> i as real - 1.0 < n <= i as real
  {
    if n >= 0.0 then n.Floor else -((-n).Floor)
  }

  function ReadDouble(v: Json): Result<Option<Num>, Failure>
  {
    match v
    case JNull => Ok(None)
    case JNum(n) => Ok(Some(Finite(n)))
    case _ => Err(Unreadable(v))
  }

  function ReadLong(v: Json): Result<Option<int>, Failure>
  {
    match v
    case JNull => Ok(None)
    case JNum(n) => Ok(Some(TruncateToLong(n)))
    case _ => Err(Unreadable(v))
  }

  /**
   * The record Jackson builds from the members of a "properties" object: a
   * builder from `configure()`, one `with*` call per known member and one
   * any-setter call per other member, in input order.
   */
  function Decode(members: seq<(string, Json)>): Result<PropertiesValue, Failure>
  {
    if members == [] then Ok(PropertiesValue(None, None, None, None, None, map[]))
    else
      match Decode(members[..|members| - 1])
      case Err(e) => Err(e)
      case Ok(p) => DecodeMember(p, members[|members| - 1].0, members[|members| - 1].1)
  }

  function DecodeMember(p: PropertiesValue, name: string, v: Json): (r: Result<PropertiesValue, Failure>)
    ensures r.Ok? && name !in KnownNames ==> r.value == p.(otherFields := p.otherFields[name := v])
  {
    if name == "distanceM" then
      match ReadDouble(v) case Ok(d) => Ok(p.(distanceM := d)) case Err(e) => Err(e)
    else if name == "avgSpeedMPS" then
      match ReadDouble(v) case Ok(d) => Ok(p.(avgSpeedMPS := d)) case Err(e) => Err(e)
    else if name == "unsimplifiedPointCount" then
      match ReadLong(v) case Ok(d) => Ok(p.(unsimplifiedPointCount := d)) case Err(e) => Err(e)
    else if name == "simplifiedPointCount" then
      match ReadLong(v) case Ok(d) => Ok(p.(simplifiedPointCount := d)) case Err(e) => Err(e)
    else if name == "targetPointCount" then
      match ReadLong(v) case Ok(d) => Ok(p.(targetPointCount := d)) case Err(e) => Err(e)
    else Ok(p.(otherFields := p.otherFields[name := v]))
  }

  const KnownNames := {"distanceM", "avgSpeedMPS", "unsimplifiedPointCount", "simplifiedPointCount", "targetPointCount"}

  /**
   * An unknown member's value ends up in the decoded map under its name, and
   * the last of several members with one name wins.
   */
  lemma {:induction false} DecodeKeepsLastOtherField(members: seq<(string, Json)>, k: nat)
    requires k < |members| && members[k].0 !in KnownNames
    requires forall j :: k < j < |members| ==> members[j].0 != members[k].0
    requires Decode(members).Ok?
    ensures members[k].0 in Decode(members).value.otherFields
    ensures Decode(members).value.otherFields[members[k].0] == members[k].1
    decreases |members|
  {
    var init := members[..|members| - 1];
    if k < |members| - 1 {
      assert forall j :: k < j < |init| ==> init[j] == members[j];
      DecodeKeepsLastOtherField(init, k);
    }
  }

  /**
   * What `objectMapper.readValue(parser, GeometryProperties.class)` returns:
   * null for a JSON null, the built record for an object, a failure otherwise.
   */
  method Deserialize(v: Json) returns (r: Result<Option<GeometryProperties>, Failure>)
    ensures v.JNull? ==> r == Ok(None)
    ensures !v.JNull? && !v.JObj? ==> r.Err?
    ensures v.JObj? ==> match Decode(v.members)
      case Err(e) => r == Err(e)
      case Ok(p) => r.Ok? && r.value.Some? && fresh(r.value.value) && fresh(r.value.value.otherFields)
                    && r.value.value.Value() == p
  {
    if v.JNull? {
      r := Ok(None);
    } else if v.JObj? {
      var members := v.members;
      var b := new Builder.Configure();
      var i := 0;
      while i < |members|
        invariant 0 <= i <= |members|
        invariant fresh(b) && fresh(b.otherFields)
        invariant Decode(members[..i]).Ok? && b.Value() == Decode(members[..i]).value
        decreases |members| - i
      {
        assert members[..i + 1][..i] == members[..i];
        var (name, value) := members[i];
        var step: Result<Builder, Failure>;
        if name == "distanceM" {
          match ReadDouble(value) {
            case Ok(d) => var b' := b.WithDistanceM(d); step := Ok(b');
            case Err(e) => step := Err(e);
          }
        } else if name == "avgSpeedMPS" {
          match ReadDouble(value) {
            case Ok(d) => var b' := b.WithAvgSpeedMPS(d); step := Ok(b');
            case Err(e) => step := Err(e);
          }
        } else if name == "unsimplifiedPointCount" {
          match ReadLong(value) {
            case Ok(d) => var b' := b.WithUnsimplifiedPointCount(d); step := Ok(b');
            case Err(e) => step := Err(e);
          }
        } else if name == "simplifiedPointCount" {
          match ReadLong(value) {
            case Ok(d) => var b' := b.WithSimplifiedPointCount(d); step := Ok(b');
            case Err(e) => step := Err(e);
          }
        } else if name == "targetPointCount" {
          match ReadLong(value) {
            case Ok(d) => var b' := b.WithTargetPointCount(d); step := Ok(b');
            case Err(e) => step := Err(e);
          }
        } else {
          var b' := b.WithOtherField(name, value);
          step := Ok(b');
        }
        if step.Err? {
          DecodeErrStays(members, i + 1);
          return Err(step.error);
        }
        i := i + 1;
      }
      assert members[..|members|] == members;
      var p := b.Build();
      r := Ok(Some(p));
    } else {
      r := Err(Unreadable(v));
    }
  }

  /** Once decoding a prefix fails, decoding any longer prefix fails the same way. */
  lemma {:induction false} DecodeErrStays(members: seq<(string, Json)>, i: nat)
    requires i <= |members| && Decode(members[..i]).Err?
    ensures Decode(members) == Decode(members[..i])
    decreases |members| - i
  {
    if i == |members| {
      assert members[..i] == members;
    } else {
      assert members[..i + 1][..i] == members[..i];
      DecodeErrStays(members, i + 1);
    }
  }
}
