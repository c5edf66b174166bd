/** io.github.rowak.nanoleafapi.Effect: an effect kept as a map of JSON properties,
    read back through getters that fall back to plugin options and to defaults. */
module NanoleafEffects {
  import opened Wrappers
  import opened JavaText
  import opened Json
  import opened EffectJson

  type Properties = map<string, Json>

  /** PROPERTIES_NAMES: the keys fromJSON keeps ("loop" is listed twice). */
  const PropertyNames: seq<string> :=
    ["animName", "version", "animData", "palette", "transTime",
     "windowSize", "flowFactor", "delayTime", "loop",
     "colorType", "animType", "pluginType", "pluginUuid",
     "pluginOptions", "explodeFactor", "brightnessRange",
     "direction", "loop"]

  /** Effect.Direction. */
  datatype Direction = LEFT | RIGHT | UP | DOWN | OUTWARDS

  function DirectionName(d: Direction): string
  {
    match d
    case LEFT => "LEFT"
    case RIGHT => "RIGHT"
    case UP => "UP"
    case DOWN => "DOWN"
    case OUTWARDS => "OUTWARDS"
  }

  /** Effect.Type.values() and Effect.Direction.values(), in declaration order. */
  const AllTypes: seq<EffectType> := [FLOW, EXPLODE, WHEEL, HIGHLIGHT, RANDOM, FADE, STATIC, CUSTOM, PLUGIN]
  const AllDirections: seq<Direction> := [LEFT, RIGHT, UP, DOWN, OUTWARDS]

  /** The text stored for a type and for a direction: toString().toLowerCase(). */
  function TypeText(t: EffectType): string { ToLower(TypeName(t)) }
  function DirectionText(d: Direction): string { ToLower(DirectionName(d)) }

  lemma AllTypesListed(t: EffectType)
    ensures t in AllTypes
  {
  }

  lemma AllDirectionsListed(d: Direction)
    ensures d in AllDirections
  {
  }

  /** Two types are stored as the same text only when they are the same type. */
  lemma TypeTextInjective(t: EffectType, u: EffectType)
    ensures TypeText(t) == TypeText(u) ==> t == u
  {
    UpperName(t);
    UpperName(u);
    UpperOfLower(TypeName(t));
    UpperOfLower(TypeName(u));
    NamedByName(t);
    NamedByName(u);
  }

  /** Every direction name is written in capital letters. */
  lemma UpperDirection(d: Direction)
    ensures forall i :: 0 <= i < |DirectionName(d)| ==> 'A' <= DirectionName(d)[i] <= 'Z'
  {
  }

  lemma DirectionTextInjective(d: Direction, e: Direction)
    ensures DirectionText(d) == DirectionText(e) ==> d == e
  {
    UpperDirection(d);
    UpperDirection(e);
    UpperOfLower(DirectionName(d));
    UpperOfLower(DirectionName(e));
  }

  // ---------------------------------------------------------------- fromJSON and toJSON

  /** The entries of a parsed object whose keys are in PROPERTIES_NAMES. */
  function KnownProperties(data: JsonObject): (props: Properties)
    ensures forall k :: k in props <==> k in data && k in PropertyNames
    ensures forall k :: k in props ==> props[k] == data[k]
  {
    map k | k in data && k in PropertyNames :: data[k]
  }

  /** Filtering twice keeps what filtering once kept. */
  lemma KnownPropertiesIdempotent(data: JsonObject)
    ensures KnownProperties(KnownProperties(data)) == KnownProperties(data)
  {
  }

  /** The object toJSON(writeCommand) builds: "command" first when writeCommand is
      neither null nor the "" literal, then every property. */
  function JsonOf(props: Properties, writeCommand: StringRef): (json: JsonObject)
    ensures forall k :: k != "command" ==> (k in json <==> k in props)
    ensures forall k :: k in props ==> k in json && json[k] == props[k]
    ensures "command" !in props ==>
      ("command" in json <==> NotNullNorEmptyLiteral(writeCommand)) &&
      ("command" in json ==> json["command"] == JString(writeCommand.text))
  {
    (if NotNullNorEmptyLiteral(writeCommand) then map["command" := JString(writeCommand.text)] else map[]) + props
  }

  /** fromJSON followed by toJSON(null) gives the known properties of the input back. */
  lemma FromJsonToJson(data: JsonObject)
    ensures JsonOf(KnownProperties(data), NullRef) == KnownProperties(data)
  {
  }

  // ---------------------------------------------------------------- plugin options

  /** getPluginOption's search from item i on: the first object named option, a
      ClassCastException at an item that is not an object, a JSONException at an
      object without "name". */
  function FirstOptionFrom(items: seq<Json>, option: string, i: nat): (r: Result<Option<JsonObject>>)
    requires i <= |items|
    ensures r.Ok? && r.value.Some? ==> Get(r.value.value, "name") == Ok(JString(option))
    decreases |items| - i
  {
    if i == |items| then Ok(None)
    else match items[i]
      case JObject(jo) =>
        if "name" !in jo then Err(JsonError)
        else if jo["name"] == JString(option) then Ok(Some(jo))
        else FirstOptionFrom(items, option, i + 1)
      case _ => Err(ClassCast)
  }

  /** getPluginOption(option): null without a "pluginOptions" property, a
      ClassCastException when it is not an array. */
  function PluginOptionOf(props: Properties, option: string): Result<Option<JsonObject>>
  {
    if "pluginOptions" !in props then Ok(None)
    else match props["pluginOptions"]
      case JArray(items) => FirstOptionFrom(items, option, 0)
      case _ => Err(ClassCast)
  }

  /** setPluginOption's scan of items[..k]: the last object named option, or the
      exception of the first item that is not an object or has no "name". */
  function LastOptionIn(items: seq<Json>, option: string, k: nat): (r: Result<Option<nat>>)
    requires k <= |items|
    ensures r.Ok? && r.value.Some? ==> r.value.value < k && items[r.value.value].JObject?
    ensures r.Ok? && r.value.Some? ==> Get(items[r.value.value].fields, "name") == Ok(JString(option))
  {
    if k == 0 then Ok(None)
    else
      var prev :- LastOptionIn(items, option, k - 1);
      match items[k - 1]
      case JObject(jo) =>
        if "name" !in jo then Err(JsonError)
        else if jo["name"] == JString(option) then Ok(Some(k - 1))
        else Ok(prev)
      case _ => Err(ClassCast)
  }

  /** setPluginOption(option, value): the last option named option gets the value;
      without one the options are put back unchanged. A missing "pluginOptions" is a
      NullPointerException at the loop. */
  function OptionSet(props: Properties, option: string, value: Json): (r: Result<Properties>)
    ensures r.Ok? ==> "pluginOptions" in props && props["pluginOptions"].JArray?
    ensures r.Ok? ==> r.value.Keys == props.Keys
    ensures r.Ok? ==> forall k :: k in props && k != "pluginOptions" ==> r.value[k] == props[k]
  {
    if "pluginOptions" !in props then Err(NullPointer)
    else match props["pluginOptions"]
      case JArray(items) =>
        var found :- LastOptionIn(items, option, |items|);
        if found.None? then Ok(props)
        else
          var i := found.value;
          Ok(props["pluginOptions" := JArray(items[i := JObject(items[i].fields["value" := value])])])
      case _ => Err(ClassCast)
  }

  // ---------------------------------------------------------------- safeGetProperty

  /** The Class argument of safeGetProperty. */
  datatype JavaType = IntegerType | DoubleType | BooleanType | StringType | ArrayType

  /** A JSON integer that org.json holds as an Integer: one within the range of int.
      A larger one is a Long or a BigInteger. */
  predicate IsInteger(v: Json)
  {
    v.JInt? && INT_MIN <= v.i <= INT_MAX
  }

  /** The two special cases of safeGetProperty: an Integer read as a Double is widened,
      and a null read as a String becomes the text "null". A Long is left as it is. */
  function Special(v: Json, t: JavaType): (r: Json)
    ensures t == DoubleType && IsInteger(v) ==> r == JDouble(v.i as real)
    ensures t == StringType && v == JNull ==> r == JString("null")
    ensures !(t == DoubleType && IsInteger(v)) && !(t == StringType && v == JNull) ==> r == v
  {
    if t == DoubleType && IsInteger(v) then JDouble(v.i as real)
    else if t == StringType && v == JNull then JString("null")
    else v
  }

  /** What safeGetProperty returns for an unset property: -1, -1.0, false or null. */
  function Default(t: JavaType): Option<Json>
  {
    match t
    case IntegerType => Some(JInt(-1))
    case DoubleType => Some(JDouble(-1.0))
    case BooleanType => Some(JBool(false))
    case _ => None
  }

  /** safeGetProperty(property, type): the property if it is set, else the value of the
      plugin option of that name, else the default. The option is looked up first,
      so its exceptions come even when the property is set. */
  function SafeGet(props: Properties, property: string, t: JavaType): (r: Result<Option<Json>>)
    ensures PluginOptionOf(props, property).Err? ==> r == Err(PluginOptionOf(props, property).error)
    ensures PluginOptionOf(props, property).Ok? && property in props ==> r == Ok(Some(Special(props[property], t)))
    ensures PluginOptionOf(props, property) == Ok(None) && property !in props ==> r == Ok(Default(t))
  {
    var option :- PluginOptionOf(props, property);
    if property in props then Ok(Some(Special(props[property], t)))
    else if option.Some? then
      var value :- Get(option.value, "value");
      Ok(Some(Special(value, t)))
    else Ok(Default(t))
  }

  /** A set property hides a plugin option of the same name. */
  lemma PropertyHidesOption(props: Properties, property: string, t: JavaType)
    requires PluginOptionOf(props, property).Ok? && property in props
    ensures SafeGet(props, property, t) == Ok(Some(Special(props[property], t)))
  {
  }

  /** Unboxing to boolean: a null is a NullPointerException, another type a
      ClassCastException. */
  function AsBoolean(v: Option<Json>): (r: Result<bool>)
    ensures r.Ok? <==> v.Some? && v.value.JBool?
  {
    match v
    case None => Err(NullPointer)
    case Some(JBool(b)) => Ok(b)
    case Some(_) => Err(ClassCast)
  }

  /** Unboxing to int: only an Integer is accepted. */
  function AsInteger(v: Option<Json>): (r: Result<Int32>)
    ensures r.Ok? <==> v.Some? && v.value.JInt? && INT_MIN <= v.value.i <= INT_MAX
  {
    match v
    case None => Err(NullPointer)
    case Some(JInt(i)) => if INT_MIN <= i <= INT_MAX then Ok(i) else Err(ClassCast)
    case Some(_) => Err(ClassCast)
  }

  /** Unboxing to double: only a Double is accepted. */
  function AsDouble(v: Option<Json>): (r: Result<real>)
    ensures r.Ok? <==> v.Some? && v.value.JDouble?
  {
    match v
    case None => Err(NullPointer)
    case Some(JDouble(d)) => Ok(d)
    case Some(_) => Err(ClassCast)
  }

  /** A Long-range property read as a Double is not widened, so the (Double) cast of
      getFlowFactor and getExplodeFactor fails, while an Integer one reads as its value. */
  lemma LongFactorIsClassCast(props: Properties, property: string)
    requires PluginOptionOf(props, property).Ok? && property in props && props[property].JInt?
    ensures !IsInteger(props[property]) ==> AsDouble(SafeGet(props, property, DoubleType).value) == Err(ClassCast)
    ensures IsInteger(props[property]) ==>
      AsDouble(SafeGet(props, property, DoubleType).value) == Ok(props[property].i as real)
  {
  }

  /** A cast to String: null stays null. */
  function AsString(v: Option<Json>): (r: Result<Option<string>>)
    ensures r.Ok? <==> v.None? || v.value.JString?
  {
    match v
    case None => Ok(None)
    case Some(JString(s)) => Ok(Some(s))
    case Some(_) => Err(ClassCast)
  }

  /** `(String)properties.get(key)`. */
  function Stored(props: Properties, key: string): (r: Result<Option<string>>)
    ensures key !in props ==> r == Ok(None)
    ensures key in props ==> r == AsString(Some(props[key]))
  {
    AsString(if key in props then Some(props[key]) else None)
  }

  /** Read through the getters, a property that is set to one value and no plugin
      option of that name is in the way reads back as that value. */
  lemma GettersReadProperties(props: Properties, property: string, v: Json)
    requires PluginOptionOf(props, property).Ok? && property in props && props[property] == v
    ensures v.JBool? ==> SafeGet(props, property, BooleanType).value == Some(v)
    ensures v.JString? ==> SafeGet(props, property, StringType).value == Some(v)
    ensures v.JInt? ==> SafeGet(props, property, IntegerType).value == Some(v)
    ensures v.JDouble? ==> SafeGet(props, property, DoubleType).value == Some(v)
  {
  }

  /** getLoop, getTransTime and friends on an effect with nothing set. */
  lemma UnsetDefaults(property: string)
    ensures AsBoolean(SafeGet(map[], property, BooleanType).value) == Ok(false)
    ensures AsInteger(SafeGet(map[], property, IntegerType).value) == Ok(-1)
    ensures AsDouble(SafeGet(map[], property, DoubleType).value) == Ok(-1.0)
    ensures AsString(SafeGet(map[], property, StringType).value) == Ok(None)
  {
  }

  // ---------------------------------------------------------------- ranges

  /** The two bounds of a range property. */
  datatype Bound = Max | Min

  function BoundKey(b: Bound): string
  {
    match b
    case Max => "maxValue"
    case Min => "minValue"
  }

  function Other(b: Bound): Bound
  {
    match b
    case Max => Min
    case Min => Max
  }

  /** safeGetMaxMinProperty(property, maxMin) cast to int: -1 when the range is not
      set, the bound otherwise; a range without that bound unboxes null. */
  function RangeBound(props: Properties, property: string, b: Bound): (r: Result<Int32>)
    ensures property !in props ==> r == Ok(-1)
    ensures property in props && props[property].JObject? ==>
      r == AsInteger(Opt(props[property].fields, BoundKey(b)))
    ensures property in props && !props[property].JObject? ==> r == Err(ClassCast)
  {
    if property !in props then Ok(-1)
    else match props[property]
      case JObject(range) => AsInteger(Opt(range, BoundKey(b)))
      case _ => Err(ClassCast)
  }

  /** safeSetMaxMinProperty(property, maxMin, value): the bound of the range is set; a
      missing range is first created as {maxValue: 0, minValue: 0}. */
  function RangeSet(props: Properties, property: string, b: Bound, value: Int32): (r: Result<Properties>)
  {
    if property !in props then
      Ok(props[property := JObject(map["maxValue" := JInt(0), "minValue" := JInt(0)][BoundKey(b) := JInt(value)])])
    else match props[property]
      case JObject(range) => Ok(props[property := JObject(range[BoundKey(b) := JInt(value)])])
      case _ => Err(ClassCast)
  }

  /** Setting a bound makes it read back as the value, and leaves every other property as
      it was. */
  lemma RangeSetGet(props: Properties, property: string, b: Bound, value: Int32)
    requires RangeSet(props, property, b, value).Ok?
    ensures RangeBound(RangeSet(props, property, b, value).value, property, b) == Ok(value)
    ensures forall k :: k != property ==> (k in RangeSet(props, property, b, value).value <==> k in props)
    ensures forall k :: k in props && k != property ==> RangeSet(props, property, b, value).value[k] == props[k]
  {
  }

  /** Setting one bound of an absent range makes the other bound read 0. */
  lemma RangeSetFresh(props: Properties, property: string, b: Bound, value: Int32)
    requires property !in props
    ensures RangeSet(props, property, b, value).Ok?
    ensures RangeBound(RangeSet(props, property, b, value).value, property, Other(b)) == Ok(0)
  {
  }

  /** Setting one bound of an existing range leaves the other bound as it read before. */
  lemma RangeSetKeepsOther(props: Properties, property: string, b: Bound, value: Int32)
    requires property in props && props[property].JObject?
    ensures RangeSet(props, property, b, value).Ok?
    ensures RangeBound(RangeSet(props, property, b, value).value, property, Other(b)) == RangeBound(props, property, Other(b))
  {
  }

  /** The range is an object, one way or the other, after a set. */
  lemma RangeSetObject(props: Properties, property: string, b: Bound, value: Int32)
    requires RangeSet(props, property, b, value).Ok?
    ensures property in RangeSet(props, property, b, value).value
    ensures RangeSet(props, property, b, value).value[property].JObject?
    ensures RangeSet(props, property, b, value) == Ok(RangeSet(props, property, b, value).value)
  {
  }

  /** setTransTime, setDelayTime and setBrightness: both bounds set, maximum first. */
  function BothSet(props: Properties, property: string, value: Int32): (r: Result<Properties>)
  {
    var p :- RangeSet(props, property, Max, value);
    RangeSet(p, property, Min, value)
  }

  /** After setTransTime(v), setDelayTime(v) or setBrightness(v) both bounds read v;
      only a range property that is not an object makes them fail. */
  lemma BothSetGet(props: Properties, property: string, value: Int32)
    ensures BothSet(props, property, value).Ok? <==> property !in props || props[property].JObject?
    ensures BothSet(props, property, value).Ok? ==>
      RangeBound(BothSet(props, property, value).value, property, Max) == Ok(value) &&
      RangeBound(BothSet(props, property, value).value, property, Min) == Ok(value)
  {
    if property !in props || props[property].JObject? {
      var p := RangeSet(props, property, Max, value).value;
      RangeSetGet(props, property, Max, value);
      RangeSetObject(props, property, Max, value);
      RangeSetKeepsOther(p, property, Min, value);
      RangeSetGet(p, property, Min, value);
    }
  }

  // ---------------------------------------------------------------- the palette

  /** One colour object of setPalette: "probability" taken out when it is -1; an
      object without a numeric probability is a JSONException at getDouble. */
  function Cleaned(o: JsonObject): (r: Result<JsonObject>)
    ensures r.Ok? <==> GetDouble(o, "probability").Ok?
    ensures r.Ok? && o["probability"] == JDouble(-1.0) ==> r.value == o - {"probability"}
    ensures r.Ok? && o["probability"] == JInt(-1) ==> r.value == o - {"probability"}
    ensures r.Ok? && GetDouble(o, "probability").value != -1.0 ==> r.value == o
  {
    var p :- GetDouble(o, "probability");
    Ok(if p == -1.0 then o - {"probability"} else o)
  }

  predicate AllCleaned(palette: seq<JsonObject>)
  {
    forall j :: 0 <= j < |palette| ==> Cleaned(palette[j]).Ok?
  }

  /** A probability given as the text "0.5" is read by getDouble and kept. */
  lemma CleanedTextProbability(o: JsonObject)
    requires "probability" in o && o["probability"] == JString("0.5")
    ensures Cleaned(o) == Ok(o)
  {
    GetDoubleOfText(o, "probability");
  }

  function CleanedAll(palette: seq<JsonObject>): (arr: seq<Json>)
    requires AllCleaned(palette)
    ensures |arr| == |palette| && forall j :: 0 <= j < |palette| ==> arr[j] == JObject(Cleaned(palette[j]).value)
  {
    seq(|palette|, j requires 0 <= j < |palette| => JObject(Cleaned(palette[j]).value))
  }

  // ---------------------------------------------------------------- the effect

  class NanoleafEffect {
    var properties: Properties

    /** new Effect(): no properties. */
    constructor()
      ensures properties == map[]
    {
      properties := map[];
    }

    /** `put` of a plain setter (setName, setVersion, setWindowSize, setFlowFactor,
        setColorType, setPluginType, setExplodeFactor, setPluginUuid, setAnimData). */
    method Put(key: string, value: Json)
      modifies this
      ensures properties == old(properties)[key := value]
    {
      properties := properties[key := value];
    }

    /** toJSON(writeCommand), as the object whose text it returns. */
    method ToJson(writeCommand: StringRef) returns (json: JsonObject)
      ensures json == JsonOf(properties, writeCommand)
    {
      json := map[];
      if NotNullNorEmptyLiteral(writeCommand) {
        json := json["command" := JString(writeCommand.text)];
      }
      ghost var start := json;
      var keys := properties.Keys;
      while keys != {}
        invariant keys <= properties.Keys
        invariant json == start + map k | k in properties && k !in keys :: properties[k]
        decreases keys
      {
        var key :| key in keys;
        json := json[key := properties[key]];
        keys := keys - {key};
      }
    }

    /** getPluginOption(option). */
    method GetPluginOption(option: string) returns (r: Result<Option<JsonObject>>)
      ensures r == PluginOptionOf(properties, option)
    {
      if "pluginOptions" !in properties {
        return Ok(None);
      }
      var options := properties["pluginOptions"];
      if !options.JArray? {
        return Err(ClassCast);
      }
      var items := options.items;
      for i := 0 to |items|
        invariant FirstOptionFrom(items, option, i) == FirstOptionFrom(items, option, 0)
      {
        var o := items[i];
        if !o.JObject? {
          return Err(ClassCast);
        }
        if "name" !in o.fields {
          return Err(JsonError);
        }
        if o.fields["name"] == JString(option) {
          return Ok(Some(o.fields));
        }
      }
      return Ok(None);
    }

    /** setPluginOption(option, value). */
    method SetPluginOption(option: string, value: Json) returns (outcome: Outcome)
      modifies this
      ensures OptionSet(old(properties), option, value).Ok? ==>
        outcome == Done && properties == OptionSet(old(properties), option, value).value
      ensures OptionSet(old(properties), option, value).Err? ==>
        outcome == Throws(OptionSet(old(properties), option, value).error) && properties == old(properties)
    {
      if "pluginOptions" !in properties {
        return Throws(NullPointer);
      }
      var options := properties["pluginOptions"];
      if !options.JArray? {
        return Throws(ClassCast);
      }
      var items := options.items;
      var found: Option<nat> := None;
      for i := 0 to |items|
        invariant LastOptionIn(items, option, i) == Ok(found)
      {
        var o := items[i];
        if !o.JObject? {
          LastOptionErr(items, option, i + 1, |items|);
          return Throws(ClassCast);
        }
        if "name" !in o.fields {
          LastOptionErr(items, option, i + 1, |items|);
          return Throws(JsonError);
        }
        if o.fields["name"] == JString(option) {
          found := Some(i);
        }
      }
      if found.Some? {
        var i := found.value;
        items := items[i := JObject(items[i].fields["value" := value])];
      } else {
        assert properties["pluginOptions" := JArray(items)] == properties;
      }
      properties := properties["pluginOptions" := JArray(items)];
      outcome := Done;
    }

    /** safeGetProperty(property, type). */
    method SafeGetProperty(property: string, t: JavaType) returns (r: Result<Option<Json>>)
      ensures r == SafeGet(properties, property, t)
    {
      var option := GetPluginOption(property);
      if option.Err? {
        return Err(option.error);
      }
      if property in properties {
        return Ok(Some(Special(properties[property], t)));
      } else if option.value.Some? {
        var value := Get(option.value.value, "value");
        if value.Err? {
          return Err(value.error);
        }
        return Ok(Some(Special(value.value, t)));
      }
      return Ok(Default(t));
    }

    /** getLoop(). */
    method GetLoop() returns (r: Result<bool>)
      ensures SafeGet(properties, "loop", BooleanType).Err? ==> r == Err(SafeGet(properties, "loop", BooleanType).error)
      ensures SafeGet(properties, "loop", BooleanType).Ok? ==> r == AsBoolean(SafeGet(properties, "loop", BooleanType).value)
    {
      var v := SafeGetProperty("loop", BooleanType);
      if v.Err? {
        return Err(v.error);
      }
      r := AsBoolean(v.value);
    }

    /** getWindowSize(). */
    method GetWindowSize() returns (r: Result<Int32>)
      ensures SafeGet(properties, "windowSize", IntegerType).Err? ==> r == Err(SafeGet(properties, "windowSize", IntegerType).error)
      ensures SafeGet(properties, "windowSize", IntegerType).Ok? ==> r == AsInteger(SafeGet(properties, "windowSize", IntegerType).value)
    {
      var v := SafeGetProperty("windowSize", IntegerType);
      if v.Err? {
        return Err(v.error);
      }
      r := AsInteger(v.value);
    }

    /** getFlowFactor() and getExplodeFactor(), by property name. */
    method GetFactor(property: string) returns (r: Result<real>)
      ensures SafeGet(properties, property, DoubleType).Err? ==> r == Err(SafeGet(properties, property, DoubleType).error)
      ensures SafeGet(properties, property, DoubleType).Ok? ==> r == AsDouble(SafeGet(properties, property, DoubleType).value)
    {
      var v := SafeGetProperty(property, DoubleType);
      if v.Err? {
        return Err(v.error);
      }
      r := AsDouble(v.value);
    }

    /** getColorType(), getPluginType(), getPluginUuid() and getAnimData(), by property
        name. */
    method GetText(property: string) returns (r: Result<Option<string>>)
      ensures SafeGet(properties, property, StringType).Err? ==> r == Err(SafeGet(properties, property, StringType).error)
      ensures SafeGet(properties, property, StringType).Ok? ==> r == AsString(SafeGet(properties, property, StringType).value)
    {
      var v := SafeGetProperty(property, StringType);
      if v.Err? {
        return Err(v.error);
      }
      r := AsString(v.value);
    }

    /** getAnimType(): the type whose lower-case name is the stored text, the last one
        in declaration order; null when none matches. */
    method GetAnimType() returns (r: Result<Option<EffectType>>)
      ensures Stored(properties, "animType").Err? ==> r == Err(ClassCast)
      ensures Stored(properties, "animType").Ok? ==> r.Ok?
      ensures r.Ok? && r.value.Some? ==> Stored(properties, "animType") == Ok(Some(TypeText(r.value.value)))
      ensures r.Ok? && r.value.None? ==> forall t :: Stored(properties, "animType") != Ok(Some(TypeText(t)))
    {
      var stored := Stored(properties, "animType");
      if stored.Err? {
        return Err(ClassCast);
      }
      var t := LastNamed(AllTypes, TypeText, stored.value);
      forall u | t.None? ensures stored.value != Some(TypeText(u)) {
        AllTypesListed(u);
      }
      return Ok(t);
    }

    /** setAnimType(type): the lower-case name is stored; null is a
        NullPointerException and changes nothing. */
    method SetAnimType(t: Option<EffectType>) returns (outcome: Outcome)
      modifies this
      ensures t.None? ==> outcome == Throws(NullPointer) && properties == old(properties)
      ensures t.Some? ==> outcome == Done && properties == old(properties)["animType" := JString(TypeText(t.value))]
    {
      if t.None? {
        return Throws(NullPointer);
      }
      properties := properties["animType" := JString(TypeText(t.value))];
      outcome := Done;
    }

    /** setAnimType(t) followed by getAnimType() gives t back. */
    method SetThenGetAnimType(t: EffectType) returns (r: Result<Option<EffectType>>)
      modifies this
      ensures properties == old(properties)["animType" := JString(TypeText(t))]
      ensures r == Ok(Some(t))
    {
      var outcome := SetAnimType(Some(t));
      r := GetAnimType();
      assert Stored(properties, "animType") == Ok(Some(TypeText(t)));
      if r.value.Some? {
        TypeTextInjective(r.value.value, t);
      }
    }

    /** getDirection(), as getAnimType. */
    method GetDirection() returns (r: Result<Option<Direction>>)
      ensures Stored(properties, "direction").Err? ==> r == Err(ClassCast)
      ensures Stored(properties, "direction").Ok? ==> r.Ok?
      ensures r.Ok? && r.value.Some? ==> Stored(properties, "direction") == Ok(Some(DirectionText(r.value.value)))
      ensures r.Ok? && r.value.None? ==> forall d :: Stored(properties, "direction") != Ok(Some(DirectionText(d)))
    {
      var stored := Stored(properties, "direction");
      if stored.Err? {
        return Err(ClassCast);
      }
      var d := LastNamed(AllDirections, DirectionText, stored.value);
      forall e | d.None? ensures stored.value != Some(DirectionText(e)) {
        AllDirectionsListed(e);
      }
      return Ok(d);
    }

    /** setDirection(direction), as setAnimType. */
    method SetDirection(d: Option<Direction>) returns (outcome: Outcome)
      modifies this
      ensures d.None? ==> outcome == Throws(NullPointer) && properties == old(properties)
      ensures d.Some? ==> outcome == Done && properties == old(properties)["direction" := JString(DirectionText(d.value))]
    {
      if d.None? {
        return Throws(NullPointer);
      }
      properties := properties["direction" := JString(DirectionText(d.value))];
      outcome := Done;
    }

    /** setDirection(d) followed by getDirection() gives d back. */
    method SetThenGetDirection(d: Direction) returns (r: Result<Option<Direction>>)
      modifies this
      ensures properties == old(properties)["direction" := JString(DirectionText(d))]
      ensures r == Ok(Some(d))
    {
      var outcome := SetDirection(Some(d));
      r := GetDirection();
      assert Stored(properties, "direction") == Ok(Some(DirectionText(d)));
      if r.value.Some? {
        DirectionTextInjective(r.value.value, d);
      }
    }

    /** setPalette(palette), given the palette's colours as JSON objects: each one
        loses a probability of -1. A null palette is a NullPointerException; a colour
        without a probability fails at getDouble. Either way nothing changes. */
    method SetPalette(palette: Option<seq<JsonObject>>) returns (outcome: Outcome)
      modifies this
      ensures palette.None? ==> outcome == Throws(NullPointer) && properties == old(properties)
      ensures palette.Some? && !AllCleaned(palette.value) ==> outcome == Throws(JsonError) && properties == old(properties)
      ensures palette.Some? && AllCleaned(palette.value) ==>
        outcome == Done && properties == old(properties)["palette" := JArray(CleanedAll(palette.value))]
    {
      if palette.None? {
        return Throws(NullPointer);
      }
      var p := palette.value;
      var arr := seq(|p|, j requires 0 <= j < |p| => JObject(p[j]));
      for i := 0 to |p|
        invariant |arr| == |p|
        invariant forall j :: 0 <= j < i ==> Cleaned(p[j]).Ok? && arr[j] == JObject(Cleaned(p[j]).value)
        invariant forall j :: i <= j < |p| ==> arr[j] == JObject(p[j])
      {
        var probability := GetDouble(p[i], "probability");
        if probability.Err? {
          return Throws(JsonError);
        }
        if probability.value == -1.0 {
          arr := arr[i := JObject(p[i] - {"probability"})];
        }
      }
      assert arr == CleanedAll(p);
      properties := properties["palette" := JArray(arr)];
      outcome := Done;
    }

    /** safeSetProperty(property, value): for a PLUGIN effect of version "2.0" the
        plugin option of that name is set instead of the property. */
    method SafeSetProperty(property: string, value: Json) returns (outcome: Outcome)
      modifies this
      ensures SafeSet(old(properties), property, value).Ok? ==>
        outcome == Done && properties == SafeSet(old(properties), property, value).value
      ensures SafeSet(old(properties), property, value).Err? ==>
        outcome == Throws(SafeSet(old(properties), property, value).error) && properties == old(properties)
    {
      var t := GetAnimType();
      if t.Err? {
        return Throws(t.error);
      }
      if t.value == Some(PLUGIN) {
        var version := Stored(properties, "version");
        if version.Err? {
          return Throws(ClassCast);
        }
        if version.value.None? {
          return Throws(NullPointer);
        }
        if version.value.value == "2.0" {
          outcome := SetPluginOption(property, value);
          return;
        }
      } else if t.value.Some? {
        TypeTextInjective(t.value.value, PLUGIN);
      }
      properties := properties[property := value];
      outcome := Done;
    }

    /** setLoop(loop). */
    method SetLoop(loop: bool) returns (outcome: Outcome)
      modifies this
      ensures SafeSet(old(properties), "loop", JBool(loop)).Ok? ==>
        outcome == Done && properties == SafeSet(old(properties), "loop", JBool(loop)).value
      ensures SafeSet(old(properties), "loop", JBool(loop)).Err? ==>
        outcome == Throws(SafeSet(old(properties), "loop", JBool(loop)).error) && properties == old(properties)
    {
      outcome := SafeSetProperty("loop", JBool(loop));
    }

    /** getMaxTransTime() and the five other bound getters, by property and bound. */
    function GetBound(property: string, b: Bound): (r: Result<Int32>)
      reads this
      ensures r == RangeBound(properties, property, b)
    {
      RangeBound(properties, property, b)
    }

    /** safeSetMaxMinProperty, behind setMaxTransTime and the five other bound
        setters. */
    method SetBound(property: string, b: Bound, value: Int32) returns (outcome: Outcome)
      modifies this
      ensures RangeSet(old(properties), property, b, value).Ok? ==>
        outcome == Done && properties == RangeSet(old(properties), property, b, value).value
      ensures RangeSet(old(properties), property, b, value).Err? ==>
        outcome == Throws(ClassCast) && properties == old(properties)
    {
      if property !in properties {
        var range := map["maxValue" := JInt(0), "minValue" := JInt(0)];
        range := range[BoundKey(b) := JInt(value)];
        properties := properties[property := JObject(range)];
        return Done;
      }
      var range := properties[property];
      if !range.JObject? {
        return Throws(ClassCast);
      }
      properties := properties[property := JObject(range.fields[BoundKey(b) := JInt(value)])];
      outcome := Done;
    }

    /** setTransTime, setDelayTime and setBrightness, by property name ("transTime",
        "delayTime", "brightnessRange"). */
    method SetRange(property: string, value: Int32) returns (outcome: Outcome)
      modifies this
      ensures BothSet(old(properties), property, value).Ok? ==>
        outcome == Done && properties == BothSet(old(properties), property, value).value
      ensures BothSet(old(properties), property, value).Err? ==>
        outcome == Throws(ClassCast) && properties == old(properties)
    {
      outcome := SetBound(property, Max, value);
      if outcome.Throws? {
        return;
      }
      RangeSetObject(old(properties), property, Max, value);
      outcome := SetBound(property, Min, value);
    }
  }

  /** fromJSON(json), from the parsed object: the properties with known names. */
  method FromJson(data: JsonObject) returns (ef: NanoleafEffect)
    ensures fresh(ef) && ef.properties == KnownProperties(data)
  {
    ef := new NanoleafEffect();
    for i := 0 to |PropertyNames|
      invariant ef.properties == map k | k in data && k in PropertyNames[..i] :: data[k]
    {
      var property := PropertyNames[i];
      assert forall k :: k in PropertyNames[..i + 1] <==> k in PropertyNames[..i] || k == property;
      if property in data {
        ef.Put(property, data[property]);
      }
    }
    assert PropertyNames[..|PropertyNames|] == PropertyNames;
  }

  /** The loop of getAnimType and getDirection: the last value whose name is the text;
      none for a null text. */
  method LastNamed<T>(values: seq<T>, name: T -> string, text: Option<string>) returns (r: Option<T>)
    ensures r.Some? ==> r.value in values && text == Some(name(r.value))
    ensures r.None? ==> forall v :: v in values ==> text != Some(name(v))
  {
    r := None;
    for i := 0 to |values|
      invariant r.Some? ==> r.value in values && text == Some(name(r.value))
      invariant r.None? ==> forall j :: 0 <= j < i ==> text != Some(name(values[j]))
    {
      if Some(name(values[i])) == text {
        r := Some(values[i]);
      }
    }
  }

  lemma {:induction false} LastOptionErr(items: seq<Json>, option: string, k: nat, n: nat)
    requires k <= n <= |items| && LastOptionIn(items, option, k).Err?
    ensures LastOptionIn(items, option, n) == Err(LastOptionIn(items, option, k).error)
    decreases n - k
  {
    if k < n {
      LastOptionErr(items, option, k, n - 1);
    }
  }

  /** safeSetProperty(property, value) on the map: a PLUGIN effect whose version is
      "2.0" has the plugin option set instead; a PLUGIN effect without a version is a
      NullPointerException at getVersion().equals. */
  function SafeSet(props: Properties, property: string, value: Json): (r: Result<Properties>)
  {
    var stored :- Stored(props, "animType");
    if stored == Some(TypeText(PLUGIN)) then
      var version :- Stored(props, "version");
      if version.None? then Err(NullPointer)
      else if version.value == "2.0" then OptionSet(props, property, value)
      else Ok(props[property := value])
    else Ok(props[property := value])
  }

  /** A PLUGIN effect of version "2.0" keeps its properties: only an existing plugin
      option of that name changes, and without one nothing changes at all. */
  lemma PluginSetOnlyOptions(props: Properties, property: string, value: Json)
    requires Stored(props, "animType") == Ok(Some(TypeText(PLUGIN))) && Stored(props, "version") == Ok(Some("2.0"))
    requires SafeSet(props, property, value).Ok?
    ensures SafeSet(props, property, value).value.Keys == props.Keys
    ensures forall k :: k in props && k != "pluginOptions" ==> SafeSet(props, property, value).value[k] == props[k]
    ensures LastOptionIn(props["pluginOptions"].items, property, |props["pluginOptions"].items|) == Ok(None) ==>
      SafeSet(props, property, value).value == props
  {
  }

  /** Any other effect gets the property itself. */
  lemma OtherSetProperty(props: Properties, property: string, value: Json)
    requires Stored(props, "animType").Ok? && Stored(props, "animType") != Ok(Some(TypeText(PLUGIN)))
    ensures SafeSet(props, property, value) == Ok(props[property := value])
  {
  }
}
