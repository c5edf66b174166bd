/** The org.json value model: a parsed JSON value, and the getters of JSONObject with
    the exceptions they throw. The text grammar (parsing and toString) is not modelled:
    objects are handled as finite maps from keys to values. */
module Json {
  import opened Wrappers
  import opened JavaText

  datatype Json =
    | JNull                               // JSONObject.NULL
    | JBool(b: bool)
    | JInt(i: int)                        // an integral Integer, Long or BigInteger
    | JDouble(d: real)                    // a Double
    | JString(s: string)
    | JArray(items: seq<Json>)
    | JObject(fields: map<string, Json>)

  type JsonObject = map<string, Json>

  /** Java's `(int)` cast of a double: truncation toward zero, saturating at the
      bounds of `int`. */
  function DoubleToInt(d: real): (r: Int32)
    ensures d >= INT_MAX as real ==> r == INT_MAX
    ensures d <= INT_MIN as real ==> r == INT_MIN
    ensures 0.0 <= d < INT_MAX as real ==> r as real <= d < (r + 1) as real
    ensures INT_MIN as real < d < 0.0 ==> (r - 1) as real < d <= r as real
  {
    if d >= INT_MAX as real then INT_MAX
    else if d <= INT_MIN as real then INT_MIN
    else if d >= 0.0 then d.Floor
    else -((-d).Floor)
  }

  /** JSONObject.get: the value, or JSONException when the key is absent. */
  function Get(o: JsonObject, key: string): (r: Result<Json>)
    ensures r.Ok? <==> key in o
    ensures r.Ok? ==> r.value == o[key]
    ensures r.Err? ==> r.error == JsonError
  {
    if key in o then Ok(o[key]) else Err(JsonError)
  }

  /** JSONObject.opt: the value, or null when the key is absent. */
  function Opt(o: JsonObject, key: string): (r: Option<Json>)
    ensures r.Some? <==> key in o
    ensures r.Some? ==> r.value == o[key]
  {
    if key in o then Some(o[key]) else None
  }

  /** Number.intValue() of a JSON number, Integer.parseInt of a string. */
  function AsInt(v: Json): (r: Result<Int32>)
    ensures v.JInt? ==> r == Ok(Wrap32(v.i))
    ensures r.Ok? ==> v.JInt? || v.JDouble? || v.JString?
  {
    match v
    case JInt(i) => Ok(Wrap32(i))
    case JDouble(d) => Ok(DoubleToInt(d))
    case JString(s) => if ParseInt(s).Some? then Ok(ParseInt(s).value) else Err(JsonError)
    case _ => Err(JsonError)
  }

  /** JSONObject.getInt. */
  function GetInt(o: JsonObject, key: string): (r: Result<Int32>)
    ensures key !in o ==> r == Err(JsonError)
    ensures key in o && o[key].JInt? && INT_MIN <= o[key].i <= INT_MAX ==> r == Ok(o[key].i)
    ensures r.Err? ==> r.error == JsonError
  {
    if key in o then AsInt(o[key]) else Err(JsonError)
  }

  /** JSONObject.getBoolean: a Boolean, or the string "true" / "false" in any case. */
  function GetBoolean(o: JsonObject, key: string): (r: Result<bool>)
    ensures key in o && o[key].JBool? ==> r == Ok(o[key].b)
    ensures r.Ok? ==> key in o && (o[key].JBool? || o[key].JString?)
    ensures r.Err? ==> r.error == JsonError
  {
    if key !in o then Err(JsonError)
    else match o[key]
      case JBool(b) => Ok(b)
      case JString(s) =>
        if ToLower(s) == "true" then Ok(true)
        else if ToLower(s) == "false" then Ok(false)
        else Err(JsonError)
      case _ => Err(JsonError)
  }

  /** JSONObject.getString: only a string value is accepted. */
  function GetString(o: JsonObject, key: string): (r: Result<string>)
    ensures r.Ok? <==> key in o && o[key].JString?
    ensures r.Ok? ==> r.value == o[key].s
    ensures r.Err? ==> r.error == JsonError
  {
    if key in o && o[key].JString? then Ok(o[key].s) else Err(JsonError)
  }

  /** JSONObject.getDouble: a number's doubleValue(), or Double.parseDouble of a string. */
  function GetDouble(o: JsonObject, key: string): (r: Result<real>)
    ensures r.Ok? <==> key in o && (o[key].JInt? || o[key].JDouble? || (o[key].JString? && ParseDecimal(o[key].s).Some?))
    ensures r.Ok? && o[key].JDouble? ==> r.value == o[key].d
    ensures r.Ok? && o[key].JInt? ==> r.value == o[key].i as real
    ensures r.Ok? && o[key].JString? ==> r.value == ParseDecimal(o[key].s).value
    ensures r.Err? ==> r.error == JsonError
  {
    if key !in o then Err(JsonError)
    else match o[key]
      case JInt(i) => Ok(i as real)
      case JDouble(d) => Ok(d)
      case JString(s) => if ParseDecimal(s).Some? then Ok(ParseDecimal(s).value) else Err(JsonError)
      case _ => Err(JsonError)
  }

  /** getDouble reads a numeric string as the number it spells. */
  lemma GetDoubleOfText(o: JsonObject, key: string)
    requires key in o && o[key] == JString("0.5")
    ensures GetDouble(o, key) == Ok(0.5)
  {
    ParseHalf();
  }

  /** JSONObject.getJSONObject. */
  function GetObject(o: JsonObject, key: string): (r: Result<JsonObject>)
    ensures r.Ok? <==> key in o && o[key].JObject?
    ensures r.Ok? ==> r.value == o[key].fields
    ensures r.Err? ==> r.error == JsonError
  {
    if key in o && o[key].JObject? then Ok(o[key].fields) else Err(JsonError)
  }

  /** JSONObject.getJSONArray. */
  function GetArray(o: JsonObject, key: string): (r: Result<seq<Json>>)
    ensures r.Ok? <==> key in o && o[key].JArray?
    ensures r.Ok? ==> r.value == o[key].items
    ensures r.Err? ==> r.error == JsonError
  {
    if key in o && o[key].JArray? then Ok(o[key].items) else Err(JsonError)
  }
}
