/** io.github.rowak.nanoleafapi.schedule.ScheduleEffects, with the RandomType enum it
    refers to: whether a schedule switches to a named effect or to a random one. */
module ScheduleEffectsModel {
  import opened Wrappers
  import opened JavaText
  import opened Json

  /** RandomType and the integer each constant carries. */
  datatype RandomType = NONE | ALL | COLOR | RHYTHM
  {
    function Value(): int
    {
      match this
      case NONE => -1
      case ALL => 0
      case COLOR => 1
      case RHYTHM => 2
    }

    /** Enum.name(), the text org.json writes for an enum value. */
    function Name(): string
    {
      match this
      case NONE => "NONE"
      case ALL => "ALL"
      case COLOR => "COLOR"
      case RHYTHM => "RHYTHM"
    }
  }

  /** getValue() as a function value. */
  const RandomCode: RandomType -> int := (t: RandomType) => t.Value()

  /** RandomType.values(), in declaration order. */
  const RandomTypes: seq<RandomType> := [NONE, ALL, COLOR, RHYTHM]

  /** ScheduleEffects.getRandomTypeFromInt. */
  function RandomTypeFromInt(v: int): Option<RandomType>
  {
    FirstWithValue(RandomTypes, RandomCode, v)
  }

  /** getRandomTypeFromInt inverts getValue, and knows no other integer. */
  lemma RandomTypeFromValue(t: RandomType, v: int)
    ensures RandomTypeFromInt(t.Value()) == Some(t)
    ensures RandomTypeFromInt(v).Some? <==> -1 <= v <= 2
  {
    assert t in RandomTypes;
    if -1 <= v <= 2 {
      assert RandomCode(RandomTypes[v + 1]) == v;
    }
  }

  /** The fields of a ScheduleEffects; null is None. */
  datatype EffectsData = EffectsData(randomOn: bool, randomType: Option<RandomType>, effectName: Option<string>)

  /** ScheduleEffects.toJSON. random_type is put as the enum object, which the text
      form carries as its name; put with null removes the key. "effect" is
      {"animName": name}, or JSONObject.NULL when there is no name. */
  function EffectsToJson(e: EffectsData): (o: JsonObject)
    ensures o.Keys == {"random_on", "effect"} + (if e.randomType.Some? then {"random_type"} else {})
    ensures o["random_on"] == JBool(e.randomOn)
    ensures e.effectName.Some? <==> o["effect"].JObject?
    ensures e.effectName.None? <==> o["effect"] == JNull
    ensures e.effectName.Some? ==> GetString(o["effect"].fields, "animName") == Ok(e.effectName.value)
  {
    var effect := if e.effectName.Some? then JObject(map["animName" := JString(e.effectName.value)]) else JNull;
    var base := map["random_on" := JBool(e.randomOn), "effect" := effect];
    if e.randomType.Some? then base["random_type" := JString(e.randomType.value.Name())] else base
  }

  /** ScheduleEffects.fromJSON. A missing or non-object "effect" (null included) is
      caught and leaves the name null; an "effect" object without a string animName
      is a JSONException. */
  function EffectsFromJson(o: JsonObject): (r: Result<EffectsData>)
    ensures r.Err? ==> r.error == JsonError
    ensures r.Ok? ==> GetBoolean(o, "random_on") == Ok(r.value.randomOn)
    ensures r.Ok? ==> GetInt(o, "random_type").Ok? && r.value.randomType == RandomTypeFromInt(GetInt(o, "random_type").value)
    ensures r.Ok? ==> (r.value.effectName.Some? <==> "effect" in o && o["effect"].JObject?)
  {
    var randomOn :- GetBoolean(o, "random_on");
    var code :- GetInt(o, "random_type");
    var effect := GetObject(o, "effect");
    if effect.Err? then Ok(EffectsData(randomOn, RandomTypeFromInt(code), None))
    else
      var name :- GetString(effect.value, "animName");
      Ok(EffectsData(randomOn, RandomTypeFromInt(code), Some(name)))
  }

  /** No toJSON output reads back: random_type is either absent or an enum name, and
      getInt accepts neither. */
  lemma EffectsNotReadBack(e: EffectsData)
    ensures EffectsFromJson(EffectsToJson(e)) == Err(JsonError)
  {
    var o := EffectsToJson(e);
    if e.randomType.Some? {
      var name := e.randomType.value.Name();
      assert !IsDigit(name[0]) && name[0] != '-' && name[0] != '+';
      assert ParseInt(name) == None;
    }
  }

  /** With random_type given as the integer the Aurora uses, fromJSON reads every
      field of toJSON's output back. */
  lemma EffectsReadBackByCode(e: EffectsData, t: RandomType)
    requires e.randomType == Some(t)
    ensures EffectsFromJson(EffectsToJson(e)["random_type" := JInt(t.Value())]) == Ok(e)
  {
    RandomTypeFromValue(t, t.Value());
  }

  class ScheduleEffects {
    var randomOn: bool
    var randomType: Option<RandomType>
    var effectName: Option<string>

    function Value(): EffectsData
      reads this
    {
      EffectsData(randomOn, randomType, effectName)
    }

    /** new ScheduleEffects(randomOn, randomType, effectName): stored as given. */
    constructor(randomOn: bool, randomType: Option<RandomType>, effectName: Option<string>)
      ensures Value() == EffectsData(randomOn, randomType, effectName)
    {
      this.randomOn := randomOn;
      this.randomType := randomType;
      this.effectName := effectName;
    }

    method SetRandomOn(on: bool)
      modifies this
      ensures Value() == old(Value()).(randomOn := on)
    {
      randomOn := on;
    }

    method SetRandomType(t: Option<RandomType>)
      modifies this
      ensures Value() == old(Value()).(randomType := t)
    {
      randomType := t;
    }

    method SetEffect(effect: Option<string>)
      modifies this
      ensures Value() == old(Value()).(effectName := effect)
    {
      effectName := effect;
    }
  }
}
