/** io.github.rowak.schedule.ScheduleAction: what a schedule does when it runs (power,
    brightness with its transition time, and an optional effects object). */
module ScheduleActions {
  import opened Wrappers
  import opened JavaText
  import opened Json
  import opened ScheduleEffectsModel

  /** The fields of a ScheduleAction; a null effects object is None. */
  datatype ActionData = ActionData(on: bool, brightness: Int32, brightnessDuration: Int32, effects: Option<EffectsData>)

  /** ScheduleAction.toJSON: on as 1 or 0, brightness as {value, duration}, and
      "effects" only when there is an effects object. */
  function ActionToJson(a: ActionData): (o: JsonObject)
    ensures o.Keys == {"on", "brightness"} + (if a.effects.Some? then {"effects"} else {})
    ensures o["on"] == JInt(if a.on then 1 else 0)
    ensures GetObject(o, "brightness").Ok?
    ensures GetInt(o["brightness"].fields, "value") == Ok(a.brightness)
    ensures GetInt(o["brightness"].fields, "duration") == Ok(a.brightnessDuration)
  {
    var base := map["on" := JInt(if a.on then 1 else 0),
                     "brightness" := JObject(map["value" := JInt(a.brightness), "duration" := JInt(a.brightnessDuration)])];
    if a.effects.Some? then base["effects" := JObject(EffectsToJson(a.effects.value))] else base
  }

  /** ScheduleAction.fromJSON: on is true exactly when the integer is 1; a
      JSONException while reading "effects" is caught and leaves effects null. */
  function ActionFromJson(o: JsonObject): (r: Result<ActionData>)
    ensures r.Err? ==> r.error == JsonError
    ensures r.Ok? ==> GetInt(o, "on").Ok? && (r.value.on <==> GetInt(o, "on").value == 1)
    ensures r.Ok? ==> GetObject(o, "brightness").Ok?
    ensures r.Ok? ==> GetInt(o["brightness"].fields, "value") == Ok(r.value.brightness)
    ensures r.Ok? ==> GetInt(o["brightness"].fields, "duration") == Ok(r.value.brightnessDuration)
    ensures r.Ok? && "effects" !in o ==> r.value.effects == None
  {
    var on :- GetInt(o, "on");
    var brightness :- GetObject(o, "brightness");
    var value :- GetInt(brightness, "value");
    var duration :- GetInt(brightness, "duration");
    var effectsJson := GetObject(o, "effects");
    // both getJSONObject and ScheduleEffects.fromJSON fail only with a JSONException
    var effects := if effectsJson.Ok? then EffectsFromJson(effectsJson.value) else Err(JsonError);
    Ok(ActionData(on == 1, value, duration, if effects.Ok? then Some(effects.value) else None))
  }

  /** on, brightness and brightnessDuration survive toJSON then fromJSON; the effects
      object never does, since its random_type cannot be read back. */
  lemma ActionRoundTrip(a: ActionData)
    ensures ActionFromJson(ActionToJson(a)) == Ok(a.(effects := None))
  {
    if a.effects.Some? {
      EffectsNotReadBack(a.effects.value);
    }
  }

  class ScheduleAction {
    var on: bool
    var brightness: Int32
    var brightnessDuration: Int32
    var effects: Option<EffectsData>

    function Value(): ActionData
      reads this
    {
      ActionData(on, brightness, brightnessDuration, effects)
    }

    /** new ScheduleAction(): Java's field defaults. */
    constructor()
      ensures Value() == ActionData(false, 0, 0, None)
    {
      on, brightness, brightnessDuration, effects := false, 0, 0, None;
    }

    method SetOn(on: bool)
      modifies this
      ensures Value() == old(Value()).(on := on)
    {
      this.on := on;
    }

    method SetBrightness(brightness: Int32)
      modifies this
      ensures Value() == old(Value()).(brightness := brightness)
    {
      this.brightness := brightness;
    }

    method SetBrightnessDuration(duration: Int32)
      modifies this
      ensures Value() == old(Value()).(brightnessDuration := duration)
    {
      brightnessDuration := duration;
    }

    /** setBrightness(brightness, duration): both values, nothing else. */
    method SetBrightnessWithDuration(brightness: Int32, duration: Int32)
      modifies this
      ensures Value() == old(Value()).(brightness := brightness, brightnessDuration := duration)
    {
      this.brightness := brightness;
      brightnessDuration := duration;
    }

    method SetEffects(effects: Option<EffectsData>)
      modifies this
      ensures Value() == old(Value()).(effects := effects)
    {
      this.effects := effects;
    }
  }
}
