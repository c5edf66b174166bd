/** io.github.rowak.schedule.Schedule: a local copy of an Aurora schedule. Its action
    and repeat are held as values (see ScheduleActions and ScheduleRepeats). */
module Schedules {
  import opened Wrappers
  import opened JavaText
  import opened Json
  import opened ScheduleDates
  import opened ScheduleActions
  import opened ScheduleRepeats

  /** getRandomSetId: two random UUIDs joined by "--"; the UUIDs are parameters. */
  function RandomSetId(uuid1: string, uuid2: string): (s: string)
    ensures |s| == |uuid1| + 2 + |uuid2|
    ensures s[..|uuid1|] == uuid1 && s[|uuid1|..|uuid1| + 2] == "--" && s[|uuid1| + 2..] == uuid2
  {
    uuid1 + "--" + uuid2
  }

  /** The fields of a Schedule; null is None. */
  datatype ScheduleData = ScheduleData(id: Int32, setId: Option<string>, enabled: bool, startTime: Option<Date>,
                                       action: Option<ActionData>, repeat: Option<RepeatData>)

  /** The keys every written schedule has. */
  const ScheduleKeys: set<string> := {"id", "set_id", "enabled", "start_time", "action", "repeat"}

  /** Schedule.toJSON. A null start time, action or repeat is a NullPointerException,
      as is a repeat without an end time; put with a null set_id removes the key. */
  function ScheduleToJson(s: ScheduleData): (r: Result<JsonObject>)
    ensures r.Ok? <==> s.startTime.Some? && s.action.Some? && s.repeat.Some? && s.repeat.value.endTime.Some?
    ensures r.Err? ==> r.error == NullPointer
    ensures r.Ok? ==> r.value.Keys == if s.setId.Some? then ScheduleKeys else ScheduleKeys - {"set_id"}
  {
    if s.startTime.None? || s.action.None? || s.repeat.None? then Err(NullPointer)
    else
      var repeat :- RepeatToJson(s.repeat.value);
      Ok(ScheduleObject(s.id, s.setId, s.enabled, DateAsJson(s.startTime.value), ActionToJson(s.action.value), repeat))
  }

  /** The object toJSON fills in, its parts already converted. */
  function ScheduleObject(id: Int32, setId: Option<string>, enabled: bool,
                          start: JsonObject, action: JsonObject, repeat: JsonObject): (o: JsonObject)
    ensures o.Keys == if setId.Some? then ScheduleKeys else ScheduleKeys - {"set_id"}
    ensures o["id"] == JInt(id) && o["enabled"] == JBool(enabled)
    ensures setId.Some? ==> o["set_id"] == JString(setId.value)
    ensures o["start_time"] == JObject(start) && o["action"] == JObject(action) && o["repeat"] == JObject(repeat)
  {
    var o := map["id" := JInt(id), "enabled" := JBool(enabled), "start_time" := JObject(start),
                 "action" := JObject(action), "repeat" := JObject(repeat)];
    if setId.Some? then o["set_id" := JString(setId.value)] else o
  }

  /** Schedule.fromJSON: id, set_id and enabled as they are, start_time through
      getDateFromJson, action and repeat through their own fromJSON. */
  function ScheduleFromJson(o: JsonObject): (r: Result<ScheduleData>)
    ensures r.Err? ==> r.error == JsonError
    ensures r.Ok? ==> GetInt(o, "id") == Ok(r.value.id)
    ensures r.Ok? ==> r.value.setId.Some? && GetString(o, "set_id") == Ok(r.value.setId.value)
    ensures r.Ok? ==> GetBoolean(o, "enabled") == Ok(r.value.enabled)
    ensures r.Ok? ==> r.value.startTime.Some? && r.value.action.Some? && r.value.repeat.Some?
    ensures r.Ok? ==> GetObject(o, "repeat").Ok? && RepeatFromJson(o["repeat"].fields) == Ok(r.value.repeat.value)
  {
    var id :- GetInt(o, "id");
    var setId :- GetString(o, "set_id");
    var enabled :- GetBoolean(o, "enabled");
    var startJson :- GetObject(o, "start_time");
    var startTime :- DateFromJson(startJson);
    var actionJson :- GetObject(o, "action");
    var action :- ActionFromJson(actionJson);
    var repeatJson :- GetObject(o, "repeat");
    var repeat :- RepeatFromJson(repeatJson);
    Ok(ScheduleData(id, Some(setId), enabled, Some(startTime), Some(action), Some(repeat)))
  }

  /** What a written schedule reads back as, field by field: id, set_id, enabled,
      the start time and the action's on/brightness all survive; the action's effects
      are lost, and the repeat never reads back. */
  lemma ScheduleFieldsReadBack(s: ScheduleData)
    requires ScheduleToJson(s).Ok?
    ensures GetInt(ScheduleToJson(s).value, "id") == Ok(s.id)
    ensures s.setId.Some? ==> GetString(ScheduleToJson(s).value, "set_id") == Ok(s.setId.value)
    ensures GetBoolean(ScheduleToJson(s).value, "enabled") == Ok(s.enabled)
    ensures DateFromJson(ScheduleToJson(s).value["start_time"].fields) == Ok(s.startTime.value)
    ensures ActionFromJson(ScheduleToJson(s).value["action"].fields) == Ok(s.action.value.(effects := None))
    ensures RepeatFromJson(ScheduleToJson(s).value["repeat"].fields) == Err(JsonError)
  {
    var start, action, repeat := s.startTime.value, s.action.value, s.repeat.value;
    ObjectReadBack(s.id, s.setId, s.enabled, start, action, RepeatToJson(repeat).value);
    RepeatNotReadBack(repeat);
  }

  /** The same on the object itself, its parts given. */
  lemma ObjectReadBack(id: Int32, setId: Option<string>, enabled: bool, start: Date, action: ActionData, repeat: JsonObject)
    ensures var o := ScheduleObject(id, setId, enabled, DateAsJson(start), ActionToJson(action), repeat);
      && GetInt(o, "id") == Ok(id)
      && (setId.Some? ==> GetString(o, "set_id") == Ok(setId.value))
      && GetBoolean(o, "enabled") == Ok(enabled)
      && DateFromJson(o["start_time"].fields) == Ok(start)
      && ActionFromJson(o["action"].fields) == Ok(action.(effects := None))
      && o["repeat"].fields == repeat
  {
    DateRoundTrip(start);
    ActionRoundTrip(action);
  }

  /** Hence fromJSON never accepts what toJSON writes. */
  lemma ScheduleNotReadBack(s: ScheduleData)
    requires ScheduleToJson(s).Ok?
    ensures ScheduleFromJson(ScheduleToJson(s).value).Err?
  {
    ScheduleFieldsReadBack(s);
  }

  class Schedule {
    var id: Int32
    var setId: Option<string>
    var enabled: bool
    var startTime: Option<Date>
    var action: Option<ActionData>
    var repeat: Option<RepeatData>

    function Value(): ScheduleData
      reads this
    {
      ScheduleData(id, setId, enabled, startTime, action, repeat)
    }

    /** new Schedule(id, setId, enabled, startTime, action, repeat): a null setId is
        replaced by a random one, made of uuid1 and uuid2. */
    constructor(id: Int32, setId: Option<string>, enabled: bool, startTime: Option<Date>,
                action: Option<ActionData>, repeat: Option<RepeatData>, uuid1: string, uuid2: string)
      ensures Value() == ScheduleData(id, Some(if setId.Some? then setId.value else RandomSetId(uuid1, uuid2)),
                                      enabled, startTime, action, repeat)
    {
      this.id := id;
      this.setId := setId;
      this.enabled := enabled;
      this.startTime := startTime;
      this.action := action;
      this.repeat := repeat;
      if setId.None? {
        this.setId := Some(RandomSetId(uuid1, uuid2));
      }
    }

    method SetId(id: Int32)
      modifies this
      ensures Value() == old(Value()).(id := id)
    {
      this.id := id;
    }

    method SetSetId(setId: Option<string>)
      modifies this
      ensures Value() == old(Value()).(setId := setId)
    {
      this.setId := setId;
    }

    method SetEnabled(enabled: bool)
      modifies this
      ensures Value() == old(Value()).(enabled := enabled)
    {
      this.enabled := enabled;
    }

    method SetStartTime(startTime: Option<Date>)
      modifies this
      ensures Value() == old(Value()).(startTime := startTime)
    {
      this.startTime := startTime;
    }

    method SetAction(action: Option<ActionData>)
      modifies this
      ensures Value() == old(Value()).(action := action)
    {
      this.action := action;
    }

    method SetRepeat(repeat: Option<RepeatData>)
      modifies this
      ensures Value() == old(Value()).(repeat := repeat)
    {
      this.repeat := repeat;
    }
  }
}
