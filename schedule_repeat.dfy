/** io.github.rowak.schedule.ScheduleRepeat, with the RepeatType enum: how often a
    schedule repeats and until when. An end time in the year 2999 stands for "never
    ends" and is written out as a fixed date object. */
module ScheduleRepeats {
  import opened Wrappers
  import opened JavaText
  import opened Json
  import opened ScheduleDates

  /** RepeatType and the integer each constant carries. */
  datatype RepeatType = ONCE | MINUTE | HOURLY | DAILY | WEEKLY | MONTHLY
  {
    function Value(): int
    {
      match this
      case ONCE => -1
      case MINUTE => 0
      case HOURLY => 1
      case DAILY => 2
      case WEEKLY => 3
      case MONTHLY => 4
    }

    /** Enum.name(), the text org.json writes for an enum value. */
    function Name(): string
    {
      match this
      case ONCE => "ONCE"
      case MINUTE => "MINUTE"
      case HOURLY => "HOURLY"
      case DAILY => "DAILY"
      case WEEKLY => "WEEKLY"
      case MONTHLY => "MONTHLY"
    }
  }

  /** getValue() as a function value. */
  const RepeatCode: RepeatType -> int := (t: RepeatType) => t.Value()

  /** RepeatType.values(), in declaration order. */
  const RepeatTypes: seq<RepeatType> := [ONCE, MINUTE, HOURLY, DAILY, WEEKLY, MONTHLY]

  /** ScheduleRepeat.getIntervalTypeFromInt. */
  function IntervalTypeFromInt(v: int): Option<RepeatType>
  {
    FirstWithValue(RepeatTypes, RepeatCode, v)
  }

  /** getIntervalTypeFromInt inverts getValue, and knows no other integer. */
  lemma IntervalTypeFromValue(t: RepeatType, v: int)
    ensures IntervalTypeFromInt(t.Value()) == Some(t)
    ensures IntervalTypeFromInt(v).Some? <==> -1 <= v <= 4
  {
    assert t in RepeatTypes;
    if -1 <= v <= 4 {
      assert RepeatCode(RepeatTypes[v + 1]) == v;
    }
  }

  /** The year that marks an end time as "never". */
  const NEVER_YEAR: int := 2999

  /** getDefaultEndTimeJson: the date written for an end time in the year 2999. */
  const DefaultEndTime: JsonObject :=
    map["year" := JInt(3000), "month" := JInt(0), "day" := JInt(0),
        "hour" := JInt(0), "minute" := JInt(0), "time_zone" := JInt(0)]

  /** The fields of a ScheduleRepeat; null is None. */
  datatype RepeatData = RepeatData(intervalType: Option<RepeatType>, intervalValue: Int32, endTime: Option<Date>)

  /** The end_time toJSON writes for a date. */
  function EndTimeJson(d: Date): (o: JsonObject)
    ensures o == DefaultEndTime <==> d.year == NEVER_YEAR || d == Date(3000, -1, 0, 0, 0)
  {
    if d.year != NEVER_YEAR then DateAsJson(d) else DefaultEndTime
  }

  /** With a day of the month Calendar can report (at least 1), the fixed end_time is
      written exactly for the year 2999. */
  lemma SentinelIffNever(d: Date)
    requires d.day >= 1
    ensures EndTimeJson(d) == DefaultEndTime <==> d.year == NEVER_YEAR
  {
  }

  /** ScheduleRepeat.toJSON: interval_type as the enum object (its name in text; put
      with null removes the key), interval_value, and end_time; a null end time is a
      NullPointerException in Calendar.setTime. */
  function RepeatToJson(r: RepeatData): (res: Result<JsonObject>)
    ensures res.Ok? <==> r.endTime.Some?
    ensures res.Err? ==> res.error == NullPointer
    ensures res.Ok? ==> res.value.Keys == {"interval_value", "end_time"} + (if r.intervalType.Some? then {"interval_type"} else {})
    ensures res.Ok? ==> res.value["interval_value"] == JInt(r.intervalValue)
    ensures res.Ok? ==> res.value["end_time"] == JObject(EndTimeJson(r.endTime.value))
  {
    if r.endTime.None? then Err(NullPointer)
    else
      var base := map["interval_value" := JInt(r.intervalValue), "end_time" := JObject(EndTimeJson(r.endTime.value))];
      Ok(if r.intervalType.Some? then base["interval_type" := JString(r.intervalType.value.Name())] else base)
  }

  /** ScheduleRepeat.fromJSON: interval_type through getIntervalTypeFromInt (null for
      an unknown value), interval_value, and end_time through getDateFromJson. */
  function RepeatFromJson(o: JsonObject): (r: Result<RepeatData>)
    ensures r.Err? ==> r.error == JsonError
    ensures r.Ok? ==> GetInt(o, "interval_type").Ok? && r.value.intervalType == IntervalTypeFromInt(GetInt(o, "interval_type").value)
    ensures r.Ok? ==> GetInt(o, "interval_value") == Ok(r.value.intervalValue)
    ensures r.Ok? ==> GetObject(o, "end_time").Ok? && r.value.endTime.Some?
    ensures r.Ok? ==> DateFromJson(o["end_time"].fields) == Ok(r.value.endTime.value)
  {
    var code :- GetInt(o, "interval_type");
    var value :- GetInt(o, "interval_value");
    var endJson :- GetObject(o, "end_time");
    var end :- DateFromJson(endJson);
    Ok(RepeatData(IntervalTypeFromInt(code), value, Some(end)))
  }

  /** No toJSON output reads back: interval_type is either absent or an enum name, and
      getInt accepts neither. */
  lemma RepeatNotReadBack(r: RepeatData)
    requires r.endTime.Some?
    ensures RepeatFromJson(RepeatToJson(r).value) == Err(JsonError)
  {
    if r.intervalType.Some? {
      var name := r.intervalType.value.Name();
      assert !IsDigit(name[0]) && name[0] != '-' && name[0] != '+';
      assert ParseInt(name) == None;
    }
  }

  /** With interval_type given as the integer the Aurora uses, fromJSON reads back the
      interval type and value, and the end time unless it marks "never" (which reads
      back as the raw fields of the fixed date). */
  lemma RepeatReadBackByCode(r: RepeatData, t: RepeatType)
    requires r.intervalType == Some(t) && r.endTime.Some?
    ensures RepeatFromJson(RepeatToJson(r).value["interval_type" := JInt(t.Value())]) ==
      Ok(if r.endTime.value.year != NEVER_YEAR then r else r.(endTime := Some(Date(3000, -1, 0, 0, 0))))
  {
    IntervalTypeFromValue(t, t.Value());
    var d := r.endTime.value;
    var e := EndTimeJson(d);
    assert RepeatToJson(r).value["interval_type" := JInt(t.Value())] ==
      map["interval_value" := JInt(r.intervalValue), "end_time" := JObject(e), "interval_type" := JInt(t.Value())];
    if d.year != NEVER_YEAR {
      DateRoundTrip(d);
      RepeatFromFields(t.Value(), r.intervalValue, e, d);
    } else {
      DefaultEndTimeRead();
      RepeatFromFields(t.Value(), r.intervalValue, e, Date(3000, -1, 0, 0, 0));
    }
  }

  /** getDateFromJson on the fixed end time, without Calendar's normalisation. */
  lemma DefaultEndTimeRead()
    ensures DateFromJson(DefaultEndTime) == Ok(Date(3000, -1, 0, 0, 0))
  {
    var o := DefaultEndTime;
    assert GetInt(o, "month") == Ok(0);
  }

  /** fromJSON on an object holding exactly the three keys, interval_type an integer. */
  lemma RepeatFromFields(code: Int32, value: Int32, e: JsonObject, d: Date)
    requires DateFromJson(e) == Ok(d)
    ensures RepeatFromJson(map["interval_value" := JInt(value), "end_time" := JObject(e), "interval_type" := JInt(code)]) ==
      Ok(RepeatData(IntervalTypeFromInt(code), value, Some(d)))
  {
  }

  class ScheduleRepeat {
    var intervalType: Option<RepeatType>
    var intervalValue: Int32
    var endTime: Option<Date>

    function Value(): RepeatData
      reads this
    {
      RepeatData(intervalType, intervalValue, endTime)
    }

    /** new ScheduleRepeat(intervalType, intervalValue, endTime), with the current
      time as `now`: a null end time becomes now with its year set to 2999. */
    constructor(intervalType: Option<RepeatType>, intervalValue: Int32, endTime: Option<Date>, now: Date)
      ensures Value() == RepeatData(intervalType, intervalValue,
                                    if endTime.Some? then endTime else Some(now.(year := NEVER_YEAR)))
    {
      this.intervalType := intervalType;
      this.intervalValue := intervalValue;
      this.endTime := endTime;
      if endTime.None? {
        this.endTime := Some(now.(year := NEVER_YEAR));
      }
    }

    method SetIntervalType(t: Option<RepeatType>)
      modifies this
      ensures Value() == old(Value()).(intervalType := t)
    {
      intervalType := t;
    }

    method SetIntervalValue(value: Int32)
      modifies this
      ensures Value() == old(Value()).(intervalValue := value)
    {
      intervalValue := value;
    }

    method SetEndTime(time: Option<Date>)
      modifies this
      ensures Value() == old(Value()).(endTime := time)
    {
      endTime := time;
    }
  }
}
