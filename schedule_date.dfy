/** The dates of the schedule classes: a java.util.Date is handled through the
    Calendar fields the library reads and writes, and Schedule.getDateAsJson /
    getDateFromJson convert between such a date and the Aurora's date object. */
module ScheduleDates {
  import opened Wrappers
  import opened JavaText
  import opened Json

  /** The Calendar fields YEAR, MONTH (0-based, as Calendar has it), DAY_OF_MONTH,
      HOUR_OF_DAY and MINUTE. */
  datatype Date = Date(year: Int32, month: Int32, day: Int32, hour: Int32, minute: Int32)

  /** Schedule.getDateAsJson: the month one higher than Calendar's, time_zone 0. */
  function DateAsJson(d: Date): (o: JsonObject)
    ensures o.Keys == {"year", "month", "day", "hour", "minute", "time_zone"}
    ensures 0 <= d.month <= 11 ==> o["month"].JInt? && 1 <= o["month"].i <= 12
    ensures o["time_zone"] == JInt(0)
  {
    map["year" := JInt(d.year), "month" := JInt(Wrap32(d.month + 1)), "day" := JInt(d.day),
        "hour" := JInt(d.hour), "minute" := JInt(d.minute), "time_zone" := JInt(0)]
  }

  /** Schedule.getDateFromJson: Calendar.set of each field, the month one lower;
      a missing or non-numeric field is a JSONException. */
  function DateFromJson(o: JsonObject): (r: Result<Date>)
    ensures r.Err? ==> r.error == JsonError
    ensures r.Ok? ==> GetInt(o, "year") == Ok(r.value.year) && GetInt(o, "day") == Ok(r.value.day)
    ensures r.Ok? ==> GetInt(o, "hour") == Ok(r.value.hour) && GetInt(o, "minute") == Ok(r.value.minute)
    ensures r.Ok? ==> GetInt(o, "month").Ok? && r.value.month == Wrap32(GetInt(o, "month").value - 1)
  {
    var year :- GetInt(o, "year");
    var month :- GetInt(o, "month");
    var day :- GetInt(o, "day");
    var hour :- GetInt(o, "hour");
    var minute :- GetInt(o, "minute");
    Ok(Date(year, Wrap32(month - 1), day, hour, minute))
  }

  /** Adding one and subtracting one in `int` arithmetic gives the value back, also
      across the wrap at Integer.MAX_VALUE. */
  lemma MonthShift(m: Int32)
    ensures Wrap32(Wrap32(m + 1) - 1) == m
  {
    if m == INT_MAX {
      Wrap32OnePeriod(m + 1);
    }
  }

  /** getDateFromJson undoes getDateAsJson on all five fields. */
  lemma DateRoundTrip(d: Date)
    ensures DateFromJson(DateAsJson(d)) == Ok(d)
  {
    MonthShift(d.month);
  }
}
