/** io.github.rowak.nanoleafapi.schedule.builder.ScheduleBuilder: fills a Schedule
    through its setters and hands out that same object from build. */
module ScheduleBuilders {
  import opened Wrappers
  import opened JavaText
  import opened Json
  import opened ScheduleDates
  import opened ScheduleActions
  import opened ScheduleRepeats
  import opened Schedules

  /** The fill-ins of build: a random set id for a null one, the current time for a
      null start time. */
  function Filled(s: ScheduleData, now: Date, uuid1: string, uuid2: string): (f: ScheduleData)
    ensures f.setId.Some? && f.startTime.Some?
    ensures s.setId.Some? ==> f.setId == s.setId
    ensures s.startTime.Some? ==> f.startTime == s.startTime
    ensures f.(setId := s.setId, startTime := s.startTime) == s
  {
    s.(setId := if s.setId.Some? then s.setId else Some(RandomSetId(uuid1, uuid2)),
       startTime := if s.startTime.Some? then s.startTime else Some(now))
  }

  /** A schedule build accepts can be written by toJSON, with all six keys, unless its
      repeat has lost its end time. */
  lemma BuiltIsWritable(s: ScheduleData, now: Date, uuid1: string, uuid2: string)
    requires s.action.Some? && s.repeat.Some? && s.repeat.value.endTime.Some?
    ensures ScheduleToJson(Filled(s, now, uuid1, uuid2)).Ok?
    ensures ScheduleToJson(Filled(s, now, uuid1, uuid2)).value.Keys == ScheduleKeys
  {
  }

  class ScheduleBuilder {
    const schedule: Schedule

    /** new ScheduleBuilder(): an empty schedule, whose constructor already draws a
        random set id from uuid1 and uuid2. */
    constructor(uuid1: string, uuid2: string)
      ensures fresh(schedule)
      ensures schedule.Value() == ScheduleData(0, Some(RandomSetId(uuid1, uuid2)), false, None, None, None)
    {
      schedule := new Schedule(0, None, false, None, None, None, uuid1, uuid2);
    }

    /** build(), given the current time and two fresh UUIDs. The fill-ins happen before
        the checks, so a build that throws has already changed the schedule. */
    method Build(now: Date, uuid1: string, uuid2: string) returns (r: Result<Schedule>)
      modifies schedule
      ensures schedule.Value() == Filled(old(schedule.Value()), now, uuid1, uuid2)
      ensures r == if old(schedule.action).None? || old(schedule.repeat).None? then Err(NullPointer) else Ok(schedule)
    {
      if schedule.setId.None? {
        schedule.SetSetId(Some(RandomSetId(uuid1, uuid2)));
      }
      if schedule.startTime.None? {
        schedule.SetStartTime(Some(now));
      }
      if schedule.action.None? {
        return Err(NullPointer);
      }
      if schedule.repeat.None? {
        return Err(NullPointer);
      }
      r := Ok(schedule);
    }

    method SetId(id: Int32) returns (b: ScheduleBuilder)
      modifies schedule
      ensures b == this && schedule.Value() == old(schedule.Value()).(id := id)
    {
      schedule.SetId(id);
      b := this;
    }

    method SetSetId(setId: Option<string>) returns (b: ScheduleBuilder)
      modifies schedule
      ensures b == this && schedule.Value() == old(schedule.Value()).(setId := setId)
    {
      schedule.SetSetId(setId);
      b := this;
    }

    method SetEnabled(enabled: bool) returns (b: ScheduleBuilder)
      modifies schedule
      ensures b == this && schedule.Value() == old(schedule.Value()).(enabled := enabled)
    {
      schedule.SetEnabled(enabled);
      b := this;
    }

    method SetStartTime(startTime: Option<Date>) returns (b: ScheduleBuilder)
      modifies schedule
      ensures b == this && schedule.Value() == old(schedule.Value()).(startTime := startTime)
    {
      schedule.SetStartTime(startTime);
      b := this;
    }

    /** setAction(action): the schedule takes the action's current fields; null stays
        null. */
    method SetAction(action: ScheduleAction?) returns (b: ScheduleBuilder)
      modifies schedule
      ensures b == this
      ensures schedule.Value() == old(schedule.Value()).(action := if action == null then None else Some(action.Value()))
    {
      schedule.SetAction(if action == null then None else Some(action.Value()));
      b := this;
    }

    /** setRepeat(repeat): the schedule takes the repeat's current fields; null stays
        null. */
    method SetRepeat(repeat: ScheduleRepeat?) returns (b: ScheduleBuilder)
      modifies schedule
      ensures b == this
      ensures schedule.Value() == old(schedule.Value()).(repeat := if repeat == null then None else Some(repeat.Value()))
    {
      schedule.SetRepeat(if repeat == null then None else Some(repeat.Value()));
      b := this;
    }
  }
}
