/**
 * The schedule settings screen of the root copy: how the three modes of the form (every N
 * units, daily at a time, monthly on a day at a time) are stored as interval or cron
 * triggers of a job's schedule configuration, and how a stored configuration is shown again.
 */
module ScheduleUi {
  import opened Common
  import opened Text

  datatype Trigger = CronTrigger | IntervalTrigger

  /** A job's schedule configuration: the trigger kind, the interval fields and the five cron fields. */
  datatype Config = Config(
    jobKey: string,
    enabled: bool,
    trigger: Trigger,
    intervalValue: Option<int>,
    intervalUnit: Option<string>,
    cronMinute: string,
    cronHour: string,
    cronDay: string,
    cronMonth: string,
    cronDayOfWeek: string)

  /** A time of day as the time field parses it. */
  datatype Time = Time(hour: nat, minute: nat)

  /** The `schedule_time` sent: absent or null, the empty string, or a time. */
  datatype TimeInput = NoTime | BlankTime | AtTime(t: Time)

  /** The fields an update sends; `None` is a field absent or null. */
  datatype Sent = Sent(
    enabled: Option<bool>,
    intervalValue: Option<int>,
    intervalUnit: Option<string>,
    scheduleTime: TimeInput,
    dayOfMonth: Option<int>)

  /** Python `str.isdigit`: non-empty and all decimal digits. */
  predicate IsDecimal(s: string)
  {
    s != [] && AllDigits(s)
  }

  /** `to_internal_value` and `validate`: an empty time string is read as no time. */
  function CleanTime(ti: TimeInput): (r: Option<Time>)
    ensures r.Some? <==> ti.AtTime?
    ensures ti.AtTime? ==> r == Some(ti.t)
  {
    if ti.AtTime? then Some(ti.t) else None
  }

  /** The bounds of `day_of_month`. */
  function ValidateSent(sent: Sent): (r: Result<Sent>)
    ensures r.Ok? <==> (sent.dayOfMonth.Some? ==> 1 <= sent.dayOfMonth.value <= 31)
    ensures r.Ok? ==> r.value == sent
  {
    if sent.dayOfMonth.Some? && sent.dayOfMonth.value < 1 then Err("Ensure this value is greater than or equal to 1.")
    else if sent.dayOfMonth.Some? && sent.dayOfMonth.value > 31 then Err("Ensure this value is less than or equal to 31.")
    else Ok(sent)
  }

  /** The monthly form: a time and a day of the month with the unit `months`. */
  predicate MonthlyRequest(sent: Sent)
  {
    sent.intervalUnit == Some("months") && sent.scheduleTime.AtTime? && sent.dayOfMonth.Some? && sent.dayOfMonth.value != 0
  }

  /** The daily form: every 1 day at a time. */
  predicate DailyRequest(sent: Sent)
  {
    sent.intervalUnit == Some("days") && sent.intervalValue == Some(1) && sent.scheduleTime.AtTime?
  }

  /** A plain interval: both interval fields sent. */
  predicate IntervalRequest(sent: Sent)
  {
    sent.intervalValue.Some? && sent.intervalUnit.Some?
  }

  /** A cron trigger firing every day at the time's hour and minute. */
  function AtTimeEveryDay(c: Config, t: Time): Config
  {
    c.(trigger := CronTrigger, cronMinute := NatToString(t.minute), cronHour := NatToString(t.hour), cronDay := "*",
       cronMonth := "*", cronDayOfWeek := "*", intervalValue := None, intervalUnit := None)
  }

  /**
   * `ScheduleConfigSerializer.update`: the enabled flag when sent, then the first of monthly,
   * daily and interval that the request matches decides the trigger; a request that matches
   * none leaves the trigger as it was.
   */
  function Update(c: Config, sent: Sent): (r: Config)
    ensures r.jobKey == c.jobKey
    ensures r.enabled == if sent.enabled.Some? then sent.enabled.value else c.enabled
  {
    var c1 := if sent.enabled.Some? then c.(enabled := sent.enabled.value) else c;
    var time := CleanTime(sent.scheduleTime);
    if MonthlyRequest(sent) then
      AtTimeEveryDay(c1, time.value).(cronDay := IntToString(sent.dayOfMonth.value))
    else if DailyRequest(sent) then
      AtTimeEveryDay(c1, time.value)
    else if IntervalRequest(sent) then
      c1.(trigger := IntervalTrigger, intervalValue := sent.intervalValue, intervalUnit := sent.intervalUnit,
          cronMinute := "*", cronHour := "*", cronDay := "*")
    else c1
  }

  /** `schedule_time` rendered with the format `%H:%M`. */
  function FormatTime(t: Time): string
  {
    FormatPadded(t.hour, 2) + ":" + FormatPadded(t.minute, 2)
  }

  /** The cron hour and minute as the serializer shows them, each `zfill(2)`. */
  function CronClock(c: Config): string
  {
    ZeroPad(c.cronHour, 2) + ":" + ZeroPad(c.cronMinute, 2)
  }

  /** Python `str` of an optional value. */
  function ShowInt(v: Option<int>): string
  {
    if v.Some? then IntToString(v.value) else "None"
  }

  function ShowStr(v: Option<string>): string
  {
    if v.Some? then v.value else "None"
  }

  /** `get_cron_expression`: the five cron fields for a cron trigger, nothing for an interval. */
  function CronExpression(c: Config): (r: Option<string>)
    ensures r.Some? <==> c.trigger == CronTrigger
  {
    if c.trigger == CronTrigger then
      Some(c.cronMinute + " " + c.cronHour + " " + c.cronDay + " " + c.cronMonth + " " + c.cronDayOfWeek)
    else None
  }

  /** `get_schedule_display`. */
  function ScheduleDisplay(c: Config): string
  {
    if c.trigger == CronTrigger then
      if IsDecimal(c.cronDay) then "Monthly on day " + c.cronDay + " at " + CronClock(c)
      else if IsDecimal(c.cronHour) && IsDecimal(c.cronMinute) then "Daily at " + CronClock(c)
      else "Cron: " + c.cronHour + ":" + c.cronMinute + " " + c.cronDay + " " + c.cronMonth + " " + c.cronDayOfWeek
    else "Every " + ShowInt(c.intervalValue) + " " + ShowStr(c.intervalUnit)
  }

  /** What the screen receives for a configuration. */
  datatype View = View(
    enabled: bool,
    intervalValue: Option<int>,
    intervalUnit: Option<string>,
    dayOfMonth: Option<int>,
    scheduleTime: Option<string>,
    cronExpression: Option<string>,
    display: string)

  /**
   * `to_representation`: a cron trigger with a numeric day is shown as monthly on that day,
   * any other cron trigger as every 1 day, with the time when hour and minute are numeric.
   * The stored configuration has no time or day of its own, so those start out empty.
   */
  function Represent(c: Config): (v: View)
    ensures v.cronExpression == CronExpression(c) && v.display == ScheduleDisplay(c) && v.enabled == c.enabled
    ensures c.trigger == IntervalTrigger ==> v.intervalValue == c.intervalValue && v.intervalUnit == c.intervalUnit
    ensures c.trigger == CronTrigger ==> v.intervalValue == Some(1)
    ensures c.trigger == CronTrigger ==> (v.intervalUnit == Some("months") <==> IsDecimal(c.cronDay))
    ensures c.trigger == CronTrigger ==> (v.intervalUnit == Some("days") <==> !IsDecimal(c.cronDay))
  {
    var base := View(c.enabled, c.intervalValue, c.intervalUnit, None, None, CronExpression(c), ScheduleDisplay(c));
    if c.trigger == CronTrigger then
      var time := if IsDecimal(c.cronHour) && IsDecimal(c.cronMinute) then Some(CronClock(c)) else None;
      if IsDecimal(c.cronDay) then
        base.(intervalValue := Some(1), intervalUnit := Some("months"), dayOfMonth := Some(ParseDigits(c.cronDay)),
              scheduleTime := if time.Some? then time else base.scheduleTime)
      else
        base.(intervalValue := Some(1), intervalUnit := Some("days"),
              scheduleTime := if time.Some? then time else base.scheduleTime)
    else base
  }

  /** `str(n).zfill(2)` is the `%H`/`%M` rendering of `n`. */
  lemma ClockOfTime(c: Config, t: Time)
    requires c.cronHour == NatToString(t.hour) && c.cronMinute == NatToString(t.minute)
    ensures CronClock(c) == FormatTime(t)
    ensures IsDecimal(c.cronHour) && IsDecimal(c.cronMinute)
  {
  }

  /**
   * A monthly update shows again as monthly, on the same day of the month, at the same
   * `HH:MM`, as the cron expression `minute hour day * *`.
   */
  lemma MonthlyRoundTrip(c: Config, sent: Sent)
    requires MonthlyRequest(sent) && ValidateSent(sent).Ok?
    ensures var v := Represent(Update(c, sent));
      var t := sent.scheduleTime.t;
      && v.intervalUnit == Some("months") && v.intervalValue == Some(1)
      && v.dayOfMonth == sent.dayOfMonth
      && v.scheduleTime == Some(FormatTime(t))
      && v.cronExpression == Some(NatToString(t.minute) + " " + NatToString(t.hour) + " " + IntToString(sent.dayOfMonth.value) + " * *")
      && v.display == "Monthly on day " + IntToString(sent.dayOfMonth.value) + " at " + FormatTime(t)
  {
    var u := Update(c, sent);
    var d := sent.dayOfMonth.value;
    ParseNatToString(d);
    assert u.cronDay == NatToString(d);
    ClockOfTime(u, sent.scheduleTime.t);
    var prefix := u.cronMinute + " " + u.cronHour + " " + u.cronDay;
    assert prefix + " " + "*" + " " + "*" == prefix + " * *";
  }

  /** A daily update shows again as every 1 day at the same `HH:MM`. */
  lemma DailyRoundTrip(c: Config, sent: Sent)
    requires DailyRequest(sent) && !MonthlyRequest(sent)
    ensures var v := Represent(Update(c, sent));
      var t := sent.scheduleTime.t;
      && v.intervalUnit == Some("days") && v.intervalValue == Some(1) && v.dayOfMonth.None?
      && v.scheduleTime == Some(FormatTime(t))
      && v.display == "Daily at " + FormatTime(t)
  {
    var u := Update(c, sent);
    ClockOfTime(u, sent.scheduleTime.t);
  }

  /** An interval update is stored and shown as that interval, with no cron expression. */
  lemma IntervalRoundTrip(c: Config, sent: Sent)
    requires IntervalRequest(sent) && !MonthlyRequest(sent) && !DailyRequest(sent)
    ensures var v := Represent(Update(c, sent));
      && v.intervalValue == sent.intervalValue && v.intervalUnit == sent.intervalUnit
      && v.cronExpression.None?
      && v.display == "Every " + IntToString(sent.intervalValue.value) + " " + sent.intervalUnit.value
  {
  }

  /** A request matching no mode changes only the enabled flag. */
  lemma UnmatchedKeepsTrigger(c: Config, sent: Sent)
    requires !MonthlyRequest(sent) && !DailyRequest(sent) && !IntervalRequest(sent)
    ensures Update(c, sent).(enabled := c.enabled) == c
  {
  }

  /** Sending the same update twice stores what sending it once did. */
  lemma UpdateIdempotent(c: Config, sent: Sent)
    ensures Update(Update(c, sent), sent) == Update(c, sent)
  {
  }

  /** `get_description`: a fixed text for the three known jobs, else a generic one. */
  function Description(jobKey: string): (r: string)
    ensures (jobKey != "check_expired_subscriptions" && jobKey != "delete_old_job_executions"
             && jobKey != "generate_monthly_bills") ==> r == "Schedule configuration for " + jobKey
  {
    if jobKey == "check_expired_subscriptions" then
      "Checks for subscriptions with unpaid bills past their expiry date and disables them"
    else if jobKey == "delete_old_job_executions" then "Cleans up old job execution records from the database"
    else if jobKey == "generate_monthly_bills" then "Automatically generates bills for all active subscriptions for the current month"
    else "Schedule configuration for " + jobKey
  }

  /**
   * `get_last_status` over the job's execution log statuses, latest first: `Success` exactly
   * when the latest is `success`, `Failed` for any other, nothing without a log.
   */
  function LastStatus(statuses: seq<string>): (r: Option<string>)
    ensures r.None? <==> statuses == []
    ensures r == Some("Success") <==> statuses != [] && statuses[0] == "success"
    ensures r.Some? ==> r.value == "Success" || r.value == "Failed"
  {
    if statuses == [] then None
    else if statuses[0] == "success" then Some("Success")
    else Some("Failed")
  }
}
