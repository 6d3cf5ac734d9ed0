/**
 * The time strings of the schedule page: how long until a job's next run and how long ago
 * it last ran. Instants are whole milliseconds; a missing or empty date is `None`.
 */
module RelativeTime {
  import opened Common
  import opened Text

  /** "N unit", with the plural "s" only when N is more than 1. */
  function Count(n: int, unit: string): string
  {
    IntToString(n) + " " + unit + (if n > 1 then "s" else "")
  }

  /** The whole minutes, hours and days of a span, each floored from the one before. */
  function Units(diff: int): (r: (int, int, int))
    ensures r.0 == diff / 60000 && r.1 == r.0 / 60 && r.2 == r.1 / 24
  {
    var minutes := diff / 60000;
    var hours := minutes / 60;
    (minutes, hours, hours / 24)
  }

  /**
   * `formatTimeUntil`: "Not scheduled" without a date, "Overdue" for a past instant, else the
   * largest non-zero unit as "in N unit", or "in less than a minute".
   */
  function TimeUntil(target: Option<int>, now: int): (r: string)
    ensures target.None? ==> r == "Not scheduled"
    ensures target.Some? && target.value < now ==> r == "Overdue"
  {
    match target
    case None => "Not scheduled"
    case Some(t) =>
      var diff := t - now;
      if diff < 0 then "Overdue"
      else
        var (minutes, hours, days) := Units(diff);
        if days > 0 then "in " + Count(days, "day")
        else if hours > 0 then "in " + Count(hours, "hour")
        else if minutes > 0 then "in " + Count(minutes, "minute")
        else "in less than a minute"
  }

  /**
   * `formatRelativeTime`: "Never" without a date; the same ladder with " ago"; under a
   * minute, or in the future, "just now".
   */
  function TimeSince(target: Option<int>, now: int): (r: string)
    ensures target.None? ==> r == "Never"
  {
    match target
    case None => "Never"
    case Some(t) =>
      var (minutes, hours, days) := Units(now - t);
      if days > 0 then Count(days, "day") + " ago"
      else if hours > 0 then Count(hours, "hour") + " ago"
      else if minutes > 0 then Count(minutes, "minute") + " ago"
      else "just now"
  }

  /** Which unit a span of `diff` milliseconds is reported in, by the length of the span. */
  lemma LadderByLength(diff: int)
    requires diff >= 0
    ensures var (minutes, hours, days) := Units(diff);
      && (days > 0 <==> diff >= 86400000)
      && (days == 0 && hours > 0 <==> 3600000 <= diff < 86400000)
      && (hours == 0 && minutes > 0 <==> 60000 <= diff < 3600000)
      && (minutes == 0 <==> diff < 60000)
  {
  }

  /** Whole days are the floored minutes, floored to hours, floored to days. */
  lemma DaysOfSpan(diff: int)
    requires diff >= 0
    ensures Units(diff).2 == diff / 86400000
  {
  }

  /** A next run less than a minute ahead reads "in less than a minute". */
  lemma TimeUntilSoon(t: int, now: int)
    requires now <= t < now + 60000
    ensures TimeUntil(Some(t), now) == "in less than a minute"
  {
    LadderByLength(t - now);
  }

  /** A next run a day or more ahead reads in whole days. */
  lemma TimeUntilDays(t: int, now: int)
    requires now + 86400000 <= t
    ensures TimeUntil(Some(t), now) == "in " + Count((t - now) / 86400000, "day")
  {
    LadderByLength(t - now);
    DaysOfSpan(t - now);
  }

  /** The last run reads by the time since, and an instant less than a minute ago or in the future is "just now". */
  lemma TimeSinceStrings(t: int, now: int)
    ensures now - 3600000 < t <= now - 60000 ==> TimeSince(Some(t), now) == Count((now - t) / 60000, "minute") + " ago"
    ensures t > now - 60000 ==> TimeSince(Some(t), now) == "just now"
  {
    if now >= t {
      LadderByLength(now - t);
    }
  }
}
