/**
 * The job schedule settings of the backend: the per-job configuration rows and their display,
 * the execution summary shown with them, and the periodic task that brings the scheduler's
 * jobs in line with the rows (pause, resume, new interval).
 */
module ScheduleConfigs {
  import opened Common
  import opened Text
  import ScheduleUi

  /** A row of `schedule_config`, keyed by its job's id. */
  datatype Config = Config(
    jobId: string,
    isEnabled: bool,
    intervalValue: int,
    intervalUnit: string,
    cronExpression: Option<string>,
    scheduleTime: Option<ScheduleUi.Time>)

  /** `strftime('%I:%M %p')`: the hour on the 12-hour clock, the minute, and AM or PM. */
  function TwelveHour(t: ScheduleUi.Time): (r: string)
    requires t.hour < 24
  {
    var h := if t.hour % 12 == 0 then 12 else t.hour % 12;
    FormatPadded(h, 2) + ":" + FormatPadded(t.minute, 2) + " " + (if t.hour < 12 then "AM" else "PM")
  }

  /**
   * `ScheduleConfig.get_schedule_display`: a cron expression wins; then every 1 day with a time
   * is shown as daily at that time; anything else as every N units.
   */
  function ScheduleDisplay(c: Config): (r: string)
    requires c.scheduleTime.Some? ==> c.scheduleTime.value.hour < 24
    ensures c.cronExpression.Some? && c.cronExpression.value != "" ==> r == "Cron: " + c.cronExpression.value
    ensures (c.cronExpression.None? || c.cronExpression.value == "") && !(c.intervalUnit == "days" && c.intervalValue == 1 && c.scheduleTime.Some?)
            ==> r == "Every " + IntToString(c.intervalValue) + " " + c.intervalUnit
  {
    if c.cronExpression.Some? && c.cronExpression.value != "" then "Cron: " + c.cronExpression.value
    else if c.intervalUnit == "days" && c.intervalValue == 1 && c.scheduleTime.Some? then
      "Daily at " + TwelveHour(c.scheduleTime.value)
    else "Every " + IntToString(c.intervalValue) + " " + c.intervalUnit
  }

  /** The first hour of the afternoon is 12 PM, midnight is 12 AM. */
  lemma TwelveHourEnds(m: nat)
    requires m < 60
    ensures TwelveHour(ScheduleUi.Time(0, m)) == "12:" + FormatPadded(m, 2) + " AM"
    ensures TwelveHour(ScheduleUi.Time(12, m)) == "12:" + FormatPadded(m, 2) + " PM"
    ensures TwelveHour(ScheduleUi.Time(13, m)) == "01:" + FormatPadded(m, 2) + " PM"
  {
    PadHours();
    TwelveHourAt(0, m, "12", "AM");
    TwelveHourAt(12, m, "12", "PM");
    TwelveHourAt(13, m, "01", "PM");
  }

  lemma PadHours()
    ensures FormatPadded(12, 2) == "12" && FormatPadded(1, 2) == "01"
  {
    assert NatToString(12) == "12";
    assert NatToString(1) == "1";
  }

  lemma TwelveHourAt(h: nat, m: nat, hh: string, half: string)
    requires h < 24 && m < 60
    requires hh == FormatPadded(if h % 12 == 0 then 12 else h % 12, 2) && half == (if h < 12 then "AM" else "PM")
    ensures TwelveHour(ScheduleUi.Time(h, m)) == hh + ":" + FormatPadded(m, 2) + " " + half
  {
  }

  /** Position of the row of a job. */
  function FindConfig(configs: seq<Config>, jobId: string): (r: Option<nat>)
    ensures r.Some? ==> r.value < |configs| && configs[r.value].jobId == jobId
    ensures r.None? <==> forall i :: 0 <= i < |configs| ==> configs[i].jobId != jobId
  {
    if configs == [] then None
    else if configs[0].jobId == jobId then Some(0)
    else match FindConfig(configs[1..], jobId)
      case Some(k) => Some(k + 1)
      case None => None
  }

  predicate HasConfig(configs: seq<Config>, jobId: string)
  {
    exists i :: 0 <= i < |configs| && configs[i].jobId == jobId
  }

  /** The job is the primary key: one row per job. */
  predicate UniqueJobs(configs: seq<Config>)
  {
    forall i, j :: 0 <= i < j < |configs| ==> configs[i].jobId != configs[j].jobId
  }

  /** `ScheduleConfig.get_job_config`: the job's row when it exists and is enabled. */
  function GetJobConfig(configs: seq<Config>, jobId: string): (r: Option<Config>)
    requires UniqueJobs(configs)
    ensures r.Some? <==> exists i :: 0 <= i < |configs| && configs[i].jobId == jobId && configs[i].isEnabled
    ensures r.Some? ==> r.value in configs && r.value.jobId == jobId && r.value.isEnabled
  {
    match FindConfig(configs, jobId)
    case None => None
    case Some(k) => if configs[k].isEnabled then Some(configs[k]) else None
  }
  // ---------------------------------------------------------------- creating rows for jobs

  /** The row `sync_from_apscheduler` creates: enabled, every 1 minute. */
  function DefaultConfig(jobId: string): Config
  {
    Config(jobId, true, 1, "minutes", None, None)
  }

  /** One step of `sync_from_apscheduler`: a job without a row gets the default row. */
  function SyncOne(configs: seq<Config>, jobId: string): seq<Config>
  {
    if HasConfig(configs, jobId) then configs else configs + [DefaultConfig(jobId)]
  }

  /** `sync_from_apscheduler` over the jobs in order. */
  function SyncAll(configs: seq<Config>, jobs: seq<string>): (r: seq<Config>)
    ensures |configs| <= |r| <= |configs| + |jobs| && r[..|configs|] == configs
    ensures forall i :: |configs| <= i < |r| ==> r[i].isEnabled && r[i].intervalValue == 1 && r[i].intervalUnit == "minutes"
  {
    if jobs == [] then configs
    else
      var c := SyncAll(configs, jobs[..|jobs| - 1]);
      assert c[..|configs|] == configs;
      SyncOne(c, jobs[|jobs| - 1])
  }

  /** After the sync every job has a row. */
  lemma {:induction false} SyncAllCovers(configs: seq<Config>, jobs: seq<string>)
    ensures forall k :: 0 <= k < |jobs| ==> HasConfig(SyncAll(configs, jobs), jobs[k])
  {
    if jobs != [] {
      var init := jobs[..|jobs| - 1];
      var c := SyncAll(configs, init);
      SyncAllCovers(configs, init);
      var r := SyncOne(c, jobs[|jobs| - 1]);
      forall k | 0 <= k < |jobs|
        ensures HasConfig(r, jobs[k])
      {
        if k < |jobs| - 1 {
          assert init[k] == jobs[k];
          var i :| 0 <= i < |c| && c[i].jobId == jobs[k];
          assert r[i] == c[i];
        } else if !HasConfig(c, jobs[k]) {
          assert r[|c|].jobId == jobs[k];
        }
      }
    }
  }

  /** When every job already has a row the sync creates nothing. */
  lemma {:induction false} SyncAllNothingMissing(configs: seq<Config>, jobs: seq<string>)
    requires forall k :: 0 <= k < |jobs| ==> HasConfig(configs, jobs[k])
    ensures SyncAll(configs, jobs) == configs
  {
    if jobs != [] {
      var init := jobs[..|jobs| - 1];
      SyncAllNothingMissing(configs, init);
    }
  }

  /** An immediate second sync creates no row. */
  lemma SyncAllIdempotent(configs: seq<Config>, jobs: seq<string>)
    ensures SyncAll(SyncAll(configs, jobs), jobs) == SyncAll(configs, jobs)
  {
    SyncAllCovers(configs, jobs);
    SyncAllNothingMissing(SyncAll(configs, jobs), jobs);
  }

  /** What the table's keys and validators promise: one row per job, an interval of at least 1, a known unit. */
  predicate ConfigsValid(configs: seq<Config>)
  {
    && UniqueJobs(configs)
    && forall i :: 0 <= i < |configs| ==>
         configs[i].intervalValue >= 1 && configs[i].intervalUnit in {"seconds", "minutes", "hours", "days", "weeks"}
  }

  /** The sync only ever adds valid rows for jobs without one, so a valid table stays valid. */
  lemma {:induction false} SyncAllKeepsValid(configs: seq<Config>, jobs: seq<string>)
    requires ConfigsValid(configs)
    ensures ConfigsValid(SyncAll(configs, jobs))
  {
    if jobs != [] {
      var c := SyncAll(configs, jobs[..|jobs| - 1]);
      SyncAllKeepsValid(configs, jobs[..|jobs| - 1]);
      var r := SyncOne(c, jobs[|jobs| - 1]);
      if !HasConfig(c, jobs[|jobs| - 1]) {
        assert forall i :: 0 <= i < |c| ==> r[i] == c[i];
        assert r[|c|] == DefaultConfig(jobs[|jobs| - 1]);
      }
    }
  }

  /** A default job of `start_scheduler` and whether it has a cron trigger. */
  datatype DefaultJob = DefaultJob(id: string, cron: bool)

  /** The jobs `start_scheduler` adds. */
  const DefaultJobs: seq<DefaultJob> := [DefaultJob("check_expired_subscriptions", false), DefaultJob("delete_old_job_executions", true)]

  /** The row created at start-up: daily with a descriptive cron text for a cron job, every minute otherwise. */
  function InitialConfig(j: DefaultJob): (c: Config)
    ensures c.jobId == j.id && c.isEnabled && c.intervalValue == 1 && c.scheduleTime.None?
    ensures j.cron ==> ScheduleDisplay(c) == "Cron: Daily at midnight"
    ensures !j.cron ==> ScheduleDisplay(c) == "Every 1 minutes"
  {
    if j.cron then Config(j.id, true, 1, "days", Some("Daily at midnight"), None)
    else Config(j.id, true, 1, "minutes", None, None)
  }

  /**
   * One step of the start-up loop: a default job without a row gets its initial row, unless
   * the job is not stored, in which case the lookup fails and the job is skipped.
   */
  function InitOne(configs: seq<Config>, j: DefaultJob, stored: set<string>): seq<Config>
  {
    if HasConfig(configs, j.id) || j.id !in stored then configs else configs + [InitialConfig(j)]
  }

  function InitAll(configs: seq<Config>, jobs: seq<DefaultJob>, stored: set<string>): (r: seq<Config>)
    ensures |configs| <= |r| && r[..|configs|] == configs
  {
    if jobs == [] then configs
    else
      var c := InitAll(configs, jobs[..|jobs| - 1], stored);
      assert c[..|configs|] == configs;
      InitOne(c, jobs[|jobs| - 1], stored)
  }

  /**
   * After start-up every stored default job has a row, rows are only ever added, and a job
   * that already had a row keeps it as it was.
   */
  lemma {:induction false} InitAllCovers(configs: seq<Config>, jobs: seq<DefaultJob>, stored: set<string>)
    ensures forall k :: 0 <= k < |jobs| && jobs[k].id in stored ==> HasConfig(InitAll(configs, jobs, stored), jobs[k].id)
    ensures (forall k :: 0 <= k < |jobs| ==> HasConfig(configs, jobs[k].id)) ==> InitAll(configs, jobs, stored) == configs
  {
    if jobs != [] {
      var init := jobs[..|jobs| - 1];
      var c := InitAll(configs, init, stored);
      InitAllCovers(configs, init, stored);
      var r := InitOne(c, jobs[|jobs| - 1], stored);
      forall k | 0 <= k < |jobs| && jobs[k].id in stored
        ensures HasConfig(r, jobs[k].id)
      {
        if k < |jobs| - 1 {
          assert init[k] == jobs[k];
          var i :| 0 <= i < |c| && c[i].jobId == jobs[k].id;
          assert r[i] == c[i];
        } else if !HasConfig(c, jobs[k].id) {
          assert r[|c|].jobId == jobs[k].id;
        }
      }
      if forall k :: 0 <= k < |jobs| ==> HasConfig(configs, jobs[k].id) {
        assert forall k :: 0 <= k < |init| ==> init[k] == jobs[k];
      }
    }
  }

  /** Start-up keeps a valid table valid. */
  lemma {:induction false} InitAllKeepsValid(configs: seq<Config>, jobs: seq<DefaultJob>, stored: set<string>)
    requires ConfigsValid(configs)
    ensures ConfigsValid(InitAll(configs, jobs, stored))
  {
    if jobs != [] {
      var c := InitAll(configs, jobs[..|jobs| - 1], stored);
      InitAllKeepsValid(configs, jobs[..|jobs| - 1], stored);
      var j := jobs[|jobs| - 1];
      var r := InitOne(c, j, stored);
      if !HasConfig(c, j.id) && j.id in stored {
        assert forall i :: 0 <= i < |c| ==> r[i] == c[i];
        assert r[|c|] == InitialConfig(j);
      }
    }
  }

  /** The `schedule_config` table. */
  class ConfigTable {
    var configs: seq<Config>

    constructor (configs: seq<Config>)
      ensures this.configs == configs
    {
      this.configs := configs;
    }

    /** `ScheduleConfig.sync_from_apscheduler`: returns how many rows it created. */
    method SyncFromApscheduler(jobs: seq<string>) returns (created: nat)
      modifies this
      ensures configs == SyncAll(old(configs), jobs)
      ensures created == |configs| - |old(configs)|
    {
      created := 0;
      for k := 0 to |jobs|
        invariant configs == SyncAll(old(configs), jobs[..k])
        invariant created == |configs| - |old(configs)|
      {
        assert jobs[..k + 1][..k] == jobs[..k];
        if !HasConfig(configs, jobs[k]) {
          configs := configs + [DefaultConfig(jobs[k])];
          created := created + 1;
        }
      }
      assert jobs[..|jobs|] == jobs;
    }

    /** The configuration loop at the end of `start_scheduler`. */
    method InitializeDefaults(stored: set<string>)
      modifies this
      ensures configs == InitAll(old(configs), DefaultJobs, stored)
    {
      var jobs := DefaultJobs;
      for k := 0 to |jobs|
        invariant configs == InitAll(old(configs), jobs[..k], stored)
      {
        assert jobs[..k + 1][..k] == jobs[..k];
        var j := jobs[k];
        if !HasConfig(configs, j.id) && j.id in stored {
          configs := configs + [InitialConfig(j)];
        }
      }
      assert jobs[..|jobs|] == jobs;
    }
  }

  /** A second sync straight after the first creates nothing. */
  method SyncTwice(t: ConfigTable, jobs: seq<string>) returns (first: nat, second: nat)
    modifies t
    ensures second == 0 && first == |t.configs| - |old(t.configs)|
  {
    first := t.SyncFromApscheduler(jobs);
    SyncAllIdempotent(old(t.configs), jobs);
    second := t.SyncFromApscheduler(jobs);
  }

  // ---------------------------------------------------------------- the serializer

  /** A stored run of a job: when it ran, its status, and the exception text if any. */
  datatype Execution = Execution(runTime: int, status: string, exception: Option<string>)

  /** `order_by('-run_time').first()`: a run with the latest time. */
  function Latest(runs: seq<Execution>): (r: Option<nat>)
    ensures r.None? <==> runs == []
    ensures r.Some? ==> r.value < |runs| && forall k :: 0 <= k < |runs| ==> runs[k].runTime <= runs[r.value].runTime
  {
    if runs == [] then None
    else
      var last := |runs| - 1;
      match Latest(runs[..last])
      case None => Some(last)
      case Some(k) =>
        assert forall j :: 0 <= j < last ==> runs[..last][j] == runs[j];
        if runs[last].runTime > runs[k].runTime then Some(last) else Some(k)
  }

  /**
   * `get_last_status`: nothing without runs; for the latest run `Executed` reads as `Success`,
   * a recorded exception as `Failed`, and any other status is passed on.
   */
  function LastStatus(runs: seq<Execution>): (r: Option<string>)
    ensures r.None? <==> runs == []
    ensures runs != [] && runs[Latest(runs).value].status == "Executed" ==> r == Some("Success")
    ensures runs != [] && runs[Latest(runs).value].status != "Executed" ==>
      var e := runs[Latest(runs).value].exception;
      r == if e.Some? && e.value != "" then Some("Failed") else Some(runs[Latest(runs).value].status)
  {
    match Latest(runs)
    case None => None
    case Some(k) =>
      if runs[k].status == "Executed" then Some("Success")
      else if runs[k].exception.Some? && runs[k].exception.value != "" then Some("Failed")
      else Some(runs[k].status)
  }

  /** Replacing one character by another keeps the length and leaves none of the first. */
  lemma {:induction false} ReplaceCharSpec(s: string, a: char, b: char)
    requires a != b
    ensures |ReplaceAll(s, [a], [b])| == |s|
    ensures forall i :: 0 <= i < |s| ==> ReplaceAll(s, [a], [b])[i] == if s[i] == a then b else s[i]
    decreases |s|
  {
    if |s| >= 1 {
      ReplaceCharSpec(s[1..], a, b);
      var rest := ReplaceAll(s[1..], [a], [b]);
      if s[..1] == [a] {
        assert ReplaceAll(s, [a], [b]) == [b] + rest;
      } else {
        assert ReplaceAll(s, [a], [b]) == [s[0]] + rest;
      }
    }
  }

  /** `get_name`: the job id with underscores as spaces, capitalised; "Unknown Job" without an id. */
  function JobName(jobId: string): (r: string)
    ensures jobId == "" ==> r == "Unknown Job"
    ensures jobId != "" ==> |r| == |jobId| && forall i :: 0 <= i < |r| ==> r[i] != '_'
  {
    if jobId == "" then "Unknown Job"
    else
      ReplaceCharSpec(jobId, '_', ' ');
      Capitalize(ReplaceAll(jobId, "_", " "))
  }

  /** `get_description`: a fixed text for the two known jobs, else one naming the job. */
  function JobDescription(jobId: string): (r: string)
    ensures jobId != "check_expired_subscriptions" && jobId != "delete_old_job_executions" ==>
      r == "Schedule configuration for " + JobName(jobId)
  {
    if jobId == "check_expired_subscriptions" then
      "Checks for subscriptions with unpaid bills past their expiry date and disables them"
    else if jobId == "delete_old_job_executions" then "Cleans up old job execution records from the database"
    else "Schedule configuration for " + JobName(jobId)
  }

  // ---------------------------------------------------------------- keeping the scheduler in line

  /** A scheduled job: paused when it has no next run time; `interval` in seconds for an interval trigger. */
  datatype Job = Job(id: string, paused: bool, interval: Option<int>)

  const SyncJobId := "sync_scheduler_jobs"

  /** The interval in seconds a row asks for; no value for a unit the scheduler does not know. */
  function TargetSeconds(c: Config): (r: Option<int>)
    ensures r.Some? <==> c.intervalUnit in {"seconds", "minutes", "hours", "days", "weeks"}
    ensures c.intervalUnit == "seconds" ==> r == Some(c.intervalValue)
    ensures c.intervalUnit == "minutes" ==> r == Some(c.intervalValue * 60)
    ensures c.intervalUnit == "hours" ==> r == Some(c.intervalValue * 3600)
    ensures c.intervalUnit == "days" ==> r == Some(c.intervalValue * 86400)
    ensures c.intervalUnit == "weeks" ==> r == Some(c.intervalValue * 604800)
  {
    var v := c.intervalValue;
    match c.intervalUnit
    case "seconds" => Some(v)
    case "minutes" => Some(v * 60)
    case "hours" => Some(v * 3600)
    case "days" => Some(v * 86400)
    case "weeks" => Some(v * 604800)
    case _ => None
  }

  function Abs(x: int): nat
  {
    if x < 0 then -x else x
  }

  /**
   * One iteration of `sync_scheduler_jobs`: the sync job itself, a job without a row and a job
   * whose scheduler calls raise are left alone; otherwise an enabled paused job is resumed, a
   * disabled running job is paused, and an enabled interval job more than a second off its
   * row's interval gets the row's interval.
   */
  function SyncJob(j: Job, configs: seq<Config>, faulty: set<string>): Job
  {
    if j.id == SyncJobId || j.id in faulty then j
    else match FindConfig(configs, j.id)
      case None => j
      case Some(k) =>
        var c := configs[k];
        var j1 := if c.isEnabled && j.paused then j.(paused := false)
                  else if !c.isEnabled && !j.paused then j.(paused := true)
                  else j;
        if c.isEnabled && j1.interval.Some? && TargetSeconds(c).Some? && Abs(j1.interval.value - TargetSeconds(c).value) > 1
        then j1.(interval := TargetSeconds(c))
        else j1
  }

  function SyncJobs(jobs: seq<Job>, configs: seq<Config>, faulty: set<string>): (r: seq<Job>)
    ensures |r| == |jobs|
  {
    seq(|jobs|, i requires 0 <= i < |jobs| => SyncJob(jobs[i], configs, faulty))
  }

  /**
   * After a pass, a handled job runs exactly when its row is enabled, an enabled interval job
   * is within a second of its row's interval, and the sync job, jobs without a row and failing
   * jobs are untouched. Only the pause flag and the interval ever change.
   */
  lemma SyncJobsEffect(jobs: seq<Job>, configs: seq<Config>, faulty: set<string>, i: nat)
    requires i < |jobs|
    ensures var j := jobs[i];
      var r := SyncJobs(jobs, configs, faulty)[i];
      && r.id == j.id
      && (j.id == SyncJobId || j.id in faulty || !HasConfig(configs, j.id) ==> r == j)
      && (j.id != SyncJobId && j.id !in faulty && HasConfig(configs, j.id) ==>
            var c := configs[FindConfig(configs, j.id).value];
            && (r.paused <==> !c.isEnabled)
            && (c.isEnabled && j.interval.Some? && TargetSeconds(c).Some? ==>
                  r.interval.Some? && Abs(r.interval.value - TargetSeconds(c).value) <= 1)
            && (r.interval != j.interval ==>
                  c.isEnabled && j.interval.Some? && TargetSeconds(c).Some? && Abs(j.interval.value - TargetSeconds(c).value) > 1))
  {
  }

  /** A second pass straight after the first changes nothing. */
  lemma SyncJobsIdempotent(jobs: seq<Job>, configs: seq<Config>, faulty: set<string>)
    ensures SyncJobs(SyncJobs(jobs, configs, faulty), configs, faulty) == SyncJobs(jobs, configs, faulty)
  {
    var once := SyncJobs(jobs, configs, faulty);
    forall i | 0 <= i < |jobs|
      ensures SyncJob(once[i], configs, faulty) == once[i]
    {
      SyncJobsEffect(jobs, configs, faulty, i);
    }
  }

  /** The scheduler's jobs. */
  class Scheduler {
    var jobs: seq<Job>

    constructor (jobs: seq<Job>)
      ensures this.jobs == jobs
    {
      this.jobs := jobs;
    }

    /** `sync_scheduler_jobs`: one pass over the jobs the scheduler holds. */
    method SyncSchedulerJobs(configs: seq<Config>, faulty: set<string>)
      modifies this
      ensures jobs == SyncJobs(old(jobs), configs, faulty)
    {
      for i := 0 to |jobs|
        invariant |jobs| == |old(jobs)|
        invariant forall k :: 0 <= k < i ==> jobs[k] == SyncJob(old(jobs)[k], configs, faulty)
        invariant forall k :: i <= k < |jobs| ==> jobs[k] == old(jobs)[k]
      {
        jobs := jobs[i := SyncJob(jobs[i], configs, faulty)];
      }
    }
  }
}
