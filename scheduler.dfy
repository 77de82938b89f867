/** The service's scheduler switch (main.py): one flag, set by the start
    endpoint, cleared by the stop endpoint and reported by the status and
    health endpoints. The scan thread the flag drives is not modelled. */
module Scheduler {

  const ServiceName := "Email Scanner Service"

  /** The JSON body of the start and stop endpoints. */
  datatype Reply = Reply(status: string, message: string)

  /** The body of GET /scheduler/status. */
  datatype StatusReport = StatusReport(running: bool, intervalMinutes: int, status: string)

  /** The body of GET /. */
  datatype HealthReport = HealthReport(service: string, status: string, schedulerStatus: string, schedulerIntervalMinutes: int)

  function DigitChar(d: nat): char
    requires d < 10
  {
    "0123456789"[d]
  }

  /** `str(n)` for an int. */
  function Decimal(n: int): string
    decreases if n < 0 then 1 - n else n
  {
    if n < 0 then "-" + Decimal(-n)
    else if n < 10 then [DigitChar(n)]
    else Decimal(n / 10) + [DigitChar(n % 10)]
  }

  /** "running" or "stopped", as the flag says. */
  function FlagWord(running: bool): (w: string)
    ensures w == "running" <==> running
    ensures w == "stopped" <==> !running
  {
    if running then "running" else "stopped"
  }

  class Scheduler {
    /** scheduler_running */
    var running: bool
    /** SCHEDULER_INTERVAL_MINUTES, fixed when the settings are loaded. */
    const intervalMinutes: int

    /** The flag starts cleared at import time. */
    constructor (intervalMinutes: int)
      ensures !running && this.intervalMinutes == intervalMinutes
    {
      running := false;
      this.intervalMinutes := intervalMinutes;
    }

    /** start_scheduler: refuses when already running, else sets the flag. */
    method Start() returns (r: Reply)
      modifies this
      ensures running
      ensures old(running) ==> r == Reply("already_running", "Scheduler is already running")
      ensures !old(running) ==> r == Reply("success", "Scheduler started with " + Decimal(intervalMinutes) + " minute interval")
    {
      if running {
        return Reply("already_running", "Scheduler is already running");
      }
      running := true;
      r := Reply("success", "Scheduler started with " + Decimal(intervalMinutes) + " minute interval");
    }

    /** stop_scheduler: refuses when not running, else clears the flag. */
    method Stop() returns (r: Reply)
      modifies this
      ensures !running
      ensures !old(running) ==> r == Reply("not_running", "Scheduler is not running")
      ensures old(running) ==> r == Reply("success", "Scheduler stopped")
    {
      if !running {
        return Reply("not_running", "Scheduler is not running");
      }
      running := false;
      r := Reply("success", "Scheduler stopped");
    }

    /** get_scheduler_status: the flag, the interval, and the flag as a word. */
    function Status(): (r: StatusReport)
      reads this
      ensures r.running == running && r.intervalMinutes == intervalMinutes
      ensures r.status == "running" <==> running
      ensures r.status == "stopped" <==> !running
    {
      StatusReport(running, intervalMinutes, FlagWord(running))
    }

    /** health_check: the service always reports "running"; the scheduler
        part follows the flag. */
    function Health(): (r: HealthReport)
      reads this
      ensures r.service == ServiceName && r.status == "running"
      ensures r.schedulerStatus == "running" <==> running
      ensures r.schedulerStatus == "stopped" <==> !running
      ensures r.schedulerIntervalMinutes == intervalMinutes
    {
      HealthReport(ServiceName, "running", FlagWord(running), intervalMinutes)
    }
  }

  /** The two read endpoints never disagree about the scheduler. */
  lemma ReportsAgree(s: Scheduler)
    ensures s.Status().status == s.Health().schedulerStatus
    ensures s.Status().intervalMinutes == s.Health().schedulerIntervalMinutes
  {
  }
}
