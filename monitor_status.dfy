/** The monitor status service (dist/services/monitor-status.js): the
    selection of the monitor's process in pm2's process list and the
    uptime label. Running `pm2 jlist` and parsing its output are left to
    the caller, which passes the parsed list or nothing on failure. */
module MonitorStatus {
  import opened Wrappers
  import opened Text

  const MonitorName: string := "market-monitor"
  const SecondMs: nat := 1000
  const MinuteMs: nat := 60 * SecondMs
  const HourMs: nat := 60 * MinuteMs
  const DayMs: nat := 24 * HourMs

  // ---------------------------------------------------------------------
  // Uptime
  // ---------------------------------------------------------------------

  /** The two units an uptime label shows: the largest non-zero unit and
      the remainder in the next one, or just the seconds. */
  datatype Uptime = Days(days: int, hours: int) | Hours(hours: int, minutes: int)
                  | Minutes(minutes: int, seconds: int) | Seconds(seconds: int)

  /** The floor divisions and the first branch with a positive count. For
      a negative duration every count is negative and only the seconds are
      shown; the remainders are only taken of positive counts, where
      JavaScript's `%` agrees with Dafny's. */
  function UptimeParts(ms: int): Uptime {
    var seconds := ms / 1000;
    var minutes := seconds / 60;
    var hours := minutes / 60;
    var days := hours / 24;
    if days > 0 then Days(days, hours % 24)
    else if hours > 0 then Hours(hours, minutes % 60)
    else if minutes > 0 then Minutes(minutes, seconds % 60)
    else Seconds(seconds)
  }

  /** `formatUptime(ms)`. */
  function FormatUptime(ms: int): string {
    match UptimeParts(ms)
    case Days(d, h) => IntToString(d) + "d " + IntToString(h) + "h"
    case Hours(h, m) => IntToString(h) + "h " + IntToString(m) + "m"
    case Minutes(m, s) => IntToString(m) + "m " + IntToString(s) + "s"
    case Seconds(s) => IntToString(s) + "s"
  }

  /** Which branch applies, by the duration's size, and what its numbers
      mean: the first unit counts whole units of the duration and the
      second one the whole units of the remainder, below its modulus. */
  lemma UptimePartsSpec(ms: int)
    ensures UptimeParts(ms).Days? <==> ms >= DayMs
    ensures UptimeParts(ms).Hours? <==> HourMs <= ms < DayMs
    ensures UptimeParts(ms).Minutes? <==> MinuteMs <= ms < HourMs
    ensures UptimeParts(ms).Seconds? <==> ms < MinuteMs
    ensures match UptimeParts(ms)
            case Days(d, h) => d == ms / DayMs && 0 <= h < 24 && d * 24 + h == ms / HourMs
            case Hours(h, m) => h == ms / HourMs && 0 <= m < 60 && h * 60 + m == ms / MinuteMs
            case Minutes(m, s) => m == ms / MinuteMs && 0 <= s < 60 && m * 60 + s == ms / SecondMs
            case Seconds(s) => s == ms / SecondMs
  {
    assert ms / 1000 / 60 == ms / MinuteMs;
    assert ms / 1000 / 60 / 60 == ms / HourMs;
    assert ms / 1000 / 60 / 60 / 24 == ms / DayMs;
  }

  // ---------------------------------------------------------------------
  // Process selection
  // ---------------------------------------------------------------------

  datatype Pm2Env = Pm2Env(status: string, pmUptime: int, restartTime: int)
  datatype Monit = Monit(memory: int, cpu: int)

  /** An entry of pm2's process list; `env` and `monit` are absent when
      the entry lacks `pm2_env` or `monit`. */
  datatype Process = Process(name: string, env: Option<Pm2Env>, monit: Option<Monit>)

  /** The status record; the memory label is not part of this model. */
  datatype Status = Status(isRunning: bool, uptime: Option<string>, cpu: Option<string>, restarts: Option<int>)

  const NotRunning: Status := Status(false, None, None, None)

  /** `processes.find(p => p.name === 'market-monitor')`, as an index. */
  function FindMonitor(processes: seq<Process>): (r: Option<nat>)
    ensures r.Some? ==> r.value < |processes| && processes[r.value].name == MonitorName
                        && forall j :: 0 <= j < r.value ==> processes[j].name != MonitorName
    ensures r.None? ==> forall j :: 0 <= j < |processes| ==> processes[j].name != MonitorName
    decreases |processes|
  {
    if processes == [] then None
    else if processes[0].name == MonitorName then Some(0)
    else match FindMonitor(processes[1..])
      case Some(i) => Some(i + 1)
      case None => None
  }

  /** `getMonitorStatus()` given the parsed process list (or None when
      running or parsing `pm2 jlist` failed) and the current time. Reading
      a field of a missing `pm2_env` or `monit` throws, which the source
      answers with "not running". */
  function GetMonitorStatus(processes: Option<seq<Process>>, now: int): Status {
    if processes.None? then NotRunning
    else
      match FindMonitor(processes.value)
      case None => NotRunning
      case Some(i) =>
        var p := processes.value[i];
        if p.env.None? || p.monit.None? then NotRunning
        else Status(
          p.env.value.status == "online",
          Some(FormatUptime(now - p.env.value.pmUptime)),
          Some(IntToString(p.monit.value.cpu) + "%"),
          Some(p.env.value.restartTime))
  }

  /** The monitor is reported running exactly when the list was read, its
      first entry named "market-monitor" is complete and its status is
      "online"; in every other case only "not running" is reported. */
  lemma IsRunningSpec(processes: Option<seq<Process>>, now: int)
    ensures GetMonitorStatus(processes, now).isRunning <==>
              && processes.Some?
              && (exists i :: 0 <= i < |processes.value| && processes.value[i].name == MonitorName
                    && (forall j :: 0 <= j < i ==> processes.value[j].name != MonitorName)
                    && processes.value[i].env.Some? && processes.value[i].monit.Some?
                    && processes.value[i].env.value.status == "online")
    ensures processes.None? || FindMonitor(processes.value).None? ==> GetMonitorStatus(processes, now) == NotRunning
  {
    if processes.Some? {
      match FindMonitor(processes.value)
      case None =>
      case Some(i) =>
        forall k | 0 <= k < |processes.value| && processes.value[k].name == MonitorName
                   && (forall j :: 0 <= j < k ==> processes.value[j].name != MonitorName)
          ensures k == i
        {
        }
    }
  }
}
