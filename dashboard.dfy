/**
 * The dashboard's read model over the status ledger (`get_status`): the overall
 * status, the uptime split into hours, minutes and seconds, and one table row
 * per configured worker with defaults for workers the pinger has not reached yet.
 *
 * The uptime in whole seconds is a parameter: `None` when the process has no
 * start time, `Some(u)` otherwise.
 */
module Dashboard {
  import opened Optional
  import opened Text
  import opened Pinger

  const Online: string := "\U{1F7E2} Online"
  const Offline: string := "\U{1F534} Offline"
  const NotAvailable: string := "N/A"
  const NotYet: string := "Not yet"

  const CheckMark: string := "\U{2705}"
  const CrossMark: string := "\U{274C}"
  const Hourglass: string := "\U{23F3}"
  const Recycle: string := "\U{1F504}"

  /** "Online" exactly when a start time is known. */
  function OverallStatus(uptime: Option<int>): (s: string)
    ensures s == Online <==> uptime.Some?
    ensures s == Offline <==> uptime.None?
  {
    if uptime.Some? then Online else Offline
  }

  /**
   * Python's `divmod(u, 3600)` then `divmod(remainder, 60)`. Python divides with
   * floor; for a positive divisor Dafny's Euclidean `/` and `%` give the same
   * quotient and remainder, also for a negative `u`.
   */
  function SplitUptime(u: int): (hms: (int, int, int))
    ensures hms.0 * 3600 + hms.1 * 60 + hms.2 == u
    ensures 0 <= hms.1 < 60 && 0 <= hms.2 < 60
    ensures u >= 0 ==> hms.0 >= 0
  {
    var (hours, remainder) := (u / 3600, u % 3600);
    var (minutes, seconds) := (remainder / 60, remainder % 60);
    (hours, minutes, seconds)
  }

  /** The `"{h}h {m}m {s}s"` rendering of hours, minutes and seconds. */
  function HmsText(hours: int, minutes: int, seconds: int): (s: string)
    ensures |s| >= 1 && s[|s| - 1] == 's'
  {
    IntToString(hours) + "h " + IntToString(minutes) + "m " + IntToString(seconds) + "s"
  }

  /** The uptime text: `"{h}h {m}m {s}s"`, or "N/A" without a start time. */
  function UptimeText(uptime: Option<int>): (s: string)
    ensures s == NotAvailable <==> uptime.None?
    ensures uptime.Some? ==> |s| >= 1 && s[|s| - 1] == 's'
  {
    match uptime
    case None => NotAvailable
    case Some(u) =>
      var hms := SplitUptime(u);
      HmsText(hms.0, hms.1, hms.2)
  }

  /** The status the dashboard reads: an entry that has not completed a run, or no entry, has none. */
  function StatusOf(entry: Option<Record>): (s: Option<string>)
    ensures s.Some? <==> entry.Some? && entry.value.Pinged?
    ensures s.Some? ==> s.value == entry.value.status
  {
    match entry
    case Some(Pinged(_, status, _, _)) => Some(status)
    case _ => None
  }

  /** The last-ping column: the completed run's timestamp, or "Not yet" before the first one. */
  function LastPingText(entry: Option<Record>): (t: string)
    ensures entry.Some? && entry.value.Pinged? ==> t == entry.value.lastPing
    ensures !(entry.Some? && entry.value.Pinged?) ==> t == NotYet
  {
    match entry
    case Some(Pinged(lastPing, _, _, _)) => lastPing
    case _ => NotYet
  }

  /** The failure column: the stored count, which every written entry has, or 0 without an entry. */
  function FailuresOf(entry: Option<Record>): (n: nat)
    ensures entry.None? ==> n == 0
    ensures entry.Some? ==> n == entry.value.consecutiveFailures
  {
    match entry
    case Some(r) => r.consecutiveFailures
    case None => 0
  }

  /** The status glyph: a check mark for "ok", a cross for "failed", an hourglass otherwise. */
  function Glyph(status: Option<string>): (g: string)
    ensures g == CheckMark <==> status == Some(StatusOk)
    ensures g == CrossMark <==> status == Some(StatusFailed)
    ensures g == Hourglass <==> status != Some(StatusOk) && status != Some(StatusFailed)
  {
    if status == Some("ok") then CheckMark
    else if status == Some("failed") then CrossMark
    else Hourglass
  }

  /** One table row: URL, interval, last ping, status glyph, failure count, auto-restart mark. */
  function Row(worker: Worker, ledger: Ledger): (row: seq<string>)
    ensures |row| == 6 && row[0] == worker.url
  {
    var entry := Get(ledger, worker.url);
    [ worker.url,
      NatToString(worker.intervalMinutes) + " min",
      LastPingText(entry),
      Glyph(StatusOf(entry)),
      NatToString(FailuresOf(entry)),
      if HasSpaceId(worker) then Recycle else "" ]
  }

  /** Floor division is determined by the quotient and remainder it must produce. */
  lemma DivModUnique(u: int, d: int, q: int, r: int)
    requires d > 0 && 0 <= r < d && u == q * d + r
    ensures u / d == q && u % d == r
  {
    var k := q - u / d;
    assert k * d == u % d - r;
    MultipleOutsideOpenInterval(k, d);
  }

  /** A non-zero multiple of `d` lies at least `d` away from zero. */
  lemma MultipleOutsideOpenInterval(k: int, d: int)
    requires d > 0
    ensures k >= 1 ==> k * d >= d
    ensures k <= -1 ==> k * d <= -d
  {
  }

  /** Splitting `h*3600 + m*60 + sec` gives back `h`, `m` and `sec` when `m` and `sec` are in 0..59. */
  lemma SplitUptimeOfParts(h: int, m: int, sec: int)
    requires 0 <= m < 60 && 0 <= sec < 60
    ensures SplitUptime(h * 3600 + m * 60 + sec) == (h, m, sec)
  {
    var remainder := m * 60 + sec;
    DivModUnique(h * 3600 + remainder, 3600, h, remainder);
    DivModUnique(remainder, 60, m, sec);
  }

  /**
   * The uptime text shows exactly the hours, minutes and seconds the uptime is made of:
   * an uptime of `h*3600 + m*60 + sec` seconds, with minutes and seconds in 0..59,
   * is rendered as `"{h}h {m}m {sec}s"`.
   */
  lemma UptimeTextOfSplit(u: int, h: int, m: int, sec: int)
    requires 0 <= m < 60 && 0 <= sec < 60 && u == h * 3600 + m * 60 + sec
    ensures UptimeText(Some(u)) == IntToString(h) + "h " + IntToString(m) + "m " + IntToString(sec) + "s"
  {
    SplitUptimeOfParts(h, m, sec);
    var hms := SplitUptime(u);
    assert UptimeText(Some(u)) == HmsText(hms.0, hms.1, hms.2);
    assert hms == (h, m, sec);
    assert UptimeText(Some(u)) == HmsText(h, m, sec);
  }

  /** The worker table of `get_status`: one row per worker, appended in roster order. */
  method BuildTable(workers: seq<Worker>, ledger: Ledger) returns (table: seq<seq<string>>)
    ensures |table| == |workers|
    ensures forall i :: 0 <= i < |workers| ==> table[i] == Row(workers[i], ledger)
  {
    table := [];
    for i := 0 to |workers|
      invariant |table| == i
      invariant forall j :: 0 <= j < i ==> table[j] == Row(workers[j], ledger)
    {
      var row := Row(workers[i], ledger);
      table := table + [row];
    }
  }

  /** `get_status`: the overall status, the uptime text and one row per worker, in roster order. */
  method GetStatus(workers: seq<Worker>, ledger: Ledger, uptime: Option<int>)
    returns (status: string, uptimeText: string, table: seq<seq<string>>)
    ensures status == OverallStatus(uptime)
    ensures uptimeText == UptimeText(uptime)
    ensures |table| == |workers|
    ensures forall i :: 0 <= i < |workers| ==> table[i] == Row(workers[i], ledger)
  {
    status := OverallStatus(uptime);
    uptimeText := UptimeText(uptime);
    table := BuildTable(workers, ledger);
  }

  /** The interval and failure columns read back as the numbers they show. */
  lemma RowNumbersRoundTrip(worker: Worker, ledger: Ledger)
    ensures var row := Row(worker, ledger);
            && |row[1]| >= 4 && row[1][|row[1]| - 4..] == " min"
            && ParseNat(row[1][..|row[1]| - 4]) == Some(worker.intervalMinutes)
            && ParseNat(row[4]) == Some(FailuresOf(Get(ledger, worker.url)))
  {
    var row := Row(worker, ledger);
    assert row[1][..|row[1]| - 4] == NatToString(worker.intervalMinutes);
    ParseNatRoundTrip(worker.intervalMinutes);
    ParseNatRoundTrip(FailuresOf(Get(ledger, worker.url)));
  }

  /** A worker with no ledger entry shows "Not yet", an hourglass and 0 failures. */
  lemma RowForUnpingedWorker(worker: Worker, ledger: Ledger)
    requires worker.url !in ledger
    ensures var row := Row(worker, ledger);
            row[2] == NotYet && row[3] == Hourglass && ParseNat(row[4]) == Some(0)
  {
    RowNumbersRoundTrip(worker, ledger);
  }

  /** An entry written before the first probe completes holds only the count; it shows an hourglass and "Not yet". */
  lemma RowForInitializedEntry(worker: Worker, ledger: Ledger)
    requires worker.url in ledger && ledger[worker.url].Initialized?
    ensures var row := Row(worker, ledger);
            row[2] == NotYet && row[3] == Hourglass
            && ParseNat(row[4]) == Some(ledger[worker.url].consecutiveFailures)
  {
    RowNumbersRoundTrip(worker, ledger);
  }

  /** A completed run's entry shows its ping time, its outcome's glyph and its count. */
  lemma RowForPingedEntry(worker: Worker, ledger: Ledger)
    requires worker.url in ledger && ledger[worker.url].Pinged?
    ensures var r := ledger[worker.url];
            var row := Row(worker, ledger);
            && row[2] == r.lastPing
            && (row[3] == CheckMark <==> r.status == StatusOk)
            && (row[3] == CrossMark <==> r.status == StatusFailed)
            && ParseNat(row[4]) == Some(r.consecutiveFailures)
  {
    RowNumbersRoundTrip(worker, ledger);
  }

  /** The auto-restart column is marked exactly for workers with a Space id. */
  lemma AutoRestartColumn(worker: Worker, ledger: Ledger)
    ensures Row(worker, ledger)[5] == Recycle <==> HasSpaceId(worker)
    ensures Row(worker, ledger)[5] == "" <==> !HasSpaceId(worker)
  {
  }

  /** After a run the dashboard row for that worker reflects the run's outcome and count. */
  lemma RowAfterRun(ledger: Ledger, worker: Worker, probes: seq<bool>,
                    token: Option<string>, reply: RestartReply, now: Timestamp)
    requires |probes| == MaxRetries
    ensures var l := Tick(ledger, worker, probes, token, reply, now);
            var row := Row(worker, l);
            && row[2] == now
            && (row[3] == CheckMark <==> Succeeded(probes))
            && (row[3] == CrossMark <==> !Succeeded(probes))
            && ParseNat(row[4]) == Some(l[worker.url].consecutiveFailures)
  {
    var l := Tick(ledger, worker, probes, token, reply, now);
    RowForPingedEntry(worker, l);
  }
}
