/**
 * The per-worker ping-and-recover step of the master pinger.
 *
 * One scheduled run probes a worker URL up to `MaxRetries` times, sleeping with
 * exponential backoff between failed attempts, writes one record for that URL
 * into the shared status ledger, counts consecutive fully failed runs, and once
 * that count reaches `FailureThreshold` asks for a restart of the worker's
 * Space (when it has one), clearing the count only when the restart succeeds.
 *
 * The network is abstracted: each run receives the outcome of every possible
 * probe attempt as a boolean, the restart endpoint's reply as a value, and the
 * wall-clock time as an opaque ISO-8601 text. Sleeps, probes and restart
 * requests are recorded in logs rather than performed.
 */
module Pinger {
  import opened Optional

  /** `datetime.now().isoformat()`, kept as the opaque text the ledger stores. */
  type Timestamp = string

  const FailureThreshold: nat := 3
  const MaxRetries: nat := 3
  /** Seconds slept after the first failed attempt; each later sleep doubles it. */
  const BaseDelay: nat := 5

  const StatusOk: string := "ok"
  const StatusFailed: string := "failed"

  /** A monitored worker: its health URL, its schedule, and an optional Space to restart. */
  datatype Worker = Worker(url: string, intervalMinutes: nat, spaceId: Option<string>)

  /** The fixed roster of monitored workers. */
  const Workers: seq<Worker> := [
    Worker("https://oharu121-discord-gemini-bot.hf.space/healthz", 5, None),
    Worker("https://oharu121-n8n-workflow.hf.space/healthz/readiness", 60, Some("oharu121/n8n-workflow")),
    Worker("https://oharu121-keiba-oracle.hf.space/healthz", 10, None),
    Worker("https://oharu121-rag-demo.hf.space/healthz", 10, None),
    Worker("https://oharu121-rich-chat-demo.hf.space/healthz", 10, None)
  ]

  /** The roster's URLs are distinct, and only the n8n workflow worker can be restarted. */
  lemma WorkersRoster()
    ensures |Workers| == 5
    ensures forall i, j :: 0 <= i < j < |Workers| ==> Workers[i].url != Workers[j].url
    ensures forall i :: 0 <= i < |Workers| ==> (HasSpaceId(Workers[i]) <==> i == 1)
  {
  }

  /** The worker can be restarted: a missing or empty Space id is false in Python's truth test. */
  predicate HasSpaceId(w: Worker)
    ensures HasSpaceId(w) <==> w.spaceId != None && w.spaceId != Some("")
  {
    w.spaceId.Some? && w.spaceId.value != ""
  }

  /**
   * One ledger entry. `Initialized` is the entry a run writes before its first
   * probe when the URL has none yet (it holds only the failure count);
   * `Pinged` is the entry a completed run leaves.
   */
  datatype Record =
    | Initialized(consecutiveFailures: nat)
    | Pinged(lastPing: Timestamp, status: string, attempts: nat, consecutiveFailures: nat)

  /** The shared status ledger, keyed by worker URL. */
  type Ledger = map<string, Record>

  function Get(ledger: Ledger, url: string): (r: Option<Record>)
    ensures r.Some? <==> url in ledger
    ensures r.Some? ==> r.value == ledger[url]
  {
    if url in ledger then Some(ledger[url]) else None
  }

  /** What the restart endpoint answered: an HTTP status code, or an exception. */
  datatype RestartReply = HttpStatus(code: int) | Raised

  /** A restart credential is configured: an absent or empty token is false in Python's truth test. */
  predicate TokenSet(token: Option<string>)
    ensures TokenSet(token) <==> token != None && token != Some("")
  {
    token.Some? && token.value != ""
  }

  /** The decision `restart_space` returns once its HTTP call is abstracted. */
  function RestartSucceeds(token: Option<string>, reply: RestartReply): (ok: bool)
    ensures ok <==> TokenSet(token) && reply == HttpStatus(200)
  {
    if !TokenSet(token) then false
    else match reply
      case HttpStatus(code) => code == 200
      case Raised => false
  }

  // ---------------------------------------------------------------------------
  // Retry and backoff

  function Pow2(n: nat): (r: nat)
    ensures r >= 1
  {
    if n == 0 then 1 else 2 * Pow2(n - 1)
  }

  lemma {:induction false} Pow2Increasing(i: nat, j: nat)
    requires i < j
    ensures Pow2(i) < Pow2(j)
    decreases j
  {
    if i < j - 1 {
      Pow2Increasing(i, j - 1);
    }
  }

  /** The sleep, in seconds, requested after failed zero-based attempt `attempt`. */
  function Backoff(attempt: nat): nat {
    BaseDelay * Pow2(attempt)
  }

  /** The backoff starts at 5 seconds and doubles with every attempt. */
  lemma BackoffDoubles(attempt: nat)
    ensures Backoff(0) == 5
    ensures Backoff(attempt + 1) == 2 * Backoff(attempt)
  {
  }

  /** The first `n` backoff delays, in the order they are requested. */
  function BackoffSchedule(n: nat): (d: seq<nat>)
    ensures |d| == n
    ensures forall i :: 0 <= i < n ==> d[i] == Backoff(i)
  {
    if n == 0 then [] else BackoffSchedule(n - 1) + [Backoff(n - 1)]
  }

  /** `n` copies of `url`: the probes a run sends before it stops. */
  function Repeat(url: string, n: nat): (s: seq<string>)
    ensures |s| == n
    ensures forall i :: 0 <= i < n ==> s[i] == url
  {
    if n == 0 then [] else Repeat(url, n - 1) + [url]
  }

  /** Index of the first successful probe, or the number of probes when none succeeds. */
  function FirstOk(probes: seq<bool>): (k: nat)
    ensures k <= |probes|
    ensures forall i :: 0 <= i < k ==> !probes[i]
    ensures k < |probes| ==> probes[k]
  {
    if probes == [] || probes[0] then 0 else 1 + FirstOk(probes[1..])
  }

  /** Some attempt of the run succeeds. */
  predicate Succeeded(probes: seq<bool>) {
    FirstOk(probes) < |probes|
  }

  lemma SucceededIff(probes: seq<bool>)
    ensures Succeeded(probes) <==> exists i :: 0 <= i < |probes| && probes[i]
  {
    if Succeeded(probes) {
      var k := FirstOk(probes);
      assert 0 <= k < |probes| && probes[k];
    }
  }

  /** The number of probes a run sends: up to the first success, at most `MaxRetries`. */
  function Attempts(probes: seq<bool>): (n: nat)
    requires |probes| == MaxRetries
    ensures 1 <= n <= MaxRetries
    ensures forall i :: 0 <= i < n - 1 ==> !probes[i]
    ensures Succeeded(probes) <==> probes[n - 1]
    ensures !Succeeded(probes) ==> n == MaxRetries
  {
    if Succeeded(probes) then FirstOk(probes) + 1 else MaxRetries
  }

  /** The sleeps a run requests: one after every failed attempt but the last. */
  function Delays(probes: seq<bool>): (d: seq<nat>)
    requires |probes| == MaxRetries
    ensures |d| == Attempts(probes) - 1
  {
    BackoffSchedule(Attempts(probes) - 1)
  }

  /** A run stops at its first success: success on attempt `k` means `k + 1` probes. */
  lemma AttemptsOfFirstSuccess(probes: seq<bool>, k: nat)
    requires |probes| == MaxRetries
    requires k < MaxRetries && probes[k]
    requires forall i :: 0 <= i < k ==> !probes[i]
    ensures Succeeded(probes) && FirstOk(probes) == k
    ensures Attempts(probes) == k + 1
    ensures Delays(probes) == BackoffSchedule(k)
  {
  }

  /** The backoff delays are 5, then 10, each strictly larger than the one before. */
  lemma DelaysIncrease(probes: seq<bool>)
    requires |probes| == MaxRetries
    ensures |Delays(probes)| < MaxRetries
    ensures |Delays(probes)| >= 1 ==> Delays(probes)[0] == 5
    ensures |Delays(probes)| >= 2 ==> Delays(probes)[1] == 10
    ensures forall i, j :: 0 <= i < j < |Delays(probes)| ==> Delays(probes)[i] < Delays(probes)[j]
  {
    var d := Delays(probes);
    forall i, j | 0 <= i < j < |d|
      ensures d[i] < d[j]
    {
      Pow2Increasing(i, j);
    }
  }

  // ---------------------------------------------------------------------------
  // Failure counting and restart

  /** The failure count a run starts from; a URL with no entry starts from 0. */
  function PriorFailures(prev: Option<Record>): (c: nat)
    ensures prev.None? ==> c == 0
    ensures prev == Some(Initialized(0)) ==> c == 0
    ensures prev.Some? ==> c == prev.value.consecutiveFailures
  {
    match prev
    case None => 0
    case Some(r) => r.consecutiveFailures
  }

  /** A fully failed run that brings the count to `consecutive` is due a restart. */
  predicate ShouldRestart(worker: Worker, consecutive: nat)
    ensures !HasSpaceId(worker) ==> !ShouldRestart(worker, consecutive)
    ensures consecutive < FailureThreshold ==> !ShouldRestart(worker, consecutive)
    ensures HasSpaceId(worker) && consecutive >= FailureThreshold ==> ShouldRestart(worker, consecutive)
  {
    HasSpaceId(worker) && consecutive >= FailureThreshold
  }

  /** The run calls `restart_space`: every attempt failed and the new count crosses the threshold. */
  predicate RestartRequested(prev: Option<Record>, worker: Worker, probes: seq<bool>)
    ensures RestartRequested(prev, worker, probes) ==> HasSpaceId(worker) && !Succeeded(probes)
    ensures RestartRequested(prev, worker, probes) ==> PriorFailures(prev) + 1 >= FailureThreshold
  {
    !Succeeded(probes) && ShouldRestart(worker, PriorFailures(prev) + 1)
  }

  /** The Space ids a run passes to `restart_space`. */
  function RestartCalls(prev: Option<Record>, worker: Worker, probes: seq<bool>): (c: seq<string>)
    ensures |c| <= 1
    ensures |c| == 1 <==> RestartRequested(prev, worker, probes)
    ensures |c| == 1 ==> HasSpaceId(worker) && c[0] == worker.spaceId.value
  {
    if RestartRequested(prev, worker, probes) then [worker.spaceId.value] else []
  }

  /** The restart POSTs a run issues: only when it calls `restart_space` and a token is set. */
  function RestartPosts(prev: Option<Record>, worker: Worker, probes: seq<bool>, token: Option<string>): (p: seq<string>)
    ensures p == [] || p == RestartCalls(prev, worker, probes)
    ensures p != [] <==> RestartRequested(prev, worker, probes) && TokenSet(token)
  {
    if TokenSet(token) then RestartCalls(prev, worker, probes) else []
  }

  /** The record a fully failed run leaves: the count goes up by one, or back to 0 after a successful restart. */
  function FailedRecord(prev: Option<Record>, worker: Worker,
                        token: Option<string>, reply: RestartReply, now: Timestamp): (r: Record)
    ensures r.Pinged? && r.lastPing == now && r.status == StatusFailed && r.attempts == MaxRetries
    ensures r.consecutiveFailures == 0 <==>
              ShouldRestart(worker, PriorFailures(prev) + 1) && RestartSucceeds(token, reply)
    ensures r.consecutiveFailures != 0 ==> r.consecutiveFailures == PriorFailures(prev) + 1
  {
    var consecutive := PriorFailures(prev) + 1;
    var restarted := ShouldRestart(worker, consecutive) && RestartSucceeds(token, reply);
    Pinged(now, StatusFailed, MaxRetries, if restarted then 0 else consecutive)
  }

  /** The record a run leaves for its URL, given the record it found there. */
  function NextRecord(prev: Option<Record>, worker: Worker, probes: seq<bool>,
                      token: Option<string>, reply: RestartReply, now: Timestamp): (r: Record)
    requires |probes| == MaxRetries
    ensures r.Pinged? && r.lastPing == now && r.attempts == Attempts(probes)
    ensures r.status == StatusOk <==> Succeeded(probes)
    ensures r.status == StatusFailed <==> !Succeeded(probes)
    ensures Succeeded(probes) ==> r.consecutiveFailures == 0
    ensures !Succeeded(probes) ==> r == FailedRecord(prev, worker, token, reply, now)
    ensures RecordOk(r)
  {
    if Succeeded(probes) then Pinged(now, StatusOk, FirstOk(probes) + 1, 0)
    else FailedRecord(prev, worker, token, reply, now)
  }

  /** The ledger after one run for `worker`. */
  function Tick(ledger: Ledger, worker: Worker, probes: seq<bool>,
                token: Option<string>, reply: RestartReply, now: Timestamp): (l: Ledger)
    requires |probes| == MaxRetries
    ensures l.Keys == ledger.Keys + {worker.url}
    ensures forall u :: u in ledger && u != worker.url ==> l[u] == ledger[u]
    ensures l[worker.url].Pinged? && l[worker.url].lastPing == now
  {
    ledger[worker.url := NextRecord(Get(ledger, worker.url), worker, probes, token, reply, now)]
  }

  /** Success on zero-based attempt `k` leaves status "ok", `k + 1` attempts and no failures, and asks for no restart. */
  lemma SuccessfulRun(ledger: Ledger, worker: Worker, probes: seq<bool>,
                      token: Option<string>, reply: RestartReply, now: Timestamp, k: nat)
    requires |probes| == MaxRetries
    requires k < MaxRetries && probes[k]
    requires forall i :: 0 <= i < k ==> !probes[i]
    ensures Tick(ledger, worker, probes, token, reply, now)[worker.url] == Pinged(now, StatusOk, k + 1, 0)
    ensures !RestartRequested(Get(ledger, worker.url), worker, probes)
    ensures RestartCalls(Get(ledger, worker.url), worker, probes) == []
  {
    AttemptsOfFirstSuccess(probes, k);
  }

  /**
   * When every attempt fails the record says "failed" after `MaxRetries` attempts,
   * and the count is one more than before unless a restart was asked for and succeeded.
   */
  lemma ExhaustedRun(ledger: Ledger, worker: Worker, probes: seq<bool>,
                     token: Option<string>, reply: RestartReply, now: Timestamp)
    requires |probes| == MaxRetries
    requires forall i :: 0 <= i < MaxRetries ==> !probes[i]
    ensures var prev := Get(ledger, worker.url);
            var r := Tick(ledger, worker, probes, token, reply, now)[worker.url];
            && r.status == StatusFailed && r.attempts == MaxRetries
            && (RestartRequested(prev, worker, probes) <==> ShouldRestart(worker, PriorFailures(prev) + 1))
            && r.consecutiveFailures == (if RestartRequested(prev, worker, probes) && RestartSucceeds(token, reply)
                                         then 0 else PriorFailures(prev) + 1)
  {
    assert !Succeeded(probes);
  }

  /** A restart is asked for exactly when all attempts failed, a Space id is set and the new count reaches the threshold. */
  lemma RestartIff(prev: Option<Record>, worker: Worker, probes: seq<bool>)
    requires |probes| == MaxRetries
    ensures RestartRequested(prev, worker, probes) <==>
              (forall i :: 0 <= i < MaxRetries ==> !probes[i])
              && HasSpaceId(worker) && PriorFailures(prev) + 1 >= FailureThreshold
  {
    SucceededIff(probes);
  }

  /**
   * A run that finds no entry for its URL first writes `Initialized(0)`; starting
   * from that entry gives the same outcome as starting from no entry at all.
   */
  lemma ExhaustedFromSeed(ledger: Ledger, seeded: Ledger, worker: Worker, probes: seq<bool>,
                          token: Option<string>, reply: RestartReply, now: Timestamp)
    requires |probes| == MaxRetries && !Succeeded(probes)
    requires seeded == ledger[worker.url := if worker.url in ledger then ledger[worker.url] else Initialized(0)]
    ensures seeded[worker.url := FailedRecord(Some(seeded[worker.url]), worker, token, reply, now)]
            == Tick(ledger, worker, probes, token, reply, now)
    ensures Attempts(probes) == MaxRetries && Delays(probes) == BackoffSchedule(MaxRetries - 1)
    ensures RestartCalls(Some(seeded[worker.url]), worker, AllFail) == RestartCalls(Get(ledger, worker.url), worker, probes)
    ensures RestartPosts(Some(seeded[worker.url]), worker, AllFail, token)
            == RestartPosts(Get(ledger, worker.url), worker, probes, token)
    ensures LedgerOk(ledger) ==> LedgerOk(Tick(ledger, worker, probes, token, reply, now))
  {
    if LedgerOk(ledger) {
      TickKeepsLedgerOk(ledger, worker, probes, token, reply, now);
    }
    assert PriorFailures(Some(seeded[worker.url])) == PriorFailures(Get(ledger, worker.url));
    assert !Succeeded(AllFail);
  }

  /** A run whose attempt `k` is its first success replaces the seeded entry with the "ok" record. */
  lemma SucceededFromSeed(ledger: Ledger, seeded: Ledger, worker: Worker, probes: seq<bool>,
                          token: Option<string>, reply: RestartReply, now: Timestamp, k: nat)
    requires |probes| == MaxRetries
    requires k < MaxRetries && probes[k]
    requires forall i :: 0 <= i < k ==> !probes[i]
    requires seeded == ledger[worker.url := if worker.url in ledger then ledger[worker.url] else Initialized(0)]
    ensures seeded[worker.url := Pinged(now, StatusOk, k + 1, 0)] == Tick(ledger, worker, probes, token, reply, now)
    ensures Attempts(probes) == k + 1 && Delays(probes) == BackoffSchedule(k)
    ensures RestartCalls(Get(ledger, worker.url), worker, probes) == []
    ensures RestartPosts(Get(ledger, worker.url), worker, probes, token) == []
    ensures LedgerOk(ledger) ==> LedgerOk(Tick(ledger, worker, probes, token, reply, now))
  {
    if LedgerOk(ledger) {
      TickKeepsLedgerOk(ledger, worker, probes, token, reply, now);
    }
    AttemptsOfFirstSuccess(probes, k);
  }

  // ---------------------------------------------------------------------------
  // Ledger invariant

  /** Every record the pinger writes: a well-formed "ok" or "failed" entry, or the initial count. */
  predicate RecordOk(r: Record) {
    match r
    case Initialized(c) => c == 0
    case Pinged(_, status, attempts, c) =>
      && 1 <= attempts <= MaxRetries
      && (status == StatusOk || status == StatusFailed)
      && (status == StatusOk ==> c == 0)
      && (status == StatusFailed ==> attempts == MaxRetries)
  }

  predicate LedgerOk(ledger: Ledger) {
    forall u :: u in ledger ==> RecordOk(ledger[u])
  }

  lemma TickKeepsLedgerOk(ledger: Ledger, worker: Worker, probes: seq<bool>,
                          token: Option<string>, reply: RestartReply, now: Timestamp)
    requires |probes| == MaxRetries
    requires LedgerOk(ledger)
    ensures LedgerOk(Tick(ledger, worker, probes, token, reply, now))
  {
    var l := Tick(ledger, worker, probes, token, reply, now);
    forall u | u in l
      ensures RecordOk(l[u])
    {
      if u != worker.url {
        assert RecordOk(ledger[u]);
      }
    }
  }

  // ---------------------------------------------------------------------------
  // Runs in succession

  const AllFail: seq<bool> := [false, false, false]

  /** The ledger after `n` runs for `worker` in which every attempt fails. */
  function FailedRuns(ledger: Ledger, worker: Worker, n: nat,
                      token: Option<string>, reply: RestartReply, now: Timestamp): (l: Ledger)
    ensures l.Keys == if n == 0 then ledger.Keys else ledger.Keys + {worker.url}
    ensures forall u :: u in ledger && u != worker.url ==> l[u] == ledger[u]
    ensures n > 0 ==> l[worker.url] == Pinged(now, StatusFailed, MaxRetries, l[worker.url].consecutiveFailures)
  {
    if n == 0 then ledger
    else Tick(FailedRuns(ledger, worker, n - 1, token, reply, now), worker, AllFail, token, reply, now)
  }

  /** Without a successful restart, each fully failed run adds exactly one to the count. */
  lemma {:induction false} FailureStreak(ledger: Ledger, worker: Worker, n: nat,
                                         token: Option<string>, reply: RestartReply, now: Timestamp)
    requires !HasSpaceId(worker) || !RestartSucceeds(token, reply)
    ensures PriorFailures(Get(FailedRuns(ledger, worker, n, token, reply, now), worker.url))
            == PriorFailures(Get(ledger, worker.url)) + n
    decreases n
  {
    if n > 0 {
      FailureStreak(ledger, worker, n - 1, token, reply, now);
      var before := FailedRuns(ledger, worker, n - 1, token, reply, now);
      assert !Succeeded(AllFail);
      assert Get(Tick(before, worker, AllFail, token, reply, now), worker.url).value.consecutiveFailures
             == PriorFailures(Get(before, worker.url)) + 1;
    }
  }

  /** A worker without a Space id is never restarted, however long it keeps failing. */
  lemma {:induction false} NeverRestartedWithoutSpace(ledger: Ledger, worker: Worker, n: nat,
                                   token: Option<string>, reply: RestartReply, now: Timestamp)
    requires !HasSpaceId(worker)
    ensures PriorFailures(Get(FailedRuns(ledger, worker, n, token, reply, now), worker.url))
            == PriorFailures(Get(ledger, worker.url)) + n
    ensures !RestartRequested(Get(FailedRuns(ledger, worker, n, token, reply, now), worker.url), worker, AllFail)
  {
    FailureStreak(ledger, worker, n, token, reply, now);
  }

  /**
   * While restarts keep failing, every fully failed run from the one that first
   * reaches the threshold onwards asks for a restart again.
   */
  lemma {:induction false} RestartRetriedEveryRun(ledger: Ledger, worker: Worker, n: nat,
                               token: Option<string>, reply: RestartReply, now: Timestamp)
    requires HasSpaceId(worker) && !RestartSucceeds(token, reply)
    requires PriorFailures(Get(ledger, worker.url)) + n + 1 >= FailureThreshold
    ensures RestartRequested(Get(FailedRuns(ledger, worker, n, token, reply, now), worker.url), worker, AllFail)
  {
    FailureStreak(ledger, worker, n, token, reply, now);
    assert !Succeeded(AllFail);
  }

  /**
   * From a fresh ledger, the first two failed runs of a restartable worker ask
   * for no restart; the third asks for one, and a successful restart clears the count.
   */
  lemma ThirdFailedRunRestarts(worker: Worker, token: Option<string>, now: Timestamp)
    requires HasSpaceId(worker) && TokenSet(token)
    ensures var ok := HttpStatus(200);
            var l1 := FailedRuns(map[], worker, 1, token, ok, now);
            var l2 := FailedRuns(map[], worker, 2, token, ok, now);
            && !RestartRequested(Get(map[], worker.url), worker, AllFail)
            && !RestartRequested(Get(l1, worker.url), worker, AllFail)
            && RestartRequested(Get(l2, worker.url), worker, AllFail)
            && FailedRuns(map[], worker, 3, token, ok, now)[worker.url] == Pinged(now, StatusFailed, MaxRetries, 0)
  {
    var ok := HttpStatus(200);
    assert !Succeeded(AllFail);
    var l0: Ledger := map[];
    assert FailedRuns(l0, worker, 0, token, ok, now) == l0;
    var l1 := FailedRuns(l0, worker, 1, token, ok, now);
    assert l1 == Tick(l0, worker, AllFail, token, ok, now);
    assert l1[worker.url].consecutiveFailures == 1;
    var l2 := FailedRuns(l0, worker, 2, token, ok, now);
    assert l2 == Tick(l1, worker, AllFail, token, ok, now);
    assert l2[worker.url].consecutiveFailures == 2;
    assert FailedRuns(l0, worker, 3, token, ok, now) == Tick(l2, worker, AllFail, token, ok, now);
  }

  // ---------------------------------------------------------------------------
  // The pinger's state

  /**
   * The process-wide state one run touches: the status ledger, plus logs of
   * the effects a run would have on the outside world.
   */
  class Monitor {
    /** `HF_RESTART_TOKEN`, read once from the environment. */
    const token: Option<string>
    /** `worker_status`. */
    var ledger: Ledger
    /** Every `asyncio.sleep` delay requested, in seconds. */
    var sleeps: seq<nat>
    /** The URL of every health probe sent. */
    var probesSent: seq<string>
    /** Every Space id passed to `restart_space`. */
    var restartCalls: seq<string>
    /** Every Space id for which a restart POST was sent. */
    var restartPosts: seq<string>

    constructor(token: Option<string>)
      ensures this.token == token
      ensures ledger == map[] && sleeps == [] && probesSent == []
      ensures restartCalls == [] && restartPosts == []
    {
      this.token := token;
      ledger := map[];
      sleeps := [];
      probesSent := [];
      restartCalls := [];
      restartPosts := [];
    }

    /** `restart_space`: sends the POST only when a token is set, and reports success only for HTTP 200. */
    method RestartSpace(spaceId: string, reply: RestartReply) returns (ok: bool)
      modifies this`restartPosts
      ensures ok == RestartSucceeds(token, reply)
      ensures restartPosts == old(restartPosts) + (if TokenSet(token) then [spaceId] else [])
    {
      if token.None? || token.value == "" {
        return false;
      }
      restartPosts := restartPosts + [spaceId];
      match reply
      case HttpStatus(code) =>
        ok := code == 200;
      case Raised =>
        ok := false;
    }

    /** `ping_worker_job`: one scheduled run for `worker`; `probes[i]` is the outcome attempt `i` would have. */
    method PingWorkerJob(worker: Worker, probes: seq<bool>, reply: RestartReply, now: Timestamp)
      requires |probes| == MaxRetries
      modifies this
      ensures ledger == Tick(old(ledger), worker, probes, token, reply, now)
      ensures sleeps == old(sleeps) + Delays(probes)
      ensures probesSent == old(probesSent) + Repeat(worker.url, Attempts(probes))
      ensures restartCalls == old(restartCalls) + RestartCalls(Get(old(ledger), worker.url), worker, probes)
      ensures restartPosts == old(restartPosts) + RestartPosts(Get(old(ledger), worker.url), worker, probes, token)
      ensures LedgerOk(old(ledger)) ==> LedgerOk(ledger)
    {
      var url := worker.url;
      if url !in ledger {
        ledger := ledger[url := Initialized(0)];
      }
      var seeded := ledger;
      assert seeded == old(ledger)[url := if url in old(ledger) then old(ledger)[url] else Initialized(0)];

      var attempt := 0;
      while attempt < MaxRetries
        invariant 0 <= attempt <= MaxRetries
        invariant forall i :: 0 <= i < attempt ==> !probes[i]
        invariant ledger == seeded
        invariant sleeps == old(sleeps) + BackoffSchedule(if attempt < MaxRetries then attempt else MaxRetries - 1)
        invariant probesSent == old(probesSent) + Repeat(url, attempt)
        modifies this`ledger, this`sleeps, this`probesSent
      {
        probesSent := probesSent + [url];
        if probes[attempt] {
          SucceededFromSeed(old(ledger), seeded, worker, probes, token, reply, now, attempt);
          ledger := ledger[url := Pinged(now, StatusOk, attempt + 1, 0)];
          return;
        }
        if attempt < MaxRetries - 1 {
          sleeps := sleeps + [Backoff(attempt)];
        }
        attempt := attempt + 1;
      }

      assert !Succeeded(probes);
      ExhaustedFromSeed(old(ledger), seeded, worker, probes, token, reply, now);
      RecordExhausted(worker, reply, now);
    }

    /**
     * The tail of `ping_worker_job` once every attempt has failed: record the failure, then restart if due.
     * This tail only runs after all `MAX_RETRIES` probes failed, and every all-failed sequence of
     * outcomes gives the same restart decision, so the contract states it with `AllFail`.
     */
    method RecordExhausted(worker: Worker, reply: RestartReply, now: Timestamp)
      requires worker.url in ledger
      modifies this`ledger, this`restartCalls, this`restartPosts
      ensures ledger == old(ledger)[worker.url := FailedRecord(Some(old(ledger)[worker.url]), worker, token, reply, now)]
      ensures restartCalls == old(restartCalls) + RestartCalls(Some(old(ledger)[worker.url]), worker, AllFail)
      ensures restartPosts == old(restartPosts) + RestartPosts(Some(old(ledger)[worker.url]), worker, AllFail, token)
    {
      var url := worker.url;
      var consecutive := ledger[url].consecutiveFailures + 1;
      ledger := ledger[url := Pinged(now, StatusFailed, MaxRetries, consecutive)];
      if worker.spaceId.Some? && worker.spaceId.value != "" && consecutive >= FailureThreshold {
        restartCalls := restartCalls + [worker.spaceId.value];
        var restarted := RestartSpace(worker.spaceId.value, reply);
        if restarted {
          ledger := ledger[url := ledger[url].(consecutiveFailures := 0)];
        }
      }
      assert !Succeeded(AllFail);
    }
  }
}
