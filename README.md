# HF Master Pinger: the ping-and-recover step, modelled in Dafny

The master pinger keeps a fixed roster of Hugging Face Spaces awake. For each
worker a scheduled job probes the worker's health URL. It makes up to
`MAX_RETRIES` (3) attempts, sleeping 5 s and then 10 s between attempts. It
records the outcome in the in-memory status ledger `worker_status`. It counts
consecutive runs in which every attempt failed. Once that count reaches
`FAILURE_THRESHOLD` (3), it restarts the worker's Space through the Hugging Face
API, if the worker has a `space_id`. The count is cleared by a successful probe,
or by a restart the API answers with HTTP 200. A dashboard (`get_status`) reads the ledger and shows the
overall status, the uptime and one row per worker.

The model has four modules:

- `Pinger` (`pinger.dfy`) models `main.py`. It holds the constants, the roster,
  the ledger record and the class `Monitor`. `Monitor` holds the ledger and logs
  of the sleeps, probes and restart requests a run makes.
  `Monitor.PingWorkerJob` follows `ping_worker_job` statement by statement: it
  seeds the entry, runs a retry loop with an early return, then handles the
  failure and restart. Its postconditions tie the new state to pure
  specification functions (`Tick`, `Delays`, `Attempts`, `RestartCalls`,
  `RestartPosts`). The lemmas about those functions state what a run promises.
  Other lemmas state what a succession of runs promises (`FailedRuns`).
- `Dashboard` (`dashboard.dfy`) models `get_status` in `app.py`. The table is
  built by a loop with an append invariant. Each row is a function of the
  worker and the ledger.
- `Text` (`text.dfy`) renders integers the way Python's `str` does. It has a
  parser, and a round-trip lemma, so that a number shown on the dashboard can be
  read back.
- `Optional` (`optional.dfy`) holds the `Option` type.

Abstractions:

- The network is a set of inputs. A run receives `probes: seq<bool>`, which is
  the outcome each of its `MAX_RETRIES` possible attempts would have. It also
  receives the restart endpoint's reply (`HttpStatus(code)` or `Raised` for an
  exception).
- `datetime.now().isoformat()` is an opaque `Timestamp` parameter.
- `asyncio.sleep` calls are appended to `Monitor.sleeps`.
- `HF_RESTART_TOKEN` is the constant field `Monitor.token`. `TokenSet` is its
  truth value `bool(HF_RESTART_TOKEN)`, so `not HF_RESTART_TOKEN` is
  `!TokenSet(token)`: an absent or empty token counts as unset.
- `if space_id` is `HasSpaceId`: an absent or empty Space id counts as none.
- The ledger is `map<string, Record>`. `Record` has the two shapes the code
  writes: `Initialized(0)`, which is `{"consecutive_failures": 0}` (main.py:71),
  and `Pinged(last_ping, status, attempts, consecutive_failures)`.
- `get_status` takes the uptime as `Option<int>`: `None` when there is no
  `start_time`, otherwise the whole seconds. Python's floor `divmod` agrees with
  Dafny's Euclidean `/` and `%` for the positive divisors 3600 and 60, so
  `SplitUptime` is exact for every integer, negative ones included.

Facts about the code that the model relies on:

- A ledger entry holds only `last_ping`, `status`, `attempts` and
  `consecutive_failures`. There is no restart counter and no last-restart time,
  and `status` is only ever "ok" or "failed".
- The code does not itself stop two runs for the same worker from overlapping.
  It relies on APScheduler's default `max_instances=1` (main.py:132-137), which
  skips a run that falls due while the previous one is still running. The model
  treats each run as atomic.
- The failure count is cleared by a successful probe, or by a restart that
  reports success after the last attempt failed; a failed restart leaves it.

## Model

| member | source | states |
|---|---|---|
| `Pinger.WorkersRoster` | main.py:15-25 | The roster has five workers with distinct URLs, and only the n8n workflow worker has a Space id, so only it can be restarted. |
| `Pinger.RestartSucceeds` | main.py:39-61 | `restart_space` reports success exactly when a non-empty token is set and the reply is HTTP 200. Any other status, an exception, or a missing token gives false. |
| `Pinger.Monitor.RestartSpace` | main.py:39-61 | Without a token no POST is sent and the result is false. Otherwise exactly one POST is logged for the Space id. The result equals `RestartSucceeds`. Nothing else in the state changes. |
| `Pinger.TokenSet` | main.py:41 | The token counts as set exactly when it is present and non-empty, as Python's truth test on a string. |
| `Pinger.HasSpaceId` | main.py:103 | A worker counts as restartable exactly when its `space_id` is present and non-empty. |
| `Pinger.BackoffDoubles` | main.py:89 | The first backoff is `5` seconds and each later one is twice the one before. |
| `Pinger.PriorFailures` | main.py:93 | The count a failed run starts from: 0 for an unseen URL or a freshly seeded entry, otherwise the stored count. |
| `Pinger.ShouldRestart` | main.py:103 | A restart is due exactly when the worker has a Space id and the new count is at least `FAILURE_THRESHOLD`. |
| `Pinger.RestartRequested` | main.py:103 | A run requests a restart only if it failed every attempt, the worker has a Space id, and the previous count plus one reaches the threshold. |
| `Pinger.FailedRecord` | main.py:93-107 | The record a fully failed run leaves: status "failed", `MAX_RETRIES` attempts, the run's time. Its count is 0 exactly when a due restart succeeded, and otherwise the previous count plus one. |
| `Pinger.NextRecord` | main.py:79-107 | The record any run leaves is stamped with the run's time and counts the attempts made. Its status is "ok" exactly when the run succeeded and "failed" otherwise; a success clears the count, and a failure gives `FailedRecord`. The record is well formed. |
| `Pinger.FailedRuns` | main.py:93-107 | After n fully failed runs the ledger has the old keys plus the worker's URL (none added for n = 0). Other entries are unchanged, and the worker's entry is a failed record with `MAX_RETRIES` attempts stamped with the runs' time. |
| `Pinger.FirstOk` | main.py:73-85 | The index of the first successful probe: every earlier probe failed, and the probe at that index succeeded, unless no probe did. |
| `Pinger.SucceededIff` | main.py:73-85 | A run succeeds if and only if some attempt's probe succeeds. |
| `Pinger.Attempts` | main.py:73-85 | A run sends between 1 and `MAX_RETRIES` probes. All probes but the last failed. The last succeeded exactly when the run succeeded. A failed run used all `MAX_RETRIES` attempts. |
| `Pinger.AttemptsOfFirstSuccess` | main.py:73-90 | If attempt k is the first success, the run sends exactly k+1 probes and stops there. It requests exactly the first k backoff delays. |
| `Pinger.BackoffSchedule` | main.py:88-90 | The i-th requested sleep is `5 * 2^i` seconds. |
| `Pinger.Delays` | main.py:86-90 | A run sleeps once after every failed attempt except the last one it makes, so it requests one sleep fewer than it makes attempts. |
| `Pinger.DelaysIncrease` | main.py:88-90 | At most two sleeps are requested: 5 s, then 10 s. Each sleep is strictly longer than the one before. |
| `Pinger.RestartCalls` | main.py:103-105 | A run calls `restart_space` at most once. It calls it exactly when every attempt failed, the worker has a Space id, and the new count reaches the threshold. The one call is made with the worker's own Space id. |
| `Pinger.RestartPosts` | main.py:41-52 | A restart POST is sent only for a `restart_space` call made while a token is set. It goes to the same Space id. |
| `Pinger.RestartIff` | main.py:103-105 | A restart is requested if and only if all `MAX_RETRIES` probes failed, the worker has a Space id, and the previous count plus one is at least `FAILURE_THRESHOLD`. |
| `Pinger.Tick` | main.py:69-107 | A run writes only the entry keyed by its own URL. That entry is always a completed record stamped with the run's time. Every other entry is unchanged, and no key is removed. |
| `Pinger.SuccessfulRun` | main.py:79-85 | Success on zero-based attempt k replaces the entry with status "ok", `attempts` k+1 and zero failures. No restart is requested. |
| `Pinger.ExhaustedRun` | main.py:92-107 | When every attempt fails, the entry has status "failed" and `MAX_RETRIES` attempts. Its count is the previous count plus one (0 before the first run), or 0 when a due restart succeeded. |
| `Pinger.SucceededFromSeed` | main.py:69-85 | Writing `{"consecutive_failures": 0}` for an unseen URL and then succeeding gives the same ledger as `Tick`. The run requests no restart, and a well-formed ledger stays well formed. |
| `Pinger.ExhaustedFromSeed` | main.py:69-100 | Starting from the seeded entry `{"consecutive_failures": 0}` gives the same failure count and restart decision as starting from no entry, and a well-formed ledger stays well formed. |
| `Pinger.TickKeepsLedgerOk` | main.py:79-107 | Runs keep every record well formed: attempts are between 1 and 3, and the status is "ok" or "failed". An "ok" record has zero failures, and a "failed" record used all attempts. |
| `Pinger.FailureStreak` | main.py:93-107 | When no restart can succeed, each fully failed run adds exactly one to the count. After n such runs, the count is the starting count plus n. |
| `Pinger.NeverRestartedWithoutSpace` | main.py:103-105 | A worker without a Space id is never restarted, however many runs fail. Its count keeps growing by one per run. |
| `Pinger.RestartRetriedEveryRun` | main.py:103-107 | While restarts fail, every fully failed run from the first one that reaches the threshold calls `restart_space` again. |
| `Pinger.ThirdFailedRunRestarts` | main.py:93-107 | From an empty ledger, a restartable worker's first two failed runs request no restart. The third requests one, and a successful restart leaves the count at 0. |
| `Pinger.Monitor.constructor` | main.py:27-36 | The pinger starts with the given token, an empty ledger and empty effect logs. |
| `Pinger.Monitor.PingWorkerJob` | main.py:64-107 | One run leaves the ledger equal to `Tick` of the old ledger. It appends exactly `Delays` to the sleeps and one probe per attempt made. It appends the `restart_space` calls and restart POSTs the specification functions give. A well-formed ledger stays well formed. |
| `Pinger.Monitor.RecordExhausted` | main.py:92-107 | After all attempts fail, the entry becomes the failed record. The count is one more than the stored one, or 0 after a successful restart. At most one restart call and one POST are appended. |
| `Text.NatToString` | app.py:33 | `str(n)` is a non-empty string of decimal digits. It has no leading zero: only the one-character string "0" starts with '0', and only for n = 0. |
| `Text.IntToString` | app.py:19 | An integer is rendered with a leading minus sign exactly when it is negative, and it ends in a digit. Its digits have no leading zero. Reading back the digits (after the sign, for a negative number) gives the integer's magnitude. |
| `Text.ParseNatRoundTrip` | app.py:33 | Reading back the rendered count gives the count. |
| `Dashboard.OverallStatus` | app.py:12 | The status is "🟢 Online" if and only if a start time is set, and "🔴 Offline" otherwise. |
| `Dashboard.SplitUptime` | app.py:16-18 | `hours*3600 + minutes*60 + seconds` equals the uptime. Minutes and seconds are in 0..59. Hours are non-negative for a non-negative uptime. |
| `Dashboard.UptimeText` | app.py:15-21 | The uptime text is "N/A" if and only if there is no start time. Otherwise it ends in "s". |
| `Dashboard.SplitUptimeOfParts` | app.py:17-18 | The split is exact: an uptime built as `h*3600 + m*60 + s` with minutes and seconds in 0..59 splits back into exactly `h`, `m` and `s`. |
| `Dashboard.UptimeTextOfSplit` | app.py:15-19 | An uptime of `h*3600 + m*60 + s` seconds, with minutes and seconds in 0..59, is shown as `"{h}h {m}m {s}s"`: the text names exactly the hours, minutes and seconds the uptime is made of. |
| `Dashboard.StatusOf` | app.py:30 | An entry has a status exactly when it records a completed run, and then it is that run's status. |
| `Dashboard.LastPingText` | app.py:29 | The last-ping column is the completed run's timestamp, and "Not yet" without one. |
| `Dashboard.FailuresOf` | app.py:31 | The failure column's number is the stored count, or 0 when the worker has no entry. |
| `Dashboard.Glyph` | app.py:30 | ✅ exactly for status "ok", ❌ exactly for "failed", ⏳ for anything else, including no status. |
| `Dashboard.Row` | app.py:25-33 | Each row has six columns, and the first is the worker's URL. |
| `Dashboard.BuildTable` | app.py:24-33 | The table has exactly one row per worker, in roster order, and row i is `Row(workers[i], ledger)`. |
| `Dashboard.GetStatus` | app.py:9-35 | Returns the overall status and uptime text, and a table with exactly one row per worker, in roster order. Row i is `Row(workers[i], ledger)`. |
| `Dashboard.RowNumbersRoundTrip` | app.py:26-33 | The interval column is the interval in minutes followed by " min". The failures column reads back as the ledger's count, or 0 without an entry. |
| `Dashboard.RowForUnpingedWorker` | app.py:28-31 | A worker with no ledger entry shows "Not yet", ⏳ and 0 failures. |
| `Dashboard.RowForInitializedEntry` | app.py:28-31 | An entry holding only `consecutive_failures` shows "Not yet", ⏳ and its count. |
| `Dashboard.RowForPingedEntry` | app.py:28-31 | A completed entry shows its ping time, ✅ or ❌ according to its status, and its count. |
| `Dashboard.AutoRestartColumn` | app.py:32 | The auto-restart column is "🔄" if and only if the worker has a Space id, and empty otherwise. |
| `Dashboard.RowAfterRun` | app.py:28-33 | After a run, the worker's row shows the run's time, ✅ exactly when the run succeeded or ❌ otherwise, and the stored count. |

## Left out

- The HTTP calls (main.py:47-52, 75-77). The probe outcomes and the restart reply are inputs, so neither `TIMEOUT` (120 s) nor the restart's 30 s timeout is modelled.
- Sleeping itself. Only the requested delays are recorded.
- The wall clock. Timestamps are opaque, and the float uptime with its `int()` truncation (app.py:16) is replaced by an integer parameter.
- Interleaving at `await` points. A run is modelled as atomic. Other code could observe an `Initialized` entry mid-run; `Dashboard.RowForInitializedEntry` covers how the dashboard shows one. Overlap of two runs for the same worker is prevented only by APScheduler's default `max_instances=1`, which skips a run that falls due while the previous one is still running; the scheduler is not part of this model.
- `Pinger.Monitor.PingWorkerJob` requires exactly `MAX_RETRIES` probe outcomes. Each possible attempt needs an outcome, and the outcomes after the first success are never read.
- The scheduler: job registration, `lifespan` start and shutdown, and the `self_ping` job (main.py:110-145). These are scheduling plumbing and I/O. `SELF_PING_INTERVAL_MINUTES` is not part of this model; each worker's interval is kept as data only, shown on the dashboard.
- The `/healthz` and `/status` routes (main.py:151-165), the Gradio UI (app.py:38-67), uvicorn start-up and logging. These are I/O and presentation wrappers.
- What the running dashboard shows. app.py binds `start_time` by value at import, before `lifespan` sets it. `get_status` is modelled as a function of its inputs.
- `Dashboard.GetStatus` iterates over the roster it is given, not over the global `WORKERS`. It is meant to be called with `Pinger.Workers`.
- The ledger's Python type allows any string or integer values. The model admits only the two record shapes the code writes. Every read of `consecutive_failures` in `ping_worker_job` finds the key, so the `.get(..., 0)` default at main.py:93 is never used.
