# celery_redis_prometheus, modelled in Dafny

A model of the exporter that turns Celery task events into Prometheus metrics
(`src/celery_redis_prometheus/exporter.py`). It covers four parts:

- **Event to metric.** The `CeleryEventReceiver` handlers update the per-task
  tracker first, then look the task up again. After that they change the
  shared registry:
  - the `celery_tasks_total` counter, labelled by (queue, state);
  - the `queuetime` and `runtime` histograms.
- **Failure label.** `on_task_failed` derives its label from the exception
  text.
- **Queue lengths.** Each cycle of `QueueLengthMonitor.run` counts pending and
  unacked tasks per queue and sets the `celery_queue_length` gauges. The
  monitor has a cooperative `stop()` flag.
- **Reconnect loop.** The `try_interval` loop of `main` restarts the receiver
  with exponential backoff.

Modules:

| file | module | models |
|---|---|---|
| wrappers.dfy | `Wrappers` | `Option`, Python's `None` |
| failure_label.dfy | `FailureLabel` | `.split('(')[0]` and the `retries-exceeded` rule |
| stats.dfy | `Stats` | `STATS`: the `Snapshot` value and the `Registry` class that the handlers and the monitor update in place |
| tracker.dfy | `Tracker` | the task records kept by Celery's `State`, as a merge map from uuid to record |
| dispatch.dfy | `Dispatch` | the handler table, `task_handler` and the handlers, as functions on values |
| receiver.dfy | `Receiver` | the `CeleryEventReceiver` class. Each handler method is proved equal to its `Dispatch` function; the `'*'` handler and `task_handler` are proved against `Tracker.Track` |
| queue_length.dfy | `QueueLength` | the per-cycle queue-length sum, `CountLengths` (the counting loops), and the `QueueLengthMonitor` class |
| supervisor.dfy | `Supervisor` | the backoff sleeps, the `while True` loop of `main` (`Supervise`), and starting the monitor (`RunExporter`) |
| scenarios.dfy | `Scenarios` | the two event runs of the test file, and worked examples |

Inputs the program gets from outside are parameters here:
- the wall clock is an `Arrival`'s `now`;
- the Redis pipeline result is a `Reply`;
- an unacked entry is its decoded JSON list, or `None` when it does not decode;
- how each `receiver()` call ended is a `SessionEnd`;
- the moment the main thread calls `stop()` is the `stopAt` cycle.

Sleeps are recorded as values, not performed. Runtimes, timestamps and queue
times are integers.

At these points the model follows exporter.py:
- The counter is labelled by `queue` and `state` (exporter.py:24). The queue
  label is the task's `routing_key` (exporter.py:91, 98, 112, 118). A missing
  key is stringified by the metrics library and reads `"None"`.
- `try_interval` is reset to 1 after `receiver()` returns normally
  (exporter.py:60).
- The queue time `time.time() - task.sent` is observed unclamped
  (exporter.py:93). It can be negative.
- `if task.sent:` is a truthiness test (exporter.py:92), so a `sent` of 0
  records nothing. `record_runtime` tests `is not None` (exporter.py:102), so
  a runtime of 0 is recorded.
- After an exception, a monitor cycle does not sleep: the `sleep` of
  exporter.py:172 is inside the `try`. A negative interval makes that `sleep`
  raise after the gauges were set, so such a monitor publishes but never
  sleeps.
- A cycle sets a gauge for every queue named by an unacked entry. For
  configured queues, it sets one only for those that `zip` pairs with a
  pending length (exporter.py:166-170).
- Any non-zero `--queuelength-interval`, negative ones included, starts the
  monitor (exporter.py:47).
- Every `receiver()` call starts from an empty tracker (`self.state` is
  rebuilt at exporter.py:122).

## Model

| member | source | states |
|---|---|---|
| FailureLabel.BeforeParen | src/celery_redis_prometheus/exporter.py:109 | `split('(')[0]`: the result is a prefix of the text, contains no '(' and is followed by '(' unless it is the whole text |
| FailureLabel.ExceptionName | src/celery_redis_prometheus/exporter.py:109 | the class name has no '('; given an exception text it is a prefix of it that stops at the first '(' or at the end; a missing field gives `Unknown` |
| FailureLabel.FailureState | src/celery_redis_prometheus/exporter.py:108-111 | the label is `failed` or `retries-exceeded`; a missing exception field gives `failed` |
| FailureLabel.RetriesExceededIff | src/celery_redis_prometheus/exporter.py:108-111 | `retries-exceeded` exactly when the exception text is `MaxRetriesExceededError` alone or followed by '(' (both directions) |
| Stats.Increment | src/celery_redis_prometheus/exporter.py:91 | `.labels(...).inc()` raises that one cell by 1 (created at 0) and leaves every other cell as it was |
| Stats.BumpedIsIncrement | src/celery_redis_prometheus/exporter.py:91 | "that one cell up by 1, nothing else changed" determines the new counter uniquely |
| Stats.Registry.constructor | src/celery_redis_prometheus/exporter.py:22-31 | the four metrics start empty |
| Stats.Registry.Inc | src/celery_redis_prometheus/exporter.py:23-24 | increments the (queue, state) counter cell and changes nothing else |
| Stats.Registry.ObserveQueuetime | src/celery_redis_prometheus/exporter.py:25-26 | appends one observation to the queue-time histogram only |
| Stats.Registry.ObserveRuntime | src/celery_redis_prometheus/exporter.py:27-28 | appends one observation to the runtime histogram only |
| Stats.Registry.SetQueueLength | src/celery_redis_prometheus/exporter.py:29-30 | sets one queue gauge only |
| Tracker.Override | src/celery_redis_prometheus/exporter.py:77 | a field takes the event's value when the event carries one, else keeps its old value |
| Tracker.MergeLaterWins | src/celery_redis_prometheus/exporter.py:77 | of two events, the later one that carries a field decides it; otherwise the earlier merge stands |
| Tracker.MergeCarryingNothing | src/celery_redis_prometheus/exporter.py:77 | an event carrying none of the fields leaves the record as it was |
| Tracker.Merge | src/celery_redis_prometheus/exporter.py:77 | each of routing key, sent time and runtime takes the event's value when the event carries it, and keeps the record's value when it does not |
| Tracker.Track | src/celery_redis_prometheus/exporter.py:77-78 | `state.event` creates the record lazily and merges the event into it; no other task's record changes; the following lookup finds the merged record |
| Tracker.TrackIdempotent | src/celery_redis_prometheus/exporter.py:77 | a redelivered event leaves the tracker as the first delivery left it |
| Tracker.TrackKeepsKnownFields | src/celery_redis_prometheus/exporter.py:77 | a known field is never lost to a later event, and a field keeps its value unless the event is for that task and carries the field |
| Dispatch.QueueLabel | src/celery_redis_prometheus/exporter.py:91-118 | the queue label is the routing key, or `"None"` when the record has none |
| Dispatch.SentTruthy | src/celery_redis_prometheus/exporter.py:92 | `if task.sent:` is false for a missing or zero `sent` and true for any other value |
| Dispatch.Route | src/celery_redis_prometheus/exporter.py:126-132 | the four `task-*` names reach their handlers (both directions); every other type goes to `'*'` |
| Dispatch.RecordRuntime | src/celery_redis_prometheus/exporter.py:101-103 | exactly one runtime observation equal to `task.runtime` when the task is present and has a runtime; otherwise nothing changes |
| Dispatch.OnTaskStarted | src/celery_redis_prometheus/exporter.py:89-93 | one (queue, `started`) cell up by 1; one queue-time observation `now - sent` exactly when `sent` is truthy; runtime and gauges untouched |
| Dispatch.OnTaskFinished | src/celery_redis_prometheus/exporter.py:96-119 | the succeeded, failed and retried handlers: one (queue, state) cell up by 1; one runtime observation when the record has one; queue time and gauges untouched |
| Dispatch.Step | src/celery_redis_prometheus/exporter.py:74-132 | every event updates the tracker before the lookup; untyped events leave every metric unchanged; a typed event raises exactly one counter cell, (routing key of the post-update record, its state label), by 1; runtime and queue time change exactly as the handler says; gauges never change |
| Dispatch.UntypedLeavesMetrics | src/celery_redis_prometheus/exporter.py:131 | a run of events that only reach `'*'` leaves every metric unchanged |
| Dispatch.Replay | src/celery_redis_prometheus/exporter.py:122-133 | a run of events never changes a queue gauge |
| Dispatch.ReplayTracksEvery | src/celery_redis_prometheus/exporter.py:121-133 | after a run of events the tracker holds exactly the tasks it held before and the task of every event |
| Dispatch.Session | src/celery_redis_prometheus/exporter.py:121-133 | one `receiver()` call leaves the gauges as they were and lowers no counter cell |
| Dispatch.ReplayCountsGrow | src/celery_redis_prometheus/exporter.py:88-119 | no counter cell decreases over a run of events |
| Receiver.CeleryEventReceiver.constructor | src/celery_redis_prometheus/exporter.py:85-86 | the receiver writes to the given registry |
| Receiver.CeleryEventReceiver.StateEvent | src/celery_redis_prometheus/exporter.py:131 | the `'*'` handler merges the event into the tracker |
| Receiver.CeleryEventReceiver.TaskHandler | src/celery_redis_prometheus/exporter.py:74-80 | updates the tracker, then returns the post-update record of `event['uuid']`, which is always present |
| Receiver.CeleryEventReceiver.RecordRuntime | src/celery_redis_prometheus/exporter.py:101-103 | changes the registry exactly as `Dispatch.RecordRuntime` |
| Receiver.CeleryEventReceiver.OnTaskStarted | src/celery_redis_prometheus/exporter.py:88-93 | tracker and registry end as `Track` and `Dispatch.OnTaskStarted` give them |
| Receiver.CeleryEventReceiver.OnTaskSucceeded | src/celery_redis_prometheus/exporter.py:95-99 | tracker and registry end as `Track` and `OnTaskFinished` with `succeeded` give them |
| Receiver.CeleryEventReceiver.OnTaskFailed | src/celery_redis_prometheus/exporter.py:105-113 | as `OnTaskFinished` with the label `FailureState` computes from the event's exception |
| Receiver.CeleryEventReceiver.OnTaskRetried | src/celery_redis_prometheus/exporter.py:115-119 | as `OnTaskFinished` with `retried` |
| Receiver.CeleryEventReceiver.Handle | src/celery_redis_prometheus/exporter.py:126-132 | dispatching one event has exactly the effect of `Step` |
| Receiver.CeleryEventReceiver.Call | src/celery_redis_prometheus/exporter.py:121-133 | a call starts from an empty tracker and handles the session's events in order, as `Replay` does |
| QueueLength.Occurrences | src/celery_redis_prometheus/exporter.py:161-164 | the unacked count of a queue never exceeds the number of entries |
| QueueLength.OccurrencesAreHits | src/celery_redis_prometheus/exporter.py:161-164 | the running count of a queue equals the number of positions whose entry's last field is that queue |
| QueueLength.OccurrencesAppend | src/celery_redis_prometheus/exporter.py:161-164 | counting unacked entries per queue distributes over concatenating the entry lists |
| QueueLength.Destination | src/celery_redis_prometheus/exporter.py:162-163 | `json.loads(...)[-1]` fails exactly when the entry does not decode or decodes to an empty list; otherwise it is the last field |
| QueueLength.QueueLengths | src/celery_redis_prometheus/exporter.py:147-167 | the keys are the queues named by unacked entries plus the configured queues paired by `zip`; each holds its unacked count plus its paired pending lengths |
| QueueLength.CountLengths | src/celery_redis_prometheus/exporter.py:147-167 | the `lengths` Counter fails exactly when some unacked entry does not parse. Otherwise, for every queue named by an unacked entry or a configured queue paired by `zip`, it holds that queue's unacked count plus its paired pending lengths (0 when both are 0), and it holds no other key |
| QueueLength.CycleGauges | src/celery_redis_prometheus/exporter.py:144-176 | a failed cycle (connection error or an entry that does not parse) leaves every gauge unchanged; a successful one sets each counted queue to its sum; queues counted in neither source keep their previous gauge |
| QueueLength.QueueLengthMonitor.constructor | src/celery_redis_prometheus/exporter.py:138-142 | a new monitor is running |
| QueueLength.QueueLengthMonitor.Stop | src/celery_redis_prometheus/exporter.py:178-179 | `running` becomes false |
| QueueLength.QueueLengthMonitor.Cycle | src/celery_redis_prometheus/exporter.py:146-176 | one loop body: gauges are set only after every entry parsed, as `CycleGauges` says; it sleeps `interval` only after a cycle that published and only when the interval is not negative |
| QueueLength.Gauges | src/celery_redis_prometheus/exporter.py:145-172 | over a run of cycles no gauge is ever removed, and a run in which no cycle published leaves the gauges unchanged |
| QueueLength.GaugesLastPublished | src/celery_redis_prometheus/exporter.py:145-172 | the last cycle of a run that published decides the gauge of every queue it counted |
| QueueLength.Pauses | src/celery_redis_prometheus/exporter.py:145-172 | each sleep is the configured interval, and with a non-negative interval there is exactly one per cycle that published; a negative interval never sleeps |
| QueueLength.PausesFollowCycles | src/celery_redis_prometheus/exporter.py:145-173 | over a run, cycles that all raised sleep nothing, and cycles that all published with a non-negative interval sleep once each |
| QueueLength.QueueLengthMonitor.Run | src/celery_redis_prometheus/exporter.py:144-176 | cycles run while `running`; a stop during cycle k ends the loop after exactly k + 1 cycles; errors never end it; the gauges and sleeps are those of the cycles that ran |
| Supervisor.Sleeps | src/celery_redis_prometheus/exporter.py:55-71 | at most one sleep per `receiver()` call |
| Supervisor.SleepsBounds | src/celery_redis_prometheus/exporter.py:55-71 | from a positive interval every sleep is at least 2 seconds; a run in which no call raised sleeps not at all |
| Supervisor.Received | src/celery_redis_prometheus/exporter.py:56-66 | the reconnect loop never changes a queue gauge |
| Supervisor.ReceivedCountsGrow | src/celery_redis_prometheus/exporter.py:56-66 | no counter cell decreases across the reconnect loop |
| Supervisor.ConsecutiveFailures | src/celery_redis_prometheus/exporter.py:55-71 | n failures in a row, starting from interval k, sleep 2k, 4k, …, 2^n·k |
| Supervisor.FailuresFromStart | src/celery_redis_prometheus/exporter.py:55-71 | from the start of `main`, n failures sleep 2, 4, …, 2^n |
| Supervisor.ReturnResets | src/celery_redis_prometheus/exporter.py:58-60 | after a call that returns, the following sleeps are those of a fresh start, whatever came before |
| Supervisor.InterruptEnds | src/celery_redis_prometheus/exporter.py:61-66 | an interrupted call sleeps nothing itself, and nothing after it sleeps or reaches the registry |
| Supervisor.Attempt | src/celery_redis_prometheus/exporter.py:57-71 | one turn: the interval doubles before the call; a return resets it to 1, a failure sleeps the doubled interval, an interrupt stops the monitor; the registry ends as `Session` says |
| Supervisor.Supervise | src/celery_redis_prometheus/exporter.py:55-71 | the sleeps performed are `Sleeps(sessions, 1)`; the registry ends as the sessions up to the first interrupt leave it; the monitor is stopped exactly when an interrupt arrives |
| Supervisor.RunExporter | src/celery_redis_prometheus/exporter.py:46-71 | a monitor exists exactly when the interval is non-zero (negative included), and it shares the registry; then the reconnect loop runs as `Supervise` says |
| Scenarios.PingSucceeds | src/celery_redis_prometheus/tests/test_exporter.py:7-18 | received, started, succeeded: exactly one `started` and one `succeeded` sample, and the reported runtime observed |
| Scenarios.RetryThenRetriesExceeded | src/celery_redis_prometheus/tests/test_exporter.py:21-34 | received, started, retried, received, started, failed with `MaxRetriesExceededError(...)`: one `retries-exceeded` sample and no `failed` one |
| Scenarios.ExampleOccurrences | src/celery_redis_prometheus/exporter.py:161-164 | the example's unacked entries name A twice and C once |
| Scenarios.QueueLengthExample | src/celery_redis_prometheus/exporter.py:160-170 | pending {A: 2, B: 0} and unacked entries for A, A, C give A = 4, B = 0, C = 1 |
| Scenarios.TwoFailuresBackOff | src/celery_redis_prometheus/exporter.py:58-71 | two failures in a row sleep 2, then 4 |
| Scenarios.FailureAfterReturn | src/celery_redis_prometheus/exporter.py:58-71 | a failure after a normal return sleeps 2 again |

## Left out

- Command-line options, `app.log.setup` and `start_http_server` (exporter.py:34-53): process bootstrap.
- Removing the default collectors at import (exporter.py:18-19): it changes the metrics library's internals.
- Celery's transport: `app.connection()`, `Receiver(...).capture` and its `limit`/`wakeup` arguments are foreign code. A session is given as the list of events it delivered.
- Celery's `State.event`: replaced by a merge map keyed by uuid. The model treats every event as a task event carrying a uuid. Worker events, and the fields Celery derives from event timestamps, are not modelled; the `sent` time and the runtime arrive as event fields.
- Redis and JSON: the pipeline calls (`llen`, `hvals`, `execute`) and `json.loads`/`decode` are inputs. A `Reply` is the pipeline's result or a connection error. An entry is its decoded list, or `None` when it does not decode.
- Label values other than strings: the metrics library stringifies labels. The model does this only for a missing routing key (`"None"`), and takes an entry's destination queue to be a string.
- Threads: the monitor thread and the event loop run concurrently against one registry. The model runs each on its own. The interleaving of their writes and `_thread.interrupt_main` are not modelled. The main thread's `stop()` is placed at a chosen cycle (`stopAt`).
- A `KeyboardInterrupt` during the backoff sleep of exporter.py:71 is outside the `try` and would end `main` uncaught. Sleeps are not performed, so this case is not modelled.
- Time: `time.time()` is the `now` of each arrival, and sleeps are recorded, not performed. Floating-point runtimes and timestamps are integers.
- Histogram buckets and sums: a histogram is the list of values observed.
- Logging: no behaviour depends on it.
- The models of `while True` in `main` and `while self.running` in `run` run over finite input lists. Running out of input ends the loop.
- The tests, the test fixtures and setup.py are not modelled. The two tests appear as the `Scenarios` lemmas.
