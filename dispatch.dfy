/**
 * What one delivered event does to the tracker and the registry, as values:
 * the handler table of `CeleryEventReceiver.__call__`, the `task_handler`
 * wrapper (update the tracker, then look the task up again) and the four
 * typed handlers with `record_runtime`. The receiver class is proved to
 * behave as these functions say.
 */
module Dispatch {
  import opened Wrappers
  import opened Stats
  import opened Tracker
  import opened FailureLabel

  const Started: string := "started"
  const Succeeded: string := "succeeded"
  const Retried: string := "retried"

  /** An event together with the wall-clock time (`time.time()`) when it is handled. */
  datatype Arrival = Arrival(event: Event, now: int)

  /** The receiver's handlers; `OnAny` is the `'*'` entry, `state.event` alone. */
  datatype Handler = OnStarted | OnSucceeded | OnFailed | OnRetried | OnAny

  /** The handler table: the four typed names, everything else to `'*'`. */
  function Route(eventType: string): (h: Handler)
    ensures h == OnStarted <==> eventType == "task-started"
    ensures h == OnSucceeded <==> eventType == "task-succeeded"
    ensures h == OnFailed <==> eventType == "task-failed"
    ensures h == OnRetried <==> eventType == "task-retried"
  {
    match eventType
    case "task-started" => OnStarted
    case "task-succeeded" => OnSucceeded
    case "task-failed" => OnFailed
    case "task-retried" => OnRetried
    case _ => OnAny
  }

  /** The label value of a routing key: the registry stringifies it, so `None` reads "None". */
  function QueueLabel(routingKey: Option<string>): (text: string)
    ensures routingKey.Some? ==> text == routingKey.value
    ensures routingKey.None? ==> text == "None"
  {
    routingKey.GetOr("None")
  }

  /** Python truthiness of `task.sent`: `None` and 0 are false, every other time is true. */
  predicate SentTruthy(sent: Option<int>): (truthy: bool)
    ensures sent == None ==> !truthy
    ensures sent == Some(0) ==> !truthy
    ensures sent.Some? && sent.value != 0 ==> truthy
  {
    sent.Some? && sent.value != 0
  }

  /** `record_runtime(task)` */
  function RecordRuntime(m: Snapshot, task: Option<TaskRecord>): (r: Snapshot)
    ensures r.tasks == m.tasks && r.queuetime == m.queuetime && r.queues == m.queues
    ensures task.Some? && task.value.runtime.Some? ==> r.runtime == m.runtime + [task.value.runtime.value]
    ensures !(task.Some? && task.value.runtime.Some?) ==> r == m
  {
    if task.Some? && task.value.runtime.Some? then m.(runtime := m.runtime + [task.value.runtime.value]) else m
  }

  /** `on_task_started`, after the wrapper's lookup. */
  function OnTaskStarted(m: Snapshot, task: TaskRecord, now: int): (r: Snapshot)
    ensures Bumped(m.tasks, r.tasks, (QueueLabel(task.routingKey), Started))
    ensures SentTruthy(task.sent) ==> r.queuetime == m.queuetime + [now - task.sent.value]
    ensures !SentTruthy(task.sent) ==> r.queuetime == m.queuetime
    ensures r.runtime == m.runtime && r.queues == m.queues
  {
    var counted := m.(tasks := Increment(m.tasks, (QueueLabel(task.routingKey), Started)));
    if SentTruthy(task.sent) then counted.(queuetime := counted.queuetime + [now - task.sent.value])
    else counted
  }

  /**
   * The three terminal handlers: count the event under `state`, then
   * `record_runtime`. `on_task_failed` passes the label computed from the
   * event's exception text.
   */
  function OnTaskFinished(m: Snapshot, task: TaskRecord, state: string): (r: Snapshot)
    ensures Bumped(m.tasks, r.tasks, (QueueLabel(task.routingKey), state))
    ensures r.queuetime == m.queuetime && r.queues == m.queues
    ensures r.runtime == m.runtime + (if task.runtime.Some? then [task.runtime.value] else [])
  {
    RecordRuntime(m.(tasks := Increment(m.tasks, (QueueLabel(task.routingKey), state))), Some(task))
  }

  /** The receiver's state between events. */
  datatype ReceiverState = ReceiverState(tasks: map<string, TaskRecord>, metrics: Snapshot)

  /** The state label a typed handler counts the event under. */
  function StateLabel(h: Handler, e: Event): string
    requires h != OnAny
  {
    match h
    case OnStarted => Started
    case OnSucceeded => Succeeded
    case OnFailed => FailureState(e.exception)
    case OnRetried => Retried
  }

  /** One event, dispatched through the handler table. */
  function Step(s: ReceiverState, a: Arrival): (r: ReceiverState)
    ensures r.tasks == Track(s.tasks, a.event)
    ensures a.event.uuid in r.tasks
    ensures r.metrics.queues == s.metrics.queues
    ensures Route(a.event.eventType) == OnAny ==> r.metrics == s.metrics
    ensures Route(a.event.eventType) != OnAny ==>
      Bumped(s.metrics.tasks, r.metrics.tasks,
             (QueueLabel(r.tasks[a.event.uuid].routingKey), StateLabel(Route(a.event.eventType), a.event)))
    ensures Route(a.event.eventType) in {OnStarted, OnAny} ==> r.metrics.runtime == s.metrics.runtime
    ensures Route(a.event.eventType) in {OnSucceeded, OnFailed, OnRetried} ==>
      r.metrics.runtime == s.metrics.runtime +
        (if r.tasks[a.event.uuid].runtime.Some? then [r.tasks[a.event.uuid].runtime.value] else [])
    ensures Route(a.event.eventType) != OnStarted ==> r.metrics.queuetime == s.metrics.queuetime
    ensures Route(a.event.eventType) == OnStarted ==>
      r.metrics.queuetime == s.metrics.queuetime +
        (if SentTruthy(r.tasks[a.event.uuid].sent) then [a.now - r.tasks[a.event.uuid].sent.value] else [])
  {
    var e := a.event;
    var tasks := Track(s.tasks, e);
    var task := tasks[e.uuid];
    match Route(e.eventType)
    case OnAny => ReceiverState(tasks, s.metrics)
    case OnStarted => ReceiverState(tasks, OnTaskStarted(s.metrics, task, a.now))
    case OnSucceeded => ReceiverState(tasks, OnTaskFinished(s.metrics, task, Succeeded))
    case OnFailed => ReceiverState(tasks, OnTaskFinished(s.metrics, task, FailureState(e.exception)))
    case OnRetried => ReceiverState(tasks, OnTaskFinished(s.metrics, task, Retried))
  }

  /**
   * A sequence of events handled one after the other. Every event's task
   * ends with a record, no other record appears, and no gauge changes.
   */
  function Replay(s: ReceiverState, arrivals: seq<Arrival>): (r: ReceiverState)
    ensures r.metrics.queues == s.metrics.queues
    decreases |arrivals|
  {
    if arrivals == [] then s
    else Step(Replay(s, arrivals[..|arrivals| - 1]), arrivals[|arrivals| - 1])
  }

  /**
   * One `receiver()` call: a fresh `State()`, then every event of the
   * session in order. Gauges are untouched and no counter cell decreases.
   */
  function Session(m: Snapshot, arrivals: seq<Arrival>): (r: Snapshot)
    ensures r.queues == m.queues
    ensures forall k :: Count(m.tasks, k) <= Count(r.tasks, k)
  {
    var s := ReceiverState(map[], m);
    assert forall k :: Count(m.tasks, k) <= Count(Replay(s, arrivals).metrics.tasks, k) by {
      forall k ensures Count(m.tasks, k) <= Count(Replay(s, arrivals).metrics.tasks, k) {
        ReplayCountsGrow(s, arrivals, k);
      }
    }
    Replay(s, arrivals).metrics
  }

  /** Events the handler table sends to `'*'` only update the tracker. */
  lemma {:induction false} UntypedLeavesMetrics(s: ReceiverState, arrivals: seq<Arrival>)
    requires forall i :: 0 <= i < |arrivals| ==> Route(arrivals[i].event.eventType) == OnAny
    ensures Replay(s, arrivals).metrics == s.metrics
    decreases |arrivals|
  {
    if arrivals != [] {
      UntypedLeavesMetrics(s, arrivals[..|arrivals| - 1]);
    }
  }

  /** The task ids the events of a session name. */
  function Uuids(arrivals: seq<Arrival>): set<string> {
    set i | 0 <= i < |arrivals| :: arrivals[i].event.uuid
  }

  /** One more event names one more id. */
  lemma UuidsSnoc(arrivals: seq<Arrival>)
    requires arrivals != []
    ensures Uuids(arrivals) == Uuids(arrivals[..|arrivals| - 1]) + {arrivals[|arrivals| - 1].event.uuid}
  {
    var front := arrivals[..|arrivals| - 1];
    forall i | 0 <= i < |front| ensures front[i] == arrivals[i] { }
  }

  /** After a session the tracker holds exactly the tasks it held and every task an event named. */
  lemma {:induction false} ReplayTracksEvery(s: ReceiverState, arrivals: seq<Arrival>)
    ensures Replay(s, arrivals).tasks.Keys == s.tasks.Keys + Uuids(arrivals)
    decreases |arrivals|
  {
    if arrivals != [] {
      var front := arrivals[..|arrivals| - 1];
      var last := arrivals[|arrivals| - 1];
      ReplayTracksEvery(s, front);
      UuidsSnoc(arrivals);
      assert Replay(s, arrivals).tasks == Track(Replay(s, front).tasks, last.event);
    }
  }

  /** Counter cells only grow; a cell that held a value still holds at least that. */
  lemma {:induction false} ReplayCountsGrow(s: ReceiverState, arrivals: seq<Arrival>, k: Labels)
    ensures Count(s.metrics.tasks, k) <= Count(Replay(s, arrivals).metrics.tasks, k)
    decreases |arrivals|
  {
    if arrivals != [] {
      ReplayCountsGrow(s, arrivals[..|arrivals| - 1], k);
    }
  }
}
