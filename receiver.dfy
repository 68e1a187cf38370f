/**
 * `CeleryEventReceiver`: the tracker it resets on every call and the shared
 * registry its handlers write to. Each handler method is proved to have
 * exactly the effect the functions of module Dispatch give it; the `'*'`
 * handler and `task_handler` are proved against `Tracker.Track`.
 */
module Receiver {
  import opened Wrappers
  import opened Stats
  import opened Tracker
  import opened FailureLabel
  import opened Dispatch

  class CeleryEventReceiver {
    /** `self.state.tasks` */
    var tasks: map<string, TaskRecord>
    /** `STATS`, shared with the queue-length monitor */
    const registry: Registry

    function State(): ReceiverState
      reads this, registry
    {
      ReceiverState(tasks, registry.View())
    }

    constructor (registry: Registry)
      ensures this.registry == registry && tasks == map[]
    {
      this.registry := registry;
      tasks := map[];
    }

    /** The `'*'` handler, `self.state.event`, and the first half of `task_handler`. */
    method StateEvent(e: Event)
      modifies this
      ensures tasks == Track(old(tasks), e)
    {
      tasks := Track(tasks, e);
    }

    /** `task_handler`'s wrapper: update the tracker, then look the task up again. */
    method TaskHandler(e: Event) returns (task: Option<TaskRecord>)
      modifies this
      ensures tasks == Track(old(tasks), e)
      ensures task == Some(tasks[e.uuid])
    {
      StateEvent(e);
      task := Get(tasks, e.uuid);
    }

    method RecordRuntime(task: Option<TaskRecord>)
      modifies registry
      ensures registry.View() == Dispatch.RecordRuntime(old(registry.View()), task)
    {
      if task.Some? && task.value.runtime.Some? {
        registry.ObserveRuntime(task.value.runtime.value);
      }
    }

    method OnTaskStarted(e: Event, now: int)
      modifies this, registry
      ensures tasks == Track(old(tasks), e)
      ensures registry.View() == Dispatch.OnTaskStarted(old(registry.View()), tasks[e.uuid], now)
    {
      var task := TaskHandler(e);
      var rec := task.value;
      registry.Inc(QueueLabel(rec.routingKey), Started);
      if SentTruthy(rec.sent) {
        registry.ObserveQueuetime(now - rec.sent.value);
      }
    }

    method OnTaskSucceeded(e: Event)
      modifies this, registry
      ensures tasks == Track(old(tasks), e)
      ensures registry.View() == OnTaskFinished(old(registry.View()), tasks[e.uuid], Succeeded)
    {
      var task := TaskHandler(e);
      registry.Inc(QueueLabel(task.value.routingKey), Succeeded);
      RecordRuntime(task);
    }

    method OnTaskFailed(e: Event)
      modifies this, registry
      ensures tasks == Track(old(tasks), e)
      ensures registry.View() == OnTaskFinished(old(registry.View()), tasks[e.uuid], FailureState(e.exception))
    {
      var task := TaskHandler(e);
      var state := Failed;
      if ExceptionName(e.exception) == MaxRetriesExceeded {
        state := RetriesExceeded;
      }
      registry.Inc(QueueLabel(task.value.routingKey), state);
      RecordRuntime(task);
    }

    method OnTaskRetried(e: Event)
      modifies this, registry
      ensures tasks == Track(old(tasks), e)
      ensures registry.View() == OnTaskFinished(old(registry.View()), tasks[e.uuid], Retried)
    {
      var task := TaskHandler(e);
      registry.Inc(QueueLabel(task.value.routingKey), Retried);
      RecordRuntime(task);
    }

    /** The event receiver's dispatch of one event through the handler table. */
    method Handle(a: Arrival)
      modifies this, registry
      ensures State() == Step(old(State()), a)
    {
      match Route(a.event.eventType)
      case OnStarted => OnTaskStarted(a.event, a.now);
      case OnSucceeded => OnTaskSucceeded(a.event);
      case OnFailed => OnTaskFailed(a.event);
      case OnRetried => OnTaskRetried(a.event);
      case OnAny => StateEvent(a.event);
    }

    /** `__call__`: a fresh `State()`, then the session's events in order. */
    method Call(arrivals: seq<Arrival>)
      modifies this, registry
      ensures State() == Replay(ReceiverState(map[], old(registry.View())), arrivals)
      ensures registry.View() == Session(old(registry.View()), arrivals)
    {
      tasks := map[];
      ghost var start := State();
      for i := 0 to |arrivals|
        invariant State() == Replay(start, arrivals[..i])
      {
        assert arrivals[..i + 1][..i] == arrivals[..i];
        Handle(arrivals[i]);
      }
      assert arrivals[..|arrivals|] == arrivals;
    }
  }
}
