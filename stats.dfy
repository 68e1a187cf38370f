/**
 * The metrics registry (`STATS`): the `celery_tasks_total` counter labelled
 * by (queue, state), the `celery_task_queuetime_seconds` and
 * `celery_task_runtime_seconds` histograms, and the `celery_queue_length`
 * gauge labelled by queue. A histogram is modelled by the list of values
 * observed, in order.
 */
module Stats {

  /** The label values of one `celery_tasks_total` cell: (queue, state). */
  type Labels = (string, string)

  datatype Snapshot = Snapshot(
    tasks: map<Labels, nat>,
    queuetime: seq<int>,
    runtime: seq<int>,
    queues: map<string, int>)

  const Empty: Snapshot := Snapshot(map[], [], [], map[])

  /** A counter cell that was never incremented reads as 0. */
  function Count(c: map<Labels, nat>, k: Labels): nat {
    if k in c then c[k] else 0
  }

  /** `after` is `before` with cell `k` one higher and every other cell as it was. */
  predicate Bumped(before: map<Labels, nat>, after: map<Labels, nat>, k: Labels) {
    && k in after
    && after[k] == Count(before, k) + 1
    && (forall k' :: k' in before ==> k' in after)
    && (forall k' :: k' in after && k' != k ==> k' in before && after[k'] == before[k'])
  }

  /** `.labels(*k).inc()`: the child is created at 0 on first use, then incremented. */
  function Increment(c: map<Labels, nat>, k: Labels): (r: map<Labels, nat>)
    ensures Bumped(c, r, k)
  {
    c[k := Count(c, k) + 1]
  }

  /** `Bumped` determines the new counter: it is exactly `Increment`. */
  lemma BumpedIsIncrement(before: map<Labels, nat>, after: map<Labels, nat>, k: Labels)
    requires Bumped(before, after, k)
    ensures after == Increment(before, k)
  {
  }

  class Registry {
    var tasks: map<Labels, nat>
    var queuetime: seq<int>
    var runtime: seq<int>
    var queues: map<string, int>

    function View(): Snapshot
      reads this
    {
      Snapshot(tasks, queuetime, runtime, queues)
    }

    constructor ()
      ensures View() == Empty
    {
      tasks, queuetime, runtime, queues := map[], [], [], map[];
    }

    /** `STATS['tasks'].labels(queue, state).inc()` */
    method Inc(queue: string, state: string)
      modifies this
      ensures View() == old(View()).(tasks := Increment(old(tasks), (queue, state)))
    {
      tasks := Increment(tasks, (queue, state));
    }

    /** `STATS['queuetime'].observe(v)` */
    method ObserveQueuetime(v: int)
      modifies this
      ensures View() == old(View()).(queuetime := old(queuetime) + [v])
    {
      queuetime := queuetime + [v];
    }

    /** `STATS['runtime'].observe(v)` */
    method ObserveRuntime(v: int)
      modifies this
      ensures View() == old(View()).(runtime := old(runtime) + [v])
    {
      runtime := runtime + [v];
    }

    /** `STATS['queues'].labels(queue).set(v)` */
    method SetQueueLength(queue: string, v: int)
      modifies this
      ensures View() == old(View()).(queues := old(queues)[queue := v])
    {
      queues := queues[queue := v];
    }
  }
}
