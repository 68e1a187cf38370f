/**
 * Concrete runs: the two event sequences the exporter's tests drive through
 * a receiver, and worked examples of the queue-length sum and the backoff.
 */
module Scenarios {
  import opened Wrappers
  import opened Stats
  import opened Tracker
  import opened FailureLabel
  import opened Dispatch
  import opened QueueLength
  import opened Supervisor

  /** An event of task `id`, routed to `queue`, carrying no `sent` timestamp. */
  function Ev(eventType: string, id: string, queue: string, runtime: Option<int>, exception: Option<string>): Event {
    Event(eventType, id, Some(queue), None, runtime, exception)
  }

  lemma {:induction false} ReplayAppend(s: ReceiverState, xs: seq<Arrival>, ys: seq<Arrival>)
    ensures Replay(s, xs + ys) == Replay(Replay(s, xs), ys)
    decreases |ys|
  {
    if ys == [] {
      assert xs + ys == xs;
    } else {
      var init := ys[..|ys| - 1];
      assert (xs + ys)[..|xs + ys| - 1] == xs + init;
      ReplayAppend(s, xs, init);
    }
  }

  /** Three events run through one step at a time. */
  lemma ReplayThree(s: ReceiverState, a0: Arrival, a1: Arrival, a2: Arrival)
    ensures Replay(s, [a0, a1, a2]) == Step(Step(Step(s, a0), a1), a2)
  {
    var l1, l2, l3 := [a0], [a0, a1], [a0, a1, a2];
    assert l1[..0] == [] && l2[..1] == l1 && l3[..2] == l2;
    assert Replay(s, l1) == Step(s, a0);
    assert Replay(s, l2) == Step(Replay(s, l1), a1);
  }

  /** The counter after one event of task `e.uuid` routed to `queue`. */
  lemma StepCounter(s: ReceiverState, a: Arrival, queue: string)
    requires a.event.routingKey == Some(queue)
    ensures Step(s, a).tasks[a.event.uuid].routingKey == Some(queue)
    ensures Route(a.event.eventType) == OnAny ==> Step(s, a).metrics.tasks == s.metrics.tasks
    ensures Route(a.event.eventType) != OnAny ==>
      Step(s, a).metrics.tasks == Increment(s.metrics.tasks, (queue, StateLabel(Route(a.event.eventType), a.event)))
  {
    var r := Step(s, a);
    if Route(a.event.eventType) != OnAny {
      BumpedIsIncrement(s.metrics.tasks, r.metrics.tasks, (queue, StateLabel(Route(a.event.eventType), a.event)));
    }
  }

  /**
   * received, started, succeeded, as in the first test: exactly one
   * `started` and one `succeeded` sample for the task's queue, and the
   * runtime the succeeded event reported.
   */
  lemma PingSucceeds(id: string, queue: string, t0: int, t1: int, t2: int, runtime: int)
    ensures Session(Empty, [Arrival(Ev("task-received", id, queue, None, None), t0),
                            Arrival(Ev("task-started", id, queue, None, None), t1),
                            Arrival(Ev("task-succeeded", id, queue, Some(runtime), None), t2)])
      == Snapshot(map[(queue, Started) := 1, (queue, Succeeded) := 1], [], [runtime], map[])
  {
    var a0, a1, a2 := Arrival(Ev("task-received", id, queue, None, None), t0),
                      Arrival(Ev("task-started", id, queue, None, None), t1),
                      Arrival(Ev("task-succeeded", id, queue, Some(runtime), None), t2);
    var s0 := ReceiverState(map[], Empty);
    ReplayThree(s0, a0, a1, a2);
    var s1 := Step(s0, a0);
    var s2 := Step(s1, a1);
    BumpedIsIncrement(s1.metrics.tasks, s2.metrics.tasks, (queue, Started));
    var s3 := Step(s2, a2);
    BumpedIsIncrement(s2.metrics.tasks, s3.metrics.tasks, (queue, Succeeded));
  }

  /**
   * One attempt of a task: received (untyped), started, then a terminal
   * event. The counter gains one `started` and one terminal sample.
   */
  lemma AttemptCounter(s: ReceiverState, queue: string, a0: Arrival, a1: Arrival, a2: Arrival)
    requires a0.event.routingKey == Some(queue) && Route(a0.event.eventType) == OnAny
    requires a1.event.routingKey == Some(queue) && Route(a1.event.eventType) == OnStarted
    requires a2.event.routingKey == Some(queue) && Route(a2.event.eventType) !in {OnAny, OnStarted}
    ensures Replay(s, [a0, a1, a2]).metrics.tasks ==
      Increment(Increment(s.metrics.tasks, (queue, Started)), (queue, StateLabel(Route(a2.event.eventType), a2.event)))
  {
    ReplayThree(s, a0, a1, a2);
    StepCounter(s, a0, queue);
    StepCounter(Step(s, a0), a1, queue);
    StepCounter(Step(Step(s, a0), a1), a2, queue);
  }

  /**
   * received, started, retried, received, started, failed with
   * `MaxRetriesExceededError(...)`, as in the second test: one
   * `retries-exceeded` sample and no `failed` one.
   */
  lemma RetryThenRetriesExceeded(id: string, queue: string, exception: string)
    requires MaxRetriesExceeded + "(" <= exception
    ensures var first := [Arrival(Ev("task-received", id, queue, None, None), 0),
                          Arrival(Ev("task-started", id, queue, None, None), 1),
                          Arrival(Ev("task-retried", id, queue, None, None), 2)];
            var second := [Arrival(Ev("task-received", id, queue, None, None), 3),
                           Arrival(Ev("task-started", id, queue, None, None), 4),
                           Arrival(Ev("task-failed", id, queue, None, Some(exception)), 5)];
            var m := Session(Empty, first + second);
      m.tasks == map[(queue, Started) := 2, (queue, Retried) := 1, (queue, RetriesExceeded) := 1]
      && (queue, Failed) !in m.tasks
  {
    var first := [Arrival(Ev("task-received", id, queue, None, None), 0),
                  Arrival(Ev("task-started", id, queue, None, None), 1),
                  Arrival(Ev("task-retried", id, queue, None, None), 2)];
    var second := [Arrival(Ev("task-received", id, queue, None, None), 3),
                   Arrival(Ev("task-started", id, queue, None, None), 4),
                   Arrival(Ev("task-failed", id, queue, None, Some(exception)), 5)];
    var s0 := ReceiverState(map[], Empty);
    ReplayAppend(s0, first, second);
    assert first == [first[0], first[1], first[2]] && second == [second[0], second[1], second[2]];
    AttemptCounter(s0, queue, first[0], first[1], first[2]);
    AttemptCounter(Replay(s0, first), queue, second[0], second[1], second[2]);
    RetriesExceededIff(Some(exception));
    assert StateLabel(OnFailed, second[2].event) == RetriesExceeded;
    RetryCounts(queue);
  }

  /** The counter arithmetic of the retried-then-exhausted run. */
  lemma RetryCounts(queue: string)
    ensures var c := Increment(Increment(Increment(Increment(map[], (queue, Started)), (queue, Retried)),
                                         (queue, Started)), (queue, RetriesExceeded));
      c == map[(queue, Started) := 2, (queue, Retried) := 1, (queue, RetriesExceeded) := 1]
      && (queue, Failed) !in c
  {
    assert Started != RetriesExceeded && Retried != RetriesExceeded && Failed != RetriesExceeded by {
      assert Started[0] != RetriesExceeded[0];
      assert |Retried| != |RetriesExceeded| && |Failed| != |RetriesExceeded|;
    }
    assert Started != Retried && Failed != Started && Failed != Retried by {
      assert Started[1] != Retried[1];
      assert |Failed| != |Started| && |Failed| != |Retried|;
    }
    var c1 := Increment(Increment(map[], (queue, Started)), (queue, Retried));
    assert c1 == map[(queue, Started) := 1, (queue, Retried) := 1];
    var c15 := Increment(c1, (queue, Started));
    assert c15 == map[(queue, Started) := 2, (queue, Retried) := 1];
  }

  /** The unacked entries of the queue-length example. */
  function ExampleEntries(): seq<Entry> {
    [Some(["m1", "x", "A"]), Some(["m2", "x", "A"]), Some(["m3", "x", "C"])]
  }

  /** The per-queue counts of the example's unacked entries. */
  lemma ExampleOccurrences()
    ensures Destinations(ExampleEntries()) == {"A", "C"}
    ensures Occurrences(ExampleEntries(), "A") == 2
    ensures Occurrences(ExampleEntries(), "B") == 0
    ensures Occurrences(ExampleEntries(), "C") == 1
  {
    var entries := ExampleEntries();
    assert entries[..3] == entries && entries[..3][..2] == entries[..2] && entries[..2][..1] == entries[..1];
    assert Destination(entries[0]) == Some("A");
    assert Destination(entries[1]) == Some("A");
    assert Destination(entries[2]) == Some("C");
    assert forall e | e in entries :: e == entries[0] || e == entries[1] || e == entries[2];
  }

  /** Pending {A: 2, B: 0} and unacked entries for A, A, C give A = 4, B = 0, C = 1. */
  lemma QueueLengthExample()
    ensures QueueLengths([2, 0], ["A", "B"], ExampleEntries()) == map["A" := 4, "B" := 0, "C" := 1]
  {
    ExampleOccurrences();
    assert NamesUpTo(["A", "B"], 2) == {"A", "B"} by {
      assert forall i | 0 <= i < 2 :: ["A", "B"][i] in {"A", "B"};
      assert ["A", "B"][0] == "A" && ["A", "B"][1] == "B";
    }
    assert PendingUpTo([2, 0], ["A", "B"], 2, "A") == 2;
    assert PendingUpTo([2, 0], ["A", "B"], 2, "B") == 0;
    assert PendingUpTo([2, 0], ["A", "B"], 2, "C") == 0;
  }

  /** Two failures in a row wait 2, then 4. */
  lemma TwoFailuresBackOff(s1: ReceiverSession, s2: ReceiverSession)
    requires s1.end == Raised && s2.end == Raised
    ensures Sleeps([s1, s2], 1) == [2, 4]
  {
    assert [s1, s2][1..] == [s2];
    assert [s2][1..] == [];
    assert Sleeps([s2], 2) == [4] + Sleeps([], 4);
  }

  /** A failure after a call that returned waits 2 again. */
  lemma FailureAfterReturn(s1: ReceiverSession, s2: ReceiverSession, s3: ReceiverSession)
    requires s1.end == Raised && s2.end == Returned && s3.end == Raised
    ensures Sleeps([s1, s2, s3], 1) == [2, 2]
  {
    assert [s1, s2, s3][1..] == [s2, s3];
    assert [s2, s3][1..] == [s3];
    assert [s3][1..] == [];
    assert Sleeps([s3], 1) == [2] + Sleeps([], 2);
    assert Sleeps([s2, s3], 2) == Sleeps([s3], 1);
  }
}
