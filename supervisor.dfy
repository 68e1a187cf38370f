/**
 * The reconnect loop of `main`: `try_interval` is doubled before every call
 * of the receiver, reset to 1 when the call returns, and slept after a call
 * that raised. An interrupt stops the queue-length monitor (if one was
 * started) and ends the loop without sleeping.
 *
 * A receiver session is given as its events and the way it ended; sleeps
 * are recorded rather than performed.
 */
module Supervisor {
  import opened Stats
  import opened Dispatch
  import opened Receiver
  import opened QueueLength

  datatype SessionEnd = Returned | Raised | Interrupted

  /** One call of `receiver()`: the events it handled, then how it ended. */
  datatype ReceiverSession = ReceiverSession(arrivals: seq<Arrival>, end: SessionEnd)

  function Pow2(n: nat): (p: nat)
    ensures p >= 1
  {
    if n == 0 then 1 else 2 * Pow2(n - 1)
  }

  /** The sleeps of the loop, from a `try_interval` of `interval` at the head of `sessions`. */
  function Sleeps(sessions: seq<ReceiverSession>, interval: nat): (r: seq<nat>)
    ensures |r| <= |sessions|
    decreases |sessions|
  {
    if sessions == [] then []
    else
      var tried := 2 * interval;
      match sessions[0].end
      case Returned => Sleeps(sessions[1..], 1)
      case Raised => [tried] + Sleeps(sessions[1..], tried)
      case Interrupted => []
  }

  predicate Interrupts(sessions: seq<ReceiverSession>) {
    exists i :: 0 <= i < |sessions| && sessions[i].end == Interrupted
  }

  /** The registry after the loop: every session up to and including an interrupted one. */
  function Received(m: Snapshot, sessions: seq<ReceiverSession>): (r: Snapshot)
    ensures r.queues == m.queues
    decreases |sessions|
  {
    if sessions == [] then m
    else
      var after := Session(m, sessions[0].arrivals);
      if sessions[0].end == Interrupted then after else Received(after, sessions[1..])
  }

  /**
   * From a positive interval every sleep is at least 2 seconds, and a run
   * in which no call raised sleeps not at all.
   */
  lemma {:induction false} SleepsBounds(sessions: seq<ReceiverSession>, k: nat)
    ensures k >= 1 ==> forall i :: 0 <= i < |Sleeps(sessions, k)| ==> Sleeps(sessions, k)[i] >= 2
    ensures (forall i :: 0 <= i < |sessions| ==> sessions[i].end != Raised) ==> Sleeps(sessions, k) == []
    decreases |sessions|
  {
    if sessions != [] {
      var next := if sessions[0].end == Returned then 1 else 2 * k;
      SleepsBounds(sessions[1..], next);
      assert forall i :: 0 <= i < |sessions[1..]| ==> sessions[1..][i] == sessions[i + 1];
    }
  }

  /** Across the whole loop no counter cell decreases. */
  lemma {:induction false} ReceivedCountsGrow(m: Snapshot, sessions: seq<ReceiverSession>, key: Labels)
    ensures Count(m.tasks, key) <= Count(Received(m, sessions).tasks, key)
    decreases |sessions|
  {
    if sessions != [] && sessions[0].end != Interrupted {
      ReceivedCountsGrow(Session(m, sessions[0].arrivals), sessions[1..], key);
    }
  }

  /** `n` consecutive failures from `try_interval == k` sleep 2k, 4k, …, 2^n·k. */
  lemma {:induction false} ConsecutiveFailures(sessions: seq<ReceiverSession>, k: nat)
    requires forall i :: 0 <= i < |sessions| ==> sessions[i].end == Raised
    ensures |Sleeps(sessions, k)| == |sessions|
    ensures forall i :: 0 <= i < |sessions| ==> Sleeps(sessions, k)[i] == k * Pow2(i + 1)
    decreases |sessions|
  {
    if sessions != [] {
      ConsecutiveFailures(sessions[1..], 2 * k);
      var rest := Sleeps(sessions[1..], 2 * k);
      assert Sleeps(sessions, k) == [2 * k] + rest;
      forall i | 1 <= i < |sessions|
        ensures Sleeps(sessions, k)[i] == k * Pow2(i + 1)
      {
        assert Sleeps(sessions, k)[i] == rest[i - 1] == 2 * k * Pow2(i);
      }
    }
  }

  /** From the start of `main`, `n` failures sleep 2, 4, …, 2^n. */
  lemma FailuresFromStart(sessions: seq<ReceiverSession>)
    requires forall i :: 0 <= i < |sessions| ==> sessions[i].end == Raised
    ensures |Sleeps(sessions, 1)| == |sessions|
    ensures forall i :: 0 <= i < |sessions| ==> Sleeps(sessions, 1)[i] == Pow2(i + 1)
  {
    ConsecutiveFailures(sessions, 1);
  }

  /**
   * A call that returns resets the interval: what follows it sleeps as if
   * `main` had just started, whatever came before.
   */
  lemma {:induction false} ReturnResets(before: seq<ReceiverSession>, s: ReceiverSession, after: seq<ReceiverSession>, k: nat)
    requires !Interrupts(before)
    requires s.end == Returned
    ensures Sleeps(before + [s] + after, k) == Sleeps(before, k) + Sleeps(after, 1)
    decreases |before|
  {
    if before == [] {
      assert before + [s] + after == [s] + after;
    } else {
      assert (before + [s] + after)[1..] == before[1..] + [s] + after;
      assert !Interrupts(before[1..]) by {
        forall i | 0 <= i < |before[1..]| ensures before[1..][i].end != Interrupted {
          assert before[1..][i] == before[i + 1];
        }
      }
      assert before[0].end != Interrupted;
      ReturnResets(before[1..], s, after, if before[0].end == Returned then 1 else 2 * k);
    }
  }

  /**
   * An interrupted call sleeps nothing itself, and nothing after it sleeps
   * or reaches the registry.
   */
  lemma {:induction false} InterruptEnds(before: seq<ReceiverSession>, s: ReceiverSession, after: seq<ReceiverSession>, k: nat, m: Snapshot)
    requires s.end == Interrupted
    ensures Sleeps(before + [s], k) == Sleeps(before, k)
    ensures Sleeps(before + [s] + after, k) == Sleeps(before + [s], k)
    ensures Received(m, before + [s] + after) == Received(m, before + [s])
    decreases |before|
  {
    if before == [] {
      assert before + [s] + after == [s] + after;
      assert before + [s] == [s];
    } else {
      assert (before + [s] + after)[1..] == before[1..] + [s] + after;
      assert (before + [s])[1..] == before[1..] + [s];
      InterruptEnds(before[1..], s, after, if before[0].end == Returned then 1 else 2 * k,
                    Session(m, before[0].arrivals));
    }
  }

  /**
   * One turn of the reconnect loop, as `Sleeps` sees it: what the loop has
   * slept so far, followed by what the rest will sleep, stays the whole
   * loop's sleeps.
   */
  lemma SleepsAdvance(sessions: seq<ReceiverSession>, i: nat, k: nat, sleeps: seq<nat>)
    requires i < |sessions|
    requires sleeps + Sleeps(sessions[i..], k) == Sleeps(sessions, 1)
    ensures sessions[i].end != Interrupted ==>
      sleeps + (if sessions[i].end == Raised then [2 * k] else []) +
        Sleeps(sessions[i + 1..], if sessions[i].end == Returned then 1 else 2 * k) == Sleeps(sessions, 1)
    ensures sessions[i].end == Interrupted ==> sleeps == Sleeps(sessions, 1)
  {
    assert sessions[i..][1..] == sessions[i + 1..];
    if sessions[i].end == Raised {
      assert sleeps + [2 * k] + Sleeps(sessions[i + 1..], 2 * k) == sleeps + ([2 * k] + Sleeps(sessions[i + 1..], 2 * k));
    } else if sessions[i].end == Returned {
      assert sleeps + [] == sleeps;
    } else {
      assert sleeps + [] == sleeps;
    }
  }

  /** One turn of the reconnect loop, as `Received` sees it. */
  lemma ReceivedAdvance(sessions: seq<ReceiverSession>, i: nat, m: Snapshot, m0: Snapshot)
    requires i < |sessions|
    requires Received(m, sessions[i..]) == Received(m0, sessions)
    ensures sessions[i].end != Interrupted ==>
      Received(Session(m, sessions[i].arrivals), sessions[i + 1..]) == Received(m0, sessions)
    ensures sessions[i].end == Interrupted ==> Session(m, sessions[i].arrivals) == Received(m0, sessions)
  {
    assert sessions[i..][1..] == sessions[i + 1..];
  }

  /**
   * One turn of the `while True` loop: double `try_interval`, run the
   * receiver, then reset the interval, sleep it, or stop the monitor.
   */
  method Attempt(receiver: CeleryEventReceiver, monitor: QueueLengthMonitor?, s: ReceiverSession, tryInterval: nat)
    returns (next: nat, slept: seq<nat>)
    modifies receiver, receiver.registry, monitor
    ensures receiver.registry.View() == Session(old(receiver.registry.View()), s.arrivals)
    ensures next == if s.end == Returned then 1 else 2 * tryInterval
    ensures slept == if s.end == Raised then [2 * tryInterval] else []
    ensures monitor != null ==> monitor.running == (old(monitor.running) && s.end != Interrupted)
  {
    next := tryInterval * 2;
    slept := [];
    receiver.Call(s.arrivals);
    match s.end {
      case Returned =>
        next := 1;
      case Raised =>
        slept := [next];
      case Interrupted =>
        if monitor != null {
          monitor.Stop();
        }
    }
  }

  /** The `while True` loop of `main`, over the sessions the receiver runs. */
  method Supervise(receiver: CeleryEventReceiver, monitor: QueueLengthMonitor?, sessions: seq<ReceiverSession>)
    returns (sleeps: seq<nat>)
    modifies receiver, receiver.registry, monitor
    ensures sleeps == Sleeps(sessions, 1)
    ensures receiver.registry.View() == Received(old(receiver.registry.View()), sessions)
    ensures monitor != null ==> monitor.running == (old(monitor.running) && !Interrupts(sessions))
  {
    var tryInterval: nat := 1;
    sleeps := [];
    var i := 0;
    while i < |sessions|
      invariant 0 <= i <= |sessions|
      invariant sleeps + Sleeps(sessions[i..], tryInterval) == Sleeps(sessions, 1)
      invariant Received(receiver.registry.View(), sessions[i..]) == Received(old(receiver.registry.View()), sessions)
      invariant forall j :: 0 <= j < i ==> sessions[j].end != Interrupted
      invariant monitor != null ==> monitor.running == old(monitor.running)
    {
      SleepsAdvance(sessions, i, tryInterval, sleeps);
      ReceivedAdvance(sessions, i, receiver.registry.View(), old(receiver.registry.View()));
      var slept;
      tryInterval, slept := Attempt(receiver, monitor, sessions[i], tryInterval);
      sleeps := sleeps + slept;
      if sessions[i].end == Interrupted {
        break;
      }
      i := i + 1;
    }
  }

  /**
   * `main` after option parsing: a monitor is started only for a non-zero
   * `--queuelength-interval`, then the reconnect loop runs.
   */
  method RunExporter(registry: Registry, queuelengthInterval: int, names: seq<string>, sessions: seq<ReceiverSession>)
    returns (monitor: QueueLengthMonitor?, sleeps: seq<nat>)
    modifies registry
    ensures (monitor != null) == (queuelengthInterval != 0)
    ensures monitor != null ==>
      fresh(monitor) && monitor.registry == registry && monitor.interval == queuelengthInterval &&
      monitor.names == names && monitor.running == !Interrupts(sessions)
    ensures sleeps == Sleeps(sessions, 1)
    ensures registry.View() == Received(old(registry.View()), sessions)
  {
    monitor := null;
    if queuelengthInterval != 0 {
      monitor := new QueueLengthMonitor(registry, queuelengthInterval, names);
    }
    var receiver := new CeleryEventReceiver(registry);
    sleeps := Supervise(receiver, monitor, sessions);
  }
}
