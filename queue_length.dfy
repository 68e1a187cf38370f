/**
 * `QueueLengthMonitor`: once per cycle it reads one pending length per
 * configured queue and the list of unacked entries, counts them per queue
 * and sets one `celery_queue_length` gauge per queue it counted.
 *
 * The Redis pipeline is an input: a cycle's reply is either an error raised
 * by the connection or the pipeline's results. An unacked entry is the
 * decoded JSON list (`None` when it does not decode); its destination queue
 * is its last field.
 */
module QueueLength {
  import opened Wrappers
  import opened Stats

  type Entry = Option<seq<string>>

  datatype Reply =
    | ConnectionError
    | Replied(pending: seq<nat>, unacked: seq<Entry>)

  /** `json.loads(task.decode('utf-8'))[-1]`; None when that raises. */
  function Destination(e: Entry): (d: Option<string>)
    ensures d.None? <==> (e.None? || e.value == [])
    ensures d.Some? ==> d.value == e.value[|e.value| - 1]
  {
    if e.Some? && |e.value| > 0 then Some(e.value[|e.value| - 1]) else None
  }

  predicate Malformed(e: Entry) {
    Destination(e).None?
  }

  /** The number of unacked entries whose destination is `q`. */
  function Occurrences(entries: seq<Entry>, q: string): (n: nat)
    ensures n <= |entries|
    decreases |entries|
  {
    if entries == [] then 0
    else Occurrences(entries[..|entries| - 1], q) + (if Destination(entries[|entries| - 1]) == Some(q) then 1 else 0)
  }

  /** The queues some unacked entry names. */
  function Destinations(entries: seq<Entry>): set<string> {
    set e | e in entries && Destination(e).Some? :: Destination(e).value
  }

  /** How many (length, queue) pairs `zip(result, task_queues)` yields. */
  function Paired(pending: seq<nat>, names: seq<string>): nat {
    if |pending| < |names| then |pending| else |names|
  }

  /** The configured queues among the first `n` pairs. */
  function NamesUpTo(names: seq<string>, n: nat): set<string>
    requires n <= |names|
  {
    set i | 0 <= i < n :: names[i]
  }

  /** The sum of the pending lengths paired with queue `q` among the first `n` pairs. */
  function PendingUpTo(pending: seq<nat>, names: seq<string>, n: nat, q: string): nat
    requires n <= |pending| && n <= |names|
  {
    if n == 0 then 0
    else PendingUpTo(pending, names, n - 1, q) + (if names[n - 1] == q then pending[n - 1] else 0)
  }

  /** The counter after the unacked entries and the first `n` pairs. */
  function CountedUpTo(pending: seq<nat>, names: seq<string>, entries: seq<Entry>, n: nat): map<string, int>
    requires n <= |pending| && n <= |names|
  {
    map q | q in Destinations(entries) + NamesUpTo(names, n) ::
      Occurrences(entries, q) + PendingUpTo(pending, names, n, q)
  }

  /**
   * The queue lengths of one cycle: for every queue named by an unacked
   * entry or paired with a pending length, its unacked entries plus its
   * pending lengths.
   */
  function QueueLengths(pending: seq<nat>, names: seq<string>, entries: seq<Entry>): (r: map<string, int>)
    ensures r.Keys == Destinations(entries) + NamesUpTo(names, Paired(pending, names))
    ensures forall q :: q in r ==>
      r[q] == Occurrences(entries, q) + PendingUpTo(pending, names, Paired(pending, names), q)
  {
    CountedUpTo(pending, names, entries, Paired(pending, names))
  }

  predicate AnyMalformed(entries: seq<Entry>) {
    exists k :: 0 <= k < |entries| && Malformed(entries[k])
  }

  /** A cycle publishes only when the pipeline answered and every entry parsed. */
  predicate CycleSucceeds(reply: Reply) {
    reply.Replied? && !AnyMalformed(reply.unacked)
  }

  /** The gauges after one cycle of `run`. */
  function CycleGauges(gauges: map<string, int>, reply: Reply, names: seq<string>): (r: map<string, int>)
    ensures !CycleSucceeds(reply) ==> r == gauges
    ensures CycleSucceeds(reply) ==>
      forall q :: q in Destinations(reply.unacked) + NamesUpTo(names, Paired(reply.pending, names)) ==>
        q in r && r[q] == Occurrences(reply.unacked, q) + PendingUpTo(reply.pending, names, Paired(reply.pending, names), q)
    ensures reply.Replied? ==>
      forall q :: q !in Destinations(reply.unacked) && q !in NamesUpTo(names, Paired(reply.pending, names)) ==>
        (q in r <==> q in gauges) && (q in gauges ==> r[q] == gauges[q])
  {
    if CycleSucceeds(reply) then gauges + QueueLengths(reply.pending, names, reply.unacked) else gauges
  }

  /** The gauges after a run of cycles: no gauge is ever removed, and failed cycles change nothing. */
  function Gauges(gauges: map<string, int>, replies: seq<Reply>, names: seq<string>): (r: map<string, int>)
    ensures gauges.Keys <= r.Keys
    ensures (forall i :: 0 <= i < |replies| ==> !CycleSucceeds(replies[i])) ==> r == gauges
    decreases |replies|
  {
    if replies == [] then gauges
    else CycleGauges(Gauges(gauges, replies[..|replies| - 1], names), replies[|replies| - 1], names)
  }

  /** The number of cycles of a run that published. */
  function Published(replies: seq<Reply>): (n: nat)
    ensures n <= |replies|
    decreases |replies|
  {
    if replies == [] then 0
    else Published(replies[..|replies| - 1]) + (if CycleSucceeds(replies[|replies| - 1]) then 1 else 0)
  }

  /**
   * The sleeps of a run of cycles: one interval after each cycle that
   * published. `time.sleep` raises on a negative interval, inside the
   * `try`, so then no cycle sleeps.
   */
  function Pauses(replies: seq<Reply>, interval: int): (r: seq<nat>)
    ensures |r| <= |replies|
    ensures forall i :: 0 <= i < |r| ==> r[i] == interval
    ensures interval < 0 ==> r == []
    ensures interval >= 0 ==> |r| == Published(replies)
    decreases |replies|
  {
    if replies == [] then []
    else
      var last := if CycleSucceeds(replies[|replies| - 1]) && interval >= 0 then [interval as nat] else [];
      Pauses(replies[..|replies| - 1], interval) + last
  }

  /**
   * Over a run, a cycle that raised adds no sleep and a cycle that published
   * adds one when the interval is not negative.
   */
  lemma {:induction false} PausesFollowCycles(replies: seq<Reply>, interval: int)
    ensures (forall i :: 0 <= i < |replies| ==> !CycleSucceeds(replies[i])) ==>
      Published(replies) == 0 && Pauses(replies, interval) == []
    ensures (forall i :: 0 <= i < |replies| ==> CycleSucceeds(replies[i])) ==> Published(replies) == |replies|
    ensures interval >= 0 && (forall i :: 0 <= i < |replies| ==> CycleSucceeds(replies[i])) ==>
      |Pauses(replies, interval)| == |replies|
    decreases |replies|
  {
    if replies != [] {
      var front := replies[..|replies| - 1];
      PausesFollowCycles(front, interval);
      assert forall i :: 0 <= i < |front| ==> front[i] == replies[i];
    }
  }

  /** One more cycle of a run, as `Gauges` and `Pauses` see it. */
  lemma RunSnoc(gauges: map<string, int>, replies: seq<Reply>, k: nat, names: seq<string>, interval: int)
    requires k < |replies|
    ensures Gauges(gauges, replies[..k + 1], names) == CycleGauges(Gauges(gauges, replies[..k], names), replies[k], names)
    ensures Pauses(replies[..k + 1], interval) ==
      Pauses(replies[..k], interval) + (if CycleSucceeds(replies[k]) && interval >= 0 then [interval as nat] else [])
  {
    assert replies[..k + 1][..k] == replies[..k];
  }

  /** The positions of the unacked entries whose destination is `q`. */
  function Hits(entries: seq<Entry>, q: string): set<int> {
    set i | 0 <= i < |entries| && Destination(entries[i]) == Some(q)
  }

  /** The running count agrees with counting the matching positions directly. */
  lemma {:induction false} OccurrencesAreHits(entries: seq<Entry>, q: string)
    ensures Occurrences(entries, q) == |Hits(entries, q)|
    decreases |entries|
  {
    if entries == [] {
      assert Hits(entries, q) == {};
    } else {
      var n := |entries| - 1;
      var front := entries[..n];
      OccurrencesAreHits(front, q);
      var extra := if Destination(entries[n]) == Some(q) then {n} else {};
      assert Hits(entries, q) == Hits(front, q) + extra by {
        forall i | 0 <= i < n ensures front[i] == entries[i] { }
      }
      assert n !in Hits(front, q);
    }
  }

  /**
   * The last cycle of a run that published decides the gauge of every queue
   * it counted; the failed cycles after it change nothing.
   */
  lemma {:induction false} GaugesLastPublished(gauges: map<string, int>, replies: seq<Reply>, names: seq<string>, k: nat)
    requires k < |replies| && CycleSucceeds(replies[k])
    requires forall j :: k < j < |replies| ==> !CycleSucceeds(replies[j])
    ensures var lengths := QueueLengths(replies[k].pending, names, replies[k].unacked);
      forall q :: q in lengths ==> q in Gauges(gauges, replies, names) && Gauges(gauges, replies, names)[q] == lengths[q]
    decreases |replies|
  {
    var front := replies[..|replies| - 1];
    if k < |replies| - 1 {
      assert front[k] == replies[k];
      assert forall j :: k < j < |front| ==> front[j] == replies[j];
      GaugesLastPublished(gauges, front, names, k);
    }
  }

  /** Counting distributes over concatenation of the entry lists. */
  lemma {:induction false} OccurrencesAppend(xs: seq<Entry>, ys: seq<Entry>, q: string)
    ensures Occurrences(xs + ys, q) == Occurrences(xs, q) + Occurrences(ys, q)
    decreases |ys|
  {
    if ys == [] {
      assert xs + ys == xs;
    } else {
      assert (xs + ys)[..|xs + ys| - 1] == xs + ys[..|ys| - 1];
      OccurrencesAppend(xs, ys[..|ys| - 1], q);
    }
  }

  /** The per-queue count of the unacked entries alone. */
  function Tally(entries: seq<Entry>): map<string, int> {
    map q | q in Destinations(entries) :: Occurrences(entries, q)
  }

  /** Before any pair is added, the counter is the tally of the entries. */
  lemma TallyIsCounted(pending: seq<nat>, names: seq<string>, entries: seq<Entry>)
    ensures Tally(entries) == CountedUpTo(pending, names, entries, 0)
  {
    assert NamesUpTo(names, 0) == {};
  }

  /** `m` restricted to the keys `ks`. */
  function Restrict(m: map<string, int>, ks: set<string>): map<string, int>
    requires ks <= m.Keys
  {
    map q | q in ks :: m[q]
  }

  /** Entries named `q` in a one-longer prefix. */
  lemma OccurrencesSnoc(entries: seq<Entry>, i: nat, q: string)
    requires i < |entries|
    ensures Occurrences(entries[..i + 1], q) ==
      Occurrences(entries[..i], q) + (if Destination(entries[i]) == Some(q) then 1 else 0)
  {
    assert entries[..i + 1][..i] == entries[..i];
  }

  /** `lengths[queue] += 1` for the entry after a well-formed prefix. */
  lemma TallySnoc(entries: seq<Entry>, i: nat)
    requires i < |entries| && !Malformed(entries[i])
    ensures var q := Destination(entries[i]).value;
      Tally(entries[..i + 1]) == Tally(entries[..i])[q := (if q in Tally(entries[..i]) then Tally(entries[..i])[q] else 0) + 1]
  {
    var q := Destination(entries[i]).value;
    assert entries[..i + 1] == entries[..i] + [entries[i]];
    assert Destinations(entries[..i + 1]) == Destinations(entries[..i]) + {q};
    forall q' ensures Occurrences(entries[..i + 1], q') == Occurrences(entries[..i], q') + (if q' == q then 1 else 0) {
      OccurrencesSnoc(entries, i, q');
    }
    forall q' | q' in Destinations(entries[..i]) && q' != q
      ensures Occurrences(entries[..i], q') == Occurrences(entries[..i + 1], q')
    {
    }
    if q !in Destinations(entries[..i]) {
      OccurrencesAbsent(entries[..i], q);
    }
  }

  /** A queue no entry names has no occurrences. */
  lemma {:induction false} OccurrencesAbsent(entries: seq<Entry>, q: string)
    requires q !in Destinations(entries)
    ensures Occurrences(entries, q) == 0
    decreases |entries|
  {
    if entries != [] {
      var init := entries[..|entries| - 1];
      assert Destinations(init) <= Destinations(entries) by {
        forall e | e in init ensures e in entries { }
      }
      OccurrencesAbsent(init, q);
      assert entries[|entries| - 1] in entries;
    }
  }

  /** `lengths[name] += llen` for pair `j`. */
  lemma CountedSnoc(pending: seq<nat>, names: seq<string>, entries: seq<Entry>, j: nat)
    requires j < |pending| && j < |names|
    ensures var c := CountedUpTo(pending, names, entries, j); var q := names[j];
      CountedUpTo(pending, names, entries, j + 1) == c[q := (if q in c then c[q] else 0) + pending[j]]
  {
    var q := names[j];
    var c := CountedUpTo(pending, names, entries, j);
    assert NamesUpTo(names, j + 1) == NamesUpTo(names, j) + {q};
    if q !in c {
      OccurrencesAbsent(entries, q);
      PendingAbsent(pending, names, j, q);
    }
  }

  /** A queue not among the first `n` pairs has no pending length there. */
  lemma {:induction false} PendingAbsent(pending: seq<nat>, names: seq<string>, n: nat, q: string)
    requires n <= |pending| && n <= |names|
    requires q !in NamesUpTo(names, n)
    ensures PendingUpTo(pending, names, n, q) == 0
  {
    if n > 0 {
      assert names[n - 1] in NamesUpTo(names, n);
      assert NamesUpTo(names, n - 1) <= NamesUpTo(names, n);
      PendingAbsent(pending, names, n - 1, q);
    }
  }

  /** One more gauge set in the publishing loop. */
  lemma PublishOne(g: map<string, int>, m: map<string, int>, done: set<string>, q: string)
    requires done <= m.Keys && q in m
    ensures (g + Restrict(m, done))[q := m[q]] == g + Restrict(m, done + {q})
  {
  }

  /**
   * The `lengths` Counter of one cycle, built as `run` builds it: one
   * increment per unacked entry, then `lengths[name] += llen` per pair.
   * None when an entry does not parse (the cycle raises).
   */
  method CountLengths(pending: seq<nat>, names: seq<string>, entries: seq<Entry>) returns (r: Option<map<string, int>>)
    ensures r.None? <==> AnyMalformed(entries)
    ensures r.Some? ==> r.value == QueueLengths(pending, names, entries)
  {
    var lengths: map<string, int> := map[];
    var i := 0;
    while i < |entries|
      invariant 0 <= i <= |entries|
      invariant forall k :: 0 <= k < i ==> !Malformed(entries[k])
      invariant lengths == Tally(entries[..i])
    {
      var queue := Destination(entries[i]);
      if queue.None? {
        return None;
      }
      var q := queue.value;
      TallySnoc(entries, i);
      lengths := lengths[q := (if q in lengths then lengths[q] else 0) + 1];
      i := i + 1;
    }
    assert entries[..i] == entries;
    TallyIsCounted(pending, names, entries);
    var n := Paired(pending, names);
    var j := 0;
    while j < n
      invariant 0 <= j <= n
      invariant lengths == CountedUpTo(pending, names, entries, j)
    {
      var q := names[j];
      CountedSnoc(pending, names, entries, j);
      lengths := lengths[q := (if q in lengths then lengths[q] else 0) + pending[j]];
      j := j + 1;
    }
    return Some(lengths);
  }

  class QueueLengthMonitor {
    /** `STATS`, shared with the event receiver */
    const registry: Registry
    /** seconds slept after a cycle that published */
    const interval: int
    /** the names of `app.conf['task_queues']`, in order */
    const names: seq<string>
    var running: bool

    constructor (registry: Registry, interval: int, names: seq<string>)
      ensures this.registry == registry && this.interval == interval && this.names == names
      ensures running
    {
      this.registry := registry;
      this.interval := interval;
      this.names := names;
      running := true;
    }

    /** `stop()`: the loop leaves at its next check of `running`. */
    method Stop()
      modifies this`running
      ensures !running
    {
      running := false;
    }

    /**
     * One pass of the loop body inside its `try`: count, publish, sleep.
     * Returns the sleep performed, None when the body raised (before
     * publishing, or in `time.sleep` for a negative interval after it).
     */
    method Cycle(reply: Reply) returns (pause: Option<nat>)
      modifies registry
      ensures registry.View() == old(registry.View()).(queues := CycleGauges(old(registry.queues), reply, names))
      ensures pause == if CycleSucceeds(reply) && interval >= 0 then Some(interval as nat) else None
    {
      if reply.ConnectionError? {
        return None;
      }
      var counted := CountLengths(reply.pending, names, reply.unacked);
      if counted.None? {
        return None;
      }
      var lengths := counted.value;
      var todo := lengths.Keys;
      while todo != {}
        invariant todo <= lengths.Keys
        invariant registry.tasks == old(registry.tasks)
        invariant registry.queuetime == old(registry.queuetime) && registry.runtime == old(registry.runtime)
        invariant registry.queues == old(registry.queues) + Restrict(lengths, lengths.Keys - todo)
        decreases todo
      {
        var q :| q in todo;
        PublishOne(old(registry.queues), lengths, lengths.Keys - todo, q);
        registry.SetQueueLength(q, lengths[q]);
        assert lengths.Keys - (todo - {q}) == (lengths.Keys - todo) + {q};
        todo := todo - {q};
      }
      assert lengths.Keys - todo == lengths.Keys;
      assert Restrict(lengths, lengths.Keys) == lengths;
      if interval < 0 {
        return None;
      }
      return Some(interval as nat);
    }

    /**
     * `run`: cycles while `running`. The replies are what the pipeline
     * returns cycle by cycle; `stop()` is called from the main thread while
     * cycle `stopAt` is in progress.
     */
    method Run(replies: seq<Reply>, stopAt: nat) returns (cycles: nat, pauses: seq<nat>)
      modifies this`running, registry
      ensures cycles == if !old(running) then 0 else if stopAt < |replies| then stopAt + 1 else |replies|
      ensures registry.View() == old(registry.View()).(queues := Gauges(old(registry.queues), replies[..cycles], names))
      ensures pauses == Pauses(replies[..cycles], interval)
      ensures running == (old(running) && |replies| <= stopAt)
    {
      cycles, pauses := 0, [];
      while running && cycles < |replies|
        invariant cycles <= |replies|
        invariant !old(running) ==> cycles == 0 && !running
        invariant old(running) ==> (running <==> cycles <= stopAt) && cycles <= stopAt + 1
        invariant registry.View() == old(registry.View()).(queues := Gauges(old(registry.queues), replies[..cycles], names))
        invariant pauses == Pauses(replies[..cycles], interval)
        decreases |replies| - cycles
      {
        RunSnoc(old(registry.queues), replies, cycles, names, interval);
        ghost var before := registry.View();
        var pause := Cycle(replies[cycles]);
        assert registry.View() == before.(queues := CycleGauges(before.queues, replies[cycles], names));
        if pause.Some? {
          pauses := pauses + [pause.value];
        }
        if cycles == stopAt {
          Stop();
        }
        cycles := cycles + 1;
      }
    }
  }
}
