/**
 * The per-task correlation state (Celery's `State`, abstracted): a map from
 * task uuid to the fields the handlers read. Every event is merged into the
 * record of its uuid; a field is overwritten only when the event carries it.
 */
module Tracker {
  import opened Wrappers

  datatype TaskRecord = TaskRecord(
    routingKey: Option<string>,
    sent: Option<int>,
    runtime: Option<int>)

  /** One delivered event: its type name, its task's uuid, the fields it carries. */
  datatype Event = Event(
    eventType: string,
    uuid: string,
    routingKey: Option<string>,
    sent: Option<int>,
    runtime: Option<int>,
    exception: Option<string>)

  const Blank: TaskRecord := TaskRecord(None, None, None)

  /** A field after an update: the event's value if it carries one, else the old one. */
  function Override<T>(current: Option<T>, update: Option<T>): (r: Option<T>)
    ensures update.Some? ==> r == update
    ensures update.None? ==> r == current
  {
    if update.Some? then update else current
  }

  /** The record of a task after `e`: supplied fields replace, absent ones persist. */
  function Merge(rec: TaskRecord, e: Event): (r: TaskRecord)
    ensures e.routingKey.Some? ==> r.routingKey == e.routingKey
    ensures e.routingKey.None? ==> r.routingKey == rec.routingKey
    ensures e.sent.Some? ==> r.sent == e.sent
    ensures e.sent.None? ==> r.sent == rec.sent
    ensures e.runtime.Some? ==> r.runtime == e.runtime
    ensures e.runtime.None? ==> r.runtime == rec.runtime
  {
    TaskRecord(
      Override(rec.routingKey, e.routingKey),
      Override(rec.sent, e.sent),
      Override(rec.runtime, e.runtime))
  }

  /** Of two events, the later one that carries a field decides it. */
  lemma MergeLaterWins(rec: TaskRecord, e1: Event, e2: Event)
    ensures e2.routingKey.Some? ==> Merge(Merge(rec, e1), e2).routingKey == e2.routingKey
    ensures e2.sent.Some? ==> Merge(Merge(rec, e1), e2).sent == e2.sent
    ensures e2.runtime.Some? ==> Merge(Merge(rec, e1), e2).runtime == e2.runtime
    ensures e2.routingKey.None? ==> Merge(Merge(rec, e1), e2).routingKey == Merge(rec, e1).routingKey
    ensures e2.sent.None? ==> Merge(Merge(rec, e1), e2).sent == Merge(rec, e1).sent
    ensures e2.runtime.None? ==> Merge(Merge(rec, e1), e2).runtime == Merge(rec, e1).runtime
  {
  }

  /** An event that carries none of the fields leaves the record as it was. */
  lemma MergeCarryingNothing(rec: TaskRecord, e: Event)
    requires e.routingKey.None? && e.sent.None? && e.runtime.None?
    ensures Merge(rec, e) == rec
  {
  }

  /** `state.tasks.get(uuid)` */
  function Get(tasks: map<string, TaskRecord>, uuid: string): Option<TaskRecord> {
    if uuid in tasks then Some(tasks[uuid]) else None
  }

  /** `state.event(e)`: create the record lazily, then merge the event into it. */
  function Track(tasks: map<string, TaskRecord>, e: Event): (r: map<string, TaskRecord>)
    ensures Get(r, e.uuid) == Some(Merge(Get(tasks, e.uuid).GetOr(Blank), e))
    ensures r.Keys == tasks.Keys + {e.uuid}
    ensures forall id :: id in tasks && id != e.uuid ==> r[id] == tasks[id]
  {
    tasks[e.uuid := Merge(Get(tasks, e.uuid).GetOr(Blank), e)]
  }

  /** Merging is idempotent: a redelivered event changes nothing further. */
  lemma TrackIdempotent(tasks: map<string, TaskRecord>, e: Event)
    ensures Track(Track(tasks, e), e) == Track(tasks, e)
  {
  }

  /**
   * A field once known is never lost: it stays present after any event, and
   * keeps its value unless the event is for that task and carries the field.
   */
  lemma TrackKeepsKnownFields(tasks: map<string, TaskRecord>, e: Event, id: string)
    requires id in tasks
    ensures id in Track(tasks, e)
    ensures tasks[id].routingKey.Some? ==> Track(tasks, e)[id].routingKey.Some?
    ensures tasks[id].sent.Some? ==> Track(tasks, e)[id].sent.Some?
    ensures tasks[id].runtime.Some? ==> Track(tasks, e)[id].runtime.Some?
    ensures (id != e.uuid || e.routingKey.None?) ==> Track(tasks, e)[id].routingKey == tasks[id].routingKey
    ensures (id != e.uuid || e.sent.None?) ==> Track(tasks, e)[id].sent == tasks[id].sent
    ensures (id != e.uuid || e.runtime.None?) ==> Track(tasks, e)[id].runtime == tasks[id].runtime
  {
  }
}
