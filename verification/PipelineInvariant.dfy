/** Invariant of the pipeline. */
module PipelineInvariant {
  import opened Events
  import opened RingArithmetic
  import opened Ring
  import opened RingInvariant
  import opened Pipeline

  // ------------------------------------------------------------------
  // The pipeline seen as a ring with one writer and one reader
  // ------------------------------------------------------------------

  /** The lock holder inside TryEnqueueLocked is the ring's writer. */
  function WriterOf(s: State): Option<Busy>
  {
    if s.lock.HeldBy? && s.lock.i < |s.procs| && s.procs[s.lock.i].at.Holding? then
      Some(Busy(s.lock.i, s.procs[s.lock.i].at.w))
    else None
  }

  function ViewOf(s: State): View
  {
    View(s.k, WriterOf(s), s.reader)
  }

  // ------------------------------------------------------------------
  // Who holds which event
  // ------------------------------------------------------------------

  function Maybe(o: Option<Event>): seq<Event>
  {
    if o.Some? then [o.value] else []
  }

  /** The event is still the producer's: not published yet. */
  function Unpublished(w: Writer): seq<Event>
  {
    if w.WCount? then [] else [w.ev]
  }

  /** The events a producer is working on. */
  function InProgress(at: Point): seq<Event>
  {
    match at
    case FastHead(job) => Todo(job) + Maybe(PendingOf(job))
    case FastTail(job, _, _, _) => Todo(job) + Maybe(PendingOf(job))
    case FastDrop(todo, pending) => todo + Maybe(pending)
    case FastFlag(todo, pending) => todo + Maybe(pending)
    case TryLock(ev) => [ev]
    case WaitLock(todo, pending) => todo + Maybe(pending)
    case Holding(w, todo, pending) => Unpublished(w) + (todo + Maybe(pending))
    case LockedFlag(todo, pending) => todo + Maybe(pending)
    case Unlock(pending) => Maybe(pending)
    case Contended(ev) => [ev]
    case Flush(pending) => Maybe(pending)
    case StoreLocal(ev) => [ev]
    case Rest => []
  }

  /** How many of the events are of the kind q. */
  function Count(evs: seq<Event>, q: Event -> bool): nat
  {
    if evs == [] then 0 else (if q(evs[0]) then 1 else 0) + Count(evs[1..], q)
  }

  function CountPublished(records: seq<Record>, q: Event -> bool): nat
  {
    if records == [] then 0
    else CountPublished(records[..|records| - 1], q) + (if q(records[|records| - 1].ev) then 1 else 0)
  }

  /** The events in local batches. */
  function CountBatched(procs: seq<Producer>, q: Event -> bool): nat
  {
    if procs == [] then 0 else Count(procs[0].batch, q) + CountBatched(procs[1..], q)
  }

  /** The events producers are working on. */
  function CountWorking(procs: seq<Producer>, q: Event -> bool): nat
  {
    if procs == [] then 0 else Count(InProgress(procs[0].at), q) + CountWorking(procs[1..], q)
  }

  /** Every event offered is in exactly one place. */
  ghost predicate Balanced(s: State, q: Event -> bool)
  {
    Count(s.tally.offered, q) ==
      CountPublished(s.k.published, q) + Count(s.tally.dropped, q) + Count(s.tally.discarded, q) +
      Count(s.tally.lost, q) + CountBatched(s.procs, q) + CountWorking(s.procs, q)
  }

  // ------------------------------------------------------------------
  // Producers
  // ------------------------------------------------------------------

  /** A pending event finds the local batch empty. */
  predicate PendingOk(pending: Option<Event>, batch: seq<Event>)
  {
    pending.Some? ==> batch == []
  }

  predicate JobOk(job: Job, batch: seq<Event>)
  {
    job.Many? ==> job.evs != [] && PendingOk(job.pending, batch)
  }

  predicate ProducerOk(rc: RingConfig, k: Core, p: Producer)
  {
    && |p.batch| <= BATCH_CAPACITY
    && match p.at
       case FastHead(job) => JobOk(job, p.batch)
       case FastTail(job, h, seen, seenTail) =>
         && JobOk(job, p.batch) && h == seen % U64
         && seen <= |k.published| && seenTail <= |k.delivered| && seenTail <= seen <= seenTail + rc.capacity
       case FastDrop(_, pending) => PendingOk(pending, p.batch)
       case FastFlag(_, pending) => PendingOk(pending, p.batch)
       case WaitLock(todo, pending) => todo != [] && PendingOk(pending, p.batch)
       case Holding(_, _, pending) => PendingOk(pending, p.batch)
       case LockedFlag(_, pending) => PendingOk(pending, p.batch)
       case Unlock(pending) => PendingOk(pending, p.batch)
       case Flush(_) => p.batch != []
       case StoreLocal(_) => |p.batch| < BATCH_CAPACITY
       case _ => true
  }

  /** The producer holds the queue lock. */
  predicate Inside(at: Point)
  {
    at.Holding? || at.LockedFlag? || at.Unlock?
  }

  // ------------------------------------------------------------------
  // The exporter
  // ------------------------------------------------------------------

  /** The first position not handed to the backend yet. */
  function HandedTo(e: Exporter): nat
  {
    if e.Draining? then e.first else e.next
  }

  /** `out` after `tail` events were dequeued, `idle` if no dequeue is under way. */
  predicate ExporterOk(out: Out, tail: nat, idle: bool)
  {
    var e := out.stage;
    && HandedTo(e) <= tail && (e.Sending? ==> idle)
    && out.total + (if e.Sending? then e.ok else 0) <= out.sentOk <= |out.handed| <= HandedTo(e)
    && (forall j | 0 <= j < |out.handed| :: out.handed[j] < HandedTo(e))
    && (forall i, j | 0 <= i < j < |out.handed| :: out.handed[i] < out.handed[j])
  }

  // ------------------------------------------------------------------
  // The invariant, part by part
  // ------------------------------------------------------------------

  datatype Part = Sizes | RingPart | LockPart | Producers | Enqueues | Drops | Exports | Exporting

  ghost predicate Holds(rc: RingConfig, s: State, part: Part)
  {
    match part
    case Sizes => rc.reader == |s.procs| && |s.k.store.clients| == |s.procs| + 1
    case RingPart => RingInvariant.Inv(rc, ViewOf(s))
    case LockPart =>
      && (s.lock.HeldBy? ==> s.lock.i < |s.procs|)
      && (forall i | 0 <= i < |s.procs| :: s.lock == HeldBy(i) <==> Inside(s.procs[i].at))
    case Producers => forall i | 0 <= i < |s.procs| :: ProducerOk(rc, s.k, s.procs[i])
    case Enqueues =>
      s.base.enqueued <= EnqueueTotal(s) && s.counters.enqueued == (EnqueueTotal(s) - s.base.enqueued) % U64
    case Drops => s.base.dropped <= |s.tally.dropped| && s.counters.dropped == (|s.tally.dropped| - s.base.dropped) % U64
    case Exports => s.base.exported <= s.out.total && s.counters.exported == (s.out.total - s.base.exported) % U64
    case Exporting => ExporterOk(s.out, |s.k.delivered|, s.reader.RIdle?)
  }

  ghost predicate Inv(rc: RingConfig, s: State)
  {
    forall part: Part :: Holds(rc, s, part)
  }
}
