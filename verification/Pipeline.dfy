/** The whole event pipeline: any number of producer processes with their local
    overflow batches, the queue lock, the single consumer with its exporter, the
    shared counters and the administrator who resets them.

    The ring and the text store below it are the ones of modules Ring and
    TextStore. One step is one atomic access, one lock operation, or one step of
    TryEnqueueLocked or PschDequeueEvent.

    `seen` and `seenTail`, `tally`, all of `out` but its stage, and `base` are
    auxiliary: no other field is computed from them. */
module Pipeline {
  import opened Events
  import opened RingArithmetic
  import opened TextStore
  import opened Ring

  /** What a producer is enqueueing: one event, or a flushed batch after which
      `pending` still has to be stored in the local batch. */
  datatype Job = One(ev: Event) | Many(evs: seq<Event>, pending: Option<Event>)

  /** Program points of PschEnqueueEvent, PschEnqueueBatch, PschLocalBatchAdd
      and PschLocalBatchFlush. FastFlag and LockedFlag: a drop is counted
      and HandleOverflow is about to set the overflow flag, with a warning if it
      is the first to do so. */
  datatype Point =
    | Rest
    | FastHead(job: Job)
    | FastTail(job: Job, h: nat, seen: nat, seenTail: nat)
    | FastDrop(todo: seq<Event>, pending: Option<Event>)
    | FastFlag(todo: seq<Event>, pending: Option<Event>)
    | TryLock(ev: Event)
    | WaitLock(todo: seq<Event>, pending: Option<Event>)
    | Holding(w: Writer, todo: seq<Event>, pending: Option<Event>)
    | LockedFlag(todo: seq<Event>, pending: Option<Event>)
    | Unlock(pending: Option<Event>)
    | Contended(ev: Event)
    | Flush(pending: Option<Event>)
    | StoreLocal(ev: Event)

  /** A backend: its local batch, where it is, and whether its local batch is
      initialised. */
  datatype Producer = Producer(batch: seq<Event>, at: Point, ready: bool)

  /** The queue lock. `Elsewhere`: held by the administrator, by a reader of the
      statistics or by the exporter while it records its status. */
  datatype Lock = Free | HeldBy(i: nat) | Elsewhere

  /** The exporter: dequeueing a batch that starts at position `first`, or
      sending it, the rows before `next` having been handed to the backend. */
  datatype Exporter = Draining(first: nat) | Sending(first: nat, next: nat, ok: nat, failed: bool)

  /** The shared 64-bit counters. */
  datatype Counters = Counters(enqueued: nat, dropped: nat, exported: nat)

  /** What has happened to events: those offered while capture was enabled, and
      those that ended otherwise than in the queue. Discarded: flushed while
      capture was disabled. Lost: abandoned by an error, in the overflow warning
      or in the initialisation of the local batch. */
  datatype Tally = Tally(offered: seq<Event>, dropped: seq<Event>, discarded: seq<Event>, lost: seq<Event>)

  /** The exporter, the positions it has handed to the backend, the rows whose
      send succeeded and the rows it has counted. */
  datatype Out = Out(stage: Exporter, handed: seq<nat>, sentOk: nat, total: nat)

  datatype State = State(
    k: Core,
    lock: Lock,
    procs: seq<Producer>,
    reader: Reader,
    out: Out,
    enabled: bool,
    overflowLogged: bool,
    counters: Counters,
    tally: Tally,
    base: Counters)

  function Todo(job: Job): seq<Event>
  {
    match job
    case One(ev) => [ev]
    case Many(evs, _) => evs
  }

  function PendingOf(job: Job): Option<Event>
  {
    match job
    case One(_) => None
    case Many(_, pending) => pending
  }

  /** PschEnqueueBatch returns: a pending event is still to be stored. */
  function Done(pending: Option<Event>): Point
  {
    if pending.Some? then StoreLocal(pending.value) else Rest
  }

  /** The next event of the locked loop, or its end. */
  function NextLocked(todo: seq<Event>, pending: Option<Event>): Point
  {
    if todo == [] then Unlock(pending) else Holding(WHead(todo[0]), todo[1..], pending)
  }

  function Put(s: State, i: nat, batch: seq<Event>, at: Point): State
    requires i < |s.procs|
  {
    s.(procs := s.procs[i := Producer(batch, at, s.procs[i].ready)])
  }

  /** HandleOverflow for one event, up to the overflow flag. */
  function CountDrop(s: State, ev: Event): State
  {
    s.(counters := s.counters.(dropped := (s.counters.dropped + 1) % U64),
       tally := s.tally.(dropped := s.tally.dropped + [ev]))
  }

  // ------------------------------------------------------------------
  // Producers
  // ------------------------------------------------------------------

  /** PschLocalBatchAdd once the batch is initialised: a full batch is flushed
      first. */
  function AfterInit(batch: seq<Event>, ev: Event): Point
  {
    if |batch| >= BATCH_CAPACITY then Flush(Some(ev)) else StoreLocal(ev)
  }

  /** A step of producer i outside TryEnqueueLocked. */
  predicate OutsideStep(rc: RingConfig, s: State, s': State, i: nat)
    requires i < |s.procs|
  {
    var b := s.procs[i].batch;
    var allowed :=
      match s.procs[i].at
      case FastHead(job) =>
        s' == Put(s, i, b, FastTail(job, s.k.head, |s.k.published|, |s.k.delivered|))
      case FastTail(job, h, _, _) =>
        s' == Put(s, i, b, if LooksFull(rc, h, s.k.tail) then FastDrop(Todo(job), PendingOf(job))
                           else if job.One? then TryLock(job.ev)
                           else WaitLock(job.evs, job.pending))
      case FastDrop(todo, pending) =>
        if todo == [] then s' == Put(s, i, b, Done(pending))
        else s' == CountDrop(Put(s, i, b, FastFlag(todo[1..], pending)), todo[0])
      case TryLock(ev) =>
        if s.lock.Free? then s' == Put(s, i, b, Holding(WHead(ev), [], None)).(lock := HeldBy(i))
        else s' == Put(s, i, b, Contended(ev))
      case WaitLock(todo, pending) =>
        s.lock.Free? && s' == Put(s, i, b, NextLocked(todo, pending)).(lock := HeldBy(i))
      case Unlock(pending) =>
        s' == Put(s, i, b, Done(pending)).(lock := Free)
      case Contended(ev) =>
        s' == s.(procs := s.procs[i := Producer(b, AfterInit(b, ev), true)])
      case Flush(pending) =>
        if s.enabled then s' == Put(s, i, [], FastHead(Many(b, pending)))
        else s' == Put(s, i, [], Done(pending)).(tally := s.tally.(discarded := s.tally.discarded + b))
      case StoreLocal(ev) =>
        s' == Put(s, i, b + [ev], Rest)
      case _ => false;
    allowed
  }

  /** A step of producer i inside TryEnqueueLocked. */
  ghost predicate LockedStep(rc: RingConfig, s: State, s': State, i: nat, p: Ptr, force: bool)
    requires i < |s.procs| && s.procs[i].at.Holding?
  {
    var b, todo, pending := s.procs[i].batch, s.procs[i].at.todo, s.procs[i].at.pending;
    var allowed :=
      match s.procs[i].at.w
      case WOverflow(ev) => s' == CountDrop(Put(s, i, b, LockedFlag(todo, pending)), ev)
      case WCount(_) =>
        s' == Put(s, i, b, NextLocked(todo, pending)).(
          counters := s.counters.(enqueued := (s.counters.enqueued + 1) % U64))
      case w =>
        && |s'.procs| == |s.procs| && s'.procs[i].at.Holding?
        && s' == Put(s, i, b, Holding(s'.procs[i].at.w, todo, pending)).(k := s'.k)
        && WriterStep(rc, s.k, s'.k, i, w, s'.procs[i].at.w, p, force);
    allowed
  }

  /** A drop is counted and the overflow flag comes next. */
  predicate Flagging(at: Point)
  {
    at.FastFlag? || at.LockedFlag?
  }

  function AfterFlag(at: Point): Point
    requires Flagging(at)
  {
    if at.FastFlag? then FastDrop(at.todo, at.pending) else NextLocked(at.todo, at.pending)
  }

  /** The flag is set, any warning is out, and the loop goes on. */
  function Flagged(s: State, i: nat): State
    requires i < |s.procs| && Flagging(s.procs[i].at)
  {
    Put(s, i, s.procs[i].batch, AfterFlag(s.procs[i].at)).(overflowLogged := true)
  }

  /** The events a producer has yet to deal with after a counted drop. */
  function Remaining(at: Point): seq<Event>
    requires Flagging(at)
  {
    at.todo + if at.pending.Some? then [at.pending.value] else []
  }

  /** The flag is set and its warning throws: the call is abandoned. Inside the
      lock PG_FINALLY still releases it; the rest of the batch and the pending
      event are gone. */
  function Abandoned(s: State, i: nat): State
    requires i < |s.procs| && Flagging(s.procs[i].at)
  {
    Put(s, i, s.procs[i].batch, if s.procs[i].at.FastFlag? then Rest else Unlock(None)).(
      overflowLogged := true, tally := s.tally.(lost := s.tally.lost + Remaining(s.procs[i].at)))
  }

  /** PschLocalBatchInit throws: the contended event is gone. */
  function Uninitialised(s: State, i: nat): State
    requires i < |s.procs| && s.procs[i].at.Contended?
  {
    Put(s, i, s.procs[i].batch, Rest).(tally := s.tally.(lost := s.tally.lost + [s.procs[i].at.ev]))
  }

  // ------------------------------------------------------------------
  // The consumer, the administrator and the system
  // ------------------------------------------------------------------

  datatype Act =
    | Offer(i: nat, ev: Event)
    | TransactionEnd(i: nat)
    | Produce(i: nat)
    | Enqueue(i: nat, p: Ptr, force: bool)
    | Flag(i: nat)
    | Throw(i: nat)
    | InitFails(i: nat)
    | Dequeue(p: Ptr, slot: Slot)
    | EndDrain
    | Send(n: nat, ok: bool)
    | Commit
    | Abandon
    | Toggle(on: bool)
    | LockElsewhere
    | UnlockElsewhere
    | ResetEnqueued
    | ResetDropped
    | ResetExported
    | ResetFlag

  function Range(a: nat, n: nat): (r: seq<nat>)
    ensures |r| == n && forall j | 0 <= j < n :: r[j] == a + j
  {
    seq(n, j requires 0 <= j < n => a + j)
  }

  /** n more rows are handed to the backend, which takes them or not. */
  function Sent(out: Out, n: nat, ok: bool): Out
    requires out.stage.Sending?
  {
    var taken := if ok then n else 0;
    Out(out.stage.(next := out.stage.next + n, failed := !ok, ok := out.stage.ok + taken),
        out.handed + Range(out.stage.next, n), out.sentOk + taken, out.total)
  }

  /** The rows taken are counted, and the exporter dequeues again. */
  function Committed(s: State): State
    requires s.out.stage.Sending?
  {
    s.(out := s.out.(stage := Draining(|s.k.delivered|), total := s.out.total + s.out.stage.ok),
       counters := s.counters.(exported := (s.counters.exported + s.out.stage.ok) % U64))
  }

  function GivenUp(s: State): State
  {
    s.(out := s.out.(stage := Draining(|s.k.delivered|)))
  }

  /** Events counted as enqueued so far: all those published, but for one whose
      counter its producer has not yet bumped. */
  function EnqueueTotal(s: State): int
  {
    |s.k.published| - (if Uncounted(s) then 1 else 0)
  }

  predicate Uncounted(s: State)
  {
    && s.lock.HeldBy? && s.lock.i < |s.procs| && s.procs[s.lock.i].at.Holding?
    && s.procs[s.lock.i].at.w.WCount?
  }

  ghost predicate Next(rc: RingConfig, s: State, s': State, act: Act)
  {
    var allowed :=
      match act
      case Offer(i, ev) =>
        && i < |s.procs| && s.procs[i].at.Rest? && s.enabled
        && s' == Put(s, i, s.procs[i].batch, FastHead(One(ev))).(tally := s.tally.(offered := s.tally.offered + [ev]))
      case TransactionEnd(i) =>
        i < |s.procs| && s.procs[i].at.Rest? && s.procs[i].batch != [] && s' == Put(s, i, s.procs[i].batch, Flush(None))
      case Produce(i) => i < |s.procs| && OutsideStep(rc, s, s', i)
      case Enqueue(i, p, force) => i < |s.procs| && s.procs[i].at.Holding? && LockedStep(rc, s, s', i, p, force)
      case Flag(i) => i < |s.procs| && Flagging(s.procs[i].at) && s' == Flagged(s, i)
      case Throw(i) => i < |s.procs| && Flagging(s.procs[i].at) && !s.overflowLogged && s' == Abandoned(s, i)
      case InitFails(i) => i < |s.procs| && s.procs[i].at.Contended? && !s.procs[i].ready && s' == Uninitialised(s, i)
      case Dequeue(p, slot) =>
        && s.out.stage.Draining? && s' == s.(k := s'.k, reader := s'.reader)
        && ReaderStep(rc, s.k, s'.k, s.reader, s'.reader, p, slot)
      case EndDrain =>
        && s.out.stage.Draining? && s.reader.RIdle?
        && s' == s.(out := s.out.(stage := Sending(s.out.stage.first, s.out.stage.first, 0, false)))
      case Send(n, ok) =>
        && s.out.stage.Sending? && !s.out.stage.failed && s.out.stage.next + n <= |s.k.delivered|
        && s' == s.(out := Sent(s.out, n, ok))
      case Commit =>
        s.out.stage.Sending? && !s.out.stage.failed && s' == Committed(s)
      case Abandon => s.out.stage.Sending? && s' == GivenUp(s)
      case Toggle(on) => s' == s.(enabled := on)
      case LockElsewhere => s.lock.Free? && s' == s.(lock := Elsewhere)
      case UnlockElsewhere => s.lock.Elsewhere? && s' == s.(lock := Free)
      case ResetEnqueued =>
        s.lock.Elsewhere? && s' == s.(counters := s.counters.(enqueued := 0), base := s.base.(enqueued := |s.k.published|))
      case ResetDropped =>
        s.lock.Elsewhere? && s' == s.(counters := s.counters.(dropped := 0), base := s.base.(dropped := |s.tally.dropped|))
      case ResetExported =>
        s.lock.Elsewhere? && s' == s.(counters := s.counters.(exported := 0), base := s.base.(exported := s.out.total))
      case ResetFlag => s.lock.Elsewhere? && s' == s.(overflowLogged := false);
    allowed
  }

  ghost predicate Init(rc: RingConfig, s: State)
  {
    && Ring.Init(rc, s.k) && ConfigOk(rc)
    && rc.reader == |s.procs| && |s.k.store.clients| == |s.procs| + 1
    && s.lock == Free && s.reader == RIdle && !s.overflowLogged
    && (forall i | 0 <= i < |s.procs| :: s.procs[i] == Producer([], Rest, false))
    && s.counters == Counters(0, 0, 0) && s.base == Counters(0, 0, 0)
    && s.tally == Tally([], [], [], []) && s.out == Out(Draining(0), [], 0, 0)
  }

  ghost predicate Follows(rc: RingConfig, s: State, s': State)
  {
    exists act: Act :: Next(rc, s, s', act)
  }

  /** A run of the pipeline: any interleaving of any number of processes. */
  ghost predicate IsRun(rc: RingConfig, run: seq<State>)
  {
    && |run| > 0 && Init(rc, run[0])
    && forall i :: 0 <= i < |run| - 1 ==> Follows(rc, run[i], run[i + 1])
  }

  /** A run together with its acts. */
  ghost predicate IsRunBy(rc: RingConfig, run: seq<State>, acts: seq<Act>)
  {
    && |run| == |acts| + 1 && Init(rc, run[0])
    && forall i :: 0 <= i < |acts| ==> Next(rc, run[i], run[i + 1], acts[i])
  }
}
