/** What holds in every state, and of every step, of every run of the pipeline. */
module PipelineTheorems {
  import opened Events
  import opened RingArithmetic
  import TextStore
  import StoreInv = TextStoreInvariant
  import StoreThms = TextStoreTheorems
  import opened Ring
  import opened RingInvariant
  import RingProofs
  import RingTheorems
  import opened Pipeline
  import PI = PipelineInvariant
  import opened PipelineProofs

  lemma {:induction false} RunInv(rc: RingConfig, run: seq<State>, n: nat)
    requires IsRun(rc, run) && n < |run|
    ensures PI.Inv(rc, run[n])
  {
    if n == 0 {
      InitInv(rc, run[0]);
    } else {
      RunInv(rc, run, n - 1);
      assert Follows(rc, run[n - 1], run[n - 1 + 1]);
      var act: Act :| Next(rc, run[n - 1], run[n], act);
      NextInv(rc, run[n - 1], run[n], act);
    }
  }

  // ------------------------------------------------------------------
  // Conservation of events
  // ------------------------------------------------------------------

  lemma FollowsBalance(rc: RingConfig, s: State, s': State, q: Event -> bool)
    requires Follows(rc, s, s') && PI.Balanced(s, q)
    ensures PI.Balanced(s', q)
  {
    var act: Act :| Next(rc, s, s', act);
    NextBalance(rc, s, s', act, q);
  }

  /** Of every kind of event, as many were offered as are published, dropped,
      discarded, lost, waiting in local batches or in a producer's hands. */
  lemma {:induction false} Conservation(rc: RingConfig, run: seq<State>, n: nat, q: Event -> bool)
    requires IsRun(rc, run) && n < |run|
    ensures PI.Balanced(run[n], q)
  {
    if n == 0 {
      InitBalance(rc, run[0], q);
    } else {
      Conservation(rc, run, n - 1, q);
      assert Follows(rc, run[n - 1], run[n - 1 + 1]);
      FollowsBalance(rc, run[n - 1], run[n], q);
    }
  }

  lemma {:induction false} CountAll(evs: seq<Event>)
    ensures PI.Count(evs, _ => true) == |evs|
  {
    if evs != [] { CountAll(evs[1..]); }
  }

  lemma {:induction false} CountAllPublished(records: seq<Record>)
    ensures PI.CountPublished(records, _ => true) == |records|
  {
    if records != [] { CountAllPublished(records[..|records| - 1]); }
  }

  /** Events in local batches, and events in progress: those in a producer's
      hands and the one that is published but not counted yet. */
  function Buffered(s: State): nat { PI.CountBatched(s.procs, _ => true) }
  function Underway(s: State): nat { PI.CountWorking(s.procs, _ => true) + if Uncounted(s) then 1 else 0 }

  /** Every event offered is accounted for. */
  lemma Accounting(rc: RingConfig, run: seq<State>, n: nat)
    requires IsRun(rc, run) && n < |run|
    ensures var s := run[n];
            |s.tally.offered| == EnqueueTotal(s) + |s.tally.dropped| + |s.tally.discarded| + |s.tally.lost| + Buffered(s) + Underway(s)
  {
    var s := run[n];
    Conservation(rc, run, n, _ => true);
    CountAll(s.tally.offered);
    CountAll(s.tally.dropped);
    CountAll(s.tally.discarded);
    CountAll(s.tally.lost);
    CountAllPublished(s.k.published);
  }

  /** The counters say what was enqueued, dropped and exported since the last
      reset, and head is the number of events enqueued except between a publish
      and its counter. `base` is what the last reset took away. */
  lemma CountersTell(rc: RingConfig, run: seq<State>, n: nat)
    requires IsRun(rc, run) && n < |run|
    ensures var s := run[n];
            && s.counters.enqueued == (EnqueueTotal(s) - s.base.enqueued) % U64
            && s.counters.dropped == (|s.tally.dropped| - s.base.dropped) % U64
            && s.counters.exported == (s.out.total - s.base.exported) % U64
    ensures var s := run[n];
            s.base.enqueued == 0 ==> s.k.head == (s.counters.enqueued + if Uncounted(s) then 1 else 0) % U64
  {
    var s := run[n];
    RunInv(rc, run, n);
    Get(rc, s, PI.Enqueues);
    Get(rc, s, PI.Drops);
    Get(rc, s, PI.Exports);
    RingPositions(rc, s);
    WrappedSum(EnqueueTotal(s), if Uncounted(s) then 1 else 0);
  }

  predicate IsReset(act: Act)
  {
    act.ResetEnqueued? || act.ResetDropped? || act.ResetExported?
  }

  ghost predicate FollowsWithoutReset(rc: RingConfig, s: State, s': State)
  {
    exists act: Act :: Next(rc, s, s', act) && !IsReset(act)
  }

  ghost predicate IsResetFree(rc: RingConfig, run: seq<State>)
  {
    forall i :: 0 <= i < |run| - 1 ==> FollowsWithoutReset(rc, run[i], run[i + 1])
  }

  lemma BaseKept(rc: RingConfig, s: State, s': State)
    requires FollowsWithoutReset(rc, s, s')
    ensures s'.base == s.base
  {
    var act: Act :| Next(rc, s, s', act) && !IsReset(act);
    if act.Produce? { OutsideFrame(rc, s, s', act.i); }
  }

  lemma {:induction false} ResetFreeBase(rc: RingConfig, run: seq<State>, n: nat)
    requires IsRun(rc, run) && IsResetFree(rc, run) && n < |run|
    ensures run[n].base == Counters(0, 0, 0)
  {
    if n > 0 {
      ResetFreeBase(rc, run, n - 1);
      assert FollowsWithoutReset(rc, run[n - 1], run[n - 1 + 1]);
      BaseKept(rc, run[n - 1], run[n]);
    }
  }

  lemma WrappedTotal(a: nat, b: nat, c: nat)
    ensures (a % U64 + b % U64 + c) % U64 == (a + b + c) % U64
  {
    WrappedSum(a, b % U64 + c);
    WrappedSum(b, a + c);
  }

  /** In a run without reset the shared counters themselves account for every
      event offered, modulo 2^64, and head is the enqueued counter except between
      a publish and its bump. */
  lemma ResetFreeAccounting(rc: RingConfig, run: seq<State>, n: nat)
    requires IsRun(rc, run) && IsResetFree(rc, run) && n < |run|
    ensures var s := run[n];
            |s.tally.offered| % U64 ==
              (s.counters.enqueued + s.counters.dropped +
               (|s.tally.discarded| + |s.tally.lost| + Buffered(s) + Underway(s))) % U64
    ensures var s := run[n]; s.k.head == (s.counters.enqueued + if Uncounted(s) then 1 else 0) % U64
  {
    var s := run[n];
    ResetFreeBase(rc, run, n);
    RunInv(rc, run, n);
    Get(rc, s, PI.Enqueues);
    Accounting(rc, run, n);
    CountersTell(rc, run, n);
    WrappedTotal(EnqueueTotal(s), |s.tally.dropped|, |s.tally.discarded| + |s.tally.lost| + Buffered(s) + Underway(s));
  }

  // ------------------------------------------------------------------
  // Batches and the lock
  // ------------------------------------------------------------------

  /** A local batch never holds more than it has room for. */
  lemma BatchFits(rc: RingConfig, run: seq<State>, n: nat, i: nat)
    requires IsRun(rc, run) && n < |run| && i < |run[n].procs|
    ensures |run[n].procs[i].batch| <= BATCH_CAPACITY
    ensures run[n].procs[i].at.StoreLocal? ==> |run[n].procs[i].batch| < BATCH_CAPACITY
  {
    RunInv(rc, run, n);
    Get(rc, run[n], PI.Producers);
    assert PI.ProducerOk(rc, run[n].k, run[n].procs[i]);
  }

  // ------------------------------------------------------------------
  // The ring
  // ------------------------------------------------------------------

  /** At most one producer is inside the queue lock. */
  lemma MutualExclusion(rc: RingConfig, run: seq<State>, n: nat, i: nat, j: nat)
    requires IsRun(rc, run) && n < |run| && i < |run[n].procs| && j < |run[n].procs|
    requires run[n].procs[i].at.Holding? && run[n].procs[j].at.Holding?
    ensures i == j && run[n].lock == HeldBy(i)
  {
    RunInv(rc, run, n);
    Get(rc, run[n], PI.LockPart);
  }

  /** The true distance of head and tail is within the capacity, and the
      unsigned difference of the stored positions is that distance. */
  lemma QueueBounded(rc: RingConfig, run: seq<State>, n: nat)
    requires IsRun(rc, run) && n < |run|
    ensures var k := run[n].k;
            && 0 <= |k.published| - |k.delivered| <= rc.capacity
            && k.head < U64 && k.tail < U64 && Minus64(k.head, k.tail) == |k.published| - |k.delivered|
  {
    RunInv(rc, run, n);
    RingPositions(rc, run[n]);
    WrappedDistance(|run[n].k.published|, |run[n].k.delivered|);
  }

  /** The producer has passed its fullness check and not published yet. */
  predicate Filling(at: Point)
  {
    at.Holding? && (at.w.WFixed? || at.w.WAlloc? || at.w.WStoreErr? || at.w.WQuery? || at.w.WIntern? || at.w.WPublish?)
  }

  /** From its fullness check to its publish a producer writes to a slot that is
      neither published nor being read, however stale the positions it acts on. */
  lemma SlotsApart(rc: RingConfig, run: seq<State>, n: nat, i: nat, pos: nat)
    requires IsRun(rc, run) && n < |run| && i < |run[n].procs| && Filling(run[n].procs[i].at)
    requires |run[n].k.delivered| <= pos < |run[n].k.published|
    ensures rc.capacity > 0 && Masked(run[n].procs[i].at.w.h, rc.capacity) != Masked(pos % U64, rc.capacity)
  {
    RunInv(rc, run, n);
    var s := run[n];
    Get(rc, s, PI.LockPart);
    Get(rc, s, PI.RingPart);
    RingProofs.WriterRoom(rc, PI.ViewOf(s));
    MaskWraps(pos, rc.capacity);
    MaskWraps(|s.k.published|, rc.capacity);
    MaskInjective(pos, |s.k.published|, rc.capacity);
  }

  /** The reader works on the slot of the oldest published event. */
  lemma ReaderSlotPublished(rc: RingConfig, run: seq<State>, n: nat)
    requires IsRun(rc, run) && n < |run| && !(run[n].reader.RIdle? || run[n].reader.RHead? || run[n].reader.RTail?)
    ensures |run[n].k.delivered| < |run[n].k.published| && run[n].reader.t == |run[n].k.delivered| % U64
  {
    RunInv(rc, run, n);
    Get(rc, run[n], PI.RingPart);
    RingProofs.Get(rc, PI.ViewOf(run[n]), ReaderAt);
    RingPositions(rc, run[n]);
  }

  // ------------------------------------------------------------------
  // Delivery
  // ------------------------------------------------------------------

  /** What may become of the texts of a published event: an empty text stays
      empty, any other is kept unless memory ran out or, for queries, another
      text holds the same key. The interner's table is never too full. */
  predicate FatesOk(rec: Record)
  {
    && (if rec.ev.err == "" then rec.err == NoText else rec.err in {Kept, OutOfMemory})
    && (if rec.ev.query == "" then rec.query == NoText else rec.query in {Kept, OutOfMemory, Collision})
  }

  lemma NextFates(rc: RingConfig, s: State, s': State, act: Act)
    requires PI.Inv(rc, s) && Next(rc, s, s', act)
    requires forall j | 0 <= j < |s.k.published| :: FatesOk(s.k.published[j])
    ensures forall j | 0 <= j < |s'.k.published| :: FatesOk(s'.k.published[j])
  {
    match act
    case Enqueue(i, p, force) => EnqueueFates(rc, s, s', i, p, force);
    case Dequeue(p, slot) => ReaderEffect(rc, s.k, s'.k, s.reader, s'.reader, p, slot);
    case Produce(i) => OutsideFrame(rc, s, s', i);
    case _ =>
  }

  lemma EnqueueFates(rc: RingConfig, s: State, s': State, i: nat, p: TextStore.Ptr, force: bool)
    requires PI.Inv(rc, s) && Next(rc, s, s', Enqueue(i, p, force))
    requires forall j | 0 <= j < |s.k.published| :: FatesOk(s.k.published[j])
    ensures forall j | 0 <= j < |s'.k.published| :: FatesOk(s'.k.published[j])
  {
    var w := s.procs[i].at.w;
    if !w.WOverflow? && !w.WCount? {
      WriterEffect(rc, s.k, s'.k, i, w, s'.procs[i].at.w, p, force);
      if w.WPublish? { PublishFates(rc, s, i); }
    }
  }

  lemma PublishFates(rc: RingConfig, s: State, i: nat)
    requires PI.Inv(rc, s) && i < |s.procs| && s.procs[i].at.Holding? && s.procs[i].at.w.WPublish?
    ensures var w := s.procs[i].at.w; FatesOk(Record(w.ev, w.err, w.query))
  {
    Get(rc, s, PI.LockPart);
    Get(rc, s, PI.RingPart);
    RingProofs.WriterRoom(rc, PI.ViewOf(s));
  }

  lemma {:induction false} RunFates(rc: RingConfig, run: seq<State>, n: nat)
    requires IsRun(rc, run) && n < |run|
    ensures forall j | 0 <= j < |run[n].k.published| :: FatesOk(run[n].k.published[j])
  {
    if n > 0 {
      RunFates(rc, run, n - 1);
      RunInv(rc, run, n - 1);
      assert Follows(rc, run[n - 1], run[n - 1 + 1]);
      var act: Act :| Next(rc, run[n - 1], run[n], act);
      NextFates(rc, run[n - 1], run[n], act);
    }
  }

  /** The events dequeued are a prefix of those published: fixed fields intact,
      each text its own clamped text or empty, and empty only for a reason. */
  lemma Delivery(rc: RingConfig, run: seq<State>, n: nat, j: nat)
    requires IsRun(rc, run) && n < |run| && j < |run[n].k.delivered|
    ensures j < |run[n].k.published|
    ensures var got, rec := run[n].k.delivered[j], run[n].k.published[j];
            && got.fixed == rec.ev.fixed && FatesOk(rec)
            && got.err == (if rec.err == OutOfMemory then "" else Clamp(rec.ev.err))
            && got.query == (if rec.query in {OutOfMemory, Collision} then "" else Clamp(rec.ev.query))
  {
    RunInv(rc, run, n);
    RunFates(rc, run, n);
    Get(rc, run[n], PI.RingPart);
    RingProofs.Get(rc, PI.ViewOf(run[n]), Delivered);
    assert FatesOk(run[n].k.published[j]);
  }

  // ------------------------------------------------------------------
  // Drops
  // ------------------------------------------------------------------

  /** A drop under the lock, unless the debug setting forced it, finds the queue
      truly full when it reads the tail; and a full queue always drops. */
  lemma LockedDrop(rc: RingConfig, run: seq<State>, n: nat, i: nat, p: TextStore.Ptr, force: bool)
    requires IsRun(rc, run) && n + 1 < |run| && Next(rc, run[n], run[n + 1], Enqueue(i, p, force))
    requires run[n].procs[i].at.w.WTail?
    ensures |run[n + 1].procs| == |run[n].procs| && run[n + 1].procs[i].at.Holding?
    ensures run[n + 1].procs[i].at.w.WOverflow? <==> force || |run[n].k.published| == |run[n].k.delivered| + rc.capacity
  {
    RunInv(rc, run, n);
    var s := run[n];
    Get(rc, s, PI.LockPart);
    Get(rc, s, PI.RingPart);
    RingProofs.WriterRoom(rc, PI.ViewOf(s));
    RingPositions(rc, s);
    WrappedDistance(|s.k.published|, |s.k.delivered|);
  }

  /** The outcome of the lock-free check, from the true position `seen` of the
      head it read and the true position t of the tail. */
  lemma FullnessSeen(rc: RingConfig, seen: nat, t: nat)
    requires 0 < rc.capacity < U64
    ensures t <= seen <= t + rc.capacity ==> (LooksFull(rc, seen % U64, t % U64) <==> seen == t + rc.capacity)
    ensures seen < t ==> (LooksFull(rc, seen % U64, t % U64) <==> 0 < (t - seen) % U64 <= U64 - rc.capacity)
  {
    if t <= seen <= t + rc.capacity {
      WrappedDistance(seen, t);
    } else if seen < t {
      WrappedBehind(seen, t);
    }
  }

  /** A lock-free drop: either the queue was full from the read of the head to
      the read of the tail, or the tail has passed the head that was read and
      the unsigned difference wrapped. In the second case the drop happens
      exactly when the tail is at most 2^64 - capacity ahead, modulo 2^64. */
  lemma LockFreeDrop(rc: RingConfig, run: seq<State>, n: nat, i: nat)
    requires IsRun(rc, run) && n + 1 < |run| && Next(rc, run[n], run[n + 1], Produce(i))
    requires run[n].procs[i].at.FastTail?
    ensures var at, p, t := run[n].procs[i].at, |run[n].k.published|, |run[n].k.delivered|;
            var drops := |run[n + 1].procs| == |run[n].procs| && run[n + 1].procs[i].at.FastDrop?;
            if t <= at.seen then drops <==> (at.seen == p == t + rc.capacity && at.seenTail == t)
            else drops <==> 0 < (t - at.seen) % U64 <= U64 - rc.capacity
  {
    RunInv(rc, run, n);
    FastTailStep(rc, run[n], run[n + 1], i);
    FastTailSeen(rc, run[n], i);
  }

  lemma FastTailStep(rc: RingConfig, s: State, s': State, i: nat)
    requires Next(rc, s, s', Produce(i)) && s.procs[i].at.FastTail?
    ensures |s'.procs| == |s.procs| && (s'.procs[i].at.FastDrop? <==> LooksFull(rc, s.procs[i].at.h, s.k.tail))
  {
  }

  lemma FastTailSeen(rc: RingConfig, s: State, i: nat)
    requires PI.Inv(rc, s) && i < |s.procs| && s.procs[i].at.FastTail?
    ensures var at, p, t := s.procs[i].at, |s.k.published|, |s.k.delivered|;
            if t <= at.seen then LooksFull(rc, at.h, s.k.tail) <==> (at.seen == p == t + rc.capacity && at.seenTail == t)
            else LooksFull(rc, at.h, s.k.tail) <==> 0 < (t - at.seen) % U64 <= U64 - rc.capacity
  {
    Get(rc, s, PI.Producers);
    assert PI.ProducerOk(rc, s.k, s.procs[i]);
    RingPositions(rc, s);
    Get(rc, s, PI.RingPart);
    FullnessSeen(rc, s.procs[i].at.seen, |s.k.delivered|);
  }

  // ------------------------------------------------------------------
  // The interner under the queue lock
  // ------------------------------------------------------------------

  /** Under the queue lock the interner's second lookup never finds the key, the
      table is never full at the insert, and so no copy is ever thrown away. */
  lemma InternerNeverLoses(rc: RingConfig, run: seq<State>, n: nat, i: nat)
    requires IsRun(rc, run) && n < |run| && i < |run[n].procs|
    ensures i < |run[n].k.store.clients|
    ensures var s := run[n].k.store; var x := s.clients[i];
            && !x.AcqCompareWinner? && !x.AcqBumpWinner? && !x.AcqUnlockBackOut? && !x.AcqFree?
            && (x.AcqEnter? ==> x.r.key !in s.table && |s.table| < rc.store.maxEntries)
            && (x.AcqDone? ==> x.fate != TableFull)
  {
    RunInv(rc, run, n);
    var s := run[n];
    Get(rc, s, PI.Sizes);
    Get(rc, s, PI.RingPart);
    RingProofs.Get(rc, PI.ViewOf(s), Interning);
    if s.k.store.clients[i].AcqEnter? { RingProofs.TableHasRoom(rc, PI.ViewOf(s), i); }
  }

  /** No step of the writer or the reader touches a dead block or a missing entry. */
  lemma NoFaults(rc: RingConfig, run: seq<State>, n: nat, c: nat)
    requires IsRun(rc, run) && n < |run| && c < |run[n].k.store.clients|
    ensures !TextStore.Faults(run[n].k.store, c)
  {
    RunInv(rc, run, n);
    Get(rc, run[n], PI.RingPart);
    RingProofs.Get(rc, PI.ViewOf(run[n]), Store);
    StoreThms.SafeToStep(rc.store, run[n].k.store, c);
  }

  /** Every slot of the queue keeps its query alive: until the reader takes it
      over, the slot's pointer names a live body, tabled under its own key and
      holding the event's own clamped text. */
  lemma SlotKeepsQuery(rc: RingConfig, run: seq<State>, n: nat, pos: nat)
    requires IsRun(rc, run) && n < |run| && |run[n].k.delivered| <= pos < |run[n].k.published|
    requires run[n].k.published[pos].query == Kept
    requires pos == |run[n].k.delivered| ==> !run[n].reader.RIntern? && !run[n].reader.RPublish?
    ensures var k := run[n].k; var p, ev := SlotAt(rc, k, pos).query, k.published[pos].ev;
            && p in k.store.heap && k.store.heap[p] == TextStore.Body(KeyOf(rc, ev), Clamp(ev.query))
            && KeyOf(rc, ev) in k.store.table && k.store.table[KeyOf(rc, ev)].body == p
  {
    RunInv(rc, run, n);
    var s := run[n];
    var v := PI.ViewOf(s);
    Get(rc, s, PI.RingPart);
    RingProofs.Get(rc, v, Queries);
    RingProofs.Get(rc, v, Window);
    assert QueryOk(rc, s.k, SideOf(v.writer, v.reader), pos);
    assert Written(SlotAt(rc, s.k, pos), s.k.published[pos]);
    RingProofs.Get(rc, v, Store);
    var st := s.k.store;
    assert StoreInv.Holds(rc.store, st, StoreInv.Profiles(st.clients), StoreInv.Refs);
    assert StoreInv.RefOk(st, TextStore.BySlot(pos));
  }

  // ------------------------------------------------------------------
  // Exporting
  // ------------------------------------------------------------------

  /** Every dequeued event is handed to the backend at most once, and in a run
      without reset the shared exported counter is at most the rows whose send
      succeeded, which is at most the tail, which is at most the head. */
  lemma ExportedOnce(rc: RingConfig, run: seq<State>, n: nat)
    requires IsRun(rc, run) && n < |run|
    ensures var s := run[n];
            && s.out.total <= s.out.sentOk <= |s.out.handed| <= |s.k.delivered| <= |s.k.published|
            && (forall j | 0 <= j < |s.out.handed| :: s.out.handed[j] < |s.k.delivered|)
            && (forall i, j | 0 <= i < j < |s.out.handed| :: s.out.handed[i] != s.out.handed[j])
    ensures IsResetFree(rc, run) ==> run[n].counters.exported <= run[n].out.sentOk
  {
    RunInv(rc, run, n);
    Get(rc, run[n], PI.Exporting);
    RingPositions(rc, run[n]);
    if IsResetFree(rc, run) {
      ResetFreeBase(rc, run, n);
      Get(rc, run[n], PI.Exports);
      ModAtMost(run[n].out.total);
    }
  }

  lemma ModAtMost(a: nat)
    ensures a % U64 <= a
  {
    DivMod(a, U64);
    MulMonotone(0, a / U64, U64);
  }

  // ------------------------------------------------------------------
  // Nothing is leaked
  // ------------------------------------------------------------------

  /** Once the queue is drained and every process is at rest, no memory of the
      text store is in use. */
  lemma QuiescentIsEmpty(rc: RingConfig, run: seq<State>, n: nat)
    requires IsRun(rc, run) && n < |run|
    requires |run[n].k.delivered| == |run[n].k.published| && run[n].reader.RIdle?
    requires forall i | 0 <= i < |run[n].procs| :: !run[n].procs[i].at.Holding?
    ensures var st := run[n].k.store; st.heap == map[] && st.table == map[] && st.locks == map[]
  {
    RunInv(rc, run, n);
    var v := PI.ViewOf(run[n]);
    Get(rc, run[n], PI.RingPart);
    RingProofs.Get(rc, v, Store);
    RingEmpty(rc, v);
    StoreThms.IdleIsEmpty(rc.store, v.k.store);
  }

  lemma RingEmpty(rc: RingConfig, v: View)
    requires RingInvariant.Inv(rc, v) && |v.k.delivered| == |v.k.published| && v.reader.RIdle? && v.writer.None?
    ensures v.k.store.refs == map[] && v.k.store.texts == map[]
    ensures forall c | 0 <= c < |v.k.store.clients| :: v.k.store.clients[c] == TextStore.Idle
  {
    var s, x := v.k.store, SideOf(v.writer, v.reader);
    RingProofs.Get(rc, v, Interning);
    RingProofs.Get(rc, v, Store);
    assert StoreInv.Holds(rc.store, s, StoreInv.Profiles(s.clients), StoreInv.Refs);
    forall o ensures o !in s.texts && o !in s.refs {
      if o.BySlot? {
        RingProofs.Get(rc, v, Texts);
        RingProofs.Get(rc, v, Queries);
        assert TextOk(rc, v.k, x, o.pos) && QueryOk(rc, v.k, x, o.pos);
      } else {
        RingProofs.Get(rc, v, Staging);
        assert StagedOk(v.k, x, o.client);
        if o.client < |s.clients| { assert StoreInv.Profiles(s.clients)[o.client] == StoreInv.ProfileOf(s.clients[o.client]); }
      }
    }
  }

  /** A reference count is positive and at most the capacity: as a 32-bit
      number it neither reaches zero early nor overflows. */
  lemma RefcountsFit(rc: RingConfig, run: seq<State>, n: nat, key: TextStore.Key)
    requires IsRun(rc, run) && n < |run| && key in run[n].k.store.table
    ensures 1 <= run[n].k.store.table[key].refcount <= rc.capacity < 0x1_0000_0000
  {
    RunInv(rc, run, n);
    Get(rc, run[n], PI.RingPart);
    RingTheorems.RefcountFits(rc, PI.ViewOf(run[n]), key);
  }

  // ------------------------------------------------------------------
  // No deadlock
  // ------------------------------------------------------------------

  /** The producer that holds the queue lock waits for a partition lock the
      consumer holds. */
  predicate HolderWaits(rc: RingConfig, s: State)
  {
    s.lock.HeldBy? && s.reader.RIntern? && RingTheorems.WaitsFor(rc, s.k.store, s.lock.i, rc.reader)
  }

  /** A step of a producer, the end of a foreign hold on the lock, or a step of
      the consumer that brings the partition lock the lock holder waits for
      nearer to its release. */
  predicate Advances(rc: RingConfig, s: State, act: Act)
  {
    || act.Produce? || act.Enqueue? || act.Flag? || act.UnlockElsewhere?
    || (act.Dequeue? && HolderWaits(rc, s))
  }

  ghost predicate SomeAdvance(rc: RingConfig, s: State)
  {
    exists s': State, act: Act :: Next(rc, s, s', act) && Advances(rc, s, act)
  }

  lemma OutsideAdvances(rc: RingConfig, s: State, i: nat)
    requires i < |s.procs| && !s.procs[i].at.Rest? && !s.procs[i].at.Holding? && !Flagging(s.procs[i].at)
    requires s.procs[i].at.WaitLock? ==> s.lock.Free?
    ensures SomeAdvance(rc, s)
  {
    var b := s.procs[i].batch;
    var s' := match s.procs[i].at
              case FastHead(job) => Put(s, i, b, FastTail(job, s.k.head, |s.k.published|, |s.k.delivered|))
              case FastTail(job, h, _, _) =>
                Put(s, i, b, if LooksFull(rc, h, s.k.tail) then FastDrop(Todo(job), PendingOf(job))
                             else if job.One? then TryLock(job.ev) else WaitLock(job.evs, job.pending))
              case FastDrop(todo, pending) =>
                if todo == [] then Put(s, i, b, Done(pending))
                else CountDrop(Put(s, i, b, FastFlag(todo[1..], pending)), todo[0])
              case TryLock(ev) =>
                if s.lock.Free? then Put(s, i, b, Holding(WHead(ev), [], None)).(lock := HeldBy(i))
                else Put(s, i, b, Contended(ev))
              case WaitLock(todo, pending) => Put(s, i, b, NextLocked(todo, pending)).(lock := HeldBy(i))
              case Unlock(pending) => Put(s, i, b, Done(pending)).(lock := Free)
              case Contended(ev) => s.(procs := s.procs[i := Producer(b, AfterInit(b, ev), true)])
              case Flush(pending) =>
                if s.enabled then Put(s, i, [], FastHead(Many(b, pending)))
                else Put(s, i, [], Done(pending)).(tally := s.tally.(discarded := s.tally.discarded + b))
              case StoreLocal(ev) => Put(s, i, b + [ev], Rest);
    assert OutsideStep(rc, s, s', i);
    assert Next(rc, s, s', Produce(i));
  }

  lemma WriterAdvances(rc: RingConfig, s: State, i: nat)
    requires PI.Inv(rc, s) && s.lock == HeldBy(i) && i < |s.procs| && s.procs[i].at.Holding?
    requires !s.procs[i].at.w.WOverflow? && !s.procs[i].at.w.WCount?
    requires s.procs[i].at.w.WIntern? ==> RingTheorems.NotWaiting(rc, s.k.store, i)
    ensures SomeAdvance(rc, s)
  {
    var at, v := s.procs[i].at, PI.ViewOf(s);
    Get(rc, s, PI.RingPart);
    StoreNull(rc, v);
    RingTheorems.WriterNotStuck(rc, v, TextStore.NULL, false);
    var k', w' :| WriterStep(rc, s.k, k', i, at.w, w', TextStore.NULL, false);
    var s' := Put(s, i, s.procs[i].batch, Holding(w', at.todo, at.pending)).(k := k');
    assert LockedStep(rc, s, s', i, TextStore.NULL, false);
    assert Next(rc, s, s', Enqueue(i, TextStore.NULL, false));
  }

  lemma StoreNull(rc: RingConfig, v: View)
    requires RingInvariant.Inv(rc, v)
    ensures TextStore.NULL !in v.k.store.heap
  {
    var st := v.k.store;
    RingProofs.Get(rc, v, Store);
    assert StoreInv.Holds(rc.store, st, StoreInv.Profiles(st.clients), StoreInv.Homes);
  }

  lemma ReaderAdvances(rc: RingConfig, s: State)
    requires PI.Inv(rc, s) && HolderWaits(rc, s) && RingTheorems.NotWaiting(rc, s.k.store, rc.reader)
    ensures SomeAdvance(rc, s)
  {
    var v := PI.ViewOf(s);
    Get(rc, s, PI.RingPart);
    Get(rc, s, PI.Exporting);
    StoreNull(rc, v);
    RingTheorems.ReaderNotStuck(rc, v, TextStore.NULL);
    var k', r', slot :| ReaderStep(rc, s.k, k', s.reader, r', TextStore.NULL, slot);
    var s' := s.(k := k', reader := r');
    assert Next(rc, s, s', Dequeue(TextStore.NULL, slot));
  }

  lemma HolderAdvances(rc: RingConfig, s: State, i: nat)
    requires PI.Inv(rc, s) && s.lock == HeldBy(i) && i < |s.procs| && s.procs[i].at.Holding?
    ensures SomeAdvance(rc, s)
  {
    var at := s.procs[i].at;
    if at.w.WOverflow? {
      var s' := CountDrop(Put(s, i, s.procs[i].batch, LockedFlag(at.todo, at.pending)), at.w.ev);
      assert Next(rc, s, s', Enqueue(i, TextStore.NULL, false));
    } else if at.w.WCount? {
      var s' := Put(s, i, s.procs[i].batch, NextLocked(at.todo, at.pending)).(
        counters := s.counters.(enqueued := (s.counters.enqueued + 1) % U64));
      assert Next(rc, s, s', Enqueue(i, TextStore.NULL, false));
    } else if at.w.WIntern? && !RingTheorems.NotWaiting(rc, s.k.store, i) {
      Get(rc, s, PI.RingPart);
      RingTheorems.OneEndMoves(rc, PI.ViewOf(s));
      ReaderAdvances(rc, s);
    } else {
      WriterAdvances(rc, s, i);
    }
  }

  lemma FlagAdvances(rc: RingConfig, s: State, i: nat)
    requires i < |s.procs| && Flagging(s.procs[i].at)
    ensures SomeAdvance(rc, s)
  {
    assert Next(rc, s, Flagged(s, i), Flag(i));
  }

  lemma ForeignAdvances(rc: RingConfig, s: State)
    requires s.lock.Elsewhere?
    ensures SomeAdvance(rc, s)
  {
    assert Next(rc, s, s.(lock := Free), UnlockElsewhere);
  }

  /** As long as some producer is under way, a producer can move, a foreign hold
      on the queue lock can end, or the lock holder waits for a partition lock
      and the consumer, which holds that lock, can move: producers waiting for
      the queue lock and the two ends of the ring waiting for partition locks
      never all wait for each other. */
  lemma NoDeadlock(rc: RingConfig, run: seq<State>, n: nat, i: nat)
    requires IsRun(rc, run) && n < |run| && i < |run[n].procs| && !run[n].procs[i].at.Rest?
    ensures SomeAdvance(rc, run[n])
  {
    RunInv(rc, run, n);
    var s := run[n];
    Get(rc, s, PI.LockPart);
    if s.procs[i].at.Holding? {
      HolderAdvances(rc, s, i);
    } else if Flagging(s.procs[i].at) {
      FlagAdvances(rc, s, i);
    } else if !s.procs[i].at.WaitLock? || s.lock.Free? {
      OutsideAdvances(rc, s, i);
    } else if s.lock.Elsewhere? {
      ForeignAdvances(rc, s);
    } else if s.procs[s.lock.i].at.Unlock? {
      OutsideAdvances(rc, s, s.lock.i);
    } else if s.procs[s.lock.i].at.LockedFlag? {
      FlagAdvances(rc, s, s.lock.i);
    } else {
      HolderAdvances(rc, s, s.lock.i);
    }
  }
}
