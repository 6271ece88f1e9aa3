/** When a text is missing from a published event, and hence from the event that
    the consumer delivers: exactly if an allocation for it was answered with
    nothing or, for a query, if another text was tabled under its key when the
    interner compared. */
module PipelineFates {
  import opened Events
  import TextStore
  import Reasons = TextStoreReasons
  import opened Ring
  import RingInvariant
  import RingProofs
  import opened Pipeline
  import PI = PipelineInvariant
  import opened PipelineProofs
  import PipelineTheorems

  // ------------------------------------------------------------------
  // The event in the writer's hands
  // ------------------------------------------------------------------

  /** The writer and, inside the interner, its client. */
  datatype Hand = Hand(w: Writer, x: TextStore.Client)

  /** The writer past its fixed part. */
  predicate Deciding(w: Writer)
  {
    w.WStoreErr? || w.WQuery? || w.WIntern? || w.WPublish?
  }

  function HandOf(s: State): Option<Hand>
  {
    var b := PI.WriterOf(s);
    if b.None? || !Deciding(b.value.w) then None
    else if b.value.w.WIntern? && b.value.c < |s.k.store.clients| then Some(Hand(b.value.w, s.k.store.clients[b.value.c]))
    else Some(Hand(b.value.w, TextStore.Idle))
  }

  /** The j-th event is published, or will be, with this fate of its query. */
  predicate QueryIs(rc: RingConfig, published: seq<Record>, hand: Option<Hand>, j: nat, f: Fate)
  {
    if j < |published| then published[j].query == f
    else
      j == |published| && hand.Some? &&
      match hand.value.w
      case WIntern(ev, _, _) => Reasons.Refused(hand.value.x, RequestOf(rc, ev), f)
      case WPublish(_, _, _, query) => query == f
      case _ => false
  }

  /** The same for its error string. */
  predicate ErrIs(published: seq<Record>, hand: Option<Hand>, j: nat, f: Fate)
  {
    if j < |published| then published[j].err == f
    else
      j == |published| && hand.Some? &&
      match hand.value.w
      case WStoreErr(_, _, _, err) => err == f
      case WQuery(_, _, err) => err == f
      case WIntern(_, _, err) => err == f
      case WPublish(_, _, err, _) => err == f
      case _ => false
  }

  /** In this step the interner meets a reason to give no body for the query of
      the j-th event. */
  predicate QueryMeets(rc: RingConfig, s: State, act: Act, j: nat, f: Fate)
  {
    && act.Enqueue? && |s.k.published| == j && act.i < |s.procs| && s.procs[act.i].at.Holding?
    && s.procs[act.i].at.w.WIntern?
    && Reasons.Meets(rc.store, s.k.store, act.i, act.p, RequestOf(rc, s.procs[act.i].at.w.ev), f)
  }

  /** In this step the allocator gives no memory for the error string of the j-th
      event. */
  predicate ErrMeets(s: State, act: Act, j: nat)
  {
    && act.Enqueue? && |s.k.published| == j && act.i < |s.procs| && s.procs[act.i].at.Holding?
    && s.procs[act.i].at.w.WAlloc? && s.procs[act.i].at.w.ev.err != "" && act.p == TextStore.NULL
  }

  predicate IsReason(f: Fate)
  {
    f == OutOfMemory || f == Collision
  }

  // ------------------------------------------------------------------
  // Steps of the writer
  // ------------------------------------------------------------------

  lemma WriterAt(rc: RingConfig, s: State, i: nat)
    requires PI.Inv(rc, s) && i < |s.procs| && s.procs[i].at.Holding?
    ensures s.lock == HeldBy(i) && PI.WriterOf(s) == Some(RingInvariant.Busy(i, s.procs[i].at.w))
    ensures RingInvariant.Inv(rc, PI.ViewOf(s)) && i < |s.k.store.clients|
  {
    Get(rc, s, PI.LockPart);
    Get(rc, s, PI.RingPart);
    RingProofs.Get(rc, PI.ViewOf(s), RingInvariant.Interning);
  }

  /** A step of the interner. */
  lemma InternQuery(rc: RingConfig, s: State, s': State, i: nat, p: TextStore.Ptr, f: Fate)
    requires PI.Inv(rc, s) && i < |s.procs| && s.procs[i].at.Holding? && s.procs[i].at.w.WIntern?
    requires i < |s.k.store.clients| && StoreActs(rc, s.k, s'.k, TextStore.Run(i, p)) && IsReason(f)
    ensures var r := RequestOf(rc, s.procs[i].at.w.ev);
            Reasons.StepExact(rc.store, s.k.store, s'.k.store, i, p, r, f)
  {
    WriterAt(rc, s, i);
    RingProofs.Get(rc, PI.ViewOf(s), RingInvariant.Store);
    Reasons.RunExact(rc.store, s.k.store, i, p, RequestOf(rc, s.procs[i].at.w.ev), f);
  }

  /** The interner returns: its request was the event's. */
  lemma ResultRequest(rc: RingConfig, s: State, i: nat)
    requires PI.Inv(rc, s) && i < |s.procs| && s.procs[i].at.Holding? && s.procs[i].at.w.WIntern?
    requires i < |s.k.store.clients| && s.k.store.clients[i].AcqDone?
    ensures s.k.store.clients[i].r == RequestOf(rc, s.procs[i].at.w.ev)
  {
    WriterAt(rc, s, i);
    RingProofs.Get(rc, PI.ViewOf(s), RingInvariant.Interning);
  }

  /** The writer's next point, and what it publishes. */
  lemma HandAfter(rc: RingConfig, s: State, s': State, i: nat, p: TextStore.Ptr, force: bool)
    requires PI.Inv(rc, s) && Writes(rc, s, s', i, p, force)
    ensures PI.WriterOf(s') == Some(RingInvariant.Busy(i, s'.procs[i].at.w))
    ensures |s'.k.store.clients| == |s.k.store.clients|
  {
    WriterAt(rc, s, i);
    WriterEffect(rc, s.k, s'.k, i, s.procs[i].at.w, s'.procs[i].at.w, p, force);
  }

  /** What one step does to the fates of the j-th event. */
  ghost predicate QueryStep(rc: RingConfig, s: State, s': State, act: Act, j: nat, f: Fate)
  {
    QueryIs(rc, s'.k.published, HandOf(s'), j, f) <==>
    QueryIs(rc, s.k.published, HandOf(s), j, f) || QueryMeets(rc, s, act, j, f)
  }

  ghost predicate ErrStep(s: State, s': State, act: Act, j: nat)
  {
    ErrIs(s'.k.published, HandOf(s'), j, OutOfMemory) <==>
    ErrIs(s.k.published, HandOf(s), j, OutOfMemory) || ErrMeets(s, act, j)
  }

  lemma EarlyStep(rc: RingConfig, s: State, s': State, i: nat, p: TextStore.Ptr, force: bool, j: nat, f: Fate)
    requires PI.Inv(rc, s) && Writes(rc, s, s', i, p, force) && IsReason(f)
    requires var w := s.procs[i].at.w; w.WHead? || w.WTail? || w.WFixed? || w.WAlloc?
    ensures QueryStep(rc, s, s', Enqueue(i, p, force), j, f) && ErrStep(s, s', Enqueue(i, p, force), j)
  {
    HandAfter(rc, s, s', i, p, force);
    WriterAt(rc, s, i);
  }

  lemma StoreStep(rc: RingConfig, s: State, s': State, i: nat, p: TextStore.Ptr, force: bool, j: nat, f: Fate)
    requires PI.Inv(rc, s) && Writes(rc, s, s', i, p, force) && IsReason(f)
    requires var w := s.procs[i].at.w; w.WStoreErr? || w.WQuery?
    ensures QueryStep(rc, s, s', Enqueue(i, p, force), j, f) && ErrStep(s, s', Enqueue(i, p, force), j)
  {
    HandAfter(rc, s, s', i, p, force);
    WriterAt(rc, s, i);
  }

  lemma InternStep(rc: RingConfig, s: State, s': State, i: nat, p: TextStore.Ptr, force: bool, j: nat, f: Fate)
    requires PI.Inv(rc, s) && Writes(rc, s, s', i, p, force) && IsReason(f) && s.procs[i].at.w.WIntern?
    ensures QueryStep(rc, s, s', Enqueue(i, p, force), j, f) && ErrStep(s, s', Enqueue(i, p, force), j)
  {
    HandAfter(rc, s, s', i, p, force);
    WriterAt(rc, s, i);
    if s.k.store.clients[i].AcqDone? { ResultRequest(rc, s, i); } else { InternQuery(rc, s, s', i, p, f); }
  }

  lemma PublishStep(rc: RingConfig, s: State, s': State, i: nat, p: TextStore.Ptr, force: bool, j: nat, f: Fate)
    requires PI.Inv(rc, s) && Writes(rc, s, s', i, p, force) && IsReason(f) && s.procs[i].at.w.WPublish?
    ensures QueryStep(rc, s, s', Enqueue(i, p, force), j, f) && ErrStep(s, s', Enqueue(i, p, force), j)
  {
    HandAfter(rc, s, s', i, p, force);
    WriterAt(rc, s, i);
  }

  // ------------------------------------------------------------------
  // All steps
  // ------------------------------------------------------------------

  lemma SameHand(rc: RingConfig, s: State, s': State, act: Act, j: nat, f: Fate)
    requires s'.k.published == s.k.published && HandOf(s') == HandOf(s)
    requires act.Enqueue? ==> act.i < |s.procs| && s.procs[act.i].at.Holding? &&
                              !s.procs[act.i].at.w.WIntern? && !s.procs[act.i].at.w.WAlloc?
    ensures QueryStep(rc, s, s', act, j, f) && ErrStep(s, s', act, j)
  {
  }

  lemma EndStep(rc: RingConfig, s: State, s': State, i: nat, p: TextStore.Ptr, force: bool, j: nat, f: Fate)
    requires PI.Inv(rc, s) && i < |s.procs| && s.procs[i].at.Holding? && LockedStep(rc, s, s', i, p, force)
    requires s.procs[i].at.w.WOverflow? || s.procs[i].at.w.WCount?
    ensures QueryStep(rc, s, s', Enqueue(i, p, force), j, f) && ErrStep(s, s', Enqueue(i, p, force), j)
  {
    WriterAt(rc, s, i);
    SameHand(rc, s, s', Enqueue(i, p, force), j, f);
  }

  lemma EnqueueFate(rc: RingConfig, s: State, s': State, i: nat, p: TextStore.Ptr, force: bool, j: nat, f: Fate)
    requires PI.Inv(rc, s) && Next(rc, s, s', Enqueue(i, p, force)) && IsReason(f)
    ensures QueryStep(rc, s, s', Enqueue(i, p, force), j, f) && ErrStep(s, s', Enqueue(i, p, force), j)
  {
    WriterAt(rc, s, i);
    var w := s.procs[i].at.w;
    if w.WOverflow? || w.WCount? {
      EndStep(rc, s, s', i, p, force, j, f);
    } else {
      assert Writes(rc, s, s', i, p, force);
      if w.WIntern? { InternStep(rc, s, s', i, p, force, j, f); }
      else if w.WPublish? { PublishStep(rc, s, s', i, p, force, j, f); }
      else if w.WStoreErr? || w.WQuery? { StoreStep(rc, s, s', i, p, force, j, f); }
      else { EarlyStep(rc, s, s', i, p, force, j, f); }
    }
  }

  lemma ReaderKeepsOthers(rc: RingConfig, k: Core, k': Core, r: Reader, r': Reader, p: TextStore.Ptr, slot: Slot, c: nat)
    requires ReaderStep(rc, k, k', r, r', p, slot) && c != rc.reader && c < |k.store.clients|
    ensures c < |k'.store.clients| && k'.store.clients[c] == k.store.clients[c]
  {
  }

  lemma DequeueFate(rc: RingConfig, s: State, s': State, p: TextStore.Ptr, slot: Slot, j: nat, f: Fate)
    requires PI.Inv(rc, s) && Next(rc, s, s', Dequeue(p, slot))
    ensures QueryStep(rc, s, s', Dequeue(p, slot), j, f) && ErrStep(s, s', Dequeue(p, slot), j)
  {
    ReaderEffect(rc, s.k, s'.k, s.reader, s'.reader, p, slot);
    Get(rc, s, PI.RingPart);
    RingProofs.Get(rc, PI.ViewOf(s), RingInvariant.Interning);
    var b := PI.WriterOf(s);
    if b.Some? { ReaderKeepsOthers(rc, s.k, s'.k, s.reader, s'.reader, p, slot, b.value.c); }
    SameHand(rc, s, s', Dequeue(p, slot), j, f);
  }

  lemma ProduceFate(rc: RingConfig, s: State, s': State, i: nat, j: nat, f: Fate)
    requires PI.Inv(rc, s) && Next(rc, s, s', Produce(i))
    ensures QueryStep(rc, s, s', Produce(i), j, f) && ErrStep(s, s', Produce(i), j)
  {
    OutsideMoves(rc, s, s', i);
    Get(rc, s, PI.LockPart);
    SameHand(rc, s, s', Produce(i), j, f);
  }

  lemma OtherFate(rc: RingConfig, s: State, s': State, act: Act, j: nat, f: Fate)
    requires PI.Inv(rc, s) && Next(rc, s, s', act) && !act.Enqueue? && !act.Dequeue? && !act.Produce?
    ensures QueryStep(rc, s, s', act, j, f) && ErrStep(s, s', act, j)
  {
    if act.Offer? || act.TransactionEnd? || act.Flag? || act.Throw? || act.InitFails? { PointHand(rc, s, s', act); }
    SameHand(rc, s, s', act, j, f);
  }

  lemma PointStays(rc: RingConfig, s: State, s': State, act: Act)
    requires Next(rc, s, s', act) && (act.Offer? || act.TransactionEnd? || act.InitFails?)
    ensures s'.k == s.k && s'.lock == s.lock && |s'.procs| == |s.procs| && act.i < |s.procs|
    ensures s'.procs == s.procs[act.i := s'.procs[act.i]]
    ensures !s.procs[act.i].at.Holding? && !s'.procs[act.i].at.Holding?
  {
  }

  /** A producer moves at a point outside TryEnqueueLocked. */
  lemma PointHand(rc: RingConfig, s: State, s': State, act: Act)
    requires PI.Inv(rc, s) && Next(rc, s, s', act)
    requires act.Offer? || act.TransactionEnd? || act.Flag? || act.Throw? || act.InitFails?
    ensures s'.k == s.k && HandOf(s') == HandOf(s)
  {
    Get(rc, s, PI.LockPart);
    if act.Flag? || act.Throw? { FlagHand(rc, s, s', act); } else { PointStays(rc, s, s', act); }
  }

  lemma FlagHand(rc: RingConfig, s: State, s': State, act: Act)
    requires PI.Holds(rc, s, PI.LockPart) && Next(rc, s, s', act) && (act.Flag? || act.Throw?)
    ensures s'.k == s.k && HandOf(s') == HandOf(s)
  {
    var at, at' := s.procs[act.i].at, s'.procs[act.i].at;
    assert s'.procs == s.procs[act.i := s'.procs[act.i]];
    assert !at.Holding? && (at'.Holding? ==> at'.w.WHead?);
  }

  lemma NextFate(rc: RingConfig, s: State, s': State, act: Act, j: nat, f: Fate)
    requires PI.Inv(rc, s) && Next(rc, s, s', act) && IsReason(f)
    ensures QueryStep(rc, s, s', act, j, f) && ErrStep(s, s', act, j)
  {
    if act.Enqueue? {
      EnqueueFate(rc, s, s', act.i, act.p, act.force, j, f);
    } else if act.Dequeue? {
      DequeueFate(rc, s, s', act.p, act.slot, j, f);
    } else if act.Produce? {
      ProduceFate(rc, s, s', act.i, j, f);
    } else {
      OtherFate(rc, s, s', act, j, f);
    }
  }

  // ------------------------------------------------------------------
  // Runs
  // ------------------------------------------------------------------

  lemma RunByInv(rc: RingConfig, run: seq<State>, acts: seq<Act>, n: nat)
    requires IsRunBy(rc, run, acts) && n < |run|
    ensures IsRun(rc, run) && PI.Inv(rc, run[n])
  {
    forall i | 0 <= i < |run| - 1 ensures Follows(rc, run[i], run[i + 1]) {
      assert Next(rc, run[i], run[i + 1], acts[i]);
    }
    PipelineTheorems.RunInv(rc, run, n);
  }

  lemma StepAt(rc: RingConfig, run: seq<State>, acts: seq<Act>, m: nat, j: nat, f: Fate)
    requires IsRunBy(rc, run, acts) && m < |acts| && IsReason(f)
    ensures QueryStep(rc, run[m], run[m + 1], acts[m], j, f) && ErrStep(run[m], run[m + 1], acts[m], j)
  {
    RunByInv(rc, run, acts, m);
    NextFate(rc, run[m], run[m + 1], acts[m], j, f);
  }

  /** What holds from the first step on that brings it about. */
  lemma {:induction false} SinceFirst(holds: seq<bool>, brings: seq<bool>, n: nat)
    requires |holds| == |brings| + 1 && n < |holds| && !holds[0]
    requires forall m | 0 <= m < |brings| :: holds[m + 1] <==> holds[m] || brings[m]
    ensures holds[n] <==> exists m :: 0 <= m < n && brings[m]
  {
    if n > 0 {
      SinceFirst(holds, brings, n - 1);
      var m := n - 1;
      assert holds[m + 1] <==> holds[m] || brings[m];
    }
  }

  /** The query of the j-th event ends with a reason exactly if the interner has
      met that reason while it had this event in hand. */
  lemma QueryFateExact(rc: RingConfig, run: seq<State>, acts: seq<Act>, n: nat, j: nat, f: Fate)
    requires IsRunBy(rc, run, acts) && n < |run| && IsReason(f)
    ensures QueryIs(rc, run[n].k.published, HandOf(run[n]), j, f) <==>
            exists m :: 0 <= m < n && QueryMeets(rc, run[m], acts[m], j, f)
  {
    var holds := seq(|run|, m requires 0 <= m < |run| => QueryIs(rc, run[m].k.published, HandOf(run[m]), j, f));
    var brings := seq(|acts|, m requires 0 <= m < |acts| => QueryMeets(rc, run[m], acts[m], j, f));
    forall m | 0 <= m < |acts| ensures holds[m + 1] <==> holds[m] || brings[m] { StepAt(rc, run, acts, m, j, f); }
    SinceFirst(holds, brings, n);
    assert forall m | 0 <= m < n :: brings[m] <==> QueryMeets(rc, run[m], acts[m], j, f);
  }

  /** The same for the error string: no memory was given for it. */
  lemma ErrFateExact(rc: RingConfig, run: seq<State>, acts: seq<Act>, n: nat, j: nat)
    requires IsRunBy(rc, run, acts) && n < |run|
    ensures ErrIs(run[n].k.published, HandOf(run[n]), j, OutOfMemory) <==>
            exists m :: 0 <= m < n && ErrMeets(run[m], acts[m], j)
  {
    var holds := seq(|run|, m requires 0 <= m < |run| => ErrIs(run[m].k.published, HandOf(run[m]), j, OutOfMemory));
    var brings := seq(|acts|, m requires 0 <= m < |acts| => ErrMeets(run[m], acts[m], j));
    forall m | 0 <= m < |acts| ensures holds[m + 1] <==> holds[m] || brings[m] {
      StepAt(rc, run, acts, m, j, OutOfMemory);
    }
    SinceFirst(holds, brings, n);
    assert forall m | 0 <= m < n :: brings[m] <==> ErrMeets(run[m], acts[m], j);
  }

  /** The interner met a reason with the query of the j-th event. */
  ghost predicate QueryMissed(rc: RingConfig, run: seq<State>, acts: seq<Act>, n: nat, j: nat)
    requires |run| == |acts| + 1 && n < |run|
  {
    exists m :: 0 <= m < n &&
                (QueryMeets(rc, run[m], acts[m], j, OutOfMemory) || QueryMeets(rc, run[m], acts[m], j, Collision))
  }

  ghost predicate ErrMissed(run: seq<State>, acts: seq<Act>, n: nat, j: nat)
    requires |run| == |acts| + 1 && n < |run|
  {
    exists m :: 0 <= m < n && ErrMeets(run[m], acts[m], j)
  }

  /** The j-th event is delivered with its fixed fields and its own clamped texts.
      Its error string is empty instead exactly if the allocator gave no memory
      for it; its query exactly if the allocator gave none or another text was
      tabled under its key when the interner compared. */
  lemma DeliveredExact(rc: RingConfig, run: seq<State>, acts: seq<Act>, n: nat, j: nat)
    requires IsRunBy(rc, run, acts) && n < |run| && j < |run[n].k.delivered|
    ensures j < |run[n].k.published|
    ensures var got, ev := run[n].k.delivered[j], run[n].k.published[j].ev;
            && got.fixed == ev.fixed
            && got.err == (if ErrMissed(run, acts, n, j) then "" else Clamp(ev.err))
            && got.query == (if QueryMissed(rc, run, acts, n, j) then "" else Clamp(ev.query))
  {
    RunByInv(rc, run, acts, n);
    PipelineTheorems.Delivery(rc, run, n, j);
    ErrFateExact(rc, run, acts, n, j);
    QueryFateExact(rc, run, acts, n, j, OutOfMemory);
    QueryFateExact(rc, run, acts, n, j, Collision);
  }
}
