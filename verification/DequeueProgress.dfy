/** PschDequeueEvent answers: it reports an empty queue exactly if the queue was
    empty when it read the head, and otherwise its steps alone deliver the oldest
    event. */
module DequeueProgress {
  import opened RingArithmetic
  import TextStore
  import StoreInv = TextStoreInvariant
  import Reasons = TextStoreReasons
  import opened Ring
  import RingInvariant
  import RingProofs
  import RingTheorems
  import opened Pipeline
  import PI = PipelineInvariant
  import opened PipelineProofs
  import PipelineTheorems
  import opened PipelineFates
  import opened ExportSteps

  // ------------------------------------------------------------------
  // Empty or not
  // ------------------------------------------------------------------

  /** The comparison of head and tail. */
  lemma TailTells(rc: RingConfig, s: State, s': State, p: TextStore.Ptr, slot: Slot)
    requires PI.Inv(rc, s) && Next(rc, s, s', Dequeue(p, slot)) && s.reader.RTail?
    ensures s'.k == s.k && (s'.reader.RIdle? || s'.reader.RFixed?)
    ensures s'.reader.RIdle? <==> s.reader.seen == |s.k.delivered|
  {
    Get(rc, s, PI.RingPart);
    RingProofs.Get(rc, PI.ViewOf(s), RingInvariant.ReaderAt);
    RingProofs.Get(rc, PI.ViewOf(s), RingInvariant.Positions);
    WrappedEqual(s.reader.seen, |s.k.delivered|);
  }

  /** Between its read of the head and its read of the tail, the consumer keeps
      what it saw, and nobody else takes events. */
  ghost predicate Looks(run: seq<State>, acts: seq<Act>, m: nat, n: nat)
    requires |run| == |acts| + 1
  {
    && m < n < |acts| && run[m].reader.RHead? && acts[m].Dequeue? && acts[n].Dequeue?
    && forall k | m < k < n :: !acts[k].Dequeue?
  }

  /** The consumer and what it has delivered are as they were. */
  predicate Rests(s: State, s': State)
  {
    s'.reader == s.reader && s'.k.delivered == s.k.delivered
  }

  lemma OnlyDequeues(rc: RingConfig, s: State, s': State, act: Act)
    requires Next(rc, s, s', act) && !act.Dequeue?
    ensures Rests(s, s')
  {
    NextBooks(rc, s, s', act);
    if act.Produce? { OutsideFrame(rc, s, s', act.i); }
  }

  lemma HeadTells(rc: RingConfig, s: State, s': State, act: Act)
    requires Next(rc, s, s', act) && act.Dequeue? && s.reader.RHead?
    ensures s'.reader == RTail(s.k.head, |s.k.published|) && s'.k.delivered == s.k.delivered
  {
  }

  lemma {:induction false} RestsAlong(run: seq<State>, m: nat, k: nat)
    requires m <= k < |run| && forall j | m <= j < k :: Rests(run[j], run[j + 1])
    ensures Rests(run[m], run[k])
  {
    if m < k {
      RestsAlong(run, m, k - 1);
      var j := k - 1;
      assert Rests(run[j], run[j + 1]);
    }
  }

  lemma LooksOn(rc: RingConfig, run: seq<State>, acts: seq<Act>, m: nat, n: nat)
    requires IsRunBy(rc, run, acts) && Looks(run, acts, m, n)
    ensures run[n].reader == RTail(run[m].k.head, |run[m].k.published|)
    ensures run[n].k.delivered == run[m].k.delivered
  {
    assert Next(rc, run[m], run[m + 1], acts[m]);
    HeadTells(rc, run[m], run[m + 1], acts[m]);
    forall j | m + 1 <= j < n ensures Rests(run[j], run[j + 1]) {
      assert Next(rc, run[j], run[j + 1], acts[j]);
      OnlyDequeues(rc, run[j], run[j + 1], acts[j]);
    }
    RestsAlong(run, m + 1, n);
  }

  /** A dequeue that has read the head in step m and the tail in step n reports an
      empty queue exactly if every event published by step m was delivered. */
  lemma EmptyExact(rc: RingConfig, run: seq<State>, acts: seq<Act>, m: nat, n: nat)
    requires IsRunBy(rc, run, acts) && Looks(run, acts, m, n)
    ensures run[n + 1].reader.RIdle? <==> |run[m].k.published| == |run[m].k.delivered|
    ensures !run[n + 1].reader.RIdle? ==> run[n + 1].reader.RFixed?
  {
    LooksOn(rc, run, acts, m, n);
    RunByInv(rc, run, acts, n);
    assert Next(rc, run[n], run[n + 1], acts[n]);
    TailTells(rc, run[n], run[n + 1], acts[n].p, acts[n].slot);
  }

  // ------------------------------------------------------------------
  // Every step counts
  // ------------------------------------------------------------------

  /** More steps than the consumer takes until it delivers, with n events delivered
      so far; a stale head makes it start over. */
  function StepsToGo(r: Reader, x: TextStore.Client, n: nat): nat
  {
    match r
    case RTail(_, seen) => if seen == n then 30 else 27
    case RIdle => 29
    case RHead => 28
    case RFixed(_) => 26
    case RErr(_, _) => 25
    case RErrCopy(_, _, _, _) => 24
    case RErrFree(_, _, _, _) => 23
    case RQuery(_, _, _) => 22
    case RIntern(_, _, _) => 10 + Reasons.StepsLeft(x)
    case RPublish(_, _) => 1
  }

  function ToGo(rc: RingConfig, s: State): nat
  {
    StepsToGo(s.reader, if rc.reader < |s.k.store.clients| then s.k.store.clients[rc.reader] else TextStore.Idle,
              |s.k.delivered|)
  }

  /** A step of the consumer delivers the oldest event, or brings that nearer. */
  ghost predicate Nearer(rc: RingConfig, s: State, s': State)
  {
    && s'.k.published == s.k.published
    && if s.reader.RPublish?
       then |s.k.delivered| < |s.k.published| && s'.reader.RIdle? &&
            s'.k.delivered == s.k.delivered + [RingInvariant.Outcome(s.k.published[|s.k.delivered|])]
       else s'.k.delivered == s.k.delivered && ToGo(rc, s') < ToGo(rc, s)
  }

  /** The consumer is inside the interner, releasing. */
  lemma ReleasesThere(rc: RingConfig, s: State)
    requires PI.Inv(rc, s) && s.reader.RIntern?
    ensures rc.reader < |s.k.store.clients| && TextStore.Releasing(s.k.store.clients[rc.reader])
    ensures Reasons.StepsLeft(s.k.store.clients[rc.reader]) <= 7
  {
    Get(rc, s, PI.RingPart);
    RingProofs.Get(rc, PI.ViewOf(s), RingInvariant.Interning);
  }

  lemma InternNearer(rc: RingConfig, s: State, s': State, p: TextStore.Ptr, slot: Slot)
    requires PI.Inv(rc, s) && Next(rc, s, s', Dequeue(p, slot)) && s.reader.RIntern?
    ensures Nearer(rc, s, s')
  {
    ReleasesThere(rc, s);
    if !s.k.store.clients[rc.reader].RelDone? { Reasons.RunEnds(rc.store, s.k.store, rc.reader, p); }
  }

  lemma QueryNearer(rc: RingConfig, s: State, s': State, p: TextStore.Ptr, slot: Slot)
    requires PI.Inv(rc, s) && Next(rc, s, s', Dequeue(p, slot)) && s.reader.RQuery?
    ensures Nearer(rc, s, s')
  {
    DequeueInv(rc, s, s', p, slot);
    if s'.reader.RIntern? { ReleasesThere(rc, s'); }
  }

  lemma PublishNearer(rc: RingConfig, s: State, s': State, p: TextStore.Ptr, slot: Slot)
    requires PI.Inv(rc, s) && Next(rc, s, s', Dequeue(p, slot)) && s.reader.RPublish?
    ensures Nearer(rc, s, s')
  {
    Get(rc, s, PI.RingPart);
    RingProofs.Get(rc, PI.ViewOf(s), RingInvariant.ReaderAt);
  }

  lemma ReadNearer(rc: RingConfig, s: State, s': State, p: TextStore.Ptr, slot: Slot)
    requires PI.Inv(rc, s) && Next(rc, s, s', Dequeue(p, slot))
    requires s.reader.RFixed? || s.reader.RErr? || s.reader.RErrCopy? || s.reader.RErrFree?
    ensures Nearer(rc, s, s')
  {
  }

  lemma LookNearer(rc: RingConfig, s: State, s': State, p: TextStore.Ptr, slot: Slot)
    requires PI.Inv(rc, s) && Next(rc, s, s', Dequeue(p, slot)) && |s.k.delivered| < |s.k.published|
    requires s.reader.RIdle? || s.reader.RHead? || s.reader.RTail?
    ensures Nearer(rc, s, s')
  {
    if s.reader.RTail? { TailTells(rc, s, s', p, slot); }
  }

  lemma DequeueNearer(rc: RingConfig, s: State, s': State, p: TextStore.Ptr, slot: Slot)
    requires PI.Inv(rc, s) && Next(rc, s, s', Dequeue(p, slot)) && |s.k.delivered| < |s.k.published|
    ensures Nearer(rc, s, s')
  {
    var r := s.reader;
    if r.RIntern? { InternNearer(rc, s, s', p, slot); }
    else if r.RQuery? { QueryNearer(rc, s, s', p, slot); }
    else if r.RPublish? { PublishNearer(rc, s, s', p, slot); }
    else if r.RIdle? || r.RHead? || r.RTail? { LookNearer(rc, s, s', p, slot); }
    else { ReadNearer(rc, s, s', p, slot); }
  }

  // ------------------------------------------------------------------
  // Every step can be taken
  // ------------------------------------------------------------------

  /** No partition lock is held by anyone but the consumer. */
  predicate Unlocked(rc: RingConfig, st: TextStore.State)
  {
    forall q | q in st.locks :: st.locks[q] == rc.reader
  }

  lemma ReaderNotWaiting(rc: RingConfig, s: State)
    requires PI.Inv(rc, s) && Unlocked(rc, s.k.store) && s.reader.RIntern?
    ensures RingTheorems.NotWaiting(rc, s.k.store, rc.reader)
  {
    var st := s.k.store;
    Get(rc, s, PI.RingPart);
    RingProofs.Get(rc, PI.ViewOf(s), RingInvariant.Interning);
    RingProofs.Get(rc, PI.ViewOf(s), RingInvariant.Store);
    assert StoreInv.Holds(rc.store, st, StoreInv.Profiles(st.clients), StoreInv.Locks);
    forall q | q in st.locks ensures TextStore.Wanted(rc.store, st.clients[rc.reader]).None? {
      assert StoreInv.Profiles(st.clients)[rc.reader] == StoreInv.ProfileOf(st.clients[rc.reader]);
    }
  }

  lemma ReleaseLocks(cfg: TextStore.Config, st: TextStore.State, c: nat, p: TextStore.Ptr)
    requires TextStore.CanStep(cfg, st, c, p) && TextStore.Releasing(st.clients[c])
    ensures var locks := TextStore.ReleaseStep(cfg, st, c, p).locks;
            forall q | q in locks :: locks[q] == c || (q in st.locks && locks[q] == st.locks[q])
  {
    if st.clients[c].RelDrop? { DropRefLocks(st, c, st.clients[c].key, TextStore.ReleaseStep(cfg, st, c, p).clients[c]); }
  }

  lemma DropRefLocks(st: TextStore.State, c: nat, k: TextStore.Key, x: TextStore.Client)
    requires c < |st.clients| && k in st.table && st.table[k].refcount > 0
    ensures TextStore.DropRef(st, c, k, x).locks == st.locks
  {
  }

  lemma StaysUnlocked(rc: RingConfig, s: State, s': State, p: TextStore.Ptr, slot: Slot)
    requires PI.Inv(rc, s) && Next(rc, s, s', Dequeue(p, slot)) && Unlocked(rc, s.k.store)
    ensures Unlocked(rc, s'.k.store)
  {
    if s.reader.RIntern? {
      ReleasesThere(rc, s);
      if !s.k.store.clients[rc.reader].RelDone? { ReleaseLocks(rc.store, s.k.store, rc.reader, p); }
    }
  }

  lemma OneDequeue(rc: RingConfig, s: State) returns (act: Act, s': State)
    requires PI.Inv(rc, s) && Unlocked(rc, s.k.store) && s.out.stage.Draining?
    ensures act.Dequeue? && Next(rc, s, s', act) && s'.out == s.out
    ensures PI.Inv(rc, s') && Unlocked(rc, s'.k.store)
  {
    var v := PI.ViewOf(s);
    Get(rc, s, PI.RingPart);
    PipelineTheorems.StoreNull(rc, v);
    if s.reader.RIntern? { ReaderNotWaiting(rc, s); }
    RingTheorems.ReaderNotStuck(rc, v, TextStore.NULL);
    var k', r', slot :| ReaderStep(rc, s.k, k', s.reader, r', TextStore.NULL, slot);
    act, s' := Dequeue(TextStore.NULL, slot), s.(k := k', reader := r');
    assert Next(rc, s, s', act);
    DequeueInv(rc, s, s', TextStore.NULL, slot);
    StaysUnlocked(rc, s, s', TextStore.NULL, slot);
  }

  // ------------------------------------------------------------------
  // The queue is drained
  // ------------------------------------------------------------------

  predicate AllDequeues(acts: seq<Act>)
  {
    forall k | 0 <= k < |acts| :: acts[k].Dequeue?
  }

  /** s' is s after the given acts, ready for another dequeue. */
  ghost predicate Reaches(rc: RingConfig, s: State, acts: seq<Act>, s': State)
  {
    && Plays(rc, s, acts, s') && s'.k.published == s.k.published
    && PI.Inv(rc, s') && Unlocked(rc, s'.k.store) && s'.out.stage.Draining?
  }

  lemma DequeuesOn(rc: RingConfig, s0: State, acts: seq<Act>, s: State, act: Act, s': State)
    requires Reaches(rc, s0, acts, s) && act.Dequeue? && Next(rc, s, s', act) && s'.out == s.out
    requires s'.k.published == s.k.published && PI.Inv(rc, s') && Unlocked(rc, s'.k.store)
    ensures Reaches(rc, s0, acts + [act], s')
  {
    Play(rc, s0, acts, s, act, s');
  }

  /** One more dequeue step after the given acts. */
  lemma StepsOn(rc: RingConfig, s0: State, acts: seq<Act>, s: State) returns (act: Act, s': State)
    requires Reaches(rc, s0, acts, s) && |s.k.delivered| < |s.k.published|
    ensures act.Dequeue? && Reaches(rc, s0, acts + [act], s') && Nearer(rc, s, s')
  {
    act, s' := OneDequeue(rc, s);
    DequeueNearer(rc, s, s', act.p, act.slot);
    DequeuesOn(rc, s0, acts, s, act, s');
  }

  lemma OneBefore(acts: seq<Act>, act: Act, more: seq<Act>)
    requires act.Dequeue? && AllDequeues(more)
    ensures AllDequeues([act] + more) && acts + [act] + more == acts + ([act] + more)
  {
  }

  /** Dequeues that follow the given acts and deliver exactly one event. */
  lemma DeliversNext(rc: RingConfig, s0: State, acts: seq<Act>, s: State) returns (more: seq<Act>, s': State)
    requires Reaches(rc, s0, acts, s) && |s.k.delivered| < |s.k.published|
    ensures AllDequeues(more) && Reaches(rc, s0, acts + more, s') && s'.reader.RIdle?
    ensures s'.k.delivered == s.k.delivered + [RingInvariant.Outcome(s.k.published[|s.k.delivered|])]
    decreases ToGo(rc, s)
  {
    var act, t := StepsOn(rc, s0, acts, s);
    if s.reader.RPublish? {
      more, s' := [act], t;
    } else {
      more, s' := DeliversNext(rc, s0, acts + [act], t);
      OneBefore(acts, act, more);
      more := [act] + more;
    }
  }

  lemma DeliversAll(rc: RingConfig, s0: State, acts: seq<Act>, s: State) returns (more: seq<Act>, s': State)
    requires Reaches(rc, s0, acts, s) && |s.k.delivered| <= |s.k.published|
    ensures AllDequeues(more) && Reaches(rc, s0, acts + more, s')
    ensures |s'.k.delivered| == |s'.k.published| && s.k.delivered <= s'.k.delivered
    decreases |s.k.published| - |s.k.delivered|
  {
    if |s.k.delivered| == |s.k.published| {
      more, s' := [], s;
      assert acts + [] == acts;
    } else {
      var first, t := DeliversNext(rc, s0, acts, s);
      var rest;
      rest, s' := DeliversAll(rc, s0, acts + first, t);
      more := first + rest;
      assert acts + first + rest == acts + more;
    }
  }

  /** The exporter goes back to dequeueing if it is sending. */
  function Prelude(s: State): seq<Act>
  {
    if s.out.stage.Sending? then [Abandon] else []
  }

  lemma Begins(rc: RingConfig, s: State) returns (t: State)
    requires PI.Inv(rc, s) && Unlocked(rc, s.k.store)
    ensures Reaches(rc, s, Prelude(s), t) && t.k == s.k && t.reader == s.reader
  {
    if s.out.stage.Sending? {
      t := GivenUp(s);
      assert Next(rc, s, t, Abandon);
      Play(rc, s, [], s, Abandon, t);
      assert [] + [Abandon] == [Abandon];
      NextInv(rc, s, t, Abandon);
    } else {
      t := s;
    }
  }

  /** From every state of every run in which an event is queued and no one else
      holds a partition lock, steps of the consumer alone deliver exactly one more
      event, the oldest. */
  lemma NextDelivered(rc: RingConfig, run: seq<State>, n: nat) returns (more: seq<Act>, s': State)
    requires IsRun(rc, run) && n < |run| && Unlocked(rc, run[n].k.store)
    requires |run[n].k.delivered| < |run[n].k.published|
    ensures AllDequeues(more) && Plays(rc, run[n], Prelude(run[n]) + more, s')
    ensures s'.k.published == run[n].k.published
    ensures var k := run[n].k; s'.k.delivered == k.delivered + [RingInvariant.Outcome(k.published[|k.delivered|])]
  {
    PipelineTheorems.RunInv(rc, run, n);
    var t := Begins(rc, run[n]);
    more, s' := DeliversNext(rc, run[n], Prelude(run[n]), t);
  }

  /** Steps of the consumer alone empty the queue. */
  lemma QueueDrains(rc: RingConfig, run: seq<State>, n: nat) returns (more: seq<Act>, s': State)
    requires IsRun(rc, run) && n < |run| && Unlocked(rc, run[n].k.store)
    ensures AllDequeues(more) && Plays(rc, run[n], Prelude(run[n]) + more, s')
    ensures s'.k.published == run[n].k.published && |s'.k.delivered| == |s'.k.published|
    ensures forall j | 0 <= j < |s'.k.delivered| :: s'.k.delivered[j] == RingInvariant.Outcome(s'.k.published[j])
  {
    PipelineTheorems.RunInv(rc, run, n);
    RingPositions(rc, run[n]);
    var t := Begins(rc, run[n]);
    more, s' := DeliversAll(rc, run[n], Prelude(run[n]), t);
    Get(rc, s', PI.RingPart);
    RingProofs.Get(rc, PI.ViewOf(s'), RingInvariant.Delivered);
  }
}
