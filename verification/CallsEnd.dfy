/** No call of a producer goes on for ever: from its start it takes a bounded number
    of steps of its own, whatever the other processes do in between. */
module CallsEnd {
  import opened Events
  import TextStore
  import Reasons = TextStoreReasons
  import opened Ring
  import RingInvariant
  import RingProofs
  import opened Pipeline
  import PI = PipelineInvariant
  import PipelineTheorems
  import PipelineFates
  import ProducerCalls

  // ------------------------------------------------------------------
  // A bound on the steps that are left
  // ------------------------------------------------------------------

  /** Steps of TryEnqueueLocked, x being the writer's client in the interner. */
  function WriterLeft(w: Writer, x: TextStore.Client): nat
  {
    match w
    case WHead(_) => 30
    case WTail(_, _) => 29
    case WFixed(_, _) => 28
    case WAlloc(_, _) => 27
    case WStoreErr(_, _, _, _) => 26
    case WQuery(_, _, _) => 25
    case WIntern(_, _, _) => 10 + Reasons.StepsLeft(x)
    case WPublish(_, _, _, _) => 3
    case WOverflow(_) => 2
    case WCount(_) => 2
  }

  function Base(pending: Option<Event>): nat
  {
    if pending.Some? then 1 else 0
  }

  /** Steps of a producer until it is at rest. */
  function StepsOf(p: Producer, x: TextStore.Client): nat
  {
    match p.at
    case Rest => 0
    case FastHead(job) => if job.One? then 43 + 40 * |p.batch| else Base(job.pending) + 5 + 40 * |job.evs|
    case FastTail(job, _, _, _) => if job.One? then 42 + 40 * |p.batch| else Base(job.pending) + 4 + 40 * |job.evs|
    case FastDrop(todo, pending) => Base(pending) + 1 + 2 * |todo|
    case FastFlag(todo, pending) => Base(pending) + 2 + 2 * |todo|
    case TryLock(_) => 41 + 40 * |p.batch|
    case WaitLock(todo, pending) => Base(pending) + 3 + 40 * |todo|
    case Holding(w, todo, pending) => Base(pending) + 2 + 40 * |todo| + WriterLeft(w, x)
    case LockedFlag(todo, pending) => Base(pending) + 3 + 40 * |todo|
    case Unlock(pending) => Base(pending) + 1
    case Contended(_) => 8 + 40 * |p.batch|
    case Flush(pending) => Base(pending) + 6 + 40 * |p.batch|
    case StoreLocal(_) => 1
  }

  function ClientOf(s: State, i: nat): TextStore.Client
  {
    if i < |s.k.store.clients| then s.k.store.clients[i] else TextStore.Idle
  }

  function LeftFor(s: State, i: nat): nat
    requires i < |s.procs|
  {
    StepsOf(s.procs[i], ClientOf(s, i))
  }

  lemma NextSteps(todo: seq<Event>, pending: Option<Event>, batch: seq<Event>, ready: bool, x: TextStore.Client)
    ensures StepsOf(Producer(batch, NextLocked(todo, pending), ready), x) < Base(pending) + 3 + 40 * |todo|
  {
  }

  // ------------------------------------------------------------------
  // Own steps
  // ------------------------------------------------------------------

  lemma QueueEnds(rc: RingConfig, s: State, s': State, i: nat)
    requires i < |s.procs| && OutsideStep(rc, s, s', i)
    requires var at := s.procs[i].at; at.FastHead? || at.FastTail? || at.FastDrop?
    ensures i < |s'.procs| && LeftFor(s', i) < LeftFor(s, i)
  {
  }

  lemma BatchEnds(rc: RingConfig, s: State, s': State, i: nat)
    requires i < |s.procs| && OutsideStep(rc, s, s', i)
    requires var at := s.procs[i].at; at.Contended? || at.Flush? || at.StoreLocal?
    ensures i < |s'.procs| && LeftFor(s', i) < LeftFor(s, i)
  {
  }

  lemma LockEnds(rc: RingConfig, s: State, s': State, i: nat)
    requires i < |s.procs| && OutsideStep(rc, s, s', i)
    requires var at := s.procs[i].at; at.TryLock? || at.WaitLock? || at.Unlock?
    ensures i < |s'.procs| && LeftFor(s', i) < LeftFor(s, i)
  {
    var at := s.procs[i].at;
    if at.WaitLock? { NextSteps(at.todo, at.pending, s.procs[i].batch, s.procs[i].ready, ClientOf(s', i)); }
  }

  lemma OutsideEnds(rc: RingConfig, s: State, s': State, i: nat)
    requires i < |s.procs| && OutsideStep(rc, s, s', i)
    ensures i < |s'.procs| && LeftFor(s', i) < LeftFor(s, i)
  {
    match s.procs[i].at {
      case FastHead(_) => QueueEnds(rc, s, s', i);
      case FastTail(_, _, _, _) => QueueEnds(rc, s, s', i);
      case FastDrop(_, _) => QueueEnds(rc, s, s', i);
      case Contended(_) => BatchEnds(rc, s, s', i);
      case Flush(_) => BatchEnds(rc, s, s', i);
      case StoreLocal(_) => BatchEnds(rc, s, s', i);
      case TryLock(_) => LockEnds(rc, s, s', i);
      case WaitLock(_, _) => LockEnds(rc, s, s', i);
      case Unlock(_) => LockEnds(rc, s, s', i);
      case _ =>
    }
  }

  /** The writer's client is as far as the writer. */
  lemma WriterEnds(rc: RingConfig, k: Core, k': Core, c: nat, w: Writer, w': Writer, p: TextStore.Ptr, force: bool)
    requires WriterStep(rc, k, k', c, w, w', p, force) && c < |k.store.clients|
    ensures c < |k'.store.clients| && WriterLeft(w', k'.store.clients[c]) < WriterLeft(w, k.store.clients[c])
  {
    if w.WIntern? && !k.store.clients[c].AcqDone? { Reasons.RunEnds(rc.store, k.store, c, p); }
  }

  lemma CountEnds(rc: RingConfig, s: State, s': State, i: nat, p: TextStore.Ptr, force: bool)
    requires i < |s.procs| && s.procs[i].at.Holding? && LockedStep(rc, s, s', i, p, force)
    requires s.procs[i].at.w.WCount? || s.procs[i].at.w.WOverflow?
    ensures i < |s'.procs| && LeftFor(s', i) < LeftFor(s, i)
  {
    var at := s.procs[i].at;
    if at.w.WCount? { NextSteps(at.todo, at.pending, s.procs[i].batch, s.procs[i].ready, ClientOf(s', i)); }
  }

  lemma LockedEnds(rc: RingConfig, s: State, s': State, i: nat, p: TextStore.Ptr, force: bool)
    requires i < |s.procs| && s.procs[i].at.Holding? && LockedStep(rc, s, s', i, p, force) && i < |s.k.store.clients|
    ensures i < |s'.procs| && LeftFor(s', i) < LeftFor(s, i)
  {
    var at := s.procs[i].at;
    if at.w.WCount? || at.w.WOverflow? { CountEnds(rc, s, s', i, p, force); }
    else { WriterEnds(rc, s.k, s'.k, i, at.w, s'.procs[i].at.w, p, force); }
  }

  lemma ErrorEnds(rc: RingConfig, s: State, s': State, act: Act, i: nat)
    requires Next(rc, s, s', act) && (act == Flag(i) || act == Throw(i) || act == InitFails(i))
    ensures i < |s'.procs| && LeftFor(s', i) < LeftFor(s, i)
  {
    if act.Flag? {
      var at := s.procs[i].at;
      NextSteps(at.todo, at.pending, s.procs[i].batch, s.procs[i].ready, ClientOf(s', i));
    }
  }

  /** A step inside a call of producer i. */
  predicate IsStep(act: Act, i: nat)
  {
    (act.Produce? || act.Enqueue? || act.Flag? || act.Throw? || act.InitFails?) && act.i == i
  }

  lemma OwnEnds(rc: RingConfig, s: State, s': State, act: Act, i: nat)
    requires PI.Inv(rc, s) && Next(rc, s, s', act) && IsStep(act, i)
    ensures i < |s.procs| && i < |s'.procs| && LeftFor(s', i) < LeftFor(s, i)
  {
    if act.Produce? { OutsideEnds(rc, s, s', i); }
    else if act.Enqueue? {
      PipelineFates.WriterAt(rc, s, i);
      LockedEnds(rc, s, s', i, act.p, act.force);
    } else { ErrorEnds(rc, s, s', act, i); }
  }

  // ------------------------------------------------------------------
  // Other processes' steps
  // ------------------------------------------------------------------

  lemma DequeueKeeps(rc: RingConfig, s: State, s': State, i: nat, p: TextStore.Ptr, slot: Slot)
    requires PI.Inv(rc, s) && Next(rc, s, s', Dequeue(p, slot)) && i < |s.procs| && s.procs[i].at.Holding?
    ensures ClientOf(s', i) == ClientOf(s, i)
  {
    PipelineFates.WriterAt(rc, s, i);
    RingProofs.Get(rc, PI.ViewOf(s), RingInvariant.Interning);
    PipelineFates.ReaderKeepsOthers(rc, s.k, s'.k, s.reader, s'.reader, p, slot, i);
  }

  /** The client of a producer inside the interner moves with that producer only. */
  lemma ClientKept(rc: RingConfig, s: State, s': State, act: Act, i: nat)
    requires PI.Inv(rc, s) && Next(rc, s, s', act) && !ProducerCalls.Moves(act, i)
    requires i < |s.procs| && s.procs[i].at.Holding?
    ensures ClientOf(s', i) == ClientOf(s, i)
  {
    if act.Enqueue? {
      PipelineFates.WriterAt(rc, s, i);
      PipelineFates.WriterAt(rc, s, act.i);
    } else if act.Dequeue? {
      DequeueKeeps(rc, s, s', i, act.p, act.slot);
    } else if act.Produce? {
      ProducerCalls.OutsideHistories(rc, s, s', act.i);
    } else {
      StoreKept(rc, s, s', act);
    }
  }

  lemma StoreKept(rc: RingConfig, s: State, s': State, act: Act)
    requires Next(rc, s, s', act) && !act.Produce? && !act.Enqueue? && !act.Dequeue?
    ensures s'.k == s.k
  {
  }

  lemma SameLeft(s: State, s': State, i: nat)
    requires i < |s.procs| && i < |s'.procs| && s'.procs[i] == s.procs[i]
    requires s.procs[i].at.Holding? ==> ClientOf(s', i) == ClientOf(s, i)
    ensures LeftFor(s', i) == LeftFor(s, i)
  {
  }

  lemma OthersEnd(rc: RingConfig, s: State, s': State, act: Act, i: nat)
    requires PI.Inv(rc, s) && Next(rc, s, s', act) && !ProducerCalls.Moves(act, i) && i < |s.procs|
    ensures i < |s'.procs| && LeftFor(s', i) == LeftFor(s, i)
  {
    ProducerCalls.OthersStay(rc, s, s', act);
    if s.procs[i].at.Holding? { ClientKept(rc, s, s', act, i); }
    SameLeft(s, s', i);
  }

  // ------------------------------------------------------------------
  // Runs
  // ------------------------------------------------------------------

  /** The steps of producer i among the acts from the m-th on. */
  function OwnCount(acts: seq<Act>, i: nat, m: nat, n: nat): nat
    requires m <= n <= |acts|
    decreases n
  {
    if n == m then 0 else OwnCount(acts, i, m, n - 1) + if IsStep(acts[n - 1], i) then 1 else 0
  }

  predicate Begins(act: Act, i: nat)
  {
    (act.Offer? || act.TransactionEnd?) && act.i == i
  }

  /** One step uses up at least one of the steps left if it is producer i's. */
  ghost predicate UsesUp(s: State, s': State, act: Act, i: nat)
  {
    i < |s.procs| && i < |s'.procs| && (if IsStep(act, i) then 1 else 0) + LeftFor(s', i) <= LeftFor(s, i)
  }

  lemma StepUsesUp(rc: RingConfig, s: State, s': State, act: Act, i: nat)
    requires PI.Inv(rc, s) && Next(rc, s, s', act) && i < |s.procs| && !Begins(act, i)
    ensures UsesUp(s, s', act, i)
  {
    if IsStep(act, i) { OwnEnds(rc, s, s', act, i); } else { OthersEnd(rc, s, s', act, i); }
  }

  lemma {:induction false} CountsDown(run: seq<State>, acts: seq<Act>, i: nat, m: nat, n: nat)
    requires |run| == |acts| + 1 && m <= n <= |acts| && i < |run[m].procs|
    requires forall j | m <= j < n :: UsesUp(run[j], run[j + 1], acts[j], i)
    ensures i < |run[n].procs| && OwnCount(acts, i, m, n) + LeftFor(run[n], i) <= LeftFor(run[m], i)
  {
    if n > m {
      CountsDown(run, acts, i, m, n - 1);
      var j := n - 1;
      assert UsesUp(run[j], run[j + 1], acts[j], i);
    }
  }

  /** The steps a call can take: the fast path and TryEnqueueLocked for the offered
      event, and TryEnqueueLocked for each event of a full batch. */
  const CALL_STEPS: nat := 43 + 40 * BATCH_CAPACITY

  lemma BeginsWith(rc: RingConfig, s: State, s': State, act: Act, i: nat)
    requires Next(rc, s, s', act) && Begins(act, i) && |s.procs[i].batch| <= BATCH_CAPACITY
    ensures i < |s'.procs| && LeftFor(s', i) <= CALL_STEPS
  {
  }

  /** No call goes on for ever: until its next one, a producer takes at most
      CALL_STEPS steps, in every run and however the other processes interleave. */
  lemma CallEnds(rc: RingConfig, run: seq<State>, acts: seq<Act>, i: nat, m: nat, n: nat)
    requires IsRunBy(rc, run, acts) && m < n <= |acts| && Begins(acts[m], i)
    requires forall j | m < j < n :: !Begins(acts[j], i)
    ensures OwnCount(acts, i, m + 1, n) <= CALL_STEPS
  {
    assert Next(rc, run[m], run[m + 1], acts[m]);
    PipelineFates.RunByInv(rc, run, acts, m);
    PipelineTheorems.BatchFits(rc, run, m, i);
    BeginsWith(rc, run[m], run[m + 1], acts[m], i);
    AllUseUp(rc, run, acts, i, m, n);
    CountsDown(run, acts, i, m + 1, n);
  }

  lemma {:induction false} ProducersStay(rc: RingConfig, run: seq<State>, acts: seq<Act>, j: nat)
    requires IsRunBy(rc, run, acts) && j < |run|
    ensures |run[j].procs| == |run[0].procs|
  {
    if j > 0 {
      ProducersStay(rc, run, acts, j - 1);
      var k := j - 1;
      assert Next(rc, run[k], run[k + 1], acts[k]);
      ProducerCalls.OthersStay(rc, run[k], run[k + 1], acts[k]);
    }
  }

  lemma AllUseUp(rc: RingConfig, run: seq<State>, acts: seq<Act>, i: nat, m: nat, n: nat)
    requires IsRunBy(rc, run, acts) && m < n <= |acts| && i < |run[m].procs|
    requires forall j | m < j < n :: !Begins(acts[j], i)
    ensures forall j | m < j < n :: UsesUp(run[j], run[j + 1], acts[j], i)
  {
    forall j | m < j < n ensures UsesUp(run[j], run[j + 1], acts[j], i) {
      assert Next(rc, run[j], run[j + 1], acts[j]);
      PipelineFates.RunByInv(rc, run, acts, j);
      ProducersStay(rc, run, acts, m);
      ProducersStay(rc, run, acts, j);
      StepUsesUp(rc, run[j], run[j + 1], acts[j], i);
    }
  }
}
