/** When events are lost: exactly when an error ends a call that has events left,
    and what those are. */
module PipelineLosses {
  import opened Events
  import TextStore
  import opened Ring
  import opened Pipeline
  import opened PipelineInvariant
  import PipelineProofs

  // ------------------------------------------------------------------
  // Steps that lose events
  // ------------------------------------------------------------------

  /** An error takes producer i out of its call. Its local batch was not
      initialised yet and it is back at rest; or it has counted the first overflow
      since the flag was clear, events are left, and it is at the end of its call. */
  predicate Abandons(s: State, s': State, i: nat)
  {
    && i < |s.procs| == |s'.procs|
    && var at, next := s.procs[i].at, s'.procs[i].at;
       || (at.Contended? && !s.procs[i].ready && next.Rest?)
       || (&& Flagging(at) && Remaining(at) != [] && !s.overflowLogged
           && next == if at.FastFlag? then Rest else Unlock(None))
  }

  ghost predicate Loses(s: State, s': State)
  {
    exists i: nat :: Abandons(s, s', i)
  }

  /** The lost events grow, and only in a step that abandons a call. */
  ghost predicate LostGrow(s: State, s': State)
  {
    s.tally.lost <= s'.tally.lost && (s'.tally.lost != s.tally.lost <==> Loses(s, s'))
  }

  /** At most producer i moves. */
  predicate OnlyMoves(s: State, s': State, i: nat)
  {
    |s'.procs| == |s.procs| && forall j | 0 <= j < |s.procs| && j != i :: s'.procs[j] == s.procs[j]
  }

  lemma NoneAbandons(s: State, s': State, i: nat)
    requires OnlyMoves(s, s', i) && !Abandons(s, s', i)
    ensures !Loses(s, s')
  {
  }

  lemma OutsideKeeps(rc: RingConfig, s: State, s': State, i: nat)
    requires i < |s.procs| && OutsideStep(rc, s, s', i)
    ensures s'.tally.lost == s.tally.lost && OnlyMoves(s, s', i) && !Abandons(s, s', i)
  {
  }

  lemma LockedKeeps(rc: RingConfig, s: State, s': State, i: nat, p: TextStore.Ptr, force: bool)
    requires Next(rc, s, s', Enqueue(i, p, force))
    ensures s'.tally.lost == s.tally.lost && OnlyMoves(s, s', i) && !Abandons(s, s', i)
  {
  }

  lemma FlagKeeps(rc: RingConfig, s: State, s': State, i: nat)
    requires Next(rc, s, s', Flag(i))
    ensures s'.tally.lost == s.tally.lost && OnlyMoves(s, s', i) && !Abandons(s, s', i)
  {
  }

  lemma ThrowLoses(rc: RingConfig, s: State, s': State, i: nat)
    requires Next(rc, s, s', Throw(i))
    ensures LostGrow(s, s')
  {
    if Remaining(s.procs[i].at) != [] {
      assert Abandons(s, s', i);
    } else {
      assert s.tally.lost + [] == s.tally.lost;
      NoneAbandons(s, s', i);
    }
  }

  lemma InitFailsLoses(rc: RingConfig, s: State, s': State, i: nat)
    requires Next(rc, s, s', InitFails(i))
    ensures LostGrow(s, s')
  {
    assert Abandons(s, s', i);
  }

  lemma OthersKeep(rc: RingConfig, s: State, s': State, act: Act)
    requires Next(rc, s, s', act)
    requires !(act.Produce? || act.Enqueue? || act.Flag? || act.Throw? || act.InitFails?)
    ensures LostGrow(s, s')
  {
    var i := if act.Offer? || act.TransactionEnd? then act.i else 0;
    assert OnlyMoves(s, s', i) && !Abandons(s, s', i);
    NoneAbandons(s, s', i);
  }

  lemma ProduceLoses(rc: RingConfig, s: State, s': State, i: nat)
    requires Next(rc, s, s', Produce(i))
    ensures LostGrow(s, s')
  {
    OutsideKeeps(rc, s, s', i);
    NoneAbandons(s, s', i);
  }

  lemma EnqueueLoses(rc: RingConfig, s: State, s': State, i: nat, p: TextStore.Ptr, force: bool)
    requires Next(rc, s, s', Enqueue(i, p, force))
    ensures LostGrow(s, s')
  {
    LockedKeeps(rc, s, s', i, p, force);
    NoneAbandons(s, s', i);
  }

  lemma FlagLoses(rc: RingConfig, s: State, s': State, i: nat)
    requires Next(rc, s, s', Flag(i))
    ensures LostGrow(s, s')
  {
    FlagKeeps(rc, s, s', i);
    NoneAbandons(s, s', i);
  }

  lemma ErrorLoses(rc: RingConfig, s: State, s': State, act: Act)
    requires Next(rc, s, s', act) && (act.Flag? || act.Throw? || act.InitFails?)
    ensures LostGrow(s, s')
  {
    if act.Flag? { FlagLoses(rc, s, s', act.i); }
    else if act.Throw? { ThrowLoses(rc, s, s', act.i); }
    else { InitFailsLoses(rc, s, s', act.i); }
  }

  lemma NextLost(rc: RingConfig, s: State, s': State, act: Act)
    requires Next(rc, s, s', act)
    ensures LostGrow(s, s')
  {
    if act.Produce? { ProduceLoses(rc, s, s', act.i); }
    else if act.Enqueue? { EnqueueLoses(rc, s, s', act.i, act.p, act.force); }
    else if act.Flag? || act.Throw? || act.InitFails? { ErrorLoses(rc, s, s', act); }
    else { OthersKeep(rc, s, s', act); }
  }

  /** No event is lost exactly as long as no error takes a producer out of a call
      with events left. */
  lemma NothingLost(rc: RingConfig, run: seq<State>, n: nat)
    requires IsRun(rc, run) && n < |run|
    ensures run[n].tally.lost == [] <==> forall k | 0 <= k < n :: !Loses(run[k], run[k + 1])
  {
    forall k | 0 <= k < |run| - 1 ensures LostGrow(run[k], run[k + 1]) {
      assert Follows(rc, run[k], run[k + 1]);
      var act: Act :| Next(rc, run[k], run[k + 1], act);
      NextLost(rc, run[k], run[k + 1], act);
    }
    LostAlong(run, n);
  }

  lemma {:induction false} LostAlong(run: seq<State>, n: nat)
    requires n < |run| && run[0].tally.lost == [] && forall k | 0 <= k < |run| - 1 :: LostGrow(run[k], run[k + 1])
    ensures run[n].tally.lost == [] <==> forall k | 0 <= k < n :: !Loses(run[k], run[k + 1])
  {
    if n > 0 {
      LostAlong(run, n - 1);
      var m := n - 1;
      assert LostGrow(run[m], run[m + 1]) && run[m + 1] == run[n];
    }
  }

  // ------------------------------------------------------------------
  // What a flush loses
  // ------------------------------------------------------------------

  /** The flush of a batch, j of whose events are dealt with. */
  predicate InFlush(at: Point, batch: seq<Event>, pending: Option<Event>, j: nat)
  {
    j <= |batch| &&
    match at
    case FastHead(job) => j == 0 && job == Many(batch, pending)
    case FastTail(job, _, _, _) => j == 0 && job == Many(batch, pending)
    case FastDrop(todo, p) => todo == batch[j..] && p == pending
    case FastFlag(todo, p) => j > 0 && todo == batch[j..] && p == pending
    case WaitLock(todo, p) => j == 0 && todo == batch && p == pending
    case Holding(_, todo, p) => j > 0 && todo == batch[j..] && p == pending
    case LockedFlag(todo, p) => j > 0 && todo == batch[j..] && p == pending
    case Unlock(p) => j == |batch| && p == pending
    case StoreLocal(ev) => j == |batch| && pending == Some(ev)
    case _ => false
  }

  ghost predicate Flushing(at: Point, batch: seq<Event>, pending: Option<Event>)
  {
    exists j: nat :: InFlush(at, batch, pending, j)
  }

  lemma NextInFlush(batch: seq<Event>, pending: Option<Event>, j: nat)
    requires j <= |batch|
    ensures Flushing(NextLocked(batch[j..], pending), batch, pending)
  {
    if j < |batch| {
      assert batch[j..][1..] == batch[j + 1..];
      assert InFlush(NextLocked(batch[j..], pending), batch, pending, j + 1);
    } else {
      assert InFlush(Unlock(pending), batch, pending, |batch|);
    }
  }

  lemma CheckFlushes(rc: RingConfig, s: State, s': State, i: nat, batch: seq<Event>, pending: Option<Event>)
    requires i < |s.procs| && OutsideStep(rc, s, s', i) && (s.procs[i].at.FastHead? || s.procs[i].at.FastTail?)
    requires InFlush(s.procs[i].at, batch, pending, 0)
    ensures InFlush(s'.procs[i].at, batch, pending, 0)
  {
    assert batch[0..] == batch;
  }

  lemma DropFlushes(rc: RingConfig, s: State, s': State, i: nat, batch: seq<Event>, pending: Option<Event>, j: nat)
    requires i < |s.procs| && OutsideStep(rc, s, s', i) && s.procs[i].at.FastDrop?
    requires InFlush(s.procs[i].at, batch, pending, j) && !s'.procs[i].at.Rest?
    ensures InFlush(s'.procs[i].at, batch, pending, if j < |batch| then j + 1 else j)
  {
    if j < |batch| { assert batch[j..][1..] == batch[j + 1..]; }
  }

  lemma OutsideFlushes(rc: RingConfig, s: State, s': State, i: nat, batch: seq<Event>, pending: Option<Event>, j: nat)
    requires i < |s.procs| && OutsideStep(rc, s, s', i) && InFlush(s.procs[i].at, batch, pending, j) && !s'.procs[i].at.Rest?
    ensures Flushing(s'.procs[i].at, batch, pending)
  {
    var at := s.procs[i].at;
    if at.FastHead? || at.FastTail? {
      CheckFlushes(rc, s, s', i, batch, pending);
    } else if at.FastDrop? {
      DropFlushes(rc, s, s', i, batch, pending, j);
    } else if at.WaitLock? {
      assert batch[0..] == batch;
      NextInFlush(batch, pending, 0);
    } else if at.Unlock? {
      assert InFlush(s'.procs[i].at, batch, pending, j);
    }
  }

  lemma LockedFlushes(rc: RingConfig, s: State, s': State, i: nat, p: TextStore.Ptr, force: bool,
                      batch: seq<Event>, pending: Option<Event>, j: nat)
    requires i < |s.procs| && s.procs[i].at.Holding? && LockedStep(rc, s, s', i, p, force)
    requires InFlush(s.procs[i].at, batch, pending, j)
    ensures i < |s'.procs| && Flushing(s'.procs[i].at, batch, pending)
  {
    var w := s.procs[i].at.w;
    if w.WCount? {
      NextInFlush(batch, pending, j);
    } else if w.WOverflow? {
      assert InFlush(LockedFlag(batch[j..], pending), batch, pending, j);
    } else {
      PipelineProofs.WriterMoves(rc, s, s', i, p, force);
      assert InFlush(Holding(s'.procs[i].at.w, batch[j..], pending), batch, pending, j);
    }
  }

  lemma FlagFlushes(rc: RingConfig, s: State, s': State, i: nat, batch: seq<Event>, pending: Option<Event>, j: nat)
    requires Next(rc, s, s', Flag(i)) && InFlush(s.procs[i].at, batch, pending, j)
    ensures Flushing(s'.procs[i].at, batch, pending)
  {
    if s.procs[i].at.LockedFlag? { NextInFlush(batch, pending, j); }
    else { assert InFlush(s'.procs[i].at, batch, pending, j); }
  }

  lemma QuietMoves(rc: RingConfig, s: State, s': State, act: Act, i: nat)
    requires Next(rc, s, s', act) && i < |s.procs| && !s.procs[i].at.Rest? && !s.procs[i].at.Contended?
    requires !(act.Produce? || act.Enqueue?) && act != Flag(i) && act != Throw(i)
    ensures |s'.procs| == |s.procs| && s'.procs[i] == s.procs[i]
  {
  }

  /** No other step concerns a producer in a flush. */
  lemma OthersFlush(rc: RingConfig, s: State, s': State, act: Act, i: nat)
    requires Next(rc, s, s', act) && i < |s.procs| && !s.procs[i].at.Rest? && !s.procs[i].at.Contended?
    requires act != Produce(i) && act != Flag(i) && act != Throw(i) && !(act.Enqueue? && act.i == i)
    ensures |s'.procs| == |s.procs| && s'.procs[i] == s.procs[i]
  {
    if act.Produce? { OutsideKeeps(rc, s, s', act.i); }
    else if act.Enqueue? { LockedKeeps(rc, s, s', act.i, act.p, act.force); }
    else { QuietMoves(rc, s, s', act, i); }
  }

  lemma FlushStep(rc: RingConfig, s: State, s': State, act: Act, i: nat, batch: seq<Event>, pending: Option<Event>)
    requires Next(rc, s, s', act) && act != Throw(i) && i < |s.procs| && i < |s'.procs|
    requires Flushing(s.procs[i].at, batch, pending) && !s'.procs[i].at.Rest?
    ensures Flushing(s'.procs[i].at, batch, pending)
  {
    var j: nat :| InFlush(s.procs[i].at, batch, pending, j);
    if act == Produce(i) { OutsideFlushes(rc, s, s', i, batch, pending, j); }
    else if act == Flag(i) { FlagFlushes(rc, s, s', i, batch, pending, j); }
    else if act.Enqueue? && act.i == i { LockedFlushes(rc, s, s', i, act.p, act.force, batch, pending, j); }
    else { OthersFlush(rc, s, s', act, i); }
  }

  /** A stretch of a run in which producer i flushes a batch until its overflow
      warning throws. */
  ghost predicate IsAbandonedFlush(rc: RingConfig, states: seq<State>, acts: seq<Act>, i: nat,
                                   batch: seq<Event>, pending: Option<Event>)
  {
    && |states| == |acts| + 1 && |acts| > 0 && acts[|acts| - 1] == Throw(i)
    && (forall k | 0 <= k < |acts| :: Next(rc, states[k], states[k + 1], acts[k]))
    && (forall k | 0 <= k < |acts| - 1 :: acts[k] != Throw(i))
    && (forall k | 0 <= k < |states| :: i < |states[k].procs|)
    && (forall k | 0 <= k < |acts| :: !states[k].procs[i].at.Rest?)
    && states[0].procs[i].at == FastHead(Many(batch, pending))
  }

  /** A step that does not end the flush keeps producer i in it. */
  ghost predicate Keeps(s: State, s': State, i: nat, batch: seq<Event>, pending: Option<Event>)
  {
    && i < |s.procs| && i < |s'.procs|
    && (Flushing(s.procs[i].at, batch, pending) && !s'.procs[i].at.Rest? ==> Flushing(s'.procs[i].at, batch, pending))
  }

  lemma {:induction false} FlushAlong(states: seq<State>, i: nat, batch: seq<Event>, pending: Option<Event>, k: nat)
    requires k < |states| && forall m | 0 <= m < k :: Keeps(states[m], states[m + 1], i, batch, pending)
    requires forall m | 0 <= m <= k :: i < |states[m].procs| && !states[m].procs[i].at.Rest?
    requires states[0].procs[i].at == FastHead(Many(batch, pending))
    ensures Flushing(states[k].procs[i].at, batch, pending)
  {
    if k == 0 {
      assert InFlush(states[0].procs[i].at, batch, pending, 0);
    } else {
      var m := k - 1;
      FlushAlong(states, i, batch, pending, m);
      assert Keeps(states[m], states[m + 1], i, batch, pending) && !states[k].procs[i].at.Rest?;
    }
  }

  lemma KeptThroughout(rc: RingConfig, states: seq<State>, acts: seq<Act>, i: nat,
                       batch: seq<Event>, pending: Option<Event>, m: nat)
    requires IsAbandonedFlush(rc, states, acts, i, batch, pending) && m < |acts| - 1
    ensures Keeps(states[m], states[m + 1], i, batch, pending)
  {
    assert Next(rc, states[m], states[m + 1], acts[m]) && i < |states[m].procs| && i < |states[m + 1].procs|;
    if Flushing(states[m].procs[i].at, batch, pending) && !states[m + 1].procs[i].at.Rest? {
      FlushStep(rc, states[m], states[m + 1], acts[m], i, batch, pending);
    }
  }

  /** An abandoned flush loses the batch after the event whose drop was the first
      to be logged, and the pending event. */
  lemma FlushLoses(rc: RingConfig, states: seq<State>, acts: seq<Act>, i: nat, batch: seq<Event>, pending: Option<Event>)
    requires IsAbandonedFlush(rc, states, acts, i, batch, pending)
    ensures var s, s' := states[|acts| - 1], states[|acts|];
            && !s.overflowLogged && s'.overflowLogged
            && exists j: nat :: 0 < j <= |batch| && s'.tally.lost == s.tally.lost + (batch[j..] + Maybe(pending))
  {
    var n := |acts| - 1;
    forall m | 0 <= m < n ensures Keeps(states[m], states[m + 1], i, batch, pending) {
      KeptThroughout(rc, states, acts, i, batch, pending, m);
    }
    FlushAlong(states, i, batch, pending, n);
    assert Next(rc, states[n], states[n + 1], acts[n]);
    var j: nat :| InFlush(states[n].procs[i].at, batch, pending, j);
    assert Remaining(states[n].procs[i].at) == batch[j..] + Maybe(pending);
  }
}
