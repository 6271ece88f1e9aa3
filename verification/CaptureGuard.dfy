/** The re-entrancy guard of one backend, as a call-stack machine.

    A warning or an error raised while an event is being enqueued calls the log
    hook, which would enqueue an event of its own. The guard (the flag
    disable_error_capture) stops that. The machine has one frame for each call
    in progress and one step for each point at which the guard, the lock, the
    overflow flag or the local batch changes, a message is reported, or an
    error is thrown.

    `leaked` is auxiliary: the guard's value outside all calls. */
module CaptureGuard {
  import opened Events

  /** Calls in progress; `saved` is the guard's value to restore.
      Capture: PschEmitLogHook, holding the guard.
      Event...: PschEnqueueEvent at its lock-free check, inside the warning of
      its lock-free HandleOverflow, or inside the lock.
      Add...: PschLocalBatchAdd, from its lazy initialisation to its copy.
      Batch...: PschEnqueueBatch at its lock-free check, in its loop of
      HandleOverflow calls, inside one of their warnings, or inside the lock. */
  datatype Frame =
    | Capture
    | EventFast(saved: bool)
    | EventWarn(saved: bool)
    | EventLocked(saved: bool)
    | AddInit
    | AddCheck
    | AddStore
    | BatchFast(saved: bool, n: nat)
    | BatchDrop(saved: bool, n: nat)
    | BatchWarn(saved: bool, n: nat)
    | BatchLocked(saved: bool)

  datatype Stack = Empty | Push(below: Stack, top: Frame)

  datatype State = State(
    stack: Stack,
    guard: bool,
    lockHeld: bool,
    overflowLogged: bool,
    count: nat,
    leaked: bool)

  datatype Act =
    | BeginEvent
    | EndTransaction(enabled: bool)
    | Report
    | EndCapture
    | CheckEvent(full: bool, acquired: bool)
    | CheckBatch(full: bool)
    | DropNext
    | EndWarning
    | EndLocked
    | Initialised
    | CheckCount(enabled: bool)
    | Copy
    | Throw
    | OthersSetFlag(logged: bool)

  // ------------------------------------------------------------------
  // Steps
  // ------------------------------------------------------------------

  /** Reports may come from user code outside all calls and from these calls. */
  predicate MayReport(stack: Stack)
  {
    stack.Empty? || MayThrow(stack)
  }

  predicate MayThrow(stack: Stack)
  {
    stack.Push? &&
    (stack.top.Capture? || stack.top.EventWarn? || stack.top.EventLocked? || stack.top.AddInit? ||
     stack.top.BatchWarn? || stack.top.BatchLocked?)
  }

  predicate Locked(f: Frame)
  {
    f.EventLocked? || f.BatchLocked?
  }

  /** What an error leaves behind: PG_FINALLY around the locked sections
      restores the guard and the lock, PG_CATCH in the hook swallows the error
      and clears the guard, every other call is abandoned as it is. */
  function Unwind(s: State, stack: Stack): State
    decreases stack
  {
    match stack
    case Empty => s.(stack := Empty, leaked := s.guard)
    case Push(below, Capture) => s.(stack := below, guard := false)
    case Push(below, EventLocked(saved)) => Unwind(s.(guard := saved, lockHeld := false), below)
    case Push(below, BatchLocked(saved)) => Unwind(s.(guard := saved, lockHeld := false), below)
    case Push(below, _) => Unwind(s, below)
  }

  /** PschEnqueueBatch is called with n events, unless capture is disabled. */
  function BeginBatch(s: State, below: Stack, n: nat, enabled: bool): State
  {
    if enabled then s.(stack := Push(below, BatchFast(s.guard, n)), guard := true, count := 0)
    else s.(stack := below, count := 0)
  }

  function Return(s: State, saved: bool): State
    requires s.stack.Push?
  {
    s.(stack := s.stack.below, guard := saved)
  }

  predicate Next(s: State, s': State, act: Act)
  {
    match act
    case BeginEvent =>
      && (s.stack.Empty? || s.stack.top.Capture?)
      && s' == s.(stack := Push(s.stack, EventFast(s.guard)), guard := true)
    case EndTransaction(enabled) =>
      s.stack.Empty? && s.count > 0 && s' == BeginBatch(s, Empty, s.count, enabled)
    case Report =>
      MayReport(s.stack) && s' == if s.guard then s else s.(stack := Push(s.stack, Capture), guard := true)
    case EndCapture =>
      s.stack.Push? && s.stack.top.Capture? && s' == Return(s, false)
    case CheckEvent(full, acquired) =>
      && s.stack.Push? && s.stack.top.EventFast?
      && var saved := s.stack.top.saved;
         s' == if full then
                 (if s.overflowLogged then Return(s, saved)
                  else s.(stack := Push(s.stack.below, EventWarn(saved)), overflowLogged := true))
               else if acquired then s.(stack := Push(s.stack.below, EventLocked(saved)), lockHeld := true)
               else s.(stack := Push(s.stack.below, AddInit), guard := saved)
    case CheckBatch(full) =>
      && s.stack.Push? && s.stack.top.BatchFast?
      && s' == if full then s.(stack := Push(s.stack.below, BatchDrop(s.stack.top.saved, s.stack.top.n)))
               else s.(stack := Push(s.stack.below, BatchLocked(s.stack.top.saved)), lockHeld := true)
    case DropNext =>
      && s.stack.Push? && s.stack.top.BatchDrop?
      && var saved, n := s.stack.top.saved, s.stack.top.n;
         s' == if n == 0 then Return(s, saved)
               else if s.overflowLogged then s.(stack := Push(s.stack.below, BatchDrop(saved, n - 1)))
               else s.(stack := Push(s.stack.below, BatchWarn(saved, n - 1)), overflowLogged := true)
    case EndWarning =>
      && s.stack.Push? && (s.stack.top.EventWarn? || s.stack.top.BatchWarn?)
      && s' == if s.stack.top.EventWarn? then Return(s, s.stack.top.saved)
               else s.(stack := Push(s.stack.below, BatchDrop(s.stack.top.saved, s.stack.top.n)))
    case EndLocked =>
      s.stack.Push? && Locked(s.stack.top) && s' == Return(s, s.stack.top.saved).(lockHeld := false)
    case Initialised =>
      s.stack.Push? && s.stack.top.AddInit? && s' == s.(stack := Push(s.stack.below, AddCheck))
    case CheckCount(enabled) =>
      && s.stack.Push? && s.stack.top.AddCheck?
      && s' == if s.count >= BATCH_CAPACITY then BeginBatch(s, Push(s.stack.below, AddStore), s.count, enabled)
               else s.(stack := Push(s.stack.below, AddStore))
    case Copy =>
      s.stack.Push? && s.stack.top.AddStore? && s' == s.(stack := s.stack.below, count := s.count + 1)
    case Throw => MayThrow(s.stack) && s' == Unwind(s, s.stack)
    case OthersSetFlag(logged) => s' == s.(overflowLogged := logged)
  }

  predicate Init(s: State)
  {
    s.stack == Empty && !s.guard && !s.lockHeld && s.count == 0 && !s.leaked
  }

  ghost predicate Follows(s: State, s': State)
  {
    exists act: Act :: Next(s, s', act)
  }

  ghost predicate IsRun(run: seq<State>)
  {
    |run| > 0 && Init(run[0]) && forall i :: 0 <= i < |run| - 1 ==> Follows(run[i], run[i + 1])
  }

  // ------------------------------------------------------------------
  // Invariant
  // ------------------------------------------------------------------

  /** The guard's value the calls in progress call for. */
  function GuardOf(stack: Stack, leaked: bool): bool
  {
    match stack
    case Empty => leaked
    case Push(below, AddInit) => GuardOf(below, leaked)
    case Push(below, AddCheck) => GuardOf(below, leaked)
    case Push(below, AddStore) => GuardOf(below, leaked)
    case _ => true
  }

  predicate OnTopOf(stack: Stack, f: Frame)
  {
    stack.Empty? || stack.top == f
  }

  /** Which calls can be made from where, and what they saved. */
  predicate Nested(stack: Stack, leaked: bool)
  {
    match stack
    case Empty => true
    case Push(below, Capture) => Nested(below, leaked) && OnTopOf(below, AddInit) && !GuardOf(below, leaked)
    case Push(below, AddInit) => Nested(below, leaked) && OnTopOf(below, Capture)
    case Push(below, AddCheck) => Nested(below, leaked) && OnTopOf(below, Capture)
    case Push(below, AddStore) => Nested(below, leaked) && OnTopOf(below, Capture)
    case Push(below, EventFast(saved)) => Nested(below, leaked) && OnTopOf(below, Capture) && saved == GuardOf(below, leaked)
    case Push(below, EventWarn(saved)) => Nested(below, leaked) && OnTopOf(below, Capture) && saved == GuardOf(below, leaked)
    case Push(below, EventLocked(saved)) => Nested(below, leaked) && OnTopOf(below, Capture) && saved == GuardOf(below, leaked)
    case Push(below, f) => Nested(below, leaked) && OnTopOf(below, AddStore) && f.saved == GuardOf(below, leaked)
  }

  /** The local batch has room for the copy that is due. */
  predicate Room(stack: Stack, count: nat)
  {
    match stack
    case Push(_, AddStore) => count < BATCH_CAPACITY
    case Push(Push(_, AddStore), _) => count == 0
    case _ => count <= BATCH_CAPACITY
  }

  predicate Inv(s: State)
  {
    && Nested(s.stack, s.leaked)
    && s.guard == GuardOf(s.stack, s.leaked)
    && (s.lockHeld <==> s.stack.Push? && Locked(s.stack.top))
    && Room(s.stack, s.count)
  }

  function Captures(stack: Stack): nat
  {
    match stack
    case Empty => 0
    case Push(below, f) => Captures(below) + if f.Capture? then 1 else 0
  }

  /** An error that no locked section or hook stops leaves the guard as it is;
      one that the hook stops leaves it clear. */
  lemma {:induction false} UnwindPlain(s: State, stack: Stack)
    requires Nested(stack, s.leaked) && (stack.Push? ==> !Locked(stack.top))
    ensures var s' := Unwind(s, stack);
            && s'.lockHeld == s.lockHeld && s'.count == s.count && s'.overflowLogged == s.overflowLogged
            && s'.stack == (if Captures(stack) > 0 then UnderCapture(stack) else Empty)
            && s'.guard == (if Captures(stack) > 0 then false else s.guard)
            && s'.leaked == (if Captures(stack) > 0 then s.leaked else s.guard)
  {
    match stack
    case Empty =>
    case Push(below, f) => if !f.Capture? { UnwindPlain(s, below); }
  }

  /** The calls below the innermost hook. */
  function UnderCapture(stack: Stack): Stack
  {
    match stack
    case Empty => Empty
    case Push(below, f) => if f.Capture? then below else UnderCapture(below)
  }

  /** Hook capture nests at most one level, and while it is in progress the
      guard is up. */
  lemma {:induction false} OneCapture(stack: Stack, leaked: bool)
    requires Nested(stack, leaked)
    ensures Captures(stack) <= 1
    ensures Captures(stack) > 0 ==> GuardOf(stack, leaked) && !leaked
    ensures Captures(stack) > 0 ==> Nested(UnderCapture(stack), leaked) && !GuardOf(UnderCapture(stack), leaked)
    ensures Captures(stack) > 0 ==> OnTopOf(UnderCapture(stack), AddInit)
  {
    if stack.Push? { OneCapture(stack.below, leaked); }
  }

  /** Outside the hook, the guard to go back to is the one outside all calls. */
  lemma {:induction false} NoCaptureGuard(stack: Stack, leaked: bool)
    requires Nested(stack, leaked) && Captures(stack) == 0 && stack.Push?
    ensures GuardOf(stack.below, leaked) == leaked
  {
    var below := stack.below;
    assert Captures(below) == 0;
    if below.Push? {
      assert Captures(below.below) == 0 && below.top.AddStore?;
      assert below.below.Empty?;
    }
  }

  // ------------------------------------------------------------------
  // Every step keeps the invariant
  // ------------------------------------------------------------------

  /** Unwinding to the hook resumes a call that had no guard; unwinding to the
      outside ends them all. */
  lemma ThrowInv(s: State, s': State)
    requires Inv(s) && Next(s, s', Throw)
    ensures Inv(s')
    ensures s'.stack == if Captures(s.stack) > 0 then UnderCapture(s.stack) else Empty
  {
    OneCapture(s.stack, s.leaked);
    if Locked(s.stack.top) {
      var mid := s.(guard := s.stack.top.saved, lockHeld := false);
      UnwindPlain(mid, s.stack.below);
    } else {
      UnwindPlain(s, s.stack);
    }
    UnderRoom(s.stack, s.count);
  }

  /** What lies under a hook can take back control with the batch as it is. */
  lemma UnderRoom(stack: Stack, count: nat)
    requires Room(stack, count)
    ensures count <= BATCH_CAPACITY
  {
  }

  lemma EventInv(s: State, s': State, act: Act)
    requires Inv(s) && Next(s, s', act)
    requires act.BeginEvent? || act.Report? || act.EndCapture? || act.CheckEvent? || act.EndWarning? || act.EndLocked?
    ensures Inv(s')
  {
  }

  lemma BatchInv(s: State, s': State, act: Act)
    requires Inv(s) && Next(s, s', act)
    requires act.EndTransaction? || act.CheckBatch? || act.DropNext? || act.CheckCount?
    ensures Inv(s')
  {
  }

  lemma AddInv(s: State, s': State, act: Act)
    requires Inv(s) && Next(s, s', act) && (act.Initialised? || act.Copy? || act.OthersSetFlag?)
    ensures Inv(s')
  {
  }

  lemma NextInv(s: State, s': State, act: Act)
    requires Inv(s) && Next(s, s', act)
    ensures Inv(s')
  {
    if act.Throw? {
      ThrowInv(s, s');
    } else if act.Initialised? || act.Copy? || act.OthersSetFlag? {
      AddInv(s, s', act);
    } else if act.EndTransaction? || act.CheckBatch? || act.DropNext? || act.CheckCount? {
      BatchInv(s, s', act);
    } else {
      EventInv(s, s', act);
    }
  }

  lemma {:induction false} RunInv(run: seq<State>, i: nat)
    requires IsRun(run) && i < |run|
    ensures Inv(run[i])
  {
    if i > 0 {
      RunInv(run, i - 1);
      assert Follows(run[i - 1], run[i - 1 + 1]);
      var act: Act :| Next(run[i - 1], run[i], act);
      NextInv(run[i - 1], run[i], act);
    }
  }

  // ------------------------------------------------------------------
  // What the guard is for
  // ------------------------------------------------------------------

  /** The step takes the queue lock. */
  predicate Acquires(act: Act)
  {
    (act.CheckEvent? && !act.full && act.acquired) || (act.CheckBatch? && !act.full)
  }

  /** A backend never asks for the queue lock while it holds it, and while it
      holds it no other call is in progress on top. */
  lemma NoSelfDeadlock(run: seq<State>, i: nat, act: Act)
    requires IsRun(run) && i + 1 < |run| && Next(run[i], run[i + 1], act) && Acquires(act)
    ensures !run[i].lockHeld && run[i + 1].lockHeld
  {
    RunInv(run, i);
  }

  /** Hook capture never nests in itself. */
  lemma CaptureOnce(run: seq<State>, i: nat)
    requires IsRun(run) && i < |run|
    ensures Captures(run[i].stack) <= 1
  {
    RunInv(run, i);
    OneCapture(run[i].stack, run[i].leaked);
  }

  /** No call in progress but PschLocalBatchAdd. */
  predicate OnlyAdding(stack: Stack)
  {
    stack.Push? ==> (stack.top.AddInit? || stack.top.AddCheck? || stack.top.AddStore?) && OnlyAdding(stack.below)
  }

  lemma {:induction false} GuardClear(stack: Stack, leaked: bool)
    ensures !GuardOf(stack, leaked) <==> OnlyAdding(stack) && !leaked
  {
    if stack.Push? { GuardClear(stack.below, leaked); }
  }

  /** Which messages are captured: in every run a report enters the hook's capture
      exactly if no capture and no enqueue is in progress and the guard was not
      left up by an earlier error. Any other report changes nothing. */
  lemma ReportCaptured(run: seq<State>, i: nat)
    requires IsRun(run) && i + 1 < |run| && Next(run[i], run[i + 1], Report)
    ensures if OnlyAdding(run[i].stack) && !run[i].leaked then
              Captures(run[i].stack) == 0 && Captures(run[i + 1].stack) == 1 && run[i + 1].stack.below == run[i].stack
            else run[i + 1] == run[i]
  {
    RunInv(run, i);
    GuardClear(run[i].stack, run[i].leaked);
    OneCapture(run[i].stack, run[i].leaked);
    OneCapture(run[i + 1].stack, run[i + 1].leaked);
    NextInv(run[i], run[i + 1], Report);
  }

  predicate IsBatch(f: Frame)
  {
    f.BatchFast? || f.BatchDrop? || f.BatchWarn? || f.BatchLocked?
  }

  predicate InBatch(stack: Stack)
  {
    stack.Push? && (IsBatch(stack.top) || InBatch(stack.below))
  }

  lemma {:induction false} BatchOnTop(stack: Stack, leaked: bool)
    requires Nested(stack, leaked) && stack.Push?
    ensures !InBatch(stack.below)
  {
    if stack.below.Push? { BatchOnTop(stack.below, leaked); }
  }

  /** While PschEnqueueBatch copies the local batch no other call is made, so
      nothing is added to the batch. */
  lemma BatchUndisturbed(run: seq<State>, i: nat, act: Act)
    requires IsRun(run) && i + 1 < |run| && Next(run[i], run[i + 1], act) && InBatch(run[i].stack)
    ensures IsBatch(run[i].stack.top) && run[i + 1].count == run[i].count
    ensures act !in {BeginEvent, Copy, Initialised}
  {
    RunInv(run, i);
    BatchOnTop(run[i].stack, run[i].leaked);
    if act.Throw? { ThrowCount(run[i], run[i].stack); }
  }

  lemma {:induction false} ThrowCount(s: State, stack: Stack)
    ensures Unwind(s, stack).count == s.count
    decreases stack
  {
    match stack
    case Empty =>
    case Push(below, f) =>
      if Locked(f) { ThrowCount(s.(guard := f.saved, lockHeld := false), below); }
      else if !f.Capture? { ThrowCount(s, below); }
  }

  /** The local batch never overflows: there is room for every copy. */
  lemma BatchFits(run: seq<State>, i: nat)
    requires IsRun(run) && i < |run|
    ensures run[i].count <= BATCH_CAPACITY
    ensures run[i].stack.Push? && run[i].stack.top.AddStore? ==> run[i].count < BATCH_CAPACITY
  {
    RunInv(run, i);
  }

  /** PschLocalBatchAdd empties the local batch exactly if it holds eight events;
      otherwise it leaves it as it is. */
  lemma FlushedWhenFull(run: seq<State>, i: nat, enabled: bool)
    requires IsRun(run) && i + 1 < |run| && Next(run[i], run[i + 1], CheckCount(enabled))
    ensures run[i + 1].count == if run[i].count == BATCH_CAPACITY then 0 else run[i].count
    ensures InBatch(run[i + 1].stack) <==> run[i].count == BATCH_CAPACITY && enabled
  {
    RunInv(run, i);
    BatchOnTop(run[i].stack, run[i].leaked);
  }

  // ------------------------------------------------------------------
  // Restoring the guard
  // ------------------------------------------------------------------

  /** Between calls the guard has its value from before them, in every run. */
  lemma GuardTracks(run: seq<State>, i: nat)
    requires IsRun(run) && i < |run|
    ensures run[i].guard == GuardOf(run[i].stack, run[i].leaked)
  {
    RunInv(run, i);
  }

  /** A thrown error restores the guard for the call it ends in unless it comes
      out of the lock-free HandleOverflow, which no PG_TRY encloses, while the
      guard was clear outside. Then the guard stays up. */
  lemma ThrowRestores(run: seq<State>, i: nat)
    requires IsRun(run) && i + 1 < |run| && Next(run[i], run[i + 1], Throw)
    ensures run[i + 1].guard == GuardOf(run[i + 1].stack, run[i].leaked) <==>
            !((run[i].stack.top.EventWarn? || run[i].stack.top.BatchWarn?) && !run[i].stack.top.saved)
  {
    RunInv(run, i);
    ThrowOutcome(run[i], run[i + 1]);
  }

  lemma ThrowOutcome(s: State, s': State)
    requires Inv(s) && Next(s, s', Throw)
    ensures s'.guard == GuardOf(s'.stack, s.leaked) <==>
            !((s.stack.top.EventWarn? || s.stack.top.BatchWarn?) && !s.stack.top.saved)
  {
    ThrowInv(s, s');
    OneCapture(s.stack, s.leaked);
    if Captures(s.stack) > 0 {
      if s.stack.top.EventWarn? || s.stack.top.BatchWarn? { CapturedSaved(s.stack, s.leaked); }
      UnwindLeak(s, s.stack);
    } else {
      NoCaptureGuard(s.stack, s.leaked);
      if Locked(s.stack.top) {
        UnwindPlain(s.(guard := s.stack.top.saved, lockHeld := false), s.stack.below);
      } else {
        UnwindPlain(s, s.stack);
      }
    }
  }

  lemma CapturedSaved(stack: Stack, leaked: bool)
    requires Nested(stack, leaked) && Captures(stack) > 0 && (stack.top.EventWarn? || stack.top.BatchWarn?)
    ensures stack.top.saved
  {
    OneCapture(stack.below, leaked);
  }

  /** An error the hook swallows leaves the value outside all calls alone. */
  lemma {:induction false} UnwindLeak(s: State, stack: Stack)
    requires Captures(stack) > 0
    ensures Unwind(s, stack).leaked == s.leaked && Unwind(s, stack).guard == false
    decreases stack
  {
    var f := stack.top;
    if Locked(f) { UnwindLeak(s.(guard := f.saved, lockHeld := false), stack.below); }
    else if !f.Capture? { UnwindLeak(s, stack.below); }
  }

  /** For each overflow that PschEnqueueBatch counts: an error out of it leaves
      the guard up exactly when it was the first to be logged and the guard was
      clear. */
  lemma BatchLeaksExactly(s: State, s1: State, s2: State)
    requires Inv(s) && s.stack.Push? && s.stack.top.BatchDrop?
    requires Next(s, s1, DropNext) && Next(s1, s2, Throw)
    ensures s2.guard != GuardOf(s2.stack, s.leaked) <==>
            s.stack.top.n > 0 && !s.overflowLogged && !s.stack.top.saved
  {
    NextInv(s, s1, DropNext);
    ThrowOutcome(s1, s2);
  }

  /** Such a leak is for good: the guard is up outside all calls from then on
      and no message is captured any more. */
  lemma LeakIsPermanent(s: State, s': State, act: Act)
    requires Inv(s) && s.leaked && Next(s, s', act)
    ensures s'.leaked && Captures(s'.stack) == 0 && s'.guard
  {
    OneCapture(s.stack, true);
    NextInv(s, s', act);
    if act.Throw? {
      if Locked(s.stack.top) {
        NoCaptureGuard(s.stack, s.leaked);
        UnwindPlain(s.(guard := s.stack.top.saved, lockHeld := false), s.stack.below);
      } else {
        UnwindPlain(s, s.stack);
        LeakedGuard(s.stack);
      }
    }
    OneCapture(s'.stack, s'.leaked);
    LeakedGuard(s'.stack);
  }

  /** From then on, in the whole rest of the run. */
  lemma {:induction false} LeakForever(run: seq<State>, i: nat, j: nat)
    requires IsRun(run) && i <= j < |run| && run[i].leaked
    ensures run[j].leaked && run[j].guard && Captures(run[j].stack) == 0
  {
    RunInv(run, j);
    if i == j {
      OneCapture(run[j].stack, true);
      LeakedGuard(run[j].stack);
    } else {
      LeakForever(run, i, j - 1);
      RunInv(run, j - 1);
      assert Follows(run[j - 1], run[j - 1 + 1]);
      var act: Act :| Next(run[j - 1], run[j], act);
      LeakIsPermanent(run[j - 1], run[j], act);
    }
  }

  lemma {:induction false} LeakedGuard(stack: Stack)
    ensures GuardOf(stack, true)
  {
    if stack.Push? { LeakedGuard(stack.below); }
  }

  /** It does happen: one event on a full queue whose first warning throws. */
  lemma LeakExample()
    ensures exists run: seq<State> :: IsRun(run) && |run| == 4 && run[3].stack == Empty && !run[0].guard && run[3].guard
  {
    var s0 := State(Empty, false, false, false, 0, false);
    var s1 := s0.(stack := Push(Empty, EventFast(false)), guard := true);
    var s2 := s1.(stack := Push(Empty, EventWarn(false)), overflowLogged := true);
    var s3 := s2.(stack := Empty, leaked := true);
    assert Next(s0, s1, BeginEvent) && Next(s1, s2, CheckEvent(true, false)) && Next(s2, s3, Throw);
    assert IsRun([s0, s1, s2, s3]);
  }
}
