/** One call of PschEnqueueEvent from its lock-free check to the error that ends
    it: exactly when it leaves the guard up. */
module CaptureCalls {
  import opened Events
  import opened CaptureGuard

  /** `base` lies below the calls in progress. */
  predicate Under(base: Stack, stack: Stack)
  {
    stack.Push? && (stack.below == base || Under(base, stack.below))
  }

  datatype Clause = Steps | Entry | InProgress | Ending

  ghost predicate CallHolds(seg: seq<State>, acts: seq<Act>, base: Stack, saved: bool, clause: Clause)
    requires |seg| == |acts| + 1 && |acts| > 0
  {
    match clause
    case Steps => forall i :: 0 <= i < |acts| ==> Next(seg[i], seg[i + 1], acts[i])
    case Entry => Inv(seg[0]) && seg[0].stack == Push(base, EventFast(saved))
    case InProgress => forall i | 0 <= i < |acts| :: Under(base, seg[i].stack)
    case Ending => acts[|acts| - 1] == Throw && !Under(base, seg[|acts|].stack)
  }

  /** Consecutive steps of a backend: a call of PschEnqueueEvent, made on top of
      `base` and having saved the guard's value `saved`, is in progress in every
      state but the last; the last step is the error that ends it. */
  ghost predicate IsAbandonedCall(seg: seq<State>, acts: seq<Act>, base: Stack, saved: bool)
  {
    |seg| == |acts| + 1 && |acts| > 0 && forall clause: Clause :: CallHolds(seg, acts, base, saved, clause)
  }

  lemma CallStepAt(seg: seq<State>, acts: seq<Act>, base: Stack, saved: bool, n: nat)
    requires IsAbandonedCall(seg, acts, base, saved) && n < |acts|
    ensures Next(seg[n], seg[n + 1], acts[n]) && Under(base, seg[n].stack)
  {
    assert CallHolds(seg, acts, base, saved, Steps) && CallHolds(seg, acts, base, saved, InProgress);
  }

  lemma CallEntry(seg: seq<State>, acts: seq<Act>, base: Stack, saved: bool)
    requires IsAbandonedCall(seg, acts, base, saved)
    ensures Inv(seg[0]) && seg[0].stack == Push(base, EventFast(saved)) && GuardOf(base, seg[0].leaked) == saved
    ensures acts[|acts| - 1] == Throw && !Under(base, seg[|acts|].stack)
  {
    assert CallHolds(seg, acts, base, saved, Entry) && CallHolds(seg, acts, base, saved, Ending);
  }

  // ------------------------------------------------------------------
  // What the call has met
  // ------------------------------------------------------------------

  /** ownFull: its own check found the queue full and the overflow not logged;
      refused: its own check found room and the lock was refused;
      crowded: the local batch was full, so that it was flushed;
      flushFull: the flush's check found the queue full;
      won: the flush's last drop was the first to be logged, and its warning is
      not over. */
  datatype Path = Path(ownFull: bool, refused: bool, crowded: bool, flushFull: bool, won: bool)

  const START := Path(false, false, false, false, false)

  /** What a step adds to the path, read off the step and what it meets. Steps
      of calls nested in this one add nothing. */
  function After(path: Path, base: Stack, s: State, act: Act): Path
  {
    if s.stack.Push? && s.stack.below == base then
      match act
      case CheckEvent(full, acquired) => path.(ownFull := full && !s.overflowLogged, refused := !full && !acquired)
      case CheckCount(enabled) => path.(crowded := enabled && s.count >= BATCH_CAPACITY)
      case _ => path
    else if s.stack.Push? && s.stack.below == Push(base, AddStore) then
      match act
      case CheckBatch(full) => path.(flushFull := full)
      case DropNext => path.(won := s.stack.top.BatchDrop? && s.stack.top.n > 0 && !s.overflowLogged)
      case EndWarning => path.(won := false)
      case _ => path
    else path
  }

  function PathOf(seg: seq<State>, acts: seq<Act>, base: Stack, n: nat): Path
    requires n <= |acts| && n < |seg|
  {
    if n == 0 then START else After(PathOf(seg, acts, base, n - 1), base, seg[n - 1], acts[n - 1])
  }

  // ------------------------------------------------------------------
  // Where the call is, given what it has met
  // ------------------------------------------------------------------

  predicate OwnFrame(path: Path, saved: bool, f: Frame)
  {
    match f
    case EventFast(v) => v == saved && path == START
    case EventWarn(v) => v == saved && path == START.(ownFull := true)
    case EventLocked(v) => v == saved && path == START
    case AddInit => path == START.(refused := true)
    case AddCheck => path == START.(refused := true)
    case AddStore => path.refused && !path.ownFull && !path.won
    case _ => false
  }

  predicate FlushFrame(path: Path, saved: bool, f: Frame)
  {
    match f
    case BatchFast(v, _) => v == saved && path == Path(false, true, true, false, false)
    case BatchDrop(v, _) => v == saved && path == Path(false, true, true, true, false)
    case BatchWarn(v, _) => v == saved && path == Path(false, true, true, true, true)
    case BatchLocked(v) => v == saved && path == Path(false, true, true, false, false)
    case _ => false
  }

  /** A hook capture is in progress on top of the call's initialisation. */
  predicate Deep(base: Stack, stack: Stack)
  {
    Captures(stack) > 0 && UnderCapture(stack) == Push(base, AddInit)
  }

  datatype Level = Own | Flushing | Inner

  ghost predicate At(path: Path, base: Stack, saved: bool, stack: Stack, level: Level)
  {
    match level
    case Own => stack.Push? && stack.below == base && OwnFrame(path, saved, stack.top)
    case Flushing => stack.Push? && stack.below == Push(base, AddStore) && FlushFrame(path, saved, stack.top)
    case Inner => Deep(base, stack) && path == START.(refused := true)
  }

  ghost predicate Somewhere(path: Path, base: Stack, saved: bool, stack: Stack)
  {
    exists level: Level :: At(path, base, saved, stack, level)
  }

  function Depth(stack: Stack): nat
  {
    if stack.Empty? then 0 else 1 + Depth(stack.below)
  }

  lemma {:induction false} UnderCaptureDepth(stack: Stack)
    ensures Depth(UnderCapture(stack)) <= Depth(stack)
    ensures Captures(stack) > 0 ==> Depth(UnderCapture(stack)) < Depth(stack)
  {
    if stack.Push? { UnderCaptureDepth(stack.below); }
  }

  lemma NotItself(base: Stack)
    ensures Push(base, AddStore) != base
  {
    assert Depth(Push(base, AddStore)) == Depth(base) + 1;
  }

  /** A nested call is deeper than the call's own frames. */
  lemma DeepIsDeeper(base: Stack, stack: Stack)
    requires Deep(base, stack) && stack.Push?
    ensures stack.below != base && stack.below != Push(base, AddStore)
  {
    UnderCaptureDepth(stack);
    UnderCaptureDepth(stack.below);
    UnderCaptureDepth(base);
  }

  // ------------------------------------------------------------------
  // Steps
  // ------------------------------------------------------------------

  lemma OwnStep(s: State, s': State, act: Act, path: Path, base: Stack, saved: bool)
    requires Inv(s) && Next(s, s', act) && !act.Throw? && GuardOf(base, s.leaked) == saved
    requires At(path, base, saved, s.stack, Own) && Under(base, s'.stack)
    ensures Somewhere(After(path, base, s, act), base, saved, s'.stack)
  {
    var path' := After(path, base, s, act);
    if act.Report? && !s.guard {
      assert Deep(base, s'.stack);
      assert At(path', base, saved, s'.stack, Inner);
    } else if act.CheckCount? && s'.stack.below != base {
      assert At(path', base, saved, s'.stack, Flushing);
    } else {
      OwnStepStays(s, s', act, path, base, saved);
    }
  }

  lemma OwnStepStays(s: State, s': State, act: Act, path: Path, base: Stack, saved: bool)
    requires Inv(s) && Next(s, s', act) && !act.Throw? && GuardOf(base, s.leaked) == saved
    requires At(path, base, saved, s.stack, Own) && Under(base, s'.stack)
    requires !(act.Report? && !s.guard) && !(act.CheckCount? && s'.stack.below != base)
    ensures At(After(path, base, s, act), base, saved, s'.stack, Own)
  {
    NotUnderItself(base);
  }

  lemma {:induction false} UnderDepth(base: Stack, stack: Stack)
    requires Under(base, stack)
    ensures Depth(base) < Depth(stack)
  {
    if stack.below != base { UnderDepth(base, stack.below); }
  }

  lemma NotUnderItself(base: Stack)
    ensures !Under(base, base)
  {
    if Under(base, base) { UnderDepth(base, base); }
  }

  lemma FlushChecks(s: State, s': State, act: Act, path: Path, base: Stack, saved: bool)
    requires Next(s, s', act) && s.guard && At(path, base, saved, s.stack, Flushing) && Push(base, AddStore) != base
    requires s.stack.top.BatchFast? || s.stack.top.BatchLocked?
    requires !act.Throw? && !act.EndLocked?
    ensures At(After(path, base, s, act), base, saved, s'.stack, Flushing)
  {
  }

  lemma FlushDrops(s: State, s': State, act: Act, path: Path, base: Stack, saved: bool)
    requires Next(s, s', act) && s.guard && At(path, base, saved, s.stack, Flushing) && Push(base, AddStore) != base
    requires s.stack.top.BatchDrop? || s.stack.top.BatchWarn?
    requires !act.Throw? && !(act.DropNext? && s.stack.top.n == 0)
    ensures At(After(path, base, s, act), base, saved, s'.stack, Flushing)
  {
  }

  lemma FlushReturns(s: State, s': State, act: Act, path: Path, base: Stack, saved: bool)
    requires Next(s, s', act) && At(path, base, saved, s.stack, Flushing) && Push(base, AddStore) != base
    requires act.EndLocked? || (act.DropNext? && s.stack.top.BatchDrop? && s.stack.top.n == 0)
    ensures At(After(path, base, s, act), base, saved, s'.stack, Own)
  {
  }

  lemma FlushStep(s: State, s': State, act: Act, path: Path, base: Stack, saved: bool)
    requires Inv(s) && Next(s, s', act) && !act.Throw?
    requires At(path, base, saved, s.stack, Flushing)
    ensures Somewhere(After(path, base, s, act), base, saved, s'.stack)
  {
    NotItself(base);
    var path' := After(path, base, s, act);
    if act.EndLocked? || (act.DropNext? && s.stack.top.n == 0) {
      FlushReturns(s, s', act, path, base, saved);
      assert At(path', base, saved, s'.stack, Own);
    } else if s.stack.top.BatchDrop? || s.stack.top.BatchWarn? {
      FlushDrops(s, s', act, path, base, saved);
      assert At(path', base, saved, s'.stack, Flushing);
    } else {
      FlushChecks(s, s', act, path, base, saved);
      assert At(path', base, saved, s'.stack, Flushing);
    }
  }

  lemma InnerStep(s: State, s': State, act: Act, path: Path, base: Stack, saved: bool)
    requires Inv(s) && Next(s, s', act) && !act.Throw?
    requires At(path, base, saved, s.stack, Inner)
    ensures Somewhere(After(path, base, s, act), base, saved, s'.stack)
  {
    var path' := After(path, base, s, act);
    OneCapture(s.stack, s.leaked);
    DeepIsDeeper(base, s.stack);
    if act.EndCapture? {
      assert s'.stack == UnderCapture(s.stack);
      assert At(path', base, saved, s'.stack, Own);
    } else {
      InnerStays(s, s', act, base);
      assert At(path', base, saved, s'.stack, Inner);
    }
  }

  lemma InnerStays(s: State, s': State, act: Act, base: Stack)
    requires Inv(s) && Next(s, s', act) && !act.Throw? && !act.EndCapture? && Deep(base, s.stack) && s.guard
    ensures Deep(base, s'.stack)
  {
    match act
    case BeginEvent =>
    case EndTransaction(_) =>
    case Report =>
    case CheckEvent(full, acquired) => TopStays(s.stack, s'.stack, base);
    case CheckCount(enabled) => CountStays(s, s', enabled, base);
    case OthersSetFlag(_) =>
    case _ => TopStays(s.stack, s'.stack, base);
  }

  /** The top call goes on or returns: the capture below it is untouched. */
  lemma TopStays(stack: Stack, stack': Stack, base: Stack)
    requires Deep(base, stack) && stack.Push? && !stack.top.Capture?
    requires stack' == stack.below || (stack'.Push? && stack'.below == stack.below && !stack'.top.Capture?)
    ensures Deep(base, stack')
  {
  }

  lemma CountStays(s: State, s': State, enabled: bool, base: Stack)
    requires Next(s, s', CheckCount(enabled)) && Deep(base, s.stack)
    ensures Deep(base, s'.stack)
  {
  }

  /** An error at the call's own level ends the call; one in a nested call does not. */
  lemma ThrowEnds(s: State, s': State, path: Path, base: Stack, saved: bool, level: Level)
    requires Inv(s) && Next(s, s', Throw) && At(path, base, saved, s.stack, level)
    ensures Under(base, s'.stack) <==> level == Inner
    ensures level == Inner ==> s'.stack == Push(base, AddInit) && s'.leaked == s.leaked
  {
    ThrowInv(s, s');
    if level == Inner {
      UnwindLeak(s, s.stack);
    } else {
      assert s'.stack == if Captures(base) > 0 then UnderCapture(base) else Empty;
      UnderCaptureDepth(base);
      if Under(base, s'.stack) { UnderDepth(base, s'.stack); }
    }
  }

  lemma InnerThrow(s: State, s': State, path: Path, base: Stack, saved: bool)
    requires Inv(s) && Next(s, s', Throw) && At(path, base, saved, s.stack, Inner)
    ensures At(After(path, base, s, Throw), base, saved, s'.stack, Own)
  {
    ThrowEnds(s, s', path, base, saved, Inner);
  }

  lemma LeakedKept(s: State, s': State, act: Act)
    requires Next(s, s', act) && !act.Throw?
    ensures s'.leaked == s.leaked
  {
  }

  /** One step of a call in progress. */
  lemma CallStep(s: State, s': State, act: Act, path: Path, base: Stack, saved: bool)
    requires Inv(s) && Next(s, s', act) && GuardOf(base, s.leaked) == saved
    requires Somewhere(path, base, saved, s.stack) && Under(base, s'.stack)
    ensures Inv(s') && s'.leaked == s.leaked
    ensures Somewhere(After(path, base, s, act), base, saved, s'.stack)
  {
    NextInv(s, s', act);
    var level: Level :| At(path, base, saved, s.stack, level);
    if act.Throw? {
      ThrowEnds(s, s', path, base, saved, level);
      InnerThrow(s, s', path, base, saved);
      assert At(After(path, base, s, act), base, saved, s'.stack, Own);
    } else {
      LeakedKept(s, s', act);
      match level
      case Own => OwnStep(s, s', act, path, base, saved);
      case Flushing => FlushStep(s, s', act, path, base, saved);
      case Inner => InnerStep(s, s', act, path, base, saved);
    }
  }

  lemma {:induction false} CallAlong(seg: seq<State>, acts: seq<Act>, base: Stack, saved: bool, n: nat)
    requires IsAbandonedCall(seg, acts, base, saved) && n < |acts|
    ensures Inv(seg[n]) && seg[n].leaked == seg[0].leaked && GuardOf(base, seg[n].leaked) == saved
    ensures Somewhere(PathOf(seg, acts, base, n), base, saved, seg[n].stack)
  {
    if n == 0 {
      CallEntry(seg, acts, base, saved);
      assert At(START, base, saved, seg[0].stack, Own);
    } else {
      CallAlong(seg, acts, base, saved, n - 1);
      CallStepAt(seg, acts, base, saved, n - 1);
      CallStepAt(seg, acts, base, saved, n);
      CallStep(seg[n - 1], seg[n], acts[n - 1], PathOf(seg, acts, base, n - 1), base, saved);
    }
  }

  /** The error that ends the call. */
  lemma LastStep(s: State, s': State, path: Path, base: Stack, saved: bool, level: Level)
    requires Inv(s) && Next(s, s', Throw) && At(path, base, saved, s.stack, level) && !Under(base, s'.stack)
    ensures s'.guard != GuardOf(s'.stack, s.leaked) <==>
            !saved && (path.ownFull || (path.refused && path.crowded && path.flushFull && path.won))
  {
    ThrowEnds(s, s', path, base, saved, level);
    ThrowOutcome(s, s');
  }

  /** The call that an error ends leaves the guard up exactly if the guard was
      clear at entry and either its own check found the queue full with the
      overflow not logged, or the lock was refused with the local batch full,
      the flush found the queue full and its last drop was the first to be
      logged, the error being that warning's. */
  lemma EventLeaksExactly(seg: seq<State>, acts: seq<Act>, base: Stack, saved: bool)
    requires IsAbandonedCall(seg, acts, base, saved)
    ensures var path, end := PathOf(seg, acts, base, |acts| - 1), seg[|acts|];
            end.guard != GuardOf(end.stack, seg[0].leaked) <==>
            !saved && (path.ownFull || (path.refused && path.crowded && path.flushFull && path.won))
  {
    var n := |acts| - 1;
    CallEntry(seg, acts, base, saved);
    CallAlong(seg, acts, base, saved, n);
    CallStepAt(seg, acts, base, saved, n);
    var level: Level :| At(PathOf(seg, acts, base, n), base, saved, seg[n].stack, level);
    LastStep(seg[n], seg[n + 1], PathOf(seg, acts, base, n), base, saved, level);
  }

  // ------------------------------------------------------------------
  // The flush does leak
  // ------------------------------------------------------------------

  lemma Extend(run: seq<State>, s: State, act: Act)
    requires IsRun(run) && Next(run[|run| - 1], s, act)
    ensures IsRun(run + [s])
  {
    var r := run + [s];
    forall i | 0 <= i < |r| - 1 ensures Follows(r[i], r[i + 1]) {
      if i < |run| - 1 { assert Follows(run[i], run[i + 1]); }
    }
  }

  function Rest(n: nat): State { State(Empty, false, false, false, n, false) }

  /** The steps of one contended event that finds room in the local batch. */
  lemma OneMore(run: seq<State>, n: nat) returns (more: seq<State>)
    requires IsRun(run) && run[|run| - 1] == Rest(n) && n < BATCH_CAPACITY
    ensures IsRun(more) && more[|more| - 1] == Rest(n + 1)
  {
    var s := Rest(n);
    more := run;
    Extend(more, s.(stack := Push(Empty, EventFast(false)), guard := true), BeginEvent);
    more := more + [s.(stack := Push(Empty, EventFast(false)), guard := true)];
    Extend(more, s.(stack := Push(Empty, AddInit)), CheckEvent(false, false));
    more := more + [s.(stack := Push(Empty, AddInit))];
    Extend(more, s.(stack := Push(Empty, AddCheck)), Initialised);
    more := more + [s.(stack := Push(Empty, AddCheck))];
    Extend(more, s.(stack := Push(Empty, AddStore)), CheckCount(true));
    more := more + [s.(stack := Push(Empty, AddStore))];
    Extend(more, Rest(n + 1), Copy);
    more := more + [Rest(n + 1)];
  }

  lemma {:induction false} FullBatch(n: nat) returns (run: seq<State>)
    requires n <= BATCH_CAPACITY
    ensures IsRun(run) && run[|run| - 1] == Rest(n)
  {
    if n == 0 {
      run := [Rest(0)];
    } else {
      run := FullBatch(n - 1);
      run := OneMore(run, n - 1);
    }
  }

  /** A ninth contended event, up to the flush. */
  lemma ToTheFlush(run: seq<State>) returns (more: seq<State>)
    requires IsRun(run) && run[|run| - 1] == Rest(BATCH_CAPACITY)
    ensures IsRun(more) && |more| > 4
    ensures more[|more| - 4].stack == Push(Empty, EventFast(false)) && more[|more| - 3].stack == Push(Empty, AddInit)
    ensures more[|more| - 1] == State(Push(Push(Empty, AddStore), BatchFast(false, BATCH_CAPACITY)), true, false, false, 0, false)
  {
    var s := Rest(BATCH_CAPACITY);
    var s1 := s.(stack := Push(Empty, EventFast(false)), guard := true);
    var s2 := s.(stack := Push(Empty, AddInit));
    var s3 := s.(stack := Push(Empty, AddCheck));
    var s4 := State(Push(Push(Empty, AddStore), BatchFast(false, BATCH_CAPACITY)), true, false, false, 0, false);
    Extend(run, s1, BeginEvent);
    Extend(run + [s1], s2, CheckEvent(false, false));
    Extend(run + [s1] + [s2], s3, Initialised);
    Extend(run + [s1] + [s2] + [s3], s4, CheckCount(true));
    more := run + [s1] + [s2] + [s3] + [s4];
  }

  /** After eight contended events, a ninth: its own check finds room, the lock is
      refused, and the flush of the batch leaves the guard up. */
  lemma FlushLeakExample()
    ensures exists run: seq<State> ::
              && IsRun(run) && |run| > 7
              && run[|run| - 7].stack == Push(Empty, EventFast(false)) && run[|run| - 6].stack == Push(Empty, AddInit)
              && run[|run| - 1].stack == Empty && run[|run| - 1].guard
  {
    var full := FullBatch(BATCH_CAPACITY);
    var run := ToTheFlush(full);
    var s4, flushing := run[|run| - 1], Push(Empty, AddStore);
    var s5 := s4.(stack := Push(flushing, BatchDrop(false, BATCH_CAPACITY)));
    var s6 := s4.(stack := Push(flushing, BatchWarn(false, BATCH_CAPACITY - 1)), overflowLogged := true);
    var s7 := s6.(stack := Empty, leaked := true);
    Extend(run, s5, CheckBatch(true));
    Extend(run + [s5], s6, DropNext);
    Unwound(s6, flushing);
    Extend(run + [s5] + [s6], s7, Throw);
    assert IsRun(run + [s5] + [s6] + [s7]);
  }

  lemma Unwound(s: State, below: Stack)
    requires s.stack == Push(below, BatchWarn(false, BATCH_CAPACITY - 1)) && below == Push(Empty, AddStore)
    ensures Unwind(s, s.stack) == s.(stack := Empty, leaked := s.guard)
  {
    assert Unwind(s, s.stack) == Unwind(s, below);
    assert Unwind(s, below) == Unwind(s, Empty);
  }
}
