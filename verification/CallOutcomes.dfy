/** Whole calls: what becomes of the event of a call of PschEnqueueEvent and of
    the local batch, and of the events of a flush, by what the call met. */
module CallOutcomes {
  import opened Events
  import TextStore
  import opened Ring
  import opened Pipeline
  import opened ProducerCalls

  // ------------------------------------------------------------------
  // What a call meets
  // ------------------------------------------------------------------

  /** full: the queue looked full at the call's own lock-free check;
      free: the queue lock was free when the call tried it;
      lockedFull: the queue looked full, or was made to, at the check under the lock;
      enabled: capture was enabled when the local batch was flushed;
      flushFull: the queue looked full at the flush's lock-free check. */
  datatype Met = Met(full: bool, free: bool, lockedFull: bool, enabled: bool, flushFull: bool)

  const NOTHING := Met(false, false, false, false, false)

  function After(rc: RingConfig, met: Met, s: State, act: Act, i: nat): Met
  {
    if i >= |s.procs| || !IsOwn(act, i) then met
    else
      match s.procs[i].at
      case FastTail(job, h, _, _) =>
        if job.One? then met.(full := LooksFull(rc, h, s.k.tail)) else met.(flushFull := LooksFull(rc, h, s.k.tail))
      case TryLock(_) => met.(free := s.lock.Free?)
      case Flush(_) => met.(enabled := s.enabled)
      case Holding(w, _, _) =>
        if w.WTail? && act.Enqueue? then met.(lockedFull := LooksFull(rc, w.h, s.k.tail) || act.force) else met
      case _ => met
  }

  // ------------------------------------------------------------------
  // Where a call stands
  // ------------------------------------------------------------------

  /** The events a call still has to deal with, but for a pending one. */
  function Left(at: Point): seq<Event>
  {
    match at
    case FastHead(job) => Todo(job)
    case FastTail(job, _, _, _) => Todo(job)
    case FastDrop(todo, _) => todo
    case FastFlag(todo, _) => todo
    case TryLock(ev) => [ev]
    case WaitLock(todo, _) => todo
    case Holding(w, todo, _) => (if w.WCount? then [] else [w.ev]) + todo
    case LockedFlag(todo, _) => todo
    case Contended(ev) => [ev]
    case _ => []
  }

  /** The check under the lock is behind the writer. */
  predicate Checked(w: Writer, met: Met)
  {
    if w.WHead? || w.WTail? then true else met.lockedFull <==> w.WOverflow?
  }

  /** Points of PschEnqueueEvent before any contention. */
  predicate OneAt(at: Point, met: Met)
  {
    match at
    case FastHead(job) => job.One?
    case FastTail(job, _, _, _) => job.One?
    case FastDrop(_, p) => p.None? && met.full
    case FastFlag(_, p) => p.None? && met.full
    case TryLock(_) => !met.full
    case Holding(w, _, p) => p.None? && !met.full && met.free && Checked(w, met)
    case LockedFlag(_, p) => p.None? && !met.full && met.free && met.lockedFull
    case Unlock(p) => p.None? && !met.full && met.free
    case Contended(_) => !met.full && !met.free
    case Rest => met.full || met.free
    case _ => false
  }

  /** Points of a flush after which `pending` is stored. */
  predicate FlushAt(at: Point, met: Met, pending: Option<Event>)
  {
    match at
    case FastHead(job) => job.Many? && job.pending == pending && met.enabled
    case FastTail(job, _, _, _) => job.Many? && job.pending == pending && met.enabled
    case FastDrop(_, p) => p == pending && met.enabled && met.flushFull
    case FastFlag(_, p) => p == pending && met.enabled && met.flushFull
    case WaitLock(_, p) => p == pending && met.enabled && !met.flushFull
    case Holding(_, _, p) => p == pending && met.enabled && !met.flushFull
    case LockedFlag(_, p) => p == pending && met.enabled && !met.flushFull
    case Unlock(p) => p == pending && met.enabled && !met.flushFull
    case StoreLocal(ev) => pending == Some(ev)
    case Rest => pending.None?
    case _ => false
  }

  /** How the event of a call may end: dropped if the queue looked full, at the
      lock-free check or under the lock, else published. */
  predicate OneEnds(marks: seq<Mark>, met: Met)
  {
    forall k | 0 <= k < |marks| :: marks[k].ended == if met.full || met.lockedFull then Dropped else Published
  }

  /** How the events of a flush may end: all discarded if capture was disabled,
      all dropped if the queue looked full, else each published or dropped. */
  predicate FlushEnds(marks: seq<Mark>, met: Met)
  {
    forall k | 0 <= k < |marks| ::
      if !met.enabled then marks[k].ended == Discarded
      else if met.flushFull then marks[k].ended == Dropped
      else marks[k].ended != Discarded
  }

  /** A flush of batch b0 is under way or over. */
  ghost predicate FlushStands(p: Producer, marks: seq<Mark>, met: Met, b0: seq<Event>, pending: Option<Event>)
  {
    && FlushAt(p.at, met, pending) && p.batch == [] && Evs(marks) + Left(p.at) == b0 && FlushEnds(marks, met)
    && (p.at.FastHead? || p.at.FastTail? ==> marks == [])
  }

  /** Phases of a call: own path, flush to come, flush under way, to be stored at
      once, stored. */
  datatype Phase = Own | Crowded | Flushing | Storing | Stored

  ghost predicate Stands(phase: Phase, p: Producer, marks: seq<Mark>, met: Met, ev: Event, b0: seq<Event>)
  {
    match phase
    case Own => OneAt(p.at, met) && p.batch == b0 && Evs(marks) + Left(p.at) == [ev] && OneEnds(marks, met)
    case Crowded =>
      p.at == Flush(Some(ev)) && !met.full && !met.free && p.batch == b0 && |b0| >= BATCH_CAPACITY && marks == []
    case Flushing =>
      FlushStands(p, marks, met, b0, Some(ev)) && !met.full && !met.free && |b0| >= BATCH_CAPACITY
    case Storing =>
      p.at == StoreLocal(ev) && !met.full && !met.free && p.batch == b0 && |b0| < BATCH_CAPACITY && marks == []
    case Stored =>
      && p.at.Rest? && !met.full && !met.free
      && if |b0| < BATCH_CAPACITY then marks == [] && p.batch == b0 + [ev]
         else Evs(marks) == b0 && FlushEnds(marks, met) && p.batch == [ev]
  }

  lemma EvsOn(marks: seq<Mark>, more: seq<Mark>)
    ensures Evs(marks + more) == Evs(marks) + Evs(more)
  {
  }

  // ------------------------------------------------------------------
  // Steps on the own path
  // ------------------------------------------------------------------

  /** A step of producer i: its new point, its marks and what it has met. */
  ghost predicate Goes(rc: RingConfig, s: State, s': State, act: Act, i: nat)
  {
    i < |s.procs| && i < |s'.procs| && Next(rc, s, s', act) && IsOwn(act, i)
  }

  lemma OwnChecks(rc: RingConfig, s: State, s': State, i: nat, marks: seq<Mark>, met: Met, ev: Event, b0: seq<Event>)
    requires Goes(rc, s, s', Produce(i), i) && Stands(Own, s.procs[i], marks, met, ev, b0)
    requires s.procs[i].at.FastHead? || s.procs[i].at.FastTail? || s.procs[i].at.TryLock?
    ensures Stands(Own, s'.procs[i], marks, After(rc, met, s, Produce(i), i), ev, b0) && Marks(s, Produce(i)) == []
  {
    assert Evs(marks) == [] && marks == [];
  }

  /** A counted drop moves the first event left to the marks. */
  lemma DropCounts(p: Producer, at': Point, enabled: bool, marks: seq<Mark>)
    requires p.at.FastDrop? || p.at.Unlock?
    requires at' == if p.at.FastDrop? && p.at.todo != [] then FastFlag(p.at.todo[1..], p.at.pending) else Done(p.at.pending)
    ensures Evs(marks + ProducerMarks(p, enabled, Produce(0))) + Left(at') == Evs(marks) + Left(p.at)
  {
    var more := ProducerMarks(p, enabled, Produce(0));
    EvsOn(marks, more);
    if p.at.FastDrop? && p.at.todo != [] {
      assert Evs(more) == [p.at.todo[0]];
      Regroup(Evs(marks), [p.at.todo[0]], p.at.todo[1..]);
      assert [p.at.todo[0]] + p.at.todo[1..] == p.at.todo;
    } else {
      assert Evs(more) == [];
    }
  }

  lemma OwnDrops(rc: RingConfig, s: State, s': State, i: nat, marks: seq<Mark>, met: Met, ev: Event, b0: seq<Event>)
    requires Goes(rc, s, s', Produce(i), i) && Stands(Own, s.procs[i], marks, met, ev, b0)
    requires s.procs[i].at.FastDrop? || s.procs[i].at.Unlock?
    ensures Stands(Own, s'.procs[i], marks + Marks(s, Produce(i)), After(rc, met, s, Produce(i), i), ev, b0)
  {
    DropCounts(s.procs[i], s'.procs[i].at, s.enabled, marks);
  }

  lemma OwnContends(rc: RingConfig, s: State, s': State, i: nat, marks: seq<Mark>, met: Met, ev: Event, b0: seq<Event>)
    requires Goes(rc, s, s', Produce(i), i) && Stands(Own, s.procs[i], marks, met, ev, b0) && s.procs[i].at.Contended?
    ensures marks == [] && Marks(s, Produce(i)) == [] && After(rc, met, s, Produce(i), i) == met
    ensures Stands(if |b0| >= BATCH_CAPACITY then Crowded else Storing, s'.procs[i], [], met, ev, b0)
  {
    assert Evs(marks) == [];
    assert Left(s.procs[i].at) == [ev];
  }

  lemma OwnFlags(rc: RingConfig, s: State, s': State, i: nat, marks: seq<Mark>, met: Met, ev: Event, b0: seq<Event>)
    requires Goes(rc, s, s', Flag(i), i) && Stands(Own, s.procs[i], marks, met, ev, b0)
    ensures Stands(Own, s'.procs[i], marks, After(rc, met, s, Flag(i), i), ev, b0) && Marks(s, Flag(i)) == []
  {
    var at := s.procs[i].at;
    if at.todo != [] { assert at.todo == [at.todo[0]] + at.todo[1..]; }
  }

  /** Where a step of TryEnqueueLocked leads. */
  lemma WriterLeads(rc: RingConfig, k: Core, k': Core, c: nat, w: Writer, w': Writer, p: TextStore.Ptr, force: bool)
    requires WriterStep(rc, k, k', c, w, w', p, force)
    ensures w'.ev == w.ev && !w'.WHead? && (w'.WTail? <==> w.WHead?) && (w'.WCount? <==> w.WPublish?)
    ensures w'.WOverflow? <==> w.WTail? && (LooksFull(rc, w.h, k.tail) || force)
  {
  }

  /** One step inside the lock, `full` being what its check says if it makes one. */
  predicate Locked(at: Point, at': Point, full: bool)
  {
    && at.Holding?
    && if at.w.WOverflow? then at' == LockedFlag(at.todo, at.pending)
       else if at.w.WCount? then at' == NextLocked(at.todo, at.pending)
       else && at'.Holding? && at' == at.(w := at'.w) && at'.w.ev == at.w.ev && !at'.w.WHead?
            && (at'.w.WTail? <==> at.w.WHead?) && (at'.w.WCount? <==> at.w.WPublish?)
            && (at'.w.WOverflow? <==> at.w.WTail? && full)
  }

  /** The marks of a step inside the lock, and what it has met. */
  function LockedMarks(w: Writer): seq<Mark>
  {
    if w.WPublish? then [Mark(w.ev, Published)] else if w.WOverflow? then [Mark(w.ev, Dropped)] else []
  }

  function LockedMet(met: Met, w: Writer, full: bool): Met
  {
    if w.WTail? then met.(lockedFull := full) else met
  }

  lemma LockedShows(rc: RingConfig, s: State, i: nat, p: TextStore.Ptr, force: bool, met: Met, full: bool)
    requires i < |s.procs| && s.procs[i].at.Holding?
    requires var w := s.procs[i].at.w; full <==> w.WTail? && (LooksFull(rc, w.h, s.k.tail) || force)
    ensures Marks(s, Enqueue(i, p, force)) == LockedMarks(s.procs[i].at.w)
    ensures After(rc, met, s, Enqueue(i, p, force), i) == LockedMet(met, s.procs[i].at.w, full)
  {
  }

  lemma LockedLeads(rc: RingConfig, s: State, s': State, i: nat, p: TextStore.Ptr, force: bool, met: Met) returns (full: bool)
    requires i < |s.procs| && s.procs[i].at.Holding? && LockedStep(rc, s, s', i, p, force)
    ensures |s'.procs| == |s.procs| && s'.procs[i].batch == s.procs[i].batch
    ensures Locked(s.procs[i].at, s'.procs[i].at, full)
    ensures Marks(s, Enqueue(i, p, force)) == LockedMarks(s.procs[i].at.w)
    ensures After(rc, met, s, Enqueue(i, p, force), i) == LockedMet(met, s.procs[i].at.w, full)
  {
    var w := s.procs[i].at.w;
    full := w.WTail? && (LooksFull(rc, w.h, s.k.tail) || force);
    LockedShows(rc, s, i, p, force, met, full);
    if !w.WOverflow? && !w.WCount? { WriterLeads(rc, s.k, s'.k, i, w, s'.procs[i].at.w, p, force); }
  }

  lemma NextLeft(todo: seq<Event>, pending: Option<Event>)
    ensures Left(NextLocked(todo, pending)) == todo
  {
    if todo != [] { assert todo == [todo[0]] + todo[1..]; }
  }

  /** What is left after a step inside the lock. */
  lemma LockedLeft(at: Point, at': Point, full: bool)
    requires Locked(at, at', full)
    ensures Evs(LockedMarks(at.w)) + Left(at') == Left(at)
  {
    NextLeft(at.todo, at.pending);
    if at.w.WPublish? || at.w.WOverflow? { assert Evs(LockedMarks(at.w)) == [at.w.ev]; }
    else { assert Evs(LockedMarks(at.w)) == []; }
  }

  lemma Regroup(a: seq<Event>, b: seq<Event>, c: seq<Event>)
    ensures (a + b) + c == a + (b + c)
  {
  }

  /** No event is forgotten inside the lock. */
  lemma LockedCounts(at: Point, at': Point, marks: seq<Mark>, full: bool)
    requires Locked(at, at', full)
    ensures Evs(marks + LockedMarks(at.w)) + Left(at') == Evs(marks) + Left(at)
  {
    EvsOn(marks, LockedMarks(at.w));
    LockedLeft(at, at', full);
    Regroup(Evs(marks), Evs(LockedMarks(at.w)), Left(at'));
  }

  lemma OwnPoint(at: Point, at': Point, met: Met, full: bool)
    requires Locked(at, at', full) && OneAt(at, met)
    ensures OneAt(at', LockedMet(met, at.w, full))
  {
  }

  lemma OwnEnds(at: Point, marks: seq<Mark>, met: Met, full: bool, ev: Event)
    requires at.Holding? && OneAt(at, met) && Evs(marks) + Left(at) == [ev] && OneEnds(marks, met)
    ensures OneEnds(marks + LockedMarks(at.w), LockedMet(met, at.w, full))
  {
    OnlyOne(Evs(marks), at.w, at.todo, ev);
  }

  lemma OwnLocked(rc: RingConfig, s: State, s': State, i: nat, p: TextStore.Ptr, force: bool,
                  marks: seq<Mark>, met: Met, ev: Event, b0: seq<Event>)
    requires i < |s.procs| && s.procs[i].at.Holding? && LockedStep(rc, s, s', i, p, force)
    requires Stands(Own, s.procs[i], marks, met, ev, b0)
    ensures i < |s'.procs|
    ensures var act := Enqueue(i, p, force);
            Stands(Own, s'.procs[i], marks + Marks(s, act), After(rc, met, s, act, i), ev, b0)
  {
    var full := LockedLeads(rc, s, s', i, p, force, met);
    LockedCounts(s.procs[i].at, s'.procs[i].at, marks, full);
    OwnPoint(s.procs[i].at, s'.procs[i].at, met, full);
    OwnEnds(s.procs[i].at, marks, met, full, ev);
  }

  /** One event makes for one mark, or none yet. */
  lemma OnlyOne(evs: seq<Event>, w: Writer, todo: seq<Event>, ev: Event)
    requires evs + ((if w.WCount? then [] else [w.ev]) + todo) == [ev]
    ensures !w.WCount? ==> evs == [] && todo == [] && w.ev == ev
    ensures w.WCount? ==> evs + todo == [ev]
  {
    assert |evs| + |(if w.WCount? then [] else [w.ev]) + todo| == 1;
    if !w.WCount? { assert (evs + ([w.ev] + todo))[0] == w.ev; } else { assert [] + todo == todo; }
  }

  // ------------------------------------------------------------------
  // Steps of a flush
  // ------------------------------------------------------------------

  lemma FlushBegins(rc: RingConfig, s: State, s': State, i: nat, met: Met, b0: seq<Event>, pending: Option<Event>)
    requires Goes(rc, s, s', Produce(i), i) && s.procs[i].at == Flush(pending) && s.procs[i].batch == b0
    ensures FlushStands(s'.procs[i], Marks(s, Produce(i)), After(rc, met, s, Produce(i), i), b0, pending)
  {
    if !s.enabled { assert Evs(AllMarked(b0, Discarded)) == b0; } else { assert Evs([]) == []; }
  }

  lemma FlushChecks(rc: RingConfig, s: State, s': State, i: nat, marks: seq<Mark>, met: Met,
                    b0: seq<Event>, pending: Option<Event>)
    requires Goes(rc, s, s', Produce(i), i) && FlushStands(s.procs[i], marks, met, b0, pending)
    requires s.procs[i].at.FastHead? || s.procs[i].at.FastTail?
    ensures FlushStands(s'.procs[i], marks, After(rc, met, s, Produce(i), i), b0, pending) && Marks(s, Produce(i)) == []
  {
  }

  lemma FlushDrops(rc: RingConfig, s: State, s': State, i: nat, marks: seq<Mark>, met: Met,
                   b0: seq<Event>, pending: Option<Event>)
    requires Goes(rc, s, s', Produce(i), i) && FlushStands(s.procs[i], marks, met, b0, pending) && s.procs[i].at.FastDrop?
    ensures FlushStands(s'.procs[i], marks + Marks(s, Produce(i)), After(rc, met, s, Produce(i), i), b0, pending)
  {
    DropCounts(s.procs[i], s'.procs[i].at, s.enabled, marks);
  }

  lemma FlushLocks(rc: RingConfig, s: State, s': State, i: nat, marks: seq<Mark>, met: Met,
                   b0: seq<Event>, pending: Option<Event>)
    requires Goes(rc, s, s', Produce(i), i) && FlushStands(s.procs[i], marks, met, b0, pending)
    requires s.procs[i].at.WaitLock? || s.procs[i].at.Unlock?
    ensures FlushStands(s'.procs[i], marks, After(rc, met, s, Produce(i), i), b0, pending) && Marks(s, Produce(i)) == []
  {
    var at := s.procs[i].at;
    if at.WaitLock? { NextLeft(at.todo, at.pending); }
  }

  lemma FlushFlags(rc: RingConfig, s: State, s': State, i: nat, marks: seq<Mark>, met: Met,
                   b0: seq<Event>, pending: Option<Event>)
    requires Goes(rc, s, s', Flag(i), i) && FlushStands(s.procs[i], marks, met, b0, pending)
    ensures FlushStands(s'.procs[i], marks, After(rc, met, s, Flag(i), i), b0, pending) && Marks(s, Flag(i)) == []
  {
    NextLeft(s.procs[i].at.todo, s.procs[i].at.pending);
  }

  lemma FlushPoint(at: Point, at': Point, met: Met, full: bool, pending: Option<Event>)
    requires Locked(at, at', full) && FlushAt(at, met, pending)
    ensures FlushAt(at', LockedMet(met, at.w, full), pending)
  {
  }

  lemma FlushesEnd(at: Point, marks: seq<Mark>, met: Met, full: bool, pending: Option<Event>)
    requires at.Holding? && FlushAt(at, met, pending) && FlushEnds(marks, met)
    ensures FlushEnds(marks + LockedMarks(at.w), LockedMet(met, at.w, full))
  {
  }

  lemma FlushLocked(rc: RingConfig, s: State, s': State, i: nat, p: TextStore.Ptr, force: bool,
                    marks: seq<Mark>, met: Met, b0: seq<Event>, pending: Option<Event>)
    requires i < |s.procs| && s.procs[i].at.Holding? && LockedStep(rc, s, s', i, p, force)
    requires FlushStands(s.procs[i], marks, met, b0, pending)
    ensures i < |s'.procs|
    ensures var act := Enqueue(i, p, force);
            FlushStands(s'.procs[i], marks + Marks(s, act), After(rc, met, s, act, i), b0, pending)
  {
    var full := LockedLeads(rc, s, s', i, p, force, met);
    LockedCounts(s.procs[i].at, s'.procs[i].at, marks, full);
    FlushPoint(s.procs[i].at, s'.procs[i].at, met, full, pending);
    FlushesEnd(s.procs[i].at, marks, met, full, pending);
  }

  /** One step of a flush that is not over. */
  lemma FlushStep(rc: RingConfig, s: State, s': State, act: Act, i: nat,
                  marks: seq<Mark>, met: Met, b0: seq<Event>, pending: Option<Event>)
    requires Goes(rc, s, s', act, i) && FlushStands(s.procs[i], marks, met, b0, pending)
    requires !s.procs[i].at.StoreLocal? && !s.procs[i].at.Rest?
    ensures FlushStands(s'.procs[i], marks + Marks(s, act), After(rc, met, s, act, i), b0, pending)
  {
    assert marks + [] == marks;
    var at := s.procs[i].at;
    if act.Enqueue? { FlushLocked(rc, s, s', i, act.p, act.force, marks, met, b0, pending); }
    else if act.Flag? { FlushFlags(rc, s, s', i, marks, met, b0, pending); }
    else if at.FastHead? || at.FastTail? { FlushChecks(rc, s, s', i, marks, met, b0, pending); }
    else if at.FastDrop? { FlushDrops(rc, s, s', i, marks, met, b0, pending); }
    else { FlushLocks(rc, s, s', i, marks, met, b0, pending); }
  }

  /** A flush step changes nothing that the event's own path has met. */
  lemma FlushKeepsMet(rc: RingConfig, s: State, act: Act, i: nat, met: Met, pending: Option<Event>)
    requires i < |s.procs| && FlushAt(s.procs[i].at, met, pending)
    ensures After(rc, met, s, act, i).full == met.full && After(rc, met, s, act, i).free == met.free
  {
  }

  // ------------------------------------------------------------------
  // All steps of a call
  // ------------------------------------------------------------------

  lemma OwnStep(rc: RingConfig, s: State, s': State, act: Act, i: nat,
                marks: seq<Mark>, met: Met, ev: Event, b0: seq<Event>) returns (next: Phase)
    requires Goes(rc, s, s', act, i) && Stands(Own, s.procs[i], marks, met, ev, b0) && !s.procs[i].at.Rest?
    ensures Stands(next, s'.procs[i], marks + Marks(s, act), After(rc, met, s, act, i), ev, b0)
  {
    assert marks + [] == marks;
    var at := s.procs[i].at;
    next := Own;
    if act.Enqueue? { OwnLocked(rc, s, s', i, act.p, act.force, marks, met, ev, b0); }
    else if act.Flag? { OwnFlags(rc, s, s', i, marks, met, ev, b0); }
    else if at.Contended? {
      OwnContends(rc, s, s', i, marks, met, ev, b0);
      next := if |b0| >= BATCH_CAPACITY then Crowded else Storing;
    }
    else if at.FastDrop? || at.Unlock? { OwnDrops(rc, s, s', i, marks, met, ev, b0); }
    else { OwnChecks(rc, s, s', i, marks, met, ev, b0); }
  }

  lemma StoreStep(rc: RingConfig, s: State, s': State, act: Act, i: nat, met: Met, ev: Event)
    requires Goes(rc, s, s', act, i) && s.procs[i].at == StoreLocal(ev)
    ensures Marks(s, act) == [] && After(rc, met, s, act, i) == met
    ensures s'.procs[i].at.Rest? && s'.procs[i].batch == s.procs[i].batch + [ev]
  {
  }

  lemma CrowdedStep(rc: RingConfig, s: State, s': State, act: Act, i: nat, met: Met, ev: Event, b0: seq<Event>)
    requires Goes(rc, s, s', act, i) && Stands(Crowded, s.procs[i], [], met, ev, b0)
    ensures Stands(Flushing, s'.procs[i], Marks(s, act), After(rc, met, s, act, i), ev, b0)
  {
    assert act == Produce(i);
    FlushBegins(rc, s, s', i, met, b0, Some(ev));
  }

  lemma LaterStep(rc: RingConfig, s: State, s': State, act: Act, i: nat,
                  phase: Phase, marks: seq<Mark>, met: Met, ev: Event, b0: seq<Event>) returns (next: Phase)
    requires Goes(rc, s, s', act, i) && Stands(phase, s.procs[i], marks, met, ev, b0)
    requires !phase.Own? && !s.procs[i].at.Rest?
    ensures Stands(next, s'.procs[i], marks + Marks(s, act), After(rc, met, s, act, i), ev, b0)
  {
    assert marks + [] == marks && [] + Marks(s, act) == Marks(s, act);
    if phase.Crowded? {
      CrowdedStep(rc, s, s', act, i, met, ev, b0);
      next := Flushing;
    } else if s.procs[i].at.StoreLocal? {
      StoreStep(rc, s, s', act, i, met, ev);
      next := Stored;
    } else {
      FlushStep(rc, s, s', act, i, marks, met, b0, Some(ev));
      FlushKeepsMet(rc, s, act, i, met, Some(ev));
      next := Flushing;
    }
  }

  // ------------------------------------------------------------------
  // Calls in runs
  // ------------------------------------------------------------------

  /** From step m to step n, producer i is in one call that no error ends. */
  ghost predicate IsCall(rc: RingConfig, run: seq<State>, acts: seq<Act>, i: nat, m: nat, n: nat)
  {
    && IsRunBy(rc, run, acts) && m < n < |run| && i < |run[m].procs|
    && (forall k | m < k < n :: InCall(run[k], acts[k], i))
    && i < |run[n].procs| && run[n].procs[i].at.Rest?
  }

  predicate InCall(s: State, act: Act, i: nat)
  {
    i < |s.procs| && !s.procs[i].at.Rest? && act != Throw(i) && act != InitFails(i)
  }

  /** The marks of the call's own steps. */
  function CallMarks(run: seq<State>, acts: seq<Act>, i: nat, m: nat, k: nat): seq<Mark>
    requires m <= k <= |acts| && |run| == |acts| + 1
    decreases k
  {
    if k == m then []
    else CallMarks(run, acts, i, m, k - 1) + if IsOwn(acts[k - 1], i) then Marks(run[k - 1], acts[k - 1]) else []
  }

  /** What the call has met. */
  function CallMet(rc: RingConfig, run: seq<State>, acts: seq<Act>, i: nat, m: nat, k: nat): Met
    requires m <= k <= |acts| && |run| == |acts| + 1
    decreases k
  {
    if k == m then NOTHING else After(rc, CallMet(rc, run, acts, i, m, k - 1), run[k - 1], acts[k - 1], i)
  }

  /** Other processes' steps do not concern producer i in its call. */
  lemma OthersIgnore(rc: RingConfig, s: State, s': State, act: Act, i: nat)
    requires Next(rc, s, s', act) && InCall(s, act, i) && !IsOwn(act, i)
    ensures i < |s'.procs| && s'.procs[i] == s.procs[i]
  {
    OthersStay(rc, s, s', act);
  }

  ghost predicate StandsSomehow(p: Producer, marks: seq<Mark>, met: Met, ev: Event, b0: seq<Event>)
  {
    exists phase: Phase :: Stands(phase, p, marks, met, ev, b0)
  }

  lemma CallStep(rc: RingConfig, s: State, s': State, act: Act, i: nat, marks: seq<Mark>, met: Met, ev: Event, b0: seq<Event>)
    requires Next(rc, s, s', act) && InCall(s, act, i) && StandsSomehow(s.procs[i], marks, met, ev, b0)
    ensures i < |s'.procs|
    ensures var more := if IsOwn(act, i) then Marks(s, act) else [];
            StandsSomehow(s'.procs[i], marks + more, After(rc, met, s, act, i), ev, b0)
  {
    OthersStay(rc, s, s', act);
    var phase: Phase :| Stands(phase, s.procs[i], marks, met, ev, b0);
    if IsOwn(act, i) {
      var next;
      if phase.Own? { next := OwnStep(rc, s, s', act, i, marks, met, ev, b0); }
      else { next := LaterStep(rc, s, s', act, i, phase, marks, met, ev, b0); }
    } else {
      OthersIgnore(rc, s, s', act, i);
      assert marks + [] == marks;
    }
  }

  lemma CallBegins(rc: RingConfig, s: State, s': State, i: nat, ev: Event)
    requires Next(rc, s, s', Offer(i, ev))
    ensures i < |s'.procs| && Stands(Own, s'.procs[i], [], NOTHING, ev, s.procs[i].batch)
  {
    assert Evs([]) == [];
  }

  /** A step in the course of the call. */
  ghost predicate StepAt(rc: RingConfig, run: seq<State>, acts: seq<Act>, i: nat, j: nat)
    requires |run| == |acts| + 1 && j < |acts|
  {
    Next(rc, run[j], run[j + 1], acts[j]) && InCall(run[j], acts[j], i)
  }

  lemma CallSteps(rc: RingConfig, run: seq<State>, acts: seq<Act>, i: nat, m: nat, n: nat, j: nat)
    requires IsCall(rc, run, acts, i, m, n) && m < j < n
    ensures StepAt(rc, run, acts, i, j)
  {
    assert Next(rc, run[j], run[j + 1], acts[j]) && InCall(run[j], acts[j], i);
  }

  ghost predicate CallStands(rc: RingConfig, run: seq<State>, acts: seq<Act>, i: nat, m: nat, k: nat,
                             ev: Event, b0: seq<Event>)
    requires |run| == |acts| + 1 && m <= k <= |acts|
  {
    && i < |run[k].procs|
    && StandsSomehow(run[k].procs[i], CallMarks(run, acts, i, m, k), CallMet(rc, run, acts, i, m, k), ev, b0)
  }

  lemma CallFirst(rc: RingConfig, run: seq<State>, acts: seq<Act>, i: nat, m: nat, ev: Event)
    requires |run| == |acts| + 1 && m < |acts| && acts[m] == Offer(i, ev) && Next(rc, run[m], run[m + 1], acts[m])
    ensures CallStands(rc, run, acts, i, m, m + 1, ev, run[m].procs[i].batch)
  {
    CallBegins(rc, run[m], run[m + 1], i, ev);
    NothingYet(rc, run, acts, i, m);
  }

  lemma NothingYet(rc: RingConfig, run: seq<State>, acts: seq<Act>, i: nat, m: nat)
    requires |run| == |acts| + 1 && m < |acts| && !IsOwn(acts[m], i)
    ensures CallMarks(run, acts, i, m, m + 1) == [] && CallMet(rc, run, acts, i, m, m + 1) == NOTHING
  {
    assert CallMarks(run, acts, i, m, m) == [] && CallMet(rc, run, acts, i, m, m) == NOTHING;
    assert After(rc, NOTHING, run[m], acts[m], i) == NOTHING;
  }

  lemma CallNext(rc: RingConfig, run: seq<State>, acts: seq<Act>, i: nat, m: nat, j: nat, ev: Event, b0: seq<Event>)
    requires |run| == |acts| + 1 && m < j < |acts| && StepAt(rc, run, acts, i, j)
    requires CallStands(rc, run, acts, i, m, j, ev, b0)
    ensures CallStands(rc, run, acts, i, m, j + 1, ev, b0)
  {
    CallStep(rc, run[j], run[j + 1], acts[j], i, CallMarks(run, acts, i, m, j), CallMet(rc, run, acts, i, m, j), ev, b0);
  }

  /** What holds after step m and is kept by every step holds after step k. */
  lemma {:induction false} Persists(holds: seq<bool>, m: nat, k: nat)
    requires m <= k < |holds| && holds[m] && forall j | m <= j < k :: holds[j] ==> holds[j + 1]
    ensures holds[k]
  {
    if m < k {
      Persists(holds, m, k - 1);
      var j := k - 1;
      assert holds[j] ==> holds[j + 1];
    }
  }

  lemma CallAlong(rc: RingConfig, run: seq<State>, acts: seq<Act>, i: nat, m: nat, k: nat, ev: Event, b0: seq<Event>)
    requires |run| == |acts| + 1 && m < k <= |acts| && CallStands(rc, run, acts, i, m, m + 1, ev, b0)
    requires forall j | m < j < k :: StepAt(rc, run, acts, i, j)
    ensures CallStands(rc, run, acts, i, m, k, ev, b0)
  {
    var holds := seq(|run|, j requires 0 <= j < |run| => m <= j && CallStands(rc, run, acts, i, m, j, ev, b0));
    forall j | m + 1 <= j < k ensures holds[j] ==> holds[j + 1] {
      assert StepAt(rc, run, acts, i, j);
      if holds[j] { CallNext(rc, run, acts, i, m, j, ev, b0); }
    }
    Persists(holds, m + 1, k);
  }

  /** A call that stands at rest is over, in one of these ways. */
  lemma CallOver(p: Producer, marks: seq<Mark>, met: Met, ev: Event, b0: seq<Event>)
    requires StandsSomehow(p, marks, met, ev, b0) && p.at.Rest?
    ensures if met.full || met.free
            then p.batch == b0 && marks == [Mark(ev, if met.full || met.lockedFull then Dropped else Published)]
            else if |b0| < BATCH_CAPACITY then p.batch == b0 + [ev] && marks == []
            else p.batch == [ev] && Evs(marks) == b0 && FlushEnds(marks, met)
  {
    var phase: Phase :| Stands(phase, p, marks, met, ev, b0);
    if phase.Own? { assert Evs(marks) == [ev]; assert marks[0].ev == Evs(marks)[0]; }
  }

  /** What a call of PschEnqueueEvent does, whatever the other processes do
      meanwhile. If the queue looks full, without the lock or under it, the event is
      dropped. If the lock was free it is published otherwise. If not, the event
      joins the local batch, and if that held eight events all of these come to
      their end first: discarded if capture is disabled by then, dropped if the
      queue looks full, else published or dropped one by one. */
  lemma EventCall(rc: RingConfig, run: seq<State>, acts: seq<Act>, i: nat, m: nat, n: nat, ev: Event)
    requires IsCall(rc, run, acts, i, m, n) && acts[m] == Offer(i, ev)
    ensures var b0, b1 := run[m].procs[i].batch, run[n].procs[i].batch;
            var marks, met := CallMarks(run, acts, i, m, n), CallMet(rc, run, acts, i, m, n);
            if met.full || met.free
            then b1 == b0 && marks == [Mark(ev, if met.full || met.lockedFull then Dropped else Published)]
            else if |b0| < BATCH_CAPACITY then b1 == b0 + [ev] && marks == []
            else b1 == [ev] && Evs(marks) == b0 && FlushEnds(marks, met)
  {
    assert Next(rc, run[m], run[m + 1], acts[m]);
    CallFirst(rc, run, acts, i, m, ev);
    forall j | m < j < n ensures StepAt(rc, run, acts, i, j) { CallSteps(rc, run, acts, i, m, n, j); }
    CallAlong(rc, run, acts, i, m, n, ev, run[m].procs[i].batch);
    CallOver(run[n].procs[i], CallMarks(run, acts, i, m, n), CallMet(rc, run, acts, i, m, n), ev, run[m].procs[i].batch);
  }

  // ------------------------------------------------------------------
  // The flush at the end of a transaction
  // ------------------------------------------------------------------

  /** The flush is to come, under way or over. */
  ghost predicate EndStands(p: Producer, marks: seq<Mark>, met: Met, b0: seq<Event>)
  {
    (p.at == Flush(None) && p.batch == b0 && marks == []) || FlushStands(p, marks, met, b0, None)
  }

  lemma EndStep(rc: RingConfig, s: State, s': State, act: Act, i: nat, marks: seq<Mark>, met: Met, b0: seq<Event>)
    requires Next(rc, s, s', act) && InCall(s, act, i) && EndStands(s.procs[i], marks, met, b0)
    ensures i < |s'.procs|
    ensures EndStands(s'.procs[i], marks + (if IsOwn(act, i) then Marks(s, act) else []), After(rc, met, s, act, i), b0)
  {
    OthersStay(rc, s, s', act);
    assert marks + [] == marks && [] + Marks(s, act) == Marks(s, act);
    if !IsOwn(act, i) {
      OthersIgnore(rc, s, s', act, i);
    } else if s.procs[i].at.Flush? {
      assert act == Produce(i);
      FlushBegins(rc, s, s', i, met, b0, None);
    } else {
      FlushStep(rc, s, s', act, i, marks, met, b0, None);
    }
  }

  ghost predicate FlushCallStands(rc: RingConfig, run: seq<State>, acts: seq<Act>, i: nat, m: nat, k: nat, b0: seq<Event>)
    requires |run| == |acts| + 1 && m <= k <= |acts|
  {
    && i < |run[k].procs|
    && EndStands(run[k].procs[i], CallMarks(run, acts, i, m, k), CallMet(rc, run, acts, i, m, k), b0)
  }

  lemma FlushFirst(rc: RingConfig, run: seq<State>, acts: seq<Act>, i: nat, m: nat)
    requires |run| == |acts| + 1 && m < |acts| && acts[m] == TransactionEnd(i) && Next(rc, run[m], run[m + 1], acts[m])
    ensures FlushCallStands(rc, run, acts, i, m, m + 1, run[m].procs[i].batch)
  {
    NothingYet(rc, run, acts, i, m);
  }

  lemma FlushNext(rc: RingConfig, run: seq<State>, acts: seq<Act>, i: nat, m: nat, j: nat, b0: seq<Event>)
    requires |run| == |acts| + 1 && m < j < |acts| && StepAt(rc, run, acts, i, j)
    requires FlushCallStands(rc, run, acts, i, m, j, b0)
    ensures FlushCallStands(rc, run, acts, i, m, j + 1, b0)
  {
    EndStep(rc, run[j], run[j + 1], acts[j], i, CallMarks(run, acts, i, m, j), CallMet(rc, run, acts, i, m, j), b0);
  }

  lemma EndAlong(rc: RingConfig, run: seq<State>, acts: seq<Act>, i: nat, m: nat, k: nat, b0: seq<Event>)
    requires |run| == |acts| + 1 && m < k <= |acts| && FlushCallStands(rc, run, acts, i, m, m + 1, b0)
    requires forall j | m < j < k :: StepAt(rc, run, acts, i, j)
    ensures FlushCallStands(rc, run, acts, i, m, k, b0)
  {
    var holds := seq(|run|, j requires 0 <= j < |run| => m <= j && FlushCallStands(rc, run, acts, i, m, j, b0));
    forall j | m + 1 <= j < k ensures holds[j] ==> holds[j + 1] {
      assert StepAt(rc, run, acts, i, j);
      if holds[j] { FlushNext(rc, run, acts, i, m, j, b0); }
    }
    Persists(holds, m + 1, k);
  }

  /** What the flush at the end of a transaction does: the local batch is empty, and
      its events have come to their end in order. */
  lemma FlushCall(rc: RingConfig, run: seq<State>, acts: seq<Act>, i: nat, m: nat, n: nat)
    requires IsCall(rc, run, acts, i, m, n) && acts[m] == TransactionEnd(i)
    ensures var marks, met := CallMarks(run, acts, i, m, n), CallMet(rc, run, acts, i, m, n);
            run[n].procs[i].batch == [] && Evs(marks) == run[m].procs[i].batch && FlushEnds(marks, met)
  {
    assert Next(rc, run[m], run[m + 1], acts[m]);
    FlushFirst(rc, run, acts, i, m);
    forall j | m < j < n ensures StepAt(rc, run, acts, i, j) { CallSteps(rc, run, acts, i, m, n, j); }
    EndAlong(rc, run, acts, i, m, n, run[m].procs[i].batch);
  }
}
