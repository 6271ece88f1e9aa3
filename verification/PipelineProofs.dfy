/** Every step of the pipeline keeps its invariant. */
module PipelineProofs {
  import opened Events
  import opened RingArithmetic
  import TextStore
  import opened Ring
  import RingInvariant
  import RingProofs
  import RingReaderProofs
  import opened Pipeline
  import opened PipelineInvariant

  lemma Get(rc: RingConfig, s: State, part: Part)
    requires Inv(rc, s)
    ensures Holds(rc, s, part)
  {
  }

  // ------------------------------------------------------------------
  // What the ring's own steps leave alone
  // ------------------------------------------------------------------

  /** A writer's step keeps its event; only publishing adds to the history. */
  lemma WriterEffect(rc: RingConfig, k: Core, k': Core, c: nat, w: Writer, w': Writer, p: TextStore.Ptr, force: bool)
    requires WriterStep(rc, k, k', c, w, w', p, force)
    ensures w'.ev == w.ev && k'.delivered == k.delivered && |k'.store.clients| == |k.store.clients|
    ensures w'.WCount? <==> w.WPublish?
    ensures k'.published == if w.WPublish? then k.published + [Record(w.ev, w.err, w.query)] else k.published
  {
  }

  lemma ReaderEffect(rc: RingConfig, k: Core, k': Core, r: Reader, r': Reader, p: TextStore.Ptr, s: Slot)
    requires ReaderStep(rc, k, k', r, r', p, s)
    ensures k'.published == k.published && k.delivered <= k'.delivered && |k'.store.clients| == |k.store.clients|
  {
  }

  // ------------------------------------------------------------------
  // Counting
  // ------------------------------------------------------------------

  lemma {:induction false} CountAppend(a: seq<Event>, b: seq<Event>, q: Event -> bool)
    ensures Count(a + b, q) == Count(a, q) + Count(b, q)
  {
    if a == [] {
      assert a + b == b;
    } else {
      CountAppend(a[1..], b, q);
      assert (a + b)[1..] == a[1..] + b;
    }
  }

  lemma PublishedAppend(records: seq<Record>, r: Record, q: Event -> bool)
    ensures CountPublished(records + [r], q) == CountPublished(records, q) + if q(r.ev) then 1 else 0
  {
    assert (records + [r])[..|records|] == records;
  }

  /** What all producers but i hold. */
  function Others(procs: seq<Producer>, i: nat, q: Event -> bool): nat
    requires i < |procs|
  {
    CountBatched(procs[..i], q) + CountBatched(procs[i + 1..], q) +
    CountWorking(procs[..i], q) + CountWorking(procs[i + 1..], q)
  }

  lemma {:induction false} SplitBatched(procs: seq<Producer>, i: nat, q: Event -> bool)
    requires i < |procs|
    ensures CountBatched(procs, q) == Count(procs[i].batch, q) + CountBatched(procs[..i], q) + CountBatched(procs[i + 1..], q)
  {
    if i > 0 {
      SplitBatched(procs[1..], i - 1, q);
      assert procs[1..][..i - 1] == procs[..i][1..] && procs[1..][i..] == procs[i + 1..];
    }
  }

  lemma {:induction false} SplitWorking(procs: seq<Producer>, i: nat, q: Event -> bool)
    requires i < |procs|
    ensures CountWorking(procs, q) ==
            Count(InProgress(procs[i].at), q) + CountWorking(procs[..i], q) + CountWorking(procs[i + 1..], q)
  {
    if i > 0 {
      SplitWorking(procs[1..], i - 1, q);
      assert procs[1..][..i - 1] == procs[..i][1..] && procs[1..][i..] == procs[i + 1..];
    }
  }

  lemma Split(procs: seq<Producer>, i: nat, q: Event -> bool)
    requires i < |procs|
    ensures CountBatched(procs, q) + CountWorking(procs, q) ==
            Count(procs[i].batch, q) + Count(InProgress(procs[i].at), q) + Others(procs, i, q)
  {
    SplitBatched(procs, i, q);
    SplitWorking(procs, i, q);
  }

  /** All that one producer's step may move: its own events and the histories. */
  function Weight(s: State, p: Producer, q: Event -> bool): nat
  {
    CountPublished(s.k.published, q) + Count(s.tally.dropped, q) + Count(s.tally.discarded, q) + Count(s.tally.lost, q) +
    Count(p.batch, q) + Count(InProgress(p.at), q)
  }

  /** What leaves one place arrives in another. */
  lemma Rebalance(s: State, s': State, i: nat, q: Event -> bool)
    requires i < |s.procs| && |s'.procs| == |s.procs| && s'.procs == s.procs[i := s'.procs[i]]
    requires Weight(s', s'.procs[i], q) - Weight(s, s.procs[i], q) == Count(s'.tally.offered, q) - Count(s.tally.offered, q)
    requires Balanced(s, q)
    ensures Balanced(s', q)
  {
    Split(s.procs, i, q);
    Split(s'.procs, i, q);
    assert s'.procs[..i] == s.procs[..i] && s'.procs[i + 1..] == s.procs[i + 1..];
  }

  /** A step that moves nothing but a producer's program point. */
  lemma PointMoves(s: State, s': State, i: nat, at: Point, q: Event -> bool)
    requires i < |s.procs| == |s'.procs| && s'.procs == s.procs[i := Producer(s.procs[i].batch, at, s'.procs[i].ready)]
    requires s'.k.published == s.k.published && s'.tally == s.tally
    requires Count(InProgress(at), q) == Count(InProgress(s.procs[i].at), q) && Balanced(s, q)
    ensures Balanced(s', q)
  {
    Rebalance(s, s', i, q);
  }

  /** A step that counts one of a producer's events as dropped. */
  lemma DropMoves(s: State, s': State, i: nat, at: Point, ev: Event, q: Event -> bool)
    requires i < |s.procs| == |s'.procs| && s'.procs == s.procs[i := Producer(s.procs[i].batch, at, s'.procs[i].ready)]
    requires s'.k.published == s.k.published && s'.tally == s.tally.(dropped := s.tally.dropped + [ev])
    requires Count([ev], q) + Count(InProgress(at), q) == Count(InProgress(s.procs[i].at), q) && Balanced(s, q)
    ensures Balanced(s', q)
  {
    CountAppend(s.tally.dropped, [ev], q);
    Rebalance(s, s', i, q);
  }

  lemma CountFirst(todo: seq<Event>, q: Event -> bool)
    requires todo != []
    ensures Count(todo, q) == Count([todo[0]], q) + Count(todo[1..], q)
  {
    assert todo == [todo[0]] + todo[1..];
    CountAppend([todo[0]], todo[1..], q);
  }

  lemma CountJob(todo: seq<Event>, pending: Option<Event>, q: Event -> bool)
    ensures Count(todo + Maybe(pending), q) == Count(todo, q) + Count(Maybe(pending), q)
  {
    CountAppend(todo, Maybe(pending), q);
  }

  lemma CountHolding(w: Writer, todo: seq<Event>, pending: Option<Event>, q: Event -> bool)
    ensures Count(InProgress(Holding(w, todo, pending)), q) ==
            Count(Unpublished(w), q) + Count(todo, q) + Count(Maybe(pending), q)
  {
    CountAppend(Unpublished(w), todo + Maybe(pending), q);
    CountJob(todo, pending, q);
  }

  /** Moving on in the locked loop changes nothing but the program point. */
  lemma CountNext(todo: seq<Event>, pending: Option<Event>, q: Event -> bool)
    ensures Count(InProgress(NextLocked(todo, pending)), q) == Count(todo, q) + Count(Maybe(pending), q)
  {
    if todo != [] {
      CountHolding(WHead(todo[0]), todo[1..], pending, q);
      CountFirst(todo, q);
    }
  }

  lemma CountDone(pending: Option<Event>, q: Event -> bool)
    ensures Count(InProgress(Done(pending)), q) == Count(Maybe(pending), q)
  {
  }

  lemma DropBalance(rc: RingConfig, s: State, s': State, i: nat, q: Event -> bool)
    requires i < |s.procs| && s.procs[i].at.FastDrop? && OutsideStep(rc, s, s', i) && Balanced(s, q)
    ensures Balanced(s', q)
  {
    var todo, pending := s.procs[i].at.todo, s.procs[i].at.pending;
    CountJob(todo, pending, q);
    if todo == [] {
      CountDone(pending, q);
      PointMoves(s, s', i, Done(pending), q);
    } else {
      CountFirst(todo, q);
      CountJob(todo[1..], pending, q);
      DropMoves(s, s', i, FastFlag(todo[1..], pending), todo[0], q);
    }
  }

  lemma FlushBalance(rc: RingConfig, s: State, s': State, i: nat, q: Event -> bool)
    requires i < |s.procs| && s.procs[i].at.Flush? && OutsideStep(rc, s, s', i) && Balanced(s, q)
    ensures Balanced(s', q)
  {
    var b, pending := s.procs[i].batch, s.procs[i].at.pending;
    if s.enabled {
      CountJob(b, pending, q);
    } else {
      CountDone(pending, q);
      CountAppend(s.tally.discarded, b, q);
    }
    Rebalance(s, s', i, q);
  }

  lemma LockBalance(rc: RingConfig, s: State, s': State, i: nat, q: Event -> bool)
    requires i < |s.procs| && OutsideStep(rc, s, s', i) && Balanced(s, q) && s.procs[i].at.TryLock?
    ensures Balanced(s', q)
  {
    var ev := s.procs[i].at.ev;
    CountHolding(WHead(ev), [], None, q);
    PointMoves(s, s', i, if s.lock.Free? then Holding(WHead(ev), [], None) else Contended(ev), q);
  }

  lemma UnlockBalance(rc: RingConfig, s: State, s': State, i: nat, q: Event -> bool)
    requires i < |s.procs| && OutsideStep(rc, s, s', i) && Balanced(s, q) && s.procs[i].at.Unlock?
    ensures Balanced(s', q)
  {
    CountDone(s.procs[i].at.pending, q);
    PointMoves(s, s', i, Done(s.procs[i].at.pending), q);
  }

  lemma WaitBalance(rc: RingConfig, s: State, s': State, i: nat, q: Event -> bool)
    requires i < |s.procs| && OutsideStep(rc, s, s', i) && Balanced(s, q) && s.procs[i].at.WaitLock?
    ensures Balanced(s', q)
  {
    CountJob(s.procs[i].at.todo, s.procs[i].at.pending, q);
    CountNext(s.procs[i].at.todo, s.procs[i].at.pending, q);
    PointMoves(s, s', i, s'.procs[i].at, q);
  }

  lemma CheckBalance(rc: RingConfig, s: State, s': State, i: nat, q: Event -> bool)
    requires i < |s.procs| && OutsideStep(rc, s, s', i) && Balanced(s, q)
    requires s.procs[i].at.FastHead? || s.procs[i].at.FastTail? || s.procs[i].at.Contended?
    ensures Balanced(s', q)
  {
    assert InProgress(s'.procs[i].at) == InProgress(s.procs[i].at);
    PointMoves(s, s', i, s'.procs[i].at, q);
  }

  lemma OutsideBalance(rc: RingConfig, s: State, s': State, i: nat, q: Event -> bool)
    requires i < |s.procs| && OutsideStep(rc, s, s', i) && Balanced(s, q)
    ensures Balanced(s', q)
  {
    var at := s.procs[i].at;
    if at.FastDrop? {
      DropBalance(rc, s, s', i, q);
    } else if at.Flush? {
      FlushBalance(rc, s, s', i, q);
    } else if at.TryLock? {
      LockBalance(rc, s, s', i, q);
    } else if at.Unlock? {
      UnlockBalance(rc, s, s', i, q);
    } else if at.WaitLock? {
      WaitBalance(rc, s, s', i, q);
    } else if at.StoreLocal? {
      CountAppend(s.procs[i].batch, [at.ev], q);
      Rebalance(s, s', i, q);
    } else {
      assert at.FastHead? || at.FastTail? || at.Contended?;
      CheckBalance(rc, s, s', i, q);
    }
  }

  /** A step of TryEnqueueLocked that publishes moves the event to the history;
      the others only move the program point. */
  lemma WriterMoves(rc: RingConfig, s: State, s': State, i: nat, p: TextStore.Ptr, force: bool)
    requires i < |s.procs| && s.procs[i].at.Holding? && LockedStep(rc, s, s', i, p, force)
    requires !s.procs[i].at.w.WOverflow? && !s.procs[i].at.w.WCount?
    ensures |s'.procs| == |s.procs| && s'.procs[i].at.Holding? && s'.tally == s.tally
    ensures var w, w' := s.procs[i].at.w, s'.procs[i].at.w;
            && s'.procs == s.procs[i := Producer(s.procs[i].batch, s.procs[i].at.(w := w'), s.procs[i].ready)]
            && if w.WPublish?
               then Unpublished(w') == [] && s'.k.published == s.k.published + [Record(w.ev, w.err, w.query)]
               else Unpublished(w') == Unpublished(w) && s'.k.published == s.k.published
  {
    WriterEffect(rc, s.k, s'.k, i, s.procs[i].at.w, s'.procs[i].at.w, p, force);
  }

  lemma PublishBalance(s: State, s': State, i: nat, w': Writer, q: Event -> bool)
    requires i < |s.procs| && s.procs[i].at.Holding? && s.procs[i].at.w.WPublish? && Unpublished(w') == [] && Balanced(s, q)
    requires s'.procs == s.procs[i := Producer(s.procs[i].batch, s.procs[i].at.(w := w'), s.procs[i].ready)] && s'.tally == s.tally
    requires var w := s.procs[i].at.w; s'.k.published == s.k.published + [Record(w.ev, w.err, w.query)]
    ensures Balanced(s', q)
  {
    var w, todo, pending := s.procs[i].at.w, s.procs[i].at.todo, s.procs[i].at.pending;
    CountHolding(w, todo, pending, q);
    CountHolding(w', todo, pending, q);
    PublishedAppend(s.k.published, Record(w.ev, w.err, w.query), q);
    Rebalance(s, s', i, q);
  }

  lemma WriterBalance(rc: RingConfig, s: State, s': State, i: nat, p: TextStore.Ptr, force: bool, q: Event -> bool)
    requires i < |s.procs| && s.procs[i].at.Holding? && LockedStep(rc, s, s', i, p, force) && Balanced(s, q)
    requires !s.procs[i].at.w.WOverflow? && !s.procs[i].at.w.WCount?
    ensures Balanced(s', q)
  {
    WriterMoves(rc, s, s', i, p, force);
    var w' := s'.procs[i].at.w;
    if s.procs[i].at.w.WPublish? { PublishBalance(s, s', i, w', q); }
    else { PointMoves(s, s', i, s.procs[i].at.(w := w'), q); }
  }

  lemma OverflowBalance(rc: RingConfig, s: State, s': State, i: nat, p: TextStore.Ptr, force: bool, q: Event -> bool)
    requires i < |s.procs| && s.procs[i].at.Holding? && LockedStep(rc, s, s', i, p, force) && Balanced(s, q)
    requires s.procs[i].at.w.WOverflow?
    ensures Balanced(s', q)
  {
    var w, todo, pending := s.procs[i].at.w, s.procs[i].at.todo, s.procs[i].at.pending;
    CountHolding(w, todo, pending, q);
    CountJob(todo, pending, q);
    DropMoves(s, s', i, LockedFlag(todo, pending), w.ev, q);
  }

  lemma LockedBalance(rc: RingConfig, s: State, s': State, i: nat, p: TextStore.Ptr, force: bool, q: Event -> bool)
    requires i < |s.procs| && s.procs[i].at.Holding? && LockedStep(rc, s, s', i, p, force) && Balanced(s, q)
    ensures Balanced(s', q)
  {
    var w, todo, pending := s.procs[i].at.w, s.procs[i].at.todo, s.procs[i].at.pending;
    if w.WOverflow? {
      OverflowBalance(rc, s, s', i, p, force, q);
    } else if w.WCount? {
      CountHolding(w, todo, pending, q);
      CountNext(todo, pending, q);
      PointMoves(s, s', i, NextLocked(todo, pending), q);
    } else {
      WriterBalance(rc, s, s', i, p, force, q);
    }
  }

  lemma FlagBalance(rc: RingConfig, s: State, s': State, i: nat, q: Event -> bool)
    requires Next(rc, s, s', Flag(i)) && Balanced(s, q)
    ensures Balanced(s', q)
  {
    CountFlagged(s.procs[i].at, q);
    PointMoves(s, s', i, AfterFlag(s.procs[i].at), q);
  }

  lemma CountFlagged(at: Point, q: Event -> bool)
    requires Flagging(at)
    ensures Count(InProgress(AfterFlag(at)), q) == Count(InProgress(at), q)
  {
    CountJob(at.todo, at.pending, q);
    CountNext(at.todo, at.pending, q);
  }

  /** What an abandoned call leaves undone is lost. */
  lemma ThrowBalance(rc: RingConfig, s: State, s': State, i: nat, q: Event -> bool)
    requires Next(rc, s, s', Throw(i)) && Balanced(s, q)
    ensures Balanced(s', q)
  {
    assert Remaining(s.procs[i].at) == InProgress(s.procs[i].at);
    CountAppend(s.tally.lost, Remaining(s.procs[i].at), q);
    Rebalance(s, s', i, q);
  }

  lemma InitFailsBalance(rc: RingConfig, s: State, s': State, i: nat, q: Event -> bool)
    requires Next(rc, s, s', InitFails(i)) && Balanced(s, q)
    ensures Balanced(s', q)
  {
    CountAppend(s.tally.lost, [s.procs[i].at.ev], q);
    Rebalance(s, s', i, q);
  }

  lemma BeginBalance(rc: RingConfig, s: State, s': State, act: Act, q: Event -> bool)
    requires Next(rc, s, s', act) && (act.Offer? || act.TransactionEnd?) && Balanced(s, q)
    ensures Balanced(s', q)
  {
    if act.Offer? {
      CountAppend(s.tally.offered, [act.ev], q);
      assert InProgress(FastHead(One(act.ev))) == [act.ev];
    }
    Rebalance(s, s', act.i, q);
  }

  /** A step of a producer inside a call. */
  predicate IsProducers(act: Act)
  {
    act.Produce? || act.Enqueue? || act.Flag? || act.Throw? || act.InitFails?
  }

  lemma ProducerBalance(rc: RingConfig, s: State, s': State, act: Act, q: Event -> bool)
    requires Next(rc, s, s', act) && IsProducers(act) && Balanced(s, q)
    ensures Balanced(s', q)
  {
    match act
    case Produce(i) => OutsideBalance(rc, s, s', i, q);
    case Enqueue(i, p, force) => LockedBalance(rc, s, s', i, p, force, q);
    case Flag(i) => FlagBalance(rc, s, s', i, q);
    case Throw(i) => ThrowBalance(rc, s, s', i, q);
    case InitFails(i) => InitFailsBalance(rc, s, s', i, q);
  }

  lemma SystemBalance(rc: RingConfig, s: State, s': State, act: Act, q: Event -> bool)
    requires Next(rc, s, s', act) && Balanced(s, q)
    requires !(act.Offer? || act.TransactionEnd? || IsProducers(act))
    ensures Balanced(s', q)
  {
    if act.Dequeue? { ReaderEffect(rc, s.k, s'.k, s.reader, s'.reader, act.p, act.slot); }
    assert s'.tally == s.tally && s'.procs == s.procs && s'.k.published == s.k.published;
  }

  /** Every step moves events between places without losing track of any. */
  lemma NextBalance(rc: RingConfig, s: State, s': State, act: Act, q: Event -> bool)
    requires Next(rc, s, s', act) && Balanced(s, q)
    ensures Balanced(s', q)
  {
    if act.Offer? || act.TransactionEnd? {
      BeginBalance(rc, s, s', act, q);
    } else if IsProducers(act) {
      ProducerBalance(rc, s, s', act, q);
    } else {
      SystemBalance(rc, s, s', act, q);
    }
  }

  // ------------------------------------------------------------------
  // The invariant: steps outside TryEnqueueLocked
  // ------------------------------------------------------------------

  /** Positions as the ring's invariant has them. */
  lemma RingPositions(rc: RingConfig, s: State)
    requires Inv(rc, s)
    ensures s.k.head == |s.k.published| % U64 && s.k.tail == |s.k.delivered| % U64
    ensures |s.k.delivered| <= |s.k.published| <= |s.k.delivered| + rc.capacity <= |s.k.delivered| + 0x4000_0000
  {
    Get(rc, s, RingPart);
    RingProofs.Get(rc, ViewOf(s), RingInvariant.Positions);
  }

  /** Producer i moves outside TryEnqueueLocked. */
  ghost predicate Moves(rc: RingConfig, s: State, s': State, i: nat)
  {
    && i < |s.procs| && |s'.procs| == |s.procs| && s'.procs == s.procs[i := s'.procs[i]]
    && s'.k == s.k && s'.reader == s.reader
    && !s.procs[i].at.Holding? && !s.procs[i].at.LockedFlag?
    && s'.lock == (if s.procs[i].at.Unlock? then Free
                   else if s'.procs[i].at.Holding? then HeldBy(i) else s.lock)
    && (s'.procs[i].at.Holding? ==> s.lock.Free? && s'.procs[i].at.w.WHead?)
    && !s'.procs[i].at.Unlock? && !s'.procs[i].at.LockedFlag?
  }

  lemma MovesLock(rc: RingConfig, s: State, s': State, i: nat)
    requires Inv(rc, s) && Moves(rc, s, s', i)
    ensures Holds(rc, s', LockPart)
  {
    Get(rc, s, LockPart);
  }

  lemma MovesRing(rc: RingConfig, s: State, s': State, i: nat)
    requires Inv(rc, s) && Moves(rc, s, s', i)
    ensures Holds(rc, s', RingPart) && EnqueueTotal(s') == EnqueueTotal(s)
  {
    Get(rc, s, LockPart);
    Get(rc, s, Sizes);
    Get(rc, s, RingPart);
    if s'.procs[i].at.Holding? || s.procs[i].at.Unlock? {
      assert WriterOf(s) == None;
      RingProofs.OnSwitch(rc, ViewOf(s), ViewOf(s'));
    } else {
      assert ViewOf(s') == ViewOf(s);
    }
  }

  lemma MovesProducers(rc: RingConfig, s: State, s': State, i: nat)
    requires Inv(rc, s) && Moves(rc, s, s', i) && ProducerOk(rc, s.k, s'.procs[i])
    ensures Holds(rc, s', Producers)
  {
    Get(rc, s, Producers);
  }

  /** The parts a producer's own move concerns. */
  lemma MovesInv(rc: RingConfig, s: State, s': State, i: nat, part: Part)
    requires Inv(rc, s) && Moves(rc, s, s', i) && ProducerOk(rc, s.k, s'.procs[i])
    requires s'.counters.enqueued == s.counters.enqueued && s'.base.enqueued == s.base.enqueued
    requires part in {Sizes, RingPart, LockPart, Producers, Enqueues}
    ensures Holds(rc, s', part)
  {
    match part
    case Sizes => Get(rc, s, Sizes);
    case RingPart => MovesRing(rc, s, s', i);
    case LockPart => MovesLock(rc, s, s', i);
    case Producers => MovesProducers(rc, s, s', i);
    case Enqueues => Get(rc, s, Enqueues); MovesRing(rc, s, s', i);
  }

  /** The lock-free check and its drops. */
  lemma CheckMoves(rc: RingConfig, s: State, s': State, i: nat)
    requires i < |s.procs| && OutsideStep(rc, s, s', i) && ProducerOk(rc, s.k, s.procs[i])
    requires s.procs[i].at.FastHead? || s.procs[i].at.FastTail? || s.procs[i].at.FastDrop?
    requires s.k.head == |s.k.published| % U64
    requires |s.k.delivered| <= |s.k.published| <= |s.k.delivered| + rc.capacity
    ensures Moves(rc, s, s', i) && ProducerOk(rc, s.k, s'.procs[i])
  {
  }

  /** Taking and releasing the lock. */
  lemma LockMoves(rc: RingConfig, s: State, s': State, i: nat)
    requires i < |s.procs| && OutsideStep(rc, s, s', i) && ProducerOk(rc, s.k, s.procs[i])
    requires s.procs[i].at.TryLock? || s.procs[i].at.WaitLock? || s.procs[i].at.Unlock?
    ensures Moves(rc, s, s', i) && ProducerOk(rc, s.k, s'.procs[i])
  {
  }

  /** The local batch. */
  lemma BatchMoves(rc: RingConfig, s: State, s': State, i: nat)
    requires i < |s.procs| && OutsideStep(rc, s, s', i) && ProducerOk(rc, s.k, s.procs[i])
    requires s.procs[i].at.Contended? || s.procs[i].at.Flush? || s.procs[i].at.StoreLocal?
    ensures Moves(rc, s, s', i) && ProducerOk(rc, s.k, s'.procs[i])
  {
  }

  lemma OutsideMoves(rc: RingConfig, s: State, s': State, i: nat)
    requires Inv(rc, s) && i < |s.procs| && OutsideStep(rc, s, s', i)
    ensures Moves(rc, s, s', i) && ProducerOk(rc, s.k, s'.procs[i])
  {
    Get(rc, s, Producers);
    assert ProducerOk(rc, s.k, s.procs[i]);
    var at := s.procs[i].at;
    if at.FastHead? || at.FastTail? || at.FastDrop? {
      RingPositions(rc, s);
      CheckMoves(rc, s, s', i);
    } else if at.TryLock? || at.WaitLock? || at.Unlock? {
      LockMoves(rc, s, s', i);
    } else {
      BatchMoves(rc, s, s', i);
    }
  }

  lemma DropCounted(rc: RingConfig, s: State, s': State)
    requires Inv(rc, s) && s'.base == s.base && |s'.tally.dropped| == |s.tally.dropped| + 1
    requires s'.counters.dropped == (s.counters.dropped + 1) % U64
    ensures Holds(rc, s', Drops)
  {
    Get(rc, s, Drops);
    WrappedSuccessor(|s.tally.dropped| - s.base.dropped);
  }

  lemma OutsideDrops(rc: RingConfig, s: State, s': State, i: nat)
    requires Inv(rc, s) && i < |s.procs| && OutsideStep(rc, s, s', i)
    ensures Holds(rc, s', Drops)
  {
    if s.procs[i].at.FastDrop? && s.procs[i].at.todo != [] {
      DropCounted(rc, s, s');
    } else {
      Get(rc, s, Drops);
    }
  }

  /** No step of a producer concerns the exporter. */
  lemma OutsideFrame(rc: RingConfig, s: State, s': State, i: nat)
    requires i < |s.procs| && OutsideStep(rc, s, s', i)
    ensures s'.out == s.out && s'.base == s.base && s'.k == s.k && s'.reader == s.reader
    ensures s'.counters.exported == s.counters.exported && s'.counters.enqueued == s.counters.enqueued
  {
  }

  lemma OutsideInv(rc: RingConfig, s: State, s': State, i: nat)
    requires Inv(rc, s) && i < |s.procs| && OutsideStep(rc, s, s', i)
    ensures Inv(rc, s')
  {
    OutsideMoves(rc, s, s', i);
    OutsideFrame(rc, s, s', i);
    forall part: Part ensures Holds(rc, s', part) {
      match part
      case Drops => OutsideDrops(rc, s, s', i);
      case Exports => Get(rc, s, Exports);
      case Exporting => Get(rc, s, Exporting);
      case _ => MovesInv(rc, s, s', i, part);
    }
  }

  /** A producer at rest takes up an event or, at the end of a transaction, its batch. */
  lemma BeginInv(rc: RingConfig, s: State, s': State, act: Act)
    requires Inv(rc, s) && Next(rc, s, s', act) && (act.Offer? || act.TransactionEnd?)
    ensures Inv(rc, s')
  {
    Get(rc, s, Producers);
    assert ProducerOk(rc, s.k, s.procs[act.i]);
    Get(rc, s, LockPart);
    forall part: Part ensures Holds(rc, s', part) {
      if part in {Sizes, RingPart, LockPart, Producers, Enqueues} {
        MovesInv(rc, s, s', act.i, part);
      } else {
        Get(rc, s, part);
      }
    }
  }

  // ------------------------------------------------------------------
  // The invariant: steps inside TryEnqueueLocked
  // ------------------------------------------------------------------

  /** Positions only grow, so what a producer has seen stays in the past. */
  lemma GrowProducers(rc: RingConfig, s: State, s': State, i: nat)
    requires Inv(rc, s) && i < |s.procs| && |s'.procs| == |s.procs| && s'.procs == s.procs[i := s'.procs[i]]
    requires |s.k.published| <= |s'.k.published| && |s.k.delivered| <= |s'.k.delivered|
    requires ProducerOk(rc, s'.k, s'.procs[i])
    ensures Holds(rc, s', Producers)
  {
    Get(rc, s, Producers);
    forall j | 0 <= j < |s'.procs| ensures ProducerOk(rc, s'.k, s'.procs[j]) {
      if j != i { assert ProducerOk(rc, s.k, s.procs[j]); }
    }
  }

  /** Producer i, which holds the lock, goes on inside it. */
  ghost predicate Stays(s: State, s': State, i: nat)
  {
    && i < |s.procs| && |s'.procs| == |s.procs| && s'.procs == s.procs[i := s'.procs[i]]
    && s'.lock == s.lock && (s.procs[i].at.Holding? || s.procs[i].at.LockedFlag?) && Inside(s'.procs[i].at)
  }

  lemma StaysLock(rc: RingConfig, s: State, s': State, i: nat)
    requires Inv(rc, s) && Stays(s, s', i)
    ensures Holds(rc, s', LockPart) && s.lock == HeldBy(i)
  {
    Get(rc, s, LockPart);
  }

  /** The point is between two events of the locked loop. */
  predicate Pausing(at: Point)
  {
    at.LockedFlag? || at.Unlock? || (at.Holding? && (at.w.WHead? || at.w.WOverflow? || at.w.WCount?))
  }

  predicate CountsNow(at: Point)
  {
    at.Holding? && at.w.WCount?
  }

  /** The producer moves on between two events: to the flag, the next event or
      the unlock. */
  ghost predicate Finishes(rc: RingConfig, s: State, s': State, i: nat)
  {
    && Stays(s, s', i) && Pausing(s.procs[i].at) && Pausing(s'.procs[i].at) && !CountsNow(s'.procs[i].at)
    && s'.procs[i].batch == s.procs[i].batch && PendingLeft(s'.procs[i].at, s.procs[i].at.pending)
    && s'.k == s.k && s'.reader == s.reader
  }

  /** The point still has the same event pending, or none. */
  predicate PendingLeft(at: Point, pending: Option<Event>)
    requires Inside(at)
  {
    at.pending == pending || at.pending == None
  }

  lemma FinishesRing(rc: RingConfig, s: State, s': State, i: nat)
    requires Inv(rc, s) && Finishes(rc, s, s', i)
    ensures Holds(rc, s', RingPart)
    ensures EnqueueTotal(s') == EnqueueTotal(s) + if CountsNow(s.procs[i].at) then 1 else 0
  {
    StaysLock(rc, s, s', i);
    Get(rc, s, Sizes);
    Get(rc, s, RingPart);
    RingProofs.OnSwitch(rc, ViewOf(s), ViewOf(s'));
  }

  lemma FinishesProducers(rc: RingConfig, s: State, s': State, i: nat)
    requires Inv(rc, s) && Finishes(rc, s, s', i)
    ensures Holds(rc, s', Producers)
  {
    Get(rc, s, Producers);
    assert ProducerOk(rc, s.k, s.procs[i]);
    GrowProducers(rc, s, s', i);
  }

  /** The parts that a move between two events of the locked loop concerns only
      through the ring and the counters. */
  lemma FinishesInv(rc: RingConfig, s: State, s': State, i: nat)
    requires Inv(rc, s) && Finishes(rc, s, s', i)
    requires s'.out == s.out && s'.base == s.base && s'.counters.exported == s.counters.exported
    requires Holds(rc, s', Drops) && Holds(rc, s', Enqueues)
    ensures Inv(rc, s')
  {
    StaysLock(rc, s, s', i);
    FinishesRing(rc, s, s', i);
    forall part: Part ensures Holds(rc, s', part) {
      match part
      case RingPart =>
      case LockPart =>
      case Producers => FinishesProducers(rc, s, s', i);
      case Enqueues =>
      case Drops =>
      case _ => Get(rc, s, part);
    }
  }

  lemma FlagFrame(rc: RingConfig, s: State, s': State, i: nat, act: Act)
    requires (act == Flag(i) || act == Throw(i)) && Next(rc, s, s', act)
    ensures s'.out == s.out && s'.base == s.base && s'.counters == s.counters && s'.lock == s.lock && s'.k == s.k
    ensures s'.tally.dropped == s.tally.dropped && s'.reader == s.reader
    ensures |s'.procs| == |s.procs| && s'.procs == s.procs[i := s'.procs[i]] && s'.procs[i].batch == s.procs[i].batch
    ensures s.procs[i].at.LockedFlag? ==> Finishes(rc, s, s', i)
  {
  }

  /** The producer sets the flag, or abandons the call, inside the lock. */
  lemma FlagInsideInv(rc: RingConfig, s: State, s': State, i: nat, act: Act)
    requires Inv(rc, s) && (act == Flag(i) || act == Throw(i)) && Next(rc, s, s', act) && s.procs[i].at.LockedFlag?
    ensures Inv(rc, s')
  {
    FlagFrame(rc, s, s', i, act);
    FinishesRing(rc, s, s', i);
    Get(rc, s, Drops);
    Get(rc, s, Enqueues);
    FinishesInv(rc, s, s', i);
  }

  /** The same outside the lock. */
  lemma FlagOutsideInv(rc: RingConfig, s: State, s': State, i: nat, act: Act)
    requires Inv(rc, s) && (act == Flag(i) || act == Throw(i)) && Next(rc, s, s', act) && s.procs[i].at.FastFlag?
    ensures Inv(rc, s')
  {
    Get(rc, s, Producers);
    assert ProducerOk(rc, s.k, s.procs[i]);
    Get(rc, s, LockPart);
    forall part: Part ensures Holds(rc, s', part) {
      if part in {Sizes, RingPart, LockPart, Producers, Enqueues} {
        MovesInv(rc, s, s', i, part);
      } else {
        Get(rc, s, part);
      }
    }
  }

  /** The contended event is abandoned. */
  lemma InitFailsInv(rc: RingConfig, s: State, s': State, i: nat)
    requires Inv(rc, s) && Next(rc, s, s', InitFails(i))
    ensures Inv(rc, s')
  {
    Get(rc, s, Producers);
    assert ProducerOk(rc, s.k, s.procs[i]);
    Get(rc, s, LockPart);
    forall part: Part ensures Holds(rc, s', part) {
      if part in {Sizes, RingPart, LockPart, Producers, Enqueues} {
        MovesInv(rc, s, s', i, part);
      } else {
        Get(rc, s, part);
      }
    }
  }

  lemma FlagInv(rc: RingConfig, s: State, s': State, i: nat, act: Act)
    requires Inv(rc, s) && (act == Flag(i) || act == Throw(i)) && Next(rc, s, s', act)
    ensures Inv(rc, s')
  {
    if s.procs[i].at.LockedFlag? { FlagInsideInv(rc, s, s', i, act); } else { FlagOutsideInv(rc, s, s', i, act); }
  }

  lemma OverflowInv(rc: RingConfig, s: State, s': State, i: nat, p: TextStore.Ptr, force: bool)
    requires Inv(rc, s) && i < |s.procs| && s.procs[i].at.Holding? && s.procs[i].at.w.WOverflow?
    requires LockedStep(rc, s, s', i, p, force)
    ensures Inv(rc, s')
  {
    assert Finishes(rc, s, s', i);
    FinishesRing(rc, s, s', i);
    DropCounted(rc, s, s');
    Get(rc, s, Enqueues);
    FinishesInv(rc, s, s', i);
  }

  lemma CountInv(rc: RingConfig, s: State, s': State, i: nat, p: TextStore.Ptr, force: bool)
    requires Inv(rc, s) && i < |s.procs| && s.procs[i].at.Holding? && s.procs[i].at.w.WCount?
    requires LockedStep(rc, s, s', i, p, force)
    ensures Inv(rc, s')
  {
    assert Finishes(rc, s, s', i);
    FinishesRing(rc, s, s', i);
    Get(rc, s, Drops);
    Get(rc, s, Enqueues);
    WrappedSuccessor(EnqueueTotal(s) - s.base.enqueued);
    FinishesInv(rc, s, s', i);
  }

  /** A step of the ring's writer. */
  ghost predicate Writes(rc: RingConfig, s: State, s': State, i: nat, p: TextStore.Ptr, force: bool)
  {
    && Stays(s, s', i) && s.procs[i].at.Holding? && s'.procs[i].at.Holding?
    && s' == s.(k := s'.k, procs := s'.procs)
    && s'.procs[i] == Producer(s.procs[i].batch, s.procs[i].at.(w := s'.procs[i].at.w), s.procs[i].ready)
    && WriterStep(rc, s.k, s'.k, i, s.procs[i].at.w, s'.procs[i].at.w, p, force)
  }

  lemma WritesRing(rc: RingConfig, s: State, s': State, i: nat, p: TextStore.Ptr, force: bool)
    requires Inv(rc, s) && Writes(rc, s, s', i, p, force)
    ensures Holds(rc, s', RingPart)
  {
    StaysLock(rc, s, s', i);
    Get(rc, s, RingPart);
    RingProofs.WriterStepInv(rc, ViewOf(s), ViewOf(s'), i, p, force);
  }

  lemma WritesProducers(rc: RingConfig, s: State, s': State, i: nat, p: TextStore.Ptr, force: bool)
    requires Inv(rc, s) && Writes(rc, s, s', i, p, force)
    ensures Holds(rc, s', Producers)
  {
    WriterEffect(rc, s.k, s'.k, i, s.procs[i].at.w, s'.procs[i].at.w, p, force);
    Get(rc, s, Producers);
    assert ProducerOk(rc, s.k, s.procs[i]);
    GrowProducers(rc, s, s', i);
  }

  lemma WritesCounters(rc: RingConfig, s: State, s': State, i: nat, p: TextStore.Ptr, force: bool)
    requires Inv(rc, s) && Writes(rc, s, s', i, p, force)
    ensures Holds(rc, s', Sizes) && Holds(rc, s', Enqueues) && Holds(rc, s', Exporting)
  {
    WriterEffect(rc, s.k, s'.k, i, s.procs[i].at.w, s'.procs[i].at.w, p, force);
    StaysLock(rc, s, s', i);
    Get(rc, s, Sizes);
    Get(rc, s, Enqueues);
    Get(rc, s, Exporting);
    assert EnqueueTotal(s') == EnqueueTotal(s);
  }

  lemma WritesInv(rc: RingConfig, s: State, s': State, i: nat, p: TextStore.Ptr, force: bool)
    requires Inv(rc, s) && Writes(rc, s, s', i, p, force)
    ensures Inv(rc, s')
  {
    StaysLock(rc, s, s', i);
    WritesCounters(rc, s, s', i, p, force);
    forall part: Part ensures Holds(rc, s', part) {
      match part
      case Sizes =>
      case RingPart => WritesRing(rc, s, s', i, p, force);
      case LockPart =>
      case Producers => WritesProducers(rc, s, s', i, p, force);
      case Enqueues =>
      case Exporting =>
      case _ => Get(rc, s, part);
    }
  }

  lemma LockedInv(rc: RingConfig, s: State, s': State, i: nat, p: TextStore.Ptr, force: bool)
    requires Inv(rc, s) && i < |s.procs| && s.procs[i].at.Holding? && LockedStep(rc, s, s', i, p, force)
    ensures Inv(rc, s')
  {
    if s.procs[i].at.w.WOverflow? {
      OverflowInv(rc, s, s', i, p, force);
    } else if s.procs[i].at.w.WCount? {
      CountInv(rc, s, s', i, p, force);
    } else {
      WritesInv(rc, s, s', i, p, force);
    }
  }

  // ------------------------------------------------------------------
  // The invariant: the consumer, the exporter and the administrator
  // ------------------------------------------------------------------

  lemma DequeueInv(rc: RingConfig, s: State, s': State, p: TextStore.Ptr, slot: Slot)
    requires Inv(rc, s) && Next(rc, s, s', Dequeue(p, slot))
    ensures Inv(rc, s')
  {
    ReaderEffect(rc, s.k, s'.k, s.reader, s'.reader, p, slot);
    forall part: Part ensures Holds(rc, s', part) {
      Get(rc, s, part);
      if part == RingPart {
        RingReaderProofs.ReaderStepInv(rc, ViewOf(s), ViewOf(s'), p, slot);
      } else if part == Producers {
        forall j | 0 <= j < |s'.procs| ensures ProducerOk(rc, s'.k, s'.procs[j]) {
          assert ProducerOk(rc, s.k, s.procs[j]);
        }
      }
    }
  }

  /** Only the exporter's account and the exported counter change. */
  lemma OutOnly(rc: RingConfig, s: State, s': State)
    requires Inv(rc, s) && s' == s.(out := s'.out, counters := s.counters.(exported := s'.counters.exported))
    requires Holds(rc, s', Exporting) && Holds(rc, s', Exports)
    ensures Inv(rc, s')
  {
    forall part: Part ensures Holds(rc, s', part) {
      if part != Exporting && part != Exports { Get(rc, s, part); }
    }
  }

  lemma SentOk(out: Out, tail: nat, n: nat, ok: bool)
    requires ExporterOk(out, tail, true) && out.stage.Sending? && out.stage.next + n <= tail
    ensures ExporterOk(Sent(out, n, ok), tail, true)
  {
  }

  lemma SendInv(rc: RingConfig, s: State, s': State, n: nat, ok: bool)
    requires Inv(rc, s) && Next(rc, s, s', Send(n, ok))
    ensures Inv(rc, s')
  {
    Get(rc, s, Exporting);
    Get(rc, s, Exports);
    SentOk(s.out, |s.k.delivered|, n, ok);
    OutOnly(rc, s, s');
  }

  lemma CommitInv(rc: RingConfig, s: State, s': State)
    requires Inv(rc, s) && Next(rc, s, s', Commit)
    ensures Inv(rc, s')
  {
    Get(rc, s, Exporting);
    Get(rc, s, Exports);
    WrappedSum(s.out.total - s.base.exported, s.out.stage.ok);
    OutOnly(rc, s, s');
  }

  lemma StageInv(rc: RingConfig, s: State, s': State, act: Act)
    requires Inv(rc, s) && Next(rc, s, s', act) && (act.EndDrain? || act.Abandon?)
    ensures Inv(rc, s')
  {
    Get(rc, s, Exporting);
    Get(rc, s, Exports);
    OutOnly(rc, s, s');
  }

  lemma ForeignLockInv(rc: RingConfig, s: State, s': State, act: Act)
    requires Inv(rc, s) && Next(rc, s, s', act) && (act.LockElsewhere? || act.UnlockElsewhere?)
    ensures Inv(rc, s')
  {
    forall part: Part ensures Holds(rc, s', part) { Get(rc, s, part); }
  }

  lemma SettingInv(rc: RingConfig, s: State, s': State, act: Act)
    requires Inv(rc, s) && Next(rc, s, s', act) && (act.Toggle? || act.ResetFlag?)
    ensures Inv(rc, s')
  {
    forall part: Part ensures Holds(rc, s', part) { Get(rc, s, part); }
  }

  lemma ResetInv(rc: RingConfig, s: State, s': State, act: Act)
    requires Inv(rc, s) && Next(rc, s, s', act) && act in {ResetEnqueued, ResetDropped, ResetExported}
    ensures Inv(rc, s')
  {
    forall part: Part ensures Holds(rc, s', part) { Get(rc, s, part); }
  }

  lemma SystemInv(rc: RingConfig, s: State, s': State, act: Act)
    requires Inv(rc, s) && Next(rc, s, s', act)
    requires act.EndDrain? || act.Abandon? || act.LockElsewhere? || act.UnlockElsewhere? || act.Toggle? ||
             act.ResetFlag? || act.ResetEnqueued? || act.ResetDropped? || act.ResetExported?
    ensures Inv(rc, s')
  {
    if act.EndDrain? || act.Abandon? {
      StageInv(rc, s, s', act);
    } else if act.LockElsewhere? || act.UnlockElsewhere? {
      ForeignLockInv(rc, s, s', act);
    } else if act.Toggle? || act.ResetFlag? {
      SettingInv(rc, s, s', act);
    } else {
      ResetInv(rc, s, s', act);
    }
  }

  lemma ProduceInv(rc: RingConfig, s: State, s': State, i: nat)
    requires Inv(rc, s) && Next(rc, s, s', Produce(i))
    ensures Inv(rc, s')
  {
    OutsideInv(rc, s, s', i);
  }

  lemma EnqueueInv(rc: RingConfig, s: State, s': State, i: nat, p: TextStore.Ptr, force: bool)
    requires Inv(rc, s) && Next(rc, s, s', Enqueue(i, p, force))
    ensures Inv(rc, s')
  {
    LockedInv(rc, s, s', i, p, force);
  }

  lemma ConsumerInv(rc: RingConfig, s: State, s': State, act: Act)
    requires Inv(rc, s) && Next(rc, s, s', act) && (act.Dequeue? || act.Send? || act.Commit?)
    ensures Inv(rc, s')
  {
    match act
    case Dequeue(p, slot) => DequeueInv(rc, s, s', p, slot);
    case Send(n, ok) => SendInv(rc, s, s', n, ok);
    case Commit => CommitInv(rc, s, s');
  }

  lemma ProducerInv(rc: RingConfig, s: State, s': State, act: Act)
    requires Inv(rc, s) && Next(rc, s, s', act) && (IsProducers(act) || act.Offer? || act.TransactionEnd?)
    ensures Inv(rc, s')
  {
    if act.Produce? {
      ProduceInv(rc, s, s', act.i);
    } else if act.Enqueue? {
      EnqueueInv(rc, s, s', act.i, act.p, act.force);
    } else if act.Flag? || act.Throw? {
      FlagInv(rc, s, s', act.i, act);
    } else if act.InitFails? {
      InitFailsInv(rc, s, s', act.i);
    } else {
      BeginInv(rc, s, s', act);
    }
  }

  /** Every step keeps the invariant. */
  lemma NextInv(rc: RingConfig, s: State, s': State, act: Act)
    requires Inv(rc, s) && Next(rc, s, s', act)
    ensures Inv(rc, s')
  {
    if IsProducers(act) || act.Offer? || act.TransactionEnd? {
      ProducerInv(rc, s, s', act);
    } else if act.Dequeue? || act.Send? || act.Commit? {
      ConsumerInv(rc, s, s', act);
    } else {
      SystemInv(rc, s, s', act);
    }
  }

  lemma InitInv(rc: RingConfig, s: State)
    requires Pipeline.Init(rc, s)
    ensures Inv(rc, s)
  {
    RingReaderProofs.InitInv(rc, s.k);
    assert ViewOf(s) == RingInvariant.View(s.k, None, RIdle);
    forall part: Part ensures Holds(rc, s, part) { }
  }

  lemma {:induction false} RestIsNothing(procs: seq<Producer>, q: Event -> bool)
    requires forall i | 0 <= i < |procs| :: procs[i] == Producer([], Rest, false)
    ensures CountBatched(procs, q) == 0 && CountWorking(procs, q) == 0
  {
    if procs != [] { RestIsNothing(procs[1..], q); }
  }

  lemma InitBalance(rc: RingConfig, s: State, q: Event -> bool)
    requires Pipeline.Init(rc, s)
    ensures Balanced(s, q)
  {
    RestIsNothing(s.procs, q);
  }
}
