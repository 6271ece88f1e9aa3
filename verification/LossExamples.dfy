/** Runs in which an error loses events. */
module LossExamples {
  import opened Events
  import opened RingArithmetic
  import TextStore
  import opened Ring
  import opened Pipeline

  // ------------------------------------------------------------------
  // Stretches of runs
  // ------------------------------------------------------------------

  ghost predicate EndsAt(rc: RingConfig, run: seq<State>, s: State)
  {
    IsRun(rc, run) && run[|run| - 1] == s
  }

  ghost predicate Reachable(rc: RingConfig, s: State)
  {
    exists run: seq<State> :: EndsAt(rc, run, s)
  }

  lemma Reach(rc: RingConfig, s: State, s': State, act: Act)
    requires Reachable(rc, s) && Next(rc, s, s', act)
    ensures Reachable(rc, s')
  {
    var run: seq<State> :| EndsAt(rc, run, s);
    assert Follows(rc, s, s');
    var more := run + [s'];
    forall i | 0 <= i < |more| - 1 ensures Follows(rc, more[i], more[i + 1]) {
      if i < |run| - 1 { assert Follows(rc, run[i], run[i + 1]); }
    }
    assert EndsAt(rc, more, s');
  }

  /** Producer i elsewhere, with another batch. */
  function With(s: State, i: nat, p: Producer): State
    requires i < |s.procs|
  {
    s.(procs := s.procs[i := p])
  }

  lemma WithTwice(s: State, i: nat, p: Producer, p': Producer)
    requires i < |s.procs|
    ensures With(With(s, i, p), i, p') == With(s, i, p')
  {
    assert s.procs[i := p][i := p'] == s.procs[i := p'];
  }

  function Offered(s: State, ev: Event): State
  {
    s.(tally := s.tally.(offered := s.tally.offered + [ev]))
  }

  /** A step of producer i outside the lock that moves only its program point. */
  lemma Walk(rc: RingConfig, s: State, i: nat, p: Producer, at: Point)
    requires i < |s.procs| && Reachable(rc, With(s, i, p))
    requires OutsideStep(rc, With(s, i, p), Put(With(s, i, p), i, p.batch, at), i)
    ensures Reachable(rc, With(s, i, p.(at := at)))
  {
    WithTwice(s, i, p, p.(at := at));
    assert Next(rc, With(s, i, p), With(s, i, p.(at := at)), Produce(i));
    Reach(rc, With(s, i, p), With(s, i, p.(at := at)), Produce(i));
  }

  /** An event is offered while the queue has room: the producer is about to try
      the lock. */
  lemma ToTheLock(rc: RingConfig, s: State, i: nat, ev: Event)
    requires Reachable(rc, s) && i < |s.procs| && s.procs[i].at.Rest? && s.enabled
    requires !LooksFull(rc, s.k.head, s.k.tail)
    ensures Reachable(rc, With(Offered(s, ev), i, s.procs[i].(at := TryLock(ev))))
  {
    var p, t, job := s.procs[i], Offered(s, ev), One(ev);
    assert Next(rc, s, With(t, i, p.(at := FastHead(job))), Offer(i, ev));
    Reach(rc, s, With(t, i, p.(at := FastHead(job))), Offer(i, ev));
    var at := FastTail(job, s.k.head, |s.k.published|, |s.k.delivered|);
    Walk(rc, t, i, p.(at := FastHead(job)), at);
    Walk(rc, t, i, p.(at := at), TryLock(ev));
  }

  /** The lock is refused. */
  lemma ToContention(rc: RingConfig, s: State, i: nat, ev: Event)
    requires Reachable(rc, s) && i < |s.procs| && s.procs[i].at.Rest? && s.enabled && !s.lock.Free?
    requires !LooksFull(rc, s.k.head, s.k.tail)
    ensures Reachable(rc, With(Offered(s, ev), i, s.procs[i].(at := Contended(ev))))
  {
    ToTheLock(rc, s, i, ev);
    Walk(rc, Offered(s, ev), i, s.procs[i].(at := TryLock(ev)), Contended(ev));
  }

  /** The event is kept in the local batch. */
  lemma Store(rc: RingConfig, s: State, i: nat, ev: Event)
    requires Reachable(rc, s) && i < |s.procs| && s.procs[i].at.Rest? && s.enabled && !s.lock.Free?
    requires !LooksFull(rc, s.k.head, s.k.tail) && |s.procs[i].batch| < BATCH_CAPACITY
    ensures Reachable(rc, With(Offered(s, ev), i, Producer(s.procs[i].batch + [ev], Rest, true)))
  {
    ToContention(rc, s, i, ev);
    var t, b := Offered(s, ev), s.procs[i].batch;
    var p, p', p'' := s.procs[i].(at := Contended(ev)), Producer(b, StoreLocal(ev), true), Producer(b + [ev], Rest, true);
    WithTwice(t, i, p, p');
    assert OutsideStep(rc, With(t, i, p), With(t, i, p'), i);
    Reach(rc, With(t, i, p), With(t, i, p'), Produce(i));
    WithTwice(t, i, p', p'');
    assert OutsideStep(rc, With(t, i, p'), With(t, i, p''), i);
    Reach(rc, With(t, i, p'), With(t, i, p''), Produce(i));
  }

  // ------------------------------------------------------------------
  // Losing a contended event
  // ------------------------------------------------------------------

  /** Whenever the lock is refused to a producer whose local batch is not
      initialised yet, its event may be lost. */
  lemma InitLoses(rc: RingConfig, s: State, i: nat, ev: Event) returns (end: State)
    requires Reachable(rc, s) && i < |s.procs| && s.procs[i].at.Rest? && s.enabled && !s.lock.Free?
    requires !LooksFull(rc, s.k.head, s.k.tail) && !s.procs[i].ready
    ensures Reachable(rc, end) && end.tally.lost == s.tally.lost + [ev]
  {
    ToContention(rc, s, i, ev);
    var t := With(Offered(s, ev), i, s.procs[i].(at := Contended(ev)));
    end := Uninitialised(t, i);
    assert Next(rc, t, end, InitFails(i));
    Reach(rc, t, end, InitFails(i));
  }

  // ------------------------------------------------------------------
  // Losing a flushed batch
  // ------------------------------------------------------------------

  /** At the end of a transaction the batch is flushed into a full queue. */
  lemma ToTheDrop(rc: RingConfig, s: State, i: nat)
    requires Reachable(rc, s) && i < |s.procs| && s.procs[i].at.Rest? && s.procs[i].batch != [] && s.enabled
    requires LooksFull(rc, s.k.head, s.k.tail)
    ensures Reachable(rc, With(s, i, Producer([], FastDrop(s.procs[i].batch, None), s.procs[i].ready)))
  {
    var b, p := s.procs[i].batch, s.procs[i].(at := Flush(None));
    assert Next(rc, s, With(s, i, p), TransactionEnd(i));
    Reach(rc, s, With(s, i, p), TransactionEnd(i));
    var p' := Producer([], FastHead(Many(b, None)), p.ready);
    WithTwice(s, i, p, p');
    assert OutsideStep(rc, With(s, i, p), With(s, i, p'), i);
    Reach(rc, With(s, i, p), With(s, i, p'), Produce(i));
    var at := FastTail(Many(b, None), s.k.head, |s.k.published|, |s.k.delivered|);
    Walk(rc, s, i, p', at);
    Walk(rc, s, i, p'.(at := at), FastDrop(b, None));
  }

  /** Whenever a local batch is flushed into a full queue and the overflow is not
      logged yet, all of it but the first event may be lost. */
  lemma BatchLoses(rc: RingConfig, s: State, i: nat) returns (end: State)
    requires Reachable(rc, s) && i < |s.procs| && s.procs[i].at.Rest? && s.procs[i].batch != [] && s.enabled
    requires LooksFull(rc, s.k.head, s.k.tail) && !s.overflowLogged
    ensures Reachable(rc, end) && end.tally.lost == s.tally.lost + s.procs[i].batch[1..]
  {
    ToTheDrop(rc, s, i);
    var b := s.procs[i].batch;
    var t := With(s, i, Producer([], FastDrop(b, None), s.procs[i].ready));
    var u := CountDrop(Put(t, i, [], FastFlag(b[1..], None)), b[0]);
    assert OutsideStep(rc, t, u, i);
    Reach(rc, t, u, Produce(i));
    end := Abandoned(u, i);
    assert b[1..] + [] == b[1..];
    assert Next(rc, u, end, Throw(i));
    Reach(rc, u, end, Throw(i));
  }

  // ------------------------------------------------------------------
  // A full queue
  // ------------------------------------------------------------------

  /** A queue of one slot, two producers. */
  function OneSlot(): RingConfig
  {
    RingConfig(TextStore.Config(_ => 0, _ => 0, 1), 1, 2)
  }

  function Fresh(): State
  {
    var store := TextStore.State(map[], map[], map[], [TextStore.Idle, TextStore.Idle, TextStore.Idle], map[], map[], map[]);
    var slot := Slot(Fixed(0, 0, []), 0, 0, TextStore.NULL, TextStore.NULL);
    State(Core(0, 0, [slot], store, [], []), Free, [Producer([], Rest, false), Producer([], Rest, false)], RIdle,
          Out(Draining(0), [], 0, 0), true, false, Counters(0, 0, 0), Tally([], [], [], []), Counters(0, 0, 0))
  }

  lemma StartsFresh()
    ensures Reachable(OneSlot(), Fresh())
  {
    var rc, s := OneSlot(), Fresh();
    assert BitAnd(1, 0) == 0;
    assert Pipeline.Init(rc, s);
    assert EndsAt(rc, [s], s);
  }

  /** Producer i is inside the lock with its event. */
  lemma TakeLock(rc: RingConfig, s: State, i: nat, ev: Event)
    requires Reachable(rc, s) && i < |s.procs| && s.procs[i].at.Rest? && s.enabled && s.lock.Free?
    requires !LooksFull(rc, s.k.head, s.k.tail)
    ensures Reachable(rc, With(Offered(s, ev), i, s.procs[i].(at := Holding(WHead(ev), [], None))).(lock := HeldBy(i)))
  {
    ToTheLock(rc, s, i, ev);
    var t := With(Offered(s, ev), i, s.procs[i].(at := TryLock(ev)));
    var u := Put(t, i, s.procs[i].batch, Holding(WHead(ev), [], None)).(lock := HeldBy(i));
    WithTwice(Offered(s, ev), i, s.procs[i].(at := TryLock(ev)), s.procs[i].(at := Holding(WHead(ev), [], None)));
    assert OutsideStep(rc, t, u, i);
    Reach(rc, t, u, Produce(i));
  }

  /** A step inside the lock. */
  function Inside(s: State, i: nat, w: Writer, k: Core): State
    requires i < |s.procs|
  {
    With(s, i, s.procs[i].(at := Holding(w, [], None))).(k := k)
  }

  lemma Write(rc: RingConfig, s: State, i: nat, w: Writer, k: Core, w': Writer, k': Core)
    requires i < |s.procs| && Reachable(rc, Inside(s, i, w, k)) && !w.WOverflow? && !w.WCount?
    requires WriterStep(rc, k, k', i, w, w', TextStore.NULL, false)
    ensures Reachable(rc, Inside(s, i, w', k'))
  {
    var t, u := Inside(s, i, w, k), Inside(s, i, w', k');
    WithTwice(s, i, s.procs[i].(at := Holding(w, [], None)), s.procs[i].(at := Holding(w', [], None)));
    assert LockedStep(rc, t, u, i, TextStore.NULL, false);
    assert Next(rc, t, u, Enqueue(i, TextStore.NULL, false));
    Reach(rc, t, u, Enqueue(i, TextStore.NULL, false));
  }

  /** The slot is written. */
  lemma Fill(rc: RingConfig, s: State, i: nat, ev: Event, k: Core) returns (k': Core)
    requires i < |s.procs| && rc.capacity == 1 && |k.slots| == 1 && k.head == k.tail == 0
    requires Reachable(rc, Inside(s, i, WHead(ev), k)) && ev.err == ""
    ensures Reachable(rc, Inside(s, i, WStoreErr(ev, 0, TextStore.NULL, NoText), k'))
    ensures |k'.slots| == 1 && k' == k.(slots := k'.slots)
  {
    Write(rc, s, i, WHead(ev), k, WTail(ev, 0), k);
    Write(rc, s, i, WTail(ev, 0), k, WFixed(ev, 0), k);
    k' := k.(slots := k.slots[0 := CopyFixed(ev)(k.slots[0])]);
    assert Masked(0, 1) == 0;
    Write(rc, s, i, WFixed(ev, 0), k, WAlloc(ev, 0), k');
    Write(rc, s, i, WAlloc(ev, 0), k', WStoreErr(ev, 0, TextStore.NULL, NoText), k');
  }

  /** An event without texts is published in the only slot: the queue is full. */
  lemma Publish(rc: RingConfig, s: State, i: nat, ev: Event, k: Core) returns (k': Core)
    requires i < |s.procs| && rc.capacity == 1 && |k.slots| == 1 && k.head == k.tail == 0
    requires Reachable(rc, Inside(s, i, WHead(ev), k)) && ev.err == "" && ev.query == ""
    ensures Reachable(rc, Inside(s, i, WCount(ev), k')) && k'.head == 1 && k'.tail == 0
  {
    var k1 := Fill(rc, s, i, ev, k);
    var k2 := k1.(slots := k1.slots[0 := CopyErr(ev, TextStore.NULL)(k1.slots[0])]);
    assert Masked(0, 1) == 0;
    Write(rc, s, i, WStoreErr(ev, 0, TextStore.NULL, NoText), k1, WQuery(ev, 0, NoText), k2);
    var k3 := k2.(slots := k2.slots[0 := k2.slots[0].(query := TextStore.NULL)]);
    Write(rc, s, i, WQuery(ev, 0, NoText), k2, WPublish(ev, 0, NoText, NoText), k3);
    k' := k3.(head := 1, published := k3.published + [Record(ev, NoText, NoText)]);
    Write(rc, s, i, WPublish(ev, 0, NoText, NoText), k3, WCount(ev), k');
  }

  /** Producer 1 of a fresh queue holds the lock. */
  function Taken(e0: Event): State
  {
    With(Offered(Fresh(), e0), 1, Producer([], Holding(WHead(e0), [], None), false)).(lock := HeldBy(1))
  }

  /** Producer 0 has stored two events meanwhile. */
  function Stored(e0: Event, e1: Event, e2: Event): State
  {
    With(Offered(With(Offered(Taken(e0), e1), 0, Producer([e1], Rest, true)), e2), 0, Producer([e1, e2], Rest, true))
  }

  lemma ToStored(e0: Event, e1: Event, e2: Event)
    ensures Reachable(OneSlot(), Stored(e0, e1, e2))
  {
    var rc := OneSlot();
    StartsFresh();
    TakeLock(rc, Fresh(), 1, e0);
    Store(rc, Taken(e0), 0, e1);
    assert [] + [e1] == [e1] && [e1] + [e2] == [e1, e2];
    Store(rc, With(Offered(Taken(e0), e1), 0, Producer([e1], Rest, true)), 0, e2);
  }

  /** Two events stored while another producer is in the lock; that one fills the
      queue; the flush drops the first and loses the second. */
  lemma FlushExample(e0: Event, e1: Event, e2: Event)
    requires e0.err == "" && e0.query == ""
    ensures exists run: seq<State> :: IsRun(OneSlot(), run) && run[|run| - 1].tally.lost == [e2]
  {
    var rc, s := OneSlot(), Stored(e0, e1, e2);
    ToStored(e0, e1, e2);
    assert Inside(s, 1, WHead(e0), s.k) == s;
    var k' := Publish(rc, s, 1, e0, s.k);
    var end := BatchLoses(rc, Inside(s, 1, WCount(e0), k'), 0);
    var run: seq<State> :| EndsAt(rc, run, end);
    assert [] + [e1, e2][1..] == [e2];
  }

  /** The lock is refused to a producer for the first time. */
  lemma InitExample(e0: Event, e1: Event)
    ensures exists run: seq<State> :: IsRun(OneSlot(), run) && run[|run| - 1].tally.lost == [e1]
  {
    StartsFresh();
    TakeLock(OneSlot(), Fresh(), 1, e0);
    var end := InitLoses(OneSlot(), Taken(e0), 0, e1);
    var run: seq<State> :| EndsAt(OneSlot(), run, end);
    assert [] + [e1] == [e1];
  }
}
