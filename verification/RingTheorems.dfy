/** Reference counts stay small, and neither end of the ring is ever stuck. */
module RingTheorems {
  import opened Sets
  import opened Events
  import opened RingArithmetic
  import opened TextStore
  import StoreInv = TextStoreInvariant
  import StoreProofs = TextStoreProofs
  import StoreThms = TextStoreTheorems
  import opened Ring
  import opened RingInvariant
  import opened RingProofs

  // ------------------------------------------------------------------
  // Reference counts
  // ------------------------------------------------------------------

  /** The position a reference belongs to: the reader's is that of the slot it
      empties, the writer's that of the slot it fills. */
  function HeldFor(rc: RingConfig, v: View, o: Owner): int
  {
    if o.BySlot? then o.pos else if o.client == rc.reader then T(v) else P(v)
  }

  /** One past the last position that may hold a reference. */
  function WindowEnd(v: View): nat
  {
    if v.writer.Some? && (v.writer.value.w.WIntern? || v.writer.value.w.WPublish?) then P(v) + 1 else P(v)
  }

  lemma HolderInWindow(rc: RingConfig, v: View, o: Owner)
    requires Inv(rc, v) && o in v.k.store.refs
    ensures T(v) <= HeldFor(rc, v, o) < WindowEnd(v)
    ensures o.ByClient? ==> BySlot(HeldFor(rc, v, o)) !in v.k.store.refs
    ensures o == ByClient(rc.reader) ==> T(v) < P(v)
    ensures o.ByClient? ==> o.client == rc.reader || (v.writer.Some? && v.writer.value.c == o.client && v.writer.value.w.WIntern?)
  {
    var s, x := v.k.store, SideOf(v.writer, v.reader);
    Get(rc, v, Queries);
    Get(rc, v, Interning);
    Get(rc, v, Store);
    Get(rc, v, Positions);
    assert StoreInv.Holds(rc.store, s, StoreInv.Profiles(s.clients), StoreInv.Refs);
    if o.BySlot? {
      assert QueryOk(rc, v.k, x, o.pos);
    } else {
      assert StoreInv.Profiles(s.clients)[o.client] == StoreInv.ProfileOf(s.clients[o.client]);
      assert QueryOk(rc, v.k, x, T(v)) && QueryOk(rc, v.k, x, P(v));
    }
  }

  /** The writer's and the reader's reference are for different positions. */
  lemma HoldersApart(rc: RingConfig, v: View, o: Owner, o': Owner)
    requires Inv(rc, v) && o in v.k.store.refs && o' in v.k.store.refs && o != o'
    ensures HeldFor(rc, v, o) != HeldFor(rc, v, o')
  {
    HolderInWindow(rc, v, o);
    HolderInWindow(rc, v, o');
  }

  lemma WindowFits(rc: RingConfig, v: View)
    requires Inv(rc, v)
    ensures T(v) <= WindowEnd(v) <= T(v) + rc.capacity
  {
    Get(rc, v, Positions);
    if v.writer.Some? { WriterRoom(rc, v); }
  }

  /** There are never more references than slots, so that a 32-bit reference
      count cannot overflow. */
  lemma RefsBounded(rc: RingConfig, v: View)
    requires Inv(rc, v)
    ensures |v.k.store.refs| <= rc.capacity < 0x1_0000_0000
  {
    var s := v.k.store;
    var m: map<Owner, int> := map o | o in s.refs :: HeldFor(rc, v, o);
    forall o | o in m ensures T(v) <= m[o] < WindowEnd(v) { HolderInWindow(rc, v, o); }
    forall o, o' | o in m && o' in m && o != o' ensures m[o] != m[o'] { HoldersApart(rc, v, o, o'); }
    WindowFits(rc, v);
    InjectionBound(m, T(v), WindowEnd(v));
    assert m.Keys == s.refs.Keys;
  }

  lemma RefcountFits(rc: RingConfig, v: View, k: Key)
    requires Inv(rc, v) && k in v.k.store.table
    ensures 1 <= v.k.store.table[k].refcount <= rc.capacity < 0x1_0000_0000
  {
    var s := v.k.store;
    Get(rc, v, Store);
    assert StoreInv.Holds(rc.store, s, StoreInv.Profiles(s.clients), StoreInv.Table);
    assert StoreInv.EntryOk(rc.store, s, k);
    SubsetBound(StoreInv.Holders(s.refs, s.table[k].body), s.refs.Keys);
    RefsBounded(rc, v);
  }

  // ------------------------------------------------------------------
  // Progress
  // ------------------------------------------------------------------

  /** Client c is not waiting for a partition lock. */
  predicate NotWaiting(rc: RingConfig, s: State, c: nat)
  {
    c < |s.clients| && (Wanted(rc.store, s.clients[c]).Some? ==> Wanted(rc.store, s.clients[c]).value !in s.locks)
  }

  /** Client c wants a partition lock that client d holds. */
  predicate WaitsFor(rc: RingConfig, s: State, c: nat, d: nat)
  {
    && c < |s.clients| && Wanted(rc.store, s.clients[c]).Some?
    && Wanted(rc.store, s.clients[c]).value in s.locks && s.locks[Wanted(rc.store, s.clients[c]).value] == d
  }

  ghost predicate WriterMoves(rc: RingConfig, k: Core, c: nat, w: Writer, p: Ptr, force: bool)
  {
    exists k': Core, w': Writer :: WriterStep(rc, k, k', c, w, w', p, force)
  }

  ghost predicate ReaderMoves(rc: RingConfig, k: Core, r: Reader, p: Ptr)
  {
    exists k': Core, r': Reader, s: Slot :: ReaderStep(rc, k, k', r, r', p, s)
  }

  /** The slot of the head can be written. */
  lemma CanWrite(rc: RingConfig, v: View, f: Slot -> Slot, st: State)
    requires Inv(rc, v)
    ensures rc.capacity > 0 && Masked(v.k.head, rc.capacity) < |v.k.slots|
    ensures var i := Masked(v.k.head, rc.capacity);
            SlotWritten(rc, v.k, v.k.(slots := v.k.slots[i := f(v.k.slots[i])], store := st), v.k.head, f)
  {
    Get(rc, v, Positions);
    MaskIsMod(v.k.head, rc.capacity);
  }

  lemma CanAlloc(rc: RingConfig, v: View, c: nat, ev: Event, h: nat, p: Ptr, force: bool)
    requires Inv(rc, v) && v.writer == Some(Busy(c, WAlloc(ev, h))) && p !in v.k.store.heap
    ensures WriterMoves(rc, v.k, c, WAlloc(ev, h), p, force)
  {
    if ev.err == "" {
      assert WriterStep(rc, v.k, v.k, c, WAlloc(ev, h), WStoreErr(ev, h, NULL, NoText), p, force);
    } else if p == NULL {
      assert WriterStep(rc, v.k, v.k, c, WAlloc(ev, h), WStoreErr(ev, h, NULL, OutOfMemory), p, force);
    } else {
      Get(rc, v, Staging);
      assert StagedOk(v.k, SideOf(v.writer, v.reader), c);
      var k' := v.k.(store := Apply(rc.store, v.k.store, AllocText(ByClient(c), p, Clamp(ev.err))));
      assert WriterStep(rc, v.k, k', c, WAlloc(ev, h), WStoreErr(ev, h, p, Kept), p, force);
    }
  }

  lemma CanStoreErr(rc: RingConfig, v: View, c: nat, ev: Event, h: nat, q: Ptr, f: Fate, p: Ptr, force: bool)
    requires Inv(rc, v) && v.writer == Some(Busy(c, WStoreErr(ev, h, q, f)))
    ensures WriterMoves(rc, v.k, c, WStoreErr(ev, h, q, f), p, force)
  {
    WriterRoom(rc, v);
    Get(rc, v, Staging);
    Get(rc, v, Texts);
    var x := SideOf(v.writer, v.reader);
    assert StagedOk(v.k, x, c) && TextOk(rc, v.k, x, P(v));
    var st := if q == NULL then v.k.store else Apply(rc.store, v.k.store, MoveText(ByClient(c), BySlot(P(v))));
    CanWrite(rc, v, CopyErr(ev, q), st);
    var i := Masked(v.k.head, rc.capacity);
    var k' := v.k.(slots := v.k.slots[i := CopyErr(ev, q)(v.k.slots[i])], store := st);
    assert WriterStep(rc, v.k, k', c, WStoreErr(ev, h, q, f), WQuery(ev, h, f), p, force);
  }

  lemma CanQuery(rc: RingConfig, v: View, c: nat, ev: Event, h: nat, f: Fate, p: Ptr, force: bool)
    requires Inv(rc, v) && v.writer == Some(Busy(c, WQuery(ev, h, f)))
    ensures WriterMoves(rc, v.k, c, WQuery(ev, h, f), p, force)
  {
    WriterRoom(rc, v);
    if ev.query == "" {
      CanWrite(rc, v, (s: Slot) => s.(query := NULL), v.k.store);
      var i := Masked(v.k.head, rc.capacity);
      var k' := v.k.(slots := v.k.slots[i := v.k.slots[i].(query := NULL)], store := v.k.store);
      assert WriterStep(rc, v.k, k', c, WQuery(ev, h, f), WPublish(ev, h, f, NoText), p, force);
    } else {
      Get(rc, v, Interning);
      var k' := v.k.(store := Apply(rc.store, v.k.store, BeginAcquire(c, RequestOf(rc, ev))));
      assert WriterStep(rc, v.k, k', c, WQuery(ev, h, f), WIntern(ev, h, f), p, force);
    }
  }

  lemma CanIntern(rc: RingConfig, v: View, c: nat, ev: Event, h: nat, f: Fate, p: Ptr, force: bool)
    requires Inv(rc, v) && v.writer == Some(Busy(c, WIntern(ev, h, f))) && p !in v.k.store.heap
    requires NotWaiting(rc, v.k.store, c)
    ensures WriterMoves(rc, v.k, c, WIntern(ev, h, f), p, force)
  {
    var s := v.k.store;
    var x := s.clients[c];
    Get(rc, v, Interning);
    Get(rc, v, Store);
    StoreProofs.At(rc.store, s, c);
    if x.AcqDone? {
      Get(rc, v, Queries);
      assert QueryOk(rc, v.k, SideOf(v.writer, v.reader), P(v));
      WriterRoom(rc, v);
      var st := Apply(rc.store, s, EndAcquire(c, BySlot(P(v))));
      CanWrite(rc, v, CopyQuery(ev, x.result), st);
      var i := Masked(v.k.head, rc.capacity);
      var k' := v.k.(slots := v.k.slots[i := CopyQuery(ev, x.result)(v.k.slots[i])], store := st);
      assert WriterStep(rc, v.k, k', c, WIntern(ev, h, f), WPublish(ev, h, f, x.fate), p, force);
    } else {
      StoreThms.SafeToStep(rc.store, s, c);
      var k' := v.k.(store := Apply(rc.store, s, Run(c, p)));
      assert WriterStep(rc, v.k, k', c, WIntern(ev, h, f), WIntern(ev, h, f), p, force);
    }
  }

  /** Whatever unused address the allocator returns, the writer can go on,
      unless it waits for a partition lock: the auxiliary state blocks nothing. */
  lemma WriterNotStuck(rc: RingConfig, v: View, p: Ptr, force: bool)
    requires Inv(rc, v) && v.writer.Some? && p !in v.k.store.heap
    requires !v.writer.value.w.WOverflow? && !v.writer.value.w.WCount?
    requires v.writer.value.w.WIntern? ==> NotWaiting(rc, v.k.store, v.writer.value.c)
    ensures WriterMoves(rc, v.k, v.writer.value.c, v.writer.value.w, p, force)
  {
    var c := v.writer.value.c;
    match v.writer.value.w
    case WHead(ev) => assert WriterStep(rc, v.k, v.k, c, WHead(ev), WTail(ev, v.k.head), p, force);
    case WTail(ev, h) =>
      var w' := if LooksFull(rc, h, v.k.tail) || force then WOverflow(ev) else WFixed(ev, h);
      assert WriterStep(rc, v.k, v.k, c, WTail(ev, h), w', p, force);
    case WFixed(ev, h) =>
      WriterRoom(rc, v);
      CanWrite(rc, v, CopyFixed(ev), v.k.store);
      var i := Masked(v.k.head, rc.capacity);
      var k' := v.k.(slots := v.k.slots[i := CopyFixed(ev)(v.k.slots[i])], store := v.k.store);
      assert WriterStep(rc, v.k, k', c, WFixed(ev, h), WAlloc(ev, h), p, force);
    case WAlloc(ev, h) => CanAlloc(rc, v, c, ev, h, p, force);
    case WStoreErr(ev, h, q, f) => CanStoreErr(rc, v, c, ev, h, q, f, p, force);
    case WQuery(ev, h, f) => CanQuery(rc, v, c, ev, h, f, p, force);
    case WIntern(ev, h, f) => CanIntern(rc, v, c, ev, h, f, p, force);
    case WPublish(ev, h, f, g) =>
      var k' := v.k.(head := (h + 1) % U64, published := v.k.published + [Record(ev, f, g)]);
      assert WriterStep(rc, v.k, k', c, WPublish(ev, h, f, g), WCount(ev), p, force);
  }

  lemma CanRead(rc: RingConfig, v: View, t: nat)
    requires Inv(rc, v) && t == v.k.tail && T(v) < P(v)
    ensures SlotRead(rc, v.k, t, SlotAt(rc, v.k, T(v)))
  {
    Get(rc, v, Positions);
    MaskIsMod(t, rc.capacity);
    MaskWraps(T(v), rc.capacity);
  }

  lemma CanReadErr(rc: RingConfig, v: View, p: Ptr)
    requires Inv(rc, v) && (v.reader.RFixed? || v.reader.RErr? || v.reader.RErrCopy? || v.reader.RErrFree?)
    ensures ReaderMoves(rc, v.k, v.reader, p)
  {
    var s := SlotAt(rc, v.k, T(v));
    Get(rc, v, ReaderAt);
    CanRead(rc, v, v.reader.t);
    Get(rc, v, Texts);
    assert TextOk(rc, v.k, SideOf(v.writer, v.reader), T(v));
    match v.reader
    case RFixed(t) => assert ReaderStep(rc, v.k, v.k, v.reader, RErr(t, s.fixed), p, s);
    case RErr(t, fixed) =>
      var r' := if s.err == NULL then RQuery(t, fixed, "") else RErrCopy(t, fixed, s.err, s.errLen);
      assert ReaderStep(rc, v.k, v.k, v.reader, r', p, s);
    case RErrCopy(t, fixed, q, n) =>
      var r' := RErrFree(t, fixed, ErrBytes(v.k.store.heap[q].bytes, n), q);
      assert ReaderStep(rc, v.k, v.k, v.reader, r', p, s);
    case RErrFree(t, fixed, err, q) =>
      var k' := v.k.(store := Apply(rc.store, v.k.store, FreeText(BySlot(T(v)), q)));
      assert ReaderStep(rc, v.k, k', v.reader, RQuery(t, fixed, err), p, s);
  }

  lemma CanReadQuery(rc: RingConfig, v: View, p: Ptr)
    requires Inv(rc, v) && v.reader.RQuery?
    ensures ReaderMoves(rc, v.k, v.reader, p)
  {
    var s, t, fixed, err := SlotAt(rc, v.k, T(v)), v.reader.t, v.reader.fixed, v.reader.err;
    Get(rc, v, ReaderAt);
    CanRead(rc, v, t);
    if s.query == NULL {
      assert ReaderStep(rc, v.k, v.k, v.reader, RPublish(t, Event(fixed, err, "")), p, s);
    } else {
      Get(rc, v, Queries);
      Get(rc, v, Interning);
      assert QueryOk(rc, v.k, SideOf(v.writer, v.reader), T(v));
      var k' := v.k.(store := Apply(rc.store, v.k.store, BeginRelease(rc.reader, BySlot(T(v)), s.query)));
      assert ReaderStep(rc, v.k, k', v.reader, RIntern(t, fixed, err), p, s);
    }
  }

  lemma CanResolve(rc: RingConfig, v: View, p: Ptr)
    requires Inv(rc, v) && v.reader.RIntern? && NotWaiting(rc, v.k.store, rc.reader) && p !in v.k.store.heap
    ensures ReaderMoves(rc, v.k, v.reader, p)
  {
    var st, slot := v.k.store, SlotAt(rc, v.k, T(v));
    var x := st.clients[rc.reader];
    Get(rc, v, Interning);
    Get(rc, v, Store);
    if x.RelDone? {
      var k' := v.k.(store := Apply(rc.store, st, EndRelease(rc.reader)));
      assert ReaderStep(rc, v.k, k', v.reader, RPublish(v.reader.t, Event(v.reader.fixed, v.reader.err, x.text)), p, slot);
    } else {
      StoreThms.SafeToStep(rc.store, st, rc.reader);
      var k' := v.k.(store := Apply(rc.store, st, Run(rc.reader, p)));
      assert ReaderStep(rc, v.k, k', v.reader, v.reader, p, slot);
    }
  }

  /** The reader can always go on, unless it waits for a partition lock. */
  lemma ReaderNotStuck(rc: RingConfig, v: View, p: Ptr)
    requires Inv(rc, v) && p !in v.k.store.heap
    requires v.reader.RIntern? ==> NotWaiting(rc, v.k.store, rc.reader)
    ensures ReaderMoves(rc, v.k, v.reader, p)
  {
    var slot := SlotAt(rc, v.k, T(v));
    match v.reader
    case RIdle => assert ReaderStep(rc, v.k, v.k, RIdle, RHead, p, slot);
    case RHead => assert ReaderStep(rc, v.k, v.k, RHead, RTail(v.k.head, P(v)), p, slot);
    case RTail(h, _) =>
      assert ReaderStep(rc, v.k, v.k, v.reader, if h == v.k.tail then RIdle else RFixed(v.k.tail), p, slot);
    case RQuery(_, _, _) => CanReadQuery(rc, v, p);
    case RIntern(_, _, _) => CanResolve(rc, v, p);
    case RPublish(t, out) =>
      var k' := v.k.(tail := (t + 1) % U64, delivered := v.k.delivered + [out]);
      assert ReaderStep(rc, v.k, k', v.reader, RIdle, p, slot);
    case _ => CanReadErr(rc, v, p);
  }

  /** A process that holds a partition lock waits for none, so the two ends
      never wait for each other. */
  lemma OneEndMoves(rc: RingConfig, v: View)
    requires Inv(rc, v)
    ensures NotWaiting(rc, v.k.store, rc.reader) || (v.writer.Some? && NotWaiting(rc, v.k.store, v.writer.value.c))
    ensures v.writer.Some? && !NotWaiting(rc, v.k.store, v.writer.value.c) ==>
              v.reader.RIntern? && WaitsFor(rc, v.k.store, v.writer.value.c, rc.reader)
  {
    var s := v.k.store;
    Get(rc, v, Interning);
    Get(rc, v, Store);
    assert StoreInv.Holds(rc.store, s, StoreInv.Profiles(s.clients), StoreInv.Locks);
    forall q | q in s.locks
      ensures s.locks[q] < |s.clients| && Wanted(rc.store, s.clients[s.locks[q]]).None? && !s.clients[s.locks[q]].Idle?
    {
      var d := s.locks[q];
      assert StoreInv.Profiles(s.clients)[d] == StoreInv.ProfileOf(s.clients[d]);
    }
  }
}
