/** Steps of the writer and of the reader keep the invariant of the ring. */
module RingProofs {
  import opened Events
  import opened RingArithmetic
  import opened TextStore
  import StoreInv = TextStoreInvariant
  import StoreProofs = TextStoreProofs
  import StoreThms = TextStoreTheorems
  import opened Ring
  import opened RingInvariant

  function P(v: View): nat { |v.k.published| }
  function T(v: View): nat { |v.k.delivered| }

  lemma Get(rc: RingConfig, v: View, part: Part)
    requires Inv(rc, v)
    ensures Holds(rc, v, part)
  {
  }

  // ------------------------------------------------------------------
  // Moves that leave shared memory alone
  // ------------------------------------------------------------------

  /** The writer moves on and nothing it holds changes. */
  lemma WriterMove(rc: RingConfig, v: View, v': View)
    requires Inv(rc, v) && v'.k == v.k && v'.reader == v.reader && v.writer.Some? && v'.writer.Some?
    requires v'.writer.value.c == v.writer.value.c
    requires SideOf(v'.writer, v'.reader) == SideOf(v.writer, v.reader)
    requires !v.writer.value.w.WIntern? && !v'.writer.value.w.WIntern?
    requires WriterOk(rc, v.k, v'.writer.value.w)
    ensures Inv(rc, v')
  {
    forall part: Part ensures Holds(rc, v', part) { Get(rc, v, part); }
  }

  /** The reader moves on and nothing it holds changes. */
  lemma ReaderMove(rc: RingConfig, v: View, v': View)
    requires Inv(rc, v) && v'.k == v.k && v'.writer == v.writer
    requires SideOf(v'.writer, v'.reader) == SideOf(v.writer, v.reader)
    requires !v.reader.RIntern? && !v'.reader.RIntern?
    requires ReaderOk(rc, v.k, v'.reader)
    ensures Inv(rc, v')
  {
    forall part: Part ensures Holds(rc, v', part) { Get(rc, v, part); }
  }

  // ------------------------------------------------------------------
  // Writing a slot
  // ------------------------------------------------------------------

  /** The positions between tail and head keep their slots when the slot of
      the head is written, as long as the queue is not full. */
  lemma SlotWrite(rc: RingConfig, k: Core, k': Core, f: Slot -> Slot)
    requires ConfigOk(rc) && k.head == |k.published| % U64 && |k.slots| == rc.capacity
    requires |k.delivered| <= |k.published| < |k.delivered| + rc.capacity
    requires SlotWritten(rc, k, k', k.head, f)
    ensures OnlyHeadSlot(rc, k, k')
    ensures SlotAt(rc, k', |k.published|) == f(SlotAt(rc, k, |k.published|))
  {
    MaskWraps(|k.published|, rc.capacity);
    forall i: nat | |k.delivered| <= i < |k.published| ensures SlotAt(rc, k', i) == SlotAt(rc, k, i) {
      MaskInjective(i, |k.published|, rc.capacity);
    }
  }

  lemma HeadWriteCommon(rc: RingConfig, v: View, v': View, part: Part)
    requires Inv(rc, v) && OnlyHeadSlot(rc, v.k, v'.k) && v'.reader == v.reader
    requires part in {Positions, Window, ReaderAt, Delivered}
    ensures Holds(rc, v', part)
  {
    Get(rc, v, part);
    Get(rc, v, Positions);
  }

  lemma TextsSame(rc: RingConfig, v: View, v': View)
    requires Inv(rc, v) && OnlyHeadSlot(rc, v.k, v'.k) && SlotTextFrame(v.k.store, v'.k.store)
    requires var x, x' := SideOf(v.writer, v.reader), SideOf(v'.writer, v'.reader);
             && x'.errStored == x.errStored && x'.errGone == x.errGone && x'.ev == x.ev
             && (x.errStored ==> SlotAt(rc, v'.k, P(v)).err == SlotAt(rc, v.k, P(v)).err)
    ensures Holds(rc, v', Texts)
  {
    Get(rc, v, Texts);
    var x, x' := SideOf(v.writer, v.reader), SideOf(v'.writer, v'.reader);
    forall i: nat ensures TextOk(rc, v'.k, x', i) { assert TextOk(rc, v.k, x, i); }
  }

  lemma StagingSame(rc: RingConfig, v: View, v': View)
    requires Inv(rc, v) && TextFrame(v.k.store, v'.k.store)
    requires var x, x' := SideOf(v.writer, v.reader), SideOf(v'.writer, v'.reader);
             x'.staged == x.staged && x'.c == x.c && x'.ev == x.ev
    ensures Holds(rc, v', Staging)
  {
    Get(rc, v, Staging);
    var x, x' := SideOf(v.writer, v.reader), SideOf(v'.writer, v'.reader);
    forall c: nat ensures StagedOk(v'.k, x', c) { assert StagedOk(v.k, x, c); }
  }

  lemma QueriesSame(rc: RingConfig, v: View, v': View)
    requires Inv(rc, v) && OnlyHeadSlot(rc, v.k, v'.k) && RefFrame(v.k.store, v'.k.store)
    requires var x, x' := SideOf(v.writer, v.reader), SideOf(v'.writer, v'.reader);
             && x'.queryStored == x.queryStored && x'.queryGone == x.queryGone && x'.ev == x.ev
             && (x.queryStored ==> SlotAt(rc, v'.k, P(v)).query == SlotAt(rc, v.k, P(v)).query)
    ensures Holds(rc, v', Queries)
  {
    Get(rc, v, Queries);
    var x, x' := SideOf(v.writer, v.reader), SideOf(v'.writer, v'.reader);
    forall i: nat ensures QueryOk(rc, v'.k, x', i) { assert QueryOk(rc, v.k, x, i); }
  }

  /** Neither end is in the interner's hands and no client moved. */
  lemma InterningSame(rc: RingConfig, v: View, v': View)
    requires Inv(rc, v) && v'.k.store.clients == v.k.store.clients && v'.k.published == v.k.published
    requires v'.k.delivered == v.k.delivered && v'.reader == v.reader && v.writer.Some? && v'.writer.Some?
    requires v'.writer.value.c == v.writer.value.c && !v.writer.value.w.WIntern? && !v'.writer.value.w.WIntern?
    requires forall p | p in v.k.store.heap :: p in v'.k.store.heap && v'.k.store.heap[p] == v.k.store.heap[p]
    ensures Holds(rc, v', Interning)
  {
    Get(rc, v, Interning);
  }

  lemma StoreKept(rc: RingConfig, v: View, v': View, act: Action)
    requires Inv(rc, v) && StoreActs(rc, v.k, v'.k, act)
    ensures Holds(rc, v', Store)
  {
    Get(rc, v, Store);
    StoreProofs.ApplyInv(rc.store, v.k.store, act);
  }

  lemma WriterRoom(rc: RingConfig, v: View)
    requires Inv(rc, v) && v.writer.Some?
    ensures WriterOk(rc, v.k, v.writer.value.w)
    ensures v.k.head == P(v) % U64 && |v.k.slots| == rc.capacity && T(v) <= P(v)
  {
    Get(rc, v, WriterAt);
    Get(rc, v, Positions);
  }

  // ------------------------------------------------------------------
  // The writer's steps
  // ------------------------------------------------------------------

  lemma OnTail(rc: RingConfig, v: View, v': View, ev: Event, h: nat, force: bool)
    requires Inv(rc, v) && v.writer.Some? && v.writer.value.w == WTail(ev, h)
    requires v'.writer.Some? && v'.writer.value.c == v.writer.value.c && v'.reader == v.reader
    requires WriterStep(rc, v.k, v'.k, v.writer.value.c, WTail(ev, h), v'.writer.value.w, NULL, force)
    ensures Inv(rc, v')
    ensures v'.writer.value.w.WOverflow? && !force ==> P(v) == T(v) + rc.capacity
  {
    WriterRoom(rc, v);
    Get(rc, v, Positions);
    WrappedDistance(P(v), T(v));
    WriterMove(rc, v, v');
  }

  lemma OnFixed(rc: RingConfig, v: View, v': View, ev: Event, h: nat)
    requires Inv(rc, v) && v.writer.Some? && v.writer.value.w == WFixed(ev, h)
    requires v'.writer == Some(Busy(v.writer.value.c, WAlloc(ev, h))) && v'.reader == v.reader
    requires SlotWritten(rc, v.k, v'.k, h, CopyFixed(ev)) && v'.k.store == v.k.store
    ensures Inv(rc, v')
  {
    WriterRoom(rc, v);
    SlotWrite(rc, v.k, v'.k, CopyFixed(ev));
    forall part: Part ensures Holds(rc, v', part) {
      match part
      case Texts => TextsSame(rc, v, v');
      case Staging => StagingSame(rc, v, v');
      case Queries => QueriesSame(rc, v, v');
      case WriterAt =>
      case Interning => Get(rc, v, Interning);
      case Store => Get(rc, v, Store);
      case _ => HeadWriteCommon(rc, v, v', part);
    }
  }

  lemma AllocStaging(rc: RingConfig, v: View, v': View, c: nat, ev: Event, h: nat, p: Ptr)
    requires Inv(rc, v) && v.writer == Some(Busy(c, WAlloc(ev, h)))
    requires v'.writer == Some(Busy(c, WStoreErr(ev, h, p, Kept))) && v'.reader == v.reader
    requires StoreActs(rc, v.k, v'.k, AllocText(ByClient(c), p, Clamp(ev.err))) && v'.k == v.k.(store := v'.k.store)
    ensures Holds(rc, v', Staging)
  {
    Get(rc, v, Staging);
    var x, x' := SideOf(v.writer, v.reader), SideOf(v'.writer, v'.reader);
    forall d: nat ensures StagedOk(v'.k, x', d) { assert StagedOk(v.k, x, d); }
  }

  lemma AllocFrames(rc: RingConfig, v: View, v': View, c: nat, p: Ptr, bytes: Text)
    requires Inv(rc, v) && StoreActs(rc, v.k, v'.k, AllocText(ByClient(c), p, bytes))
    ensures SlotTextFrame(v.k.store, v'.k.store) && RefFrame(v.k.store, v'.k.store)
    ensures v'.k.store.clients == v.k.store.clients
    ensures forall q | q in v.k.store.heap :: q in v'.k.store.heap && v'.k.store.heap[q] == v.k.store.heap[q]
  {
  }

  lemma OnAlloc(rc: RingConfig, v: View, v': View, c: nat, ev: Event, h: nat, p: Ptr)
    requires Inv(rc, v) && v.writer == Some(Busy(c, WAlloc(ev, h)))
    requires v'.writer.Some? && v'.writer.value.c == c && v'.reader == v.reader
    requires WriterStep(rc, v.k, v'.k, c, WAlloc(ev, h), v'.writer.value.w, p, false)
    ensures Inv(rc, v')
  {
    WriterRoom(rc, v);
    if ev.err == "" || p == NULL {
      WriterMove(rc, v, v');
    } else {
      AllocFrames(rc, v, v', c, p, Clamp(ev.err));
      forall part: Part ensures Holds(rc, v', part) {
        match part
        case Texts => TextsSame(rc, v, v');
        case Staging => AllocStaging(rc, v, v', c, ev, h, p);
        case Queries => QueriesSame(rc, v, v');
        case WriterAt =>
        case Interning => InterningSame(rc, v, v');
        case Store => StoreKept(rc, v, v', AllocText(ByClient(c), p, Clamp(ev.err)));
        case _ => HeadWriteCommon(rc, v, v', part);
      }
    }
  }

  /** The writer stores its string in the slot of the head. */
  ghost predicate StoresErr(rc: RingConfig, v: View, v': View, c: nat, ev: Event, h: nat, q: Ptr, f: Fate)
  {
    && v.writer == Some(Busy(c, WStoreErr(ev, h, q, f))) && v'.writer == Some(Busy(c, WQuery(ev, h, f)))
    && v'.reader == v.reader
    && WriterStep(rc, v.k, v'.k, c, WStoreErr(ev, h, q, f), WQuery(ev, h, f), NULL, false)
  }

  lemma StoreErrTexts(rc: RingConfig, v: View, v': View, c: nat, ev: Event, h: nat, q: Ptr, f: Fate)
    requires Inv(rc, v) && StoresErr(rc, v, v', c, ev, h, q, f) && OnlyHeadSlot(rc, v.k, v'.k)
    requires SlotAt(rc, v'.k, P(v)).err == q
    ensures Holds(rc, v', Texts)
  {
    Get(rc, v, Texts);
    Get(rc, v, Staging);
    var x, x' := SideOf(v.writer, v.reader), SideOf(v'.writer, v'.reader);
    assert StagedOk(v.k, x, c);
    forall i: nat ensures TextOk(rc, v'.k, x', i) { assert TextOk(rc, v.k, x, i); }
  }

  lemma StoreErrStaging(rc: RingConfig, v: View, v': View, c: nat, ev: Event, h: nat, q: Ptr, f: Fate)
    requires Inv(rc, v) && StoresErr(rc, v, v', c, ev, h, q, f)
    ensures Holds(rc, v', Staging)
  {
    Get(rc, v, Staging);
    var x, x' := SideOf(v.writer, v.reader), SideOf(v'.writer, v'.reader);
    forall d: nat ensures StagedOk(v'.k, x', d) { assert StagedOk(v.k, x, d); }
  }

  lemma OnStoreErr(rc: RingConfig, v: View, v': View, c: nat, ev: Event, h: nat, q: Ptr, f: Fate)
    requires Inv(rc, v) && StoresErr(rc, v, v', c, ev, h, q, f)
    ensures Inv(rc, v')
  {
    WriterRoom(rc, v);
    SlotWrite(rc, v.k, v'.k, CopyErr(ev, q));
    forall part: Part ensures Holds(rc, v', part) {
      match part
      case Texts => StoreErrTexts(rc, v, v', c, ev, h, q, f);
      case Staging => StoreErrStaging(rc, v, v', c, ev, h, q, f);
      case Queries => QueriesSame(rc, v, v');
      case WriterAt =>
      case Interning => InterningSame(rc, v, v');
      case Store =>
        if q == NULL { Get(rc, v, Store); }
        else { StoreKept(rc, v, v', MoveText(ByClient(c), BySlot(P(v)))); }
      case _ => HeadWriteCommon(rc, v, v', part);
    }
  }

  // ------------------------------------------------------------------
  // The writer's query text
  // ------------------------------------------------------------------

  lemma NoQuery(rc: RingConfig, v: View, v': View, c: nat, ev: Event, h: nat, f: Fate)
    requires Inv(rc, v) && v.writer == Some(Busy(c, WQuery(ev, h, f))) && ev.query == ""
    requires v'.writer == Some(Busy(c, WPublish(ev, h, f, NoText))) && v'.reader == v.reader
    requires SlotWritten(rc, v.k, v'.k, h, (s: Slot) => s.(query := NULL)) && v'.k.store == v.k.store
    ensures Inv(rc, v')
  {
    WriterRoom(rc, v);
    SlotWrite(rc, v.k, v'.k, (s: Slot) => s.(query := NULL));
    forall part: Part ensures Holds(rc, v', part) {
      match part
      case Texts => TextsSame(rc, v, v');
      case Staging => StagingSame(rc, v, v');
      case Queries =>
        Get(rc, v, Queries);
        var x, x' := SideOf(v.writer, v.reader), SideOf(v'.writer, v'.reader);
        forall i: nat ensures QueryOk(rc, v'.k, x', i) { assert QueryOk(rc, v.k, x, i); }
      case WriterAt =>
      case Interning => InterningSame(rc, v, v');
      case Store => Get(rc, v, Store);
      case _ => HeadWriteCommon(rc, v, v', part);
    }
  }

  lemma BeginInterning(rc: RingConfig, v: View, v': View, c: nat, ev: Event, h: nat, f: Fate)
    requires Inv(rc, v) && v.writer == Some(Busy(c, WQuery(ev, h, f)))
    requires v'.writer == Some(Busy(c, WIntern(ev, h, f))) && v'.reader == v.reader
    requires StoreActs(rc, v.k, v'.k, BeginAcquire(c, RequestOf(rc, ev))) && v'.k == v.k.(store := v'.k.store)
    ensures Holds(rc, v', Interning)
  {
    Get(rc, v, Interning);
  }

  lemma OnQuery(rc: RingConfig, v: View, v': View, c: nat, ev: Event, h: nat, f: Fate)
    requires Inv(rc, v) && v.writer == Some(Busy(c, WQuery(ev, h, f)))
    requires v'.writer.Some? && v'.writer.value.c == c && v'.reader == v.reader
    requires WriterStep(rc, v.k, v'.k, c, WQuery(ev, h, f), v'.writer.value.w, NULL, false)
    ensures Inv(rc, v')
  {
    WriterRoom(rc, v);
    if ev.query == "" {
      NoQuery(rc, v, v', c, ev, h, f);
    } else {
      forall part: Part ensures Holds(rc, v', part) {
        match part
        case Texts => TextsSame(rc, v, v');
        case Staging => StagingSame(rc, v, v');
        case Queries => QueriesSame(rc, v, v');
        case WriterAt =>
        case Interning => BeginInterning(rc, v, v', c, ev, h, f);
        case Store => StoreKept(rc, v, v', BeginAcquire(c, RequestOf(rc, ev)));
        case _ => HeadWriteCommon(rc, v, v', part);
      }
    }
  }

  // ------------------------------------------------------------------
  // The interner's table is never full when the writer enters a key
  // ------------------------------------------------------------------

  lemma {:induction false} InjectionBound<X>(m: map<X, int>, lo: int, hi: int)
    requires lo <= hi
    requires forall x | x in m :: lo <= m[x] < hi
    requires forall x, y | x in m && y in m && x != y :: m[x] != m[y]
    ensures |m| <= hi - lo
    decreases hi - lo
  {
    if lo == hi {
      if x :| x in m { }
      assert m.Keys == {};
    } else if x :| x in m && m[x] == hi - 1 {
      var n := m - {x};
      InjectionBound(n, lo, hi - 1);
      assert m.Keys == n.Keys + {x};
    } else {
      InjectionBound(m, lo, hi - 1);
    }
  }

  /** References held inside the window, each under a position of its own. */
  ghost predicate RefsInWindow(s: State, lo: nat, hi: nat, reader: nat)
  {
    && (forall o | o in s.refs && o.BySlot? :: lo <= o.pos < hi)
    && (forall o | o in s.refs && o.ByClient? :: o.client == reader && lo < hi && BySlot(lo) !in s.refs)
  }

  function PositionOf(o: Owner, lo: nat): nat
  {
    if o.BySlot? then o.pos else lo
  }

  ghost function HolderOf(s: State, k: Key): (o: Owner)
    requires k in s.table && exists o :: o in s.refs && s.refs[o] == s.table[k].body
    ensures o in s.refs && s.refs[o] == s.table[k].body
  {
    var o :| o in s.refs && s.refs[o] == s.table[k].body; o
  }

  /** Every entry is referenced, so a window of references bounds the table. */
  lemma TableBounded(rc: RingConfig, s: State, lo: nat, hi: nat)
    requires StoreInv.Inv(rc.store, s) && RefsInWindow(s, lo, hi, rc.reader) && lo <= hi
    ensures |s.table| <= hi - lo
  {
    StoreThms.Accounted(rc.store, s);
    var m: map<Key, int> := map k | k in s.table :: PositionOf(HolderOf(s, k), lo) as int;
    assert StoreInv.Holds(rc.store, s, StoreInv.Profiles(s.clients), StoreInv.Table);
    forall x, y | x in m && y in m && x != y ensures m[x] != m[y] {
      assert StoreInv.EntryOk(rc.store, s, x) && StoreInv.EntryOk(rc.store, s, y);
      assert HolderOf(s, x) != HolderOf(s, y);
    }
    InjectionBound(m, lo, hi);
    assert m.Keys == s.table.Keys;
  }

  lemma WindowOfRefs(rc: RingConfig, v: View, c: nat)
    requires Inv(rc, v) && v.writer.Some? && v.writer.value.c == c && v.writer.value.w.WIntern?
    requires c < |v.k.store.clients| && v.k.store.clients[c].AcqEnter?
    ensures RefsInWindow(v.k.store, T(v), P(v), rc.reader)
  {
    var s, x := v.k.store, SideOf(v.writer, v.reader);
    Get(rc, v, Queries);
    Get(rc, v, Interning);
    Get(rc, v, Store);
    assert StoreInv.Holds(rc.store, s, StoreInv.Profiles(s.clients), StoreInv.Refs);
    forall o | o in s.refs ensures if o.BySlot? then T(v) <= o.pos < P(v) else o.client == rc.reader && T(v) < P(v) && BySlot(T(v)) !in s.refs {
      if o.BySlot? {
        assert QueryOk(rc, v.k, x, o.pos);
      } else {
        assert StoreInv.Profiles(s.clients)[o.client] == StoreInv.ProfileOf(s.clients[o.client]);
        assert QueryOk(rc, v.k, x, T(v));
      }
    }
  }

  /** When the writer is about to enter its key the table has room. */
  lemma TableHasRoom(rc: RingConfig, v: View, c: nat)
    requires Inv(rc, v) && v.writer.Some? && v.writer.value.c == c && v.writer.value.w.WIntern?
    requires c < |v.k.store.clients| && v.k.store.clients[c].AcqEnter?
    ensures |v.k.store.table| < rc.store.maxEntries
  {
    WriterRoom(rc, v);
    WindowOfRefs(rc, v, c);
    Get(rc, v, Store);
    TableBounded(rc, v.k.store, T(v), P(v));
  }

  // ------------------------------------------------------------------
  // Steps inside the interner
  // ------------------------------------------------------------------

  lemma AcquiringLooksUp(rc: RingConfig, s: State, c: nat, ev: Event, p: Ptr)
    requires Acquiring(rc, s, c, ev) && CanStep(rc.store, s, c, p)
    requires s.clients[c].AcqLock? || s.clients[c].AcqFind? || s.clients[c].AcqCompare? || s.clients[c].AcqBump?
    ensures Acquiring(rc, AcquireStep(rc.store, s, c, p), c, ev)
  {
  }

  lemma AcquiringReturns(rc: RingConfig, s: State, c: nat, ev: Event, p: Ptr)
    requires Acquiring(rc, s, c, ev) && CanStep(rc.store, s, c, p)
    requires s.clients[c].AcqUnlockHit? || s.clients[c].AcqReadObject? || s.clients[c].AcqUnlockClash? || s.clients[c].AcqUnlockNew?
    ensures Acquiring(rc, AcquireStep(rc.store, s, c, p), c, ev)
  {
  }

  lemma AcquiringInserts(rc: RingConfig, s: State, c: nat, ev: Event, p: Ptr)
    requires Acquiring(rc, s, c, ev) && CanStep(rc.store, s, c, p)
    requires s.clients[c].AcqUnlockMiss? || s.clients[c].AcqAlloc? || s.clients[c].AcqRelock? || s.clients[c].AcqEnter?
    requires s.clients[c].AcqEnter? ==> |s.table| < rc.store.maxEntries
    ensures Acquiring(rc, AcquireStep(rc.store, s, c, p), c, ev)
  {
    if s.clients[c].AcqEnter? {
      var r, copy := s.clients[c].r, s.clients[c].copy;
      assert AcquireStep(rc.store, s, c, p) == Insert(s, c, r.key, copy, AcqUnlockNew(r, copy));
    }
  }

  /** The writer's own step keeps its acquire on course. */
  lemma AcquiringRuns(rc: RingConfig, s: State, c: nat, ev: Event, p: Ptr)
    requires Acquiring(rc, s, c, ev) && CanStep(rc.store, s, c, p)
    requires s.clients[c].AcqEnter? ==> |s.table| < rc.store.maxEntries
    ensures Acquiring(rc, Step(rc.store, s, c, p), c, ev)
  {
    var x := s.clients[c];
    if x.AcqLock? || x.AcqFind? || x.AcqCompare? || x.AcqBump? {
      AcquiringLooksUp(rc, s, c, ev, p);
    } else if x.AcqUnlockHit? || x.AcqReadObject? || x.AcqUnlockClash? || x.AcqUnlockNew? {
      AcquiringReturns(rc, s, c, ev, p);
    } else {
      AcquiringInserts(rc, s, c, ev, p);
    }
  }

  /** The reader's step leaves the writer's acquire on course. */
  lemma AcquiringKept(rc: RingConfig, s: State, s': State, c: nat, ev: Event)
    requires Acquiring(rc, s, c, ev) && c < |s'.clients| && s'.clients[c] == s.clients[c]
    requires s'.table.Keys <= s.table.Keys
    ensures Acquiring(rc, s', c, ev)
  {
  }

  lemma ResolvingReads(rc: RingConfig, s: State, text: Text, p: Ptr)
    requires StoreInv.Inv(rc.store, s) && Resolving(s, rc.reader, text) && CanStep(rc.store, s, rc.reader, p)
    requires s.clients[rc.reader].RelRead?
    ensures Resolving(ReleaseStep(rc.store, s, rc.reader, p), rc.reader, text)
  {
    StoreProofs.At(rc.store, s, rc.reader);
    StoreProofs.ResolveWhole(rc.store, s, ByClient(rc.reader));
  }

  lemma ResolvingFinds(rc: RingConfig, s: State, text: Text, p: Ptr)
    requires Resolving(s, rc.reader, text) && CanStep(rc.store, s, rc.reader, p)
    requires s.clients[rc.reader].RelKey? || s.clients[rc.reader].RelLock? || s.clients[rc.reader].RelFind?
    ensures Resolving(ReleaseStep(rc.store, s, rc.reader, p), rc.reader, text)
  {
  }

  lemma ResolvingDrops(rc: RingConfig, s: State, text: Text, p: Ptr)
    requires Resolving(s, rc.reader, text) && CanStep(rc.store, s, rc.reader, p)
    requires s.clients[rc.reader].RelDrop? || s.clients[rc.reader].RelUnlock? || s.clients[rc.reader].RelFree?
    ensures Resolving(ReleaseStep(rc.store, s, rc.reader, p), rc.reader, text)
  {
  }

  /** The reader's own step keeps its release on course. */
  lemma ResolvingRuns(rc: RingConfig, s: State, text: Text, p: Ptr)
    requires StoreInv.Inv(rc.store, s) && Resolving(s, rc.reader, text) && CanStep(rc.store, s, rc.reader, p)
    ensures Resolving(Step(rc.store, s, rc.reader, p), rc.reader, text)
    ensures Releasing(s.clients[rc.reader])
  {
    var x := s.clients[rc.reader];
    if x.RelRead? {
      ResolvingReads(rc, s, text, p);
    } else if x.RelKey? || x.RelLock? || x.RelFind? {
      ResolvingFinds(rc, s, text, p);
    } else {
      ResolvingDrops(rc, s, text, p);
    }
  }

  lemma ResolvingKept(rc: RingConfig, s: State, s': State, c: nat, text: Text)
    requires StoreInv.Inv(rc.store, s) && Resolving(s, rc.reader, text) && StoreThms.Framed(s, s', c) && c != rc.reader
    ensures Resolving(s', rc.reader, text)
  {
    StoreProofs.At(rc.store, s, rc.reader);
  }

  lemma FramedFrames(s: State, s': State, c: nat)
    requires StoreThms.Framed(s, s', c)
    ensures TextFrame(s, s') && SlotTextFrame(s, s') && RefFrame(s, s')
  {
  }

  lemma WriterInterns(rc: RingConfig, v: View, v': View, c: nat, p: Ptr)
    requires Inv(rc, v) && v.writer.Some? && v.writer.value.c == c && v.writer.value.w.WIntern?
    requires v'.writer == v.writer && v'.reader == v.reader
    requires StoreActs(rc, v.k, v'.k, Run(c, p)) && v'.k == v.k.(store := v'.k.store)
    requires StoreThms.Framed(v.k.store, v'.k.store, c)
    ensures Holds(rc, v', Interning)
  {
    Get(rc, v, Interning);
    Get(rc, v, Store);
    var s := v.k.store;
    if s.clients[c].AcqEnter? { TableHasRoom(rc, v, c); }
    AcquiringRuns(rc, s, c, v.writer.value.w.ev, p);
    if v.reader.RIntern? {
      ResolvingKept(rc, s, v'.k.store, c, Clamp(v.k.published[T(v)].ev.query));
    }
  }

  lemma OnInternRun(rc: RingConfig, v: View, v': View, c: nat, p: Ptr)
    requires Inv(rc, v) && v.writer.Some? && v.writer.value.c == c && v.writer.value.w.WIntern?
    requires v'.writer == v.writer && v'.reader == v.reader
    requires StoreActs(rc, v.k, v'.k, Run(c, p)) && v'.k == v.k.(store := v'.k.store)
    ensures Inv(rc, v')
  {
    Get(rc, v, Store);
    StoreThms.StepFrame(rc.store, v.k.store, c, p);
    FramedFrames(v.k.store, v'.k.store, c);
    forall part: Part ensures Holds(rc, v', part) {
      match part
      case Texts => TextsSame(rc, v, v');
      case Staging => StagingSame(rc, v, v');
      case Queries => QueriesSame(rc, v, v');
      case WriterAt => Get(rc, v, WriterAt);
      case Interning => WriterInterns(rc, v, v', c, p);
      case Store => StoreKept(rc, v, v', Run(c, p));
      case _ => HeadWriteCommon(rc, v, v', part);
    }
  }

  /** The interner returns and the writer stores the result in its slot. */
  ghost predicate StoresQuery(rc: RingConfig, v: View, v': View, c: nat, ev: Event, h: nat, f: Fate)
  {
    && v.writer == Some(Busy(c, WIntern(ev, h, f))) && v'.reader == v.reader
    && c < |v.k.store.clients| && v.k.store.clients[c].AcqDone?
    && v'.writer == Some(Busy(c, WPublish(ev, h, f, v.k.store.clients[c].fate)))
    && StoreActs(rc, v.k, v'.k, EndAcquire(c, BySlot(|v.k.published|)))
    && SlotWritten(rc, v.k, v'.k, h, CopyQuery(ev, v.k.store.clients[c].result))
  }

  /** The other slots keep their queries. */
  lemma StoreQueryOld(rc: RingConfig, v: View, v': View, c: nat, ev: Event, h: nat, f: Fate, i: nat)
    requires StoresQuery(rc, v, v', c, ev, h, f) && OnlyHeadSlot(rc, v.k, v'.k) && i != P(v)
    requires QueryOk(rc, v.k, SideOf(v.writer, v.reader), i)
    ensures QueryOk(rc, v'.k, SideOf(v'.writer, v'.reader), i)
  {
  }

  /** The slot of the head holds the reference the interner returned. */
  lemma StoreQueryNew(rc: RingConfig, v: View, v': View, c: nat, ev: Event, h: nat, f: Fate)
    requires Inv(rc, v) && StoresQuery(rc, v, v', c, ev, h, f) && OnlyHeadSlot(rc, v.k, v'.k)
    requires SlotAt(rc, v'.k, P(v)).query == v.k.store.clients[c].result
    requires QueryOk(rc, v.k, SideOf(v.writer, v.reader), P(v))
    ensures QueryOk(rc, v'.k, SideOf(v'.writer, v'.reader), P(v))
  {
    Get(rc, v, Interning);
    Get(rc, v, Store);
    StoreProofs.At(rc.store, v.k.store, c);
  }

  lemma StoreQueryQueries(rc: RingConfig, v: View, v': View, c: nat, ev: Event, h: nat, f: Fate)
    requires Inv(rc, v) && StoresQuery(rc, v, v', c, ev, h, f) && OnlyHeadSlot(rc, v.k, v'.k)
    requires SlotAt(rc, v'.k, P(v)).query == v.k.store.clients[c].result
    ensures Holds(rc, v', Queries)
  {
    Get(rc, v, Queries);
    forall i: nat ensures QueryOk(rc, v'.k, SideOf(v'.writer, v'.reader), i) {
      assert QueryOk(rc, v.k, SideOf(v.writer, v.reader), i);
      if i == P(v) { StoreQueryNew(rc, v, v', c, ev, h, f); } else { StoreQueryOld(rc, v, v', c, ev, h, f, i); }
    }
  }

  lemma StoreQueryClients(rc: RingConfig, v: View, v': View, c: nat, ev: Event, h: nat, f: Fate)
    requires Inv(rc, v) && StoresQuery(rc, v, v', c, ev, h, f) && OnlyHeadSlot(rc, v.k, v'.k)
    ensures Holds(rc, v', Interning)
  {
    Get(rc, v, Interning);
  }

  lemma ResultFate(rc: RingConfig, v: View, c: nat, ev: Event, h: nat, f: Fate)
    requires Inv(rc, v) && v.writer == Some(Busy(c, WIntern(ev, h, f)))
    requires c < |v.k.store.clients| && v.k.store.clients[c].AcqDone?
    ensures var x := v.k.store.clients[c]; (x.result == NULL <==> x.fate != Kept) && x.fate in {Kept, OutOfMemory, Collision}
  {
    Get(rc, v, Interning);
    Get(rc, v, Store);
    StoreProofs.At(rc.store, v.k.store, c);
  }

  lemma OnInternEnd(rc: RingConfig, v: View, v': View, c: nat, ev: Event, h: nat, f: Fate)
    requires Inv(rc, v) && StoresQuery(rc, v, v', c, ev, h, f)
    ensures Inv(rc, v')
  {
    WriterRoom(rc, v);
    SlotWrite(rc, v.k, v'.k, CopyQuery(ev, v.k.store.clients[c].result));
    ResultFate(rc, v, c, ev, h, f);
    forall part: Part ensures Holds(rc, v', part) {
      match part
      case Texts => TextsSame(rc, v, v');
      case Staging => StagingSame(rc, v, v');
      case Queries => StoreQueryQueries(rc, v, v', c, ev, h, f);
      case WriterAt =>
      case Interning => StoreQueryClients(rc, v, v', c, ev, h, f);
      case Store => StoreKept(rc, v, v', EndAcquire(c, BySlot(P(v))));
      case _ => HeadWriteCommon(rc, v, v', part);
    }
  }

  // ------------------------------------------------------------------
  // Publishing
  // ------------------------------------------------------------------

  ghost predicate Publishes(rc: RingConfig, v: View, v': View, c: nat, ev: Event, h: nat, f: Fate, g: Fate)
  {
    && v.writer == Some(Busy(c, WPublish(ev, h, f, g))) && v'.writer == Some(Busy(c, WCount(ev)))
    && v'.reader == v.reader
    && v'.k == v.k.(head := (h + 1) % U64, published := v.k.published + [Record(ev, f, g)])
  }

  /** The reader is never past the end of what is published. */
  lemma ReaderBehind(rc: RingConfig, v: View)
    requires Inv(rc, v) && !(v.reader.RIdle? || v.reader.RHead? || v.reader.RTail?)
    ensures T(v) < P(v)
  {
    Get(rc, v, ReaderAt);
  }

  lemma PublishTexts(rc: RingConfig, v: View, v': View, c: nat, ev: Event, h: nat, f: Fate, g: Fate)
    requires Inv(rc, v) && Publishes(rc, v, v', c, ev, h, f, g)
    ensures Holds(rc, v', Texts)
  {
    Get(rc, v, Texts);
    Get(rc, v, Positions);
    var x, x' := SideOf(v.writer, v.reader), SideOf(v'.writer, v'.reader);
    if x.errGone { ReaderBehind(rc, v); }
    forall i: nat ensures TextOk(rc, v'.k, x', i) {
      assert TextOk(rc, v.k, x, i);
      assert SlotAt(rc, v'.k, i) == SlotAt(rc, v.k, i);
    }
  }

  lemma PublishQueries(rc: RingConfig, v: View, v': View, c: nat, ev: Event, h: nat, f: Fate, g: Fate)
    requires Inv(rc, v) && Publishes(rc, v, v', c, ev, h, f, g)
    ensures Holds(rc, v', Queries)
  {
    Get(rc, v, Queries);
    Get(rc, v, Positions);
    var x, x' := SideOf(v.writer, v.reader), SideOf(v'.writer, v'.reader);
    if x.queryGone { ReaderBehind(rc, v); }
    forall i: nat ensures QueryOk(rc, v'.k, x', i) {
      assert QueryOk(rc, v.k, x, i);
      assert SlotAt(rc, v'.k, i) == SlotAt(rc, v.k, i);
    }
  }

  lemma PublishWindow(rc: RingConfig, v: View, v': View, c: nat, ev: Event, h: nat, f: Fate, g: Fate)
    requires Inv(rc, v) && Publishes(rc, v, v', c, ev, h, f, g)
    ensures Holds(rc, v', Window)
  {
    Get(rc, v, Window);
    WriterRoom(rc, v);
    forall i: nat | T(v) <= i < P(v') ensures Written(SlotAt(rc, v'.k, i), v'.k.published[i]) {
      assert SlotAt(rc, v'.k, i) == SlotAt(rc, v.k, i);
    }
  }

  lemma PublishReader(rc: RingConfig, v: View, v': View, c: nat, ev: Event, h: nat, f: Fate, g: Fate)
    requires Inv(rc, v) && Publishes(rc, v, v', c, ev, h, f, g)
    ensures Holds(rc, v', ReaderAt)
  {
    Get(rc, v, ReaderAt);
    assert SlotAt(rc, v'.k, T(v)) == SlotAt(rc, v.k, T(v));
  }

  lemma OnPublish(rc: RingConfig, v: View, v': View, c: nat, ev: Event, h: nat, f: Fate, g: Fate)
    requires Inv(rc, v) && Publishes(rc, v, v', c, ev, h, f, g)
    ensures Inv(rc, v')
  {
    WriterRoom(rc, v);
    forall part: Part ensures Holds(rc, v', part) {
      match part
      case Positions => Get(rc, v, Positions); WrappedSuccessor(P(v));
      case Window => PublishWindow(rc, v, v', c, ev, h, f, g);
      case Texts => PublishTexts(rc, v, v', c, ev, h, f, g);
      case Staging => StagingSame(rc, v, v');
      case Queries => PublishQueries(rc, v, v', c, ev, h, f, g);
      case WriterAt =>
      case ReaderAt => PublishReader(rc, v, v', c, ev, h, f, g);
      case Interning => Get(rc, v, Interning);
      case Delivered => Get(rc, v, Delivered);
      case Store => Get(rc, v, Store);
    }
  }

  // ------------------------------------------------------------------
  // Taking, keeping and giving up the writer's role
  // ------------------------------------------------------------------

  /** No event is under way: the lock is free, or its holder is between events. */
  predicate Between(writer: Option<Busy>)
  {
    writer.None? || writer.value.w.WHead? || writer.value.w.WOverflow? || writer.value.w.WCount?
  }

  lemma OnSwitch(rc: RingConfig, v: View, v': View)
    requires Inv(rc, v) && v'.k == v.k && v'.reader == v.reader && Between(v.writer) && Between(v'.writer)
    requires v'.writer.Some? ==> v'.writer.value.c < |v.k.store.clients| && v'.writer.value.c != rc.reader
    ensures Inv(rc, v')
  {
    var x, x' := SideOf(v.writer, v.reader), SideOf(v'.writer, v'.reader);
    forall part: Part ensures Holds(rc, v', part) {
      Get(rc, v, part);
      if part == Texts {
        forall i: nat ensures TextOk(rc, v'.k, x', i) { assert TextOk(rc, v.k, x, i); }
      } else if part == Queries {
        forall i: nat ensures QueryOk(rc, v'.k, x', i) { assert QueryOk(rc, v.k, x, i); }
      } else if part == Staging {
        forall c: nat ensures StagedOk(v'.k, x', c) { assert StagedOk(v.k, x, c); }
      }
    }
  }

  /** Every step of the writer keeps the invariant. */
  lemma WriterStepInv(rc: RingConfig, v: View, v': View, c: nat, p: Ptr, force: bool)
    requires Inv(rc, v) && v.writer.Some? && v'.writer.Some? && v.writer.value.c == v'.writer.value.c == c
    requires v'.reader == v.reader
    requires WriterStep(rc, v.k, v'.k, c, v.writer.value.w, v'.writer.value.w, p, force)
    ensures Inv(rc, v')
  {
    match v.writer.value.w
    case WHead(ev) => WriterRoom(rc, v); WriterMove(rc, v, v');
    case WTail(ev, h) => OnTail(rc, v, v', ev, h, force);
    case WFixed(ev, h) => OnFixed(rc, v, v', ev, h);
    case WAlloc(ev, h) => OnAlloc(rc, v, v', c, ev, h, p);
    case WStoreErr(ev, h, q, f) => OnStoreErr(rc, v, v', c, ev, h, q, f);
    case WQuery(ev, h, f) => OnQuery(rc, v, v', c, ev, h, f);
    case WIntern(ev, h, f) =>
      if v.k.store.clients[c].AcqDone? { OnInternEnd(rc, v, v', c, ev, h, f); }
      else { OnInternRun(rc, v, v', c, p); }
    case WPublish(ev, h, f, g) => OnPublish(rc, v, v', c, ev, h, f, g);
  }
}
