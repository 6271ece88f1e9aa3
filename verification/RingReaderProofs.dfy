/** Steps of the reader keep the invariant of the ring. */
module RingReaderProofs {
  import opened Events
  import opened RingArithmetic
  import opened TextStore
  import StoreInv = TextStoreInvariant
  import StoreProofs = TextStoreProofs
  import StoreThms = TextStoreTheorems
  import opened Ring
  import opened RingInvariant
  import opened RingProofs

  /** The slot the reader looks at is the oldest published one. */
  lemma ReaderSlot(rc: RingConfig, v: View, t: nat, s: Slot)
    requires Inv(rc, v) && SlotRead(rc, v.k, t, s) && t == v.k.tail && T(v) < P(v)
    ensures s == SlotAt(rc, v.k, T(v)) && Written(s, v.k.published[T(v)])
  {
    Get(rc, v, Positions);
    Get(rc, v, Window);
    MaskWraps(T(v), rc.capacity);
  }

  lemma OnSeenTail(rc: RingConfig, v: View, v': View, h: nat, seen: nat)
    requires Inv(rc, v) && v.reader == RTail(h, seen) && v'.k == v.k && v'.writer == v.writer
    requires v'.reader == if h == v.k.tail then RIdle else RFixed(v.k.tail)
    ensures Inv(rc, v')
  {
    Get(rc, v, ReaderAt);
    Get(rc, v, Positions);
    WrappedEqual(seen, T(v));
    ReaderMove(rc, v, v');
  }

  /** The reader takes the fixed part, then the error pointer and length. */
  lemma OnSlotRead(rc: RingConfig, v: View, v': View, s: Slot)
    requires Inv(rc, v) && v'.writer == v.writer && (v.reader.RFixed? || v.reader.RErr?)
    requires ReaderStep(rc, v.k, v'.k, v.reader, v'.reader, NULL, s)
    ensures Inv(rc, v')
  {
    Get(rc, v, ReaderAt);
    ReaderSlot(rc, v, v.reader.t, s);
    if v'.reader.RQuery? {
      NoErrText(rc, v, v', s);
    } else {
      ReaderMove(rc, v, v');
    }
  }

  /** The slot has no error string: nothing is there to give up. */
  lemma NoErrText(rc: RingConfig, v: View, v': View, s: Slot)
    requires Inv(rc, v) && v'.k == v.k && v'.writer == v.writer && v.reader.RErr?
    requires v'.reader == RQuery(v.reader.t, v.reader.fixed, "") && s.err == NULL
    requires T(v) < P(v) && s == SlotAt(rc, v.k, T(v)) && Written(s, v.k.published[T(v)])
    ensures Inv(rc, v')
  {
    var x, x' := SideOf(v.writer, v.reader), SideOf(v'.writer, v'.reader);
    forall part: Part ensures Holds(rc, v', part) {
      Get(rc, v, part);
      if part == Texts {
        forall i: nat ensures TextOk(rc, v'.k, x', i) { assert TextOk(rc, v.k, x, i); }
      } else if part == Queries {
        forall i: nat ensures QueryOk(rc, v'.k, x', i) { assert QueryOk(rc, v.k, x, i); }
      } else if part == Staging {
        forall c: nat ensures StagedOk(v'.k, x', c) { assert StagedOk(v.k, x, c); }
      }
    }
  }

  /** The string the reader copies is the event's own, clamped. */
  lemma OnErrCopy(rc: RingConfig, v: View, v': View)
    requires Inv(rc, v) && v'.writer == v.writer && v.reader.RErrCopy?
    requires ReaderStep(rc, v.k, v'.k, v.reader, v'.reader, NULL, SlotAt(rc, v.k, T(v)))
    ensures Inv(rc, v')
    ensures T(v) < P(v) && v'.reader.RErrFree? && v'.reader.err == Clamp(v.k.published[T(v)].ev.err)
  {
    Get(rc, v, ReaderAt);
    Get(rc, v, Texts);
    Get(rc, v, Window);
    assert TextOk(rc, v.k, SideOf(v.writer, v.reader), T(v));
    assert Written(SlotAt(rc, v.k, T(v)), v.k.published[T(v)]);
    ReaderMove(rc, v, v');
  }

  // ------------------------------------------------------------------
  // Freeing the error string
  // ------------------------------------------------------------------

  ghost predicate FreesErr(rc: RingConfig, v: View, v': View)
  {
    && v.reader.RErrFree? && v'.reader == RQuery(v.reader.t, v.reader.fixed, v.reader.err) && v'.writer == v.writer
    && StoreActs(rc, v.k, v'.k, FreeText(BySlot(T(v)), v.reader.p)) && v'.k == v.k.(store := v'.k.store)
  }

  /** No other string and no body shares the address. */
  lemma FreeFrame(rc: RingConfig, v: View, v': View)
    requires Inv(rc, v) && FreesErr(rc, v, v')
    ensures forall o | o in v.k.store.texts && o != BySlot(T(v)) :: v.k.store.texts[o] != v.reader.p
    ensures RefFrame(v.k.store, v'.k.store)
  {
    var s := v.k.store;
    Get(rc, v, Store);
    assert StoreInv.Holds(rc.store, s, StoreInv.Profiles(s.clients), StoreInv.Homes);
    assert StoreInv.Holds(rc.store, s, StoreInv.Profiles(s.clients), StoreInv.Refs);
    forall i: nat | BySlot(i) in s.refs ensures s.refs[BySlot(i)] != v.reader.p {
      assert StoreInv.RefOk(s, BySlot(i));
    }
  }

  lemma FreeTexts(rc: RingConfig, v: View, v': View)
    requires Inv(rc, v) && FreesErr(rc, v, v')
    requires forall o | o in v.k.store.texts && o != BySlot(T(v)) :: v.k.store.texts[o] != v.reader.p
    ensures Holds(rc, v', Texts)
  {
    Get(rc, v, Texts);
    ReaderBehind(rc, v);
    var x, x' := SideOf(v.writer, v.reader), SideOf(v'.writer, v'.reader);
    forall i: nat ensures TextOk(rc, v'.k, x', i) { assert TextOk(rc, v.k, x, i); }
  }

  lemma FreeStaging(rc: RingConfig, v: View, v': View)
    requires Inv(rc, v) && FreesErr(rc, v, v')
    requires forall o | o in v.k.store.texts && o != BySlot(T(v)) :: v.k.store.texts[o] != v.reader.p
    ensures Holds(rc, v', Staging)
  {
    Get(rc, v, Staging);
    var x, x' := SideOf(v.writer, v.reader), SideOf(v'.writer, v'.reader);
    forall c: nat ensures StagedOk(v'.k, x', c) { assert StagedOk(v.k, x, c); }
  }

  lemma OnErrFree(rc: RingConfig, v: View, v': View)
    requires Inv(rc, v) && FreesErr(rc, v, v')
    ensures Inv(rc, v')
  {
    FreeFrame(rc, v, v');
    forall part: Part ensures Holds(rc, v', part) {
      match part
      case Texts => FreeTexts(rc, v, v');
      case Staging => FreeStaging(rc, v, v');
      case Queries => QueriesSame(rc, v, v');
      case Store => StoreKept(rc, v, v', FreeText(BySlot(T(v)), v.reader.p));
      case Interning => Get(rc, v, Interning);
      case _ => Get(rc, v, part);
    }
  }

  // ------------------------------------------------------------------
  // The query text
  // ------------------------------------------------------------------

  /** The reader moves on from a slot without a query. */
  lemma NoQueryText(rc: RingConfig, v: View, v': View, s: Slot)
    requires Inv(rc, v) && v'.k == v.k && v'.writer == v.writer && v.reader.RQuery?
    requires v'.reader == RPublish(v.reader.t, Event(v.reader.fixed, v.reader.err, "")) && s.query == NULL
    requires T(v) < P(v) && s == SlotAt(rc, v.k, T(v)) && Written(s, v.k.published[T(v)])
    ensures Inv(rc, v')
  {
    var x, x' := SideOf(v.writer, v.reader), SideOf(v'.writer, v'.reader);
    forall part: Part ensures Holds(rc, v', part) {
      Get(rc, v, part);
      if part == Texts {
        forall i: nat ensures TextOk(rc, v'.k, x', i) { assert TextOk(rc, v.k, x, i); }
      } else if part == Queries {
        forall i: nat ensures QueryOk(rc, v'.k, x', i) { assert QueryOk(rc, v.k, x, i); }
      } else if part == Staging {
        forall c: nat ensures StagedOk(v'.k, x', c) { assert StagedOk(v.k, x, c); }
      }
    }
  }

  /** The reference of the slot passes to the reader. */
  ghost predicate Releases(rc: RingConfig, v: View, v': View, q: Ptr)
  {
    && v.reader.RQuery? && v'.reader == RIntern(v.reader.t, v.reader.fixed, v.reader.err) && v'.writer == v.writer
    && StoreActs(rc, v.k, v'.k, BeginRelease(rc.reader, BySlot(T(v)), q)) && v'.k == v.k.(store := v'.k.store)
  }

  lemma ReleaseQueries(rc: RingConfig, v: View, v': View, q: Ptr)
    requires Inv(rc, v) && Releases(rc, v, v', q)
    ensures Holds(rc, v', Queries)
  {
    Get(rc, v, Queries);
    ReaderBehind(rc, v);
    var x, x' := SideOf(v.writer, v.reader), SideOf(v'.writer, v'.reader);
    forall i: nat ensures QueryOk(rc, v'.k, x', i) { assert QueryOk(rc, v.k, x, i); }
  }

  lemma ReleaseClients(rc: RingConfig, v: View, v': View, q: Ptr)
    requires Inv(rc, v) && Releases(rc, v, v', q)
    ensures Holds(rc, v', Interning)
  {
    Get(rc, v, Interning);
    Get(rc, v, Queries);
    ReaderBehind(rc, v);
    assert QueryOk(rc, v.k, SideOf(v.writer, v.reader), T(v));
    if v.writer.Some? && v.writer.value.w.WIntern? {
      AcquiringKept(rc, v.k.store, v'.k.store, v.writer.value.c, v.writer.value.w.ev);
    }
  }

  lemma OnRelease(rc: RingConfig, v: View, v': View, q: Ptr)
    requires Inv(rc, v) && Releases(rc, v, v', q) && q == SlotAt(rc, v.k, T(v)).query != NULL
    ensures Inv(rc, v')
  {
    forall part: Part ensures Holds(rc, v', part) {
      match part
      case Texts => TextsSame(rc, v, v');
      case Staging => StagingSame(rc, v, v');
      case Queries => ReleaseQueries(rc, v, v', q);
      case Interning => ReleaseClients(rc, v, v', q);
      case Store => StoreKept(rc, v, v', BeginRelease(rc.reader, BySlot(T(v)), q));
      case _ => Get(rc, v, part);
    }
  }

  lemma OnQueryRead(rc: RingConfig, v: View, v': View, s: Slot)
    requires Inv(rc, v) && v'.writer == v.writer && v.reader.RQuery?
    requires ReaderStep(rc, v.k, v'.k, v.reader, v'.reader, NULL, s)
    ensures Inv(rc, v')
  {
    Get(rc, v, ReaderAt);
    ReaderSlot(rc, v, v.reader.t, s);
    if s.query == NULL {
      NoQueryText(rc, v, v', s);
    } else {
      OnRelease(rc, v, v', s.query);
    }
  }

  /** The reader is inside the interner and takes a step there, or returns. */
  ghost predicate ReaderInside(rc: RingConfig, v: View, v': View, p: Ptr)
  {
    && v.reader.RIntern? && v'.reader == v.reader && v'.writer == v.writer
    && StoreActs(rc, v.k, v'.k, Run(rc.reader, p)) && v'.k == v.k.(store := v'.k.store)
  }

  lemma ReaderInterns(rc: RingConfig, v: View, v': View, p: Ptr)
    requires Inv(rc, v) && ReaderInside(rc, v, v', p) && StoreThms.Framed(v.k.store, v'.k.store, rc.reader)
    ensures Holds(rc, v', Interning)
  {
    Get(rc, v, Interning);
    Get(rc, v, Store);
    ResolvingRuns(rc, v.k.store, Clamp(v.k.published[T(v)].ev.query), p);
    if v.writer.Some? && v.writer.value.w.WIntern? {
      AcquiringKept(rc, v.k.store, v'.k.store, v.writer.value.c, v.writer.value.w.ev);
    }
  }

  lemma OnReleaseRun(rc: RingConfig, v: View, v': View, p: Ptr)
    requires Inv(rc, v) && ReaderInside(rc, v, v', p)
    ensures Inv(rc, v')
  {
    Get(rc, v, Store);
    StoreThms.StepFrame(rc.store, v.k.store, rc.reader, p);
    FramedFrames(v.k.store, v'.k.store, rc.reader);
    forall part: Part ensures Holds(rc, v', part) {
      match part
      case Texts => TextsSame(rc, v, v');
      case Staging => StagingSame(rc, v, v');
      case Queries => QueriesSame(rc, v, v');
      case Interning => ReaderInterns(rc, v, v', p);
      case Store => StoreKept(rc, v, v', Run(rc.reader, p));
      case _ => Get(rc, v, part);
    }
  }

  lemma ReleasedClients(rc: RingConfig, v: View, v': View)
    requires Inv(rc, v) && v.reader.RIntern? && v'.reader.RPublish? && v'.writer == v.writer
    requires StoreActs(rc, v.k, v'.k, EndRelease(rc.reader)) && v'.k == v.k.(store := v'.k.store)
    ensures Holds(rc, v', Interning)
    ensures T(v) < P(v) && v.k.store.clients[rc.reader].text == Clamp(v.k.published[T(v)].ev.query)
  {
    Get(rc, v, Interning);
    if v.writer.Some? && v.writer.value.w.WIntern? {
      AcquiringKept(rc, v.k.store, v'.k.store, v.writer.value.c, v.writer.value.w.ev);
    }
  }

  lemma ReleasedReader(rc: RingConfig, v: View, v': View, text: Text)
    requires Inv(rc, v) && v.reader.RIntern? && v'.k == v.k.(store := v'.k.store)
    requires v'.reader == RPublish(v.reader.t, Event(v.reader.fixed, v.reader.err, text))
    requires T(v) < P(v) && text == Clamp(v.k.published[T(v)].ev.query)
    ensures Holds(rc, v', ReaderAt)
  {
    Get(rc, v, ReaderAt);
    Get(rc, v, Window);
    assert Written(SlotAt(rc, v.k, T(v)), v.k.published[T(v)]);
  }

  lemma OnReleaseEnd(rc: RingConfig, v: View, v': View)
    requires Inv(rc, v) && v.reader.RIntern? && v'.writer == v.writer
    requires StoreActs(rc, v.k, v'.k, EndRelease(rc.reader)) && v'.k == v.k.(store := v'.k.store)
    requires v'.reader == RPublish(v.reader.t, Event(v.reader.fixed, v.reader.err, v.k.store.clients[rc.reader].text))
    ensures Inv(rc, v')
  {
    ReleasedClients(rc, v, v');
    forall part: Part ensures Holds(rc, v', part) {
      match part
      case Texts => TextsSame(rc, v, v');
      case Staging => StagingSame(rc, v, v');
      case Queries => QueriesSame(rc, v, v');
      case ReaderAt => ReleasedReader(rc, v, v', v.k.store.clients[rc.reader].text);
      case Interning =>
      case Store => StoreKept(rc, v, v', EndRelease(rc.reader));
      case _ => Get(rc, v, part);
    }
  }

  // ------------------------------------------------------------------
  // Giving the slot back
  // ------------------------------------------------------------------

  ghost predicate Frees(rc: RingConfig, v: View, v': View)
  {
    && v.reader.RPublish? && v'.reader == RIdle && v'.writer == v.writer
    && v'.k == v.k.(tail := (v.reader.t + 1) % U64, delivered := v.k.delivered + [v.reader.out])
  }

  lemma FreedTexts(rc: RingConfig, v: View, v': View)
    requires Inv(rc, v) && Frees(rc, v, v')
    ensures Holds(rc, v', Texts)
  {
    Get(rc, v, Texts);
    ReaderBehind(rc, v);
    var x, x' := SideOf(v.writer, v.reader), SideOf(v'.writer, v'.reader);
    forall i: nat ensures TextOk(rc, v'.k, x', i) {
      assert TextOk(rc, v.k, x, i);
      assert SlotAt(rc, v'.k, i) == SlotAt(rc, v.k, i);
    }
  }

  lemma FreedQueries(rc: RingConfig, v: View, v': View)
    requires Inv(rc, v) && Frees(rc, v, v')
    ensures Holds(rc, v', Queries)
  {
    Get(rc, v, Queries);
    ReaderBehind(rc, v);
    var x, x' := SideOf(v.writer, v.reader), SideOf(v'.writer, v'.reader);
    forall i: nat ensures QueryOk(rc, v'.k, x', i) {
      assert QueryOk(rc, v.k, x, i);
      assert SlotAt(rc, v'.k, i) == SlotAt(rc, v.k, i);
    }
  }

  lemma FreedWriter(rc: RingConfig, v: View, v': View)
    requires Inv(rc, v) && Frees(rc, v, v')
    ensures Holds(rc, v', WriterAt)
  {
    Get(rc, v, WriterAt);
    assert SlotAt(rc, v'.k, P(v)) == SlotAt(rc, v.k, P(v));
  }

  lemma FreedWindow(rc: RingConfig, v: View, v': View)
    requires Inv(rc, v) && Frees(rc, v, v')
    ensures Holds(rc, v', Window)
  {
    Get(rc, v, ReaderAt);
    Get(rc, v, Window);
    forall i: nat | T(v') <= i < P(v) ensures Written(SlotAt(rc, v'.k, i), v'.k.published[i]) {
      assert SlotAt(rc, v'.k, i) == SlotAt(rc, v.k, i);
    }
  }

  lemma FreedPositions(rc: RingConfig, v: View, v': View)
    requires Inv(rc, v) && Frees(rc, v, v')
    ensures Holds(rc, v', Positions) && Holds(rc, v', Delivered)
  {
    Get(rc, v, ReaderAt);
    Get(rc, v, Positions);
    Get(rc, v, Delivered);
    Get(rc, v, Window);
    WrappedSuccessor(T(v));
  }

  lemma OnFreed(rc: RingConfig, v: View, v': View)
    requires Inv(rc, v) && Frees(rc, v, v')
    ensures Inv(rc, v')
  {
    FreedWindow(rc, v, v');
    FreedPositions(rc, v, v');
    forall part: Part ensures Holds(rc, v', part) {
      match part
      case Texts => FreedTexts(rc, v, v');
      case Staging => StagingSame(rc, v, v');
      case Queries => FreedQueries(rc, v, v');
      case WriterAt => FreedWriter(rc, v, v');
      case ReaderAt =>
      case Interning => Get(rc, v, Interning);
      case Store => Get(rc, v, Store);
      case _ =>
    }
  }

  // ------------------------------------------------------------------
  // All together
  // ------------------------------------------------------------------

  /** Every step of the reader keeps the invariant. */
  lemma ReaderStepInv(rc: RingConfig, v: View, v': View, p: Ptr, s: Slot)
    requires Inv(rc, v) && v'.writer == v.writer
    requires ReaderStep(rc, v.k, v'.k, v.reader, v'.reader, p, s)
    ensures Inv(rc, v')
  {
    match v.reader
    case RIdle => ReaderMove(rc, v, v');
    case RHead => Get(rc, v, Positions); ReaderMove(rc, v, v');
    case RTail(h, seen) => OnSeenTail(rc, v, v', h, seen);
    case RFixed(_) => OnSlotRead(rc, v, v', s);
    case RErr(_, _) => OnSlotRead(rc, v, v', s);
    case RErrCopy(_, _, _, _) => OnErrCopy(rc, v, v');
    case RErrFree(_, _, _, _) => OnErrFree(rc, v, v');
    case RQuery(_, _, _) => OnQueryRead(rc, v, v', s);
    case RIntern(_, _, _) =>
      if v.k.store.clients[rc.reader].RelDone? { OnReleaseEnd(rc, v, v'); }
      else { OnReleaseRun(rc, v, v', p); }
    case RPublish(_, _) => OnFreed(rc, v, v');
  }

  /** The ring starts empty. */
  lemma InitInv(rc: RingConfig, k: Core)
    requires ConfigOk(rc) && Ring.Init(rc, k)
    ensures Inv(rc, View(k, None, RIdle))
  {
    var v := View(k, None, RIdle);
    var x := SideOf(v.writer, v.reader);
    StoreProofs.InitInv(rc.store, k.store);
    forall part: Part ensures Holds(rc, v, part) {
      match part
      case Texts => forall i: nat ensures TextOk(rc, k, x, i) { }
      case Queries => forall i: nat ensures QueryOk(rc, k, x, i) { }
      case Staging => forall c: nat ensures StagedOk(k, x, c) { }
      case _ =>
    }
  }
}
