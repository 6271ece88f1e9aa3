/** Invariant of the ring with one writer and one reader in any phase. */
module RingInvariant {
  import opened Events
  import opened RingArithmetic
  import opened TextStore
  import StoreInv = TextStoreInvariant
  import opened Ring

  /** The client that runs TryEnqueueLocked, if any, and where it is. */
  datatype Busy = Busy(c: nat, w: Writer)

  /** Shared memory together with the two ends' program points. */
  datatype View = View(k: Core, writer: Option<Busy>, reader: Reader)

  /** The slot of an unwrapped position. */
  function SlotAt(rc: RingConfig, k: Core, i: nat): Slot
  {
    if rc.capacity > 0 && Masked(i, rc.capacity) < |k.slots| then k.slots[Masked(i, rc.capacity)]
    else Slot(Fixed(0, 0, []), 0, 0, NULL, NULL)
  }

  /** What an event looks like when it leaves the ring. */
  function Outcome(rec: Record): Event
  {
    Event(rec.ev.fixed,
          if rec.err == Kept then Clamp(rec.ev.err) else "",
          if rec.query == Kept then Clamp(rec.ev.query) else "")
  }

  // ------------------------------------------------------------------
  // Slots
  // ------------------------------------------------------------------

  predicate ErrWritten(s: Slot, ev: Event, f: Fate)
  {
    && f in {Kept, NoText, OutOfMemory}
    && (f == NoText <==> ev.err == "")
    && (f == Kept <==> s.err != NULL)
    && (f == Kept ==> s.errLen == |ev.err|)
  }

  predicate QueryWritten(s: Slot, ev: Event, f: Fate)
  {
    && f in {Kept, NoText, OutOfMemory, Collision}
    && (f == NoText <==> ev.query == "")
    && (f == Kept <==> s.query != NULL)
  }

  predicate Written(s: Slot, rec: Record)
  {
    s.fixed == rec.ev.fixed && ErrWritten(s, rec.ev, rec.err) && QueryWritten(s, rec.ev, rec.query)
  }

  // ------------------------------------------------------------------
  // Who holds which text: a summary of the two ends' progress
  // ------------------------------------------------------------------

  /** `staged`: a string allocated by the writer and not yet stored in its slot;
      `errStored`, `queryStored`: the writer's slot holds its text already;
      `errGone`, `queryGone`: the reader's slot holds its text no longer. */
  datatype Side = Side(
    c: nat, ev: Event, staged: Ptr, errStored: bool, queryStored: bool, errGone: bool, queryGone: bool)

  function SideOf(writer: Option<Busy>, reader: Reader): Side
  {
    var errGone := reader.RQuery? || reader.RIntern? || reader.RPublish?;
    var queryGone := reader.RIntern? || reader.RPublish?;
    if writer.None? then Side(0, Event(Fixed(0, 0, []), "", ""), NULL, false, false, errGone, queryGone)
    else
      var w := writer.value.w;
      Side(writer.value.c, w.ev, if w.WStoreErr? then w.p else NULL,
           w.WQuery? || w.WIntern? || w.WPublish?, w.WPublish?, errGone, queryGone)
  }

  function EventAt(k: Core, x: Side, i: nat): Event
  {
    if i < |k.published| then k.published[i].ev else x.ev
  }

  /** Position i's slot owns an error string. */
  predicate ErrLive(rc: RingConfig, k: Core, x: Side, i: nat)
  {
    && SlotAt(rc, k, i).err != NULL
    && (|| (|k.delivered| <= i < |k.published| && !(i == |k.delivered| && x.errGone))
        || (i == |k.published| && x.errStored))
  }

  predicate QueryLive(rc: RingConfig, k: Core, x: Side, i: nat)
  {
    && SlotAt(rc, k, i).query != NULL
    && (|| (|k.delivered| <= i < |k.published| && !(i == |k.delivered| && x.queryGone))
        || (i == |k.published| && x.queryStored))
  }

  ghost predicate TextOk(rc: RingConfig, k: Core, x: Side, i: nat)
  {
    && (BySlot(i) in k.store.texts <==> ErrLive(rc, k, x, i))
    && (BySlot(i) in k.store.texts ==>
          && k.store.texts[BySlot(i)] == SlotAt(rc, k, i).err
          && SlotAt(rc, k, i).err in k.store.heap
          && k.store.heap[SlotAt(rc, k, i).err] == Str(Clamp(EventAt(k, x, i).err)))
  }

  ghost predicate StagedOk(k: Core, x: Side, c: nat)
  {
    && (ByClient(c) in k.store.texts <==> c == x.c && x.staged != NULL)
    && (ByClient(c) in k.store.texts ==>
          && k.store.texts[ByClient(c)] == x.staged && x.staged in k.store.heap
          && k.store.heap[x.staged] == Str(Clamp(x.ev.err)))
  }

  ghost predicate QueryOk(rc: RingConfig, k: Core, x: Side, i: nat)
  {
    && (BySlot(i) in k.store.refs <==> QueryLive(rc, k, x, i))
    && (BySlot(i) in k.store.refs ==>
          && k.store.refs[BySlot(i)] == SlotAt(rc, k, i).query
          && SlotAt(rc, k, i).query in k.store.heap
          && k.store.heap[SlotAt(rc, k, i).query] == Body(KeyOf(rc, EventAt(k, x, i)), Clamp(EventAt(k, x, i).query)))
  }

  // ------------------------------------------------------------------
  // The two ends
  // ------------------------------------------------------------------

  ghost predicate WriterOk(rc: RingConfig, k: Core, w: Writer)
  {
    var s := SlotAt(rc, k, |k.published|);
    match w
    case WTail(ev, h) => h == k.head
    case WFixed(ev, h) => h == k.head && |k.published| < |k.delivered| + rc.capacity
    case WAlloc(ev, h) =>
      && h == k.head && |k.published| < |k.delivered| + rc.capacity
      && s.fixed == ev.fixed && s.errLen == |ev.err|
    case WStoreErr(ev, h, p, f) =>
      && h == k.head && |k.published| < |k.delivered| + rc.capacity
      && s.fixed == ev.fixed && s.errLen == |ev.err|
      && f in {Kept, NoText, OutOfMemory} && (f == NoText <==> ev.err == "") && (f == Kept <==> p != NULL)
    case WQuery(ev, h, f) =>
      && h == k.head && |k.published| < |k.delivered| + rc.capacity
      && s.fixed == ev.fixed && ErrWritten(s, ev, f)
    case WIntern(ev, h, f) =>
      && h == k.head && |k.published| < |k.delivered| + rc.capacity
      && s.fixed == ev.fixed && ErrWritten(s, ev, f) && ev.query != ""
    case WPublish(ev, h, f, g) =>
      && h == k.head && |k.published| < |k.delivered| + rc.capacity
      && Written(s, Record(ev, f, g))
    case _ => true
  }

  ghost predicate ReaderOk(rc: RingConfig, k: Core, r: Reader)
  {
    var n := |k.delivered|;
    match r
    case RIdle => true
    case RHead => true
    case RTail(h, seen) => h == seen % U64 && n <= seen <= |k.published|
    case RFixed(t) => t == k.tail && n < |k.published|
    case RErr(t, fixed) => t == k.tail && n < |k.published| && fixed == k.published[n].ev.fixed
    case RErrCopy(t, fixed, p, m) =>
      && t == k.tail && n < |k.published| && fixed == k.published[n].ev.fixed
      && p == SlotAt(rc, k, n).err != NULL && m == SlotAt(rc, k, n).errLen
    case RErrFree(t, fixed, err, p) =>
      && t == k.tail && n < |k.published| && fixed == k.published[n].ev.fixed
      && p == SlotAt(rc, k, n).err != NULL && err == Outcome(k.published[n]).err
    case RQuery(t, fixed, err) =>
      && t == k.tail && n < |k.published| && fixed == k.published[n].ev.fixed
      && err == Outcome(k.published[n]).err
    case RIntern(t, fixed, err) =>
      && t == k.tail && n < |k.published| && fixed == k.published[n].ev.fixed
      && err == Outcome(k.published[n]).err && SlotAt(rc, k, n).query != NULL
    case RPublish(t, out) => t == k.tail && n < |k.published| && out == Outcome(k.published[n])
  }

  // ------------------------------------------------------------------
  // The two ends inside the interner
  // ------------------------------------------------------------------

  /** The writer's acquire: once the key was missing it stays missing until it
      is entered, and the entry is always made. */
  ghost predicate Acquiring(rc: RingConfig, s: State, c: nat, ev: Event)
  {
    c < |s.clients| &&
    match s.clients[c]
    case AcqLock(r) => r == RequestOf(rc, ev)
    case AcqFind(r) => r == RequestOf(rc, ev)
    case AcqCompare(r, _) => r == RequestOf(rc, ev)
    case AcqBump(r, _) => r == RequestOf(rc, ev)
    case AcqUnlockHit(r) => r == RequestOf(rc, ev)
    case AcqReadObject(r) => r == RequestOf(rc, ev)
    case AcqUnlockClash(r) => r == RequestOf(rc, ev)
    case AcqUnlockMiss(r) => r == RequestOf(rc, ev) && r.key !in s.table
    case AcqAlloc(r) => r == RequestOf(rc, ev) && r.key !in s.table
    case AcqRelock(r, _) => r == RequestOf(rc, ev) && r.key !in s.table
    case AcqEnter(r, _) => r == RequestOf(rc, ev) && r.key !in s.table
    case AcqUnlockNew(r, _) => r == RequestOf(rc, ev)
    case AcqDone(r, _, fate) => r == RequestOf(rc, ev) && fate != TableFull
    case _ => false
  }

  /** The reader's release: the text it will return is the one expected. */
  ghost predicate Resolving(s: State, c: nat, text: Text)
  {
    c < |s.clients| &&
    match s.clients[c]
    case RelRead(ref) => ref in s.heap && s.heap[ref].Body? && s.heap[ref].text == text
    case RelKey(_, t) => t == text
    case RelLock(_, _, t) => t == text
    case RelFind(_, _, t) => t == text
    case RelDrop(_, _, t) => t == text
    case RelUnlock(_, _, t) => t == text
    case RelFree(_, t) => t == text
    case RelDone(t) => t == text
    case _ => false
  }

  ghost predicate ClientsOk(rc: RingConfig, v: View)
  {
    var s := v.k.store;
    && rc.reader < |s.clients|
    && (v.writer.Some? ==> v.writer.value.c < |s.clients| && v.writer.value.c != rc.reader)
    && (forall d | 0 <= d < |s.clients| && d != rc.reader ::
          s.clients[d].Idle? || (v.writer.Some? && v.writer.value.c == d && v.writer.value.w.WIntern?))
    && (v.writer.Some? && v.writer.value.w.WIntern? ==> Acquiring(rc, s, v.writer.value.c, v.writer.value.w.ev))
    && (if v.reader.RIntern? then
          |v.k.delivered| < |v.k.published| &&
          Resolving(s, rc.reader, Clamp(v.k.published[|v.k.delivered|].ev.query))
        else s.clients[rc.reader].Idle?)
  }

  // ------------------------------------------------------------------
  // The invariant, part by part
  // ------------------------------------------------------------------

  datatype Part = Positions | Window | Texts | Staging | Queries | WriterAt | ReaderAt | Interning | Delivered | Store

  ghost predicate Holds(rc: RingConfig, v: View, part: Part)
  {
    var k, x := v.k, SideOf(v.writer, v.reader);
    match part
    case Positions =>
      && k.head == |k.published| % U64 && k.tail == |k.delivered| % U64
      && |k.delivered| <= |k.published| <= |k.delivered| + rc.capacity
      && |k.slots| == rc.capacity
    case Window => forall i: nat | |k.delivered| <= i < |k.published| :: Written(SlotAt(rc, k, i), k.published[i])
    case Texts => forall i: nat :: TextOk(rc, k, x, i)
    case Staging => forall c: nat :: StagedOk(k, x, c)
    case Queries => forall i: nat :: QueryOk(rc, k, x, i)
    case WriterAt => v.writer.Some? ==> WriterOk(rc, k, v.writer.value.w)
    case ReaderAt => ReaderOk(rc, k, v.reader)
    case Interning => ClientsOk(rc, v)
    case Delivered =>
      |k.delivered| <= |k.published| && forall i | 0 <= i < |k.delivered| :: k.delivered[i] == Outcome(k.published[i])
    case Store => StoreInv.Inv(rc.store, k.store)
  }

  ghost predicate Inv(rc: RingConfig, v: View)
  {
    ConfigOk(rc) && forall part: Part :: Holds(rc, v, part)
  }

  // ------------------------------------------------------------------
  // How two views may differ
  // ------------------------------------------------------------------

  /** Apart from the slot of the head and the store, shared memory is the same. */
  ghost predicate OnlyHeadSlot(rc: RingConfig, k: Core, k': Core)
  {
    && k'.head == k.head && k'.tail == k.tail && k'.published == k.published && k'.delivered == k.delivered
    && |k'.slots| == |k.slots|
    && (forall i: nat | |k.delivered| <= i < |k.published| :: SlotAt(rc, k', i) == SlotAt(rc, k, i))
  }

  /** The strings and their bytes are the same. */
  ghost predicate TextFrame(s: State, s': State)
  {
    && s'.texts == s.texts
    && (forall o | o in s.texts && s.texts[o] in s.heap ::
          s.texts[o] in s'.heap && s'.heap[s.texts[o]] == s.heap[s.texts[o]])
  }

  /** The strings held by slots, and their bytes, are the same. */
  ghost predicate SlotTextFrame(s: State, s': State)
  {
    && (forall i: nat :: BySlot(i) in s'.texts <==> BySlot(i) in s.texts)
    && (forall i: nat | BySlot(i) in s.texts :: s'.texts[BySlot(i)] == s.texts[BySlot(i)])
    && (forall i: nat | BySlot(i) in s.texts && s.texts[BySlot(i)] in s.heap ::
          s.texts[BySlot(i)] in s'.heap && s'.heap[s.texts[BySlot(i)]] == s.heap[s.texts[BySlot(i)]])
  }

  /** The references held by slots, and the bodies they name, are the same. */
  ghost predicate RefFrame(s: State, s': State)
  {
    && (forall i: nat :: BySlot(i) in s'.refs <==> BySlot(i) in s.refs)
    && (forall i: nat | BySlot(i) in s.refs :: s'.refs[BySlot(i)] == s.refs[BySlot(i)])
    && (forall i: nat | BySlot(i) in s.refs && s.refs[BySlot(i)] in s.heap ::
          s.refs[BySlot(i)] in s'.heap && s'.heap[s.refs[BySlot(i)]] == s.heap[s.refs[BySlot(i)]])
  }
}
