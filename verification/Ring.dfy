/** The ring buffer: TryEnqueueLocked as run by the holder of the queue lock,
    and PschDequeueEvent as run by the lock-free consumer, over the shared text
    store. One step is one atomic read or write, one copy into or out of a
    slot, one allocation or free, or one step inside the interner. */
module Ring {
  import opened Events
  import opened RingArithmetic
  import opened TextStore

  /** `reader` is the consumer's client number in the text store. */
  datatype RingConfig = RingConfig(store: Config, capacity: nat, reader: nat)

  /** PschRingEntry. */
  datatype Slot = Slot(fixed: Fixed, errLen: nat, queryLen: nat, err: Ptr, query: Ptr)

  /** A published event and what became of its two texts (auxiliary). */
  datatype Record = Record(ev: Event, err: Fate, query: Fate)

  /** Shared memory. `head` and `tail` are unsigned 64-bit counters; `published`
      and `delivered` are auxiliary histories of the two ends. */
  datatype Core = Core(
    head: nat, tail: nat,
    slots: seq<Slot>,
    store: State,
    published: seq<Record>,
    delivered: seq<Event>)

  /** Program points of TryEnqueueLocked; `h` is the local copy of head. */
  datatype Writer =
    | WHead(ev: Event)
    | WTail(ev: Event, h: nat)
    | WOverflow(ev: Event)
    | WFixed(ev: Event, h: nat)
    | WAlloc(ev: Event, h: nat)
    | WStoreErr(ev: Event, h: nat, p: Ptr, err: Fate)
    | WQuery(ev: Event, h: nat, err: Fate)
    | WIntern(ev: Event, h: nat, err: Fate)
    | WPublish(ev: Event, h: nat, err: Fate, query: Fate)
    | WCount(ev: Event)

  /** Program points of PschDequeueEvent; `t` is the local copy of tail and
      `seen` the unwrapped value of the head it compares with (auxiliary). */
  datatype Reader =
    | RIdle
    | RHead
    | RTail(h: nat, seen: nat)
    | RFixed(t: nat)
    | RErr(t: nat, fixed: Fixed)
    | RErrCopy(t: nat, fixed: Fixed, p: Ptr, n: nat)
    | RErrFree(t: nat, fixed: Fixed, err: Text, p: Ptr)
    | RQuery(t: nat, fixed: Fixed, err: Text)
    | RIntern(t: nat, fixed: Fixed, err: Text)
    | RPublish(t: nat, out: Event)

  function KeyOf(rc: RingConfig, ev: Event): Key
  {
    MakeKey(rc.store, ev.fixed.dbid, ev.fixed.queryid, Clamp(ev.query))
  }

  /** The arguments TryEnqueueLocked passes to PschQueryInternAcquire. */
  function RequestOf(rc: RingConfig, ev: Event): Request
  {
    Request(KeyOf(rc, ev), Clamp(ev.query))
  }

  /** The producer's test for a full queue, on 64-bit positions. */
  predicate LooksFull(rc: RingConfig, h: nat, t: nat)
  {
    h < U64 && t < U64 && Minus64(h, t) >= rc.capacity
  }

  /** k' is k with the slot of position h replaced. */
  ghost predicate SlotWritten(rc: RingConfig, k: Core, k': Core, h: nat, f: Slot -> Slot)
  {
    rc.capacity > 0 &&
    var i := Masked(h, rc.capacity);
    i < |k.slots| && k' == k.(slots := k.slots[i := f(k.slots[i])], store := k'.store)
  }

  ghost predicate StoreActs(rc: RingConfig, k: Core, k': Core, act: Action)
  {
    Enabled(rc.store, k.store, act) && k'.store == Apply(rc.store, k.store, act)
  }

  /** Step 1: the fixed prefix, lengths included. */
  function CopyFixed(ev: Event): Slot -> Slot
  {
    (s: Slot) => s.(fixed := ev.fixed, errLen := |ev.err|, queryLen := |ev.query|)
  }

  /** Step 2: the error string; a lost string has length zero. */
  function CopyErr(ev: Event, p: Ptr): Slot -> Slot
  {
    (s: Slot) => s.(err := p, errLen := if |ev.err| > 0 && p == NULL then 0 else s.errLen)
  }

  function CopyQuery(ev: Event, p: Ptr): Slot -> Slot
  {
    (s: Slot) => s.(query := p, queryLen := if p == NULL then 0 else |Clamp(ev.query)|)
  }

  /** One step of TryEnqueueLocked by client c. `p` is the allocator's answer
      and `force` the debug setting that forces an overflow. */
  ghost predicate WriterStep(rc: RingConfig, k: Core, k': Core, c: nat, w: Writer, w': Writer, p: Ptr, force: bool)
  {
    var allowed :=
      match w
      case WHead(ev) => k' == k && w' == WTail(ev, k.head)
      case WTail(ev, h) =>
        k' == k && w' == if LooksFull(rc, h, k.tail) || force then WOverflow(ev) else WFixed(ev, h)
      case WFixed(ev, h) =>
        SlotWritten(rc, k, k', h, CopyFixed(ev)) && k'.store == k.store && w' == WAlloc(ev, h)
      case WAlloc(ev, h) =>
        if ev.err == "" then k' == k && w' == WStoreErr(ev, h, NULL, NoText)
        else if p == NULL then k' == k && w' == WStoreErr(ev, h, NULL, OutOfMemory)
        else && StoreActs(rc, k, k', AllocText(ByClient(c), p, Clamp(ev.err)))
             && k' == k.(store := k'.store) && w' == WStoreErr(ev, h, p, Kept)
      case WStoreErr(ev, h, q, err) =>
        && SlotWritten(rc, k, k', h, CopyErr(ev, q)) && w' == WQuery(ev, h, err)
        && (if q == NULL then k'.store == k.store
            else StoreActs(rc, k, k', MoveText(ByClient(c), BySlot(|k.published|))))
      case WQuery(ev, h, err) =>
        if ev.query == "" then
          && SlotWritten(rc, k, k', h, (s: Slot) => s.(query := NULL)) && k'.store == k.store
          && w' == WPublish(ev, h, err, NoText)
        else
          && StoreActs(rc, k, k', BeginAcquire(c, RequestOf(rc, ev)))
          && k' == k.(store := k'.store) && w' == WIntern(ev, h, err)
      case WIntern(ev, h, err) =>
        c < |k.store.clients| &&
        var x := k.store.clients[c];
        if x.AcqDone? then
          && StoreActs(rc, k, k', EndAcquire(c, BySlot(|k.published|)))
          && SlotWritten(rc, k, k', h, CopyQuery(ev, x.result)) && w' == WPublish(ev, h, err, x.fate)
        else
          StoreActs(rc, k, k', Run(c, p)) && k' == k.(store := k'.store) && w' == w
      case WPublish(ev, h, err, query) =>
        && k' == k.(head := (h + 1) % U64, published := k.published + [Record(ev, err, query)])
        && w' == WCount(ev)
      case WOverflow(_) => false
      case WCount(_) => false;
    allowed
  }

  /** The slot at the consumer's tail, if the index is within the ring. */
  ghost predicate SlotRead(rc: RingConfig, k: Core, t: nat, s: Slot)
  {
    rc.capacity > 0 && Masked(t, rc.capacity) < |k.slots| && s == k.slots[Masked(t, rc.capacity)]
  }

  /** The bytes copied out of an error string of recorded length n. */
  function ErrBytes(b: Text, n: nat): Text
  {
    var m := if n > MAX_TEXT - 1 then MAX_TEXT - 1 else n;
    if m <= |b| then b[..m] else b
  }

  /** One step of PschDequeueEvent. `p` is the allocator's (unused) answer and
      `s` the slot it reads. */
  ghost predicate ReaderStep(rc: RingConfig, k: Core, k': Core, r: Reader, r': Reader, p: Ptr, s: Slot)
  {
    var allowed :=
      match r
      case RIdle => k' == k && r' == RHead
      case RHead => k' == k && r' == RTail(k.head, |k.published|)
      case RTail(h, _) => k' == k && r' == if h == k.tail then RIdle else RFixed(k.tail)
      case RFixed(t) => SlotRead(rc, k, t, s) && k' == k && r' == RErr(t, s.fixed)
      case RErr(t, fixed) =>
        && SlotRead(rc, k, t, s) && k' == k
        && r' == if s.err == NULL then RQuery(t, fixed, "") else RErrCopy(t, fixed, s.err, s.errLen)
      case RErrCopy(t, fixed, q, n) =>
        && q in k.store.heap && k.store.heap[q].Str? && k' == k
        && r' == RErrFree(t, fixed, ErrBytes(k.store.heap[q].bytes, n), q)
      case RErrFree(t, fixed, err, q) =>
        && StoreActs(rc, k, k', FreeText(BySlot(|k.delivered|), q))
        && k' == k.(store := k'.store) && r' == RQuery(t, fixed, err)
      case RQuery(t, fixed, err) =>
        && SlotRead(rc, k, t, s)
        && (if s.query == NULL then k' == k && r' == RPublish(t, Event(fixed, err, ""))
            else && StoreActs(rc, k, k', BeginRelease(rc.reader, BySlot(|k.delivered|), s.query))
                 && k' == k.(store := k'.store) && r' == RIntern(t, fixed, err))
      case RIntern(t, fixed, err) =>
        rc.reader < |k.store.clients| &&
        var x := k.store.clients[rc.reader];
        if x.RelDone? then
          && StoreActs(rc, k, k', EndRelease(rc.reader))
          && k' == k.(store := k'.store) && r' == RPublish(t, Event(fixed, err, x.text))
        else
          StoreActs(rc, k, k', Run(rc.reader, p)) && k' == k.(store := k'.store) && r' == r
      case RPublish(t, out) =>
        k' == k.(tail := (t + 1) % U64, delivered := k.delivered + [out]) && r' == RIdle;
    allowed
  }

  ghost predicate Init(rc: RingConfig, k: Core)
  {
    && k.head == 0 && k.tail == 0 && |k.slots| == rc.capacity
    && k.published == [] && k.delivered == [] && TextStore.Init(k.store)
    && rc.reader < |k.store.clients|
    && (forall i | 0 <= i < |k.slots| :: k.slots[i].err == NULL && k.slots[i].query == NULL)
  }

  /** Capacities the configuration accepts, with the interner sized to match. */
  ghost predicate ConfigOk(rc: RingConfig)
  {
    CheckQueueCapacity(rc.capacity) && rc.capacity <= 0x4000_0000 && rc.store.maxEntries == rc.capacity
  }
}
