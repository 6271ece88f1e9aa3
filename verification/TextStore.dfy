/** The shared text store: the DSA area, the interner's hash table and the
    partition locks, used by any number of concurrent clients.

    A client is a process inside PschQueryInternAcquire or
    PschQueryInternResolveAndRelease; its state is the program point it has
    reached and the locals it carries. One step is one lock operation, one
    access to the hash table or to an object, one allocation or one free.
    Freed addresses may be handed out again.

    `refs`, `texts` and `home` are auxiliary: they record who holds which
    reference, who owns which string, and who owns each live block. No other
    field is computed from them; the conditions that mention them say that a
    caller hands over what it has been given. */
module TextStore {
  import opened Events

  /** A dsa_pointer; NULL stands for InvalidDsaPointer. */
  type Ptr = nat
  const NULL: Ptr := 0

  /** PschQueryInternKey. */
  datatype Key = Key(dbid: nat, queryid: nat, hash: nat, len: nat)

  /** The arguments of one acquire, with the key computed from them. */
  datatype Request = Request(key: Key, text: Text)

  /** A DSA allocation: an error string, or an interned body with its key.
      The magic number of the source tells the two apart. */
  datatype Block = Str(bytes: Text) | Body(key: Key, text: Text)

  /** PschQueryInternEntry without its key. */
  datatype Entry = Entry(body: Ptr, refcount: nat)

  /** The text hash and the partition function are arbitrary, so that any two
      texts may collide on the hash, on the whole key and on the partition. */
  datatype Config = Config(hash: Text -> nat, partition: Key -> nat, maxEntries: nat)

  /** Who holds a reference or a string: a process, or the slot of a position. */
  datatype Owner = ByClient(client: nat) | BySlot(pos: nat)

  /** Who owns a block: a table entry, the holder of a string, or a process
      that has allocated it and not yet tabled it, or untabled and not yet freed it. */
  datatype Home = Tabled(key: Key) | OwnedText(owner: Owner) | InFlight(client: nat)

  datatype Client =
    | Idle
      // PschQueryInternAcquire
    | AcqLock(r: Request)
    | AcqFind(r: Request)
    | AcqCompare(r: Request, obj: Ptr)
    | AcqBump(r: Request, obj: Ptr)
    | AcqUnlockHit(r: Request)
    | AcqReadObject(r: Request)
    | AcqUnlockMiss(r: Request)
    | AcqUnlockClash(r: Request)
    | AcqAlloc(r: Request)
    | AcqRelock(r: Request, copy: Ptr)
    | AcqEnter(r: Request, copy: Ptr)
    | AcqCompareWinner(r: Request, copy: Ptr, obj: Ptr)
    | AcqBumpWinner(r: Request, copy: Ptr, obj: Ptr)
    | AcqUnlockBackOut(r: Request, copy: Ptr, result: Ptr, fate: Fate)
    | AcqFree(r: Request, copy: Ptr, result: Ptr, fate: Fate)
    | AcqUnlockNew(r: Request, result: Ptr)
    | AcqDone(r: Request, result: Ptr, fate: Fate)
      // PschQueryInternResolveAndRelease
    | RelRead(ref: Ptr)
    | RelKey(ref: Ptr, text: Text)
    | RelLock(ref: Ptr, key: Key, text: Text)
    | RelFind(ref: Ptr, key: Key, text: Text)
    | RelDrop(ref: Ptr, key: Key, text: Text)
    | RelUnlock(key: Key, freed: Ptr, text: Text)
    | RelFree(freed: Ptr, text: Text)
    | RelDone(text: Text)

  datatype State = State(
    heap: map<Ptr, Block>,
    table: map<Key, Entry>,
    locks: map<nat, nat>,
    clients: seq<Client>,
    refs: map<Owner, Ptr>,
    texts: map<Owner, Ptr>,
    home: map<Ptr, Home>)

  function MakeKey(cfg: Config, dbid: nat, queryid: nat, text: Text): Key
  {
    Key(dbid, queryid, cfg.hash(text), |text|)
  }

  /** ObjectMatches: right magic, right length, same bytes. */
  predicate ObjectMatches(b: Block, text: Text)
  {
    b.Body? && b.key.len == |text| && |text| <= |b.text| && b.text[..|text|] == text
  }

  /** ResolveInto: the bytes copied out of a body into a buffer of MAX_TEXT bytes. */
  function Resolve(b: Block): Text
  {
    if b.Body? then
      var n := if b.key.len >= MAX_TEXT then MAX_TEXT - 1 else b.key.len;
      if n <= |b.text| then b.text[..n] else b.text
    else ""
  }

  // ------------------------------------------------------------------
  // Effects of single steps
  // ------------------------------------------------------------------

  /** Strings, other clients and other holders' references are as they were. */
  ghost predicate OwnStep(s: State, s': State, c: nat)
  {
    && s'.texts == s.texts
    && c < |s.clients| == |s'.clients| && s'.clients == s.clients[c := s'.clients[c]]
    && (forall o | o != ByClient(c) :: o in s'.refs <==> o in s.refs)
    && (forall o | o != ByClient(c) && o in s.refs :: s'.refs[o] == s.refs[o])
  }

  function To(s: State, c: nat, x: Client): (after: State)
    requires c < |s.clients|
    ensures OwnStep(s, after, c) && after.heap == s.heap
  {
    s.(clients := s.clients[c := x])
  }

  function TakeLock(s: State, c: nat, q: nat, x: Client): (after: State)
    requires c < |s.clients|
    ensures OwnStep(s, after, c) && after.heap == s.heap
  {
    To(s, c, x).(locks := s.locks[q := c])
  }

  function DropLock(s: State, c: nat, q: nat, x: Client): (after: State)
    requires c < |s.clients|
    ensures OwnStep(s, after, c) && after.heap == s.heap
  {
    To(s, c, x).(locks := s.locks - {q})
  }

  /** dsa_allocate_extended followed by the initialisation of the body. */
  function AllocBody(s: State, c: nat, p: Ptr, b: Block, x: Client): (after: State)
    requires c < |s.clients|
    ensures OwnStep(s, after, c)
  {
    To(s, c, x).(heap := s.heap[p := b], home := s.home[p := InFlight(c)])
  }

  /** HASH_ENTER_NULL of a new key: the entry takes over the block with one reference. */
  function Insert(s: State, c: nat, k: Key, p: Ptr, x: Client): (after: State)
    requires c < |s.clients|
    ensures OwnStep(s, after, c) && after.heap == s.heap
  {
    To(s, c, x).(table := s.table[k := Entry(p, 1)],
                 refs := s.refs[ByClient(c) := p],
                 home := s.home[p := Tabled(k)])
  }

  function AddRef(s: State, c: nat, k: Key, x: Client): (after: State)
    requires c < |s.clients| && k in s.table
    ensures OwnStep(s, after, c) && after.heap == s.heap
  {
    var e := s.table[k];
    To(s, c, x).(table := s.table[k := e.(refcount := e.refcount + 1)],
                 refs := s.refs[ByClient(c) := e.body])
  }

  /** One reference less; the entry goes when it was the last one. */
  function DropRef(s: State, c: nat, k: Key, x: Client): (after: State)
    requires c < |s.clients| && k in s.table && s.table[k].refcount > 0
    ensures OwnStep(s, after, c) && after.heap == s.heap
  {
    var e := s.table[k];
    var t := To(s, c, x).(refs := s.refs - {ByClient(c)});
    if e.refcount == 1 then
      t.(table := s.table - {k}, home := s.home[e.body := InFlight(c)])
    else
      t.(table := s.table[k := e.(refcount := e.refcount - 1)])
  }

  function FreeBlock(s: State, c: nat, p: Ptr, x: Client): (after: State)
    requires c < |s.clients|
    ensures OwnStep(s, after, c)
  {
    To(s, c, x).(heap := s.heap - {p}, home := s.home - {p})
  }

  /** Handing a reference from one holder to another. */
  function RenameRef(refs: map<Owner, Ptr>, a: Owner, b: Owner): map<Owner, Ptr>
    requires a in refs
  {
    (refs - {a})[b := refs[a]]
  }

  // ------------------------------------------------------------------
  // Steps of a client
  // ------------------------------------------------------------------

  /** The next step of client c would touch a dead block or a missing entry. */
  predicate Faults(s: State, c: nat)
    requires c < |s.clients|
  {
    match s.clients[c]
    case AcqCompare(_, obj) => obj !in s.heap
    case AcqBump(r, _) => r.key !in s.table
    case AcqReadObject(r) => r.key !in s.table
    case AcqCompareWinner(_, _, obj) => obj !in s.heap
    case AcqBumpWinner(r, _, _) => r.key !in s.table
    case AcqFree(_, copy, _, _) => copy !in s.heap
    case RelRead(ref) => ref !in s.heap
    case RelKey(ref, _) => ref !in s.heap
    case RelDrop(_, key, _) => key !in s.table || s.table[key].refcount == 0
    case RelFree(freed, _) => freed !in s.heap
    case _ => false
  }

  /** The partition a client is about to lock. */
  function Wanted(cfg: Config, x: Client): Option<nat>
  {
    match x
    case AcqLock(r) => Some(cfg.partition(r.key))
    case AcqRelock(r, _) => Some(cfg.partition(r.key))
    case RelLock(_, key, _) => Some(cfg.partition(key))
    case _ => None
  }

  /** Client c can move. `copy` is the address the allocator would return for a new body: NULL on
      out-of-memory, else an address that is not in use. */
  predicate CanStep(cfg: Config, s: State, c: nat, copy: Ptr)
  {
    && c < |s.clients|
    && !(s.clients[c].Idle? || s.clients[c].AcqDone? || s.clients[c].RelDone?)
    && !Faults(s, c)
    && (Wanted(cfg, s.clients[c]).Some? ==> Wanted(cfg, s.clients[c]).value !in s.locks)
    && copy !in s.heap
  }

  /** The client is inside PschQueryInternResolveAndRelease. */
  predicate Releasing(x: Client)
  {
    x.RelRead? || x.RelKey? || x.RelLock? || x.RelFind? || x.RelDrop? || x.RelUnlock? || x.RelFree? || x.RelDone?
  }

  /** HASH_ENTER_NULL and what follows from its answer. */
  function EnterStep(cfg: Config, s: State, c: nat, r: Request, p: Ptr): (after: State)
    requires c < |s.clients|
    ensures OwnStep(s, after, c) && after.heap == s.heap
  {
    if r.key in s.table then To(s, c, AcqCompareWinner(r, p, s.table[r.key].body))
    else if |s.table| >= cfg.maxEntries then To(s, c, AcqUnlockBackOut(r, p, NULL, TableFull))
    else Insert(s, c, r.key, p, AcqUnlockNew(r, p))
  }

  function AcquireStep(cfg: Config, s: State, c: nat, copy: Ptr): (after: State)
    requires CanStep(cfg, s, c, copy) && !Releasing(s.clients[c])
    ensures OwnStep(s, after, c)
  {
    match s.clients[c]
    case AcqLock(r) =>
      TakeLock(s, c, cfg.partition(r.key), AcqFind(r))
    case AcqFind(r) =>
      To(s, c, if r.key in s.table then AcqCompare(r, s.table[r.key].body) else AcqUnlockMiss(r))
    case AcqCompare(r, obj) =>
      To(s, c, if ObjectMatches(s.heap[obj], r.text) then AcqBump(r, obj) else AcqUnlockClash(r))
    case AcqBump(r, obj) =>
      AddRef(s, c, r.key, AcqUnlockHit(r))
    case AcqUnlockHit(r) =>
      DropLock(s, c, cfg.partition(r.key), AcqReadObject(r))
    case AcqReadObject(r) =>
      To(s, c, AcqDone(r, s.table[r.key].body, Kept))
    case AcqUnlockMiss(r) =>
      DropLock(s, c, cfg.partition(r.key), AcqAlloc(r))
    case AcqUnlockClash(r) =>
      DropLock(s, c, cfg.partition(r.key), AcqDone(r, NULL, Collision))
    case AcqAlloc(r) =>
      if copy == NULL then To(s, c, AcqDone(r, NULL, OutOfMemory))
      else AllocBody(s, c, copy, Body(r.key, r.text), AcqRelock(r, copy))
    case AcqRelock(r, p) =>
      TakeLock(s, c, cfg.partition(r.key), AcqEnter(r, p))
    case AcqEnter(r, p) =>
      EnterStep(cfg, s, c, r, p)
    case AcqCompareWinner(r, p, obj) =>
      To(s, c, if ObjectMatches(s.heap[obj], r.text) then AcqBumpWinner(r, p, obj)
               else AcqUnlockBackOut(r, p, NULL, Collision))
    case AcqBumpWinner(r, p, obj) =>
      AddRef(s, c, r.key, AcqUnlockBackOut(r, p, obj, Kept))
    case AcqUnlockBackOut(r, p, result, fate) =>
      DropLock(s, c, cfg.partition(r.key), AcqFree(r, p, result, fate))
    case AcqFree(r, p, result, fate) =>
      FreeBlock(s, c, p, AcqDone(r, result, fate))
    case AcqUnlockNew(r, result) =>
      DropLock(s, c, cfg.partition(r.key), AcqDone(r, result, Kept))
  }

  function ReleaseStep(cfg: Config, s: State, c: nat, copy: Ptr): (after: State)
    requires CanStep(cfg, s, c, copy) && Releasing(s.clients[c])
    ensures OwnStep(s, after, c)
    ensures after.table.Keys <= s.table.Keys
  {
    match s.clients[c]
    case RelRead(ref) =>
      To(s, c, RelKey(ref, Resolve(s.heap[ref])))
    case RelKey(ref, text) =>
      To(s, c, if s.heap[ref].Body? then RelLock(ref, s.heap[ref].key, text) else RelDone(text))
    case RelLock(ref, key, text) =>
      TakeLock(s, c, cfg.partition(key), RelFind(ref, key, text))
    case RelFind(ref, key, text) =>
      To(s, c, if key in s.table && s.table[key].body == ref then RelDrop(ref, key, text)
               else RelUnlock(key, NULL, text))
    case RelDrop(ref, key, text) =>
      DropRef(s, c, key, RelUnlock(key, if s.table[key].refcount == 1 then ref else NULL, text))
    case RelUnlock(key, freed, text) =>
      DropLock(s, c, cfg.partition(key), if freed != NULL then RelFree(freed, text) else RelDone(text))
    case RelFree(freed, text) =>
      FreeBlock(s, c, freed, RelDone(text))
  }

  function Step(cfg: Config, s: State, c: nat, copy: Ptr): (after: State)
    requires CanStep(cfg, s, c, copy)
    ensures OwnStep(s, after, c)
  {
    if Releasing(s.clients[c]) then ReleaseStep(cfg, s, c, copy) else AcquireStep(cfg, s, c, copy)
  }

  /** The key of a stored text: its hash, its length, and a length that fits. */
  predicate WellKeyed(cfg: Config, k: Key, text: Text)
  {
    k.hash == cfg.hash(text) && k.len == |text| && 0 < |text| < MAX_TEXT
  }

  // ------------------------------------------------------------------
  // The store as a transition system
  // ------------------------------------------------------------------

  datatype Action =
    | Run(c: nat, p: Ptr)
    | BeginAcquire(c: nat, r: Request)
    | EndAcquire(c: nat, o: Owner)
    | BeginRelease(c: nat, o: Owner, p: Ptr)
    | EndRelease(c: nat)
    | AllocText(o: Owner, p: Ptr, bytes: Text)
    | MoveText(a: Owner, b: Owner)
    | FreeText(o: Owner, p: Ptr)

  predicate Enabled(cfg: Config, s: State, act: Action)
  {
    match act
    case Run(c, p) => CanStep(cfg, s, c, p)
    case BeginAcquire(c, r) => c < |s.clients| && s.clients[c].Idle? && WellKeyed(cfg, r.key, r.text)
    case EndAcquire(c, o) =>
      && c < |s.clients| && s.clients[c].AcqDone? && o.BySlot? && o !in s.refs
      && (s.clients[c].result != NULL ==> ByClient(c) in s.refs)
    case BeginRelease(c, o, p) =>
      c < |s.clients| && s.clients[c].Idle? && o.BySlot? && o in s.refs && s.refs[o] == p
    case EndRelease(c) => c < |s.clients| && s.clients[c].RelDone?
    case AllocText(o, p, _) => p !in s.heap && p != NULL && o !in s.texts
    case MoveText(a, b) => a in s.texts && b !in s.texts
    case FreeText(o, p) => o in s.texts && s.texts[o] == p
  }

  function Apply(cfg: Config, s: State, act: Action): State
    requires Enabled(cfg, s, act)
  {
    match act
    case Run(c, p) => Step(cfg, s, c, p)
    case BeginAcquire(c, r) => To(s, c, AcqLock(r))
    case EndAcquire(c, o) =>
      // the caller stores the result with `o`
      if s.clients[c].result == NULL then To(s, c, Idle)
      else To(s, c, Idle).(refs := RenameRef(s.refs, ByClient(c), o))
    case BeginRelease(c, o, p) =>
      // the reference held by `o` is passed to PschQueryInternResolveAndRelease
      To(s, c, RelRead(p)).(refs := RenameRef(s.refs, o, ByClient(c)))
    case EndRelease(c) => To(s, c, Idle)
    case AllocText(o, p, bytes) =>
      s.(heap := s.heap[p := Str(bytes)], texts := s.texts[o := p], home := s.home[p := OwnedText(o)])
    case MoveText(a, b) =>
      s.(texts := RenameRef(s.texts, a, b), home := s.home[s.texts[a] := OwnedText(b)])
    case FreeText(o, p) =>
      s.(heap := s.heap - {p}, texts := s.texts - {o}, home := s.home - {p})
  }

  ghost predicate Init(s: State)
  {
    && s.heap == map[] && s.table == map[] && s.locks == map[]
    && s.refs == map[] && s.texts == map[] && s.home == map[]
    && forall c :: 0 <= c < |s.clients| ==> s.clients[c] == Idle
  }

  /** A run of the store: any number of clients, any interleaving. */
  ghost predicate IsRun(cfg: Config, run: seq<State>)
  {
    && |run| > 0 && Init(run[0])
    && forall i :: 0 <= i < |run| - 1 ==>
         exists act: Action :: Enabled(cfg, run[i], act) && run[i + 1] == Apply(cfg, run[i], act)
  }
}
