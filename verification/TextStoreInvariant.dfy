/** Invariant of the text store for any number of concurrent clients.

    Every live block has exactly one owner, every entry's reference count is
    the number of references held, and every reference points at a live body
    tabled under its own key. */
module TextStoreInvariant {
  import opened Events
  import opened TextStore

  // ------------------------------------------------------------------
  // What a program point means
  // ------------------------------------------------------------------

  /** The key whose partition the client has locked. */
  function LockKey(x: Client): Option<Key>
  {
    match x
    case AcqFind(r) => Some(r.key)
    case AcqCompare(r, _) => Some(r.key)
    case AcqBump(r, _) => Some(r.key)
    case AcqUnlockHit(r) => Some(r.key)
    case AcqUnlockMiss(r) => Some(r.key)
    case AcqUnlockClash(r) => Some(r.key)
    case AcqEnter(r, _) => Some(r.key)
    case AcqCompareWinner(r, _, _) => Some(r.key)
    case AcqBumpWinner(r, _, _) => Some(r.key)
    case AcqUnlockBackOut(r, _, _, _) => Some(r.key)
    case AcqUnlockNew(r, _) => Some(r.key)
    case RelFind(_, key, _) => Some(key)
    case RelDrop(_, key, _) => Some(key)
    case RelUnlock(key, _, _) => Some(key)
    case _ => None
  }

  /** The client itself holds a reference. */
  predicate Holding(x: Client)
  {
    match x
    case AcqUnlockHit(_) => true
    case AcqReadObject(_) => true
    case AcqUnlockBackOut(_, _, result, _) => result != NULL
    case AcqFree(_, _, result, _) => result != NULL
    case AcqUnlockNew(_, _) => true
    case AcqDone(_, result, _) => result != NULL
    case RelRead(_) => true
    case RelKey(_, _) => true
    case RelLock(_, _, _) => true
    case RelFind(_, _, _) => true
    case RelDrop(_, _, _) => true
    case _ => false
  }

  /** The block the client alone owns, or NULL. */
  function Pending(x: Client): Ptr
  {
    match x
    case AcqRelock(_, copy) => copy
    case AcqEnter(_, copy) => copy
    case AcqCompareWinner(_, copy, _) => copy
    case AcqBumpWinner(_, copy, _) => copy
    case AcqUnlockBackOut(_, copy, _, _) => copy
    case AcqFree(_, copy, _, _) => copy
    case RelUnlock(_, freed, _) => freed
    case RelFree(freed, _) => freed
    case _ => NULL
  }

  /** What the rest of the store needs to know about a client. */
  datatype Profile = Profile(lock: Option<Key>, holding: bool, pending: Ptr)

  function ProfileOf(x: Client): Profile
  {
    Profile(LockKey(x), Holding(x), Pending(x))
  }

  function Profiles(clients: seq<Client>): (pr: seq<Profile>)
    ensures |pr| == |clients|
    ensures forall c | 0 <= c < |clients| :: pr[c] == ProfileOf(clients[c])
  {
    seq(|clients|, c requires 0 <= c < |clients| => ProfileOf(clients[c]))
  }

  /** The holders of references to a body. */
  function Holders(refs: map<Owner, Ptr>, p: Ptr): set<Owner>
  {
    set o | o in refs && refs[o] == p
  }

  // ------------------------------------------------------------------
  // The invariant
  // ------------------------------------------------------------------

  ghost predicate LocksOk(cfg: Config, s: State, pr: seq<Profile>)
  {
    && (forall c | 0 <= c < |pr| && pr[c].lock.Some? ::
          var q := cfg.partition(pr[c].lock.value);
          q in s.locks && s.locks[q] == c)
    && (forall q | q in s.locks ::
          && s.locks[q] < |pr|
          && pr[s.locks[q]].lock.Some?
          && cfg.partition(pr[s.locks[q]].lock.value) == q)
  }

  /** The owner recorded for block p owns it. */
  ghost predicate HomeOk(s: State, pr: seq<Profile>, p: Ptr)
    requires p in s.home
  {
    match s.home[p]
    case Tabled(k) => k in s.table && s.table[k].body == p
    case OwnedText(o) => o in s.texts && s.texts[o] == p
    case InFlight(c) => c < |pr| && pr[c].pending == p
  }

  /** Every live block is owned, by the one owner recorded for it. */
  ghost predicate HomesOk(s: State, pr: seq<Profile>)
  {
    && s.home.Keys == s.heap.Keys && NULL !in s.heap
    && (forall p | p in s.home :: HomeOk(s, pr, p))
    && (forall k | k in s.table :: s.table[k].body in s.home && s.home[s.table[k].body] == Tabled(k))
    && (forall o | o in s.texts ::
          s.texts[o] in s.heap && s.heap[s.texts[o]].Str? && s.home[s.texts[o]] == OwnedText(o))
    && (forall c | 0 <= c < |pr| && pr[c].pending != NULL ::
          pr[c].pending in s.home && s.home[pr[c].pending] == InFlight(c))
  }

  /** An entry's body is live, carries the entry's key, and is counted. */
  ghost predicate EntryOk(cfg: Config, s: State, k: Key)
    requires k in s.table
  {
    var e := s.table[k];
    && e.body in s.heap && s.heap[e.body].Body? && s.heap[e.body].key == k
    && WellKeyed(cfg, k, s.heap[e.body].text)
    && e.refcount == |Holders(s.refs, e.body)|
    && e.refcount >= 1
  }

  ghost predicate TableOk(cfg: Config, s: State)
  {
    forall k | k in s.table :: EntryOk(cfg, s, k)
  }

  /** A reference points at a live body that is tabled under its own key. */
  ghost predicate RefOk(s: State, o: Owner)
    requires o in s.refs
  {
    var p := s.refs[o];
    p in s.heap && s.heap[p].Body? && s.heap[p].key in s.table && s.table[s.heap[p].key].body == p
  }

  ghost predicate RefsOk(s: State, pr: seq<Profile>)
  {
    && (forall o | o in s.refs :: RefOk(s, o))
    && (forall o | o in s.refs && o.ByClient? :: o.client < |pr| && pr[o.client].holding)
    && (forall c | 0 <= c < |pr| && pr[c].holding :: ByClient(c) in s.refs)
  }

  ghost predicate HoldsText(s: State, c: nat, r: Request)
  {
    && ByClient(c) in s.refs && s.refs[ByClient(c)] in s.heap
    && s.heap[s.refs[ByClient(c)]] == Body(r.key, r.text)
  }

  ghost predicate HoldsRef(s: State, c: nat, p: Ptr)
  {
    ByClient(c) in s.refs && s.refs[ByClient(c)] == p
  }

  ghost predicate Staged(s: State, p: Ptr, r: Request)
  {
    p != NULL && p in s.heap && s.heap[p] == Body(r.key, r.text)
  }

  ghost predicate Found(s: State, r: Request, obj: Ptr)
  {
    r.key in s.table && s.table[r.key].body == obj
  }

  ghost predicate ResultOk(s: State, c: nat, r: Request, result: Ptr, fate: Fate)
  {
    && (result == NULL <==> fate != Kept) && fate != NoText
    && (result != NULL ==> HoldsText(s, c, r) && s.refs[ByClient(c)] == result)
  }

  /** What is true at the program point a client has reached. */
  ghost predicate ClientOk(cfg: Config, s: State, c: nat)
    requires c < |s.clients|
  {
    match s.clients[c]
    case AcqLock(r) => WellKeyed(cfg, r.key, r.text)
    case AcqFind(r) => WellKeyed(cfg, r.key, r.text)
    case AcqCompare(r, obj) => WellKeyed(cfg, r.key, r.text) && Found(s, r, obj)
    case AcqBump(r, obj) => WellKeyed(cfg, r.key, r.text) && Found(s, r, obj) && Staged(s, obj, r)
    case AcqUnlockHit(r) => WellKeyed(cfg, r.key, r.text) && HoldsText(s, c, r)
    case AcqReadObject(r) => WellKeyed(cfg, r.key, r.text) && HoldsText(s, c, r)
    case AcqUnlockMiss(r) => WellKeyed(cfg, r.key, r.text)
    case AcqUnlockClash(r) => WellKeyed(cfg, r.key, r.text)
    case AcqAlloc(r) => WellKeyed(cfg, r.key, r.text)
    case AcqRelock(r, p) => WellKeyed(cfg, r.key, r.text) && Staged(s, p, r)
    case AcqEnter(r, p) => WellKeyed(cfg, r.key, r.text) && Staged(s, p, r)
    case AcqCompareWinner(r, p, obj) =>
      WellKeyed(cfg, r.key, r.text) && Staged(s, p, r) && Found(s, r, obj)
    case AcqBumpWinner(r, p, obj) =>
      WellKeyed(cfg, r.key, r.text) && Staged(s, p, r) && Found(s, r, obj) && Staged(s, obj, r)
    case AcqUnlockBackOut(r, p, result, fate) => Staged(s, p, r) && ResultOk(s, c, r, result, fate)
    case AcqFree(r, p, result, fate) => Staged(s, p, r) && ResultOk(s, c, r, result, fate)
    case AcqUnlockNew(r, result) => ResultOk(s, c, r, result, Kept)
    case AcqDone(r, result, fate) => ResultOk(s, c, r, result, fate)
    case RelRead(ref) => HoldsRef(s, c, ref)
    case RelKey(ref, text) => HoldsRef(s, c, ref) && ref in s.heap && s.heap[ref].Body? && s.heap[ref].text == text
    case RelLock(ref, key, text) => HoldsRef(s, c, ref) && ref in s.heap && s.heap[ref] == Body(key, text)
    case RelFind(ref, key, text) => HoldsRef(s, c, ref) && ref in s.heap && s.heap[ref] == Body(key, text)
    case RelDrop(ref, key, text) => HoldsRef(s, c, ref) && ref in s.heap && s.heap[ref] == Body(key, text)
    case RelFree(freed, _) => freed != NULL
    case _ => true
  }

  ghost predicate ClientsOk(cfg: Config, s: State)
  {
    forall c | 0 <= c < |s.clients| :: ClientOk(cfg, s, c)
  }

  datatype Part = Locks | Homes | Table | Refs | Clients

  ghost predicate Holds(cfg: Config, s: State, pr: seq<Profile>, part: Part)
  {
    match part
    case Locks => LocksOk(cfg, s, pr)
    case Homes => HomesOk(s, pr)
    case Table => TableOk(cfg, s)
    case Refs => RefsOk(s, pr)
    case Clients => ClientsOk(cfg, s)
  }

  /** Every part but the clients' own. */
  ghost predicate Sound(cfg: Config, s: State, pr: seq<Profile>)
  {
    forall part: Part | part != Clients :: Holds(cfg, s, pr, part)
  }

  /** The invariant of the store. */
  ghost predicate Inv(cfg: Config, s: State)
  {
    forall part: Part :: Holds(cfg, s, Profiles(s.clients), part)
  }

  // ------------------------------------------------------------------
  // How two states may differ
  // ------------------------------------------------------------------

  /** s' differs from s only where client c is entitled to change things. */
  ghost predicate OnlyBy(cfg: Config, s: State, s': State, c: nat)
  {
    && |s'.clients| == |s.clients|
    && (forall d | 0 <= d < |s.clients| && d != c :: s'.clients[d] == s.clients[d])
    && (forall d | d != c && ByClient(d) in s.refs :: ByClient(d) in s'.refs && s'.refs[ByClient(d)] == s.refs[ByClient(d)])
    && (forall p | p in s.heap && p in s.home && s.home[p] != InFlight(c) && !s.home[p].OwnedText? ::
          p in s'.heap && s'.heap[p] == s.heap[p])
    && (forall k | k in s.table ::
          || (k in s'.table && s'.table[k].body == s.table[k].body)
          || (cfg.partition(k) in s.locks && s.locks[cfg.partition(k)] == c))
  }

  ghost predicate SameStore(s: State, s': State)
  {
    s'.heap == s.heap && s'.table == s.table && s'.refs == s.refs && s'.texts == s.texts && s'.home == s.home
  }

  /** The bodies in the table are untouched. */
  ghost predicate SameBodies(s: State, s': State)
  {
    && s'.table == s.table && s'.refs == s.refs
    && (forall p | p in s.home && s.home[p].Tabled? && p in s.heap :: p in s'.heap && s'.heap[p] == s.heap[p])
  }

  /** The state after RelDrop. */
  function Dropped(s: State, c: nat, ref: Ptr, key: Key, text: Text): State
    requires c < |s.clients| && key in s.table && s.table[key].refcount > 0
  {
    DropRef(s, c, key, RelUnlock(key, if s.table[key].refcount == 1 then ref else NULL, text))
  }

  /** Client c releases the reference it holds to the body tabled under key. */
  ghost predicate Dropping(s: State, c: nat, ref: Ptr, key: Key)
  {
    && c < |s.clients| && key in s.table && s.table[key].refcount > 0 && s.table[key].body == ref
    && ByClient(c) in s.refs && s.refs[ByClient(c)] == ref
  }

  /** Only strings differ: the bodies, and the blocks in flight, are untouched. */
  ghost predicate OnlyTexts(s: State, s': State)
  {
    && s'.table == s.table && s'.refs == s.refs && s'.locks == s.locks && s'.clients == s.clients
    && (forall p | p in s.home && p in s.heap && !s.home[p].OwnedText? :: p in s'.heap && s'.heap[p] == s.heap[p])
  }

  /** Client c moves to x and a reference passes from a to b, one of which is c itself. */
  ghost predicate HandsOver(s: State, s': State, c: nat, x: Client, a: Owner, b: Owner)
  {
    && c < |s.clients| && a in s.refs && b !in s.refs
    && (a == ByClient(c) || b == ByClient(c)) && (a.BySlot? || b.BySlot?)
    && s' == s.(clients := s.clients[c := x], refs := RenameRef(s.refs, a, b))
    && LockKey(x) == LockKey(s.clients[c]) && Pending(x) == Pending(s.clients[c])
    && Holding(s.clients[c]) == (a == ByClient(c)) && Holding(x) == (b == ByClient(c))
  }

  /** What client d relies on is not for another client to change. */
  ghost predicate Settled(cfg: Config, s: State, d: nat)
    requires d < |s.clients|
  {
    && (Holding(s.clients[d]) ==>
          && ByClient(d) in s.refs && s.refs[ByClient(d)] in s.heap
          && s.refs[ByClient(d)] in s.home && s.home[s.refs[ByClient(d)]].Tabled?)
    && (Pending(s.clients[d]) != NULL ==>
          && Pending(s.clients[d]) in s.heap
          && Pending(s.clients[d]) in s.home && s.home[Pending(s.clients[d])] == InFlight(d))
    && (LockKey(s.clients[d]).Some? ==>
          var k := LockKey(s.clients[d]).value;
          && cfg.partition(k) in s.locks && s.locks[cfg.partition(k)] == d
          && (k in s.table ==> s.table[k].body in s.heap && s.table[k].body in s.home && s.home[s.table[k].body].Tabled?))
  }
}
