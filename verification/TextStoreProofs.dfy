/** Every step of every client keeps the invariant of the text store. */
module TextStoreProofs {
  import opened Events
  import opened TextStore
  import opened TextStoreInvariant

  // ------------------------------------------------------------------
  // Taking the invariant apart and putting it together
  // ------------------------------------------------------------------

  lemma Open(cfg: Config, s: State)
    requires Inv(cfg, s)
    ensures Holds(cfg, s, Profiles(s.clients), Locks) && Holds(cfg, s, Profiles(s.clients), Homes)
    ensures TableOk(cfg, s) && Holds(cfg, s, Profiles(s.clients), Refs) && ClientsOk(cfg, s)
  {
    assert Holds(cfg, s, Profiles(s.clients), Locks) && Holds(cfg, s, Profiles(s.clients), Homes) && Holds(cfg, s, Profiles(s.clients), Table);
    assert Holds(cfg, s, Profiles(s.clients), Refs) && Holds(cfg, s, Profiles(s.clients), Clients);
  }

  lemma Close(cfg: Config, s: State, pr: seq<Profile>)
    requires pr == Profiles(s.clients) && Sound(cfg, s, pr) && ClientsOk(cfg, s)
    ensures Inv(cfg, s)
  {
    forall part: Part ensures Holds(cfg, s, Profiles(s.clients), part) { assert part == Clients || Holds(cfg, s, pr, part); }
  }

  lemma InitInv(cfg: Config, s: State)
    requires Init(s)
    ensures Inv(cfg, s)
  {
    assert Sound(cfg, s, Profiles(s.clients));
    Close(cfg, s, Profiles(s.clients));
  }

  /** What holds for a client that has reached a program point. */
  lemma At(cfg: Config, s: State, c: nat)
    requires Inv(cfg, s) && c < |s.clients|
    ensures ClientOk(cfg, s, c)
    ensures Holding(s.clients[c]) ==> ByClient(c) in s.refs && RefOk(s, ByClient(c))
    ensures NULL !in s.heap
    ensures Holding(s.clients[c]) && Pending(s.clients[c]) != NULL ==> s.refs[ByClient(c)] != Pending(s.clients[c])
  {
    Open(cfg, s);
    assert Profiles(s.clients)[c] == ProfileOf(s.clients[c]);
  }

  // ------------------------------------------------------------------
  // Counting holders
  // ------------------------------------------------------------------

  lemma HoldersAdded(refs: map<Owner, Ptr>, o: Owner, p: Ptr, q: Ptr)
    requires o !in refs
    ensures |Holders(refs[o := p], q)| == |Holders(refs, q)| + (if p == q then 1 else 0)
  {
    var after := Holders(refs[o := p], q);
    if p == q {
      assert after == Holders(refs, q) + {o};
    } else {
      assert after == Holders(refs, q);
    }
  }

  lemma HoldersRemoved(refs: map<Owner, Ptr>, o: Owner, q: Ptr)
    requires o in refs
    ensures |Holders(refs - {o}, q)| == |Holders(refs, q)| - (if refs[o] == q then 1 else 0)
  {
    assert (refs - {o})[o := refs[o]] == refs;
    HoldersAdded(refs - {o}, o, refs[o], q);
  }

  lemma HoldersRenamed(refs: map<Owner, Ptr>, a: Owner, b: Owner, q: Ptr)
    requires a in refs && b !in refs
    ensures |Holders(RenameRef(refs, a, b), q)| == |Holders(refs, q)|
  {
    HoldersRemoved(refs, a, q);
    HoldersAdded(refs - {a}, b, refs[a], q);
  }

  lemma HeldAtLeastOnce(refs: map<Owner, Ptr>, o: Owner, q: Ptr)
    requires o in refs && refs[o] == q
    ensures |Holders(refs, q)| >= 1
  {
    assert o in Holders(refs, q);
  }

  // ------------------------------------------------------------------
  // Interference: what one client does leaves the others where they were
  // ------------------------------------------------------------------

  lemma IsSettled(cfg: Config, s: State, d: nat)
    requires Inv(cfg, s) && d < |s.clients|
    ensures Settled(cfg, s, d)
  {
    Open(cfg, s);
    assert Profiles(s.clients)[d] == ProfileOf(s.clients[d]);
    if Holding(s.clients[d]) { assert RefOk(s, ByClient(d)); }
  }

  lemma SettledKept(cfg: Config, s: State, s': State, c: nat, d: nat)
    requires OnlyBy(cfg, s, s', c) && d < |s.clients| && d != c && Settled(cfg, s, d) && ClientOk(cfg, s, d)
    ensures ClientOk(cfg, s', d)
  {
  }

  lemma OthersKept(cfg: Config, s: State, s': State, c: nat, d: nat)
    requires Inv(cfg, s) && OnlyBy(cfg, s, s', c) && d < |s.clients| && d != c
    ensures ClientOk(cfg, s', d)
  {
    IsSettled(cfg, s, d);
    At(cfg, s, d);
    SettledKept(cfg, s, s', c, d);
  }

  lemma ClientsKept(cfg: Config, s: State, s': State, c: nat)
    requires Inv(cfg, s) && OnlyBy(cfg, s, s', c) && c < |s.clients| && ClientOk(cfg, s', c)
    ensures ClientsOk(cfg, s')
  {
    forall d | 0 <= d < |s'.clients| ensures ClientOk(cfg, s', d) {
      if d != c { OthersKept(cfg, s, s', c, d); }
    }
  }

  // ------------------------------------------------------------------
  // Moves: only the program point and perhaps a lock change
  // ------------------------------------------------------------------

  lemma HomesKept(cfg: Config, s: State, s': State, pr: seq<Profile>, pr': seq<Profile>)
    requires Holds(cfg, s, pr, Homes) && SameStore(s, s') && |pr'| == |pr|
    requires forall c | 0 <= c < |pr| :: pr'[c].pending == pr[c].pending
    ensures Holds(cfg, s', pr', Homes)
  {
    forall p | p in s'.home ensures HomeOk(s', pr', p) { assert HomeOk(s, pr, p); }
  }

  lemma RefsKept(cfg: Config, s: State, s': State, pr: seq<Profile>, pr': seq<Profile>)
    requires Holds(cfg, s, pr, Refs) && SameStore(s, s') && |pr'| == |pr|
    requires forall c | 0 <= c < |pr| :: pr'[c].holding == pr[c].holding
    ensures Holds(cfg, s', pr', Refs)
  {
    forall o | o in s'.refs ensures RefOk(s', o) { assert RefOk(s, o); }
  }

  lemma TableKept(cfg: Config, s: State, s': State)
    requires TableOk(cfg, s) && SameStore(s, s')
    ensures TableOk(cfg, s')
  {
    forall k | k in s'.table ensures EntryOk(cfg, s', k) { assert EntryOk(cfg, s, k); }
  }

  lemma ProfilesUpdated(s: State, c: nat, x: Client)
    requires c < |s.clients|
    ensures Profiles(s.clients[c := x]) == Profiles(s.clients)[c := ProfileOf(x)]
  {
  }

  lemma MoveParts(cfg: Config, s: State, s': State, c: nat, x: Client)
    requires Inv(cfg, s) && SameStore(s, s') && c < |s.clients|
    requires Pending(x) == Pending(s.clients[c]) && Holding(x) == Holding(s.clients[c])
    requires Holds(cfg, s', Profiles(s.clients)[c := ProfileOf(x)], Locks)
    ensures Sound(cfg, s', Profiles(s.clients)[c := ProfileOf(x)])
  {
    var pr := Profiles(s.clients);
    assert Holds(cfg, s, Profiles(s.clients), Homes) && Holds(cfg, s, Profiles(s.clients), Table) && Holds(cfg, s, Profiles(s.clients), Refs);
    HomesKept(cfg, s, s', pr, pr[c := ProfileOf(x)]);
    RefsKept(cfg, s, s', pr, pr[c := ProfileOf(x)]);
    TableKept(cfg, s, s');
  }

  lemma MoveOnlyBy(cfg: Config, s: State, s': State, c: nat, x: Client)
    requires SameStore(s, s') && c < |s.clients| && s'.clients == s.clients[c := x]
    ensures OnlyBy(cfg, s, s', c)
  {
  }

  lemma MoveInv(cfg: Config, s: State, s': State, c: nat, x: Client)
    requires Inv(cfg, s) && SameStore(s, s') && c < |s.clients| && s'.clients == s.clients[c := x]
    requires Holds(cfg, s', Profiles(s.clients)[c := ProfileOf(x)], Locks)
    requires Pending(x) == Pending(s.clients[c]) && Holding(x) == Holding(s.clients[c])
    requires ClientOk(cfg, s', c)
    ensures Inv(cfg, s')
  {
    ProfilesUpdated(s, c, x);
    MoveParts(cfg, s, s', c, x);
    MoveOnlyBy(cfg, s, s', c, x);
    ClientsKept(cfg, s, s', c);
    Close(cfg, s', Profiles(s.clients)[c := ProfileOf(x)]);
  }

  lemma ToInv(cfg: Config, s: State, c: nat, x: Client)
    requires Inv(cfg, s) && c < |s.clients| && ProfileOf(x) == ProfileOf(s.clients[c])
    requires ClientOk(cfg, To(s, c, x), c)
    ensures Inv(cfg, To(s, c, x))
  {
    assert Holds(cfg, s, Profiles(s.clients), Locks);
    assert Profiles(s.clients)[c := ProfileOf(x)] == Profiles(s.clients);
    MoveInv(cfg, s, To(s, c, x), c, x);
  }

  lemma LockTaken(cfg: Config, s: State, s': State, pr: seq<Profile>, c: nat, q: nat, f: Profile)
    requires Holds(cfg, s, pr, Locks) && c < |pr| && s'.locks == s.locks[q := c]
    requires q !in s.locks && pr[c].lock.None?
    requires f.lock.Some? && cfg.partition(f.lock.value) == q
    ensures Holds(cfg, s', pr[c := f], Locks)
  {
  }

  lemma TakeLockInv(cfg: Config, s: State, c: nat, q: nat, x: Client)
    requires Inv(cfg, s) && c < |s.clients| && q !in s.locks && LockKey(s.clients[c]).None?
    requires LockKey(x).Some? && cfg.partition(LockKey(x).value) == q
    requires Pending(x) == Pending(s.clients[c]) && Holding(x) == Holding(s.clients[c])
    requires ClientOk(cfg, TakeLock(s, c, q, x), c)
    ensures Inv(cfg, TakeLock(s, c, q, x))
  {
    assert Holds(cfg, s, Profiles(s.clients), Locks);
    LockTaken(cfg, s, TakeLock(s, c, q, x), Profiles(s.clients), c, q, ProfileOf(x));
    MoveInv(cfg, s, TakeLock(s, c, q, x), c, x);
  }

  lemma LockDropped(cfg: Config, s: State, s': State, pr: seq<Profile>, c: nat, q: nat, f: Profile)
    requires Holds(cfg, s, pr, Locks) && c < |pr| && s'.locks == s.locks - {q}
    requires pr[c].lock.Some? && cfg.partition(pr[c].lock.value) == q
    requires f.lock.None?
    ensures Holds(cfg, s', pr[c := f], Locks)
  {
  }

  lemma DropLockInv(cfg: Config, s: State, c: nat, q: nat, x: Client)
    requires Inv(cfg, s) && c < |s.clients|
    requires LockKey(s.clients[c]).Some? && cfg.partition(LockKey(s.clients[c]).value) == q
    requires LockKey(x).None?
    requires Pending(x) == Pending(s.clients[c]) && Holding(x) == Holding(s.clients[c])
    requires ClientOk(cfg, DropLock(s, c, q, x), c)
    ensures Inv(cfg, DropLock(s, c, q, x))
  {
    assert Holds(cfg, s, Profiles(s.clients), Locks);
    LockDropped(cfg, s, DropLock(s, c, q, x), Profiles(s.clients), c, q, ProfileOf(x));
    MoveInv(cfg, s, DropLock(s, c, q, x), c, x);
  }

  lemma LocksKept(cfg: Config, s: State, s': State, pr: seq<Profile>, c: nat, f: Profile)
    requires Holds(cfg, s, pr, Locks) && c < |pr| && s'.locks == s.locks && f.lock == pr[c].lock
    ensures Holds(cfg, s', pr[c := f], Locks)
  {
  }

  // ------------------------------------------------------------------
  // Allocation and free
  // ------------------------------------------------------------------

  lemma BodiesKept(cfg: Config, s: State, s': State, pr: seq<Profile>)
    requires TableOk(cfg, s) && Holds(cfg, s, pr, Homes) && SameBodies(s, s')
    ensures TableOk(cfg, s')
  {
    forall k | k in s'.table ensures EntryOk(cfg, s', k) { assert EntryOk(cfg, s, k); }
  }

  lemma RefsStayLive(cfg: Config, s: State, s': State, pr: seq<Profile>, c: nat, f: Profile)
    requires Holds(cfg, s, pr, Refs) && Holds(cfg, s, pr, Homes) && SameBodies(s, s')
    requires c < |pr| && f.holding == pr[c].holding
    ensures Holds(cfg, s', pr[c := f], Refs)
  {
    forall o | o in s'.refs ensures RefOk(s', o) { assert RefOk(s, o); }
  }

  lemma AllocHomes(cfg: Config, s: State, s': State, pr: seq<Profile>, c: nat, p: Ptr, f: Profile)
    requires Holds(cfg, s, pr, Homes) && c < |pr|
    requires p != NULL && p !in s.heap && pr[c].pending == NULL && f.pending == p
    requires s'.table == s.table && s'.texts == s.texts && s'.home == s.home[p := InFlight(c)]
    requires s'.heap.Keys == s.heap.Keys + {p}
    requires forall q | q in s.heap :: s'.heap[q] == s.heap[q]
    ensures HomesOk(s', pr[c := f])
  {
    forall q | q in s'.home ensures HomeOk(s', pr[c := f], q) { if q != p { assert HomeOk(s, pr, q); } }
  }

  lemma AllocBodies(cfg: Config, s: State, c: nat, p: Ptr, b: Block, x: Client)
    requires Inv(cfg, s) && c < |s.clients| && p !in s.heap && Holding(x) == Holding(s.clients[c])
    ensures TableOk(cfg, AllocBody(s, c, p, b, x))
    ensures Holds(cfg, AllocBody(s, c, p, b, x), Profiles(s.clients)[c := ProfileOf(x)], Refs)
  {
    var s', pr := AllocBody(s, c, p, b, x), Profiles(s.clients);
    assert Holds(cfg, s, pr, Table) && Holds(cfg, s, pr, Homes) && Holds(cfg, s, pr, Refs);
    BodiesKept(cfg, s, s', pr);
    RefsStayLive(cfg, s, s', pr, c, ProfileOf(x));
  }

  lemma AllocParts(cfg: Config, s: State, c: nat, p: Ptr, r: Request)
    requires Inv(cfg, s) && c < |s.clients| && s.clients[c] == AcqAlloc(r)
    requires p != NULL && p !in s.heap
    ensures Sound(cfg, AllocBody(s, c, p, Body(r.key, r.text), AcqRelock(r, p)),
                  Profiles(s.clients)[c := ProfileOf(AcqRelock(r, p))])
  {
    var x := AcqRelock(r, p);
    var s' := AllocBody(s, c, p, Body(r.key, r.text), x);
    var pr, f := Profiles(s.clients), ProfileOf(x);
    assert pr[c].pending == NULL && pr[c].lock == f.lock;
    AllocBodies(cfg, s, c, p, Body(r.key, r.text), x);
    assert Holds(cfg, s, pr, Homes) && Holds(cfg, s, pr, Locks);
    AllocHomes(cfg, s, s', pr, c, p, f);
    LocksKept(cfg, s, s', pr, c, f);
  }

  lemma AllocOnlyBy(cfg: Config, s: State, c: nat, p: Ptr, b: Block, x: Client)
    requires c < |s.clients| && p !in s.heap
    ensures OnlyBy(cfg, s, AllocBody(s, c, p, b, x), c)
  {
  }

  lemma AllocBodyInv(cfg: Config, s: State, c: nat, p: Ptr, r: Request)
    requires Inv(cfg, s) && c < |s.clients| && s.clients[c] == AcqAlloc(r)
    requires p != NULL && p !in s.heap
    ensures Inv(cfg, AllocBody(s, c, p, Body(r.key, r.text), AcqRelock(r, p)))
  {
    var x := AcqRelock(r, p);
    var s' := AllocBody(s, c, p, Body(r.key, r.text), x);
    At(cfg, s, c);
    ProfilesUpdated(s, c, x);
    AllocParts(cfg, s, c, p, r);
    AllocOnlyBy(cfg, s, c, p, Body(r.key, r.text), x);
    ClientsKept(cfg, s, s', c);
    Close(cfg, s', Profiles(s.clients)[c := ProfileOf(x)]);
  }

  lemma FreeHomes(cfg: Config, s: State, s': State, pr: seq<Profile>, c: nat, p: Ptr, f: Profile)
    requires Holds(cfg, s, pr, Homes) && c < |pr| && SameStore(s.(heap := s.heap - {p}, home := s.home - {p}), s')
    requires pr[c].pending == p != NULL && f.pending == NULL
    ensures Holds(cfg, s', pr[c := f], Homes)
  {
    forall q | q in s'.home ensures HomeOk(s', pr[c := f], q) { assert HomeOk(s, pr, q); }
  }

  lemma FreeOnlyBy(cfg: Config, s: State, c: nat, p: Ptr, x: Client)
    requires c < |s.clients| && p in s.home && s.home[p] == InFlight(c)
    ensures OnlyBy(cfg, s, FreeBlock(s, c, p, x), c)
  {
  }

  lemma FreeParts(cfg: Config, s: State, c: nat, p: Ptr, x: Client)
    requires Inv(cfg, s) && c < |s.clients|
    requires Pending(s.clients[c]) == p != NULL && Pending(x) == NULL
    requires LockKey(s.clients[c]) == LockKey(x) && Holding(x) == Holding(s.clients[c])
    ensures Sound(cfg, FreeBlock(s, c, p, x), Profiles(s.clients)[c := ProfileOf(x)])
    ensures p in s.home && s.home[p] == InFlight(c)
  {
    Open(cfg, s);
    var s' := FreeBlock(s, c, p, x);
    var pr, f := Profiles(s.clients), ProfileOf(x);
    assert pr[c].pending == p;
    FreeHomes(cfg, s, s', pr, c, p, f);
    LocksKept(cfg, s, s', pr, c, f);
    assert p in s.home && s.home[p] == InFlight(c);
    FreeRest(cfg, s, c, p, x);
  }

  /** Table and references do not depend on a block in flight. */
  lemma FreeRest(cfg: Config, s: State, c: nat, p: Ptr, x: Client)
    requires Inv(cfg, s) && c < |s.clients| && p in s.home && s.home[p] == InFlight(c)
    requires Holding(x) == Holding(s.clients[c])
    ensures var s', pr' := FreeBlock(s, c, p, x), Profiles(s.clients)[c := ProfileOf(x)];
            Holds(cfg, s', pr', Table) && Holds(cfg, s', pr', Refs)
  {
    Open(cfg, s);
    var pr := Profiles(s.clients);
    BodiesKept(cfg, s, FreeBlock(s, c, p, x), pr);
    RefsStayLive(cfg, s, FreeBlock(s, c, p, x), pr, c, ProfileOf(x));
  }

  lemma FreeBlockInv(cfg: Config, s: State, c: nat, p: Ptr, x: Client)
    requires Inv(cfg, s) && c < |s.clients|
    requires Pending(s.clients[c]) == p != NULL && Pending(x) == NULL
    requires LockKey(s.clients[c]) == LockKey(x) && Holding(x) == Holding(s.clients[c])
    requires ClientOk(cfg, FreeBlock(s, c, p, x), c)
    ensures Inv(cfg, FreeBlock(s, c, p, x))
  {
    FreeParts(cfg, s, c, p, x);
    FreeOnlyBy(cfg, s, c, p, x);
    ProfilesUpdated(s, c, x);
    ClientsKept(cfg, s, FreeBlock(s, c, p, x), c);
    Close(cfg, FreeBlock(s, c, p, x), Profiles(s.clients)[c := ProfileOf(x)]);
  }

  // ------------------------------------------------------------------
  // Table updates
  // ------------------------------------------------------------------

  lemma InsertTable(cfg: Config, s: State, pr: seq<Profile>, c: nat, r: Request, p: Ptr, x: Client)
    requires TableOk(cfg, s) && Holds(cfg, s, pr, Refs) && c < |s.clients|
    requires ByClient(c) !in s.refs && r.key !in s.table
    requires Staged(s, p, r) && WellKeyed(cfg, r.key, r.text)
    ensures TableOk(cfg, Insert(s, c, r.key, p, x))
  {
    var s' := Insert(s, c, r.key, p, x);
    assert Holders(s.refs, p) == {} by {
      forall o | o in s.refs ensures s.refs[o] != p { assert RefOk(s, o); }
    }
    forall k | k in s'.table ensures EntryOk(cfg, s', k) {
      HoldersAdded(s.refs, ByClient(c), p, s'.table[k].body);
      if k != r.key { assert EntryOk(cfg, s, k); }
    }
  }

  lemma InsertRefs(cfg: Config, s: State, pr: seq<Profile>, c: nat, r: Request, p: Ptr, x: Client, f: Profile)
    requires Holds(cfg, s, pr, Refs) && c < |pr| == |s.clients| && r.key !in s.table && Staged(s, p, r) && f.holding
    ensures Holds(cfg, Insert(s, c, r.key, p, x), pr[c := f], Refs)
  {
    var s' := Insert(s, c, r.key, p, x);
    forall o | o in s'.refs ensures RefOk(s', o) { if o != ByClient(c) { assert RefOk(s, o); } }
  }

  lemma InsertHomes(cfg: Config, s: State, pr: seq<Profile>, c: nat, k: Key, p: Ptr, x: Client, f: Profile)
    requires Holds(cfg, s, pr, Homes) && c < |pr| == |s.clients| && k !in s.table
    requires pr[c].pending == p != NULL && f.pending == NULL
    ensures Holds(cfg, Insert(s, c, k, p, x), pr[c := f], Homes)
  {
    var s' := Insert(s, c, k, p, x);
    forall q | q in s'.home ensures HomeOk(s', pr[c := f], q) {
      if q != p {
        assert HomeOk(s, pr, q);
        InsertHome(s, pr, c, k, p, x, f, q);
      }
    }
  }

  lemma InsertHome(s: State, pr: seq<Profile>, c: nat, k: Key, p: Ptr, x: Client, f: Profile, q: Ptr)
    requires c < |pr| == |s.clients| && k !in s.table && pr[c].pending == p
    requires q in s.home && q != p && HomeOk(s, pr, q)
    ensures HomeOk(Insert(s, c, k, p, x), pr[c := f], q)
  {
  }

  lemma InsertOnlyBy(cfg: Config, s: State, c: nat, k: Key, p: Ptr, x: Client)
    requires c < |s.clients| && k !in s.table
    ensures OnlyBy(cfg, s, Insert(s, c, k, p, x), c)
  {
  }

  lemma InsertParts(cfg: Config, s: State, c: nat, r: Request, p: Ptr)
    requires Inv(cfg, s) && c < |s.clients| && s.clients[c] == AcqEnter(r, p) && r.key !in s.table
    ensures Sound(cfg, Insert(s, c, r.key, p, AcqUnlockNew(r, p)), Profiles(s.clients)[c := ProfileOf(AcqUnlockNew(r, p))])
  {
    var x := AcqUnlockNew(r, p);
    var pr, f := Profiles(s.clients), ProfileOf(x);
    At(cfg, s, c);
    assert pr[c].pending == p && !pr[c].holding && pr[c].lock == f.lock;
    assert Holds(cfg, Insert(s, c, r.key, p, x), pr[c := f], Table) by {
      assert Holds(cfg, s, pr, Table) && Holds(cfg, s, pr, Refs);
      InsertTable(cfg, s, pr, c, r, p, x);
    }
    assert Holds(cfg, Insert(s, c, r.key, p, x), pr[c := f], Refs) by {
      assert Holds(cfg, s, pr, Refs);
      InsertRefs(cfg, s, pr, c, r, p, x, f);
    }
    assert Holds(cfg, Insert(s, c, r.key, p, x), pr[c := f], Homes) by {
      assert Holds(cfg, s, pr, Homes);
      InsertHomes(cfg, s, pr, c, r.key, p, x, f);
    }
    assert Holds(cfg, Insert(s, c, r.key, p, x), pr[c := f], Locks) by {
      assert Holds(cfg, s, pr, Locks);
      LocksKept(cfg, s, Insert(s, c, r.key, p, x), pr, c, f);
    }
  }

  lemma InsertInv(cfg: Config, s: State, c: nat, r: Request, p: Ptr)
    requires Inv(cfg, s) && c < |s.clients|
    requires s.clients[c] == AcqEnter(r, p) && r.key !in s.table
    ensures Inv(cfg, Insert(s, c, r.key, p, AcqUnlockNew(r, p)))
  {
    var x := AcqUnlockNew(r, p);
    At(cfg, s, c);
    ProfilesUpdated(s, c, x);
    InsertParts(cfg, s, c, r, p);
    InsertOnlyBy(cfg, s, c, r.key, p, x);
    ClientsKept(cfg, s, Insert(s, c, r.key, p, x), c);
    Close(cfg, Insert(s, c, r.key, p, x), Profiles(s.clients)[c := ProfileOf(x)]);
  }

  lemma AddRefTable(cfg: Config, s: State, c: nat, k: Key, x: Client)
    requires TableOk(cfg, s) && c < |s.clients| && k in s.table && ByClient(c) !in s.refs
    ensures TableOk(cfg, AddRef(s, c, k, x))
  {
    var s' := AddRef(s, c, k, x);
    assert EntryOk(cfg, s, k);
    forall j | j in s'.table ensures EntryOk(cfg, s', j) {
      assert EntryOk(cfg, s, j);
      HoldersAdded(s.refs, ByClient(c), s.table[k].body, s.table[j].body);
    }
  }

  lemma AddRefRefs(cfg: Config, s: State, pr: seq<Profile>, c: nat, k: Key, x: Client, f: Profile)
    requires Holds(cfg, s, pr, Refs) && TableOk(cfg, s) && c < |s.clients| == |pr| && k in s.table && f.holding
    ensures Holds(cfg, AddRef(s, c, k, x), pr[c := f], Refs)
  {
    var s' := AddRef(s, c, k, x);
    assert EntryOk(cfg, s, k);
    forall o | o in s'.refs ensures RefOk(s', o) { if o != ByClient(c) { assert RefOk(s, o); } }
  }

  lemma AddRefHomes(cfg: Config, s: State, pr: seq<Profile>, c: nat, k: Key, x: Client, f: Profile)
    requires Holds(cfg, s, pr, Homes) && c < |s.clients| == |pr| && k in s.table && f.pending == pr[c].pending
    ensures Holds(cfg, AddRef(s, c, k, x), pr[c := f], Homes)
  {
    var s' := AddRef(s, c, k, x);
    forall p | p in s'.home ensures HomeOk(s', pr[c := f], p) { assert HomeOk(s, pr, p); }
  }

  lemma AddRefOnlyBy(cfg: Config, s: State, c: nat, k: Key, x: Client)
    requires c < |s.clients| && k in s.table
    ensures OnlyBy(cfg, s, AddRef(s, c, k, x), c)
  {
  }

  lemma AddRefInv(cfg: Config, s: State, c: nat, k: Key, x: Client)
    requires Inv(cfg, s) && c < |s.clients| && k in s.table
    requires LockKey(s.clients[c]) == Some(k) == LockKey(x)
    requires Pending(x) == Pending(s.clients[c]) && !Holding(s.clients[c]) && Holding(x)
    requires ClientOk(cfg, AddRef(s, c, k, x), c)
    ensures Inv(cfg, AddRef(s, c, k, x))
  {
    Open(cfg, s);
    var pr, f := Profiles(s.clients), ProfileOf(x);
    ProfilesUpdated(s, c, x);
    AddRefTable(cfg, s, c, k, x);
    AddRefRefs(cfg, s, pr, c, k, x, f);
    AddRefHomes(cfg, s, pr, c, k, x, f);
    LocksKept(cfg, s, AddRef(s, c, k, x), pr, c, f);
    assert Sound(cfg, AddRef(s, c, k, x), pr[c := f]);
    AddRefOnlyBy(cfg, s, c, k, x);
    ClientsKept(cfg, s, AddRef(s, c, k, x), c);
    Close(cfg, AddRef(s, c, k, x), pr[c := f]);
  }

  lemma DropTable(cfg: Config, s: State, pr: seq<Profile>, c: nat, ref: Ptr, key: Key, text: Text)
    requires Holds(cfg, s, pr, Table) && Dropping(s, c, ref, key)
    ensures Holds(cfg, Dropped(s, c, ref, key, text), pr, Table)
  {
    var s' := Dropped(s, c, ref, key, text);
    assert EntryOk(cfg, s, key);
    forall k | k in s'.table ensures EntryOk(cfg, s', k) {
      assert EntryOk(cfg, s, k);
      HoldersRemoved(s.refs, ByClient(c), s.table[k].body);
    }
  }

  lemma DropRefs(cfg: Config, s: State, pr: seq<Profile>, c: nat, ref: Ptr, key: Key, text: Text, f: Profile)
    requires Holds(cfg, s, pr, Refs) && Holds(cfg, s, pr, Table) && Dropping(s, c, ref, key)
    requires |pr| == |s.clients| && !f.holding
    ensures Holds(cfg, Dropped(s, c, ref, key, text), pr[c := f], Refs)
  {
    var s' := Dropped(s, c, ref, key, text);
    assert EntryOk(cfg, s, key);
    HoldersRemoved(s.refs, ByClient(c), ref);
    forall o | o in s'.refs ensures RefOk(s', o) {
      assert RefOk(s, o);
      if s.refs[o] == ref { HeldAtLeastOnce(s'.refs, o, ref); }
    }
  }

  lemma DropHomesLast(cfg: Config, s: State, s': State, pr: seq<Profile>, c: nat, ref: Ptr, key: Key, f: Profile)
    requires Holds(cfg, s, pr, Homes) && c < |pr| && pr[c].pending == NULL && f.pending == ref
    requires key in s.table && s.table[key].body == ref
    requires s'.heap == s.heap && s'.texts == s.texts
    requires s'.table == s.table - {key} && s'.home == s.home[ref := InFlight(c)]
    ensures HomesOk(s', pr[c := f])
  {
    forall p | p in s'.home ensures HomeOk(s', pr[c := f], p) { if p != ref { assert HomeOk(s, pr, p); } }
  }

  lemma DropHomesShared(cfg: Config, s: State, s': State, pr: seq<Profile>, c: nat, key: Key, f: Profile)
    requires Holds(cfg, s, pr, Homes) && c < |pr| && pr[c].pending == f.pending
    requires key in s.table && s.table[key].refcount > 1
    requires s'.heap == s.heap && s'.texts == s.texts && s'.home == s.home
    requires s'.table == s.table[key := s.table[key].(refcount := s.table[key].refcount - 1)]
    ensures HomesOk(s', pr[c := f])
  {
    forall p | p in s'.home ensures HomeOk(s', pr[c := f], p) { assert HomeOk(s, pr, p); }
  }

  lemma DropHomes(cfg: Config, s: State, pr: seq<Profile>, c: nat, ref: Ptr, key: Key, text: Text, f: Profile)
    requires Holds(cfg, s, pr, Homes) && Dropping(s, c, ref, key) && |pr| == |s.clients| && pr[c].pending == NULL
    requires f.pending == if s.table[key].refcount == 1 then ref else NULL
    ensures Holds(cfg, Dropped(s, c, ref, key, text), pr[c := f], Homes)
  {
    if s.table[key].refcount == 1 {
      DropHomesLast(cfg, s, Dropped(s, c, ref, key, text), pr, c, ref, key, f);
    } else {
      DropHomesShared(cfg, s, Dropped(s, c, ref, key, text), pr, c, key, f);
    }
  }

  lemma DropOnlyBy(cfg: Config, s: State, c: nat, ref: Ptr, key: Key, text: Text)
    requires Dropping(s, c, ref, key)
    requires cfg.partition(key) in s.locks && s.locks[cfg.partition(key)] == c
    ensures OnlyBy(cfg, s, Dropped(s, c, ref, key, text), c)
  {
  }

  lemma DropReady(cfg: Config, s: State, c: nat, ref: Ptr, key: Key, text: Text)
    requires Inv(cfg, s) && c < |s.clients| && s.clients[c] == RelDrop(ref, key, text)
    ensures Dropping(s, c, ref, key)
    ensures cfg.partition(key) in s.locks && s.locks[cfg.partition(key)] == c
    ensures Profiles(s.clients)[c].pending == NULL && Profiles(s.clients)[c].lock == Some(key)
  {
    Open(cfg, s);
    assert ClientOk(cfg, s, c) && RefOk(s, ByClient(c)) && EntryOk(cfg, s, key);
    assert Profiles(s.clients)[c] == ProfileOf(s.clients[c]);
  }

  lemma DropClients(cfg: Config, s: State, c: nat, ref: Ptr, key: Key, text: Text)
    requires Inv(cfg, s) && Dropping(s, c, ref, key)
    requires OnlyBy(cfg, s, Dropped(s, c, ref, key, text), c)
    ensures ClientsOk(cfg, Dropped(s, c, ref, key, text))
  {
    Open(cfg, s);
    assert Dropped(s, c, ref, key, text).clients[c].RelUnlock?;
    ClientsKept(cfg, s, Dropped(s, c, ref, key, text), c);
  }

  lemma DropTableAndRefs(cfg: Config, s: State, pr: seq<Profile>, c: nat, ref: Ptr, key: Key, text: Text, f: Profile)
    requires Inv(cfg, s) && pr == Profiles(s.clients) && Dropping(s, c, ref, key) && |pr| == |s.clients| && !f.holding
    ensures var s' := Dropped(s, c, ref, key, text); Holds(cfg, s', pr[c := f], Table) && Holds(cfg, s', pr[c := f], Refs)
  {
    assert Holds(cfg, s, pr, Refs) && Holds(cfg, s, pr, Table);
    DropTable(cfg, s, pr, c, ref, key, text);
    DropRefs(cfg, s, pr, c, ref, key, text, f);
  }

  lemma DropHomesAndLocks(cfg: Config, s: State, pr: seq<Profile>, c: nat, ref: Ptr, key: Key, text: Text, f: Profile)
    requires Inv(cfg, s) && pr == Profiles(s.clients)
    requires Dropping(s, c, ref, key) && |pr| == |s.clients| && pr[c].pending == NULL && pr[c].lock == f.lock
    requires f.pending == if s.table[key].refcount == 1 then ref else NULL
    ensures var s' := Dropped(s, c, ref, key, text); Holds(cfg, s', pr[c := f], Homes) && Holds(cfg, s', pr[c := f], Locks)
  {
    assert Holds(cfg, s, pr, Homes) && Holds(cfg, s, pr, Locks);
    DropHomes(cfg, s, pr, c, ref, key, text, f);
    LocksKept(cfg, s, Dropped(s, c, ref, key, text), pr, c, f);
  }

  lemma DropParts(cfg: Config, s: State, pr: seq<Profile>, c: nat, ref: Ptr, key: Key, text: Text, f: Profile)
    requires Inv(cfg, s) && pr == Profiles(s.clients)
    requires Dropping(s, c, ref, key) && |pr| == |s.clients| && pr[c].pending == NULL && pr[c].lock == f.lock
    requires f.pending == (if s.table[key].refcount == 1 then ref else NULL) && !f.holding
    ensures Sound(cfg, Dropped(s, c, ref, key, text), pr[c := f])
  {
    DropTableAndRefs(cfg, s, pr, c, ref, key, text, f);
    DropHomesAndLocks(cfg, s, pr, c, ref, key, text, f);
  }

  lemma DropRefInv(cfg: Config, s: State, c: nat, ref: Ptr, key: Key, text: Text)
    requires Inv(cfg, s) && c < |s.clients| && s.clients[c] == RelDrop(ref, key, text)
    ensures Dropping(s, c, ref, key)
    ensures Inv(cfg, Dropped(s, c, ref, key, text))
  {
    DropReady(cfg, s, c, ref, key, text);
    var x := RelUnlock(key, if s.table[key].refcount == 1 then ref else NULL, text);
    ProfilesUpdated(s, c, x);
    DropParts(cfg, s, Profiles(s.clients), c, ref, key, text, ProfileOf(x));
    DropOnlyBy(cfg, s, c, ref, key, text);
    DropClients(cfg, s, c, ref, key, text);
    Close(cfg, Dropped(s, c, ref, key, text), Profiles(s.clients)[c := ProfileOf(x)]);
  }

  // ------------------------------------------------------------------
  // Every step of a client
  // ------------------------------------------------------------------

  /** A body that matches the requested text under the requested key is the requested body. */
  lemma MatchIsEqual(cfg: Config, s: State, r: Request, obj: Ptr)
    requires Inv(cfg, s) && Found(s, r, obj) && WellKeyed(cfg, r.key, r.text)
    requires obj in s.heap && ObjectMatches(s.heap[obj], r.text)
    ensures s.heap[obj] == Body(r.key, r.text)
  {
    assert Holds(cfg, s, Profiles(s.clients), Table);
    assert EntryOk(cfg, s, r.key);
  }

  /** A body that a reference holds resolves to its whole text. */
  lemma ResolveWhole(cfg: Config, s: State, o: Owner)
    requires Inv(cfg, s) && o in s.refs && RefOk(s, o)
    ensures Resolve(s.heap[s.refs[o]]) == s.heap[s.refs[o]].text
  {
    assert Holds(cfg, s, Profiles(s.clients), Table);
    assert EntryOk(cfg, s, s.heap[s.refs[o]].key);
  }

  lemma FromAcqLock(cfg: Config, s: State, c: nat, p: Ptr, r: Request)
    requires Inv(cfg, s) && CanStep(cfg, s, c, p) && s.clients[c] == AcqLock(r)
    ensures Inv(cfg, Step(cfg, s, c, p))
  {
    At(cfg, s, c);
    assert Step(cfg, s, c, p) == TakeLock(s, c, cfg.partition(r.key), AcqFind(r));
    TakeLockInv(cfg, s, c, cfg.partition(r.key), AcqFind(r));
  }

  lemma FromAcqFind(cfg: Config, s: State, c: nat, p: Ptr, r: Request)
    requires Inv(cfg, s) && CanStep(cfg, s, c, p) && s.clients[c] == AcqFind(r)
    ensures Inv(cfg, Step(cfg, s, c, p))
  {
    At(cfg, s, c);
    var x := Step(cfg, s, c, p).clients[c];
    assert Step(cfg, s, c, p) == To(s, c, x);
    ToInv(cfg, s, c, x);
  }

  lemma FromAcqCompare(cfg: Config, s: State, c: nat, p: Ptr, r: Request, obj: Ptr)
    requires Inv(cfg, s) && CanStep(cfg, s, c, p) && s.clients[c] == AcqCompare(r, obj)
    ensures Inv(cfg, Step(cfg, s, c, p))
  {
    At(cfg, s, c);
    if ObjectMatches(s.heap[obj], r.text) { MatchIsEqual(cfg, s, r, obj); }
    var x := Step(cfg, s, c, p).clients[c];
    assert Step(cfg, s, c, p) == To(s, c, x);
    ToInv(cfg, s, c, x);
  }

  lemma FromAcqBump(cfg: Config, s: State, c: nat, p: Ptr, r: Request, obj: Ptr)
    requires Inv(cfg, s) && CanStep(cfg, s, c, p) && s.clients[c] == AcqBump(r, obj)
    ensures Inv(cfg, Step(cfg, s, c, p))
  {
    At(cfg, s, c);
    assert Step(cfg, s, c, p) == AddRef(s, c, r.key, AcqUnlockHit(r));
    AddRefInv(cfg, s, c, r.key, AcqUnlockHit(r));
  }

  lemma FromAcqUnlockHit(cfg: Config, s: State, c: nat, p: Ptr, r: Request)
    requires Inv(cfg, s) && CanStep(cfg, s, c, p) && s.clients[c] == AcqUnlockHit(r)
    ensures Inv(cfg, Step(cfg, s, c, p))
  {
    At(cfg, s, c);
    assert Step(cfg, s, c, p) == DropLock(s, c, cfg.partition(r.key), AcqReadObject(r));
    DropLockInv(cfg, s, c, cfg.partition(r.key), AcqReadObject(r));
  }

  /** After the partition lock is dropped, the entry still names the very body
      whose reference the client holds. */
  lemma FromAcqReadObject(cfg: Config, s: State, c: nat, p: Ptr, r: Request)
    requires Inv(cfg, s) && CanStep(cfg, s, c, p) && s.clients[c] == AcqReadObject(r)
    ensures Inv(cfg, Step(cfg, s, c, p))
  {
    At(cfg, s, c);
    assert Step(cfg, s, c, p) == To(s, c, AcqDone(r, s.table[r.key].body, Kept));
    ToInv(cfg, s, c, AcqDone(r, s.table[r.key].body, Kept));
  }

  lemma FromAcqUnlockMiss(cfg: Config, s: State, c: nat, p: Ptr, r: Request)
    requires Inv(cfg, s) && CanStep(cfg, s, c, p) && s.clients[c] == AcqUnlockMiss(r)
    ensures Inv(cfg, Step(cfg, s, c, p))
  {
    At(cfg, s, c);
    assert Step(cfg, s, c, p) == DropLock(s, c, cfg.partition(r.key), AcqAlloc(r));
    DropLockInv(cfg, s, c, cfg.partition(r.key), AcqAlloc(r));
  }

  lemma FromAcqUnlockClash(cfg: Config, s: State, c: nat, p: Ptr, r: Request)
    requires Inv(cfg, s) && CanStep(cfg, s, c, p) && s.clients[c] == AcqUnlockClash(r)
    ensures Inv(cfg, Step(cfg, s, c, p))
  {
    assert Step(cfg, s, c, p) == DropLock(s, c, cfg.partition(r.key), AcqDone(r, NULL, Collision));
    DropLockInv(cfg, s, c, cfg.partition(r.key), AcqDone(r, NULL, Collision));
  }

  lemma FromAcqAlloc(cfg: Config, s: State, c: nat, p: Ptr, r: Request)
    requires Inv(cfg, s) && CanStep(cfg, s, c, p) && s.clients[c] == AcqAlloc(r)
    ensures Inv(cfg, Step(cfg, s, c, p))
  {
    if p == NULL {
      assert Step(cfg, s, c, p) == To(s, c, AcqDone(r, NULL, OutOfMemory));
      ToInv(cfg, s, c, AcqDone(r, NULL, OutOfMemory));
    } else {
      AllocBodyInv(cfg, s, c, p, r);
    }
  }

  lemma FromAcqRelock(cfg: Config, s: State, c: nat, p: Ptr, r: Request, copy: Ptr)
    requires Inv(cfg, s) && CanStep(cfg, s, c, p) && s.clients[c] == AcqRelock(r, copy)
    ensures Inv(cfg, Step(cfg, s, c, p))
  {
    At(cfg, s, c);
    assert Step(cfg, s, c, p) == TakeLock(s, c, cfg.partition(r.key), AcqEnter(r, copy));
    TakeLockInv(cfg, s, c, cfg.partition(r.key), AcqEnter(r, copy));
  }

  lemma EnterFound(cfg: Config, s: State, c: nat, r: Request, copy: Ptr)
    requires Inv(cfg, s) && c < |s.clients| && s.clients[c] == AcqEnter(r, copy) && r.key in s.table
    ensures Inv(cfg, To(s, c, AcqCompareWinner(r, copy, s.table[r.key].body)))
  {
    At(cfg, s, c);
    ToInv(cfg, s, c, AcqCompareWinner(r, copy, s.table[r.key].body));
  }

  lemma EnterFull(cfg: Config, s: State, c: nat, r: Request, copy: Ptr)
    requires Inv(cfg, s) && c < |s.clients| && s.clients[c] == AcqEnter(r, copy)
    ensures Inv(cfg, To(s, c, AcqUnlockBackOut(r, copy, NULL, TableFull)))
  {
    At(cfg, s, c);
    ToInv(cfg, s, c, AcqUnlockBackOut(r, copy, NULL, TableFull));
  }

  lemma FromAcqEnter(cfg: Config, s: State, c: nat, p: Ptr, r: Request, copy: Ptr)
    requires Inv(cfg, s) && CanStep(cfg, s, c, p) && s.clients[c] == AcqEnter(r, copy)
    ensures Inv(cfg, Step(cfg, s, c, p))
  {
    if r.key in s.table {
      EnterFound(cfg, s, c, r, copy);
    } else if |s.table| >= cfg.maxEntries {
      EnterFull(cfg, s, c, r, copy);
    } else {
      InsertInv(cfg, s, c, r, copy);
    }
  }

  lemma FromAcqCompareWinner(cfg: Config, s: State, c: nat, p: Ptr, r: Request, copy: Ptr, obj: Ptr)
    requires Inv(cfg, s) && CanStep(cfg, s, c, p) && s.clients[c] == AcqCompareWinner(r, copy, obj)
    ensures Inv(cfg, Step(cfg, s, c, p))
  {
    At(cfg, s, c);
    if ObjectMatches(s.heap[obj], r.text) { MatchIsEqual(cfg, s, r, obj); }
    var x := Step(cfg, s, c, p).clients[c];
    assert Step(cfg, s, c, p) == To(s, c, x);
    ToInv(cfg, s, c, x);
  }

  lemma FromAcqBumpWinner(cfg: Config, s: State, c: nat, p: Ptr, r: Request, copy: Ptr, obj: Ptr)
    requires Inv(cfg, s) && CanStep(cfg, s, c, p) && s.clients[c] == AcqBumpWinner(r, copy, obj)
    ensures Inv(cfg, Step(cfg, s, c, p))
  {
    At(cfg, s, c);
    assert Step(cfg, s, c, p) == AddRef(s, c, r.key, AcqUnlockBackOut(r, copy, obj, Kept));
    AddRefInv(cfg, s, c, r.key, AcqUnlockBackOut(r, copy, obj, Kept));
  }

  lemma FromAcqUnlockBackOut(cfg: Config, s: State, c: nat, p: Ptr, r: Request, copy: Ptr, result: Ptr, fate: Fate)
    requires Inv(cfg, s) && CanStep(cfg, s, c, p) && s.clients[c] == AcqUnlockBackOut(r, copy, result, fate)
    ensures Inv(cfg, Step(cfg, s, c, p))
  {
    At(cfg, s, c);
    assert Step(cfg, s, c, p) == DropLock(s, c, cfg.partition(r.key), AcqFree(r, copy, result, fate));
    DropLockInv(cfg, s, c, cfg.partition(r.key), AcqFree(r, copy, result, fate));
  }

  lemma FromAcqFree(cfg: Config, s: State, c: nat, p: Ptr, r: Request, copy: Ptr, result: Ptr, fate: Fate)
    requires Inv(cfg, s) && CanStep(cfg, s, c, p) && s.clients[c] == AcqFree(r, copy, result, fate)
    ensures Inv(cfg, Step(cfg, s, c, p))
  {
    At(cfg, s, c);
    assert Step(cfg, s, c, p) == FreeBlock(s, c, copy, AcqDone(r, result, fate));
    FreeBlockInv(cfg, s, c, copy, AcqDone(r, result, fate));
  }

  lemma FromAcqUnlockNew(cfg: Config, s: State, c: nat, p: Ptr, r: Request, result: Ptr)
    requires Inv(cfg, s) && CanStep(cfg, s, c, p) && s.clients[c] == AcqUnlockNew(r, result)
    ensures Inv(cfg, Step(cfg, s, c, p))
  {
    At(cfg, s, c);
    assert Step(cfg, s, c, p) == DropLock(s, c, cfg.partition(r.key), AcqDone(r, result, Kept));
    DropLockInv(cfg, s, c, cfg.partition(r.key), AcqDone(r, result, Kept));
  }

  lemma FromRelRead(cfg: Config, s: State, c: nat, p: Ptr, ref: Ptr)
    requires Inv(cfg, s) && CanStep(cfg, s, c, p) && s.clients[c] == RelRead(ref)
    ensures Inv(cfg, Step(cfg, s, c, p))
  {
    At(cfg, s, c);
    ResolveWhole(cfg, s, ByClient(c));
    assert Step(cfg, s, c, p) == To(s, c, RelKey(ref, Resolve(s.heap[ref])));
    ToInv(cfg, s, c, RelKey(ref, Resolve(s.heap[ref])));
  }

  lemma FromRelKey(cfg: Config, s: State, c: nat, p: Ptr, ref: Ptr, text: Text)
    requires Inv(cfg, s) && CanStep(cfg, s, c, p) && s.clients[c] == RelKey(ref, text)
    ensures Inv(cfg, Step(cfg, s, c, p))
  {
    At(cfg, s, c);
    assert Step(cfg, s, c, p) == To(s, c, RelLock(ref, s.heap[ref].key, text));
    ToInv(cfg, s, c, RelLock(ref, s.heap[ref].key, text));
  }

  lemma FromRelLock(cfg: Config, s: State, c: nat, p: Ptr, ref: Ptr, key: Key, text: Text)
    requires Inv(cfg, s) && CanStep(cfg, s, c, p) && s.clients[c] == RelLock(ref, key, text)
    ensures Inv(cfg, Step(cfg, s, c, p))
  {
    At(cfg, s, c);
    assert Step(cfg, s, c, p) == TakeLock(s, c, cfg.partition(key), RelFind(ref, key, text));
    TakeLockInv(cfg, s, c, cfg.partition(key), RelFind(ref, key, text));
  }

  lemma FromRelFind(cfg: Config, s: State, c: nat, p: Ptr, ref: Ptr, key: Key, text: Text)
    requires Inv(cfg, s) && CanStep(cfg, s, c, p) && s.clients[c] == RelFind(ref, key, text)
    ensures Inv(cfg, Step(cfg, s, c, p))
  {
    At(cfg, s, c);
    assert Step(cfg, s, c, p) == To(s, c, RelDrop(ref, key, text));
    ToInv(cfg, s, c, RelDrop(ref, key, text));
  }

  lemma FromRelDrop(cfg: Config, s: State, c: nat, p: Ptr, ref: Ptr, key: Key, text: Text)
    requires Inv(cfg, s) && CanStep(cfg, s, c, p) && s.clients[c] == RelDrop(ref, key, text)
    ensures Inv(cfg, Step(cfg, s, c, p))
  {
    DropRefInv(cfg, s, c, ref, key, text);
  }

  lemma FromRelUnlock(cfg: Config, s: State, c: nat, p: Ptr, key: Key, freed: Ptr, text: Text)
    requires Inv(cfg, s) && CanStep(cfg, s, c, p) && s.clients[c] == RelUnlock(key, freed, text)
    ensures Inv(cfg, Step(cfg, s, c, p))
  {
    assert Step(cfg, s, c, p) == DropLock(s, c, cfg.partition(key), if freed != NULL then RelFree(freed, text) else RelDone(text));
    DropLockInv(cfg, s, c, cfg.partition(key), if freed != NULL then RelFree(freed, text) else RelDone(text));
  }

  lemma FromRelFree(cfg: Config, s: State, c: nat, p: Ptr, freed: Ptr, text: Text)
    requires Inv(cfg, s) && CanStep(cfg, s, c, p) && s.clients[c] == RelFree(freed, text)
    ensures Inv(cfg, Step(cfg, s, c, p))
  {
    At(cfg, s, c);
    assert Step(cfg, s, c, p) == FreeBlock(s, c, freed, RelDone(text));
    FreeBlockInv(cfg, s, c, freed, RelDone(text));
  }

  /** Whatever the client, the program point and the allocator's answer, a
      step keeps the invariant. */
  lemma StepInv(cfg: Config, s: State, c: nat, p: Ptr)
    requires Inv(cfg, s) && CanStep(cfg, s, c, p)
    ensures Inv(cfg, Step(cfg, s, c, p))
  {
    match s.clients[c]
    case AcqLock(r) => FromAcqLock(cfg, s, c, p, r);
    case AcqFind(r) => FromAcqFind(cfg, s, c, p, r);
    case AcqCompare(r, obj) => FromAcqCompare(cfg, s, c, p, r, obj);
    case AcqBump(r, obj) => FromAcqBump(cfg, s, c, p, r, obj);
    case AcqUnlockHit(r) => FromAcqUnlockHit(cfg, s, c, p, r);
    case AcqReadObject(r) => FromAcqReadObject(cfg, s, c, p, r);
    case AcqUnlockMiss(r) => FromAcqUnlockMiss(cfg, s, c, p, r);
    case AcqUnlockClash(r) => FromAcqUnlockClash(cfg, s, c, p, r);
    case AcqAlloc(r) => FromAcqAlloc(cfg, s, c, p, r);
    case AcqRelock(r, copy) => FromAcqRelock(cfg, s, c, p, r, copy);
    case AcqEnter(r, copy) => FromAcqEnter(cfg, s, c, p, r, copy);
    case AcqCompareWinner(r, copy, obj) => FromAcqCompareWinner(cfg, s, c, p, r, copy, obj);
    case AcqBumpWinner(r, copy, obj) => FromAcqBumpWinner(cfg, s, c, p, r, copy, obj);
    case AcqUnlockBackOut(r, copy, result, fate) => FromAcqUnlockBackOut(cfg, s, c, p, r, copy, result, fate);
    case AcqFree(r, copy, result, fate) => FromAcqFree(cfg, s, c, p, r, copy, result, fate);
    case AcqUnlockNew(r, result) => FromAcqUnlockNew(cfg, s, c, p, r, result);
    case RelRead(ref) => FromRelRead(cfg, s, c, p, ref);
    case RelKey(ref, text) => FromRelKey(cfg, s, c, p, ref, text);
    case RelLock(ref, key, text) => FromRelLock(cfg, s, c, p, ref, key, text);
    case RelFind(ref, key, text) => FromRelFind(cfg, s, c, p, ref, key, text);
    case RelDrop(ref, key, text) => FromRelDrop(cfg, s, c, p, ref, key, text);
    case RelUnlock(key, freed, text) => FromRelUnlock(cfg, s, c, p, key, freed, text);
    case RelFree(freed, text) => FromRelFree(cfg, s, c, p, freed, text);
  }

  // ------------------------------------------------------------------
  // Entering and leaving the interner
  // ------------------------------------------------------------------

  lemma RenameTable(cfg: Config, s: State, s': State, a: Owner, b: Owner)
    requires TableOk(cfg, s) && a in s.refs && b !in s.refs
    requires s'.heap == s.heap && s'.table == s.table && s'.refs == RenameRef(s.refs, a, b)
    ensures TableOk(cfg, s')
  {
    forall k | k in s'.table ensures EntryOk(cfg, s', k) {
      assert EntryOk(cfg, s, k);
      HoldersRenamed(s.refs, a, b, s.table[k].body);
    }
  }

  lemma RenameRefs(cfg: Config, s: State, s': State, pr: seq<Profile>, pr': seq<Profile>, a: Owner, b: Owner)
    requires Holds(cfg, s, pr, Refs) && a in s.refs && b !in s.refs && |pr'| == |pr|
    requires s'.heap == s.heap && s'.table == s.table && s'.refs == RenameRef(s.refs, a, b)
    requires forall c | 0 <= c < |pr| :: pr'[c].holding == ((pr[c].holding && a != ByClient(c)) || b == ByClient(c))
    requires b.ByClient? ==> b.client < |pr|
    ensures Holds(cfg, s', pr', Refs)
  {
    forall o | o in s'.refs ensures RefOk(s', o) {
      assert RefOk(s, if o == b then a else o);
    }
  }

  lemma RenameHomes(cfg: Config, s: State, s': State, pr: seq<Profile>, pr': seq<Profile>)
    requires Holds(cfg, s, pr, Homes) && |pr'| == |pr|
    requires s'.heap == s.heap && s'.table == s.table && s'.texts == s.texts && s'.home == s.home
    requires forall c | 0 <= c < |pr| :: pr'[c].pending == pr[c].pending
    ensures Holds(cfg, s', pr', Homes)
  {
    forall p | p in s'.home ensures HomeOk(s', pr', p) { assert HomeOk(s, pr, p); }
  }

  lemma HandOverOnlyBy(cfg: Config, s: State, s': State, c: nat, x: Client, a: Owner, b: Owner)
    requires HandsOver(s, s', c, x, a, b)
    ensures OnlyBy(cfg, s, s', c)
  {
  }

  lemma HandOverTable(cfg: Config, s: State, s': State, c: nat, x: Client, a: Owner, b: Owner)
    requires Inv(cfg, s) && HandsOver(s, s', c, x, a, b)
    ensures Holds(cfg, s', Profiles(s.clients)[c := ProfileOf(x)], Table)
  {
    assert Holds(cfg, s, Profiles(s.clients), Table);
    RenameTable(cfg, s, s', a, b);
  }

  lemma HandOverRefs(cfg: Config, s: State, s': State, c: nat, x: Client, a: Owner, b: Owner)
    requires Inv(cfg, s) && HandsOver(s, s', c, x, a, b)
    ensures Holds(cfg, s', Profiles(s.clients)[c := ProfileOf(x)], Refs)
  {
    assert Holds(cfg, s, Profiles(s.clients), Refs);
    RenameRefs(cfg, s, s', Profiles(s.clients), Profiles(s.clients)[c := ProfileOf(x)], a, b);
  }

  lemma HandOverParts(cfg: Config, s: State, s': State, c: nat, x: Client, a: Owner, b: Owner)
    requires Inv(cfg, s) && HandsOver(s, s', c, x, a, b)
    ensures Sound(cfg, s', Profiles(s.clients)[c := ProfileOf(x)])
  {
    HandOverTable(cfg, s, s', c, x, a, b);
    HandOverRefs(cfg, s, s', c, x, a, b);
    var pr := Profiles(s.clients);
    assert Holds(cfg, s, pr, Homes) && Holds(cfg, s, pr, Locks);
    RenameHomes(cfg, s, s', pr, pr[c := ProfileOf(x)]);
    LocksKept(cfg, s, s', pr, c, ProfileOf(x));
  }

  lemma HandOverInv(cfg: Config, s: State, s': State, c: nat, x: Client, a: Owner, b: Owner)
    requires Inv(cfg, s) && HandsOver(s, s', c, x, a, b) && ClientOk(cfg, s', c)
    ensures Inv(cfg, s')
  {
    ProfilesUpdated(s, c, x);
    HandOverParts(cfg, s, s', c, x, a, b);
    HandOverOnlyBy(cfg, s, s', c, x, a, b);
    ClientsKept(cfg, s, s', c);
    Close(cfg, s', Profiles(s'.clients));
  }

  lemma EndAcquireInv(cfg: Config, s: State, c: nat, o: Owner)
    requires Inv(cfg, s) && Enabled(cfg, s, EndAcquire(c, o))
    ensures Inv(cfg, Apply(cfg, s, EndAcquire(c, o)))
  {
    if s.clients[c].result == NULL {
      ToInv(cfg, s, c, Idle);
    } else {
      HandOverInv(cfg, s, Apply(cfg, s, EndAcquire(c, o)), c, Idle, ByClient(c), o);
    }
  }

  lemma BeginReleaseInv(cfg: Config, s: State, c: nat, o: Owner, p: Ptr)
    requires Inv(cfg, s) && Enabled(cfg, s, BeginRelease(c, o, p))
    ensures Inv(cfg, Apply(cfg, s, BeginRelease(c, o, p)))
  {
    var s' := Apply(cfg, s, BeginRelease(c, o, p));
    assert ByClient(c) !in s.refs by { assert Holds(cfg, s, Profiles(s.clients), Refs); }
    HandOverInv(cfg, s, s', c, RelRead(p), o, ByClient(c));
  }

  // ------------------------------------------------------------------
  // Strings outside the interner
  // ------------------------------------------------------------------

  lemma TextsRefs(cfg: Config, s: State, s': State)
    requires Inv(cfg, s) && OnlyTexts(s, s')
    ensures Holds(cfg, s', Profiles(s.clients), Refs)
  {
    assert Holds(cfg, s, Profiles(s.clients), Refs) && Holds(cfg, s, Profiles(s.clients), Homes);
    forall o | o in s'.refs ensures RefOk(s', o) { assert RefOk(s, o); }
  }

  lemma TextsParts(cfg: Config, s: State, s': State)
    requires Inv(cfg, s) && OnlyTexts(s, s') && Holds(cfg, s', Profiles(s.clients), Homes)
    ensures Sound(cfg, s', Profiles(s.clients))
  {
    var pr := Profiles(s.clients);
    assert Holds(cfg, s', pr, Locks) by { assert Holds(cfg, s, pr, Locks); }
    assert Holds(cfg, s', pr, Table) by {
      assert Holds(cfg, s, pr, Table) && Holds(cfg, s, pr, Homes);
      BodiesKept(cfg, s, s', pr);
    }
    TextsRefs(cfg, s, s');
  }

  lemma TextsOnlyBy(cfg: Config, s: State, s': State, c: nat)
    requires OnlyTexts(s, s')
    ensures OnlyBy(cfg, s, s', c)
  {
  }

  lemma TextsInv(cfg: Config, s: State, s': State)
    requires Inv(cfg, s) && OnlyTexts(s, s') && Holds(cfg, s', Profiles(s.clients), Homes)
    ensures Inv(cfg, s')
  {
    TextsParts(cfg, s, s');
    forall c | 0 <= c < |s'.clients| ensures ClientOk(cfg, s', c) {
      TextsOnlyBy(cfg, s, s', |s.clients|);
      OthersKept(cfg, s, s', |s.clients|, c);
    }
    Close(cfg, s', Profiles(s.clients));
  }

  lemma AllocTextHomes(cfg: Config, s: State, pr: seq<Profile>, o: Owner, p: Ptr, bytes: Text)
    requires Holds(cfg, s, pr, Homes) && Enabled(cfg, s, AllocText(o, p, bytes))
    ensures Holds(cfg, Apply(cfg, s, AllocText(o, p, bytes)), pr, Homes)
  {
    var s' := Apply(cfg, s, AllocText(o, p, bytes));
    forall q | q in s'.home ensures HomeOk(s', pr, q) { if q != p { assert HomeOk(s, pr, q); } }
  }

  lemma AllocTextInv(cfg: Config, s: State, o: Owner, p: Ptr, bytes: Text)
    requires Inv(cfg, s) && Enabled(cfg, s, AllocText(o, p, bytes))
    ensures Inv(cfg, Apply(cfg, s, AllocText(o, p, bytes)))
  {
    assert Holds(cfg, s, Profiles(s.clients), Homes);
    AllocTextHomes(cfg, s, Profiles(s.clients), o, p, bytes);
    TextsInv(cfg, s, Apply(cfg, s, AllocText(o, p, bytes)));
  }

  lemma MoveTextInv(cfg: Config, s: State, a: Owner, b: Owner)
    requires Inv(cfg, s) && Enabled(cfg, s, MoveText(a, b))
    ensures Inv(cfg, Apply(cfg, s, MoveText(a, b)))
  {
    var s' := Apply(cfg, s, MoveText(a, b));
    assert Holds(cfg, s, Profiles(s.clients), Homes);
    var pr := Profiles(s.clients);
    forall q | q in s'.home ensures HomeOk(s', pr, q) { assert HomeOk(s, pr, q); }
    TextsInv(cfg, s, s');
  }

  lemma FreeTextInv(cfg: Config, s: State, o: Owner, p: Ptr)
    requires Inv(cfg, s) && Enabled(cfg, s, FreeText(o, p))
    ensures Inv(cfg, Apply(cfg, s, FreeText(o, p)))
  {
    var s' := Apply(cfg, s, FreeText(o, p));
    assert Holds(cfg, s, Profiles(s.clients), Homes);
    var pr := Profiles(s.clients);
    forall q | q in s'.home ensures HomeOk(s', pr, q) { assert HomeOk(s, pr, q); }
    TextsInv(cfg, s, s');
  }

  /** Every action of the store keeps its invariant. */
  lemma ApplyInv(cfg: Config, s: State, act: Action)
    requires Inv(cfg, s) && Enabled(cfg, s, act)
    ensures Inv(cfg, Apply(cfg, s, act))
  {
    match act
    case Run(c, p) => StepInv(cfg, s, c, p);
    case BeginAcquire(c, r) => ToInv(cfg, s, c, AcqLock(r));
    case EndAcquire(c, o) => EndAcquireInv(cfg, s, c, o);
    case BeginRelease(c, o, p) => BeginReleaseInv(cfg, s, c, o, p);
    case EndRelease(c) => ToInv(cfg, s, c, Idle);
    case AllocText(o, p, bytes) => AllocTextInv(cfg, s, o, p, bytes);
    case MoveText(a, b) => MoveTextInv(cfg, s, a, b);
    case FreeText(o, p) => FreeTextInv(cfg, s, o, p);
  }
}
