/** Ownership and reference counts read off the queue itself: the table, the
    slots and the processes, without the auxiliary maps of the text store. */
module QueueOwnership {
  import opened Events
  import opened TextStore
  import StoreInv = TextStoreInvariant
  import StoreProofs = TextStoreProofs
  import StoreThms = TextStoreTheorems
  import opened Ring
  import opened RingInvariant
  import opened RingProofs
  import Pipeline
  import PI = PipelineInvariant
  import PipelineProofs
  import PipelineTheorems

  // ------------------------------------------------------------------
  // Reference counts
  // ------------------------------------------------------------------

  /** The client holds a reference to body p, as its locals tell. */
  predicate Names(s: State, x: Client, p: Ptr)
  {
    match x
    case AcqUnlockHit(r) => r.key in s.table && s.table[r.key].body == p
    case AcqReadObject(r) => r.key in s.table && s.table[r.key].body == p
    case AcqUnlockBackOut(_, _, result, _) => result != NULL && result == p
    case AcqFree(_, _, result, _) => result != NULL && result == p
    case AcqUnlockNew(_, result) => result == p
    case AcqDone(_, result, _) => result != NULL && result == p
    case RelRead(ref) => ref == p
    case RelKey(ref, _) => ref == p
    case RelLock(ref, _, _) => ref == p
    case RelFind(ref, _, _) => ref == p
    case RelDrop(ref, _, _) => ref == p
    case _ => false
  }

  lemma NamesIsHolding(cfg: Config, s: State, c: nat, p: Ptr)
    requires StoreInv.Inv(cfg, s) && c < |s.clients|
    ensures Names(s, s.clients[c], p) <==> ByClient(c) in s.refs && s.refs[ByClient(c)] == p
  {
    StoreProofs.At(cfg, s, c);
    assert StoreInv.Holds(cfg, s, StoreInv.Profiles(s.clients), StoreInv.Refs);
    assert StoreInv.Profiles(s.clients)[c] == StoreInv.ProfileOf(s.clients[c]);
  }

  /** The positions from tail to head whose slots hold a reference to body p. */
  function SlotsNaming(rc: RingConfig, v: View, p: Ptr): set<nat>
  {
    set i: nat | i <= P(v) && QueryLive(rc, v.k, SideOf(v.writer, v.reader), i) && SlotAt(rc, v.k, i).query == p
  }

  function ClientsNaming(s: State, p: Ptr): set<nat>
  {
    set c: nat | c < |s.clients| && Names(s, s.clients[c], p)
  }

  function AsSlots(a: set<nat>): set<Owner> { set i | i in a :: BySlot(i) }
  function AsClients(a: set<nat>): set<Owner> { set i | i in a :: ByClient(i) }

  lemma {:induction false} AsSlotsSize(a: set<nat>)
    ensures |AsSlots(a)| == |a|
  {
    if a != {} {
      var x :| x in a;
      AsSlotsSize(a - {x});
      assert AsSlots(a) == AsSlots(a - {x}) + {BySlot(x)};
    }
  }

  lemma {:induction false} AsClientsSize(a: set<nat>)
    ensures |AsClients(a)| == |a|
  {
    if a != {} {
      var x :| x in a;
      AsClientsSize(a - {x});
      assert AsClients(a) == AsClients(a - {x}) + {ByClient(x)};
    }
  }

  lemma HoldersAre(rc: RingConfig, v: View, p: Ptr)
    requires Inv(rc, v)
    ensures StoreInv.Holders(v.k.store.refs, p) ==
            AsSlots(SlotsNaming(rc, v, p)) + AsClients(ClientsNaming(v.k.store, p))
  {
    var s, x := v.k.store, SideOf(v.writer, v.reader);
    Get(rc, v, Store);
    Get(rc, v, Queries);
    forall o ensures o in StoreInv.Holders(s.refs, p) <==>
                     o in AsSlots(SlotsNaming(rc, v, p)) + AsClients(ClientsNaming(s, p))
    {
      if o.BySlot? {
        assert QueryOk(rc, v.k, x, o.pos);
      } else {
        HolderIsClient(rc, v, o);
        if o.client < |s.clients| { NamesIsHolding(rc.store, s, o.client, p); }
      }
    }
  }

  lemma HolderIsClient(rc: RingConfig, v: View, o: Owner)
    requires Inv(rc, v) && o.ByClient?
    ensures o in v.k.store.refs ==> o.client < |v.k.store.clients|
  {
    var s := v.k.store;
    Get(rc, v, Store);
    assert StoreInv.Holds(rc.store, s, StoreInv.Profiles(s.clients), StoreInv.Refs);
  }

  /** In every reachable state an entry's reference count is the number of slots
      between tail and head that still hold its body, plus the number of
      processes that do. */
  lemma RefcountIsHolders(rc: RingConfig, run: seq<Pipeline.State>, n: nat, key: Key)
    requires Pipeline.IsRun(rc, run) && n < |run| && key in run[n].k.store.table
    ensures var v, e := PI.ViewOf(run[n]), run[n].k.store.table[key];
            1 <= e.refcount == |SlotsNaming(rc, v, e.body)| + |ClientsNaming(v.k.store, e.body)|
  {
    PipelineTheorems.RunInv(rc, run, n);
    var s, v := run[n].k.store, PI.ViewOf(run[n]);
    var p := s.table[key].body;
    PipelineProofs.Get(rc, run[n], PI.RingPart);
    Get(rc, v, Store);
    assert StoreInv.Holds(rc.store, s, StoreInv.Profiles(s.clients), StoreInv.Table);
    assert StoreInv.EntryOk(rc.store, s, key);
    HoldersAre(rc, v, p);
    AsSlotsSize(SlotsNaming(rc, v, p));
    AsClientsSize(ClientsNaming(s, p));
  }

  // ------------------------------------------------------------------
  // Ownership
  // ------------------------------------------------------------------

  /** Who may own a block: a table entry, the slot of a position for its error
      string, the writer before it stores its error string, or a process with a
      body it has not tabled yet or has untabled. */
  datatype BlockOwner = EntryOf(key: Key) | ErrorOf(pos: nat) | StagedBy(c: nat) | BodyOf(c: nat)

  predicate Owns(rc: RingConfig, v: View, o: BlockOwner, p: Ptr)
  {
    match o
    case EntryOf(key) => key in v.k.store.table && v.k.store.table[key].body == p
    case ErrorOf(pos) => ErrLive(rc, v.k, SideOf(v.writer, v.reader), pos) && SlotAt(rc, v.k, pos).err == p
    case StagedBy(c) =>
      p != NULL && v.writer.Some? && v.writer.value.c == c && v.writer.value.w.WStoreErr? && v.writer.value.w.p == p
    case BodyOf(c) => p != NULL && c < |v.k.store.clients| && StoreInv.Pending(v.k.store.clients[c]) == p
  }

  /** The store's name for an owner. */
  function HomeOf(o: BlockOwner): Home
  {
    match o
    case EntryOf(key) => Tabled(key)
    case ErrorOf(pos) => OwnedText(BySlot(pos))
    case StagedBy(c) => OwnedText(ByClient(c))
    case BodyOf(c) => InFlight(c)
  }

  lemma OwnsAsStore(rc: RingConfig, v: View, o: BlockOwner, p: Ptr)
    requires Inv(rc, v)
    ensures Owns(rc, v, o, p) <==> StoreThms.Owns(v.k.store, HomeOf(o), p)
  {
    var x := SideOf(v.writer, v.reader);
    match o
    case ErrorOf(pos) =>
      Get(rc, v, Texts);
      assert TextOk(rc, v.k, x, pos);
    case StagedBy(c) =>
      Get(rc, v, Staging);
      assert StagedOk(v.k, x, c);
    case _ =>
  }

  function OwnerOf(h: Home): (o: BlockOwner)
    ensures HomeOf(o) == h
  {
    match h
    case Tabled(key) => EntryOf(key)
    case OwnedText(BySlot(pos)) => ErrorOf(pos)
    case OwnedText(ByClient(c)) => StagedBy(c)
    case InFlight(c) => BodyOf(c)
  }

  lemma OwnerUnique(rc: RingConfig, v: View, o: BlockOwner, o': BlockOwner, p: Ptr)
    requires Inv(rc, v) && Owns(rc, v, o, p) && Owns(rc, v, o', p)
    ensures o == o' && p in v.k.store.heap
  {
    Get(rc, v, Store);
    OwnsAsStore(rc, v, o, p);
    OwnsAsStore(rc, v, o', p);
    StoreThms.OwnerIsHome(rc.store, v.k.store, HomeOf(o), p);
    StoreThms.OwnerIsHome(rc.store, v.k.store, HomeOf(o'), p);
  }

  /** In every reachable state a DSA block is live exactly if it has an owner,
      and no block has two. */
  lemma OneOwner(rc: RingConfig, run: seq<Pipeline.State>, n: nat, p: Ptr)
    requires Pipeline.IsRun(rc, run) && n < |run|
    ensures var v := PI.ViewOf(run[n]); p in v.k.store.heap <==> exists o: BlockOwner :: Owns(rc, v, o, p)
    ensures var v := PI.ViewOf(run[n]);
            forall o: BlockOwner, o': BlockOwner :: Owns(rc, v, o, p) && Owns(rc, v, o', p) ==> o == o'
  {
    PipelineTheorems.RunInv(rc, run, n);
    var v := PI.ViewOf(run[n]);
    PipelineProofs.Get(rc, run[n], PI.RingPart);
    forall o: BlockOwner, o': BlockOwner | Owns(rc, v, o, p) && Owns(rc, v, o', p) ensures o == o' && p in v.k.store.heap {
      OwnerUnique(rc, v, o, o', p);
    }
    if p in v.k.store.heap {
      Get(rc, v, Store);
      StoreThms.HomeOwns(rc.store, v.k.store, p);
      OwnsAsStore(rc, v, OwnerOf(v.k.store.home[p]), p);
    }
  }

  // ------------------------------------------------------------------
  // Sharing
  // ------------------------------------------------------------------

  /** The interner's notion of the same query. */
  predicate SameQuery(a: Event, b: Event)
  {
    a.fixed.dbid == b.fixed.dbid && a.fixed.queryid == b.fixed.queryid && Clamp(a.query) == Clamp(b.query)
  }

  lemma SharedBody(rc: RingConfig, v: View, i: nat, j: nat)
    requires Inv(rc, v)
    requires var x := SideOf(v.writer, v.reader); QueryLive(rc, v.k, x, i) && QueryLive(rc, v.k, x, j)
    ensures var x := SideOf(v.writer, v.reader);
            SlotAt(rc, v.k, i).query == SlotAt(rc, v.k, j).query <==> SameQuery(EventAt(v.k, x, i), EventAt(v.k, x, j))
  {
    var s, x := v.k.store, SideOf(v.writer, v.reader);
    Get(rc, v, Store);
    Get(rc, v, Queries);
    assert QueryOk(rc, v.k, x, i) && QueryOk(rc, v.k, x, j);
    assert StoreInv.Holds(rc.store, s, StoreInv.Profiles(s.clients), StoreInv.Refs);
    assert StoreInv.RefOk(s, BySlot(i)) && StoreInv.RefOk(s, BySlot(j));
  }

  /** Interning: in every reachable state two queued events that still have their
      query texts share one copy of them exactly if they agree in database, query
      id and stored text. */
  lemma SharedExactly(rc: RingConfig, run: seq<Pipeline.State>, n: nat, i: nat, j: nat)
    requires Pipeline.IsRun(rc, run) && n < |run|
    requires var v := PI.ViewOf(run[n]);
             var x := SideOf(v.writer, v.reader);
             QueryLive(rc, v.k, x, i) && QueryLive(rc, v.k, x, j) && i < |v.k.published| && j < |v.k.published|
    ensures var k := run[n].k;
            SlotAt(rc, k, i).query == SlotAt(rc, k, j).query <==> SameQuery(k.published[i].ev, k.published[j].ev)
  {
    PipelineTheorems.RunInv(rc, run, n);
    PipelineProofs.Get(rc, run[n], PI.RingPart);
    SharedBody(rc, PI.ViewOf(run[n]), i, j);
  }
}
