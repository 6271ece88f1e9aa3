/** What the text store guarantees in every reachable state, and what one
    client's steps leave untouched for the others. */
module TextStoreTheorems {
  import opened Events
  import opened TextStore
  import opened TextStoreInvariant
  import opened TextStoreProofs

  /** Every state of every run satisfies the invariant. */
  lemma {:induction false} RunInv(cfg: Config, run: seq<State>, i: nat)
    requires IsRun(cfg, run) && i < |run|
    ensures Inv(cfg, run[i])
  {
    if i == 0 {
      InitInv(cfg, run[0]);
    } else {
      RunInv(cfg, run, i - 1);
      var act: Action :| Enabled(cfg, run[i - 1], act) && run[i - 1 + 1] == Apply(cfg, run[i - 1], act);
      ApplyInv(cfg, run[i - 1], act);
    }
  }

  /** h owns block p, read off the table, the strings and the clients' locals. */
  ghost predicate Owns(s: State, h: Home, p: Ptr)
  {
    match h
    case Tabled(k) => k in s.table && s.table[k].body == p
    case OwnedText(o) => o in s.texts && s.texts[o] == p
    case InFlight(c) => c < |s.clients| && p != NULL && Pending(s.clients[c]) == p
  }

  lemma OwnerIsHome(cfg: Config, s: State, h: Home, p: Ptr)
    requires Inv(cfg, s) && Owns(s, h, p)
    ensures p in s.heap && p in s.home && s.home[p] == h
  {
    assert Holds(cfg, s, Profiles(s.clients), Homes);
    if h.InFlight? { assert Profiles(s.clients)[h.client].pending == p; }
  }

  lemma HomeOwns(cfg: Config, s: State, p: Ptr)
    requires Inv(cfg, s) && p in s.heap
    ensures p in s.home && Owns(s, s.home[p], p)
  {
    assert Holds(cfg, s, Profiles(s.clients), Homes);
    assert HomeOk(s, Profiles(s.clients), p);
  }

  /** Every live block has exactly one owner and every owner's block is live:
      nothing is leaked, nothing is owned twice, nothing dangles. */
  lemma OneOwner(cfg: Config, run: seq<State>, i: nat, p: Ptr)
    requires IsRun(cfg, run) && i < |run|
    ensures p in run[i].heap <==> exists h: Home :: Owns(run[i], h, p)
    ensures forall h: Home, h': Home :: Owns(run[i], h, p) && Owns(run[i], h', p) ==> h == h'
  {
    RunInv(cfg, run, i);
    forall h: Home | Owns(run[i], h, p) ensures p in run[i].heap && p in run[i].home && run[i].home[p] == h {
      OwnerIsHome(cfg, run[i], h, p);
    }
    if p in run[i].heap { HomeOwns(cfg, run[i], p); }
  }

  /** No step of any client touches a dead block or a missing entry: no use
      after free, no double free, and the reference count is positive whenever
      it is decremented. In particular the entry read after the partition lock
      is dropped is still there. */
  lemma NeverFaults(cfg: Config, run: seq<State>, i: nat, c: nat)
    requires IsRun(cfg, run) && i < |run| && c < |run[i].clients|
    ensures !Faults(run[i], c)
  {
    RunInv(cfg, run, i);
    SafeToStep(cfg, run[i], c);
  }

  lemma SafeToStep(cfg: Config, s: State, c: nat)
    requires Inv(cfg, s) && c < |s.clients|
    ensures !Faults(s, c)
  {
    At(cfg, s, c);
    IsSettled(cfg, s, c);
    if Holding(s.clients[c]) {
      assert Holds(cfg, s, Profiles(s.clients), Table);
      assert EntryOk(cfg, s, s.heap[s.refs[ByClient(c)]].key);
    }
  }

  /** An entry's reference count is the number of references held, and it is
      positive; its body is live and carries the entry's own key. */
  lemma CountsExact(cfg: Config, run: seq<State>, i: nat, k: Key)
    requires IsRun(cfg, run) && i < |run| && k in run[i].table
    ensures run[i].table[k].refcount == |Holders(run[i].refs, run[i].table[k].body)| >= 1
    ensures run[i].table[k].body in run[i].heap && run[i].heap[run[i].table[k].body].Body?
    ensures run[i].heap[run[i].table[k].body].key == k
  {
    RunInv(cfg, run, i);
    assert Holds(cfg, run[i], Profiles(run[i].clients), Table);
    assert EntryOk(cfg, run[i], k);
  }

  /** An acquire that returns a body returns the requested text under the
      requested key, even if hash, length and the whole key collide. One that
      returns none has a reason. */
  lemma AcquireExact(cfg: Config, run: seq<State>, i: nat, c: nat)
    requires IsRun(cfg, run) && i < |run| && c < |run[i].clients| && run[i].clients[c].AcqDone?
    ensures var x := run[i].clients[c];
            if x.result == NULL then x.fate in {OutOfMemory, Collision, TableFull}
            else x.fate == Kept && x.result in run[i].heap && run[i].heap[x.result] == Body(x.r.key, x.r.text)
  {
    RunInv(cfg, run, i);
    At(cfg, run[i], c);
  }

  lemma SameClients(cfg: Config, s: State, act: Action)
    requires Enabled(cfg, s, act)
    ensures |Apply(cfg, s, act).clients| == |s.clients|
  {
  }

  /** Every entry has a holder, and every block an owner that can be named. */
  lemma Accounted(cfg: Config, s: State)
    requires Inv(cfg, s)
    ensures forall k | k in s.table :: exists o :: o in s.refs && s.refs[o] == s.table[k].body
    ensures forall p | p in s.heap :: p in s.home && Owns(s, s.home[p], p)
    ensures forall q | q in s.locks :: s.locks[q] < |s.clients| && LockKey(s.clients[s.locks[q]]).Some?
  {
    forall k | k in s.table ensures exists o :: o in s.refs && s.refs[o] == s.table[k].body {
      assert Holds(cfg, s, Profiles(s.clients), Table);
      assert EntryOk(cfg, s, k);
      var o :| o in Holders(s.refs, s.table[k].body);
    }
    forall p | p in s.heap ensures p in s.home && Owns(s, s.home[p], p) { HomeOwns(cfg, s, p); }
    assert Holds(cfg, s, Profiles(s.clients), Locks);
  }

  /** With every client idle and nothing handed out, the table, the DSA area
      and the partition locks are empty: nothing has leaked. */
  lemma IdleIsEmpty(cfg: Config, s: State)
    requires Inv(cfg, s) && s.refs == map[] && s.texts == map[]
    requires forall c | 0 <= c < |s.clients| :: s.clients[c] == Idle
    ensures s.heap == map[] && s.table == map[] && s.locks == map[]
  {
    Accounted(cfg, s);
  }

  // ------------------------------------------------------------------
  // Frames
  // ------------------------------------------------------------------

  /** Apart from client c and its own reference, everything handed out is as it was. */
  ghost predicate Framed(s: State, s': State, c: nat)
  {
    && |s'.clients| == |s.clients| && s'.texts == s.texts
    && (forall d | 0 <= d < |s.clients| && d != c :: s'.clients[d] == s.clients[d])
    && (forall o | o in s.texts && s.texts[o] in s.heap ::
          s.texts[o] in s'.heap && s'.heap[s.texts[o]] == s.heap[s.texts[o]])
    && (forall o | o != ByClient(c) :: o in s'.refs <==> o in s.refs)
    && (forall o | o in s.refs && o != ByClient(c) :: s'.refs[o] == s.refs[o])
    && (forall o | o in s.refs && o != ByClient(c) && s.refs[o] in s.heap ::
          s.refs[o] in s'.heap && s'.heap[s.refs[o]] == s.heap[s.refs[o]])
  }

  /** A step adds at most the allocator's block and removes at most the client's own. */
  ghost predicate HeapStep(s: State, s': State, c: nat, p: Ptr)
    requires c < |s.clients|
  {
    var x := s.clients[c];
    || s'.heap == s.heap
    || (x.AcqAlloc? && p !in s.heap && s'.heap == s.heap[p := Body(x.r.key, x.r.text)])
    || (Pending(x) != NULL && s'.heap == s.heap - {Pending(x)})
  }

  lemma AcquireHeap(cfg: Config, s: State, c: nat, p: Ptr)
    requires CanStep(cfg, s, c, p) && !Releasing(s.clients[c])
    requires s.clients[c].AcqFree? ==> s.clients[c].copy != NULL
    ensures HeapStep(s, AcquireStep(cfg, s, c, p), c, p)
  {
    var x, s' := s.clients[c], AcquireStep(cfg, s, c, p);
    if x.AcqAlloc? && p != NULL {
      assert s' == AllocBody(s, c, p, Body(x.r.key, x.r.text), AcqRelock(x.r, p));
    } else if x.AcqFree? {
      assert s' == FreeBlock(s, c, x.copy, AcqDone(x.r, x.result, x.fate));
    } else {
      assert s'.heap == s.heap;
    }
  }

  lemma ReleaseHeap(cfg: Config, s: State, c: nat, p: Ptr)
    requires CanStep(cfg, s, c, p) && Releasing(s.clients[c])
    requires s.clients[c].RelFree? ==> s.clients[c].freed != NULL
    ensures HeapStep(s, ReleaseStep(cfg, s, c, p), c, p)
  {
    var x, s' := s.clients[c], ReleaseStep(cfg, s, c, p);
    if x.RelFree? {
      assert s' == FreeBlock(s, c, x.freed, RelDone(x.text));
    } else {
      assert s'.heap == s.heap;
    }
  }

  lemma StepHeap(cfg: Config, s: State, c: nat, p: Ptr)
    requires Inv(cfg, s) && CanStep(cfg, s, c, p)
    ensures HeapStep(s, Step(cfg, s, c, p), c, p)
  {
    At(cfg, s, c);
    if Releasing(s.clients[c]) {
      ReleaseHeap(cfg, s, c, p);
    } else {
      AcquireHeap(cfg, s, c, p);
    }
  }

  lemma StepFrame(cfg: Config, s: State, c: nat, p: Ptr)
    requires Inv(cfg, s) && CanStep(cfg, s, c, p)
    ensures Framed(s, Step(cfg, s, c, p), c)
  {
    StepHeap(cfg, s, c, p);
    FrameFrom(cfg, s, Step(cfg, s, c, p), c, p);
  }

  lemma FrameFrom(cfg: Config, s: State, s': State, c: nat, p: Ptr)
    requires Inv(cfg, s) && c < |s.clients| && HeapStep(s, s', c, p)
    requires OwnStep(s, s', c)
    ensures Framed(s, s', c)
  {
    IsSettled(cfg, s, c);
    assert Holds(cfg, s, Profiles(s.clients), Homes) && Holds(cfg, s, Profiles(s.clients), Refs);
    forall o | o in s.refs && o != ByClient(c) ensures s.refs[o] in s'.heap && s'.heap[s.refs[o]] == s.heap[s.refs[o]] {
      assert RefOk(s, o);
    }
  }
}
