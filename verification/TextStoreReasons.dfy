/** Why an acquire returns no body, and that every acquire and every release
    comes to an end. */
module TextStoreReasons {
  import opened Events
  import opened TextStore
  import opened TextStoreInvariant
  import opened TextStoreProofs
  import opened TextStoreTheorems

  // ------------------------------------------------------------------
  // Reasons
  // ------------------------------------------------------------------

  /** Another text is tabled under the requested key. */
  predicate Clash(s: State, r: Request)
  {
    && r.key in s.table && s.table[r.key].body in s.heap
    && s.heap[s.table[r.key].body].Body? && s.heap[s.table[r.key].body].key == r.key
    && s.heap[s.table[r.key].body].text != r.text
  }

  /** The comparison with a tabled body fails exactly if the texts differ. */
  lemma CompareExact(cfg: Config, s: State, r: Request, obj: Ptr)
    requires Inv(cfg, s) && Found(s, r, obj) && WellKeyed(cfg, r.key, r.text)
    ensures obj in s.heap && (!ObjectMatches(s.heap[obj], r.text) <==> Clash(s, r))
  {
    assert Holds(cfg, s, Profiles(s.clients), Table);
    assert EntryOk(cfg, s, r.key);
  }

  /** The key is missing and the table has no room for it. */
  predicate Crowded(cfg: Config, s: State, r: Request)
  {
    r.key !in s.table && |s.table| >= cfg.maxEntries
  }

  /** The client has found out that it cannot have a body, for the given reason. */
  predicate Refused(x: Client, r: Request, why: Fate)
  {
    match x
    case AcqUnlockClash(q) => q == r && why == Collision
    case AcqUnlockBackOut(q, _, _, f) => q == r && f == why
    case AcqFree(q, _, _, f) => q == r && f == why
    case AcqDone(q, _, f) => q == r && f == why
    case _ => false
  }

  /** The client's next step, with the allocator's answer p, meets the reason:
      it asks for memory and gets none; it compares with a tabled body while
      another text is tabled; it enters its key while the table is full. */
  predicate Meets(cfg: Config, s: State, c: nat, p: Ptr, r: Request, why: Fate)
  {
    c < |s.clients| &&
    match s.clients[c]
    case AcqAlloc(q) => q == r && why == OutOfMemory && p == NULL
    case AcqCompare(q, _) => q == r && why == Collision && Clash(s, r)
    case AcqCompareWinner(q, _, _) => q == r && why == Collision && Clash(s, r)
    case AcqEnter(q, _) => q == r && why == TableFull && Crowded(cfg, s, r)
    case _ => false
  }

  predicate IsReason(why: Fate)
  {
    why == OutOfMemory || why == Collision || why == TableFull
  }

  /** Two points of an acquire, one step apart. */
  ghost predicate StepExact(cfg: Config, s: State, s': State, c: nat, p: Ptr, r: Request, why: Fate)
  {
    && c < |s.clients| == |s'.clients|
    && (Refused(s'.clients[c], r, why) <==> Refused(s.clients[c], r, why) || Meets(cfg, s, c, p, r, why))
  }

  lemma LooksUpExact(cfg: Config, s: State, c: nat, p: Ptr, r: Request, why: Fate)
    requires Inv(cfg, s) && CanStep(cfg, s, c, p) && IsReason(why)
    requires s.clients[c].AcqCompare? || s.clients[c].AcqCompareWinner?
    ensures StepExact(cfg, s, AcquireStep(cfg, s, c, p), c, p, r, why)
  {
    At(cfg, s, c);
    CompareExact(cfg, s, s.clients[c].r, s.clients[c].obj);
  }

  /** Where HASH_ENTER_NULL leads. */
  lemma EnterLeads(cfg: Config, s: State, c: nat, r: Request, copy: Ptr)
    requires c < |s.clients|
    ensures |EnterStep(cfg, s, c, r, copy).clients| == |s.clients|
    ensures EnterStep(cfg, s, c, r, copy).clients[c] ==
            if r.key in s.table then AcqCompareWinner(r, copy, s.table[r.key].body)
            else if Crowded(cfg, s, r) then AcqUnlockBackOut(r, copy, NULL, TableFull)
            else AcqUnlockNew(r, copy)
  {
  }

  lemma EnterExact(cfg: Config, s: State, c: nat, p: Ptr, r: Request, why: Fate)
    requires CanStep(cfg, s, c, p) && s.clients[c].AcqEnter? && IsReason(why)
    ensures StepExact(cfg, s, AcquireStep(cfg, s, c, p), c, p, r, why)
  {
    EnterLeads(cfg, s, c, s.clients[c].r, s.clients[c].copy);
  }

  lemma AllocExact(cfg: Config, s: State, c: nat, p: Ptr, r: Request, why: Fate)
    requires CanStep(cfg, s, c, p) && s.clients[c].AcqAlloc? && IsReason(why)
    ensures StepExact(cfg, s, AcquireStep(cfg, s, c, p), c, p, r, why)
  {
  }

  lemma HitExact(cfg: Config, s: State, c: nat, p: Ptr, r: Request, why: Fate)
    requires CanStep(cfg, s, c, p) && IsReason(why)
    requires s.clients[c].AcqLock? || s.clients[c].AcqFind? || s.clients[c].AcqBump? || s.clients[c].AcqUnlockHit? ||
             s.clients[c].AcqReadObject?
    ensures StepExact(cfg, s, AcquireStep(cfg, s, c, p), c, p, r, why)
  {
  }

  lemma MissExact(cfg: Config, s: State, c: nat, p: Ptr, r: Request, why: Fate)
    requires CanStep(cfg, s, c, p) && IsReason(why)
    requires s.clients[c].AcqUnlockMiss? || s.clients[c].AcqRelock? || s.clients[c].AcqBumpWinner? ||
             s.clients[c].AcqUnlockNew?
    ensures StepExact(cfg, s, AcquireStep(cfg, s, c, p), c, p, r, why)
  {
  }

  lemma BackOutExact(cfg: Config, s: State, c: nat, p: Ptr, r: Request, why: Fate)
    requires CanStep(cfg, s, c, p) && IsReason(why)
    requires s.clients[c].AcqUnlockClash? || s.clients[c].AcqUnlockBackOut? || s.clients[c].AcqFree?
    ensures StepExact(cfg, s, AcquireStep(cfg, s, c, p), c, p, r, why)
  {
  }

  lemma ReadsRelease(cfg: Config, s: State, c: nat, p: Ptr)
    requires CanStep(cfg, s, c, p) && (s.clients[c].RelRead? || s.clients[c].RelKey? || s.clients[c].RelLock?)
    ensures var x := ReleaseStep(cfg, s, c, p).clients[c]; x.RelKey? || x.RelLock? || x.RelFind? || x.RelDone?
  {
  }

  lemma DropsRelease(cfg: Config, s: State, c: nat, p: Ptr)
    requires CanStep(cfg, s, c, p) && (s.clients[c].RelFind? || s.clients[c].RelDrop?)
    ensures var x := ReleaseStep(cfg, s, c, p).clients[c]; x.RelDrop? || x.RelUnlock?
  {
  }

  lemma EndsRelease(cfg: Config, s: State, c: nat, p: Ptr)
    requires CanStep(cfg, s, c, p) && (s.clients[c].RelUnlock? || s.clients[c].RelFree?)
    ensures var x := ReleaseStep(cfg, s, c, p).clients[c]; x.RelFree? || x.RelDone?
  {
  }

  lemma StaysReleasing(cfg: Config, s: State, c: nat, p: Ptr)
    requires CanStep(cfg, s, c, p) && Releasing(s.clients[c])
    ensures Releasing(ReleaseStep(cfg, s, c, p).clients[c])
  {
    var x := s.clients[c];
    if x.RelRead? || x.RelKey? || x.RelLock? { ReadsRelease(cfg, s, c, p); }
    else if x.RelFind? || x.RelDrop? { DropsRelease(cfg, s, c, p); }
    else { EndsRelease(cfg, s, c, p); }
  }

  lemma ReleaseExact(cfg: Config, s: State, c: nat, p: Ptr, r: Request, why: Fate)
    requires CanStep(cfg, s, c, p) && Releasing(s.clients[c])
    ensures StepExact(cfg, s, ReleaseStep(cfg, s, c, p), c, p, r, why)
  {
    StaysReleasing(cfg, s, c, p);
    NoneReleasing(s.clients[c], r, why);
    NoneReleasing(ReleaseStep(cfg, s, c, p).clients[c], r, why);
  }

  lemma NoneReleasing(x: Client, r: Request, why: Fate)
    requires Releasing(x)
    ensures !Refused(x, r, why) && !x.AcqAlloc? && !x.AcqCompare? && !x.AcqCompareWinner? && !x.AcqEnter?
  {
  }

  /** A client is refused after a step of its own exactly if it was refused
      before or meets the reason in this step. */
  lemma RunExact(cfg: Config, s: State, c: nat, p: Ptr, r: Request, why: Fate)
    requires Inv(cfg, s) && CanStep(cfg, s, c, p) && IsReason(why)
    ensures StepExact(cfg, s, Step(cfg, s, c, p), c, p, r, why)
  {
    var x := s.clients[c];
    if Releasing(x) {
      ReleaseExact(cfg, s, c, p, r, why);
    } else if x.AcqCompare? || x.AcqCompareWinner? {
      LooksUpExact(cfg, s, c, p, r, why);
    } else if x.AcqEnter? {
      EnterExact(cfg, s, c, p, r, why);
    } else if x.AcqAlloc? {
      AllocExact(cfg, s, c, p, r, why);
    } else if x.AcqUnlockClash? || x.AcqUnlockBackOut? || x.AcqFree? {
      BackOutExact(cfg, s, c, p, r, why);
    } else if x.AcqUnlockMiss? || x.AcqRelock? || x.AcqBumpWinner? || x.AcqUnlockNew? {
      MissExact(cfg, s, c, p, r, why);
    } else {
      HitExact(cfg, s, c, p, r, why);
    }
  }

  // ------------------------------------------------------------------
  // Runs
  // ------------------------------------------------------------------

  /** A run together with its actions. */
  ghost predicate IsRunBy(cfg: Config, run: seq<State>, acts: seq<Action>)
  {
    && |run| == |acts| + 1 && Init(run[0])
    && forall i :: 0 <= i < |acts| ==> Follows(cfg, run[i], run[i + 1], acts[i])
  }

  ghost predicate Follows(cfg: Config, s: State, s': State, act: Action)
  {
    Enabled(cfg, s, act) && s' == Apply(cfg, s, act)
  }

  lemma {:induction false} RunByInv(cfg: Config, run: seq<State>, acts: seq<Action>, i: nat)
    requires IsRunBy(cfg, run, acts) && i < |run|
    ensures Inv(cfg, run[i])
  {
    if i == 0 {
      InitInv(cfg, run[0]);
    } else {
      RunByInv(cfg, run, acts, i - 1);
      assert Follows(cfg, run[i - 1], run[i - 1 + 1], acts[i - 1]);
      ApplyInv(cfg, run[i - 1], acts[i - 1]);
    }
  }

  /** The action is client c's step that meets the reason. */
  predicate MeetsBy(cfg: Config, s: State, act: Action, c: nat, r: Request, why: Fate)
  {
    act.Run? && act.c == c && Meets(cfg, s, c, act.p, r, why)
  }

  /** Any action of any client: c is refused afterwards exactly if it was before
      and its caller has not taken the answer, or if it meets the reason. */
  lemma ApplyExact(cfg: Config, s: State, act: Action, c: nat, r: Request, why: Fate)
    requires Inv(cfg, s) && Enabled(cfg, s, act) && c < |s.clients| && IsReason(why)
    ensures |Apply(cfg, s, act).clients| == |s.clients|
    ensures Refused(Apply(cfg, s, act).clients[c], r, why) <==>
            (Refused(s.clients[c], r, why) && !(act.EndAcquire? && act.c == c)) || MeetsBy(cfg, s, act, c, r, why)
  {
    if act.Run? {
      if act.c == c { RunExact(cfg, s, c, act.p, r, why); } else { assert OwnStep(s, Apply(cfg, s, act), act.c); }
    } else {
      CallerExact(cfg, s, act, c, r, why);
    }
  }

  /** What a caller does to a client: begin, or take the answer. */
  lemma CallerLeads(cfg: Config, s: State, act: Action, c: nat)
    requires Enabled(cfg, s, act) && c < |s.clients| && !act.Run?
    ensures |Apply(cfg, s, act).clients| == |s.clients|
    ensures var x, x' := s.clients[c], Apply(cfg, s, act).clients[c];
            || (x' == x && !(act.EndAcquire? && act.c == c))
            || ((x.Idle? || x.RelDone?) && (x'.Idle? || x'.AcqLock? || x'.RelRead?) && !(act.EndAcquire? && act.c == c))
            || (x.AcqDone? && x'.Idle? && act.EndAcquire? && act.c == c)
  {
    match act
    case BeginAcquire(_, _) =>
    case EndAcquire(_, _) =>
    case BeginRelease(_, _, _) =>
    case EndRelease(_) =>
    case _ =>
  }

  lemma CallerExact(cfg: Config, s: State, act: Action, c: nat, r: Request, why: Fate)
    requires Enabled(cfg, s, act) && c < |s.clients| && !act.Run?
    ensures |Apply(cfg, s, act).clients| == |s.clients|
    ensures Refused(Apply(cfg, s, act).clients[c], r, why) <==>
            Refused(s.clients[c], r, why) && !(act.EndAcquire? && act.c == c)
  {
    CallerLeads(cfg, s, act, c);
  }

  /** Client c meets the reason in step j and is not idle since. */
  ghost predicate MetSince(cfg: Config, run: seq<State>, acts: seq<Action>, c: nat, r: Request, why: Fate, i: nat, j: nat)
    requires |run| == |acts| + 1 && i < |run|
  {
    && j < i && MeetsBy(cfg, run[j], acts[j], c, r, why)
    && forall m | j < m <= i :: c < |run[m].clients| && !run[m].clients[c].Idle?
  }

  ghost predicate Met(cfg: Config, run: seq<State>, acts: seq<Action>, c: nat, r: Request, why: Fate, i: nat)
    requires |run| == |acts| + 1 && i < |run|
  {
    exists j: nat :: MetSince(cfg, run, acts, c, r, why, i, j)
  }

  lemma NotIdle(x: Client, r: Request, why: Fate)
    requires Refused(x, r, why)
    ensures !x.Idle?
  {
  }

  /** One more action. */
  lemma ReasonStep(cfg: Config, run: seq<State>, acts: seq<Action>, i: nat, c: nat, r: Request, why: Fate)
    requires IsRunBy(cfg, run, acts) && 0 < i < |run| && c < |run[i].clients| && IsReason(why)
    ensures c < |run[i - 1].clients|
    ensures Refused(run[i].clients[c], r, why) <==>
            (Refused(run[i - 1].clients[c], r, why) && !run[i].clients[c].Idle?) ||
            MeetsBy(cfg, run[i - 1], acts[i - 1], c, r, why)
  {
    var s, act := run[i - 1], acts[i - 1];
    assert Follows(cfg, s, run[i - 1 + 1], act);
    RunByInv(cfg, run, acts, i - 1);
    SameClients(cfg, s, act);
    ApplyExact(cfg, s, act, c, r, why);
    if Refused(s.clients[c], r, why) { IdleAfter(cfg, s, act, c, r, why); }
    if Refused(run[i].clients[c], r, why) { NotIdle(run[i].clients[c], r, why); }
  }

  /** A refused client is idle again only once its caller takes the answer. */
  lemma IdleAfter(cfg: Config, s: State, act: Action, c: nat, r: Request, why: Fate)
    requires Inv(cfg, s) && Enabled(cfg, s, act) && c < |s.clients| && Refused(s.clients[c], r, why) && IsReason(why)
    ensures |Apply(cfg, s, act).clients| == |s.clients|
    ensures act.EndAcquire? && act.c == c <==> Apply(cfg, s, act).clients[c].Idle?
  {
    ApplyExact(cfg, s, act, c, r, why);
    if !(act.EndAcquire? && act.c == c) { NotIdle(Apply(cfg, s, act).clients[c], r, why); }
  }

  lemma MetLonger(cfg: Config, run: seq<State>, acts: seq<Action>, i: nat, c: nat, r: Request, why: Fate)
    requires |run| == |acts| + 1 && 0 < i < |run| && c < |run[i].clients| && !run[i].clients[c].Idle?
    requires Met(cfg, run, acts, c, r, why, i - 1)
    ensures Met(cfg, run, acts, c, r, why, i)
  {
    var j: nat :| MetSince(cfg, run, acts, c, r, why, i - 1, j);
    assert MetSince(cfg, run, acts, c, r, why, i, j);
  }

  lemma MetBefore(cfg: Config, run: seq<State>, acts: seq<Action>, i: nat, c: nat, r: Request, why: Fate)
    requires |run| == |acts| + 1 && 0 < i < |run| && Met(cfg, run, acts, c, r, why, i)
    ensures c < |run[i].clients| && !run[i].clients[c].Idle?
    ensures MeetsBy(cfg, run[i - 1], acts[i - 1], c, r, why) || Met(cfg, run, acts, c, r, why, i - 1)
  {
    var j: nat :| MetSince(cfg, run, acts, c, r, why, i, j);
    if j < i - 1 { assert MetSince(cfg, run, acts, c, r, why, i - 1, j); }
  }

  /** A client is refused for a reason exactly if it has met that reason in the
      acquire it is in: its allocation was answered with nothing, another text
      was tabled when it compared, the table was full when it entered its key. */
  lemma {:induction false} RefusedForCause(cfg: Config, run: seq<State>, acts: seq<Action>, i: nat,
                                           c: nat, r: Request, why: Fate)
    requires IsRunBy(cfg, run, acts) && i < |run| && c < |run[i].clients| && IsReason(why)
    ensures Refused(run[i].clients[c], r, why) <==> Met(cfg, run, acts, c, r, why, i)
  {
    if i > 0 {
      ReasonStep(cfg, run, acts, i, c, r, why);
      RefusedForCause(cfg, run, acts, i - 1, c, r, why);
      if Met(cfg, run, acts, c, r, why, i) { MetBefore(cfg, run, acts, i, c, r, why); }
      if Refused(run[i].clients[c], r, why) {
        NotIdle(run[i].clients[c], r, why);
        if MeetsBy(cfg, run[i - 1], acts[i - 1], c, r, why) {
          assert MetSince(cfg, run, acts, c, r, why, i, i - 1);
        } else {
          MetLonger(cfg, run, acts, i, c, r, why);
        }
      }
    }
  }

  /** An acquire that is over returns the requested text under the requested key,
      unless it has met a reason not to. */
  lemma AcquireAnswered(cfg: Config, run: seq<State>, acts: seq<Action>, i: nat, c: nat)
    requires IsRunBy(cfg, run, acts) && i < |run| && c < |run[i].clients| && run[i].clients[c].AcqDone?
    ensures var x := run[i].clients[c];
            && (x.result == NULL <==> exists why: Fate :: IsReason(why) && Met(cfg, run, acts, c, x.r, why, i))
            && (x.result != NULL ==> x.result in run[i].heap && run[i].heap[x.result] == Body(x.r.key, x.r.text))
  {
    RunByInv(cfg, run, acts, i);
    At(cfg, run[i], c);
    var x := run[i].clients[c];
    forall why: Fate | IsReason(why)
      ensures x.fate == why <==> Met(cfg, run, acts, c, x.r, why, i)
    {
      RefusedForCause(cfg, run, acts, i, c, x.r, why);
    }
    if x.result == NULL { assert IsReason(x.fate) && Met(cfg, run, acts, c, x.r, x.fate, i); }
  }

  // ------------------------------------------------------------------
  // Every acquire and every release ends
  // ------------------------------------------------------------------

  /** More steps than a client takes until it is done. */
  function StepsLeft(x: Client): nat
  {
    match x
    case Idle => 0
    case AcqLock(_) => 10
    case AcqFind(_) => 9
    case AcqCompare(_, _) => 4
    case AcqBump(_, _) => 3
    case AcqUnlockHit(_) => 2
    case AcqReadObject(_) => 1
    case AcqUnlockMiss(_) => 8
    case AcqUnlockClash(_) => 1
    case AcqAlloc(_) => 7
    case AcqRelock(_, _) => 6
    case AcqEnter(_, _) => 5
    case AcqCompareWinner(_, _, _) => 4
    case AcqBumpWinner(_, _, _) => 3
    case AcqUnlockBackOut(_, _, _, _) => 2
    case AcqFree(_, _, _, _) => 1
    case AcqUnlockNew(_, _) => 1
    case AcqDone(_, _, _) => 0
    case RelRead(_) => 7
    case RelKey(_, _) => 6
    case RelLock(_, _, _) => 5
    case RelFind(_, _, _) => 4
    case RelDrop(_, _, _) => 3
    case RelUnlock(_, _, _) => 2
    case RelFree(_, _) => 1
    case RelDone(_) => 0
  }

  lemma FirstStepsEnd(cfg: Config, s: State, c: nat, p: Ptr)
    requires CanStep(cfg, s, c, p)
    requires s.clients[c].AcqLock? || s.clients[c].AcqFind? || s.clients[c].AcqCompare? || s.clients[c].AcqBump? ||
             s.clients[c].AcqUnlockHit? || s.clients[c].AcqReadObject? || s.clients[c].AcqUnlockClash?
    ensures StepsLeft(AcquireStep(cfg, s, c, p).clients[c]) < StepsLeft(s.clients[c])
  {
  }

  lemma NewStepsEnd(cfg: Config, s: State, c: nat, p: Ptr)
    requires CanStep(cfg, s, c, p)
    requires s.clients[c].AcqUnlockMiss? || s.clients[c].AcqRelock? || s.clients[c].AcqUnlockNew?
    ensures StepsLeft(AcquireStep(cfg, s, c, p).clients[c]) < StepsLeft(s.clients[c])
  {
  }

  lemma AllocEnds(cfg: Config, s: State, c: nat, p: Ptr)
    requires CanStep(cfg, s, c, p) && s.clients[c].AcqAlloc?
    ensures StepsLeft(AcquireStep(cfg, s, c, p).clients[c]) < StepsLeft(s.clients[c])
  {
  }

  lemma EnterEnds(cfg: Config, s: State, c: nat, p: Ptr)
    requires CanStep(cfg, s, c, p) && s.clients[c].AcqEnter?
    ensures StepsLeft(AcquireStep(cfg, s, c, p).clients[c]) < StepsLeft(s.clients[c])
  {
    EnterLeads(cfg, s, c, s.clients[c].r, s.clients[c].copy);
  }

  lemma LastStepsEnd(cfg: Config, s: State, c: nat, p: Ptr)
    requires CanStep(cfg, s, c, p)
    requires s.clients[c].AcqCompareWinner? || s.clients[c].AcqBumpWinner? || s.clients[c].AcqUnlockBackOut? ||
             s.clients[c].AcqFree?
    ensures StepsLeft(AcquireStep(cfg, s, c, p).clients[c]) < StepsLeft(s.clients[c])
  {
  }

  lemma ReleaseStepsEnd(cfg: Config, s: State, c: nat, p: Ptr)
    requires CanStep(cfg, s, c, p) && Releasing(s.clients[c])
    ensures StepsLeft(ReleaseStep(cfg, s, c, p).clients[c]) < StepsLeft(s.clients[c])
  {
    var x := s.clients[c];
    if x.RelRead? || x.RelKey? || x.RelLock? { ReadsEnd(cfg, s, c, p); }
    else if x.RelFind? || x.RelDrop? { DropsEnd(cfg, s, c, p); }
    else { EndsRelease(cfg, s, c, p); FreesEnd(cfg, s, c, p); }
  }

  lemma ReadsEnd(cfg: Config, s: State, c: nat, p: Ptr)
    requires CanStep(cfg, s, c, p) && (s.clients[c].RelRead? || s.clients[c].RelKey? || s.clients[c].RelLock?)
    ensures StepsLeft(ReleaseStep(cfg, s, c, p).clients[c]) < StepsLeft(s.clients[c])
  {
  }

  lemma DropsEnd(cfg: Config, s: State, c: nat, p: Ptr)
    requires CanStep(cfg, s, c, p) && (s.clients[c].RelFind? || s.clients[c].RelDrop?)
    ensures StepsLeft(ReleaseStep(cfg, s, c, p).clients[c]) < StepsLeft(s.clients[c])
  {
  }

  lemma FreesEnd(cfg: Config, s: State, c: nat, p: Ptr)
    requires CanStep(cfg, s, c, p) && (s.clients[c].RelUnlock? || s.clients[c].RelFree?)
    ensures StepsLeft(ReleaseStep(cfg, s, c, p).clients[c]) < StepsLeft(s.clients[c])
  {
  }

  /** Every step of a client brings it nearer to its end: no acquire takes more
      than ten steps, no release more than seven. */
  lemma RunEnds(cfg: Config, s: State, c: nat, p: Ptr)
    requires CanStep(cfg, s, c, p)
    ensures StepsLeft(Step(cfg, s, c, p).clients[c]) < StepsLeft(s.clients[c])
  {
    var x := s.clients[c];
    if Releasing(x) {
      ReleaseStepsEnd(cfg, s, c, p);
    } else if x.AcqCompareWinner? || x.AcqBumpWinner? || x.AcqUnlockBackOut? || x.AcqFree? {
      LastStepsEnd(cfg, s, c, p);
    } else if x.AcqEnter? {
      EnterEnds(cfg, s, c, p);
    } else if x.AcqAlloc? {
      AllocEnds(cfg, s, c, p);
    } else if x.AcqUnlockMiss? || x.AcqRelock? || x.AcqUnlockNew? {
      NewStepsEnd(cfg, s, c, p);
    } else {
      FirstStepsEnd(cfg, s, c, p);
    }
  }
}
