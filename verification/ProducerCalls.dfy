/** What a whole call of a producer does: PschEnqueueEvent from the offer of an
    event, and PschLocalBatchFlush at the end of a transaction. */
module ProducerCalls {
  import opened Events
  import TextStore
  import opened Ring
  import opened Pipeline
  import PipelineProofs
  import PipelineLosses

  // ------------------------------------------------------------------
  // What a step does to events
  // ------------------------------------------------------------------

  datatype Ended = Published | Dropped | Discarded

  /** An event has come to its end for the producers. */
  datatype Mark = Mark(ev: Event, ended: Ended)

  function AllMarked(evs: seq<Event>, ended: Ended): (r: seq<Mark>)
    ensures |r| == |evs| && forall k | 0 <= k < |evs| :: r[k] == Mark(evs[k], ended)
  {
    seq(|evs|, k requires 0 <= k < |evs| => Mark(evs[k], ended))
  }

  /** The events that come to their end in a step of producer p. */
  function ProducerMarks(p: Producer, enabled: bool, act: Act): seq<Mark>
  {
    match p.at
    case FastDrop(todo, _) => if act.Produce? && todo != [] then [Mark(todo[0], Dropped)] else []
    case Flush(_) => if act.Produce? && !enabled then AllMarked(p.batch, Discarded) else []
    case Holding(w, _, _) =>
      if act.Enqueue? && w.WPublish? then [Mark(w.ev, Published)]
      else if act.Enqueue? && w.WOverflow? then [Mark(w.ev, Dropped)]
      else []
    case _ => []
  }

  /** A step inside a call of producer i that no error ends. */
  predicate IsOwn(act: Act, i: nat)
  {
    (act.Produce? || act.Enqueue? || act.Flag?) && act.i == i
  }

  function Marks(s: State, act: Act): seq<Mark>
  {
    if (act.Produce? || act.Enqueue?) && act.i < |s.procs| then ProducerMarks(s.procs[act.i], s.enabled, act) else []
  }

  function Those(marks: seq<Mark>, ended: Ended): seq<Event>
  {
    if marks == [] then []
    else Those(marks[..|marks| - 1], ended) + if marks[|marks| - 1].ended == ended then [marks[|marks| - 1].ev] else []
  }

  function Evs(marks: seq<Mark>): (r: seq<Event>)
    ensures |r| == |marks| && forall k | 0 <= k < |marks| :: r[k] == marks[k].ev
  {
    seq(|marks|, k requires 0 <= k < |marks| => marks[k].ev)
  }

  function Recorded(published: seq<Record>): (r: seq<Event>)
    ensures |r| == |published| && forall k | 0 <= k < |published| :: r[k] == published[k].ev
  {
    seq(|published|, k requires 0 <= k < |published| => published[k].ev)
  }

  lemma ThoseOne(m: Mark, ended: Ended)
    ensures Those([m], ended) == if m.ended == ended then [m.ev] else []
  {
    assert [m][..0] == [];
  }

  lemma {:induction false} ThoseAll(evs: seq<Event>, was: Ended, ended: Ended)
    ensures Those(AllMarked(evs, was), ended) == if was == ended then evs else []
  {
    if evs != [] {
      var n := |evs| - 1;
      assert AllMarked(evs, was)[..n] == AllMarked(evs[..n], was);
      ThoseAll(evs[..n], was, ended);
    }
  }

  /** The histories grow by the marks of each step and by nothing else: an event
      is published, dropped or discarded exactly there. */
  ghost predicate Grows(s: State, s': State, marks: seq<Mark>)
  {
    && Recorded(s'.k.published) == Recorded(s.k.published) + Those(marks, Published)
    && s'.tally.dropped == s.tally.dropped + Those(marks, Dropped)
    && s'.tally.discarded == s.tally.discarded + Those(marks, Discarded)
  }

  lemma GrowsNot(s: State, s': State)
    requires s'.k.published == s.k.published && s'.tally.dropped == s.tally.dropped && s'.tally.discarded == s.tally.discarded
    ensures Grows(s, s', [])
  {
  }

  lemma GrowsDrop(s: State, s': State, ev: Event)
    requires s'.k.published == s.k.published && s'.tally == s.tally.(dropped := s.tally.dropped + [ev])
    ensures Grows(s, s', [Mark(ev, Dropped)])
  {
    MarkOne(Mark(ev, Dropped));
  }

  lemma GrowsPublish(s: State, s': State, rec: Record)
    requires s'.k.published == s.k.published + [rec] && s'.tally == s.tally
    ensures Grows(s, s', [Mark(rec.ev, Published)])
  {
    MarkOne(Mark(rec.ev, Published));
    assert Recorded(s'.k.published) == Recorded(s.k.published) + [rec.ev];
  }

  lemma GrowsDiscard(s: State, s': State, evs: seq<Event>)
    requires s'.k.published == s.k.published && s'.tally == s.tally.(discarded := s.tally.discarded + evs)
    ensures Grows(s, s', AllMarked(evs, Discarded))
  {
    ThoseAll(evs, Discarded, Published);
    ThoseAll(evs, Discarded, Dropped);
    ThoseAll(evs, Discarded, Discarded);
  }

  /** The histories after a step outside TryEnqueueLocked. */
  lemma OutsideHistories(rc: RingConfig, s: State, s': State, i: nat)
    requires i < |s.procs| && OutsideStep(rc, s, s', i)
    ensures s'.k == s.k
    ensures var at := s.procs[i].at;
            s'.tally == if at.FastDrop? && at.todo != [] then s.tally.(dropped := s.tally.dropped + [at.todo[0]])
                        else if at.Flush? && !s.enabled then s.tally.(discarded := s.tally.discarded + s.procs[i].batch)
                        else s.tally
  {
  }

  lemma ProduceMarks(rc: RingConfig, s: State, s': State, i: nat)
    requires Next(rc, s, s', Produce(i))
    ensures Grows(s, s', Marks(s, Produce(i)))
  {
    OutsideHistories(rc, s, s', i);
    var at := s.procs[i].at;
    if at.FastDrop? && at.todo != [] { GrowsDrop(s, s', at.todo[0]); }
    else if at.Flush? && !s.enabled { GrowsDiscard(s, s', s.procs[i].batch); }
    else { GrowsNot(s, s'); }
  }

  lemma OverflowHistories(rc: RingConfig, s: State, s': State, i: nat, p: TextStore.Ptr, force: bool)
    requires i < |s.procs| && s.procs[i].at.Holding? && LockedStep(rc, s, s', i, p, force)
    requires s.procs[i].at.w.WOverflow? || s.procs[i].at.w.WCount?
    ensures s'.k == s.k
    ensures var w := s.procs[i].at.w;
            s'.tally == if w.WOverflow? then s.tally.(dropped := s.tally.dropped + [w.ev]) else s.tally
  {
  }

  lemma EnqueueMarks(rc: RingConfig, s: State, s': State, i: nat, p: TextStore.Ptr, force: bool)
    requires i < |s.procs| && s.procs[i].at.Holding? && LockedStep(rc, s, s', i, p, force)
    ensures Grows(s, s', Marks(s, Enqueue(i, p, force)))
  {
    var w := s.procs[i].at.w;
    if w.WOverflow? || w.WCount? {
      OverflowHistories(rc, s, s', i, p, force);
      if w.WOverflow? { GrowsDrop(s, s', w.ev); } else { GrowsNot(s, s'); }
    } else {
      PipelineProofs.WriterMoves(rc, s, s', i, p, force);
      if w.WPublish? { GrowsPublish(s, s', Record(w.ev, w.err, w.query)); } else { GrowsNot(s, s'); }
    }
  }

  lemma MarkOne(m: Mark)
    ensures Those([m], Published) == if m.ended == Published then [m.ev] else []
    ensures Those([m], Dropped) == if m.ended == Dropped then [m.ev] else []
    ensures Those([m], Discarded) == if m.ended == Discarded then [m.ev] else []
  {
    ThoseOne(m, Published);
    ThoseOne(m, Dropped);
    ThoseOne(m, Discarded);
  }

  lemma OtherMarks(rc: RingConfig, s: State, s': State, act: Act)
    requires Next(rc, s, s', act) && !act.Produce? && !act.Enqueue?
    ensures Grows(s, s', Marks(s, act))
  {
    if act.Dequeue? { PipelineProofs.ReaderEffect(rc, s.k, s'.k, s.reader, s'.reader, act.p, act.slot); }
    GrowsNot(s, s');
  }

  /** Each step adds to the histories exactly the events it brings to their end. */
  lemma StepMarks(rc: RingConfig, s: State, s': State, act: Act)
    requires Next(rc, s, s', act)
    ensures Grows(s, s', Marks(s, act))
  {
    if act.Produce? { ProduceMarks(rc, s, s', act.i); }
    else if act.Enqueue? { EnqueueMarks(rc, s, s', act.i, act.p, act.force); }
    else { OtherMarks(rc, s, s', act); }
  }

  // ------------------------------------------------------------------
  // Discarding
  // ------------------------------------------------------------------

  /** Producer i leaves PschLocalBatchFlush's check of the setting. */
  predicate LeavesFlush(s: State, s': State, i: nat)
  {
    i < |s.procs| == |s'.procs| && s.procs[i].at.Flush? && !s'.procs[i].at.Flush?
  }

  /** A flush with capture disabled discards the whole batch and nothing else is
      ever discarded; a flush with capture enabled enqueues the whole batch. */
  ghost predicate FlushExact(s: State, s': State, i: nat)
    requires LeavesFlush(s, s', i)
  {
    var b, pending := s.procs[i].batch, s.procs[i].at.pending;
    && s'.procs[i].batch == []
    && if s.enabled then s'.tally.discarded == s.tally.discarded && s'.procs[i].at == FastHead(Many(b, pending))
       else s'.tally.discarded == s.tally.discarded + b &&
            s'.procs[i].at == if pending.Some? then StoreLocal(pending.value) else Rest
  }

  /** In every step: discarded grows exactly if a producer leaves a flush while
      capture is disabled, and by its whole batch; and a producer begins to enqueue
      only while capture is enabled. */
  lemma DiscardExact(rc: RingConfig, s: State, s': State, act: Act)
    requires Next(rc, s, s', act)
    ensures |s'.procs| == |s.procs|
    ensures forall i: nat | LeavesFlush(s, s', i) :: FlushExact(s, s', i)
    ensures s'.tally.discarded == s.tally.discarded || exists i: nat :: LeavesFlush(s, s', i) && !s.enabled
    ensures forall i | 0 <= i < |s.procs| && s'.procs[i].at.FastHead? && !s.procs[i].at.FastHead? :: s.enabled
  {
    OthersStay(rc, s, s', act);
    forall i: nat | LeavesFlush(s, s', i) ensures FlushExact(s, s', i) {
      LeavesByOwn(rc, s, s', act, i);
      FlushLeads(rc, s, s', i);
    }
    if act.Produce? && s.procs[act.i].at.Flush? && !s.enabled {
      FlushLeads(rc, s, s', act.i);
      assert LeavesFlush(s, s', act.i);
    } else {
      DiscardsOnly(rc, s, s', act);
    }
    forall i | 0 <= i < |s.procs| && s'.procs[i].at.FastHead? && !s.procs[i].at.FastHead? ensures s.enabled {
      HeadOnly(rc, s, s', act, i);
    }
  }

  /** The act is a step of producer j. */
  predicate Moves(act: Act, j: nat)
  {
    && (act.Offer? || act.TransactionEnd? || act.Produce? || act.Enqueue? || act.Flag? || act.Throw? || act.InitFails?)
    && act.i == j
  }

  lemma OthersStay(rc: RingConfig, s: State, s': State, act: Act)
    requires Next(rc, s, s', act)
    ensures |s'.procs| == |s.procs|
    ensures forall j: nat | j < |s.procs| && !Moves(act, j) :: s'.procs[j] == s.procs[j]
  {
    if act.Produce? { PipelineLosses.OutsideKeeps(rc, s, s', act.i); }
    else if act.Enqueue? { PipelineLosses.LockedKeeps(rc, s, s', act.i, act.p, act.force); }
    else { SystemStays(rc, s, s', act); }
  }

  lemma SystemStays(rc: RingConfig, s: State, s': State, act: Act)
    requires Next(rc, s, s', act) && !act.Produce? && !act.Enqueue?
    ensures |s'.procs| == |s.procs|
    ensures forall j: nat | j < |s.procs| && !Moves(act, j) :: s'.procs[j] == s.procs[j]
  {
  }

  /** Producer i leaves the check in an act of its own. */
  lemma LeavesByOwn(rc: RingConfig, s: State, s': State, act: Act, i: nat)
    requires Next(rc, s, s', act) && LeavesFlush(s, s', i)
    ensures act == Produce(i)
  {
    OthersStay(rc, s, s', act);
    if !act.Produce? { NotAtFlush(rc, s, s', act, i); }
  }

  lemma NotAtFlush(rc: RingConfig, s: State, s': State, act: Act, i: nat)
    requires Next(rc, s, s', act) && Moves(act, i) && !act.Produce?
    ensures i < |s.procs| && !s.procs[i].at.Flush?
  {
  }

  lemma FlushLeads(rc: RingConfig, s: State, s': State, i: nat)
    requires Next(rc, s, s', Produce(i)) && s.procs[i].at.Flush?
    ensures LeavesFlush(s, s', i) && FlushExact(s, s', i)
  {
  }

  lemma DiscardsOnly(rc: RingConfig, s: State, s': State, act: Act)
    requires Next(rc, s, s', act) && !(act.Produce? && s.procs[act.i].at.Flush? && !s.enabled)
    ensures s'.tally.discarded == s.tally.discarded
  {
    if act.Produce? { OutsideHistories(rc, s, s', act.i); }
    else if act.Enqueue? { LockedDiscardsNot(rc, s, s', act.i, act.p, act.force); }
    else { OtherMarks(rc, s, s', act); }
  }

  lemma LockedDiscardsNot(rc: RingConfig, s: State, s': State, i: nat, p: TextStore.Ptr, force: bool)
    requires i < |s.procs| && s.procs[i].at.Holding? && LockedStep(rc, s, s', i, p, force)
    ensures s'.tally.discarded == s.tally.discarded
  {
    var w := s.procs[i].at.w;
    if w.WOverflow? || w.WCount? { OverflowHistories(rc, s, s', i, p, force); }
    else { PipelineProofs.WriterMoves(rc, s, s', i, p, force); }
  }

  lemma HeadOnly(rc: RingConfig, s: State, s': State, act: Act, i: nat)
    requires Next(rc, s, s', act) && i < |s.procs| == |s'.procs|
    requires s'.procs[i].at.FastHead? && !s.procs[i].at.FastHead?
    ensures s.enabled
  {
    OthersStay(rc, s, s', act);
    if act.Produce? { HeadFromFlush(rc, s, s', i); }
    else if act.Enqueue? { NeverHead(rc, s, s', i, act.p, act.force); }
    else { HeadFromOffer(rc, s, s', act, i); }
  }

  lemma HeadFromFlush(rc: RingConfig, s: State, s': State, i: nat)
    requires i < |s.procs| && OutsideStep(rc, s, s', i) && s'.procs[i].at.FastHead?
    ensures s.enabled
  {
  }

  lemma NeverHead(rc: RingConfig, s: State, s': State, i: nat, p: TextStore.Ptr, force: bool)
    requires i < |s.procs| && s.procs[i].at.Holding? && LockedStep(rc, s, s', i, p, force)
    ensures i < |s'.procs| && !s'.procs[i].at.FastHead?
  {
  }

  lemma HeadFromOffer(rc: RingConfig, s: State, s': State, act: Act, i: nat)
    requires Next(rc, s, s', act) && Moves(act, i) && !act.Produce? && !act.Enqueue?
    requires i < |s.procs| == |s'.procs| && s'.procs[i].at.FastHead?
    ensures s.enabled
  {
  }
}
