/** A call of PschExportBatch is a sequence of the exporter's steps in the
    pipeline: it ends the draining, sends, and commits or gives up. */
module ExportSteps {
  import opened RingArithmetic
  import TextStore
  import opened Ring
  import opened Events
  import opened Pipeline
  import opened Transcripts

  /** The acts take the pipeline from one state to another. */
  ghost predicate Plays(rc: RingConfig, s: State, acts: seq<Act>, s': State)
    decreases |acts|
  {
    if acts == [] then s' == s
    else exists mid :: Plays(rc, s, Front(acts), mid) && Next(rc, mid, s', Last(acts))
  }

  function Front(acts: seq<Act>): seq<Act>
    requires acts != []
  {
    acts[..|acts| - 1]
  }

  function Last(acts: seq<Act>): Act
    requires acts != []
  {
    acts[|acts| - 1]
  }

  lemma Play(rc: RingConfig, s: State, acts: seq<Act>, mid: State, act: Act, s': State)
    requires Plays(rc, s, acts, mid) && Next(rc, mid, s', act)
    ensures Plays(rc, s, acts + [act], s')
  {
    assert Front(acts + [act]) == acts;
  }

  // ------------------------------------------------------------------
  // The exporter's own account
  // ------------------------------------------------------------------

  /** What the exporter alone changes, and the counter it shares with the
      administrator. */
  datatype Account = Account(out: Out, exported: nat)

  function AccountOf(s: State): Account
  {
    Account(s.out, s.counters.exported)
  }

  predicate IsExporters(act: Act)
  {
    act.Dequeue? || act.EndDrain? || act.Send? || act.Commit? || act.Abandon?
  }

  /** The exporter's acts among those of all processes. */
  function Exporters(acts: seq<Act>): seq<Act>
  {
    if acts == [] then []
    else Exporters(acts[..|acts| - 1]) + if IsExporters(acts[|acts| - 1]) then [acts[|acts| - 1]] else []
  }

  /** One act's effect on the account, d events having been dequeued. */
  function Book(a: Account, d: nat, act: Act): Account
  {
    match act
    case EndDrain => if a.out.stage.Draining? then a.(out := Started(a.out)) else a
    case Send(n, ok) => if a.out.stage.Sending? then a.(out := Pipeline.Sent(a.out, n, ok)) else a
    case Commit =>
      if a.out.stage.Sending?
      then Account(a.out.(stage := Draining(d), total := a.out.total + a.out.stage.ok),
                   (a.exported + a.out.stage.ok) % U64)
      else a
    case Abandon => if a.out.stage.Sending? then a.(out := a.out.(stage := Draining(d))) else a
    case ResetExported => a.(exported := 0)
    case _ => a
  }

  function Started(out: Out): Out
    requires out.stage.Draining?
  {
    out.(stage := Sending(out.stage.first, out.stage.first, 0, false))
  }

  function BookAll(a: Account, d: nat, acts: seq<Act>): Account
  {
    if acts == [] then a else Book(BookAll(a, d, acts[..|acts| - 1]), d, acts[|acts| - 1])
  }

  lemma BookAppend(a: Account, d: nat, acts: seq<Act>, act: Act)
    ensures BookAll(a, d, acts + [act]) == Book(BookAll(a, d, acts), d, act)
  {
    assert (acts + [act])[..|acts|] == acts;
  }

  /** No act but the exporter's dequeueing changes what is dequeued; the account
      changes as booked. */
  lemma NextBooks(rc: RingConfig, s: State, s': State, act: Act)
    requires Next(rc, s, s', act) && !act.Dequeue?
    ensures s'.k.delivered == s.k.delivered && AccountOf(s') == Book(AccountOf(s), |s.k.delivered|, act)
  {
    match act
    case Produce(i) => OutsideBooks(rc, s, s', i);
    case Enqueue(i, p, force) => LockedBooks(rc, s, s', i, p, force);
    case _ =>
  }

  lemma OutsideBooks(rc: RingConfig, s: State, s': State, i: nat)
    requires i < |s.procs| && OutsideStep(rc, s, s', i)
    ensures s'.k == s.k && AccountOf(s') == AccountOf(s)
  {
  }

  lemma LockedBooks(rc: RingConfig, s: State, s': State, i: nat, p: TextStore.Ptr, force: bool)
    requires i < |s.procs| && s.procs[i].at.Holding? && LockedStep(rc, s, s', i, p, force)
    ensures s'.k.delivered == s.k.delivered && AccountOf(s') == AccountOf(s)
  {
  }

  lemma {:induction false} PlaysBooks(rc: RingConfig, s: State, acts: seq<Act>, s': State)
    requires Plays(rc, s, acts, s') && forall act | act in acts :: !act.Dequeue?
    ensures s'.k.delivered == s.k.delivered && AccountOf(s') == BookAll(AccountOf(s), |s.k.delivered|, acts)
    decreases |acts|
  {
    if acts != [] {
      var n := |acts| - 1;
      var mid :| Plays(rc, s, Front(acts), mid) && Next(rc, mid, s', Last(acts));
      PlaysBooks(rc, s, acts[..n], mid);
      NextBooks(rc, mid, s', acts[n]);
    }
  }

  /** What is booked on `out` does not depend on the counter. */
  lemma BookOut(a: Account, b: Account, d: nat, act: Act)
    requires a.out == b.out
    ensures Book(a, d, act).out == Book(b, d, act).out
  {
  }

  /** The account depends on the exporter's own acts only, but for the counter if
      it is reset. */
  lemma {:induction false} BookOwn(a: Account, d: nat, acts: seq<Act>)
    ensures BookAll(a, d, acts).out == BookAll(a, d, Exporters(acts)).out
    ensures (forall act | act in acts :: !act.ResetExported?) ==> BookAll(a, d, acts) == BookAll(a, d, Exporters(acts))
  {
    if acts != [] {
      var n := |acts| - 1;
      BookOwn(a, d, acts[..n]);
      if IsExporters(acts[n]) {
        BookAppend(a, d, Exporters(acts[..n]), acts[n]);
        BookOut(BookAll(a, d, acts[..n]), BookAll(a, d, Exporters(acts[..n])), d, acts[n]);
      } else {
        assert Exporters(acts[..n]) + [] == Exporters(acts[..n]);
      }
    }
  }

  lemma {:induction false} OwnDequeues(acts: seq<Act>)
    requires forall act | act in Exporters(acts) :: !act.Dequeue?
    ensures forall act | act in acts :: !act.Dequeue?
  {
    if acts != [] {
      var n := |acts| - 1;
      var own := Exporters(acts[..n]);
      forall act | act in own ensures !act.Dequeue? { assert act in Exporters(acts); }
      OwnDequeues(acts[..n]);
      if IsExporters(acts[n]) { assert acts[n] in Exporters(acts); }
      assert acts == acts[..n] + [acts[n]];
    }
  }

  // ------------------------------------------------------------------
  // One call
  // ------------------------------------------------------------------

  function Sends(tr: seq<Attempt>): (acts: seq<Act>)
    ensures |acts| == |tr| && forall i | 0 <= i < |tr| :: acts[i] == Send(tr[i].n, tr[i].ok)
  {
    seq(|tr|, i requires 0 <= i < |tr| => Send(tr[i].n, tr[i].ok))
  }

  /** The exporter's acts once the batch is dequeued. */
  function CallActs(tr: seq<Attempt>, counted: bool): seq<Act>
  {
    [EndDrain] + Sends(tr) + [if counted then Commit else Abandon]
  }

  /** The account of a call whose batch starts at `first`, after its sends. */
  function Halfway(a: Account, tr: seq<Attempt>): Account
    requires a.out.stage.Draining?
  {
    var first := a.out.stage.first;
    Account(Out(Sending(first, first + RowsHanded(tr), RowsTaken(tr), tr != [] && !tr[|tr| - 1].ok),
                a.out.handed + Range(first, RowsHanded(tr)), a.out.sentOk + RowsTaken(tr), a.out.total), a.exported)
  }

  /** The account of a call with a batch of m events: the rows sent are the next
      ones, in order; all m are counted, or none. */
  function Finally(a: Account, tr: seq<Attempt>, m: nat, counted: bool): Account
    requires a.out.stage.Draining?
  {
    var first, count := a.out.stage.first, if counted then m else 0;
    Account(Out(Draining(first + m), a.out.handed + Range(first, RowsHanded(tr)),
                a.out.sentOk + RowsTaken(tr), a.out.total + count),
            if counted then (a.exported + m) % U64 else a.exported)
  }

  lemma {:induction false} SendsBook(a: Account, d: nat, tr: seq<Attempt>)
    requires a.out.stage.Draining?
    ensures BookAll(a, d, [EndDrain] + Sends(tr)) == Halfway(a, tr)
  {
    if tr == [] {
      assert [EndDrain] + Sends([]) == [] + [EndDrain];
      BookAppend(a, d, [], EndDrain);
      assert a.out.handed + Range(a.out.stage.first, 0) == a.out.handed;
    } else {
      var n := |tr| - 1;
      SendsBook(a, d, tr[..n]);
      assert [EndDrain] + Sends(tr) == [EndDrain] + Sends(tr[..n]) + [Send(tr[n].n, tr[n].ok)];
      BookAppend(a, d, [EndDrain] + Sends(tr[..n]), Send(tr[n].n, tr[n].ok));
      HalfwayOn(a, tr);
    }
  }

  lemma RangeAppend(h: seq<nat>, a: nat, n: nat, k: nat)
    ensures h + Range(a, n) + Range(a + n, k) == h + Range(a, n + k)
  {
  }

  lemma CallBooks(a: Account, tr: seq<Attempt>, m: nat, counted: bool)
    requires a.out.stage.Draining? && Transcript(tr, m, counted)
    ensures BookAll(a, a.out.stage.first + m, CallActs(tr, counted)) == Finally(a, tr, m, counted)
  {
    var d := a.out.stage.first + m;
    SendsBook(a, d, tr);
    BookAppend(a, d, [EndDrain] + Sends(tr), if counted then Commit else Abandon);
  }

  lemma CallBooksAmongOthers(a: Account, d: nat, acts: seq<Act>, tr: seq<Attempt>, m: nat, counted: bool)
    requires a.out.stage.Draining? && d == a.out.stage.first + m
    requires Transcript(tr, m, counted) && Exporters(acts) == CallActs(tr, counted)
    ensures BookAll(a, d, acts).out == Finally(a, tr, m, counted).out
    ensures (forall act | act in acts :: !act.ResetExported?) ==> BookAll(a, d, acts) == Finally(a, tr, m, counted)
    ensures forall act | act in acts :: !act.Dequeue?
  {
    OwnDequeues(acts);
    BookOwn(a, d, acts);
    CallBooks(a, tr, m, counted);
  }

  /** The exporter has dequeued these events since its last call and stands
      before the sends of the next. */
  ghost predicate Ready(s: State, events: seq<Event>)
  {
    && s.out.stage.Draining? && s.reader.RIdle? && s.out.stage.first <= |s.k.delivered|
    && s.k.delivered[s.out.stage.first..] == events
  }

  /** A call of PschExportBatch with any outcome is a sequence of the exporter's
      steps: every one of them is enabled in turn, and the shared counter ends as
      the call leaves it. */
  lemma CallPlays(rc: RingConfig, s: State, events: seq<Event>, ending: Ending, tr: seq<Attempt>, n: nat, after: nat)
    returns (s': State)
    requires Ready(s, events) && Ended(ending, tr, n, |events|, s.counters.exported, after)
    ensures Plays(rc, s, CallActs(tr, ending.Done?), s') && s'.k == s.k
    ensures AccountOf(s') == Finally(AccountOf(s), tr, |events|, ending.Done?) && s'.counters.exported == after
  {
    var m := |events|;
    var mid := SendsPlay(rc, s, tr);
    s' := if ending.Done? then Committed(mid) else GivenUp(mid);
    EndedBooks(AccountOf(s), ending, tr, n, m, after);
    Ends(rc, mid, ending.Done?);
    Closes(s, mid, tr, events, ending.Done?);
    Play(rc, s, [EndDrain] + Sends(tr), mid, if ending.Done? then Commit else Abandon, s');
  }

  /** What an ended call says of its account. */
  lemma EndedBooks(a: Account, ending: Ending, tr: seq<Attempt>, n: nat, m: nat, after: nat)
    requires a.out.stage.Draining? && Ended(ending, tr, n, m, a.exported, after)
    ensures Transcript(tr, m, ending.Done?) && Finally(a, tr, m, ending.Done?).exported == after
  {
  }

  lemma Closes(s: State, mid: State, tr: seq<Attempt>, events: seq<Event>, counted: bool)
    requires Ready(s, events) && Transcript(tr, |events|, counted) && mid == s.(out := Halfway(AccountOf(s), tr).out)
    ensures AccountOf(if counted then Committed(mid) else GivenUp(mid)) == Finally(AccountOf(s), tr, |events|, counted)
  {
  }

  lemma Ends(rc: RingConfig, s: State, counted: bool)
    requires s.out.stage.Sending? && (counted ==> !s.out.stage.failed)
    ensures if counted then Next(rc, s, Committed(s), Commit) else Next(rc, s, GivenUp(s), Abandon)
  {
  }

  lemma SendsOn(rc: RingConfig, s: State, n: nat, ok: bool)
    requires s.out.stage.Sending? && !s.out.stage.failed && s.out.stage.next + n <= |s.k.delivered|
    ensures Next(rc, s, s.(out := Pipeline.Sent(s.out, n, ok)), Send(n, ok))
  {
  }

  lemma HalfwayOn(a: Account, tr: seq<Attempt>)
    requires a.out.stage.Draining? && tr != []
    ensures var n := |tr| - 1;
            Halfway(a, tr).out == Pipeline.Sent(Halfway(a, tr[..n]).out, tr[n].n, tr[n].ok)
  {
    var n := |tr| - 1;
    RangeAppend(a.out.handed, a.out.stage.first, RowsHanded(tr[..n]), tr[n].n);
  }

  lemma {:induction false} SendsPlay(rc: RingConfig, s: State, tr: seq<Attempt>) returns (mid: State)
    requires s.out.stage.Draining? && s.reader.RIdle? && s.out.stage.first + RowsHanded(tr) <= |s.k.delivered|
    requires forall i | 0 <= i < |tr| - 1 :: tr[i].ok
    ensures Plays(rc, s, [EndDrain] + Sends(tr), mid)
    ensures mid == s.(out := Halfway(AccountOf(s), tr).out)
    decreases |tr|
  {
    if tr == [] {
      mid := Drained(rc, s);
      assert [] + [EndDrain] == [EndDrain] + Sends([]);
    } else {
      var n := |tr| - 1;
      var prev := SendsPlay(rc, s, tr[..n]);
      mid := prev.(out := Pipeline.Sent(prev.out, tr[n].n, tr[n].ok));
      SendsOn(rc, prev, tr[n].n, tr[n].ok);
      Play(rc, s, [EndDrain] + Sends(tr[..n]), prev, Send(tr[n].n, tr[n].ok), mid);
      assert [EndDrain] + Sends(tr) == [EndDrain] + Sends(tr[..n]) + [Send(tr[n].n, tr[n].ok)];
      HalfwayOn(AccountOf(s), tr);
    }
  }

  lemma Drained(rc: RingConfig, s: State) returns (mid: State)
    requires s.out.stage.Draining? && s.reader.RIdle?
    ensures Plays(rc, s, [] + [EndDrain], mid)
    ensures mid == s.(out := Halfway(AccountOf(s), []).out)
  {
    mid := s.(out := Started(s.out));
    Play(rc, s, [], s, EndDrain, mid);
    assert s.out.handed + Range(s.out.stage.first, 0) == s.out.handed;
  }

  /** However the other processes' steps fall between those of the call, the
      batch is handed over in order from its first row, once, and the shared
      counter grows by the whole batch exactly if all of it was taken. */
  lemma CallAmongOthers(rc: RingConfig, s: State, acts: seq<Act>, s': State,
                        events: seq<Event>, ending: Ending, tr: seq<Attempt>, n: nat, before: nat, after: nat)
    requires Ready(s, events) && Ended(ending, tr, n, |events|, before, after)
    requires Plays(rc, s, acts, s') && Exporters(acts) == CallActs(tr, ending.Done?)
    ensures s'.k.delivered == s.k.delivered
    ensures s'.out == Finally(AccountOf(s), tr, |events|, ending.Done?).out
    ensures (forall act | act in acts :: !act.ResetExported?) && before == s.counters.exported ==>
              s'.counters.exported == after
  {
    EndedBooks(Account(s.out, before), ending, tr, n, |events|, after);
    CallBooksAmongOthers(AccountOf(s), |s.k.delivered|, acts, tr, |events|, ending.Done?);
    PlaysBooks(rc, s, acts, s');
  }
}
