/** The background worker's drain loop, with the producers idle: batches are
    dequeued and exported until one falls short. */
module DrainLoop {
  import opened Events
  import opened RingArithmetic
  import opened Transcripts
  import opened ExportWorker

  /** One turn of the loop: the settings in force, all that may go wrong, and
      whether capture is still enabled when signals have been processed. */
  datatype Turn = Turn(settings: Settings, luck: Luck, enabled: bool)

  predicate TurnOk(turn: Turn)
  {
    && turn.settings.batchMax >= 1
    && |turn.luck.logs| >= turn.settings.batchMax && |turn.luck.blocks| >= turn.settings.batchMax
  }

  /** A report as large as the batch comes only from Refused and Done. */
  predicate InFull(ending: Ending)
  {
    ending.Refused? || ending.Done?
  }

  function Concat(batches: seq<seq<Event>>): seq<Event>
  {
    if batches == [] then [] else Concat(batches[..|batches| - 1]) + batches[|batches| - 1]
  }

  /** The rows counted: those of the batches that were taken whole. */
  function Counted(endings: seq<Ending>, batches: seq<seq<Event>>): nat
    requires |endings| == |batches|
  {
    if endings == [] then 0
    else Counted(endings[..|endings| - 1], batches[..|endings| - 1]) +
         if endings[|endings| - 1].Done? then |batches[|endings| - 1]| else 0
  }

  /** The queue and the shared counter before and after some turns, how these
      ended, and their batches. */
  datatype Ledger = Ledger(
    was: seq<Event>, queue: seq<Event>, before: nat, after: nat, endings: seq<Ending>, batches: seq<seq<Event>>)

  /** Batches leave the queue in order, and the counter has grown by those taken
      whole. */
  ghost predicate Drained(l: Ledger)
  {
    match l
    case Ledger(was, queue, before, after, endings, batches) =>
      && |endings| == |batches| && was == Concat(batches) + queue
      && after == (before + Counted(endings, batches)) % U64
  }

  lemma DrainedMore(l: Ledger, more: seq<Event>, rest: seq<Event>, ending: Ending, tr: seq<Attempt>, n: nat, after: nat)
    requires Drained(l) && l.queue == more + rest && Ended(ending, tr, n, |more|, l.after, after)
    ensures Drained(Ledger(l.was, rest, l.before, after, l.endings + [ending], l.batches + [more]))
  {
    var k := |l.endings|;
    assert (l.endings + [ending])[..k] == l.endings && (l.batches + [more])[..k] == l.batches;
    if ending.Done? { WrappedSum(l.before + Counted(l.endings, l.batches), |more|); }
  }

  /** What the report tells of the batch. */
  lemma ReportTells(ending: Ending, tr: seq<Attempt>, n: nat, m: nat, before: nat, after: nat)
    requires Ended(ending, tr, n, m, before, after)
    ensures n <= m && (InFull(ending) ==> n == m) && (n == m > 0 ==> InFull(ending))
  {
  }

  lemma {:induction false} AllCounted(endings: seq<Ending>, batches: seq<seq<Event>>)
    requires |endings| == |batches| && forall i | 0 <= i < |endings| :: endings[i].Done?
    ensures Counted(endings, batches) == |Concat(batches)|
  {
    if endings != [] { AllCounted(endings[..|endings| - 1], batches[..|endings| - 1]); }
  }

  lemma WellDrained(l: Ledger)
    requires Drained(l) && l.queue == [] && forall i | 0 <= i < |l.endings| :: l.endings[i].Done?
    ensures l.after == (l.before + |l.was|) % U64
  {
    AllCounted(l.endings, l.batches);
  }

  /** Every turn had capture enabled and nothing go wrong. */
  ghost predicate AllWell(r: Rendering, mode: Mode, turns: seq<Turn>, batches: seq<seq<Event>>)
    requires |batches| <= |turns|
  {
    forall i | 0 <= i < |batches| :: turns[i].enabled && Lucky(r, mode, turns[i].luck, batches[i])
  }

  /** How the first k turns went: all in full and with capture enabled. */
  datatype Aspect = Shape | Account | Full | Luckily

  ghost predicate Holds(r: Rendering, mode: Mode, turns: seq<Turn>, l: Ledger, k: nat, aspect: Aspect)
  {
    match aspect
    case Shape => k == |l.endings| == |l.batches| && k + |l.queue| <= |l.was| < |turns|
    case Account => Drained(l)
    case Full => k <= |l.endings| && k <= |turns| && forall i | 0 <= i < k :: InFull(l.endings[i]) && turns[i].enabled
    case Luckily =>
      && k <= |l.endings| && k <= |turns| && k <= |l.batches|
      && forall i | 0 <= i < k :: Lucky(r, mode, turns[i].luck, l.batches[i]) ==> l.endings[i].Done?
  }

  ghost predicate GoesOn(r: Rendering, mode: Mode, turns: seq<Turn>, l: Ledger, k: nat)
  {
    forall aspect: Aspect :: Holds(r, mode, turns, l, k, aspect)
  }

  /** How the loop ends. */
  ghost predicate Over(r: Rendering, mode: Mode, turns: seq<Turn>, l: Ledger)
  {
    match l
    case Ledger(was, queue, before, after, endings, batches) =>
      && Drained(l) && 0 < |endings| == |batches| <= |was| + 1 <= |turns|
      && (forall i | 0 <= i < |endings| - 1 :: InFull(endings[i]) && turns[i].enabled)
      && (queue != [] ==> !InFull(endings[|endings| - 1]) || !turns[|endings| - 1].enabled)
      && (AllWell(r, mode, turns, batches) ==> queue == [] && after == (before + |was|) % U64)
  }

  /** A full report with capture enabled: the loop goes on. */
  lemma TurnInFull(r: Rendering, mode: Mode, turns: seq<Turn>, l: Ledger, k: nat,
                   more: seq<Event>, rest: seq<Event>, ending: Ending, tr: seq<Attempt>, n: nat, after: nat)
    requires GoesOn(r, mode, turns, l, k) && k < |turns| && turns[k].settings.batchMax >= 1 && turns[k].enabled
    requires l.queue == more + rest && Ended(ending, tr, n, |more|, l.after, after)
    requires |more| <= turns[k].settings.batchMax <= n
    requires Lucky(r, mode, turns[k].luck, more) ==> ending.Done?
    ensures GoesOn(r, mode, turns, Ledger(l.was, rest, l.before, after, l.endings + [ending], l.batches + [more]), k + 1)
    ensures |rest| < |l.queue|
  {
    ReportTells(ending, tr, n, |more|, l.after, after);
    var l', m := Ledger(l.was, rest, l.before, after, l.endings + [ending], l.batches + [more]), k + 1;
    assert Holds(r, mode, turns, l, k, Shape) && Holds(r, mode, turns, l, k, Account);
    DrainedMore(l, more, rest, ending, tr, n, after);
    forall aspect: Aspect ensures Holds(r, mode, turns, l', m, aspect) {
      assert Holds(r, mode, turns, l, k, aspect);
    }
  }

  /** Turns in which nothing goes wrong are done. */
  lemma AllDone(r: Rendering, mode: Mode, turns: seq<Turn>, l: Ledger, k: nat, more: seq<Event>, ending: Ending)
    requires k == |l.endings| == |l.batches| < |turns| && Holds(r, mode, turns, l, k, Luckily)
    requires AllWell(r, mode, turns, l.batches + [more]) && (Lucky(r, mode, turns[k].luck, more) ==> ending.Done?)
    ensures forall i | 0 <= i <= k :: (l.endings + [ending])[i].Done?
  {
    forall i | 0 <= i <= k ensures (l.endings + [ending])[i].Done? {
      assert Lucky(r, mode, turns[i].luck, (l.batches + [more])[i]);
    }
  }

  /** A short report, or capture disabled: the loop ends. */
  lemma TurnLast(r: Rendering, mode: Mode, turns: seq<Turn>, l: Ledger, k: nat,
                 more: seq<Event>, rest: seq<Event>, ending: Ending, tr: seq<Attempt>, n: nat, after: nat)
    requires GoesOn(r, mode, turns, l, k) && k < |turns|
    requires l.queue == more + rest && Ended(ending, tr, n, |more|, l.after, after)
    requires n < turns[k].settings.batchMax || !turns[k].enabled
    requires ending.Unreachable? || (rest != [] ==> |more| == turns[k].settings.batchMax)
    requires Lucky(r, mode, turns[k].luck, more) ==> ending.Done?
    ensures Over(r, mode, turns, Ledger(l.was, rest, l.before, after, l.endings + [ending], l.batches + [more]))
  {
    ReportTells(ending, tr, n, |more|, l.after, after);
    var l' := Ledger(l.was, rest, l.before, after, l.endings + [ending], l.batches + [more]);
    assert Holds(r, mode, turns, l, k, Shape) && Holds(r, mode, turns, l, k, Account);
    assert Holds(r, mode, turns, l, k, Full) && Holds(r, mode, turns, l, k, Luckily);
    DrainedMore(l, more, rest, ending, tr, n, after);
    if AllWell(r, mode, turns, l'.batches) {
      AllDone(r, mode, turns, l, k, more, ending);
      WellDrained(l');
    }
  }

  /** ExportBatchWithRecovery: as many turns as it takes, which is at most one
      more than there are events. It ends with an empty queue unless the last
      turn fell short or capture was disabled. If all went well, the queue is
      empty and every event counted. */
  method Drain(w: Worker, mode: Mode, turns: seq<Turn>) returns (ghost l: Ledger)
    requires w.Valid() && |turns| > |w.queue| && forall i | 0 <= i < |turns| :: TurnOk(turns[i])
    modifies w, w.otel, w.sender, w.clickhouse
    ensures w.Valid() && Over(w.rendering, mode, turns, l)
    ensures l.was == old(w.queue) && l.queue == w.queue && l.before == old(w.exported) && l.after == w.exported
  {
    l := Ledger(w.queue, w.queue, w.exported, w.exported, [], []);
    var k := 0;
    while true
      invariant w.Valid() && k + |w.queue| < |turns| && GoesOn(w.rendering, mode, turns, l, k)
      invariant l == Ledger(old(w.queue), w.queue, old(w.exported), w.exported, l.endings, l.batches)
      decreases |w.queue|
    {
      ghost var was := l;
      var turn := turns[k];
      var n, more, tr, ending := w.ExportBatch(mode, turn.settings, turn.luck);
      l := Ledger(was.was, w.queue, was.before, w.exported, was.endings + [ending], was.batches + [more]);
      if n < turn.settings.batchMax || !turn.enabled {
        TurnLast(w.rendering, mode, turns, was, k, more, w.queue, ending, tr, n, w.exported);
        break;
      }
      TurnInFull(w.rendering, mode, turns, was, k, more, w.queue, ending, tr, n, w.exported);
      k := k + 1;
    }
  }
}
