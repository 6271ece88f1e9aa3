/** The pipeline together with the worker's wires: in every run, what has gone out
    is the rendering of dequeued events, each at most once and in order. */
module ExportOnce {
  import opened Events
  import opened Ring
  import opened Pipeline
  import opened Transcripts
  import opened ExportWorker
  import opened ExportSteps
  import Chunking
  import CH = ClickHouseColumns
  import Otel = OtelExporter
  import PipelineProofs

  // ------------------------------------------------------------------
  // What a wire carries
  // ------------------------------------------------------------------

  /** The rows on a wire. */
  function Flat<T>(wire: seq<Chunking.Parcel<T>>): seq<T>
  {
    if wire == [] then [] else Flat(wire[..|wire| - 1]) + wire[|wire| - 1].rows
  }

  lemma {:induction false} FlatConcat<T>(a: seq<Chunking.Parcel<T>>, b: seq<Chunking.Parcel<T>>)
    ensures Flat(a + b) == Flat(a) + Flat(b)
  {
    if b == [] {
      assert a + b == a;
    } else {
      var n := |b| - 1;
      FlatConcat(a, b[..n]);
      assert (a + b)[..|a| + n] == a + b[..n];
    }
  }

  lemma {:induction false} CarriedFlat<T>(rows: seq<T>, tr: seq<Attempt>)
    requires RowsHanded(tr) <= |rows|
    ensures Flat(Carried(rows, tr)) == rows[..RowsHanded(tr)]
  {
    if tr != [] {
      var n := |tr| - 1;
      CarriedFlat(rows, tr[..n]);
      FlatOn(Carried(rows, tr[..n]), rows, RowsHanded(tr[..n]), tr[n].n, tr[n].ok);
    }
  }

  lemma FlatOn<T>(wire: seq<Chunking.Parcel<T>>, rows: seq<T>, k: nat, n: nat, ok: bool)
    requires k + n <= |rows| && Flat(wire) == rows[..k]
    ensures Flat(wire + [Chunking.Parcel(Slice(rows, k, n), ok)]) == rows[..k + n]
  {
    var all := wire + [Chunking.Parcel(Slice(rows, k, n), ok)];
    assert all[..|all| - 1] == wire;
    assert rows[..k] + rows[k..k + n] == rows[..k + n];
  }

  /** The blocks, one after the other, decode to the rows. */
  ghost predicate InsertsCarry(schema: seq<CH.Request>, inserts: seq<CH.Insert>, rows: seq<CH.Row>)
    decreases |inserts|
  {
    if inserts == [] then rows == []
    else exists k: nat :: k <= |rows| && BlockAt(schema, inserts[|inserts| - 1], rows, k)
                          && InsertsCarry(schema, inserts[..|inserts| - 1], rows[..k])
  }

  ghost predicate BlockAt(schema: seq<CH.Request>, insert: CH.Insert, rows: seq<CH.Row>, k: nat)
    requires k <= |rows|
  {
    CH.BlockOf(insert.block, schema, rows[k..])
  }

  /** What has gone out in the mode in force is the rendering of the events. */
  ghost predicate Carries(r: Rendering, mode: Mode, wires: Wires, events: seq<Event>)
  {
    match mode
    case OtelLogs => Flat(wires.logs) == LogRecords(r, events)
    case OtelArrow => Flat(wires.blocks) == BlockRows(r, events)
    case ClickHouse => InsertsCarry(r.schema, wires.inserts, InsertRows(r, events))
  }

  lemma RenderedOn(r: Rendering, evs: seq<Event>, events: seq<Event>, h: nat)
    requires h <= |events|
    ensures LogRecords(r, evs + events[..h]) == LogRecords(r, evs) + LogRecords(r, events)[..h]
    ensures BlockRows(r, evs + events[..h]) == BlockRows(r, evs) + BlockRows(r, events)[..h]
    ensures InsertRows(r, evs + events[..h]) == InsertRows(r, evs) + InsertRows(r, events)[..h]
  {
  }

  lemma LogsCarry(r: Rendering, was: Wires, now: Wires, evs: seq<Event>, events: seq<Event>, tr: seq<Attempt>)
    requires Carries(r, OtelLogs, was, evs) && Extends(r, OtelLogs, was, now, events, tr)
    ensures RowsHanded(tr) <= |events| && Carries(r, OtelLogs, now, evs + events[..RowsHanded(tr)])
  {
    FlatConcat(was.logs, Carried(LogRecords(r, events), tr));
    CarriedFlat(LogRecords(r, events), tr);
    RenderedOn(r, evs, events, RowsHanded(tr));
  }

  lemma BlocksCarry(r: Rendering, was: Wires, now: Wires, evs: seq<Event>, events: seq<Event>, tr: seq<Attempt>)
    requires Carries(r, OtelArrow, was, evs) && Extends(r, OtelArrow, was, now, events, tr)
    ensures RowsHanded(tr) <= |events| && Carries(r, OtelArrow, now, evs + events[..RowsHanded(tr)])
  {
    FlatConcat(was.blocks, Carried(BlockRows(r, events), tr));
    CarriedFlat(BlockRows(r, events), tr);
    RenderedOn(r, evs, events, RowsHanded(tr));
  }

  lemma InsertsAppend(schema: seq<CH.Request>, inserts: seq<CH.Insert>, rows: seq<CH.Row>,
                      insert: CH.Insert, more: seq<CH.Row>)
    requires InsertsCarry(schema, inserts, rows) && CH.BlockOf(insert.block, schema, more)
    ensures InsertsCarry(schema, inserts + [insert], rows + more)
  {
    var all, both := inserts + [insert], rows + more;
    assert all[..|all| - 1] == inserts && both[..|rows|] == rows && both[|rows|..] == more;
    assert BlockAt(schema, insert, both, |rows|);
  }

  lemma InsertsCarryOn(r: Rendering, was: Wires, now: Wires, evs: seq<Event>, events: seq<Event>, tr: seq<Attempt>)
    requires Carries(r, ClickHouse, was, evs) && Extends(r, ClickHouse, was, now, events, tr)
    ensures RowsHanded(tr) <= |events| && Carries(r, ClickHouse, now, evs + events[..RowsHanded(tr)])
  {
    if tr == [] {
      assert now.inserts == was.inserts && evs + events[..0] == evs;
    } else {
      var last := now.inserts[|was.inserts|];
      OneHanded(tr);
      assert now.inserts == was.inserts + [last];
      InsertsAppend(r.schema, was.inserts, InsertRows(r, evs), last, InsertRows(r, events));
      WholeRendered(r, evs, events);
    }
  }

  lemma OneHanded(tr: seq<Attempt>)
    requires |tr| == 1
    ensures RowsHanded(tr) == tr[0].n
  {
    assert tr[..0] == [];
  }

  lemma WholeRendered(r: Rendering, evs: seq<Event>, events: seq<Event>)
    ensures InsertRows(r, evs + events[..|events|]) == InsertRows(r, evs) + InsertRows(r, events)
  {
  }

  /** A call puts a prefix of its events on the wire, after all that was there. */
  lemma ExtendsCarries(r: Rendering, mode: Mode, was: Wires, now: Wires,
                       evs: seq<Event>, events: seq<Event>, tr: seq<Attempt>)
    requires Carries(r, mode, was, evs) && Extends(r, mode, was, now, events, tr)
    ensures RowsHanded(tr) <= |events| && Carries(r, mode, now, evs + events[..RowsHanded(tr)])
  {
    match mode
    case OtelLogs => LogsCarry(r, was, now, evs, events, tr);
    case OtelArrow => BlocksCarry(r, was, now, evs, events, tr);
    case ClickHouse => InsertsCarryOn(r, was, now, evs, events, tr);
  }

  // ------------------------------------------------------------------
  // Runs of the pipeline with the worker
  // ------------------------------------------------------------------

  datatype Joint = Joint(s: State, wires: Wires)

  /** A call of PschExportBatch: its events, its transcript, how it ends, what it
      reports, the counter before and after, and the steps of all processes in
      its course. */
  datatype Call = Call(
    events: seq<Event>, tr: seq<Attempt>, ending: Ending, n: nat, before: nat, after: nat, acts: seq<Act>)

  /** A step of some process outside the sends of a call. */
  ghost predicate Quiet(rc: RingConfig, j: Joint, j': Joint, act: Act)
  {
    && Next(rc, j.s, j'.s, act) && (IsExporters(act) ==> act.Dequeue?) && j'.wires == j.wires
  }

  /** A call, as the contract of ExportBatch describes it, with any steps of the
      other processes in between. */
  ghost predicate Calls(rc: RingConfig, r: Rendering, mode: Mode, j: Joint, j': Joint, c: Call)
  {
    && Ready(j.s, c.events) && Ended(c.ending, c.tr, c.n, |c.events|, c.before, c.after)
    && Plays(rc, j.s, c.acts, j'.s) && Exporters(c.acts) == CallActs(c.tr, c.ending.Done?)
    && Extends(r, mode, j.wires, j'.wires, c.events, c.tr)
  }

  ghost predicate Moves(rc: RingConfig, r: Rendering, mode: Mode, j: Joint, j': Joint)
  {
    (exists act: Act :: Quiet(rc, j, j', act)) || (exists c: Call :: Calls(rc, r, mode, j, j', c))
  }

  ghost predicate IsJointRun(rc: RingConfig, r: Rendering, mode: Mode, run: seq<Joint>)
  {
    && |run| > 0 && Pipeline.Init(rc, run[0].s) && run[0].wires == Wires([], [], [])
    && forall i :: 0 <= i < |run| - 1 ==> Moves(rc, r, mode, run[i], run[i + 1])
  }

  // ------------------------------------------------------------------
  // At most once
  // ------------------------------------------------------------------

  /** Positions in order, each once, all before `first`. */
  ghost predicate Ascending(handed: seq<nat>, first: nat)
  {
    && (forall i, j | 0 <= i < j < |handed| :: handed[i] < handed[j])
    && (forall i | 0 <= i < |handed| :: handed[i] < first)
  }

  function EventsAt(delivered: seq<Event>, handed: seq<nat>): (r: seq<Event>)
    requires forall i | 0 <= i < |handed| :: handed[i] < |delivered|
    ensures |r| == |handed| && forall i | 0 <= i < |handed| :: r[i] == delivered[handed[i]]
  {
    seq(|handed|, i requires 0 <= i < |handed| => delivered[handed[i]])
  }

  /** Between calls: what has gone out are the events at the positions handed
      over, and these are positions of dequeued events, in order, each once. */
  ghost predicate Once(r: Rendering, mode: Mode, j: Joint)
  {
    match j
    case Joint(s, wires) =>
      && s.out.stage.Draining? && s.out.stage.first <= |s.k.delivered| && Ascending(s.out.handed, s.out.stage.first)
      && Carries(r, mode, wires, EventsAt(s.k.delivered, s.out.handed))
  }

  lemma OnceAtFirst(rc: RingConfig, r: Rendering, mode: Mode, j: Joint)
    requires Pipeline.Init(rc, j.s) && j.wires == Wires([], [], [])
    ensures Once(r, mode, j)
  {
    assert EventsAt(j.s.k.delivered, j.s.out.handed) == [];
  }

  /** More events may have been dequeued. */
  lemma OnceKept(r: Rendering, mode: Mode, j: Joint, j': Joint)
    requires Once(r, mode, j) && j'.wires == j.wires && j'.s.out == j.s.out && j.s.k.delivered <= j'.s.k.delivered
    ensures Once(r, mode, j')
  {
    assert EventsAt(j'.s.k.delivered, j'.s.out.handed) == EventsAt(j.s.k.delivered, j.s.out.handed);
  }

  lemma QuietOnce(rc: RingConfig, r: Rendering, mode: Mode, j: Joint, j': Joint, act: Act)
    requires Once(r, mode, j) && Quiet(rc, j, j', act)
    ensures Once(r, mode, j')
  {
    if act.Dequeue? {
      PipelineProofs.ReaderEffect(rc, j.s.k, j'.s.k, j.s.reader, j'.s.reader, act.p, act.slot);
    } else {
      NextBooks(rc, j.s, j'.s, act);
    }
    OnceKept(r, mode, j, j');
  }

  lemma AscendingOn(handed: seq<nat>, first: nat, h: nat, m: nat)
    requires Ascending(handed, first) && h <= m
    ensures Ascending(handed + Range(first, h), first + m)
  {
  }

  /** The positions a call hands over are those of its events. */
  lemma EventsOn(delivered: seq<Event>, handed: seq<nat>, first: nat, events: seq<Event>, h: nat)
    requires Ascending(handed, first) && first <= |delivered| && delivered[first..] == events && h <= |events|
    requires Ascending(handed + Range(first, h), |delivered|)
    ensures EventsAt(delivered, handed + Range(first, h)) == EventsAt(delivered, handed) + events[..h]
  {
    forall i | 0 <= i < h ensures delivered[first + i] == events[i] { assert delivered[first..][i] == events[i]; }
  }

  lemma CallOnce(rc: RingConfig, r: Rendering, mode: Mode, j: Joint, j': Joint, c: Call)
    requires Once(r, mode, j) && Calls(rc, r, mode, j, j', c)
    ensures Once(r, mode, j')
  {
    CallAmongOthers(rc, j.s, c.acts, j'.s, c.events, c.ending, c.tr, c.n, c.before, c.after);
    var out, h, m := j.s.out, RowsHanded(c.tr), |c.events|;
    ExtendsCarries(r, mode, j.wires, j'.wires, EventsAt(j.s.k.delivered, out.handed), c.events, c.tr);
    AscendingOn(out.handed, out.stage.first, h, m);
    EventsOn(j.s.k.delivered, out.handed, out.stage.first, c.events, h);
  }

  /** In every run, between calls, what has gone out on the wire is exactly the
      rendering of the dequeued events at the positions handed over, which are in
      order and all different: no event goes out twice, and none out of turn. */
  lemma {:induction false} WireOnce(rc: RingConfig, r: Rendering, mode: Mode, run: seq<Joint>, n: nat)
    requires IsJointRun(rc, r, mode, run) && n < |run|
    ensures Once(r, mode, run[n])
  {
    if n == 0 {
      OnceAtFirst(rc, r, mode, run[0]);
    } else {
      WireOnce(rc, r, mode, run, n - 1);
      var j, j' := run[n - 1], run[n - 1 + 1];
      assert Moves(rc, r, mode, j, j');
      if act: Act :| Quiet(rc, j, j', act) {
        QuietOnce(rc, r, mode, j, j', act);
      } else {
        var c: Call :| Calls(rc, r, mode, j, j', c);
        CallOnce(rc, r, mode, j, j', c);
      }
    }
  }

  /** The k-th log record that has gone out holds the attributes of the k-th event
      handed over, all of them in order, but no integer that is zero. */
  lemma WireRecords(rc: RingConfig, r: Rendering, run: seq<Joint>, n: nat)
    requires IsJointRun(rc, r, OtelLogs, run) && n < |run|
    ensures var s, records := run[n].s, Flat(run[n].wires.logs);
            && |records| == |s.out.handed|
            && forall k | 0 <= k < |records| ::
                 s.out.handed[k] < |s.k.delivered| && Otel.Keeps(records[k], r.log(s.k.delivered[s.out.handed[k]]))
  {
    WireOnce(rc, r, OtelLogs, run, n);
  }
}
