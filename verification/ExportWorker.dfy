/** PschExportBatch over its three backends: a batch is dequeued, rendered as
    rows, handed to the exporter, and counted. */
module ExportWorker {
  import opened Events
  import opened RingArithmetic
  import opened Transcripts
  import Chunking
  import Otel = OtelExporter
  import Arrow = ArrowExporter
  import CH = ClickHouseColumns

  datatype Mode = OtelLogs | OtelArrow | ClickHouse

  /** All that may go wrong in one call. */
  datatype Luck = Luck(
    connects: bool, reserves: bool, begins: bool,
    logs: seq<Otel.RowLuck>, commit: Otel.Send,
    blocks: seq<Arrow.Luck>, last: Arrow.Flush,
    stop: CH.Stop, insert: CH.CommitLuck)

  /** The settings a call reads. */
  datatype Settings = Settings(batchMax: nat, logBatchSize: nat, logMaxBytes: nat, maxBlockBytes: nat)

  // ------------------------------------------------------------------
  // Rows
  // ------------------------------------------------------------------

  /** The columns of the ClickHouse table, and how an event is rendered as a row
      of each backend. */
  datatype Rendering = Rendering(
    schema: seq<CH.Request>, log: Event -> Otel.Row, block: Event -> Arrow.Row, insert: Event -> CH.Row)

  ghost predicate Renders(r: Rendering)
  {
    match r
    case Rendering(schema, _, _, insert) => forall ev: Event :: CH.RowFits(schema, insert(ev))
  }

  function LogRows(r: Rendering, events: seq<Event>): (rows: seq<Otel.Row>)
    ensures |rows| == |events| && forall i | 0 <= i < |events| :: rows[i] == r.log(events[i])
  {
    seq(|events|, i requires 0 <= i < |events| => r.log(events[i]))
  }

  /** The log records of the events. */
  function LogRecords(r: Rendering, events: seq<Event>): (rows: seq<Otel.Row>)
    ensures |rows| == |events| && forall i | 0 <= i < |events| :: rows[i] == Otel.Recorded(r.log(events[i]))
  {
    Otel.RecordedAll(LogRows(r, events))
  }

  function BlockRows(r: Rendering, events: seq<Event>): (rows: seq<Arrow.Row>)
    ensures |rows| == |events| && forall i | 0 <= i < |events| :: rows[i] == r.block(events[i])
  {
    seq(|events|, i requires 0 <= i < |events| => r.block(events[i]))
  }

  function InsertRows(r: Rendering, events: seq<Event>): (rows: seq<CH.Row>)
    ensures |rows| == |events| && forall i | 0 <= i < |events| :: rows[i] == r.insert(events[i])
  {
    seq(|events|, i requires 0 <= i < |events| => r.insert(events[i]))
  }

  lemma InsertRowsFit(r: Rendering, events: seq<Event>)
    requires Renders(r)
    ensures CH.AllFit(r.schema, InsertRows(r, events))
  {
    forall k | 0 <= k < |events| ensures CH.RowFits(r.schema, InsertRows(r, events)[k]) {
      assert InsertRows(r, events)[k] == r.insert(events[k]);
    }
  }

  // ------------------------------------------------------------------
  // The wires
  // ------------------------------------------------------------------

  /** All that was ever sent: log records, Arrow blocks, ClickHouse blocks. */
  datatype Wires = Wires(
    logs: seq<Chunking.Parcel<Otel.Row>>, blocks: seq<Chunking.Parcel<Arrow.Row>>, inserts: seq<CH.Insert>)

  /** A call in some mode has sent the rows of its events, in order from the
      first, as the transcript says, and nothing else on any wire. */
  ghost predicate Extends(r: Rendering, mode: Mode, was: Wires, now: Wires, events: seq<Event>, tr: seq<Attempt>)
  {
    match mode
    case OtelLogs =>
      && RowsHanded(tr) <= |events|
      && now == was.(logs := was.logs + Carried(LogRecords(r, events), tr))
    case OtelArrow =>
      && RowsHanded(tr) <= |events|
      && now == was.(blocks := was.blocks + Carried(BlockRows(r, events), tr))
    case ClickHouse =>
      && now == was.(inserts := now.inserts) && was.inserts <= now.inserts
      && |tr| <= 1 && |now.inserts| == |was.inserts| + |tr|
      && (tr != [] ==>
            var last := now.inserts[|was.inserts|];
            tr == [Attempt(|events|, last.ok)] && CH.BlockOf(last.block, r.schema, InsertRows(r, events)))
  }

  /** The endings a backend leads to. */
  predicate Possible(mode: Mode, ending: Ending)
  {
    match mode
    case ClickHouse => !ending.Partial? && (ending.Aborted? ==> ending.n == 0)
    case _ => !ending.Refused?
  }

  // ------------------------------------------------------------------
  // Luck
  // ------------------------------------------------------------------

  predicate Smooth(luck: Luck)
  {
    luck.connects && luck.reserves && luck.begins
  }

  /** Nothing goes wrong with a batch. */
  ghost predicate Lucky(r: Rendering, mode: Mode, luck: Luck, events: seq<Event>)
  {
    match mode
    case OtelLogs => Smooth(luck) && Otel.AllFine(luck.logs, LogRows(r, events)) && luck.commit == Otel.Delivers
    case OtelArrow => Smooth(luck) && Arrow.AllFine(luck.blocks) && luck.last == Arrow.Taken
    case ClickHouse => Smooth(luck) && luck.stop == CH.Never && luck.insert == CH.Inserts
  }

  /** Nothing goes wrong with a batch but its last send, which is refused. */
  ghost predicate LastRefused(r: Rendering, mode: Mode, luck: Luck, events: seq<Event>)
  {
    match mode
    case OtelLogs => Smooth(luck) && Otel.AllFine(luck.logs, LogRows(r, events)) && luck.commit == Otel.Refuses
    case OtelArrow => Smooth(luck) && Arrow.AllFine(luck.blocks) && luck.last == Arrow.Refused
    case ClickHouse => Smooth(luck) && luck.stop == CH.Never && luck.insert == CH.Rejects
  }

  /** The rows in all chunks but the last. */
  ghost function AllButLast<T>(lim: Chunking.Limits, rows: seq<Chunking.Sized<T>>): nat
  {
    var all := Chunking.Cut(lim, rows);
    if all == [] then 0 else |Chunking.Flat(all[..|all| - 1])|
  }

  /** The commit closes the connection. */
  predicate Closes(luck: CH.CommitLuck)
  {
    luck.Rejects? || (luck.Unbuilt? && luck.closes)
  }

  // ------------------------------------------------------------------
  // The worker
  // ------------------------------------------------------------------

  /** ExportEventStats and CommitBatch on the OTLP exporter: connected, so that a
      commit means that every row was taken. */
  method LogsOut(exp: Otel.Exporter, rows: seq<Otel.Row>, lucks: seq<Otel.RowLuck>, commit: Otel.Send)
    returns (outcome: Otel.Outcome, ghost tr: seq<Attempt>)
    requires exp.Configured() && exp.connected && rows != [] && |lucks| >= |rows|
    modifies exp
    ensures exp.Configured() && exp.lim == old(exp.lim)
    ensures var records := Otel.RecordedAll(rows);
            Sends(Shipment(records, old(exp.log.wire), exp.log.wire, tr, exp.exported, outcome.Committed?))
    ensures Otel.AllFine(lucks, rows) ==>
              if commit == Otel.Delivers then outcome.Committed?
              else outcome.Failed? && exp.exported == AllButLast(exp.lim, Otel.WeighAll(rows))
  {
    outcome := Otel.ExportBatch(exp, rows, lucks, commit);
    tr := Attempts(exp.pr.delivered, exp.pr.refused);
    Otel.WeighedRows(rows);
    ChunksSend(exp.lim, exp.pr, Otel.RecordedAll(rows), old(exp.log.wire), exp.log.wire, exp.exported, outcome.Committed?);
  }

  method SendLogs(exp: Otel.Exporter, rows: seq<Otel.Row>, luck: Luck, ghost before: nat)
    returns (n: nat, commits: bool, ghost tr: seq<Attempt>, ghost ending: Ending)
    requires exp.Configured() && exp.connected && rows != [] && |luck.logs| >= |rows|
    modifies exp
    ensures exp.Configured() && exp.lim == old(exp.lim) && (commits <==> ending.Done?) && !ending.Refused? && !ending.Unreachable?
    ensures Ended(ending, tr, n, |rows|, before, if commits then (before + n) % U64 else before)
    ensures RowsHanded(tr) <= |rows| && exp.log.wire == old(exp.log.wire) + Carried(Otel.RecordedAll(rows), tr)
    ensures luck.begins && Otel.AllFine(luck.logs, rows) ==>
              if luck.commit == Otel.Delivers then commits
              else ending.Partial? && n == AllButLast(exp.lim, Otel.WeighAll(rows))
  {
    if !luck.begins {
      NothingHanded(Aborted(0), |rows|, before);
      return 0, false, [], Aborted(0);
    }
    var outcome;
    outcome, tr := LogsOut(exp, rows, luck.logs, luck.commit);
    commits := outcome.Committed?;
    ShipmentEnded(Shipment(Otel.RecordedAll(rows), old(exp.log.wire), exp.log.wire, tr, exp.exported, commits), before);
    n := if outcome.Aborted? then 0 else exp.exported;
    ending := if commits then Done else if outcome.Aborted? then Aborted(exp.exported) else Partial(exp.exported);
  }

  /** ExportEventsAsArrow. */
  method BlocksOut(sender: Arrow.Sender, rows: seq<Arrow.Row>, maxBlockBytes: nat, lucks: seq<Arrow.Luck>, last: Arrow.Flush)
    returns (total: nat, outcome: Arrow.Outcome, ghost tr: seq<Attempt>)
    requires |lucks| >= |rows|
    modifies sender
    ensures Sends(Shipment(rows, old(sender.log.wire), sender.log.wire, tr, total, outcome.Done?))
    ensures Arrow.AllFine(lucks) && last == Arrow.Taken ==> outcome.Done?
    ensures var lim, all := Arrow.BlockLimits(maxBlockBytes), Arrow.WeighAll(rows);
            Arrow.AllFine(lucks) && last == Arrow.Refused && Chunking.LastOpen(lim, all) ==>
              outcome.Failed? && total == AllButLast(lim, all)
  {
    ghost var pr;
    total, outcome, pr := Arrow.ExportAsArrow(sender, rows, maxBlockBytes, lucks, last);
    tr := Attempts(pr.delivered, pr.refused);
    Arrow.WeighedRows(rows);
    ChunksSend(Arrow.BlockLimits(maxBlockBytes), pr, rows, old(sender.log.wire), sender.log.wire, total, outcome.Done?);
  }

  method SendBlocks(sender: Arrow.Sender, rows: seq<Arrow.Row>, maxBlockBytes: nat, luck: Luck, ghost before: nat)
    returns (n: nat, done: bool, ghost tr: seq<Attempt>, ghost ending: Ending)
    requires rows != [] && |luck.blocks| >= |rows|
    modifies sender
    ensures (done <==> ending.Done?) && !ending.Refused? && !ending.Unreachable?
    ensures Ended(ending, tr, n, |rows|, before, if done then (before + n) % U64 else before)
    ensures RowsHanded(tr) <= |rows| && sender.log.wire == old(sender.log.wire) + Carried(rows, tr)
    ensures luck.begins && Arrow.AllFine(luck.blocks) && luck.last == Arrow.Taken ==> done
    ensures var lim, all := Arrow.BlockLimits(maxBlockBytes), Arrow.WeighAll(rows);
            luck.begins && Arrow.AllFine(luck.blocks) && luck.last == Arrow.Refused && Chunking.LastOpen(lim, all) ==>
              ending.Partial? && n == AllButLast(lim, all)
  {
    if !luck.begins {
      NothingHanded(Aborted(0), |rows|, before);
      return 0, false, [], Aborted(0);
    }
    var total, outcome;
    total, outcome, tr := BlocksOut(sender, rows, maxBlockBytes, luck.blocks, luck.last);
    done := outcome.Done?;
    ShipmentEnded(Shipment(rows, old(sender.log.wire), sender.log.wire, tr, total, done), before);
    n := if outcome.Aborted? then 0 else total;
    ending := if done then Done else if outcome.Aborted? then Aborted(total) else Partial(total);
  }

  class Worker {
    const otel: Otel.Exporter
    const sender: Arrow.Sender
    const clickhouse: CH.Exporter
    const rendering: Rendering

    /** Events in the queue, oldest first, and the shared 64-bit counter. */
    var queue: seq<Event>
    var exported: nat
    var inserting: bool

    ghost predicate Valid()
      reads this, otel, clickhouse
    {
      otel.Configured() && clickhouse.Conforms(rendering.schema) && exported < U64 && Renders(rendering)
    }

    ghost function Sent(): Wires
      reads otel, sender, clickhouse
    {
      Wires(otel.log.wire, sender.log.wire, clickhouse.wire)
    }

    constructor (otel: Otel.Exporter, sender: Arrow.Sender, clickhouse: CH.Exporter, rendering: Rendering, queue: seq<Event>)
      requires otel.Configured() && clickhouse.Conforms(rendering.schema) && Renders(rendering)
      ensures Valid() && this.queue == queue && exported == 0
      ensures this.otel == otel && this.sender == sender && this.clickhouse == clickhouse && this.rendering == rendering
    {
      this.otel, this.sender, this.clickhouse, this.rendering := otel, sender, clickhouse, rendering;
      this.queue, exported, inserting := queue, 0, false;
    }

    /** DequeueEvents. */
    method DequeueEvents(max: nat) returns (events: seq<Event>)
      modifies this`queue
      ensures old(queue) == events + queue && |events| <= max && (queue != [] ==> |events| == max)
    {
      events := [];
      while |events| < max && |queue| > 0
        invariant old(queue) == events + queue && |events| <= max
        decreases |queue|
      {
        events := events + [queue[0]];
        queue := queue[1..];
      }
    }

    /** The backend is connected, or a connection is made. */
    method EnsureConnected(mode: Mode, settings: Settings, connects: bool) returns (ok: bool)
      requires Valid()
      modifies otel, this`inserting
      ensures Valid() && otel.log == old(otel.log)
      ensures ok <==> connects || if mode.ClickHouse? then old(inserting) else old(otel.connected)
      ensures ok && !mode.ClickHouse? ==> otel.connected
      ensures mode.ClickHouse? ==> inserting == ok
      ensures old(otel.connected) ==> otel.lim == old(otel.lim)
    {
      if mode.ClickHouse? {
        if !inserting { inserting := connects; }
        ok := inserting;
      } else {
        if !otel.connected { otel.Establish(connects, settings.logBatchSize, settings.logMaxBytes); }
        ok := otel.connected;
      }
    }

    method ExportLogs(events: seq<Event>, luck: Luck) returns (n: nat, ghost tr: seq<Attempt>, ghost ending: Ending)
      requires Valid() && otel.connected && events != [] && |luck.logs| >= |events|
      modifies this`exported, otel
      ensures Valid() && otel.lim == old(otel.lim) && Ended(ending, tr, n, |events|, old(exported), exported)
      ensures Possible(OtelLogs, ending) && !ending.Unreachable?
      ensures Extends(rendering, OtelLogs, old(Sent()), Sent(), events, tr)
      ensures Lucky(rendering, OtelLogs, luck, events) ==> ending.Done?
      ensures LastRefused(rendering, OtelLogs, luck, events) ==>
                ending.Partial? && n == AllButLast(otel.lim, Otel.WeighAll(LogRows(rendering, events)))
    {
      var commits;
      n, commits, tr, ending := SendLogs(otel, LogRows(rendering, events), luck, exported);
      if commits { exported := (exported + n) % U64; }
    }

    method ExportBlocks(events: seq<Event>, settings: Settings, luck: Luck)
      returns (n: nat, ghost tr: seq<Attempt>, ghost ending: Ending)
      requires Valid() && events != [] && |luck.blocks| >= |events|
      modifies this`exported, sender
      ensures Valid() && Ended(ending, tr, n, |events|, old(exported), exported)
      ensures Possible(OtelArrow, ending) && !ending.Unreachable?
      ensures Extends(rendering, OtelArrow, old(Sent()), Sent(), events, tr)
      ensures Lucky(rendering, OtelArrow, luck, events) ==> ending.Done?
      ensures var lim, all := Arrow.BlockLimits(settings.maxBlockBytes), Arrow.WeighAll(BlockRows(rendering, events));
              LastRefused(rendering, OtelArrow, luck, events) && Chunking.LastOpen(lim, all) ==>
                ending.Partial? && n == AllButLast(lim, all)
    {
      var done;
      n, done, tr, ending := SendBlocks(sender, BlockRows(rendering, events), settings.maxBlockBytes, luck, exported);
      if done && n > 0 { exported := (exported + n) % U64; }
    }

    /** ExportEventStats and CommitBatch on the ClickHouse exporter. Rows are
        counted as they are begun, and reported even if the insert fails. */
    method ExportInserts(events: seq<Event>, luck: Luck) returns (n: nat, ghost tr: seq<Attempt>, ghost ending: Ending)
      requires Valid() && events != []
      modifies this`exported, this`inserting, clickhouse
      ensures Valid() && Ended(ending, tr, n, |events|, old(exported), exported)
      ensures Possible(ClickHouse, ending) && !ending.Unreachable?
      ensures Extends(rendering, ClickHouse, old(Sent()), Sent(), events, tr)
      ensures var stops := CH.Stops(luck.stop, rendering.schema, InsertRows(rendering, events));
              && (ending.Refused? <==> luck.begins && !stops && luck.insert != CH.Inserts)
              && (ending.Done? <==> luck.begins && !stops && luck.insert == CH.Inserts)
      ensures inserting <==> old(inserting) && !(ending.Refused? && Closes(luck.insert))
    {
      NothingHanded(Aborted(0), |events|, exported);
      NothingHanded(Refused, |events|, exported);
      if !luck.begins { return 0, [], Aborted(0); }
      InsertRowsFit(rendering, events);
      var rows := InsertRows(rendering, events);
      var outcome, block := CH.ExportBatch(clickhouse, rendering.schema, rows, luck.stop, luck.insert);
      if outcome.Aborted? { return 0, [], Aborted(0); }
      OneBlock(|events|, outcome.Committed?, exported);
      tr := if block.Some? then [Attempt(|events|, outcome.Committed?)] else [];
      ending := if outcome.Committed? then Done else Refused;
      if outcome.Committed? { exported := (exported + clickhouse.exported) % U64; }
      else if Closes(luck.insert) { inserting := false; }
      n := clickhouse.exported;
    }

    /** The batch goes to the backend in force. */
    method HandOver(mode: Mode, events: seq<Event>, settings: Settings, luck: Luck)
      returns (n: nat, ghost tr: seq<Attempt>, ghost ending: Ending)
      requires Valid() && events != [] && (!mode.ClickHouse? ==> otel.connected)
      requires |luck.logs| >= |events| && |luck.blocks| >= |events|
      modifies this`exported, this`inserting, otel, sender, clickhouse
      ensures Valid() && Ended(ending, tr, n, |events|, old(exported), exported) && Possible(mode, ending)
      ensures !ending.Unreachable? && otel.lim == old(otel.lim)
      ensures Extends(rendering, mode, old(Sent()), Sent(), events, tr)
      ensures Lucky(rendering, mode, luck, events) ==> ending.Done?
      ensures mode.ClickHouse? ==> (inserting <==> old(inserting) && !(ending.Refused? && Closes(luck.insert)))
      ensures LastRefused(rendering, mode, luck, events) ==>
                FallsShort(rendering, mode, otel.lim, settings, events, ending, n)
    {
      match mode
      case OtelLogs => n, tr, ending := ExportLogs(events, luck);
      case OtelArrow => n, tr, ending := ExportBlocks(events, settings, luck);
      case ClickHouse => n, tr, ending := ExportInserts(events, luck);
    }

    /** PschExportBatch: connect or return; dequeue; hand the batch over; count it
        if all of it was taken. */
    method ExportBatch(mode: Mode, settings: Settings, luck: Luck)
      returns (n: nat, ghost events: seq<Event>, ghost tr: seq<Attempt>, ghost ending: Ending)
      requires Valid() && |luck.logs| >= settings.batchMax && |luck.blocks| >= settings.batchMax
      modifies this, otel, sender, clickhouse
      ensures Valid() && old(queue) == events + queue && |events| <= settings.batchMax
      ensures Ended(ending, tr, n, |events|, old(exported), exported) && Possible(mode, ending)
      ensures Extends(rendering, mode, old(Sent()), Sent(), events, tr)
      ensures ending.Unreachable? || (queue != [] ==> |events| == settings.batchMax)
      ensures ending.Unreachable? <==>
                !luck.reserves || !(luck.connects || if mode.ClickHouse? then old(inserting) else old(otel.connected))
      ensures mode.ClickHouse? && luck.connects ==> (inserting <==> !(ending.Refused? && Closes(luck.insert)))
      ensures Lucky(rendering, mode, luck, events) ==> ending.Done?
      ensures old(otel.connected) ==> otel.lim == old(otel.lim)
      ensures LastRefused(rendering, mode, luck, events) && events != [] ==>
                FallsShort(rendering, mode, otel.lim, settings, events, ending, n)
    {
      var ok := EnsureConnected(mode, settings, luck.connects);
      if !ok || !luck.reserves {
        NothingHanded(Unreachable, 0, exported);
        NothingSent(rendering, mode, Sent());
        return 0, [], [], Unreachable;
      }
      var batch := DequeueEvents(settings.batchMax);
      events := batch;
      if batch == [] {
        NothingHanded(Done, 0, exported);
        NothingSent(rendering, mode, Sent());
        return 0, [], [], Done;
      }
      n, tr, ending := HandOver(mode, batch, settings, luck);
    }
  }

  /** A call that does not get its whole batch taken reports rows all the same
      exactly in these cases. OTLP: no exception ends the call, and the first send
      was taken. ClickHouse: the batch was filled and its insert failed. */
  lemma FailureReports(mode: Mode, ending: Ending, tr: seq<Attempt>, n: nat, m: nat, before: nat, after: nat)
    requires Ended(ending, tr, n, m, before, after) && Possible(mode, ending) && !ending.Done?
    ensures n > 0 <==> if mode.ClickHouse? then ending.Refused? && m > 0
                       else !ending.Aborted? && tr != [] && tr[0].ok
  {
    FirstTaken(tr, m, false);
    if ending.Unreachable? && tr != [] { AnyHanded(tr, m, false); }
  }

  /** If the last send alone is refused, OTLP reports the chunks before it, and
      ClickHouse the whole batch. */
  ghost predicate FallsShort(r: Rendering, mode: Mode, lim: Chunking.Limits, settings: Settings, events: seq<Event>,
                             ending: Ending, n: nat)
  {
    match mode
    case OtelLogs => ending.Partial? && n == AllButLast(lim, Otel.WeighAll(LogRows(r, events)))
    case OtelArrow =>
      var blockLim, all := Arrow.BlockLimits(settings.maxBlockBytes), Arrow.WeighAll(BlockRows(r, events));
      Chunking.LastOpen(blockLim, all) ==> ending.Partial? && n == AllButLast(blockLim, all)
    case ClickHouse => ending.Refused? && n == |events|
  }

  lemma NothingSent(r: Rendering, mode: Mode, wires: Wires)
    ensures Extends(r, mode, wires, wires, [], [])
  {
  }
}
