/** Calls of PschExportBatch that fail and report rows all the same, one for each
    backend. */
module ExportReports {
  import opened Events
  import opened Transcripts
  import opened ExportWorker
  import Chunking
  import Otel = OtelExporter
  import Arrow = ArrowExporter
  import CH = ClickHouseColumns

  /** Two rows of which the first fills a chunk make two chunks. */
  lemma TwoChunks<T>(lim: Chunking.Limits, a: Chunking.Sized<T>, b: Chunking.Sized<T>)
    requires Chunking.Full(lim, [a])
    ensures Chunking.Cut(lim, [a, b]) == [[a], [b]] && AllButLast(lim, [a, b]) == 1
  {
    assert [a, b][..1] == [a] && [a][..0] == [];
    assert Chunking.Cut(lim, [a]) == [[a]];
    assert [[a], [b]][..1] == [[a]];
    Chunking.FlatAppend([], [a]);
    assert [] + [[a]] == [[a]];
  }

  /** Two records that go well, and two blocks. */
  const LOGS: seq<Otel.RowLuck> := [Otel.RowLuck(Otel.Delivers, true, 1), Otel.RowLuck(Otel.Delivers, true, 1)]
  const BLOCKS: seq<Arrow.Luck> := [Arrow.Luck(Arrow.Done, Arrow.Taken), Arrow.Luck(Arrow.Done, Arrow.Taken)]

  /** Nothing goes wrong but the last send. */
  const LUCK: Luck := Luck(true, true, true, LOGS, Otel.Refuses, BLOCKS, Arrow.Refused, CH.Never, CH.Rejects)

  const SETTINGS: Settings := Settings(2, 1, 0, 0)

  lemma OnlyLastRefused(rendering: Rendering, mode: Mode, events: seq<Event>)
    requires |events| == 2 && forall ev: Event :: rendering.log(ev) == []
    ensures LastRefused(rendering, mode, LUCK, events)
  {
  }

  /** A worker with two events in its queue exports them; the last send is refused. */
  method Refuse(mode: Mode, rendering: Rendering, e1: Event, e2: Event)
    returns (n: nat, ghost lim: Chunking.Limits, ghost ending: Ending)
    requires Renders(rendering) && CH.DistinctNames(rendering.schema) && forall ev: Event :: rendering.log(ev) == []
    ensures FallsShort(rendering, mode, lim, SETTINGS, [e1, e2], ending, n) && lim.maxRecords == Some(1)
  {
    var otel := new Otel.Exporter();
    var sender := new Arrow.Sender();
    var clickhouse := new CH.Exporter();
    otel.Establish(true, 1, 0);
    var worker := new Worker(otel, sender, clickhouse, rendering, [e1, e2]);
    ghost var events, tr;
    n, events, tr, ending := worker.ExportBatch(mode, SETTINGS, LUCK);
    assert events == [e1, e2];
    OnlyLastRefused(rendering, mode, events);
    lim := otel.lim;
  }

  /** OTLP with one record to a chunk: the first is taken, the commit refused. */
  method LogsExample(e1: Event, e2: Event) returns (n: nat, ghost ending: Ending)
    ensures n == 1 && !ending.Done?
  {
    var rendering := Rendering([], _ => [], _ => [], _ => []);
    ghost var lim;
    n, lim, ending := Refuse(OtelLogs, rendering, e1, e2);
    ghost var row := Otel.Weigh([]);
    assert Otel.WeighAll(LogRows(rendering, [e1, e2])) == [row, row];
    TwoChunks(lim, row, row);
  }

  /** Arrow with a first row that fills its block: that is taken, the last refused. */
  method BlocksExample(e1: Event, e2: Event) returns (n: nat, ghost ending: Ending)
    requires e1.query != "" && e2.query == ""
    ensures n == 1 && !ending.Done?
  {
    var long: string := seq(Arrow.MIN_BLOCK_BYTES, _ => 'x');
    var rendering := Rendering([], _ => [], (ev: Event) => if ev.query == "" then [] else [long], _ => []);
    ghost var lim;
    n, lim, ending := Refuse(OtelArrow, rendering, e1, e2);
    ghost var a, b := Arrow.Weigh([long]), Arrow.Weigh([]);
    assert Arrow.WeighAll(BlockRows(rendering, [e1, e2])) == [a, b];
    OneBlockFull(long);
    TwoChunks(Arrow.BlockLimits(0), a, b);
  }

  lemma OneBlockFull(long: string)
    requires |long| == Arrow.MIN_BLOCK_BYTES
    ensures Chunking.Full(Arrow.BlockLimits(0), [Arrow.Weigh([long])])
    ensures !Chunking.Full(Arrow.BlockLimits(0), [Arrow.Weigh([])])
  {
    var lim := Arrow.BlockLimits(0);
    Chunking.EnteringBytes(lim, [], Arrow.Weigh([long]));
    Chunking.EnteringBytes(lim, [], Arrow.Weigh([]));
    assert [] + [Arrow.Weigh([long])] == [Arrow.Weigh([long])] && [] + [Arrow.Weigh([])] == [Arrow.Weigh([])];
    assert Arrow.TextBytes([long]) == |long| + Arrow.TextBytes([]);
  }

  /** ClickHouse: the insert is refused, and the whole batch reported. */
  method InsertsExample(e1: Event, e2: Event) returns (n: nat, ghost ending: Ending)
    ensures n == 2 && !ending.Done?
  {
    var rendering := Rendering([CH.Request("pid", CH.Fixed("int32"), "Int32")], _ => [], _ => [], _ => [CH.Num(0)]);
    ghost var lim;
    n, lim, ending := Refuse(ClickHouse, rendering, e1, e2);
  }
}
