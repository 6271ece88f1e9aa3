/** The OTLP log exporter: rows are collected into chunks that are sent when
    full; a send may succeed, be refused, or throw. */
module OtelExporter {
  import opened Events
  import opened Chunking

  const MIN_BYTES_PER_RECORD: nat := 1200
  const REQUEST_OVERHEAD: nat := 512
  const RECORD_OVERHEAD: nat := 128
  const ATTR_OVERHEAD: nat := 24

  /** What a column appends to the current record. */
  datatype Attr =
    | Str(key: string, value: string)
    | Int(key: string, v: int)
    | Time(key: string, at: int)
    | Duration(us: nat)

  type Row = seq<Attr>

  function ScalarBytes(key: string): nat { ATTR_OVERHEAD + |key| + 8 }

  /** The size estimate of the columns' Append; an integer column leaves out zeros. */
  function AttrBytes(a: Attr): nat
  {
    match a
    case Str(key, value) => ATTR_OVERHEAD + |key| + |value|
    case Int(key, v) => if v == 0 then 0 else ScalarBytes(key)
    case Time(key, _) => ScalarBytes(key) + 8
    case Duration(_) => ScalarBytes("db.client.operation.duration") + ScalarBytes("duration_us")
  }

  function AttrsBytes(row: Row): nat
  {
    if row == [] then 0 else AttrsBytes(row[..|row| - 1]) + AttrBytes(row[|row| - 1])
  }

  function RowBytes(row: Row): nat { RECORD_OVERHEAD + AttrsBytes(row) }

  /** Some elements of t, in their order. */
  predicate IsSubsequence<T(==)>(s: seq<T>, t: seq<T>)
    decreases |t|
  {
    if s == [] || t == [] then s == []
    else
      var m, n := |s| - 1, |t| - 1;
      (s[m] == t[n] && IsSubsequence(s[..m], t[..n])) || IsSubsequence(s, t[..n])
  }

  datatype Respect = Order | Count

  /** The record has the row's attributes in their order and each as often as the
      row, but no integer that is zero. */
  ghost predicate Keeps(record: Row, row: Row)
  {
    forall respect: Respect :: KeepsIn(record, row, respect)
  }

  ghost predicate KeepsIn(record: Row, row: Row, respect: Respect)
  {
    match respect
    case Order => IsSubsequence(record, row)
    case Count => forall a: Attr :: multiset(record)[a] == if a.Int? && a.v == 0 then 0 else multiset(row)[a]
  }

  /** What the record of a row holds: an integer column leaves out zeros. */
  function Recorded(row: Row): (r: Row)
    ensures Keeps(r, row)
  {
    if row == [] then
      KeepsNothing();
      []
    else
      var done := row[..|row| - 1];
      KeepsMore(Recorded(done), done, row[|row| - 1]);
      assert done + [row[|row| - 1]] == row;
      Recorded(done) + NonZero(row[|row| - 1])
  }

  function NonZero(a: Attr): Row { if a.Int? && a.v == 0 then [] else [a] }

  lemma KeepsNothing()
    ensures Keeps([], [])
  {
  }

  lemma KeepsMore(record: Row, row: Row, a: Attr)
    requires Keeps(record, row)
    ensures Keeps(record + NonZero(a), row + [a])
  {
    var record', row' := record + NonZero(a), row + [a];
    assert KeepsIn(record, row, Order) && KeepsIn(record, row, Count);
    assert row'[..|row|] == row;
    if NonZero(a) == [] { assert record' == record; } else { assert record'[..|record|] == record; }
    forall respect: Respect ensures KeepsIn(record', row', respect) { }
  }

  function RecordedAll(rows: seq<Row>): (r: seq<Row>)
    ensures |r| == |rows| && forall i | 0 <= i < |rows| :: r[i] == Recorded(rows[i])
  {
    seq(|rows|, i requires 0 <= i < |rows| => Recorded(rows[i]))
  }

  /** An attribute that is left out is not counted. */
  lemma {:induction false} LeftOutWeighsNothing(row: Row)
    ensures RowBytes(Recorded(row)) == RowBytes(row)
  {
    if row != [] {
      var n := |row| - 1;
      LeftOutWeighsNothing(row[..n]);
      var done, last := Recorded(row[..n]), NonZero(row[n]);
      if last == [] { assert done + last == done; } else { assert (done + last)[..|done|] == done; }
    }
  }

  /** The keys and texts of a record, one after the other. */
  function TextsOf(row: Row): string
  {
    if row == [] then "" else TextsOf(row[..|row| - 1]) + TextOf(row[|row| - 1])
  }

  function TextOf(a: Attr): string
  {
    match a
    case Str(key, value) => key + value
    case Int(key, _) => key
    case Time(key, _) => key
    case Duration(_) => "db.client.operation.duration" + "duration_us"
  }

  /** The estimate covers the keys and texts of the record and its overheads. */
  lemma {:induction false} EstimateCovers(row: Row)
    ensures RowBytes(row) >= RECORD_OVERHEAD + ATTR_OVERHEAD * |Recorded(row)| + |TextsOf(Recorded(row))|
  {
    if row != [] {
      var n := |row| - 1;
      EstimateCovers(row[..n]);
      var done, last := Recorded(row[..n]), NonZero(row[n]);
      if last == [] { assert done + last == done; } else { assert (done + last)[..|done|] == done; }
    }
  }

  /** The record of a row with its size estimate. */
  function Weigh(row: Row): Sized<Row> { Sized(Recorded(row), RowBytes(row)) }

  function WeighAll(rows: seq<Row>): (r: seq<Sized<Row>>)
    ensures |r| == |rows| && forall i | 0 <= i < |rows| :: r[i] == Weigh(rows[i])
  {
    seq(|rows|, i requires 0 <= i < |rows| => Weigh(rows[i]))
  }

  function Max(a: nat, b: nat): nat { if a > b then a else b }

  function Min(a: nat, b: nat): nat { if a < b then a else b }

  datatype Send = Delivers | Refuses | Throws

  /** What may go wrong with one row: the send of the chunk before it, the
      allocation of a new chunk, and an exception once `appends` of its record
      and attributes are in place (none if there are fewer). */
  datatype RowLuck = RowLuck(send: Send, resets: bool, appends: nat)

  /** Nothing goes wrong with the row. */
  predicate Fine(luck: RowLuck, row: Row)
  {
    luck.send == Delivers && luck.resets && luck.appends > |row|
  }

  predicate AllFine(lucks: seq<RowLuck>, batch: seq<Row>)
  {
    |lucks| >= |batch| && forall i | 0 <= i < |batch| :: Fine(lucks[i], batch[i])
  }

  /** How a batch stands with a backend; without a connection nothing is sent. */
  ghost predicate Account(connected: bool, lim: Limits, pr: Progress<Row>, n: nat, how: Standing)
  {
    match connected
    case true => Stands(lim, pr, n, how)
    case false => pr.delivered == [] && n == 0
  }

  lemma AccountChunk(connected: bool, lim: Limits, pr: Progress<Row>, n: nat)
    requires Account(connected, lim, pr, n, Gathered)
    ensures !Full(lim, pr.chunk) ==> Account(connected, lim, pr, n, Ready)
    ensures Account(connected, lim, Refuse(pr), n, if pr.chunk == [] && connected then Gathered else Missed)
    ensures pr.chunk != [] && connected ==> Account(connected, lim, Deliver(pr), n + |pr.chunk|, Complete)
    ensures pr.chunk != [] && connected && Full(lim, pr.chunk) ==> Account(connected, lim, Deliver(pr), n + |pr.chunk|, Ready)
    ensures pr.chunk == [] ==> Account(connected, lim, pr, n, Complete) && Account(connected, lim, pr, n, Ready)
  {
    if connected {
      if pr.chunk == [] {
        NothingGathered(lim, pr, n);
        assert Refuse(pr) == pr;
      } else {
        Delivering(lim, pr, n);
      }
    }
  }

  /** The last chunk is sent, or not. */
  lemma AccountLast(lim: Limits, pr: Progress<Row>, n: nat)
    requires Account(true, lim, pr, n, Gathered)
    ensures pr.rows == [] ==> pr.chunk == [] && Account(true, lim, pr, n, Complete)
    ensures pr.rows != [] ==> pr.chunk != [] && LastMissing(lim, Refuse(pr))
    ensures pr.rows != [] ==> Account(true, lim, Deliver(pr), n + |pr.chunk|, Complete)
    ensures pr.rows != [] ==> Account(true, lim, Refuse(pr), n, Missed)
  {
    AccountChunk(true, lim, pr, n);
    if pr.rows == [] {
      NoRowsNoChunk(lim, pr, n);
    } else {
      GatheredButLast(lim, pr, n);
    }
  }

  /** A full chunk is sent before `row`, or not. */
  lemma AccountFull(connected: bool, lim: Limits, pr: Progress<Row>, n: nat, row: Sized<Row>)
    requires Account(connected, lim, pr, n, Gathered) && pr.chunk != [] && Full(lim, pr.chunk)
    ensures var sent, m := if connected then Deliver(pr) else pr.(chunk := []), if connected then n + |pr.chunk| else n;
            Account(connected, lim, sent, m, Ready) && Account(connected, lim, Skip(sent, row), m, Missed)
    ensures Account(connected, lim, Refuse(pr), n, Missed) && Account(connected, lim, Skip(Refuse(pr), row), n, Missed)
    ensures !connected ==> Account(connected, lim, Skip(pr, row), n, Missed)
  {
    AccountChunk(connected, lim, pr, n);
    if connected {
      AccountRow(connected, lim, Deliver(pr), n + |pr.chunk|, row);
      AccountSkip(connected, lim, Refuse(pr), n, row);
    }
  }

  lemma AccountRow(connected: bool, lim: Limits, pr: Progress<Row>, n: nat, row: Sized<Row>)
    requires Account(connected, lim, pr, n, Ready)
    ensures Account(connected, lim, Enter(pr, row), n, Gathered) && Account(connected, lim, Skip(pr, row), n, Missed)
  {
    if connected {
      Entering(lim, pr, n, row);
      Skipping(lim, pr, n, row);
    }
  }

  lemma AccountSkip(connected: bool, lim: Limits, pr: Progress<Row>, n: nat, row: Sized<Row>)
    requires Account(connected, lim, pr, n, Missed)
    ensures Account(connected, lim, Skip(pr, row), n, Missed)
  {
    if connected { Skipping(lim, pr, n, row); }
  }

  lemma AccountRest(connected: bool, lim: Limits, pr: Progress<Row>, n: nat, batch: seq<Sized<Row>>)
    requires Account(connected, lim, pr, n, Missed) && pr.rows <= batch
    ensures Account(connected, lim, pr.(rows := batch), n, Missed)
  {
    if connected { SkippingRest(lim, pr, n, batch); }
  }

  /** The request being built: its records, their running count and bytes, and
      whether the last of them is open for attributes. */
  datatype Request = Request(count: nat, bytes: nat, records: seq<Row>, open: bool)

  const EMPTY := Request(0, REQUEST_OVERHEAD, [], false)

  /** The request holds the records of the chunk. */
  ghost predicate Builds(lim: Limits, chunk: seq<Sized<Row>>, req: Request)
  {
    match req
    case Request(count, bytes, records, _) => count == |chunk| && bytes == Bytes(lim, chunk) && records == Rows(chunk)
  }

  /** The same, with one more record of which the given attributes are done. */
  ghost predicate Fills(lim: Limits, chunk: seq<Sized<Row>>, done: Row, req: Request)
  {
    match req
    case Request(count, bytes, records, open) =>
      && open && count == |chunk| + 1 && bytes == Bytes(lim, chunk) + RowBytes(done)
      && records == Rows(chunk) + [Recorded(done)]
  }

  function OpenRecord(req: Request): Request
  {
    Request(req.count + 1, req.bytes + RECORD_OVERHEAD, req.records + [[]], true)
  }

  function AddAttr(req: Request, a: Attr): Request
    requires req.records != []
  {
    var last := |req.records| - 1;
    req.(bytes := req.bytes + AttrBytes(a), records := req.records[last := req.records[last] + NonZero(a)])
  }

  lemma BuildsNothing(lim: Limits)
    requires lim.overhead == REQUEST_OVERHEAD
    ensures Builds(lim, [], EMPTY)
  {
  }

  lemma Opening(lim: Limits, chunk: seq<Sized<Row>>, req: Request)
    requires Builds(lim, chunk, req)
    ensures Fills(lim, chunk, [], OpenRecord(req))
  {
  }

  lemma Filling(lim: Limits, chunk: seq<Sized<Row>>, done: Row, req: Request, a: Attr)
    requires Fills(lim, chunk, done, req)
    ensures req.records != [] && Fills(lim, chunk, done + [a], AddAttr(req, a))
  {
    assert (done + [a])[..|done|] == done;
  }

  lemma ClosingRow(lim: Limits, chunk: seq<Sized<Row>>, row: Row, req: Request)
    requires Fills(lim, chunk, row, req)
    ensures Builds(lim, chunk + [Weigh(row)], req)
  {
    EnteringBytes(lim, chunk, Weigh(row));
  }

  class Exporter {
    var connected: bool
    var maxRecords: nat
    var maxBytes: nat
    var exported: nat
    var failed: bool
    var request: Request
    ghost var log: Log<Row>
    /** The rows of the batch and what became of them; the limits in force. */
    ghost var pr: Progress<Row>
    ghost var lim: Limits

    ghost predicate Configured()
      reads this
    {
      && maxRecords >= 1 && maxBytes >= MIN_BYTES_PER_RECORD
      && lim == Limits(Some(maxRecords), maxBytes, REQUEST_OVERHEAD) && Roomy(lim)
    }

    /** What this batch has sent is what its account says. */
    ghost predicate Sends()
      reads this
    {
      Logged(log, pr.delivered, pr.refused)
    }

    /** Between two rows of a batch. */
    ghost predicate Valid()
      reads this
    {
      && Configured() && Sends() && Account(connected, lim, pr, exported, if failed then Missed else Gathered)
      && (failed ==> connected && !request.open)
      && (!failed ==> Builds(lim, pr.chunk, request))
    }

    /** The current row has the given attributes so far. */
    ghost predicate AtRow(done: Row)
      reads this
    {
      && Configured()
      && if failed then !request.open else Fills(lim, pr.chunk, done, request)
    }

    constructor ()
      ensures Configured() && !connected && exported == 0 && !failed && log.wire == []
    {
      request, log := EMPTY, Log([], []);
      connected, maxRecords, maxBytes := false, 1, MIN_BYTES_PER_RECORD;
      exported, failed := 0, false;
      pr := Progress([], [], [], []);
      lim := Limits(Some(1), MIN_BYTES_PER_RECORD, REQUEST_OVERHEAD);
    }

    /** The limits of ConfigureLogExport: at least one record and room for it,
        and no more records than fit at their least size. */
    method Configure(batchSize: nat, logMaxBytes: nat)
      modifies this`maxBytes, this`maxRecords, this`lim
      ensures Configured()
      ensures maxBytes >= logMaxBytes && (logMaxBytes >= MIN_BYTES_PER_RECORD ==> maxBytes == logMaxBytes)
      ensures maxBytes == Max(logMaxBytes, MIN_BYTES_PER_RECORD)
      ensures maxRecords == Max(1, Min(batchSize, maxBytes / MIN_BYTES_PER_RECORD))
      ensures maxRecords * MIN_BYTES_PER_RECORD <= maxBytes && (batchSize >= 1 ==> maxRecords <= batchSize)
    {
      maxBytes := if logMaxBytes > MIN_BYTES_PER_RECORD then logMaxBytes else MIN_BYTES_PER_RECORD;
      var fit := maxBytes / MIN_BYTES_PER_RECORD;
      var n := if batchSize < fit then batchSize else fit;
      maxRecords := if n > 1 then n else 1;
      lim := Limits(Some(maxRecords), maxBytes, REQUEST_OVERHEAD);
    }

    /** EstablishNewConnection: with a connection come its limits. */
    method Establish(connects: bool, batchSize: nat, logMaxBytes: nat)
      modifies this`maxBytes, this`maxRecords, this`lim, this`connected
      ensures Configured() && connected == connects && (batchSize >= 1 ==> maxRecords <= batchSize)
    {
      Configure(batchSize, logMaxBytes);
      connected := connects;
    }

    method ResetChunk()
      modifies this`request, this`pr
      ensures request == EMPTY && pr == old(pr).(chunk := [])
    {
      request := EMPTY;
      pr := pr.(chunk := []);
    }

    method BeginBatch()
      requires Configured()
      modifies this
      ensures Valid() && !failed && pr == Progress([], [], [], []) && connected == old(connected) && lim == old(lim)
      ensures log == Marked(old(log))
    {
      LogStart(log);
      log := Marked(log);
      exported, failed := 0, false;
      pr := Progress([], [], [], []);
      ResetChunk();
      BuildsNothing(lim);
      Starting(lim, pr);
    }

    predicate ChunkFull()
      reads this
    {
      request.count >= maxRecords || request.bytes >= maxBytes
    }

    /** Send the chunk; without a connection or without records there is nothing to do. */
    method FlushChunk(send: Send) returns (ok: bool, thrown: bool)
      requires Builds(lim, pr.chunk, request) && Sends() && (connected ==> pr.refused == [])
      modifies this`exported, this`request, this`log, this`pr
      ensures Sends() && log.mark == old(log.mark)
      ensures if !connected || old(pr.chunk) == [] then
                ok && !thrown && pr == old(pr) && exported == old(exported)
              else if send == Delivers then
                ok && !thrown && pr == Deliver(old(pr)) && exported == old(exported) + |old(pr.chunk)|
              else
                !ok && (thrown <==> send == Throws) && pr == Refuse(old(pr)) && exported == old(exported) && (!thrown ==> !request.open)
    {
      if !connected || request.count == 0 { return true, false; }
      LogChunk(log, pr.delivered, pr.chunk);
      log := Posted(log, Parcel(request.records, send == Delivers));
      if send != Delivers { pr := Refuse(pr); }
      if send == Throws { return false, true; }
      request := request.(records := [], open := false);
      if send == Delivers {
        exported := exported + request.count;
        request := request.(count := 0, bytes := 0);
        pr := Deliver(pr);
        return true, false;
      }
      return false, false;
    }

    /** The full chunk is sent, with a row to follow. */
    method FlushFull(send: Send, ghost row: Sized<Row>) returns (ok: bool, thrown: bool)
      requires Valid() && !failed && Full(lim, pr.chunk)
      modifies this`exported, this`request, this`log, this`pr
      ensures Sends() && log.mark == old(log.mark) && pr.rows == old(pr.rows)
      ensures Account(connected, lim, Skip(pr, row), exported, Missed)
      ensures if ok then !thrown && Account(connected, lim, pr.(chunk := []), exported, Ready)
              else thrown || (connected && !request.open && Account(connected, lim, pr, exported, Missed))
      ensures send == Delivers ==> ok
    {
      FullNotEmpty(lim, pr.chunk);
      AccountFull(connected, lim, pr, exported, row);
      ok, thrown := FlushChunk(send);
    }

    /** The full chunk is sent and a new one begun, or the batch has failed, or
        an exception ends it before `row`. */
    method ReplaceChunk(send: Send, resets: bool, ghost row: Sized<Row>) returns (ok: bool, thrown: bool)
      requires Valid() && !failed && Full(lim, pr.chunk)
      modifies this`exported, this`failed, this`request, this`log, this`pr
      ensures Sends() && log.mark == old(log.mark)
      ensures ok ==> !thrown && !failed && Builds(lim, pr.chunk, request)
      ensures ok ==> Account(connected, lim, pr, exported, Ready)
      ensures !ok && !thrown ==> failed && connected && !request.open && Account(connected, lim, pr, exported, Missed)
      ensures thrown ==> Account(connected, lim, Skip(pr, row), exported, Missed)
      ensures pr.rows == old(pr.rows) && (send == Delivers && resets ==> ok)
    {
      ok, thrown := FlushFull(send, row);
      if !ok {
        failed := !thrown;
      } else if !resets {
        ok, thrown := false, true;
      } else {
        ResetChunk();
        BuildsNothing(lim);
      }
    }

    method BeginRow(send: Send, resets: bool, ghost row: Sized<Row>) returns (thrown: bool)
      requires Valid()
      modifies this`exported, this`failed, this`request, this`log, this`pr
      ensures Sends() && log.mark == old(log.mark)
      ensures !thrown ==> AtRow([]) && (failed ==> connected) &&
                          Account(connected, lim, pr, exported, if failed then Missed else Ready)
      ensures thrown ==> Account(connected, lim, Skip(pr, row), exported, Missed)
      ensures pr.rows == old(pr.rows) && (send == Delivers && resets && !old(failed) ==> !thrown && !failed)
    {
      if failed { return false; }
      assert ChunkFull() <==> Full(lim, pr.chunk);
      if ChunkFull() {
        var ok;
        ok, thrown := ReplaceChunk(send, resets, row);
        if !ok { return; }
      } else {
        AccountChunk(connected, lim, pr, exported);
      }
      Opening(lim, pr.chunk, request);
      request := OpenRecord(request);
      thrown := false;
    }

    /** A column's Append. */
    method Append(ghost done: Row, a: Attr)
      requires AtRow(done)
      modifies this`request
      ensures AtRow(done + [a])
    {
      if !request.open { return; }
      Filling(lim, pr.chunk, done, request, a);
      request := AddAttr(request, a);
    }

    method AppendAll(row: Row)
      requires AtRow([])
      modifies this`request
      ensures AtRow(row)
    {
      for i := 0 to |row|
        invariant AtRow(row[..i])
      {
        Append(row[..i], row[i]);
        assert row[..i] + [row[i]] == row[..i + 1];
      }
      assert row[..|row|] == row;
    }

    /** One row of ExportEventStatsInternal. */
    method AddRow(row: Row, luck: RowLuck) returns (thrown: bool)
      requires Valid()
      modifies this`exported, this`failed, this`request, this`log, this`pr
      ensures Sends() && log.mark == old(log.mark) && pr.rows == old(pr.rows) + [Weigh(row)]
      ensures if thrown then Account(connected, lim, pr, exported, Missed) else Valid()
      ensures Fine(luck, row) && !old(failed) ==> !thrown && !failed
    {
      ghost var w := Weigh(row);
      thrown := BeginRow(luck.send, luck.resets, w);
      if thrown {
        pr := Skip(pr, w);
        return;
      }
      thrown := luck.appends <= |row|;
      if failed {
        AccountSkip(connected, lim, pr, exported, w);
        pr := Skip(pr, w);
      } else {
        AccountRow(connected, lim, pr, exported, w);
        if thrown {
          pr := Skip(pr, w);
          return;
        }
        AppendAll(row);
        ClosingRow(lim, pr.chunk, row, request);
        pr := Enter(pr, w);
      }
    }

    /** The last chunk is sent; without rows there is none. */
    method FlushLast(send: Send) returns (ok: bool)
      requires Valid() && connected && !failed
      modifies this`exported, this`request, this`log, this`pr
      ensures Sends() && log.mark == old(log.mark) && pr.rows == old(pr.rows)
      ensures Account(connected, lim, pr, exported, if ok then Complete else Missed)
      ensures ok <==> send == Delivers || old(pr.rows) == []
      ensures !ok ==> LastMissing(lim, pr)
    {
      AccountLast(lim, pr, exported);
      var thrown;
      ok, thrown := FlushChunk(send);
    }

    /** Without a connection the rows are dropped and the commit succeeds. */
    method CommitBatch(send: Send) returns (ok: bool)
      requires Valid()
      modifies this`exported, this`request, this`log, this`pr
      ensures Sends() && log.mark == old(log.mark)
      ensures Account(connected, lim, pr, exported, if ok then Complete else Missed)
      ensures ok <==> !failed && (!connected || send == Delivers || old(pr.rows) == [])
      ensures !ok && !failed ==> LastMissing(lim, pr)
      ensures pr.rows == old(pr.rows)
    {
      if failed { return false; }
      if !connected { return true; }
      ok := FlushLast(send);
    }
  }

  // ------------------------------------------------------------------
  // A whole batch
  // ------------------------------------------------------------------

  /** The rows of the account are the records of the batch. */
  lemma WeighedRows(batch: seq<Row>)
    ensures Rows(WeighAll(batch)) == RecordedAll(batch)
  {
  }

  /** How a batch handed to the exporter ends. */
  datatype Outcome = Committed | Failed | Aborted

  /** The loop of ExportEventStats. */
  method AddRows(exp: Exporter, batch: seq<Row>, lucks: seq<RowLuck>) returns (thrown: bool)
    requires exp.Configured() && |lucks| >= |batch|
    modifies exp
    ensures exp.connected == old(exp.connected) && exp.lim == old(exp.lim) && exp.Configured()
    ensures exp.pr.rows == WeighAll(batch) && exp.Sends() && exp.log.mark == old(exp.log.wire)
    ensures !thrown ==> exp.Valid()
    ensures thrown ==> Account(exp.connected, exp.lim, exp.pr, exp.exported, Missed)
    ensures AllFine(lucks, batch) ==> !thrown && !exp.failed
  {
    ghost var all := WeighAll(batch);
    exp.BeginBatch();
    for i := 0 to |batch|
      invariant exp.Valid() && exp.pr.rows == all[..i]
      invariant exp.connected == old(exp.connected) && exp.lim == old(exp.lim) && exp.log.mark == old(exp.log.wire)
      invariant AllFine(lucks, batch) ==> !exp.failed
    {
      thrown := exp.AddRow(batch[i], lucks[i]);
      OneMore(all, i);
      if thrown {
        AccountRest(exp.connected, exp.lim, exp.pr, exp.exported, all);
        exp.pr := exp.pr.(rows := all);
        return;
      }
    }
    assert all[..|all|] == all;
    thrown := false;
  }

  /** ExportEventStats and CommitBatch, with `lucks` and `commit` deciding what
      goes wrong. The chunks delivered are the first ones of the batch cut up,
      and all of them exactly if the commit succeeds. */
  method ExportBatch(exp: Exporter, batch: seq<Row>, lucks: seq<RowLuck>, commit: Send) returns (outcome: Outcome)
    requires exp.Configured() && |lucks| >= |batch|
    modifies exp
    ensures exp.connected == old(exp.connected) && exp.lim == old(exp.lim) && exp.Configured()
    ensures exp.pr.rows == WeighAll(batch) && exp.log.wire == old(exp.log.wire) + Parcels(exp.pr.delivered, exp.pr.refused)
    ensures Account(exp.connected, exp.lim, exp.pr, exp.exported, if outcome.Committed? then Complete else Missed)
    ensures outcome.Failed? ==> exp.connected
    ensures AllFine(lucks, batch) && commit == Delivers ==> outcome.Committed?
    ensures exp.connected && AllFine(lucks, batch) && commit != Delivers && batch != [] ==>
              outcome.Failed? && LastMissing(exp.lim, exp.pr)
  {
    var thrown := AddRows(exp, batch, lucks);
    if thrown { return Aborted; }
    var ok := exp.CommitBatch(commit);
    return if ok then Committed else Failed;
  }

  /** Connected, what a batch delivers is within the limits and in order, and the
      count the exporter reports is the whole batch exactly if it commits. */
  lemma ConnectedBatch(lim: Limits, pr: Progress<Row>, n: nat, committed: bool)
    requires Roomy(lim) && Stands(lim, pr, n, if committed then Complete else Missed)
    ensures committed <==> n == |pr.rows|
    ensures Flat(pr.delivered) <= pr.rows && n == |Flat(pr.delivered)|
    ensures forall k | 0 <= k < |pr.delivered| :: Fits(lim, pr.delivered[k])
  {
    EitherSent(lim, pr, n);
    CountTells(lim, pr, n, committed);
    DeliveredChunks(lim, pr, n);
  }
}
