/** Exporting a batch as Arrow IPC blocks: rows are appended to a builder that
    is sent whenever its estimated size has reached the limit, and once more at
    the end. */
module ArrowExporter {
  import opened Events
  import opened Chunking

  const FIXED_BYTES_PER_ROW: nat := 512
  const IPC_ENVELOPE: nat := 1024
  const MIN_BLOCK_BYTES: nat := 65536

  /** The variable-length fields of an event and the extra attributes. */
  type Row = seq<string>

  function TextBytes(row: Row): nat
  {
    if row == [] then 0 else |row[0]| + TextBytes(row[1..])
  }

  /** The fields, one after the other. */
  function Joined(row: Row): string
  {
    if row == [] then "" else Joined(row[..|row| - 1]) + row[|row| - 1]
  }

  /** The estimate counts every byte of every field once. */
  lemma {:induction false} TextBytesIsLength(row: Row)
    ensures TextBytes(row) == |Joined(row)|
  {
    if row != [] {
      var n := |row| - 1;
      TextBytesIsLength(row[..n]);
      TextBytesLast(row[..n], row[n]);
      assert row == row[..n] + [row[n]];
    }
  }

  lemma {:induction false} TextBytesLast(row: Row, text: string)
    ensures TextBytes(row + [text]) == TextBytes(row) + |text|
  {
    if row != [] {
      TextBytesLast(row[1..], text);
      assert (row + [text])[1..] == row[1..] + [text];
    }
  }

  function Weigh(row: Row): Sized<Row> { Sized(row, FIXED_BYTES_PER_ROW + TextBytes(row)) }

  function WeighAll(rows: seq<Row>): (r: seq<Sized<Row>>)
    ensures |r| == |rows| && forall i | 0 <= i < |rows| :: r[i] == Weigh(rows[i])
  {
    seq(|rows|, i requires 0 <= i < |rows| => Weigh(rows[i]))
  }

  lemma WeighedRows(batch: seq<Row>)
    ensures Rows(WeighAll(batch)) == batch
  {
  }

  function BlockLimits(maxBlockBytes: nat): Limits
  {
    Limits(None, if maxBlockBytes > MIN_BLOCK_BYTES then maxBlockBytes else MIN_BLOCK_BYTES, IPC_ENVELOPE)
  }

  /** How a batch goes on: well, with a reported failure, or with an exception. */
  datatype Outcome = Done | Failed | Aborted

  /** What becomes of a block: the backend takes it or refuses it, or it is not
      finished, or an exception comes before it is handed over. */
  datatype Flush = Taken | Refused | Unfinished | Throws

  function OutcomeOf(flush: Flush): Outcome
  {
    match flush
    case Taken => Done
    case Throws => Aborted
    case _ => Failed
  }

  /** How a row's append goes and, should the block be sent after it, what becomes
      of the block. */
  datatype Luck = Luck(append: Outcome, flush: Flush)

  /** What a builder holds: the rows appended since the last reset, their number
      and their estimated size. */
  datatype Held = Held(numRows: nat, bytes: nat, rows: seq<Row>)

  const EMPTY := Held(0, IPC_ENVELOPE, [])

  /** The builder holds the rows of the chunk. */
  ghost predicate Builds(lim: Limits, chunk: seq<Sized<Row>>, held: Held)
  {
    match held
    case Held(numRows, bytes, rows) => numRows == |chunk| && bytes == Bytes(lim, chunk) && rows == Rows(chunk)
  }

  lemma BuildsNothing(lim: Limits)
    requires lim.overhead == IPC_ENVELOPE
    ensures Builds(lim, [], EMPTY)
  {
  }

  lemma BuildsOn(lim: Limits, chunk: seq<Sized<Row>>, held: Held, row: Row)
    requires Builds(lim, chunk, held)
    ensures var bytes := held.bytes + FIXED_BYTES_PER_ROW + TextBytes(row);
            Builds(lim, chunk + [Weigh(row)], Held(held.numRows + 1, bytes, held.rows + [row]))
  {
    EnteringBytes(lim, chunk, Weigh(row));
  }

  lemma BuildsTells(lim: Limits, chunk: seq<Sized<Row>>, held: Held)
    requires Builds(lim, chunk, held)
    ensures held.numRows == |chunk| && held.rows == Rows(chunk)
  {
  }

  /** ArrowBatchBuilder. */
  class Builder {
    var held: Held

    constructor ()
      ensures held == EMPTY
    {
      held := EMPTY;
    }

    method Append(ghost lim: Limits, ghost chunk: seq<Sized<Row>>, row: Row, result: Outcome) returns (ok: bool)
      requires Builds(lim, chunk, held)
      modifies this
      ensures (ok <==> result == Done) && Builds(lim, if ok then chunk + [Weigh(row)] else chunk, held)
    {
      if result != Done { return false; }
      BuildsOn(lim, chunk, held, row);
      var bytes := FIXED_BYTES_PER_ROW;
      var i := 0;
      while i < |row|
        invariant 0 <= i <= |row| && bytes + TextBytes(row[i..]) == FIXED_BYTES_PER_ROW + TextBytes(row)
      {
        bytes := bytes + |row[i]|;
        assert row[i..][1..] == row[i + 1..];
        i := i + 1;
      }
      held := Held(held.numRows + 1, held.bytes + bytes, held.rows + [row]);
      return true;
    }

    method Reset()
      modifies this
      ensures held == EMPTY
    {
      held := EMPTY;
    }
  }

  /** OTelExporter::SendArrowBatch, with all that it ever sent. */
  class Sender {
    ghost var log: Log<Row>

    /** What this batch has sent is what its account says. */
    ghost predicate Sends(pr: Progress<Row>)
      reads this
    {
      Logged(log, pr.delivered, pr.refused)
    }

    constructor ()
      ensures log.wire == []
    {
      log := Log([], []);
    }

    ghost method Mark()
      modifies this
      ensures log == Marked(old(log)) && Sends(Progress([], [], [], []))
    {
      LogStart(log);
      log := Marked(log);
    }

    method SendArrowBatch(block: seq<Row>, taken: bool) returns (ok: bool)
      modifies this
      ensures ok == taken && log == Posted(old(log), Parcel(block, taken))
    {
      log := Posted(log, Parcel(block, taken));
      ok := taken;
    }
  }

  predicate AllFine(lucks: seq<Luck>)
  {
    forall i | 0 <= i < |lucks| :: lucks[i] == Luck(Done, Taken)
  }

  /** The chunk may be sent: so it stands if it is delivered, and otherwise it is
      missed. */
  ghost predicate Sendable(lim: Limits, pr: Progress<Row>, n: nat, how: Standing)
  {
    && Stands(lim, Deliver(pr), n + |pr.chunk|, how)
    && Stands(lim, Refuse(pr), n, Missed) && Stands(lim, pr, n, Missed)
  }

  /** The lambda flush_builder: finish the block and send it. */
  method FlushBuilder(builder: Builder, sender: Sender, ghost lim: Limits, flush: Flush, exported: nat,
                      ghost pr: Progress<Row>, ghost how: Standing)
    returns (exported': nat, outcome: Outcome, ghost pr': Progress<Row>)
    requires Builds(lim, pr.chunk, builder.held) && pr.chunk != [] && pr.refused == [] && sender.Sends(pr)
    requires Sendable(lim, pr, exported, how)
    modifies sender
    ensures outcome == OutcomeOf(flush) && sender.Sends(pr') && sender.log.mark == old(sender.log.mark)
    ensures pr'.rows == pr.rows && Stands(lim, pr', exported', if outcome.Done? then how else Missed)
    ensures if outcome.Done? then pr'.chunk == [] else pr'.delivered == pr.delivered
  {
    outcome, exported', pr' := OutcomeOf(flush), exported, pr;
    if flush == Unfinished || flush == Throws { return; }
    BuildsTells(lim, pr.chunk, builder.held);
    LogChunk(sender.log, pr.delivered, pr.chunk);
    var ok := sender.SendArrowBatch(builder.held.rows, flush == Taken);
    pr' := if ok then Deliver(pr) else Refuse(pr);
    if ok { exported' := exported + builder.held.numRows; }
  }

  /** ExportEventsAsArrowInternal. `lucks` decides what becomes of each row and
      `last` what becomes of the final block. Returns the rows exported, how the
      batch ended, and what became of the rows. */
  method ExportAsArrow(sender: Sender, batch: seq<Row>, maxBlockBytes: nat, lucks: seq<Luck>, last: Flush)
    returns (exported: nat, outcome: Outcome, ghost pr: Progress<Row>)
    requires |lucks| >= |batch|
    modifies sender
    ensures pr.rows == WeighAll(batch) && sender.log.wire == old(sender.log.wire) + Parcels(pr.delivered, pr.refused)
    ensures Stands(BlockLimits(maxBlockBytes), pr, exported, if outcome.Done? then Complete else Missed)
    ensures AllFine(lucks) && last == Taken ==> outcome.Done?
    ensures AllFine(lucks) && last == Refused && LastOpen(BlockLimits(maxBlockBytes), pr.rows) ==>
              outcome.Failed? && LastMissing(BlockLimits(maxBlockBytes), pr)
  {
    ghost var lim, all := BlockLimits(maxBlockBytes), WeighAll(batch);
    var maxBytes := if maxBlockBytes > MIN_BLOCK_BYTES then maxBlockBytes else MIN_BLOCK_BYTES;
    var builder := new Builder();
    sender.Mark();
    exported, outcome, pr := 0, Done, Progress([], [], [], []);
    Starting(lim, pr);
    BuildsNothing(lim);
    for i := 0 to |batch|
      invariant fresh(builder) && Builds(lim, pr.chunk, builder.held) && pr.rows == all[..i]
      invariant Stands(lim, pr, exported, Ready) && outcome == Done
      invariant sender.Sends(pr) && sender.log.mark == old(sender.log.wire)
    {
      exported, outcome, pr := ExportRow(builder, sender, lim, maxBytes, batch[i], lucks[i], exported, pr);
      OneMore(all, i);
      if outcome != Done {
        SkippingRest(lim, pr, exported, all);
        pr := pr.(rows := all);
        return;
      }
    }
    assert all[..|all|] == all;
    exported, outcome, pr := FlushLast(builder, sender, lim, last, exported, pr);
  }

  /** What is left after the last row. */
  method FlushLast(builder: Builder, sender: Sender, ghost lim: Limits, last: Flush, exported: nat, ghost pr: Progress<Row>)
    returns (exported': nat, outcome: Outcome, ghost pr': Progress<Row>)
    requires Builds(lim, pr.chunk, builder.held) && Stands(lim, pr, exported, Ready) && sender.Sends(pr)
    modifies sender
    ensures pr'.rows == pr.rows && sender.Sends(pr') && sender.log.mark == old(sender.log.mark)
    ensures Stands(lim, pr', exported', if outcome.Done? then Complete else Missed)
    ensures last == Taken ==> outcome.Done?
    ensures last == Refused && LastOpen(lim, pr.rows) ==> outcome.Failed? && LastMissing(lim, pr')
  {
    Closing(lim, pr, exported);
    ReadyButLast(lim, pr, exported);
    BuildsTells(lim, pr.chunk, builder.held);
    exported', outcome, pr' := exported, Done, pr;
    if builder.held.numRows > 0 {
      exported', outcome, pr' := FlushBuilder(builder, sender, lim, last, exported, pr, Complete);
    }
  }

  /** Where the batch stands once a row is in the builder: sent or not. */
  lemma RowEntered(lim: Limits, pr: Progress<Row>, n: nat, row: Sized<Row>, held: Held)
    requires Stands(lim, pr, n, Ready) && lim.maxRecords == None && Builds(lim, pr.chunk + [row], held)
    ensures var next := Enter(pr, row);
            && next.refused == []
            && if held.bytes >= lim.maxBytes then Sendable(lim, next, n, Ready) else Stands(lim, next, n, Ready)
  {
    Entering(lim, pr, n, row);
    Delivering(lim, Enter(pr, row), n);
  }

  lemma RowMissed(lim: Limits, pr: Progress<Row>, n: nat, row: Sized<Row>)
    requires Stands(lim, pr, n, Ready)
    ensures Stands(lim, Enter(pr, row), n, Missed)
  {
    Entering(lim, pr, n, row);
    Delivering(lim, Enter(pr, row), n);
  }

  /** One turn of the loop: append the row and send the block if it is full. */
  method ExportRow(builder: Builder, sender: Sender, ghost lim: Limits, maxBytes: nat, row: Row, luck: Luck, exported: nat,
                   ghost pr: Progress<Row>)
    returns (exported': nat, outcome: Outcome, ghost pr': Progress<Row>)
    requires lim.maxRecords == None && lim.maxBytes == maxBytes && lim.overhead == IPC_ENVELOPE
    requires Builds(lim, pr.chunk, builder.held) && Stands(lim, pr, exported, Ready) && sender.Sends(pr)
    modifies builder, sender
    ensures pr'.rows == pr.rows + [Weigh(row)] && sender.Sends(pr') && sender.log.mark == old(sender.log.mark)
    ensures outcome.Done? ==> Builds(lim, pr'.chunk, builder.held)
    ensures Stands(lim, pr', exported', if outcome.Done? then Ready else Missed)
    ensures luck == Luck(Done, Taken) ==> outcome.Done?
  {
    exported', outcome, pr' := exported, luck.append, Enter(pr, Weigh(row));
    var ok := builder.Append(lim, pr.chunk, row, luck.append);
    if !ok {
      RowMissed(lim, pr, exported, Weigh(row));
      return;
    }
    RowEntered(lim, pr, exported, Weigh(row), builder.held);
    if builder.held.bytes >= maxBytes {
      exported', outcome, pr' := FlushBuilder(builder, sender, lim, luck.flush, exported, pr', Ready);
      if outcome.Done? {
        builder.Reset();
        BuildsNothing(lim);
      }
    }
  }

  /** Blocks delivered are within the limit and in order, and the count is the
      whole batch exactly if nothing went wrong. */
  lemma ArrowBatch(maxBlockBytes: nat, pr: Progress<Row>, n: nat, done: bool)
    requires Stands(BlockLimits(maxBlockBytes), pr, n, if done then Complete else Missed)
    ensures done <==> n == |pr.rows|
    ensures Flat(pr.delivered) <= pr.rows && n == |Flat(pr.delivered)|
    ensures forall k | 0 <= k < |pr.delivered| :: Fits(BlockLimits(maxBlockBytes), pr.delivered[k])
  {
    EitherSent(BlockLimits(maxBlockBytes), pr, n);
    CountTells(BlockLimits(maxBlockBytes), pr, n, done);
    DeliveredChunks(BlockLimits(maxBlockBytes), pr, n);
  }
}
