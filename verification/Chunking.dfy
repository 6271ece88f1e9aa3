/** Cutting a batch of rows into chunks, as a function: a row opens a new chunk
    exactly when there is none yet or the last one is full. */
module Chunking {
  import opened Events

  /** The limits of a chunk, and what an empty one is taken to weigh. */
  datatype Limits = Limits(maxRecords: Option<nat>, maxBytes: nat, overhead: nat)

  /** A row and its estimated size. */
  datatype Sized<T> = Sized(row: T, bytes: nat)

  function Bytes<T>(lim: Limits, chunk: seq<Sized<T>>): nat
  {
    if chunk == [] then lim.overhead else Bytes(lim, chunk[..|chunk| - 1]) + chunk[|chunk| - 1].bytes
  }

  lemma {:induction false} BytesConcat<T>(lim: Limits, a: seq<Sized<T>>, b: seq<Sized<T>>)
    ensures Bytes(lim, a + b) - lim.overhead == (Bytes(lim, a) - lim.overhead) + (Bytes(lim, b) - lim.overhead)
  {
    if b == [] {
      assert a + b == a;
    } else {
      BytesConcat(lim, a, b[..|b| - 1]);
      assert (a + b)[..|a + b| - 1] == a + b[..|b| - 1];
    }
  }

  predicate Full<T>(lim: Limits, chunk: seq<Sized<T>>)
  {
    (lim.maxRecords.Some? && |chunk| >= lim.maxRecords.value) || Bytes(lim, chunk) >= lim.maxBytes
  }

  function Add<T>(lim: Limits, chunks: seq<seq<Sized<T>>>, row: Sized<T>): seq<seq<Sized<T>>>
  {
    if chunks == [] || Full(lim, chunks[|chunks| - 1]) then chunks + [[row]]
    else chunks[..|chunks| - 1] + [chunks[|chunks| - 1] + [row]]
  }

  function Cut<T>(lim: Limits, rows: seq<Sized<T>>): seq<seq<Sized<T>>>
  {
    if rows == [] then [] else Add(lim, Cut(lim, rows[..|rows| - 1]), rows[|rows| - 1])
  }

  function Flat<T>(chunks: seq<seq<Sized<T>>>): seq<Sized<T>>
  {
    if chunks == [] then [] else Flat(chunks[..|chunks| - 1]) + chunks[|chunks| - 1]
  }

  // ------------------------------------------------------------------
  // What the cut is good for
  // ------------------------------------------------------------------

  /** Limits that leave an empty chunk room for a row. */
  predicate Roomy(lim: Limits)
  {
    lim.overhead < lim.maxBytes && (lim.maxRecords.Some? ==> lim.maxRecords.value >= 1)
  }

  lemma FullNotEmpty<T>(lim: Limits, chunk: seq<Sized<T>>)
    requires Roomy(lim) && Full(lim, chunk)
    ensures chunk != []
  {
  }

  lemma OneMore<T>(rows: seq<T>, i: nat)
    requires i < |rows|
    ensures rows[..i] + [rows[i]] == rows[..i + 1]
  {
  }

  /** A chunk that may be sent: not empty, within the record limit, and over the
      byte limit by less than its last row. */
  predicate Fits<T>(lim: Limits, chunk: seq<Sized<T>>)
  {
    && 0 < |chunk| && (lim.maxRecords.Some? ==> |chunk| <= lim.maxRecords.value)
    && Bytes(lim, chunk) < lim.maxBytes + chunk[|chunk| - 1].bytes
  }

  lemma FlatAppend<T>(chunks: seq<seq<Sized<T>>>, c: seq<Sized<T>>)
    ensures Flat(chunks + [c]) == Flat(chunks) + c
  {
    assert (chunks + [c])[..|chunks|] == chunks;
  }

  lemma AddFlat<T>(lim: Limits, chunks: seq<seq<Sized<T>>>, row: Sized<T>)
    ensures Flat(Add(lim, chunks, row)) == Flat(chunks) + [row]
  {
    if chunks == [] || Full(lim, chunks[|chunks| - 1]) {
      FlatAppend(chunks, [row]);
    } else {
      var init, last := chunks[..|chunks| - 1], chunks[|chunks| - 1];
      FlatAppend(init, last + [row]);
      assert Flat(init) + (last + [row]) == Flat(init) + last + [row];
    }
  }

  /** The chunks are the rows, in order, each once. */
  lemma {:induction false} CutFlat<T>(lim: Limits, rows: seq<Sized<T>>)
    ensures Flat(Cut(lim, rows)) == rows
  {
    if rows != [] {
      CutFlat(lim, rows[..|rows| - 1]);
      AddFlat(lim, Cut(lim, rows[..|rows| - 1]), rows[|rows| - 1]);
      assert rows == rows[..|rows| - 1] + [rows[|rows| - 1]];
    }
  }

  lemma FitsExtended<T>(lim: Limits, chunk: seq<Sized<T>>, row: Sized<T>)
    requires !Full(lim, chunk)
    ensures Fits(lim, chunk + [row])
  {
    assert (chunk + [row])[..|chunk|] == chunk;
  }

  /** Every chunk fits, and every chunk but the last has as many records as allowed
      or has reached the byte limit. */
  lemma {:induction false} CutFits<T>(lim: Limits, rows: seq<Sized<T>>, k: nat)
    requires k < |Cut(lim, rows)| && Roomy(lim)
    ensures Fits(lim, Cut(lim, rows)[k])
    ensures var c := Cut(lim, rows)[k];
            k < |Cut(lim, rows)| - 1 ==> lim.maxRecords == Some(|c|) || Bytes(lim, c) >= lim.maxBytes
  {
    var c, row := Cut(lim, rows[..|rows| - 1]), rows[|rows| - 1];
    if k < |c| {
      CutFits(lim, rows[..|rows| - 1], k);
      if k == |c| - 1 && !Full(lim, c[k]) { FitsExtended(lim, c[k], row); }
    } else {
      assert Cut(lim, rows)[k] == [] + [row];
      FitsExtended(lim, [], row);
    }
  }

  lemma {:induction false} CutNonEmpty<T>(lim: Limits, rows: seq<Sized<T>>, k: nat)
    requires k < |Cut(lim, rows)|
    ensures Cut(lim, rows)[k] != []
  {
    if k < |Cut(lim, rows[..|rows| - 1])| { CutNonEmpty(lim, rows[..|rows| - 1], k); }
  }

  /** Any first chunks carry a prefix of the rows, all of them or fewer. */
  lemma {:induction false} FlatPrefix<T>(chunks: seq<seq<Sized<T>>>, k: nat)
    requires k <= |chunks| && forall i | 0 <= i < |chunks| :: chunks[i] != []
    ensures Flat(chunks[..k]) <= Flat(chunks)
    ensures Flat(chunks[..k]) == Flat(chunks) <==> k == |chunks|
    decreases |chunks| - k
  {
    if k < |chunks| {
      FlatPrefix(chunks, k + 1);
      assert chunks[..k + 1] == chunks[..k] + [chunks[k]];
      FlatAppend(chunks[..k], chunks[k]);
    } else {
      assert chunks[..k] == chunks;
    }
  }

  lemma CutAppend<T>(lim: Limits, rows: seq<Sized<T>>, row: Sized<T>)
    ensures Cut(lim, rows + [row]) == Add(lim, Cut(lim, rows), row)
  {
    assert (rows + [row])[..|rows|] == rows;
  }

  /** Chunks before the last do not change any more. */
  lemma CutStable<T>(lim: Limits, rows: seq<Sized<T>>, row: Sized<T>, k: nat)
    requires k < |Cut(lim, rows)|
    ensures k < |Cut(lim, rows + [row])| && Cut(lim, rows + [row])[..k] == Cut(lim, rows)[..k]
  {
    CutAppend(lim, rows, row);
  }

  /** Chunks that were complete after i rows are chunks of the whole batch, and
      not all of it if one more is under way. */
  lemma {:induction false} CutPrefix<T>(lim: Limits, batch: seq<Sized<T>>, i: nat, k: nat)
    requires i <= |batch| && k < |Cut(lim, batch[..i])|
    ensures k < |Cut(lim, batch)| && Cut(lim, batch)[..k] == Cut(lim, batch[..i])[..k]
    decreases |batch| - i
  {
    if i < |batch| {
      assert batch[..i + 1] == batch[..i] + [batch[i]];
      CutStable(lim, batch[..i], batch[i], k);
      CutPrefix(lim, batch, i + 1, k);
    } else {
      assert batch[..i] == batch;
    }
  }

  // ------------------------------------------------------------------
  // Where a batch stands
  // ------------------------------------------------------------------

  /** The rows offered, the chunks delivered, the chunk being filled, and the
      chunk handed over in vain, if any. */
  datatype Progress<T> = Progress(
    rows: seq<Sized<T>>, delivered: seq<seq<Sized<T>>>, chunk: seq<Sized<T>>, refused: seq<Sized<T>>)

  /** Sent: the chunks delivered are the first ones of the rows cut up, and the
      rows handed over are a prefix of the batch.
      Missed: the same, but not all chunks. Complete: all of them.
      Gathered: the chunk being filled is the last one of the rows cut up.
      Ready: the next row goes into the chunk being filled, or opens a new one. */
  datatype Standing = Sent | Missed | Complete | Gathered | Ready

  /** How a batch of which n rows were delivered stands. */
  ghost predicate Stands<T>(lim: Limits, pr: Progress<T>, n: nat, how: Standing)
  {
    match how
    case Sent =>
      && n == |Flat(pr.delivered)| && Flat(pr.delivered) + pr.refused <= pr.rows
      && |pr.delivered| <= |Cut(lim, pr.rows)| && pr.delivered == Cut(lim, pr.rows)[..|pr.delivered|]
    case Missed =>
      && n == |Flat(pr.delivered)| && Flat(pr.delivered) + pr.refused <= pr.rows
      && |pr.delivered| < |Cut(lim, pr.rows)| && pr.delivered == Cut(lim, pr.rows)[..|pr.delivered|]
    case Complete => n == |Flat(pr.delivered)| && pr.delivered == Cut(lim, pr.rows) && pr.refused == []
    case Gathered =>
      && n == |Flat(pr.delivered)| && pr.refused == []
      && (if pr.chunk == [] then pr.delivered == [] && Cut(lim, pr.rows) == []
          else Cut(lim, pr.rows) == pr.delivered + [pr.chunk])
    case Ready =>
      && n == |Flat(pr.delivered)| && pr.refused == []
      && (if pr.chunk == [] then
            Cut(lim, pr.rows) == pr.delivered &&
            (pr.delivered == [] || Full(lim, pr.delivered[|pr.delivered| - 1]))
          else Cut(lim, pr.rows) == pr.delivered + [pr.chunk] && !Full(lim, pr.chunk))
  }

  /** Every chunk was delivered but the last. */
  ghost predicate LastMissing<T>(lim: Limits, pr: Progress<T>)
  {
    var all := Cut(lim, pr.rows);
    all != [] && pr.delivered == all[..|all| - 1]
  }

  lemma GatheredButLast<T>(lim: Limits, pr: Progress<T>, n: nat)
    requires Stands(lim, pr, n, Gathered) && pr.rows != []
    ensures pr.chunk != [] && LastMissing(lim, pr)
  {
    CutFlat(lim, pr.rows);
  }

  lemma NoRowsNoChunk<T>(lim: Limits, pr: Progress<T>, n: nat)
    requires Stands(lim, pr, n, Gathered) && pr.rows == []
    ensures pr.chunk == []
  {
  }

  /** The last chunk of the rows is not full yet. */
  ghost predicate LastOpen<T>(lim: Limits, rows: seq<Sized<T>>)
  {
    var all := Cut(lim, rows);
    all != [] && !Full(lim, all[|all| - 1])
  }

  lemma ReadyButLast<T>(lim: Limits, pr: Progress<T>, n: nat)
    requires Stands(lim, pr, n, Ready)
    ensures pr.refused == [] && (LastOpen(lim, pr.rows) ==> pr.chunk != [] && LastMissing(lim, pr))
  {
  }

  function Deliver<T>(pr: Progress<T>): Progress<T>
  {
    pr.(delivered := pr.delivered + [pr.chunk], chunk := [])
  }

  function Refuse<T>(pr: Progress<T>): Progress<T>
  {
    pr.(refused := pr.chunk)
  }

  function Enter<T>(pr: Progress<T>, row: Sized<T>): Progress<T>
  {
    pr.(rows := pr.rows + [row], chunk := pr.chunk + [row])
  }

  function Skip<T>(pr: Progress<T>, row: Sized<T>): Progress<T>
  {
    pr.(rows := pr.rows + [row])
  }

  // ------------------------------------------------------------------
  // What goes out
  // ------------------------------------------------------------------

  /** One send: the rows handed over, and whether they were taken. */
  datatype Parcel<T> = Parcel(rows: seq<T>, ok: bool)

  function Rows<T>(chunk: seq<Sized<T>>): (r: seq<T>)
    ensures |r| == |chunk| && forall i | 0 <= i < |chunk| :: r[i] == chunk[i].row
  {
    seq(|chunk|, i requires 0 <= i < |chunk| => chunk[i].row)
  }

  function TakenParcels<T>(delivered: seq<seq<Sized<T>>>): (r: seq<Parcel<T>>)
    ensures |r| == |delivered| && forall i | 0 <= i < |delivered| :: r[i] == Parcel(Rows(delivered[i]), true)
  {
    seq(|delivered|, i requires 0 <= i < |delivered| => Parcel(Rows(delivered[i]), true))
  }

  /** Chunks delivered one by one, then the one handed over in vain, if any. */
  function Parcels<T>(delivered: seq<seq<Sized<T>>>, refused: seq<Sized<T>>): seq<Parcel<T>>
  {
    TakenParcels(delivered) + if refused == [] then [] else [Parcel(Rows(refused), false)]
  }

  /** All that was ever sent, and what had been when the batch began. */
  datatype Log<T> = Log(wire: seq<Parcel<T>>, mark: seq<Parcel<T>>)

  function Marked<T>(log: Log<T>): Log<T> { Log(log.wire, log.wire) }

  function Posted<T>(log: Log<T>, parcel: Parcel<T>): Log<T> { log.(wire := log.wire + [parcel]) }

  /** Since its mark the wire has carried these chunks and nothing else. */
  ghost predicate Logged<T>(log: Log<T>, delivered: seq<seq<Sized<T>>>, refused: seq<Sized<T>>)
  {
    match log
    case Log(wire, mark) => wire == mark + Parcels(delivered, refused)
  }

  lemma LogStart<T>(log: Log<T>)
    ensures Logged(Marked(log), [], [])
  {
  }

  lemma LogChunk<T>(log: Log<T>, delivered: seq<seq<Sized<T>>>, chunk: seq<Sized<T>>)
    requires Logged(log, delivered, []) && chunk != []
    ensures Logged(Posted(log, Parcel(Rows(chunk), true)), delivered + [chunk], [])
    ensures Logged(Posted(log, Parcel(Rows(chunk), false)), delivered, chunk)
  {
    assert Parcels(delivered, []) + [Parcel(Rows(chunk), true)] == Parcels(delivered + [chunk], []);
    assert Parcels(delivered, []) + [Parcel(Rows(chunk), false)] == Parcels(delivered, chunk);
  }

  lemma Starting<T>(lim: Limits, pr: Progress<T>)
    requires pr == Progress([], [], [], [])
    ensures Stands(lim, pr, 0, Gathered) && Stands(lim, pr, 0, Ready)
  {
  }

  lemma NothingGathered<T>(lim: Limits, pr: Progress<T>, n: nat)
    requires Stands(lim, pr, n, Gathered) && pr.chunk == []
    ensures Stands(lim, pr, n, Ready) && Stands(lim, pr, n, Complete)
  {
  }

  /** The chunk being filled is delivered, or missed whether it is handed over or not. */
  lemma Delivering<T>(lim: Limits, pr: Progress<T>, n: nat)
    requires Stands(lim, pr, n, Gathered) && pr.chunk != []
    ensures Stands(lim, pr, n, Missed) && Stands(lim, Refuse(pr), n, Missed)
    ensures Stands(lim, Deliver(pr), n + |pr.chunk|, Complete)
    ensures Full(lim, pr.chunk) ==> Stands(lim, Deliver(pr), n + |pr.chunk|, Ready)
    ensures !Full(lim, pr.chunk) ==> Stands(lim, pr, n, Ready)
  {
    FlatAppend(pr.delivered, pr.chunk);
    CutFlat(lim, pr.rows);
  }

  lemma Entering<T>(lim: Limits, pr: Progress<T>, n: nat, row: Sized<T>)
    requires Stands(lim, pr, n, Ready)
    ensures Stands(lim, Enter(pr, row), n, Gathered)
    ensures Bytes(lim, pr.chunk + [row]) == Bytes(lim, pr.chunk) + row.bytes
  {
    CutAppend(lim, pr.rows, row);
    EnteringBytes(lim, pr.chunk, row);
    if pr.chunk == [] { assert pr.chunk + [row] == [row]; }
    assert Add(lim, Cut(lim, pr.rows), row) == pr.delivered + [pr.chunk + [row]];
  }

  lemma EnteringBytes<T>(lim: Limits, chunk: seq<Sized<T>>, row: Sized<T>)
    ensures Bytes(lim, chunk + [row]) == Bytes(lim, chunk) + row.bytes
  {
    assert (chunk + [row])[..|chunk|] == chunk;
  }

  /** A row that is not handed over is missed. */
  lemma Skipping<T>(lim: Limits, pr: Progress<T>, n: nat, row: Sized<T>)
    requires Stands(lim, pr, n, Missed) || Stands(lim, pr, n, Ready)
    ensures Stands(lim, Skip(pr, row), n, Missed)
  {
    if Stands(lim, pr, n, Missed) {
      CutStable(lim, pr.rows, row, |pr.delivered|);
    } else {
      Entering(lim, pr, n, row);
      Delivering(lim, Enter(pr, row), n);
      assert Stands(lim, Enter(pr, row), n, Missed);
    }
  }

  /** What was missed after the first rows stays missed when all are counted. */
  lemma SkippingRest<T>(lim: Limits, pr: Progress<T>, n: nat, batch: seq<Sized<T>>)
    requires Stands(lim, pr, n, Missed) && pr.rows <= batch
    ensures Stands(lim, pr.(rows := batch), n, Missed)
  {
    assert batch[..|pr.rows|] == pr.rows;
    CutPrefix(lim, batch, |pr.rows|, |pr.delivered|);
  }

  /** The last chunk after the last row. */
  lemma Closing<T>(lim: Limits, pr: Progress<T>, n: nat)
    requires Stands(lim, pr, n, Ready)
    ensures pr.chunk == [] ==> Stands(lim, pr, n, Complete)
    ensures pr.chunk != [] ==>
              && Stands(lim, Deliver(pr), n + |pr.chunk|, Complete)
              && Stands(lim, pr, n, Missed) && Stands(lim, Refuse(pr), n, Missed)
  {
    FlatAppend(pr.delivered, pr.chunk);
    CutFlat(lim, pr.rows);
  }

  /** A batch is complete or missed, not both; either way a prefix of it was
      handed over. */
  lemma EitherSent<T>(lim: Limits, pr: Progress<T>, n: nat)
    ensures Stands(lim, pr, n, Complete) ==> Stands(lim, pr, n, Sent) && !Stands(lim, pr, n, Missed)
    ensures Stands(lim, pr, n, Missed) ==> Stands(lim, pr, n, Sent) && !Stands(lim, pr, n, Complete)
  {
    CutFlat(lim, pr.rows);
    if Stands(lim, pr, n, Complete) { assert Flat(pr.delivered) + pr.refused == pr.rows; }
  }

  /** In order the chunks delivered are a prefix of the batch, of n rows, and the
      whole batch exactly if none is missing. */
  lemma SentPrefix<T>(lim: Limits, pr: Progress<T>, n: nat)
    requires Stands(lim, pr, n, Sent)
    ensures Flat(pr.delivered) <= pr.rows && n == |Flat(pr.delivered)| <= |pr.rows|
    ensures pr.delivered == Cut(lim, pr.rows) <==> n == |pr.rows|
  {
    CutFlat(lim, pr.rows);
    var all := Cut(lim, pr.rows);
    forall k | 0 <= k < |all| ensures all[k] != [] { CutNonEmpty(lim, pr.rows, k); }
    FlatPrefix(all, |pr.delivered|);
  }

  /** Each chunk delivered is within the limits, and all but the last have as many
      records as allowed or have reached the byte limit. */
  lemma DeliveredChunks<T>(lim: Limits, pr: Progress<T>, n: nat)
    requires Stands(lim, pr, n, Sent) && Roomy(lim)
    ensures forall k | 0 <= k < |pr.delivered| :: Fits(lim, pr.delivered[k])
    ensures forall k | 0 <= k < |pr.delivered| - 1 ::
              lim.maxRecords == Some(|pr.delivered[k]|) || Bytes(lim, pr.delivered[k]) >= lim.maxBytes
    ensures Flat(pr.delivered) <= pr.rows && n == |Flat(pr.delivered)| <= |pr.rows|
    ensures pr.delivered == Cut(lim, pr.rows) <==> n == |pr.rows|
  {
    SentPrefix(lim, pr, n);
    var all := Cut(lim, pr.rows);
    forall k | 0 <= k < |all|
      ensures Fits(lim, all[k])
      ensures k < |all| - 1 ==> lim.maxRecords == Some(|all[k]|) || Bytes(lim, all[k]) >= lim.maxBytes
    {
      CutFits(lim, pr.rows, k);
    }
  }

  /** The count is the whole batch exactly if the batch is complete. */
  lemma CountTells<T>(lim: Limits, pr: Progress<T>, n: nat, complete: bool)
    requires Stands(lim, pr, n, if complete then Complete else Missed)
    ensures complete <==> n == |pr.rows|
    ensures n <= |pr.rows|
  {
    EitherSent(lim, pr, n);
    SentPrefix(lim, pr, n);
  }
}
