/** What one call of PschExportBatch does with its batch: how it ends, what it
    sends in which order, and what it reports and counts. */
module Transcripts {
  import opened RingArithmetic
  import opened Chunking

  /** Unreachable: no connection, or no memory for a batch; nothing is dequeued.
      Aborted: an exception after the events were dequeued; n rows were taken
      before it, none is reported.
      Partial: the backend took the first n rows, which are reported.
      Refused: the ClickHouse insert failed; all rows are reported all the same.
      Done: all rows were taken. */
  datatype Ending = Unreachable | Aborted(n: nat) | Partial(n: nat) | Refused | Done

  /** The rows PschExportBatch reports for a batch of m. */
  function Reported(ending: Ending, m: nat): nat
  {
    match ending
    case Unreachable => 0
    case Aborted(_) => 0
    case Partial(n) => n
    case Refused => m
    case Done => m
  }

  /** The rows of a batch of m that the backend took. */
  function Taken(ending: Ending, m: nat): nat
  {
    match ending
    case Unreachable => 0
    case Aborted(n) => n
    case Partial(n) => n
    case Refused => 0
    case Done => m
  }

  predicate EndingOk(ending: Ending, m: nat)
  {
    match ending
    case Unreachable => m == 0
    case Aborted(n) => n < m
    case Partial(n) => n < m
    case _ => true
  }

  // ------------------------------------------------------------------
  // What is sent
  // ------------------------------------------------------------------

  /** One send: so many rows, taken or not. */
  datatype Attempt = Attempt(n: nat, ok: bool)

  function RowsHanded(tr: seq<Attempt>): nat
  {
    if tr == [] then 0 else RowsHanded(tr[..|tr| - 1]) + tr[|tr| - 1].n
  }

  function RowsTaken(tr: seq<Attempt>): nat
  {
    if tr == [] then 0 else RowsTaken(tr[..|tr| - 1]) + if tr[|tr| - 1].ok then tr[|tr| - 1].n else 0
  }

  /** The sends of one call with a batch of m rows: none of them empty, no more
      rows than there are, and none after a failure. The call counts the batch if
      it is `counted`, which takes all of it. */
  ghost predicate Transcript(tr: seq<Attempt>, m: nat, counted: bool)
  {
    && RowsHanded(tr) <= m && (forall i | 0 <= i < |tr| :: tr[i].n > 0) && (forall i | 0 <= i < |tr| - 1 :: tr[i].ok)
    && (counted ==> RowsTaken(tr) == m && (tr != [] ==> tr[|tr| - 1].ok))
  }

  /** What the wire carries if the rows are sent one after the other from the
      first, as many at a time as the transcript says. */
  function Carried<T>(rows: seq<T>, tr: seq<Attempt>): seq<Parcel<T>>
  {
    if tr == [] then []
    else
      var n := |tr| - 1;
      Carried(rows, tr[..n]) + [Parcel(Slice(rows, RowsHanded(tr[..n]), tr[n].n), tr[n].ok)]
  }

  /** n rows from the k-th on, as far as there are any. */
  function Slice<T>(rows: seq<T>, k: nat, n: nat): seq<T>
  {
    if k + n <= |rows| then rows[k..k + n] else []
  }

  lemma {:induction false} HandedAppend(tr: seq<Attempt>, a: Attempt)
    ensures RowsHanded(tr + [a]) == RowsHanded(tr) + a.n
    ensures RowsTaken(tr + [a]) == RowsTaken(tr) + if a.ok then a.n else 0
  {
    assert (tr + [a])[..|tr|] == tr;
  }

  lemma {:induction false} CarriedAppend<T>(rows: seq<T>, tr: seq<Attempt>, a: Attempt)
    ensures Carried(rows, tr + [a]) == Carried(rows, tr) + [Parcel(Slice(rows, RowsHanded(tr), a.n), a.ok)]
  {
    assert (tr + [a])[..|tr|] == tr;
  }

  // ------------------------------------------------------------------
  // Batches cut into chunks
  // ------------------------------------------------------------------

  /** Chunks delivered one by one, then the one handed over in vain, if any. */
  function Attempts<T>(delivered: seq<seq<Sized<T>>>, refused: seq<Sized<T>>): seq<Attempt>
  {
    Oks(delivered) + if refused == [] then [] else [Attempt(|refused|, false)]
  }

  function Oks<T>(delivered: seq<seq<Sized<T>>>): (tr: seq<Attempt>)
    ensures |tr| == |delivered| && forall i | 0 <= i < |tr| :: tr[i] == Attempt(|delivered[i]|, true)
  {
    seq(|delivered|, i requires 0 <= i < |delivered| => Attempt(|delivered[i]|, true))
  }

  lemma {:induction false} OksSum<T>(delivered: seq<seq<Sized<T>>>)
    ensures RowsHanded(Oks(delivered)) == RowsTaken(Oks(delivered)) == |Flat(delivered)|
  {
    if delivered != [] {
      var n := |delivered| - 1;
      OksSum(delivered[..n]);
      assert Oks(delivered)[..n] == Oks(delivered[..n]);
    }
  }

  lemma AttemptsSum<T>(delivered: seq<seq<Sized<T>>>, refused: seq<Sized<T>>)
    ensures RowsHanded(Attempts(delivered, refused)) == |Flat(delivered)| + |refused|
    ensures RowsTaken(Attempts(delivered, refused)) == |Flat(delivered)|
  {
    OksSum(delivered);
    if refused != [] { HandedAppend(Oks(delivered), Attempt(|refused|, false)); }
    else { assert Oks(delivered) + [] == Oks(delivered); }
  }

  /** Chunks that make up a prefix of the rows are sent as the transcript says. */
  lemma {:induction false} OksCarried<T>(delivered: seq<seq<Sized<T>>>, all: seq<Sized<T>>)
    requires Flat(delivered) <= all
    ensures RowsHanded(Oks(delivered)) == |Flat(delivered)|
    ensures TakenParcels(delivered) == Carried(Rows(all), Oks(delivered))
  {
    OksSum(delivered);
    if delivered != [] {
      var n := |delivered| - 1;
      var init, last := delivered[..n], delivered[n];
      OksCarried(init, all);
      OksSum(init);
      assert Oks(delivered) == Oks(init) + [Attempt(|last|, true)];
      CarriedAppend(Rows(all), Oks(init), Attempt(|last|, true));
      RowsSlice(all, Flat(init), last);
      assert TakenParcels(delivered) == TakenParcels(init) + [Parcel(Rows(last), true)];
    }
  }

  lemma RowsSlice<T>(all: seq<Sized<T>>, before: seq<Sized<T>>, chunk: seq<Sized<T>>)
    requires before + chunk <= all
    ensures Slice(Rows(all), |before|, |chunk|) == Rows(chunk)
  {
    assert |before + chunk| <= |all|;
    forall i | 0 <= i < |chunk| ensures Rows(all)[|before| + i] == Rows(chunk)[i] {
      assert (before + chunk)[|before| + i] == all[|before| + i];
    }
  }

  lemma ChunksCarried<T>(delivered: seq<seq<Sized<T>>>, refused: seq<Sized<T>>, all: seq<Sized<T>>)
    requires Flat(delivered) + refused <= all
    ensures RowsHanded(Attempts(delivered, refused)) <= |all|
    ensures Parcels(delivered, refused) == Carried(Rows(all), Attempts(delivered, refused))
  {
    AttemptsSum(delivered, refused);
    assert Flat(delivered) <= all;
    OksCarried(delivered, all);
    if refused == [] {
      assert Oks(delivered) + [] == Oks(delivered) && TakenParcels(delivered) + [] == TakenParcels(delivered);
    } else {
      CarriedAppend(Rows(all), Oks(delivered), Attempt(|refused|, false));
      RowsSlice(all, Flat(delivered), refused);
    }
  }

  /** A batch cut into chunks makes a transcript, and the wire carries its rows in
      order from the first. */
  lemma ChunksTranscript<T>(lim: Limits, pr: Progress<T>, n: nat, complete: bool)
    requires Stands(lim, pr, n, if complete then Complete else Missed)
    ensures Transcript(Attempts(pr.delivered, pr.refused), |pr.rows|, complete)
    ensures RowsTaken(Attempts(pr.delivered, pr.refused)) == n
    ensures Parcels(pr.delivered, pr.refused) == Carried(Rows(pr.rows), Attempts(pr.delivered, pr.refused))
  {
    EitherSent(lim, pr, n);
    CountTells(lim, pr, n, complete);
    AttemptsSum(pr.delivered, pr.refused);
    assert Flat(pr.delivered) + pr.refused <= pr.rows;
    ChunksCarried(pr.delivered, pr.refused, pr.rows);
    ChunksNonEmpty(lim, pr, n);
  }

  lemma ChunksNonEmpty<T>(lim: Limits, pr: Progress<T>, n: nat)
    requires Stands(lim, pr, n, Sent)
    ensures var tr := Attempts(pr.delivered, pr.refused);
            (forall i | 0 <= i < |tr| :: tr[i].n > 0) && (forall i | 0 <= i < |tr| - 1 :: tr[i].ok)
  {
    forall i | 0 <= i < |pr.delivered| ensures pr.delivered[i] != [] { CutNonEmpty(lim, pr.rows, i); }
  }

  /** A batch of rows, the wire before and after it, its transcript, the rows
      taken, and whether that is all of them. */
  datatype Shipment<T> =
    Shipment(rows: seq<T>, was: seq<Parcel<T>>, wire: seq<Parcel<T>>, tr: seq<Attempt>, n: nat, complete: bool)

  /** The wire has carried the rows as the transcript says, and nothing else. */
  ghost predicate Sends<T>(x: Shipment<T>)
  {
    match x
    case Shipment(rows, was, wire, tr, n, complete) =>
      && Transcript(tr, |rows|, complete) && RowsTaken(tr) == n <= |rows| && (complete <==> n == |rows|)
      && wire == was + Carried(rows, tr)
  }

  lemma ChunksSend<T>(lim: Limits, pr: Progress<T>, rows: seq<T>, was: seq<Parcel<T>>, wire: seq<Parcel<T>>,
                      n: nat, complete: bool)
    requires Stands(lim, pr, n, if complete then Complete else Missed) && Rows(pr.rows) == rows
    requires wire == was + Parcels(pr.delivered, pr.refused)
    ensures Sends(Shipment(rows, was, wire, Attempts(pr.delivered, pr.refused), n, complete))
  {
    ChunksTranscript(lim, pr, n, complete);
    CountTells(lim, pr, n, complete);
  }

  // ------------------------------------------------------------------
  // What a call reports and counts
  // ------------------------------------------------------------------

  /** A call with a batch of m events has ended: what it reports, what it has
      sent, and the shared counter before and after. */
  ghost predicate Ended(ending: Ending, tr: seq<Attempt>, n: nat, m: nat, before: nat, after: nat)
  {
    match ending
    case Done => n == m && Transcript(tr, m, true) && after == (before + m) % U64
    case _ =>
      && EndingOk(ending, m) && n == Reported(ending, m) && after == before
      && Transcript(tr, m, false) && RowsTaken(tr) == Taken(ending, m)
  }

  /** Every way a batch of rows may end. */
  lemma ShipmentEnded<T>(x: Shipment<T>, before: nat)
    requires Sends(x)
    ensures RowsHanded(x.tr) <= |x.rows| && x.wire == x.was + Carried(x.rows, x.tr)
    ensures if x.complete then Ended(Done, x.tr, x.n, |x.rows|, before, (before + x.n) % U64)
            else && Ended(Partial(x.n), x.tr, x.n, |x.rows|, before, before)
                 && Ended(Aborted(x.n), x.tr, 0, |x.rows|, before, before)
  {
  }

  lemma NothingHanded(ending: Ending, m: nat, before: nat)
    requires EndingOk(ending, m) && Taken(ending, m) == 0 && (ending.Done? ==> before < U64)
    ensures Ended(ending, [], Reported(ending, m), m, before, before)
  {
  }

  lemma OneBlock(m: nat, ok: bool, before: nat)
    requires m > 0
    ensures var after := if ok then (before + m) % U64 else before;
            Ended(if ok then Done else Refused, [Attempt(m, ok)], m, m, before, after)
  {
    HandedAppend([], Attempt(m, ok));
    assert [] + [Attempt(m, ok)] == [Attempt(m, ok)];
  }

  lemma AnyHanded(tr: seq<Attempt>, m: nat, counted: bool)
    requires Transcript(tr, m, counted) && tr != []
    ensures m > 0
  {
    assert tr[|tr| - 1].n > 0;
  }

  /** Sends are taken one after the other, so some rows are taken exactly if the
      first send is. */
  lemma {:induction false} FirstTaken(tr: seq<Attempt>, m: nat, counted: bool)
    requires Transcript(tr, m, counted)
    ensures RowsTaken(tr) > 0 <==> tr != [] && tr[0].ok
  {
    if |tr| > 1 {
      var n := |tr| - 1;
      FirstTaken(tr[..n], m, false);
    }
  }
}
