/** What a reset of the statistics does to the shared counters and to the overflow
    warning. */
module CounterResets {
  import opened RingArithmetic
  import opened Ring
  import opened Pipeline
  import PipelineProofs
  import PipelineTheorems
  import PipelineFates

  datatype Counter = Enqueued | Dropped | Exported

  predicate Resets(act: Act, c: Counter)
  {
    match c
    case Enqueued => act.ResetEnqueued?
    case Dropped => act.ResetDropped?
    case Exported => act.ResetExported?
  }

  function Reading(s: State, c: Counter): nat
  {
    match c
    case Enqueued => s.counters.enqueued
    case Dropped => s.counters.dropped
    case Exported => s.counters.exported
  }

  function BaseOf(s: State, c: Counter): nat
  {
    match c
    case Enqueued => s.base.enqueued
    case Dropped => s.base.dropped
    case Exported => s.base.exported
  }

  /** How many events there have been to count: published and left behind by their
      producer, dropped, and exported. */
  function Total(s: State, c: Counter): int
  {
    match c
    case Enqueued => EnqueueTotal(s)
    case Dropped => |s.tally.dropped|
    case Exported => s.out.total
  }

  lemma BaseStays(rc: RingConfig, s: State, s': State, act: Act, c: Counter)
    requires Next(rc, s, s', act) && !Resets(act, c)
    ensures BaseOf(s', c) == BaseOf(s, c)
  {
    if act.Produce? { PipelineProofs.OutsideFrame(rc, s, s', act.i); }
  }

  lemma BaseSet(rc: RingConfig, s: State, s': State, act: Act, c: Counter)
    requires Next(rc, s, s', act) && Resets(act, c)
    ensures BaseOf(s', c) == Total(s, c)
  {
  }

  lemma {:induction false} BaseSince(rc: RingConfig, run: seq<State>, acts: seq<Act>, c: Counter, m: nat, n: nat)
    requires IsRunBy(rc, run, acts) && m < n < |run| && Resets(acts[m], c)
    requires forall j | m < j < n :: !Resets(acts[j], c)
    ensures BaseOf(run[n], c) == Total(run[m], c)
    decreases n
  {
    var j := n - 1;
    assert Next(rc, run[j], run[j + 1], acts[j]);
    if j == m {
      BaseSet(rc, run[m], run[n], acts[m], c);
    } else {
      BaseSince(rc, run, acts, c, m, j);
      BaseStays(rc, run[j], run[n], acts[j], c);
    }
  }

  /** After a reset, and until the next one, a counter shows exactly what has been
      counted since: the reset takes away all that came before and nothing more. */
  lemma SinceReset(rc: RingConfig, run: seq<State>, acts: seq<Act>, c: Counter, m: nat, n: nat)
    requires IsRunBy(rc, run, acts) && m < n < |run| && Resets(acts[m], c)
    requires forall j | m < j < n :: !Resets(acts[j], c)
    ensures Reading(run[n], c) == (Total(run[n], c) - Total(run[m], c)) % U64
  {
    BaseSince(rc, run, acts, c, m, n);
    PipelineFates.RunByInv(rc, run, acts, n);
    PipelineTheorems.CountersTell(rc, run, n);
  }

  // ------------------------------------------------------------------
  // The overflow warning
  // ------------------------------------------------------------------

  /** Some producer handles an overflow: it finds the flag set, or sets it and warns. */
  predicate Handles(act: Act)
  {
    act.Flag? || act.Throw?
  }

  lemma FlagStays(rc: RingConfig, s: State, s': State, act: Act)
    requires Next(rc, s, s', act) && (s.overflowLogged || Handles(act)) && !act.ResetFlag?
    ensures s'.overflowLogged
  {
    if act.Produce? { PipelineProofs.OutsideFrame(rc, s, s', act.i); }
  }

  lemma {:induction false} FlagSince(rc: RingConfig, run: seq<State>, acts: seq<Act>, m: nat, n: nat)
    requires IsRunBy(rc, run, acts) && m < n < |run| && Handles(acts[m])
    requires forall j | m < j < n :: !acts[j].ResetFlag?
    ensures run[n].overflowLogged
    decreases n
  {
    var j := n - 1;
    assert Next(rc, run[j], run[j + 1], acts[j]);
    if j > m { FlagSince(rc, run, acts, m, j); }
    FlagStays(rc, run[j], run[n], acts[j]);
  }

  /** Once an overflow has been handled no warning is raised, and so none can throw,
      until the statistics are reset. */
  lemma OneWarning(rc: RingConfig, run: seq<State>, acts: seq<Act>, m: nat, n: nat)
    requires IsRunBy(rc, run, acts) && m < n < |acts| && Handles(acts[m]) && acts[n].Throw?
    ensures exists j :: m < j < n && acts[j].ResetFlag?
  {
    assert Next(rc, run[n], run[n + 1], acts[n]);
    if forall j | m < j < n :: !acts[j].ResetFlag? { FlagSince(rc, run, acts, m, n); }
  }
}
