/** What a run does to one row of `mq_msgs`, and what follows for leases, retries, backoff and
    the two-phase commit. */
module RowRuns {
  import opened Schema
  import opened Rows

  datatype RowEvent =
    | Untouched
    | Promoted
    | CommittedRow
    | Renewed(deadline: int)
    | Checkpointed(deadline: int, extra: Option<int>)
    | Delivery(now: int)

  function RowApply(m: Msg, e: RowEvent): Msg {
    match e
    case Untouched => m
    case Promoted => PromoteRow(m)
    case CommittedRow => CommitRow(m)
    case Renewed(deadline) => RenewRow(m, deadline)
    case Checkpointed(deadline, extra) => CheckpointRow(m, deadline, extra)
    case Delivery(now) => Lease(m, now)
  }

  function RowRun(m: Msg, es: seq<RowEvent>): Msg
    decreases |es|
  {
    if es == [] then m else RowRun(RowApply(m, es[0]), es[1..])
  }

  /** Deliveries happen only when the row is due. */
  predicate Legal(m: Msg, es: seq<RowEvent>)
    decreases |es|
  {
    es == [] || ((es[0].Delivery? ==> Due(m, es[0].now)) && Legal(RowApply(m, es[0]), es[1..]))
  }

  /** No checkpoint finds the row after its last attempt. */
  predicate NeverRevived(m: Msg, es: seq<RowEvent>)
    decreases |es|
  {
    es == [] || ((es[0].Checkpointed? ==> m.attemptAt.Some?) && NeverRevived(RowApply(m, es[0]), es[1..]))
  }

  /** When the row was delivered. */
  function Times(es: seq<RowEvent>): seq<int> {
    if es == [] then [] else (if es[0].Delivery? then [es[0].now] else []) + Times(es[1..])
  }

  function Coalesce(extra: Option<int>): int {
    if extra.None? then 0 else extra.value
  }

  function Extras(es: seq<RowEvent>): int {
    if es == [] then 0 else (if es[0].Checkpointed? then Coalesce(es[0].extra) else 0) + Extras(es[1..])
  }

  predicate NoDelivery(es: seq<RowEvent>) {
    forall i | 0 <= i < |es| :: !es[i].Delivery?
  }

  // Leases

  predicate HasLease(m: Msg, bound: int) {
    m.attemptAt.Some? && m.attemptAt.value >= bound
  }

  /** The row is committed already, or is not committed now: a commit is all that can shorten a lease. */
  predicate NotHastened(m: Msg, es: seq<RowEvent>) {
    m.commitInterval.None? || forall i | 0 <= i < |es| :: !es[i].CommittedRow?
  }

  /** A row that is scheduled stays so until it is delivered, and every renewal and checkpoint in
      between extends its lease to its own deadline, for a reservation as for a committed row. */
  lemma {:induction false} LeaseHolds(m: Msg, es: seq<RowEvent>, bound: int)
    requires HasLease(m, bound) && NotHastened(m, es) && NoDelivery(es)
    ensures HasLease(RowRun(m, es), bound)
    ensures forall i | 0 <= i < |es| && (es[i].Renewed? || es[i].Checkpointed?) ::
              HasLease(RowRun(m, es), es[i].deadline)
    decreases |es|
  {
    if es != [] {
      var m' := RowApply(m, es[0]);
      LeaseHolds(m', es[1..], bound);
      if es[0].Renewed? || es[0].Checkpointed? {
        LeaseHolds(m', es[1..], es[0].deadline);
      }
      forall i | 0 <= i < |es| && (es[i].Renewed? || es[i].Checkpointed?)
        ensures HasLease(RowRun(m, es), es[i].deadline)
      {
        if i > 0 {
          assert es[1..][i - 1] == es[i];
        }
      }
    }
  }

  // Retry budget

  /** Retries are conserved: what has been delivered and what is left make up what was granted. */
  lemma {:induction false} BudgetConserved(m: Msg, es: seq<RowEvent>)
    ensures |Times(es)| + RowRun(m, es).attempts == m.attempts + Extras(es)
    decreases |es|
  {
    if es != [] {
      BudgetConserved(RowApply(m, es[0]), es[1..]);
    }
  }

  /** Attempts are left exactly when an attempt is scheduled. */
  predicate InBudget(m: Msg) {
    m.attempts >= 0 && (m.attemptAt.None? <==> m.attempts == 0)
  }

  /** A checkpoint keeps a row in budget exactly when it leaves it an attempt. */
  lemma CheckpointKeepsBudgetIff(m: Msg, deadline: int, extra: Option<int>)
    requires InBudget(m)
    ensures InBudget(CheckpointRow(m, deadline, extra)) <==> m.attempts + Coalesce(extra) >= 1
  {
  }

  /** Every checkpoint leaves the row an attempt. */
  predicate Granted(m: Msg, es: seq<RowEvent>)
    decreases |es|
  {
    es == [] ||
    ((es[0].Checkpointed? ==> m.attempts + Coalesce(es[0].extra) >= 1) && Granted(RowApply(m, es[0]), es[1..]))
  }

  lemma {:induction false} StaysInBudget(m: Msg, es: seq<RowEvent>)
    requires InBudget(m) && Legal(m, es) && Granted(m, es)
    ensures InBudget(RowRun(m, es))
    ensures |Times(es)| <= m.attempts + Extras(es)
    decreases |es|
  {
    BudgetConserved(m, es);
    if es != [] {
      StaysInBudget(RowApply(m, es[0]), es[1..]);
    }
  }

  // Exponential backoff

  function Pow2(n: nat): (p: nat)
    ensures p >= 1
  {
    if n == 0 then 1 else 2 * Pow2(n - 1)
  }

  /** Successive deliveries lie at least the backoff apart, which starts at `b` and doubles. */
  predicate Spaced(times: seq<int>, b: nat) {
    forall k: nat | 0 < k < |times| :: times[k] >= times[k - 1] + b * Pow2(k - 1)
  }

  /** The row after deliveries at `times`. */
  predicate BacksOff(m: Msg, times: seq<int>, b: nat) {
    && m.commitInterval.None?
    && m.backoff == b * Pow2(|times|)
    && Spaced(times, b)
    && (times != [] && m.attemptAt.Some? ==>
          m.attemptAt.value >= times[|times| - 1] + b * Pow2(|times| - 1))
  }

  lemma DeliveryBacksOff(m: Msg, times: seq<int>, b: nat, now: int)
    requires BacksOff(m, times, b) && Due(m, now)
    ensures BacksOff(Lease(m, now), times + [now], b)
  {
  }

  lemma {:induction false} BacksOffThroughout(m: Msg, es: seq<RowEvent>, times: seq<int>, b: nat)
    requires BacksOff(m, times, b) && Legal(m, es) && NeverRevived(m, es)
    ensures BacksOff(RowRun(m, es), times + Times(es), b)
    decreases |es|
  {
    if es == [] {
      assert times + Times(es) == times;
    } else if es[0].Delivery? {
      DeliveryBacksOff(m, times, b, es[0].now);
      BacksOffThroughout(RowApply(m, es[0]), es[1..], times + [es[0].now], b);
      assert times + Times(es) == times + [es[0].now] + Times(es[1..]);
    } else {
      BacksOffThroughout(RowApply(m, es[0]), es[1..], times, b);
      assert times + Times(es) == times + Times(es[1..]);
    }
  }

  lemma {:induction false} SpacedSum(times: seq<int>, b: nat, k: nat)
    requires Spaced(times, b) && k < |times|
    ensures times[k] >= times[0] + b * (Pow2(k) - 1)
  {
    if k > 0 {
      SpacedSum(times, b, k - 1);
      assert b * (Pow2(k) - 1) == b * (Pow2(k - 1) - 1) + b * Pow2(k - 1);
    }
  }

  lemma {:induction false} NoDeliveryNoChange(m: Msg, es: seq<RowEvent>)
    requires NoDelivery(es)
    ensures RowRun(m, es).backoff == m.backoff && Times(es) == []
    decreases |es|
  {
    if es != [] {
      NoDeliveryNoChange(RowApply(m, es[0]), es[1..]);
    }
  }

  /** Exponential backoff: for a row committed (by `before`) ahead of its first delivery and never
      revived, the backoff before the delivery with index k is b * 2^k, and that delivery comes
      at least b * (2^k - 1) after the first, whatever renewals and checkpoints happen. */
  lemma ExponentialBackoff(m: Msg, before: seq<RowEvent>, es: seq<RowEvent>, k: nat)
    requires m.backoff >= 0 && NoDelivery(before) && RowRun(m, before).commitInterval.None?
    requires Legal(RowRun(m, before), es) && NeverRevived(RowRun(m, before), es)
    requires k < |Times(es)|
    ensures RowRun(RowRun(m, before), es).backoff == m.backoff * Pow2(|Times(es)|)
    ensures Times(es)[k] >= Times(es)[0] + m.backoff * (Pow2(k) - 1)
    ensures k > 0 ==> Times(es)[k] >= Times(es)[k - 1] + m.backoff * Pow2(k - 1)
  {
    NoDeliveryNoChange(m, before);
    BacksOffThroughout(RowRun(m, before), es, [], m.backoff);
    assert [] + Times(es) == Times(es);
    SpacedSum(Times(es), m.backoff, k);
  }

  // Two-phase commit

  predicate Reserved(m: Msg) {
    m.commitInterval.Some? && m.attemptAt.Some?
  }

  /** When a reserved row would be due, had it been committed at once. */
  function DueIfCommitted(m: Msg): int
    requires Reserved(m)
  {
    m.attemptAt.value - m.commitInterval.value
  }

  predicate Reserving(es: seq<RowEvent>) {
    forall i | 0 <= i < |es| :: es[i].Renewed? || es[i].Promoted? || es[i].Untouched?
  }

  /** Renewals of a reserved row move its deadline and its interval together. */
  lemma {:induction false} ReservationKeepsSchedule(m: Msg, es: seq<RowEvent>)
    requires Reserved(m) && Reserving(es)
    ensures Reserved(RowRun(m, es)) && DueIfCommitted(RowRun(m, es)) == DueIfCommitted(m)
    ensures RowRun(m, es).attempts == m.attempts && RowRun(m, es).backoff == m.backoff
    decreases |es|
  {
    if es != [] {
      ReservationKeepsSchedule(RowApply(m, es[0]), es[1..]);
    }
  }

  /** Two-phase commit round trip: after any renewals, a commit leaves the schedule of a message
      that had been inserted without a commit interval. */
  lemma CommitRestoresSchedule(m: Msg, es: seq<RowEvent>)
    requires Reserved(m) && Reserving(es)
    ensures CommitRow(RowRun(m, es)).attemptAt == Some(DueIfCommitted(m))
    ensures CommitRow(RowRun(m, es)).commitInterval == None
    ensures CommitRow(RowRun(m, es)).attempts == m.attempts && CommitRow(RowRun(m, es)).backoff == m.backoff
  {
    ReservationKeepsSchedule(m, es);
  }

  /** A checkpoint of a reserved row is kept by the round trip exactly if it does not move the
      deadline: it raises attempt_at but not the interval. */
  lemma CheckpointKeepsScheduleIff(m: Msg, deadline: int, extra: Option<int>)
    requires Reserved(m)
    ensures Reserved(CheckpointRow(m, deadline, extra))
    ensures DueIfCommitted(CheckpointRow(m, deadline, extra)) == DueIfCommitted(m) <==> deadline <= m.attemptAt.value
  {
  }
}
