/** The loop of `keep_job_alive`: sleep half the interval, double it, renew the lease for that
    long.  It starts from the backoff that the poll leased the job for. */
module Renewals {
  import opened Schema
  import opened RowRuns
  import opened Statements
  import opened Tables

  /** The interval after `k` renewals. */
  function Interval(b: nat, k: nat): nat {
    if k == 0 then b else Interval(b, k - 1) * 2
  }

  lemma {:induction false} IntervalIsPower(b: nat, k: nat)
    ensures Interval(b, k) == b * Pow2(k)
  {
    if k > 0 {
      IntervalIsPower(b, k - 1);
    }
  }

  function Front(late: seq<nat>): seq<nat>
    requires late != []
  {
    late[..|late| - 1]
  }

  function Last(late: seq<nat>): nat
    requires late != []
  {
    late[|late| - 1]
  }

  /** How long the loop sleeps before renewal number `k`, and what is left of the interval then. */
  function Sleep(b: nat, k: nat): (d: nat)
    ensures d <= Interval(b, k)
  {
    Interval(b, k) / 2
  }

  function Slack(b: nat, k: nat): (d: nat)
    ensures Sleep(b, k) + d == Interval(b, k) && Sleep(b, k) <= d <= Sleep(b, k) + 1
  {
    Interval(b, k) - Interval(b, k) / 2
  }

  /** The time of the last of |late| renewals, or of the poll if there was none; `late` says how
      long after the end of its sleep each renewal reached the database. */
  function RenewedAt(polledAt: int, b: nat, late: seq<nat>): int {
    if late == [] then polledAt
    else RenewedAt(polledAt, b, Front(late)) + Sleep(b, |late| - 1) + Last(late)
  }

  lemma RenewedNext(polledAt: int, b: nat, late: seq<nat>, delay: nat)
    ensures RenewedAt(polledAt, b, late + [delay]) == RenewedAt(polledAt, b, late) + Sleep(b, |late|) + delay
  {
    var more: seq<nat> := late + [delay];
    assert Front(more) == late && Last(more) == delay;
  }

  /** The lease in force after those renewals. */
  function LeasedUntil(polledAt: int, b: nat, late: seq<nat>): int {
    RenewedAt(polledAt, b, late) + Interval(b, |late|)
  }

  function Sum(late: seq<nat>): nat {
    if late == [] then 0 else Sum(Front(late)) + Last(late)
  }

  lemma {:induction false} RenewalSum(polledAt: int, b: nat, late: seq<nat>)
    requires late != []
    ensures RenewedAt(polledAt, b, late) == polledAt + b / 2 + (Interval(b, |late| - 1) - b) + Sum(late)
  {
    if |late| > 1 {
      RenewalSum(polledAt, b, Front(late));
    } else {
      assert Front(late) == [];
    }
  }

  /** The renewals in closed form: the sleeps double, and the delays add up. */
  lemma {:induction false} RenewalTimes(polledAt: int, b: nat, late: seq<nat>)
    requires late != []
    ensures RenewedAt(polledAt, b, late) == polledAt + b / 2 + b * Pow2(|late| - 1) - b + Sum(late)
    ensures LeasedUntil(polledAt, b, late) == RenewedAt(polledAt, b, late) + b * Pow2(|late|)
  {
    RenewalSum(polledAt, b, late);
    IntervalIsPower(b, |late| - 1);
    IntervalIsPower(b, |late|);
  }

  /** A renewal beats the lease in force exactly if it is late by less than what the sleep left of
      the interval. */
  lemma RenewalInTimeIff(polledAt: int, b: nat, late: seq<nat>)
    requires late != []
    ensures RenewedAt(polledAt, b, late) < LeasedUntil(polledAt, b, Front(late)) <==> Last(late) < Slack(b, |late| - 1)
  {
  }

  /** Every renewal is late by less than half of its interval. */
  predicate Prompt(b: nat, late: seq<nat>) {
    forall k | 0 <= k < |late| :: late[k] < Slack(b, k)
  }

  /** Keep-alive never lets the lease lapse: each renewal, for every k, comes before the deadline
      in force and moves it further on. */
  lemma LeaseNeverLapses(polledAt: int, b: nat, late: seq<nat>, k: nat)
    requires Prompt(b, late) && k < |late|
    ensures RenewedAt(polledAt, b, late[..k]) <= RenewedAt(polledAt, b, late[..k + 1])
    ensures RenewedAt(polledAt, b, late[..k + 1]) < LeasedUntil(polledAt, b, late[..k])
    ensures LeasedUntil(polledAt, b, late[..k]) < LeasedUntil(polledAt, b, late[..k + 1])
  {
    assert Front(late[..k + 1]) == late[..k];
    RenewalInTimeIff(polledAt, b, late[..k + 1]);
  }

  /** What the loop does to the row of its job. */
  function RenewalEvents(polledAt: int, b: nat, late: seq<nat>): seq<RowEvent> {
    if late == [] then []
    else RenewalEvents(polledAt, b, Front(late)) + [Renewed(LeasedUntil(polledAt, b, late))]
  }

  lemma {:induction false} RunSnoc(m: Msg, es: seq<RowEvent>, e: RowEvent)
    ensures RowRun(m, es + [e]) == RowApply(RowRun(m, es), e)
    decreases |es|
  {
    if es == [] {
      assert [e][1..] == [];
    } else {
      RunSnoc(RowApply(m, es[0]), es[1..], e);
      assert (es + [e])[1..] == es[1..] + [e];
    }
  }

  /** The schedule is what the table holds: after the renewals, the deadline of the row is the
      lease in force, and a row past its last attempt is left alone. */
  lemma {:induction false} RenewalsSetDeadline(m: Msg, polledAt: int, b: nat, late: seq<nat>)
    requires m.commitInterval.None? && (m.attemptAt.Some? ==> m.attemptAt.value == polledAt + b)
    ensures RowRun(m, RenewalEvents(polledAt, b, late)) ==
            if m.attemptAt.None? then m else m.(attemptAt := Some(LeasedUntil(polledAt, b, late)))
  {
    if late != [] {
      RenewalsSetDeadline(m, polledAt, b, Front(late));
      RunSnoc(m, RenewalEvents(polledAt, b, Front(late)), Renewed(LeasedUntil(polledAt, b, late)));
    }
  }

  /** `after` is `before` with the row of `id`, if there is one, run through `es`. */
  ghost predicate OnlyRow(before: Msgs, after: Msgs, id: Id, es: seq<RowEvent>) {
    && after.Keys == before.Keys
    && (id in before ==> after[id] == RowRun(before[id], es))
    && forall other | other in before && other != id :: after[other] == before[other]
  }

  lemma OneMoreRenewal(before: Msgs, db: Db, id: Id, es: seq<RowEvent>, now: int, duration: nat)
    requires OnlyRow(before, db.msgs, id, es)
    ensures OnlyRow(before, AfterKeepAlive(db, now, {id}, duration).msgs, id, es + [Renewed(now + duration)])
  {
    if id in before {
      RunSnoc(before[id], es, Renewed(now + duration));
    }
  }

  lemma MoreEvents(polledAt: int, b: nat, late: seq<nat>, delay: nat)
    ensures RenewalEvents(polledAt, b, late + [delay]) ==
            RenewalEvents(polledAt, b, late) +
            [Renewed(RenewedAt(polledAt, b, late + [delay]) + Interval(b, |late| + 1))]
  {
    assert Front(late + [delay]) == late;
  }

  /** `keep_job_alive`.  `answers` is what each renewal meets: how late it is, or an error of the
      database, which ends the loop. */
  method KeepJobAlive(tables: MqTables, id: Id, polledAt: int, backoff: nat, answers: seq<Option<nat>>)
    returns (late: seq<nat>)
    requires tables.Valid()
    modifies tables`msgs
    ensures tables.Valid()
    ensures |late| <= |answers| && forall k | 0 <= k < |late| :: answers[k] == Some(late[k])
    ensures |late| == |answers| || answers[|late|] == None
    ensures OnlyRow(old(tables.msgs), tables.msgs, id, RenewalEvents(polledAt, backoff, late))
  {
    var interval, now := backoff, polledAt;
    late := [];
    while |late| < |answers| && answers[|late|].Some?
      invariant |late| <= |answers| && forall k | 0 <= k < |late| :: answers[k] == Some(late[k])
      invariant interval == Interval(backoff, |late|) && now == RenewedAt(polledAt, backoff, late)
      invariant tables.Valid()
      invariant OnlyRow(old(tables.msgs), tables.msgs, id, RenewalEvents(polledAt, backoff, late))
    {
      ghost var before := tables.State();
      var delay := answers[|late|].value;
      RenewedNext(polledAt, backoff, late, delay);
      now := now + interval / 2 + delay;
      interval := interval * 2;
      tables.KeepAlive(now, {id}, interval);
      OneMoreRenewal(old(tables.msgs), before, id, RenewalEvents(polledAt, backoff, late), now, interval);
      MoreEvents(polledAt, backoff, late, delay);
      late := late + [delay];
    }
  }
}
