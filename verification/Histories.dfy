/** The row theorems, for every row of every run of the queue. */
module Histories {
  import opened Schema
  import opened Rows
  import opened Batches
  import opened Statements
  import opened Insertion
  import opened Runs
  import opened Ordering
  import opened RowRuns

  /** What step `s` does to the row of `id`, if the row survives it. */
  ghost function EventOf(w: World, s: Step, id: Id): RowEvent
    requires PendingShape(w) && Allowed(w, s)
  {
    match s
    case FinishPoll(txn) => if id in DeliveredBy(w, txn) then Delivery(w.polls[txn].now) else Untouched
    case CommitStep(ids) => if id in ids then CommittedRow else Untouched
    case KeepAliveStep(now, ids, duration) => if id in ids then Renewed(now + duration) else Untouched
    case CheckpointStep(now, id', duration, _, _, extra) =>
      if id == id' then Checkpointed(now + duration, extra) else Untouched
    case FinishDelete(txn, missed) => if Promotes(w, txn, missed, id) then Promoted else Untouched
    case _ => Untouched
  }

  ghost function EventsOf(w: World, steps: seq<Step>, id: Id): (es: seq<RowEvent>)
    requires IsRun(w, steps)
    ensures |es| == |steps|
    decreases |steps|
  {
    if steps == [] then []
    else [EventOf(w, steps[0], id)] + EventsOf(Apply(w, steps[0]), steps[1..], id)
  }

  lemma UpdateRowStep(w: World, s: Step, id: Id)
    requires PendingShape(w) && Allowed(w, s) && UpdatesRows(s) && id in w.db.msgs
    ensures id in Apply(w, s).db.msgs && Apply(w, s).db.msgs[id] == RowApply(w.db.msgs[id], EventOf(w, s, id))
    ensures EventOf(w, s, id).Delivery? ==> Due(w.db.msgs[id], EventOf(w, s, id).now)
  {
  }

  lemma DeleteRowStep(w: World, s: Step, id: Id)
    requires PendingShape(w) && Allowed(w, s) && s.FinishDelete? && id in w.db.msgs && id in Apply(w, s).db.msgs
    ensures Apply(w, s).db.msgs[id] == RowApply(w.db.msgs[id], EventOf(w, s, id))
    ensures !EventOf(w, s, id).Delivery?
  {
  }

  lemma InsertRowStep(w: World, s: Step, id: Id)
    requires PendingShape(w) && Allowed(w, s) && s.FinishInsert? && id in w.db.msgs
    ensures id in Apply(w, s).db.msgs && Apply(w, s).db.msgs[id] == w.db.msgs[id]
  {
  }

  lemma RowStep(w: World, s: Step, id: Id)
    requires Sound(w) && Allowed(w, s) && id in w.db.msgs && id in Apply(w, s).db.msgs
    ensures Apply(w, s).db.msgs[id] == RowApply(w.db.msgs[id], EventOf(w, s, id))
    ensures EventOf(w, s, id).Delivery? ==> Due(w.db.msgs[id], EventOf(w, s, id).now)
  {
    if s.FinishDelete? {
      DeleteRowStep(w, s, id);
    } else if UpdatesRows(s) {
      UpdateRowStep(w, s, id);
    } else if s.FinishInsert? {
      InsertRowStep(w, s, id);
    }
  }

  /** A message that is there at both ends of a run was there all along, and its row went through
      the events of the run. */
  lemma {:induction false} RowHistory(w: World, steps: seq<Step>, id: Id)
    requires Sound(w) && IsRun(w, steps) && id != NIL
    requires id in w.db.msgs && id in Exec(w, steps).db.msgs
    ensures Exec(w, steps).db.msgs[id] == RowRun(w.db.msgs[id], EventsOf(w, steps, id))
    ensures Legal(w.db.msgs[id], EventsOf(w, steps, id))
    decreases |steps|
  {
    if steps != [] {
      var w' := Apply(w, steps[0]);
      StepKeepsSound(w, steps[0]);
      RunKeepsSound(w', steps[1..]);
      RowStep(w, steps[0], id);
      RowHistory(w', steps[1..], id);
      var es := EventsOf(w, steps, id);
      assert es[0] == EventOf(w, steps[0], id) && es[1..] == EventsOf(w', steps[1..], id);
    }
  }

  // Leases

  /** Poll `txn` delivers `id` and leaves the queue as `w'`. */
  ghost predicate Delivers(w: World, txn: Txn, id: Id, w': World) {
    && PendingShape(w) && txn in w.polls && id in DeliveredBy(w, txn) && id in w.db.msgs
    && w' == Apply(w, FinishPoll(txn))
  }

  /** Lease exclusion: after a delivery at t1 that was not the last attempt, a message is not
      delivered again before t1 plus its backoff, nor before any keep-alive or checkpoint deadline
      set in between, however stale the candidates of the second poll are, unless it is a
      reservation that is committed in between. */
  lemma LeaseExclusion(w: World, txn1: Txn, w1: World, steps: seq<Step>, w2: World, txn2: Txn, w3: World, id: Id)
    requires Reachable(w) && Delivers(w, txn1, id, w1)
    requires w.db.msgs[id].attempts != 1
    requires LeadsTo(w1, steps, w2) && NoDelivery(EventsOf(w1, steps, id)) && Delivers(w2, txn2, id, w3)
    requires w.db.msgs[id].commitInterval.None? ||
             forall e | e in EventsOf(w1, steps, id) :: !e.CommittedRow?
    ensures w2.polls[txn2].now >= w.polls[txn1].now + w.db.msgs[id].backoff
    ensures forall e | e in EventsOf(w1, steps, id) && (e.Renewed? || e.Checkpointed?) ::
              w2.polls[txn2].now >= e.deadline
  {
    ReachableIsSound(w);
    StepKeepsSound(w, FinishPoll(txn1));
    var es := EventsOf(w1, steps, id);
    assert CandidatesSeen(w, w.polls[txn1]);
    RowHistory(w1, steps, id);
    LeaseHolds(w1.db.msgs[id], es, w.polls[txn1].now + w.db.msgs[id].backoff);
  }

  /** The first delivery of a message comes no earlier than its delay and its commit interval are over,
      nor before any keep-alive or checkpoint deadline set by then, if it is not committed on the way:
      a reservation is safe until it expires, and keeping it alive moves that on. */
  lemma NotBeforeItIsDue(w: World, now: int, m: NewMsg, steps: seq<Step>, w': World, txn: Txn, w'': World)
    requires Reachable(w) && m.id != NIL && m.id in w.db.msgs && InsertedAs(m, now, w.db.msgs[m.id])
    requires LeadsTo(w, steps, w') && NoDelivery(EventsOf(w, steps, m.id)) && Delivers(w', txn, m.id, w'')
    requires m.commitInterval.None? || forall e | e in EventsOf(w, steps, m.id) :: !e.CommittedRow?
    ensures w'.polls[txn].now >= now + m.delay + if m.commitInterval.None? then 0 else m.commitInterval.value
    ensures forall e | e in EventsOf(w, steps, m.id) && (e.Renewed? || e.Checkpointed?) ::
              w'.polls[txn].now >= e.deadline
  {
    ReachableIsSound(w);
    RowHistory(w, steps, m.id);
    LeaseHolds(w.db.msgs[m.id], EventsOf(w, steps, m.id), w.db.msgs[m.id].attemptAt.value);
  }

  /** A message a poll has among its candidates is a head for as long as it exists. */
  lemma CandidateStaysHead(w: World, txn: Txn, id: Id)
    requires Reachable(w) && txn in w.polls && id in w.polls[txn].picked && id in w.db.msgs
    ensures IsHead(w.db.msgs[id])
  {
    ReachableIsSound(w);
    assert CandidatesSeen(w, w.polls[txn]);
  }

  // From insertion on

  /** An insert that commits leaves each message of its batch with the row it asks for. */
  lemma InsertedRow(w: World, txn: Txn, m: NewMsg)
    requires Sound(w) && Allowed(w, FinishInsert(txn)) && InsertOutcome(w, txn).Committed?
    requires m in w.inserts[txn].batch
    ensures m.id != NIL && m.id in Apply(w, FinishInsert(txn)).db.msgs
    ensures InsertedAs(m, w.inserts[txn].now, Apply(w, FinishInsert(txn)).db.msgs[m.id])
  {
    var p := w.inserts[txn];
    NewRowAt(p.now, p.batch, p.tails, m);
    assert m.id in Ids(p.batch);
  }

  /** Retry budget: from its insertion on, a message's deliveries and the attempts it has left
      add up to retries + 1 and the extra retries of its checkpoints. */
  lemma RetryBudget(w: World, now: int, m: NewMsg, steps: seq<Step>, w': World)
    requires Reachable(w) && m.id != NIL && m.id in w.db.msgs && InsertedAs(m, now, w.db.msgs[m.id])
    requires LeadsTo(w, steps, w') && m.id in w'.db.msgs
    ensures |Times(EventsOf(w, steps, m.id))| + w'.db.msgs[m.id].attempts ==
            m.retries + 1 + Extras(EventsOf(w, steps, m.id))
  {
    ReachableIsSound(w);
    RowHistory(w, steps, m.id);
    BudgetConserved(w.db.msgs[m.id], EventsOf(w, steps, m.id));
  }

  /** If besides every checkpoint leaves it an attempt, attempts is never negative, attempt_at is
      NULL exactly when it is 0, and there are never more deliveries than were granted. */
  lemma WithinBudget(w: World, now: int, m: NewMsg, steps: seq<Step>, w': World)
    requires Reachable(w) && m.id != NIL && m.id in w.db.msgs && InsertedAs(m, now, w.db.msgs[m.id])
    requires LeadsTo(w, steps, w') && m.id in w'.db.msgs
    requires Granted(w.db.msgs[m.id], EventsOf(w, steps, m.id))
    ensures InBudget(w'.db.msgs[m.id])
    ensures |Times(EventsOf(w, steps, m.id))| <= m.retries + 1 + Extras(EventsOf(w, steps, m.id))
  {
    ReachableIsSound(w);
    RowHistory(w, steps, m.id);
    StaysInBudget(w.db.msgs[m.id], EventsOf(w, steps, m.id));
  }

  predicate SameSchedule(row: Msg, plain: Msg) {
    && row.attemptAt == plain.attemptAt && row.commitInterval == plain.commitInterval
    && row.attempts == plain.attempts && row.backoff == plain.backoff
  }

  lemma PlainSchedule(m: NewMsg, now: int, row: Msg, plain: Msg, es: seq<RowEvent>)
    requires InsertedAs(m, now, row) && m.commitInterval.Some? && InsertedAs(m.(commitInterval := None), now, plain)
    requires Reserving(es)
    ensures SameSchedule(CommitRow(RowRun(row, es)), plain)
  {
    CommitRestoresSchedule(row, es);
  }

  /** Two-phase commit: a message inserted with a commit interval, kept alive any number of
      times and then committed has the schedule of one inserted at the same time without. */
  lemma TwoPhaseCommit(w: World, now: int, m: NewMsg, steps: seq<Step>, w': World, ids: set<Id>, plain: Msg)
    requires Reachable(w) && m.id != NIL && m.id in w.db.msgs && InsertedAs(m, now, w.db.msgs[m.id])
    requires m.commitInterval.Some? && InsertedAs(m.(commitInterval := None), now, plain)
    requires LeadsTo(w, steps, w') && m.id in w'.db.msgs && Reserving(EventsOf(w, steps, m.id)) && m.id in ids
    ensures SameSchedule(AfterCommit(w'.db, ids).msgs[m.id], plain)
  {
    ReachableIsSound(w);
    RowHistory(w, steps, m.id);
    PlainSchedule(m, now, w.db.msgs[m.id], plain, EventsOf(w, steps, m.id));
  }

  /** Exponential backoff of a message that was committed ahead of its first delivery (in `before`,
      or from its insertion on) and is never revived. */
  lemma DeliveriesBackOff(w: World, now: int, m: NewMsg, before: seq<Step>, w1: World,
                          steps: seq<Step>, w2: World, k: nat)
    requires Reachable(w) && m.id != NIL && m.id in w.db.msgs && InsertedAs(m, now, w.db.msgs[m.id])
    requires LeadsTo(w, before, w1) && NoDelivery(EventsOf(w, before, m.id))
    requires m.id in w1.db.msgs && w1.db.msgs[m.id].commitInterval.None?
    requires LeadsTo(w1, steps, w2) && m.id in w2.db.msgs
    requires NeverRevived(w1.db.msgs[m.id], EventsOf(w1, steps, m.id)) && k < |Times(EventsOf(w1, steps, m.id))|
    ensures var times := Times(EventsOf(w1, steps, m.id));
            && w2.db.msgs[m.id].backoff == m.backoff * Pow2(|times|)
            && times[k] >= times[0] + m.backoff * (Pow2(k) - 1)
            && (k > 0 ==> times[k] >= times[k - 1] + m.backoff * Pow2(k - 1))
  {
    ReachableIsSound(w);
    RunKeepsSound(w, before);
    RowHistory(w, before, m.id);
    RowHistory(w1, steps, m.id);
    ExponentialBackoff(w.db.msgs[m.id], EventsOf(w, before, m.id), EventsOf(w1, steps, m.id), k);
  }

  // Payloads

  /** The last JSON payload that a checkpoint of `id` brings, if any does. */
  function LastJson(steps: seq<Step>, id: Id): Option<string> {
    if steps == [] then None
    else if LastJson(steps[1..], id).Some? then LastJson(steps[1..], id)
    else if steps[0].CheckpointStep? && steps[0].id == id then steps[0].json
    else None
  }

  function LastBytes(steps: seq<Step>, id: Id): Option<seq<bv8>> {
    if steps == [] then None
    else if LastBytes(steps[1..], id).Some? then LastBytes(steps[1..], id)
    else if steps[0].CheckpointStep? && steps[0].id == id then steps[0].bytes
    else None
  }

  lemma PayloadStep(w: World, s: Step, id: Id)
    requires Sound(w) && Allowed(w, s) && id in w.db.payloads && id in Apply(w, s).db.payloads
    ensures Apply(w, s).db.payloads[id] ==
            if s.CheckpointStep? && s.id == id then Replaced(w.db.payloads[id], s.json, s.bytes) else w.db.payloads[id]
  {
  }

  /** A payload that is gone stays gone. */
  lemma {:induction false} NoPayloadAgain(w: World, steps: seq<Step>, id: Id)
    requires Sound(w) && IsRun(w, steps) && id in w.used && id !in w.db.payloads
    ensures id !in Exec(w, steps).db.payloads
    decreases |steps|
  {
    if steps != [] {
      StepKeepsSound(w, steps[0]);
      NoPayloadStep(w, steps[0], id);
      NoPayloadAgain(Apply(w, steps[0]), steps[1..], id);
    }
  }

  lemma NoPayloadStep(w: World, s: Step, id: Id)
    requires Sound(w) && Allowed(w, s) && id in w.used && id !in w.db.payloads
    ensures id !in Apply(w, s).db.payloads
  {
    if s.FinishInsert? && InsertOutcome(w, s.txn).Committed? {
      NewPayloadKeys(w.inserts[s.txn].batch);
    }
  }

  /** A retry continues from the last checkpoint: over any run, the payload of a message is the
      last one a checkpoint brought, and otherwise what it was. */
  lemma {:induction false} PayloadHistory(w: World, steps: seq<Step>, id: Id)
    requires Sound(w) && IsRun(w, steps) && id in w.db.payloads && id in Exec(w, steps).db.payloads
    ensures var before, after := w.db.payloads[id], Exec(w, steps).db.payloads[id];
            && after.name == before.name
            && after.json == (if LastJson(steps, id).Some? then LastJson(steps, id) else before.json)
            && after.bytes == (if LastBytes(steps, id).Some? then LastBytes(steps, id) else before.bytes)
    decreases |steps|
  {
    if steps != [] {
      var w' := Apply(w, steps[0]);
      StepKeepsSound(w, steps[0]);
      RunKeepsSound(w', steps[1..]);
      assert id in w.used;
      if id !in w'.db.payloads {
        NoPayloadAgain(w', steps[1..], id);
      }
      PayloadStep(w, steps[0], id);
      PayloadHistory(w', steps[1..], id);
    }
  }

  // Draining

  ghost function AttemptsLeft(msgs: Msgs, ids: set<Id>): int
    requires ids <= msgs.Keys
    decreases |ids|
  {
    if ids == {} then 0 else
      var id :| id in ids;
      msgs[id].attempts + AttemptsLeft(msgs, ids - {id})
  }

  lemma {:induction false} AttemptsLeftSplit(msgs: Msgs, ids: set<Id>, id: Id)
    requires ids <= msgs.Keys && id in ids
    ensures AttemptsLeft(msgs, ids) == msgs[id].attempts + AttemptsLeft(msgs, ids - {id})
    decreases |ids|
  {
    var first :| first in ids && AttemptsLeft(msgs, ids) == msgs[first].attempts + AttemptsLeft(msgs, ids - {first});
    if first != id {
      AttemptsLeftSplit(msgs, ids - {first}, id);
      AttemptsLeftSplit(msgs, ids - {id}, first);
      assert ids - {first} - {id} == ids - {id} - {first};
    }
  }

  lemma {:induction false} PollSpendsAttempts(db: Db, now: int, picked: set<Id>, ids: set<Id>)
    requires ids <= db.msgs.Keys
    ensures AttemptsLeft(PollUpdate(db, now, picked).msgs, ids) ==
            AttemptsLeft(db.msgs, ids) - |ids * Delivered(db.msgs, now, picked)|
    decreases |ids|
  {
    var delivered := Delivered(db.msgs, now, picked);
    if ids == {} {
      assert ids * delivered == {};
    } else {
      var id :| id in ids;
      PollSpendsAttempts(db, now, picked, ids - {id});
      AttemptsLeftSplit(db.msgs, ids, id);
      AttemptsLeftSplit(PollUpdate(db, now, picked).msgs, ids, id);
      if id in delivered {
        assert ids * delivered == (ids - {id}) * delivered + {id};
      } else {
        assert ids * delivered == (ids - {id}) * delivered;
      }
    }
  }

  lemma PollSpendsAll(db: Db, now: int, picked: set<Id>)
    requires Delivered(db.msgs, now, picked) <= db.msgs.Keys - {NIL}
    ensures PollUpdate(db, now, picked).msgs.Keys == db.msgs.Keys
    ensures AttemptsLeft(PollUpdate(db, now, picked).msgs, db.msgs.Keys - {NIL}) ==
            AttemptsLeft(db.msgs, db.msgs.Keys - {NIL}) - |Delivered(db.msgs, now, picked)|
  {
    var ids := db.msgs.Keys - {NIL};
    PollSpendsAttempts(db, now, picked, ids);
    assert ids * Delivered(db.msgs, now, picked) == Delivered(db.msgs, now, picked);
  }

  lemma NilIsNotDelivered(w: World, txn: Txn)
    requires Sound(w) && txn in w.polls
    ensures DeliveredBy(w, txn) <= w.db.msgs.Keys - {NIL}
  {
    assert CandidatesSeen(w, w.polls[txn]);
  }

  /** A poll takes as many attempts out of the table as it delivers messages. */
  lemma PollDrains(w: World, txn: Txn)
    requires Sound(w) && txn in w.polls
    ensures var ids := w.db.msgs.Keys - {NIL};
            && Apply(w, FinishPoll(txn)).db.msgs.Keys == w.db.msgs.Keys
            && AttemptsLeft(Apply(w, FinishPoll(txn)).db.msgs, ids) ==
               AttemptsLeft(w.db.msgs, ids) - |DeliveredBy(w, txn)|
  {
    NilIsNotDelivered(w, txn);
    PollSpendsAll(w.db, w.polls[txn].now, w.polls[txn].picked.Keys);
  }

  ghost predicate AllInBudget(w: World) {
    forall id | id in w.db.msgs && id != NIL :: InBudget(w.db.msgs[id])
  }

  lemma PollStaysInBudget(w: World, txn: Txn)
    requires PendingShape(w) && AllInBudget(w) && txn in w.polls
    ensures AllInBudget(Apply(w, FinishPoll(txn)))
  {
  }

  lemma {:induction false} AttemptsLeftNonNegative(msgs: Msgs, ids: set<Id>)
    requires ids <= msgs.Keys && forall id | id in ids :: InBudget(msgs[id])
    ensures AttemptsLeft(msgs, ids) >= 0
    decreases |ids|
  {
    if ids != {} {
      var id :| id in ids;
      AttemptsLeftSplit(msgs, ids, id);
      AttemptsLeftNonNegative(msgs, ids - {id});
    }
  }

  predicate OnlyPolls(steps: seq<Step>) {
    forall i | 0 <= i < |steps| :: steps[i].BeginPoll? || steps[i].FinishPoll?
  }

  /** How many messages the polls of a run deliver. */
  ghost function DeliveryCount(w: World, steps: seq<Step>): nat
    requires IsRun(w, steps)
    decreases |steps|
  {
    if steps == [] then 0
    else (if steps[0].FinishPoll? then |DeliveredBy(w, steps[0].txn)| else 0)
         + DeliveryCount(Apply(w, steps[0]), steps[1..])
  }

  lemma {:induction false} PollsSpendAttempts(w: World, steps: seq<Step>)
    requires Sound(w) && AllInBudget(w) && IsRun(w, steps) && OnlyPolls(steps)
    ensures var ids := w.db.msgs.Keys - {NIL};
            && Exec(w, steps).db.msgs.Keys == w.db.msgs.Keys
            && DeliveryCount(w, steps) + AttemptsLeft(Exec(w, steps).db.msgs, ids) == AttemptsLeft(w.db.msgs, ids)
            && DeliveryCount(w, steps) <= AttemptsLeft(w.db.msgs, ids)
    decreases |steps|
  {
    if steps == [] {
      AttemptsLeftNonNegative(w.db.msgs, w.db.msgs.Keys - {NIL});
    } else {
      var w' := Apply(w, steps[0]);
      StepKeepsSound(w, steps[0]);
      if steps[0].FinishPoll? {
        PollDrains(w, steps[0].txn);
        PollStaysInBudget(w, steps[0].txn);
      }
      PollsSpendAttempts(w', steps[1..]);
    }
  }

  /** A checkpoint that leaves its message an attempt. */
  ghost predicate LeavesAttempt(w: World, s: Step) {
    s.CheckpointStep? && s.id in w.db.msgs ==> w.db.msgs[s.id].attempts + Coalesce(s.extra) >= 1
  }

  ghost predicate LeaveAttempts(w: World, steps: seq<Step>)
    requires IsRun(w, steps)
    decreases |steps|
  {
    steps == [] || (LeavesAttempt(w, steps[0]) && LeaveAttempts(Apply(w, steps[0]), steps[1..]))
  }

  lemma NewRowsInBudget(w: World, txn: Txn)
    requires Sound(w) && Allowed(w, FinishInsert(txn))
    ensures var msgs := Apply(w, FinishInsert(txn)).db.msgs;
            forall id | id in msgs && id !in w.db.msgs :: InBudget(msgs[id])
  {
    if InsertOutcome(w, txn).Committed? {
      var p := w.inserts[txn];
      NewRowKeys(p.now, p.batch, p.tails);
      forall id | id in Ids(p.batch) ensures InBudget(NewRows(p.now, p.batch, p.tails)[id]) {
        var m :| m in p.batch && m.id == id;
        NewRowAt(p.now, p.batch, p.tails, m);
      }
    }
  }

  lemma StepStaysInBudget(w: World, s: Step)
    requires Sound(w) && Allowed(w, s) && AllInBudget(w) && LeavesAttempt(w, s)
    ensures AllInBudget(Apply(w, s))
  {
    forall id | id in Apply(w, s).db.msgs && id != NIL ensures InBudget(Apply(w, s).db.msgs[id]) {
      if id in w.db.msgs {
        RowStep(w, s, id);
      } else {
        NewRowsInBudget(w, s.txn);
      }
    }
  }

  /** If every checkpoint leaves its message an attempt, all messages stay in budget. */
  lemma {:induction false} RunStaysInBudget(w: World, steps: seq<Step>)
    requires Sound(w) && AllInBudget(w) && IsRun(w, steps) && LeaveAttempts(w, steps)
    ensures AllInBudget(Exec(w, steps))
    decreases |steps|
  {
    if steps != [] {
      StepKeepsSound(w, steps[0]);
      StepStaysInBudget(w, steps[0]);
      RunStaysInBudget(Apply(w, steps[0]), steps[1..]);
    }
  }

  /** Draining: if every checkpoint so far has left its message an attempt, any interleaving of polls
      spends one attempt per delivery and leaves no row overdrawn, so it delivers at most as often
      as attempts were left. */
  lemma DrainingEnds(now: int, before: seq<Step>, w: World, steps: seq<Step>)
    requires LeadsTo(Init(now), before, w) && LeaveAttempts(Init(now), before)
    requires IsRun(w, steps) && OnlyPolls(steps)
    ensures var ids := w.db.msgs.Keys - {NIL};
            && Exec(w, steps).db.msgs.Keys == w.db.msgs.Keys
            && DeliveryCount(w, steps) + AttemptsLeft(Exec(w, steps).db.msgs, ids) == AttemptsLeft(w.db.msgs, ids)
            && DeliveryCount(w, steps) <= AttemptsLeft(w.db.msgs, ids)
  {
    InitIsSound(now);
    RunKeepsSound(Init(now), before);
    RunStaysInBudget(Init(now), before);
    PollsSpendAttempts(w, steps);
  }
}
