/** When the two tables agree, so that every message has its payload.

    `mq_delete` deletes from them in two statements.  A message that is inserted in between is
    missed by the first, and loses its payload to the second. */
module Agreement {
  import opened Schema
  import opened Lines
  import opened Statements
  import opened Insertion
  import opened Runs
  import opened Ordering
  import opened Scenarios

  /** The tables agree, polls in progress have found the payloads of their candidates, and deletions
      in progress know all of their messages. */
  ghost predicate Agreeing(w: World) {
    && TablesAgree(w.db)
    && (forall txn | txn in w.polls :: JoinFinds(w.polls[txn].picked))
    && (forall txn | txn in w.deletes :: w.deletes[txn].unseen == {})
  }

  /** A caller deletes only what has been inserted. */
  predicate Careful(w: World, s: Step) {
    s.BeginDelete? ==> s.ids <= w.used
  }

  ghost predicate CarefulRun(w: World, steps: seq<Step>)
    requires IsRun(w, steps)
    decreases |steps|
  {
    steps == [] || (Careful(w, steps[0]) && CarefulRun(Apply(w, steps[0]), steps[1..]))
  }

  lemma DeleteKeepsAgreement(db: Db, ids: set<Id>)
    requires TablesAgree(db) && NIL !in ids && DeleteMissing(db, ids, {}).Committed?
    ensures TablesAgree(DeleteMissing(db, ids, {}).db)
  {
    assert ids - {} == ids;
  }

  lemma InsertKeepsAgreement(w: World, txn: Txn)
    requires Sound(w) && Agreeing(w) && Allowed(w, FinishInsert(txn))
    ensures Agreeing(Apply(w, FinishInsert(txn)))
  {
    if InsertOutcome(w, txn).Committed? {
      InsertsRows(w.db, w.inserts[txn].now, w.inserts[txn].batch, w.inserts[txn].tails);
    }
  }

  lemma FinishKeepsAgreement(w: World, txn: Txn, missed: set<Id>)
    requires Sound(w) && Agreeing(w) && Allowed(w, FinishDelete(txn, missed))
    ensures Agreeing(Apply(w, FinishDelete(txn, missed)))
  {
    assert missed == {};
    if DeleteOutcome(w, txn, {}).Committed? {
      DeleteKeepsAgreement(w.db, w.deletes[txn].ids);
    }
  }

  lemma PollKeepsAgreement(w: World, s: Step)
    requires Sound(w) && Agreeing(w) && Allowed(w, s) && s.BeginPoll?
    ensures Agreeing(Apply(w, s))
  {
    PickedAreReady(w, s);
    PayloadsFound(w.db, s.now, s.subs, s.picked);
    AgreeingPolls(w, s.txn, PendingPoll(s.now, s.subs, s.size, Join(w.db, s.picked)));
  }

  predicate JoinFinds(picked: map<Id, Option<Payload>>) {
    forall id | id in picked :: picked[id].Some?
  }

  lemma PayloadsFound(db: Db, now: int, subs: Subscription, picked: set<Id>)
    requires TablesAgree(db) && picked <= ReadySet(db.msgs, now, subs)
    ensures JoinFinds(Join(db, picked))
  {
  }

  lemma AgreeingPolls(w: World, txn: Txn, p: PendingPoll)
    requires Agreeing(w) && JoinFinds(p.picked)
    ensures Agreeing(w.(polls := w.polls[txn := p]))
  {
  }

  lemma StepKeepsAgreement(w: World, s: Step)
    requires Sound(w) && Agreeing(w) && Allowed(w, s) && Careful(w, s)
    ensures Agreeing(Apply(w, s))
  {
    match s
    case FinishInsert(txn) => InsertKeepsAgreement(w, txn);
    case FinishDelete(txn, missed) => FinishKeepsAgreement(w, txn, missed);
    case BeginPoll(_, _, _, _, _, _, _) => PollKeepsAgreement(w, s);
    case _ =>
      if UpdatesRows(s) {
        UpdateStep(w, s);
      }
  }

  lemma {:induction false} RunKeepsAgreement(w: World, steps: seq<Step>)
    requires Sound(w) && Agreeing(w) && IsRun(w, steps) && CarefulRun(w, steps)
    ensures Agreeing(Exec(w, steps))
    decreases |steps|
  {
    if steps != [] {
      StepKeepsSound(w, steps[0]);
      StepKeepsAgreement(w, steps[0]);
      RunKeepsAgreement(Apply(w, steps[0]), steps[1..]);
    }
  }

  /** Reachable with callers that delete only what has been inserted. */
  ghost predicate CarefullyReachable(w: World) {
    exists now, steps :: LeadsTo(Init(now), steps, w) && CarefulRun(Init(now), steps)
  }

  /** Then every message but nil has a payload, and nothing else has. */
  lemma ReachableTablesAgree(w: World)
    requires CarefullyReachable(w)
    ensures Reachable(w) && w.db.payloads.Keys == w.db.msgs.Keys - {NIL} && Agreeing(w)
  {
    var now, steps :| LeadsTo(Init(now), steps, w) && CarefulRun(Init(now), steps);
    InitIsSound(now);
    RunKeepsAgreement(Init(now), steps);
  }

  // One deletion among careful ones

  /** After careful steps of everyone, the deletion writes, and the tables agree. */
  ghost predicate AgreesAfter(w: World, txn: Txn, steps: seq<Step>, missed: set<Id>) {
    IsRun(w, steps) && CarefulRun(w, steps) && !Finishes(steps, txn)
    && PendingShape(Exec(w, steps)) && Allowed(Exec(w, steps), FinishDelete(txn, missed)) ==>
      TablesAgree(Apply(Exec(w, steps), FinishDelete(txn, missed)).db)
  }

  /** A deletion leaves the tables in agreement, in every run and wherever inserts commit between its
      statements, exactly if its messages have all been inserted when it begins. */
  lemma DeleteAgreesIff(w: World, txn: Txn, ids: set<Id>)
    requires Reachable(w) && Agreeing(w) && PendingShape(w) && Allowed(w, BeginDelete(txn, ids))
    ensures ids <= w.used <==> forall steps, missed :: AgreesAfter(Apply(w, BeginDelete(txn, ids)), txn, steps, missed)
  {
    ReachableIsSound(w);
    var begin := BeginDelete(txn, ids);
    Extend(w, begin);
    var w1 := Apply(w, begin);
    StepKeepsSound(w, begin);
    if ids <= w.used {
      StepKeepsAgreement(w, begin);
      forall steps, missed ensures AgreesAfter(w1, txn, steps, missed) {
        SeenDeleteAgrees(w1, txn, steps, missed);
      }
    } else {
      var steps, w', x := DisagreeingRun(w1, txn);
      assert !AgreesAfter(w1, txn, steps, {x});
    }
  }

  lemma SeenDeleteAgrees(w: World, txn: Txn, steps: seq<Step>, missed: set<Id>)
    requires Sound(w) && Agreeing(w)
    ensures AgreesAfter(w, txn, steps, missed)
  {
    if IsRun(w, steps) && CarefulRun(w, steps) {
      RunKeepsSound(w, steps);
      RunKeepsAgreement(w, steps);
      if Allowed(Exec(w, steps), FinishDelete(txn, missed)) {
        StepKeepsAgreement(Exec(w, steps), FinishDelete(txn, missed));
      }
    }
  }

  lemma {:induction false} CarefulConcat(w: World, first: seq<Step>, second: seq<Step>)
    requires IsRun(w, first) && CarefulRun(w, first)
    requires IsRun(Exec(w, first), second) && CarefulRun(Exec(w, first), second)
    ensures IsRun(w, first + second) && CarefulRun(w, first + second)
    decreases |first|
  {
    RunAppend(w, first, second);
    if first == [] {
      assert first + second == second;
    } else {
      assert (first + second)[1..] == first[1..] + second;
      CarefulConcat(Apply(w, first[0]), first[1..], second);
    }
  }

  lemma TwoCareful(w: World, steps: seq<Step>)
    requires IsRun(w, steps) && |steps| == 2 && Careful(w, steps[0]) && !steps[1].BeginDelete?
    ensures CarefulRun(w, steps)
  {
    assert steps[1..][0] == steps[1] && steps[1..][1..] == [];
  }

  /** Everything else is deleted, and then a message that the deletion did not know is inserted
      between its two statements. */
  lemma DisagreeingRun(w: World, txn: Txn) returns (steps: seq<Step>, w': World, x: Id)
    requires Reachable(w) && PendingShape(w) && txn in w.deletes
    requires w.deletes[txn].unseen <= w.deletes[txn].ids && exists x :: x in w.deletes[txn].unseen && x !in w.used
    ensures LeadsTo(w, steps, w') && CarefulRun(w, steps) && !Finishes(steps, txn)
    ensures PendingShape(w') && Allowed(w', FinishDelete(txn, {x}))
    ensures !TablesAgree(Apply(w', FinishDelete(txn, {x})).db)
  {
    x :| x in w.deletes[txn].unseen && x !in w.used;
    steps, w' := OnlyUnseen(w, x);
    PendingStays(w, steps, txn);
    MissedLosesPayload(w', txn, x);
  }

  lemma OnlyUnseen(w: World, x: Id) returns (steps: seq<Step>, w': World)
    requires Reachable(w) && PendingShape(w) && x !in w.used && x != NIL
    ensures LeadsTo(w, steps, w') && CarefulRun(w, steps) && forall txn | txn in w.deletes :: !Finishes(steps, txn)
    ensures Reachable(w') && PendingShape(w') && w'.db.msgs.Keys == {NIL, x}
  {
    var first, w1 := DeleteEverything(w);
    var second;
    second, w' := InsertUnseen(w1, x);
    steps := first + second;
    CarefulThen(w, first, w1, second, w');
    forall txn | txn in w.deletes ensures !Finishes(steps, txn) {
      NeitherFinishes(first, second, txn);
    }
  }

  lemma DeleteEverything(w: World) returns (steps: seq<Step>, w': World)
    requires Reachable(w) && PendingShape(w)
    ensures LeadsTo(w, steps, w') && CarefulRun(w, steps) && forall txn | txn in w.deletes :: !Finishes(steps, txn)
    ensures Reachable(w') && PendingShape(w') && w'.db.msgs.Keys == {NIL}
    ensures w'.used == w.used && w'.deletes == w.deletes
  {
    steps, w' := DeleteOthers(w, {});
    TwoCareful(w, steps);
  }

  lemma NeitherFinishes(first: seq<Step>, second: seq<Step>, txn: Txn)
    requires !Finishes(first, txn) && forall s | s in second :: !s.FinishDelete?
    ensures !Finishes(first + second, txn)
  {
  }

  lemma CarefulThen(w: World, first: seq<Step>, w1: World, second: seq<Step>, w2: World)
    requires LeadsTo(w, first, w1) && CarefulRun(w, first) && LeadsTo(w1, second, w2) && CarefulRun(w1, second)
    ensures LeadsTo(w, first + second, w2) && CarefulRun(w, first + second)
  {
    CarefulConcat(w, first, second);
    RunAppend(w, first, second);
  }

  lemma InsertUnseen(w: World, x: Id) returns (steps: seq<Step>, w': World)
    requires Reachable(w) && PendingShape(w) && w.db.msgs.Keys == {NIL} && x !in w.used && x != NIL
    ensures LeadsTo(w, steps, w') && CarefulRun(w, steps) && forall s | s in steps :: !s.FinishDelete?
    ensures Reachable(w') && PendingShape(w') && w'.deletes == w.deletes && w'.db.msgs.Keys == {NIL, x}
  {
    var m := NewMsg(x, 0, 0, 0, Channel("", ""), None, false, Payload("", None, None));
    steps, w' := InsertOne(w, 0, m);
    IdsOfOne(m);
    TwoCareful(w, steps);
  }

  lemma MissedLosesPayload(w: World, txn: Txn, x: Id)
    requires Reachable(w) && PendingShape(w) && txn in w.deletes && x in w.deletes[txn].unseen
    requires w.deletes[txn].unseen <= w.deletes[txn].ids && w.db.msgs.Keys == {NIL, x}
    ensures Allowed(w, FinishDelete(txn, {x}))
    ensures var db := Apply(w, FinishDelete(txn, {x})).db;
            db.msgs == w.db.msgs && x in db.msgs && x !in db.payloads && x != NIL && !TablesAgree(db)
  {
    assert Lined(w.db.msgs) by {
      ReachableIsSound(w);
    }
    LinedImpliesConstraints(w.db.msgs);
    assert Promote(w.db.msgs, (w.deletes[txn].ids - {x}) * w.db.msgs.Keys) == w.db.msgs;
  }
}
