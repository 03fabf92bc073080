/** Reachable runs in which a message is lost. */
module Losses {
  import opened Schema
  import opened Lines
  import opened Rows
  import opened Statements
  import opened Runs
  import opened Ordering
  import opened Scenarios
  import opened Agreement
  import opened Dispatching
  import opened Reservations

  /** A deletion of a message that does not exist yet is in progress when it is inserted. */
  lemma InsertedMeanwhile(c: Channel) returns (w: World)
    ensures Reachable(w) && PendingShape(w) && w.polls == map[] && w.db.msgs.Keys == {NIL, 1}
    ensures 0 in w.deletes && w.deletes[0].ids == {1} && w.deletes[0].unseen == {1}
    ensures var row := w.db.msgs[1];
            row.channel == c && row.after == Some(NIL) && row.commitInterval.None? && row.attemptAt == Some(0)
  {
    InitReachable(0);
    var w1 := LookAtHeads(Init(0), 0, {1});
    assert {1} - {} == {1};
    var steps;
    steps, w := NextInLine(w1, c, 1, 0, []);
    assert [] + [1] == [1];
    FirstWaitsForNil(w.db.msgs, c, LineOf(w.db.msgs, c));
  }

  lemma LosePayload(w: World) returns (w': World)
    requires Reachable(w) && PendingShape(w) && w.db.msgs.Keys == {NIL, 1}
    requires 0 in w.deletes && w.deletes[0].ids == {1} && w.deletes[0].unseen == {1}
    ensures Reachable(w') && PendingShape(w') && w'.polls == w.polls
    ensures w'.db.msgs == w.db.msgs && 1 !in w'.db.payloads
  {
    MissedLosesPayload(w, 0, 1);
    Extend(w, FinishDelete(0, {1}));
    w' := Apply(w, FinishDelete(0, {1}));
  }

  /** Deleting a message that is inserted only between the two statements of the deletion: it stays
      without a payload, at the head of its channel.  A poll delivers it, and it is skipped: it is
      neither dispatched nor put up for deletion. */
  lemma MissedMessageIsSkipped(c: Channel) returns (w: World)
    ensures Reachable(w) && 0 in w.polls && DeliveredBy(w, 0) == {1} && 1 in w.db.msgs && !TablesAgree(w.db)
    ensures w.db.msgs[1].channel == c && w.db.msgs[1].after == Some(NIL) && w.db.msgs[1].commitInterval.None?
    ensures forall messages | IsAnswer(w, 0, messages) :: JobsIn(messages) == [] && ReservationsIn(messages) == []
  {
    var w1 := InsertedMeanwhile(c);
    var w2 := LosePayload(w1);
    w := PollOne(w2, 0);
    PolledIsSkipped(w, 0, 1);
  }

  lemma PollOne(w: World, now: int) returns (w': World)
    requires Reachable(w) && PendingShape(w) && w.polls == map[] && w.db.msgs.Keys == {NIL, 1}
    requires IsHead(w.db.msgs[1]) && Due(w.db.msgs[1], now)
    ensures Reachable(w') && PendingShape(w') && w'.db == w.db
    ensures 0 in w'.polls && DeliveredBy(w', 0) == {1} && w'.polls[0].picked == Join(w.db, {1})
  {
    PollFinds(w, 0, now, 1);
    Extend(w, PollFor(w, 0, now, 1));
    w' := Apply(w, PollFor(w, 0, now, 1));
  }

  lemma PolledIsSkipped(w: World, txn: Txn, id: Id)
    requires Reachable(w) && txn in w.polls && DeliveredBy(w, txn) == {id} && id in w.db.msgs
    requires w.db.msgs[id].commitInterval.None? && w.polls[txn].picked[id].None?
    ensures forall messages | IsAnswer(w, txn, messages) :: JobsIn(messages) == [] && ReservationsIn(messages) == []
  {
    forall messages | IsAnswer(w, txn, messages) ensures JobsIn(messages) == [] && ReservationsIn(messages) == [] {
      AnswerIsUsed(w, txn, messages);
      NobodyIn(messages);
    }
  }

  lemma NobodyIn(messages: seq<PolledMessage>)
    requires (forall job :: job !in JobsIn(messages)) && forall id :: id !in ReservationsIn(messages)
    ensures JobsIn(messages) == [] && ReservationsIn(messages) == []
  {
    assert JobsIn(messages) != [] ==> JobsIn(messages)[0] in JobsIn(messages);
    assert ReservationsIn(messages) != [] ==> ReservationsIn(messages)[0] in ReservationsIn(messages);
  }

  // Committed too late

  lemma {:induction false} ExpirationsConcat(w: World, first: seq<Step>, second: seq<Step>)
    requires IsRun(w, first) && IsRun(Exec(w, first), second)
    ensures IsRun(w, first + second)
    ensures Expirations(w, first + second) == Expirations(w, first) + Expirations(Exec(w, first), second)
    decreases |first|
  {
    RunAppend(w, first, second);
    if first == [] {
      assert first + second == second;
    } else {
      assert (first + second)[1..] == first[1..] + second;
      ExpirationsConcat(Apply(w, first[0]), first[1..], second);
    }
  }

  /** A reservation of 10 microseconds, inserted at 0. */
  lemma Reserve() returns (steps: seq<Step>, w: World)
    ensures LeadsTo(Init(0), steps, w)
    ensures Reachable(w) && PendingShape(w) && w.polls == map[] && w.db.msgs.Keys == {NIL, 1}
    ensures var row := w.db.msgs[1];
            IsHead(row) && row.commitInterval == Some(10) && row.attemptAt == Some(10) && row.attempts == 2
  {
    var m := NewMsg(1, 0, 1, 0, Channel("", ""), Some(10), false, Payload("", None, None));
    InitReachable(0);
    steps, w := InsertOne(Init(0), 0, m);
    IdsOfOne(m);
  }

  /** It expires: a poll delivers it uncommitted. */
  lemma Expire(w: World) returns (steps: seq<Step>, w': World)
    requires Reachable(w) && PendingShape(w) && w.polls == map[] && w.db.msgs.Keys == {NIL, 1}
    requires IsHead(w.db.msgs[1]) && w.db.msgs[1].commitInterval == Some(10) && Due(w.db.msgs[1], 10)
    ensures LeadsTo(w, steps, w') && Reachable(w') && PendingShape(w') && w'.db.msgs.Keys == {NIL, 1}
    ensures w'.db.msgs[1] == Lease(w.db.msgs[1], 10) && HasExpired(w, steps, 1)
  {
    steps, w' := PollSteps(w, 10, 1);
    OneStep(w, steps[0]);
    ExpiresSecond(w, steps[0], Apply(w, steps[0]), w');
  }

  lemma ExpiresNow(w: World, txn: Txn)
    requires PendingShape(w) && txn in w.polls && DeliveredBy(w, txn) == {1}
    requires 1 in w.db.msgs && w.db.msgs[1].commitInterval.Some?
    ensures IsRun(w, [FinishPoll(txn)]) && HasExpired(w, [FinishPoll(txn)], 1)
  {
    OneStep(w, FinishPoll(txn));
    assert 1 in ExpiredIn(w, txn);
    assert ExpiredIn(w, txn) in Expirations(w, [FinishPoll(txn)]);
  }

  lemma ExpiresSecond(w: World, begin: Step, w1: World, w2: World)
    requires LeadsTo(w, [begin], w1) && PendingShape(w1) && 0 in w1.polls && DeliveredBy(w1, 0) == {1}
    requires 1 in w1.db.msgs && w1.db.msgs[1].commitInterval.Some? && w2 == Apply(w1, FinishPoll(0))
    ensures LeadsTo(w, [begin, FinishPoll(0)], w2) && HasExpired(w, [begin, FinishPoll(0)], 1)
  {
    ExpiresNow(w1, 0);
    OneStep(w1, FinishPoll(0));
    StillExpired(w, [begin], w1, [FinishPoll(0)], w2, 1);
    assert [begin, FinishPoll(0)] == [begin] + [FinishPoll(0)];
  }

  lemma CommitIt(w: World) returns (w': World)
    requires Reachable(w) && PendingShape(w) && 1 in w.db.msgs && w.db.msgs[1].commitInterval.Some?
    ensures LeadsTo(w, [CommitStep({1})], w') && PendingShape(w')
    ensures 1 in w'.db.msgs && w'.db.msgs[1] == CommitRow(w.db.msgs[1])
  {
    Extend(w, CommitStep({1}));
    OneStep(w, CommitStep({1}));
    w' := Apply(w, CommitStep({1}));
  }

  lemma StillExpired(w: World, first: seq<Step>, w1: World, second: seq<Step>, w2: World, id: Id)
    requires LeadsTo(w, first, w1) && LeadsTo(w1, second, w2)
    requires HasExpired(w, first, id) || HasExpired(w1, second, id)
    ensures LeadsTo(w, first + second, w2) && HasExpired(w, first + second, id)
  {
    ExpirationsConcat(w, first, second);
    RunAppend(w, first, second);
    var ids :| (ids in Expirations(w, first) || ids in Expirations(w1, second)) && id in ids;
    assert ids in Expirations(w, first + second);
  }

  /** A message whose commit comes just after it has expired: the commit goes through and leaves it an
      attempt, and yet a runner can delete it. */
  lemma CommittedIsLost() returns (before: seq<Step>, w: World)
    ensures LeadsTo(Init(0), before + [CommitStep({1})], w) && 1 in w.db.msgs
    ensures var row := w.db.msgs[1]; row.commitInterval.None? && row.attempts == 1 && row.attemptAt.Some?
    ensures CanLose(Init(0), before + [CommitStep({1})], w, 1)
  {
    var insert, w1 := Reserve();
    var poll, w2 := Expire(w1);
    w := CommitIt(w2);
    before := insert + poll;
    StillExpired(Init(0), insert, w1, poll, w2, 1);
    StillExpired(Init(0), before, w2, [CommitStep({1})], w, 1);
    CommittedIsLostIff(0, before + [CommitStep({1})], w, 1);
  }
}
