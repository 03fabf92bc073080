/** When a reservation that is committed may still be deleted as expired.

    A poll delivers a reservation whose commit interval is over, and the runner then deletes it.  In
    between, its owner may commit it. */
module Reservations {
  import opened Schema
  import opened Runs
  import opened Ordering
  import Histories
  import opened Scenarios
  import opened Dispatching

  /** What the poll delivers uncommitted, and its runner is going to delete. */
  ghost function ExpiredIn(w: World, txn: Txn): set<Id>
    requires txn in w.polls
  {
    set id | id in DeliveredBy(w, txn) && IsExpired(w, txn, id)
  }

  /** The deletions that the polls of a run give rise to. */
  ghost function Expirations(w: World, steps: seq<Step>): set<set<Id>>
    requires IsRun(w, steps)
    decreases |steps|
  {
    if steps == [] then {}
    else (if steps[0].FinishPoll? then {ExpiredIn(w, steps[0].txn)} else {})
         + Expirations(Apply(w, steps[0]), steps[1..])
  }

  ghost predicate HasExpired(w: World, steps: seq<Step>, id: Id)
    requires IsRun(w, steps)
  {
    exists ids | ids in Expirations(w, steps) :: id in ids
  }

  /** There is a run from `w`, which `before` has led to, in which a runner deletes `id` as expired:
      after `first` it begins a deletion that one of the polls has given rise to, and after `rest`
      the message is gone. */
  ghost predicate CanLose(w0: World, before: seq<Step>, w: World, id: Id)
    requires IsRun(w0, before)
  {
    exists first, w1, txn, ids, rest, w2 ::
      && LeadsTo(w, first, w1) && PendingShape(w1) && Allowed(w1, BeginDelete(txn, ids))
      && ids in Expirations(w0, before) + Expirations(w, first) && id in ids && id in w1.db.msgs
      && LeadsTo(Apply(w1, BeginDelete(txn, ids)), rest, w2) && id !in w2.db.msgs
  }

  /** A message that has been committed stays so, or goes. */
  ghost predicate CommittedOrGone(w: World, id: Id) {
    id in w.used && (id in w.db.msgs ==> w.db.msgs[id].commitInterval.None?)
  }

  lemma StepStaysCommitted(w: World, s: Step, id: Id)
    requires Sound(w) && Allowed(w, s) && CommittedOrGone(w, id)
    ensures CommittedOrGone(Apply(w, s), id)
  {
    StepKeepsSound(w, s);
    if id in Apply(w, s).db.msgs {
      Histories.RowStep(w, s, id);
    }
  }

  lemma {:induction false} CommittedNeverExpires(w: World, steps: seq<Step>, id: Id)
    requires Sound(w) && IsRun(w, steps) && CommittedOrGone(w, id)
    ensures !HasExpired(w, steps, id)
    decreases |steps|
  {
    if steps != [] {
      StepKeepsSound(w, steps[0]);
      StepStaysCommitted(w, steps[0], id);
      CommittedNeverExpires(Apply(w, steps[0]), steps[1..], id);
      forall ids | ids in Expirations(w, steps) ensures id !in ids {
        assert ids in Expirations(Apply(w, steps[0]), steps[1..]) || ids == ExpiredIn(w, steps[0].txn);
      }
    }
  }

  /** What a poll has delivered is a head or gone. */
  ghost predicate HeadsOrGone(w: World, ids: set<Id>) {
    NIL !in ids && ids <= w.used && forall id | id in ids && id in w.db.msgs :: IsHead(w.db.msgs[id])
  }

  lemma {:induction false} ExpiredAreHeads(w: World, steps: seq<Step>, ids: set<Id>)
    requires Sound(w) && IsRun(w, steps) && ids in Expirations(w, steps)
    ensures HeadsOrGone(Exec(w, steps), ids)
    decreases |steps|
  {
    var w' := Apply(w, steps[0]);
    StepKeepsSound(w, steps[0]);
    if ids in Expirations(w', steps[1..]) {
      ExpiredAreHeads(w', steps[1..], ids);
    } else {
      assert CandidatesSeen(w, w.polls[steps[0].txn]);
      assert HeadsOrGone(w, ids);
      RunKeepsSound(w', steps[1..]);
    }
  }

  lemma DeletesAll(w: World, ids: set<Id>)
    requires Reachable(w) && PendingShape(w) && HeadsOrGone(w, ids)
    ensures exists txn, rest, w2 ::
              && Allowed(w, BeginDelete(txn, ids)) && LeadsTo(Apply(w, BeginDelete(txn, ids)), rest, w2)
              && forall id | id in ids :: id !in w2.db.msgs
  {
    ReachableIsSound(w);
    DeletingHeadsCommits(w, ids);
    var steps, w2 := DeleteAtOnce(w, ids);
    var rest := steps[1..];
    assert steps == [steps[0]] + rest;
    assert LeadsTo(Apply(w, BeginDelete(steps[0].txn, ids)), rest, w2);
  }

  /** A committed message can still be deleted as an expired reservation exactly if some poll had
      delivered it before it was committed. */
  lemma CommittedIsLostIff(now: int, before: seq<Step>, w: World, id: Id)
    requires LeadsTo(Init(now), before, w) && PendingShape(w)
    requires id != NIL && id in w.db.msgs && w.db.msgs[id].commitInterval.None?
    ensures CanLose(Init(now), before, w, id) <==> HasExpired(Init(now), before, id)
  {
    InitIsSound(now);
    RunKeepsSound(Init(now), before);
    if HasExpired(Init(now), before, id) {
      var ids :| ids in Expirations(Init(now), before) && id in ids;
      ExpiredAreHeads(Init(now), before, ids);
      DeletesAll(w, ids);
      var txn, rest, w2 :| && Allowed(w, BeginDelete(txn, ids)) && LeadsTo(Apply(w, BeginDelete(txn, ids)), rest, w2)
                           && forall id | id in ids :: id !in w2.db.msgs;
      assert LeadsTo(w, [], w) && Expirations(w, []) == {};
    }
    if CanLose(Init(now), before, w, id) {
      LostWasExpired(now, before, w, id);
    }
  }

  lemma LostWasExpired(now: int, before: seq<Step>, w: World, id: Id)
    requires LeadsTo(Init(now), before, w) && Sound(w) && CommittedOrGone(w, id)
    requires CanLose(Init(now), before, w, id)
    ensures HasExpired(Init(now), before, id)
  {
    var first, w1, txn, ids, rest, w2 :|
      && LeadsTo(w, first, w1) && PendingShape(w1) && Allowed(w1, BeginDelete(txn, ids))
      && ids in Expirations(Init(now), before) + Expirations(w, first) && id in ids && id in w1.db.msgs
      && LeadsTo(Apply(w1, BeginDelete(txn, ids)), rest, w2) && id !in w2.db.msgs;
    CommittedNeverExpires(w, first, id);
  }
}
