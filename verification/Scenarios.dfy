/** Runs without interference, as building blocks for concrete ones. */
module Scenarios {
  import opened Schema
  import opened Batches
  import opened Lines
  import opened Rows
  import opened Statements
  import opened Polling
  import opened Deletion
  import opened Insertion
  import opened Runs
  import opened Ordering

  lemma Extend(w: World, s: Step)
    requires Reachable(w) && PendingShape(w) && Allowed(w, s)
    ensures Reachable(Apply(w, s)) && PendingShape(Apply(w, s))
  {
    assert IsRun(w, [s]) by {
      assert [s][1..] == [];
    }
    assert Exec(w, [s]) == Apply(w, s) by {
      assert [s][1..] == [];
    }
    RunFromReachable(w, [s]);
    ReachableIsSound(Apply(w, s));
  }

  lemma InitReachable(now: int)
    ensures Reachable(Init(now)) && PendingShape(Init(now))
    ensures forall c :: HasLine(Init(now).db.msgs, c) && LineOf(Init(now).db.msgs, c) == []
  {
    assert IsRun(Init(now), []) && Exec(Init(now), []) == Init(now);
    assert LeadsTo(Init(now), [], Init(now));
    forall c ensures HasLine(Init(now).db.msgs, c) && LineOf(Init(now).db.msgs, c) == [] {
      LineIs(Init(now).db.msgs, c, []);
    }
  }

  lemma ReadAll(w: World, batch: seq<NewMsg>) returns (tails: Tails)
    requires Reachable(w)
    ensures tails.Keys == OrderedChannels(batch) && TailsCurrent(w.db.msgs, batch, tails)
    ensures forall c | c in tails :: IsLatest(w.db.msgs, c, tails[c])
  {
    ReachableIsSound(w);
    tails := CurrentTails(w.db.msgs, batch);
    forall c | c in OrderedChannels(batch) ensures HasLine(w.db.msgs, c) {}
    forall c | c in tails ensures IsLatest(w.db.msgs, c, tails[c]) {
      LatestIsTail(w.db.msgs, c, tails[c]);
    }
  }

  /** What `w'` has on top of `w` after a message was inserted. */
  ghost predicate HasOneMore(w: World, w': World, now: int, m: NewMsg) {
    && w'.inserts == w.inserts && w'.polls == w.polls && w'.deletes == w.deletes
    && w'.used == w.used + {m.id} && m.id !in w.db.msgs
    && Inserted(w.db, w'.db, now, [m])
    && forall c :: HasLine(w.db.msgs, c) && HasLine(w'.db.msgs, c) &&
         LineOf(w'.db.msgs, c) == LineOf(w.db.msgs, c) + if m.ordered && c == m.channel then [m.id] else []
  }

  lemma IdsOfOne(m: NewMsg)
    ensures Ids([m]) == {m.id}
  {
    assert m in [m];
  }

  lemma FreshOne(w: World, m: NewMsg)
    requires Sound(w) && m.id != NIL && m.id !in w.used
    ensures Ids([m]) == {m.id} && FreshKeys(w.db, [m])
  {
    IdsOfOne(m);
  }

  lemma OneMoreInLine(w: World, txn: Txn, m: NewMsg)
    requires Reachable(w) && PendingShape(w) && Allowed(w, FinishInsert(txn)) && w.inserts[txn].batch == [m]
    requires TailsCurrent(w.db.msgs, [m], w.inserts[txn].tails) && FreshKeys(w.db, [m])
    ensures InsertOutcome(w, txn).Committed?
    ensures forall c :: HasLine(w.db.msgs, c) && HasLine(InsertOutcome(w, txn).db.msgs, c) &&
              LineOf(InsertOutcome(w, txn).db.msgs, c) ==
              LineOf(w.db.msgs, c) + if m.ordered && c == m.channel then [m.id] else []
  {
    OptimisticAppend(w, txn);
    var after := InsertOutcome(w, txn).db.msgs;
    forall c
      ensures HasLine(w.db.msgs, c) && HasLine(after, c)
      ensures LineOf(after, c) == LineOf(w.db.msgs, c) + if m.ordered && c == m.channel then [m.id] else []
    {
      SortedSingle([m], m, c);
    }
  }

  lemma FinishOne(w: World, txn: Txn, m: NewMsg)
    requires Reachable(w) && PendingShape(w) && txn in w.inserts && w.inserts[txn].batch == [m]
    requires TailsCurrent(w.db.msgs, [m], w.inserts[txn].tails) && m.id != NIL && m.id !in w.used
    ensures Allowed(w, FinishInsert(txn))
    ensures HasOneMore(w.(inserts := w.inserts - {txn}), Apply(w, FinishInsert(txn)), w.inserts[txn].now, m)
  {
    ReachableIsSound(w);
    FreshOne(w, m);
    OneMoreInLine(w, txn, m);
    InsertsRows(w.db, w.inserts[txn].now, [m], w.inserts[txn].tails);
  }

  lemma FreshTxn(taken: set<Txn>) returns (txn: Txn)
    ensures txn !in taken
  {
    txn := 0;
    if taken != {} {
      var top := MaxExists(taken);
      txn := top + 1;
    }
  }

  /** One message inserted without interference. */
  lemma InsertOne(w: World, now: int, m: NewMsg) returns (steps: seq<Step>, w': World)
    requires Reachable(w) && PendingShape(w) && m.id != NIL && m.id !in w.used
    ensures LeadsTo(w, steps, w') && |steps| == 2 && steps[0].BeginInsert? && steps[1].FinishInsert?
    ensures Reachable(w') && PendingShape(w') && HasOneMore(w, w', now, m)
    ensures m.id in w'.db.msgs && InsertedAs(m, now, w'.db.msgs[m.id])
  {
    var txn := FreshTxn(w.inserts.Keys);
    var tails := ReadAll(w, [m]);
    steps := [BeginInsert(txn, now, [m], tails), FinishInsert(txn)];
    var w1 := Apply(w, steps[0]);
    Extend(w, steps[0]);
    assert w1.inserts - {txn} == w.inserts;
    FinishOne(w1, txn, m);
    w' := Apply(w1, steps[1]);
    Extend(w1, steps[1]);
    TwoSteps(w, steps[0], steps[1]);
    assert m in [m];
  }

  /** A deletion with nothing between its two statements. */
  lemma DeleteAtOnce(w: World, ids: set<Id>) returns (steps: seq<Step>, w': World)
    requires Reachable(w) && PendingShape(w) && NIL !in ids && DeleteRows(w.db, ids).Committed?
    ensures LeadsTo(w, steps, w') && Reachable(w') && PendingShape(w')
    ensures forall txn | txn in w.deletes :: !Finishes(steps, txn)
    ensures w' == w.(db := DeleteRows(w.db, ids).db)
    ensures |steps| == 2 && steps[0].BeginDelete? && steps[0].ids == ids && steps[1].FinishDelete?
  {
    var txn := FreshTxn(w.deletes.Keys);
    var w1 := LookAtHeads(w, txn, ids);
    w' := WriteDelete(w1, txn);
    steps := [BeginDelete(txn, ids), FinishDelete(txn, {})];
    Concat(w, [BeginDelete(txn, ids)], w1, [FinishDelete(txn, {})], w');
    assert steps == [BeginDelete(txn, ids)] + [FinishDelete(txn, {})];
    assert w1.deletes - {txn} == w.deletes;
  }

  /** Someone else deletes every message but `keep`. */
  lemma DeleteOthers(w: World, keep: set<Id>) returns (steps: seq<Step>, w': World)
    requires Reachable(w) && PendingShape(w) && keep <= w.db.msgs.Keys - {NIL} && |keep| <= 1
    ensures LeadsTo(w, steps, w') && Reachable(w') && PendingShape(w')
    ensures forall txn | txn in w.deletes :: !Finishes(steps, txn)
    ensures |steps| == 2 && steps[0].BeginDelete? && steps[0].ids <= w.used && steps[1].FinishDelete?
    ensures w'.db.msgs.Keys == {NIL} + keep && w'.used == w.used && w'.deletes == w.deletes
    ensures forall id | id in keep :: id in w'.db.msgs && id in w.db.msgs
              && w'.db.msgs[id].channel == w.db.msgs[id].channel
              && (w'.db.msgs[id].after.Some? <==> w.db.msgs[id].after.Some?)
  {
    assert Lined(w.db.msgs) && UsedCovers(w) by {
      ReachableIsSound(w);
    }
    var ids := w.db.msgs.Keys - {NIL} - keep;
    KeepingOneCommits(w.db, ids, keep);
    steps, w' := DeleteAtOnce(w, ids);
    KeptRows(w.db, ids);
  }

  lemma KeptRows(db: Db, ids: set<Id>)
    requires DeleteRows(db, ids).Committed?
    ensures DeleteRows(db, ids).db.msgs.Keys == db.msgs.Keys - ids
    ensures forall id | id in db.msgs && id !in ids :: id in DeleteRows(db, ids).db.msgs
              && DeleteRows(db, ids).db.msgs[id].channel == db.msgs[id].channel
              && (DeleteRows(db, ids).db.msgs[id].after.Some? <==> db.msgs[id].after.Some?)
  {
  }

  lemma KeepingOneCommits(db: Db, ids: set<Id>, keep: set<Id>)
    requires Lined(db.msgs) && ids == db.msgs.Keys - {NIL} - keep && |keep| <= 1 && NIL !in keep
    ensures DeleteRows(db, ids).Committed?
  {
    forall c ensures HasLine(db.msgs, c) && Contiguous(LineOf(db.msgs, c), ids) {
      assert HasLine(db.msgs, c);
      var line := LineOf(db.msgs, c);
      assert forall k | 0 <= k < |line| :: Ordered(db.msgs, c, line[k]);
      if k :| 0 <= k < |line| && line[k] in keep {
        assert keep == {line[k]} by {
          assert |keep - {line[k]}| == 0;
        }
        assert Keeps(line, ids, k, k + 1);
      } else {
        assert Keeps(line, ids, 0, 0);
      }
    }
    DeleteCommitsIff(db, ids);
  }

  lemma Concat(w: World, first: seq<Step>, w1: World, second: seq<Step>, w2: World)
    requires LeadsTo(w, first, w1) && LeadsTo(w1, second, w2)
    ensures LeadsTo(w, first + second, w2)
  {
    RunAppend(w, first, second);
  }

  lemma LookAtHeads(w: World, txn: Txn, ids: set<Id>) returns (w': World)
    requires Reachable(w) && PendingShape(w) && txn !in w.deletes && NIL !in ids
    ensures Reachable(w') && PendingShape(w')
    ensures LeadsTo(w, [BeginDelete(txn, ids)], w')
    ensures w' == w.(deletes := w.deletes[txn := PendingDelete(ids, ids - w.used, DeleteNotices(w.db.msgs, ids))])
  {
    Extend(w, BeginDelete(txn, ids));
    OneStep(w, BeginDelete(txn, ids));
    w' := Apply(w, BeginDelete(txn, ids));
  }

  lemma WriteDelete(w: World, txn: Txn) returns (w': World)
    requires Reachable(w) && PendingShape(w) && txn in w.deletes && DeleteRows(w.db, w.deletes[txn].ids).Committed?
    ensures LeadsTo(w, [FinishDelete(txn, {})], w') && Reachable(w') && PendingShape(w')
    ensures w' == w.(db := DeleteRows(w.db, w.deletes[txn].ids).db, deletes := w.deletes - {txn})
  {
    var ids := w.deletes[txn].ids;
    assert ids - {} == ids;
    Extend(w, FinishDelete(txn, {}));
    OneStep(w, FinishDelete(txn, {}));
    w' := Apply(w, FinishDelete(txn, {}));
  }

  lemma OneStep(w: World, s: Step)
    requires PendingShape(w) && Allowed(w, s)
    ensures LeadsTo(w, [s], Apply(w, s))
  {
    assert [s][1..] == [];
    assert IsRun(Apply(w, s), []) && Exec(Apply(w, s), []) == Apply(w, s);
  }

  lemma TwoSteps(w: World, a: Step, b: Step)
    requires PendingShape(w) && Allowed(w, a) && PendingShape(Apply(w, a)) && Allowed(Apply(w, a), b)
    ensures LeadsTo(w, [a, b], Apply(Apply(w, a), b))
  {
    var w' := Apply(w, a);
    OneStep(w, a);
    OneStep(w', b);
    Concat(w, [a], w', [b], Apply(w', b));
    assert [a, b] == [a] + [b];
  }

  lemma SortedSingle(batch: seq<NewMsg>, m: NewMsg, c: Channel)
    requires batch == [m]
    ensures Sorted(OrderedIds(batch, c)) == if m.ordered && c == m.channel then [m.id] else []
  {
    SortedOrder(OrderedIds(batch, c));
    if m.ordered && c == m.channel {
      assert m in batch;
      assert OrderedIds(batch, c) == {m.id};
      assert Sorted({m.id})[0] in {m.id};
    } else {
      assert OrderedIds(batch, c) == {};
    }
  }

  /** One message at the end of a line. */
  lemma NextInLine(w: World, c: Channel, id: Id, delay: nat, line: seq<Id>) returns (steps: seq<Step>, w': World)
    requires Reachable(w) && PendingShape(w) && id != NIL && id !in w.used
    requires HasLine(w.db.msgs, c) && LineOf(w.db.msgs, c) == line
    ensures LeadsTo(w, steps, w') && |steps| == 2 && steps[0].BeginInsert? && steps[1].FinishInsert?
    ensures Reachable(w') && PendingShape(w') && w'.used == w.used + {id} && w'.deletes == w.deletes
    ensures HasLine(w'.db.msgs, c) && LineOf(w'.db.msgs, c) == line + [id]
    ensures w'.db.msgs.Keys == w.db.msgs.Keys + {id}
    ensures w'.polls == w.polls && w'.db.msgs[id].commitInterval.None? && w'.db.msgs[id].channel == c
    ensures w'.db.msgs[id].createdAt == 0 && w'.db.msgs[id].attemptAt == Some(delay)
    ensures forall other | other in w.db.msgs && other != id :: w'.db.msgs[other] == w.db.msgs[other]
  {
    var m := NewMsg(id, delay, 0, 0, c, None, true, Payload("", None, None));
    steps, w' := InsertOne(w, 0, m);
    IdsOfOne(m);
  }

  // Polls

  /** The poll that finds `id`, the only message there is, at `now`. */
  function PollFor(w: World, txn: Txn, now: int, id: Id): Step
    requires id in w.db.msgs
  {
    var c := w.db.msgs[id].channel;
    BeginPoll(txn, now, None, 1, {c}, map[c := {id}], {id})
  }

  lemma PollFinds(w: World, txn: Txn, now: int, id: Id)
    requires PendingShape(w) && txn !in w.polls && id != NIL && w.db.msgs.Keys == {NIL, id}
    requires IsHead(w.db.msgs[id]) && Due(w.db.msgs[id], now)
    ensures Allowed(w, PollFor(w, txn, now, id))
    ensures var w' := Apply(w, PollFor(w, txn, now, id));
            && PendingShape(w') && w' == w.(polls := w'.polls)
            && txn in w'.polls && w'.polls - {txn} == w.polls && w'.polls[txn].now == now
            && w'.polls[txn].picked == Join(w.db, {id}) && DeliveredBy(w', txn) == {id}
  {
    var msgs, c := w.db.msgs, w.db.msgs[id].channel;
    assert ReadySet(msgs, now, None) == {id};
    assert ActiveChannels(msgs, now, None) == {c} by {
      assert id in ReadySet(msgs, now, None);
    }
    assert ReadyIn(msgs, now, None, c) == {id};
    assert c in {c} && id in map[c := {id}][c];
    assert Union({c}, map[c := {id}]) == {id};
  }

  /** A poll of the only message without interference. */
  lemma PollSteps(w: World, now: int, id: Id) returns (steps: seq<Step>, w': World)
    requires Reachable(w) && PendingShape(w) && w.polls == map[] && id != NIL && w.db.msgs.Keys == {NIL, id}
    requires IsHead(w.db.msgs[id]) && Due(w.db.msgs[id], now)
    ensures steps == [PollFor(w, 0, now, id), FinishPoll(0)] && LeadsTo(w, steps, w')
    ensures Allowed(w, steps[0]) && PendingShape(Apply(w, steps[0])) && 0 in Apply(w, steps[0]).polls
    ensures Apply(w, steps[0]).polls[0].now == now && DeliveredBy(Apply(w, steps[0]), 0) == {id}
    ensures Apply(w, steps[0]).db == w.db
    ensures w' == Apply(Apply(w, steps[0]), FinishPoll(0))
    ensures Reachable(w') && PendingShape(w') && w'.polls == map[] && w'.db.msgs.Keys == {NIL, id}
    ensures w'.db.msgs[id] == Lease(w.db.msgs[id], now)
  {
    var begin := PollFor(w, 0, now, id);
    PollFinds(w, 0, now, id);
    steps := [begin, FinishPoll(0)];
    var w1 := Apply(w, begin);
    Extend(w, begin);
    w' := Apply(w1, FinishPoll(0));
    PollLeases(w1, 0, id);
    Extend(w1, FinishPoll(0));
    TwoSteps(w, begin, FinishPoll(0));
  }

  lemma PollLeases(w: World, txn: Txn, id: Id)
    requires PendingShape(w) && txn in w.polls && id in w.db.msgs && DeliveredBy(w, txn) == {id}
    ensures var w' := Apply(w, FinishPoll(txn));
            && w'.polls == w.polls - {txn} && w'.db.msgs.Keys == w.db.msgs.Keys
            && w'.db.msgs[id] == Lease(w.db.msgs[id], w.polls[txn].now)
  {
  }

  lemma PollOnce(w: World, now: int, id: Id) returns (w': World)
    requires Reachable(w) && PendingShape(w) && w.polls == map[] && id != NIL && w.db.msgs.Keys == {NIL, id}
    requires IsHead(w.db.msgs[id]) && Due(w.db.msgs[id], now)
    ensures Reachable(w') && PendingShape(w') && w'.polls == map[] && w'.db.msgs.Keys == {NIL, id}
    ensures w'.db.msgs[id] == Lease(w.db.msgs[id], now)
  {
    var steps;
    steps, w' := PollSteps(w, now, id);
  }

  /** A message with this backoff and number of retries, inserted at 0 into an empty queue. */
  lemma OnlyMessage(b: nat, retries: nat) returns (steps: seq<Step>, w: World)
    ensures LeadsTo(Init(0), steps, w) && forall s | s in steps :: !s.FinishPoll? && !s.CheckpointStep?
    ensures Reachable(w) && PendingShape(w) && w.polls == map[] && w.db.msgs.Keys == {NIL, 1}
    ensures var m := w.db.msgs[1];
            IsHead(m) && m.commitInterval.None? && m.backoff == b && m.attempts == retries + 1 && m.attemptAt == Some(0)
  {
    var m := NewMsg(1, 0, retries, b, Channel("", ""), None, false, Payload("", None, None));
    InitReachable(0);
    steps, w := InsertOne(Init(0), 0, m);
    IdsOfOne(m);
  }
}
