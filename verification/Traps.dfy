/** Concrete runs in which a property that looks unconditional fails; the theorems elsewhere say
    exactly when it holds. */
module Traps {
  import opened Schema
  import opened Rows
  import opened Batches
  import opened Lines
  import opened Statements
  import opened Deletion
  import opened Runs
  import opened Ordering
  import opened RowRuns
  import opened Histories
  import opened Wakeups
  import opened Scenarios
  import opened Announcements

  // The replaced mq_latest_message

  predicate NewerOrSame(msgs: Msgs, a: Id, b: Id)
    requires a in msgs && b in msgs
  {
    msgs[a].createdAt > msgs[b].createdAt || (msgs[a].createdAt == msgs[b].createdAt && a >= b)
  }

  /** The answer of `mq_latest_message` as the setup migration had it: the ordered message with the
      latest creation time, and of those the one with the greatest id. */
  ghost predicate WasLatest(msgs: Msgs, c: Channel, r: Id) {
    if forall id :: !Ordered(msgs, c, id) then r == NIL
    else Ordered(msgs, c, r) && forall id | Ordered(msgs, c, id) :: NewerOrSame(msgs, r, id)
  }

  lemma WasLatestOfTwo(msgs: Msgs, c: Channel, r: Id)
    requires IsLine(msgs, c, [2, 1]) && 1 in msgs && 2 in msgs && msgs[1].createdAt == msgs[2].createdAt
    ensures WasLatest(msgs, c, r) <==> r == 2
  {
    assert Ordered(msgs, c, [2, 1][0]) && Ordered(msgs, c, [2, 1][1]);
    assert !NewerOrSame(msgs, 1, 2);
  }

  /** Two messages inserted at the same time, the second with a smaller id: the old definition
      answers the first, which is not the tail. */
  lemma OldLatestMissesTheTail(c: Channel) returns (w: World)
    ensures Reachable(w) && HasLine(w.db.msgs, c)
    ensures Tail(w.db.msgs, c) == 1
    ensures forall r :: WasLatest(w.db.msgs, c, r) <==> r == 2
  {
    var w1 := OneInLine(c, 2, 0);
    var steps;
    steps, w := NextInLine(w1, c, 1, 0, [2]);
    assert [2] + [1] == [2, 1];
    forall r ensures WasLatest(w.db.msgs, c, r) <==> r == 2 {
      WasLatestOfTwo(w.db.msgs, c, r);
    }
  }

  // Silent commits

  lemma CommitOne(db: Db, row: Msg)
    requires db.msgs.Keys == {NIL, 1} && db.msgs[1] == row && row.after.None?
    requires row.attemptAt == Some(10) && row.commitInterval == Some(10)
    ensures WaitTime(db.msgs, 0, None) == Some(10)
    ensures ReadySet(AfterCommit(db, {1}).msgs, 0, None) == {1}
  {
    assert TimedHeads(db.msgs, None) == {1};
  }

  /** A commit notifies nobody and can make a message ready that a poll said to wait for. */
  lemma CommitIsSilent(c: Channel) returns (w: World)
    ensures Reachable(w) && PendingShape(w)
    ensures WaitTime(w.db.msgs, 0, None) == Some(10)
    ensures Notices(w, CommitStep({1})) == {}
    ensures ReadySet(Apply(w, CommitStep({1})).db.msgs, 0, None) == {1}
  {
    InitReachable(0);
    var m := NewMsg(1, 0, 0, 0, c, Some(10), false, Payload("", None, None));
    var steps;
    steps, w := InsertOne(Init(0), 0, m);
    assert w.db.msgs.Keys == {NIL, 1} by {
      assert Ids([m]) == {1};
    }
    CommitOne(w.db, w.db.msgs[1]);
  }

  // Silent promotions

  /** A deletion or clear of `x` is pending that notifies nobody, and `v`, which is due now, waits
      for `x`, which is not due for a while. */
  ghost predicate AboutToPromote(w: World, txn: Txn, c: Channel, x: Id, v: Id, wait: nat) {
    && Reachable(w) && PendingShape(w) && txn in w.deletes && w.deletes[txn] == PendingDelete({x}, {}, {})
    && x != NIL && v != NIL && x != v && w.db.msgs.Keys == {NIL, x, v}
    && HasLine(w.db.msgs, c) && LineOf(w.db.msgs, c) == [x, v]
    && w.db.msgs[x].attemptAt == Some(wait) && w.db.msgs[v].attemptAt == Some(0)
  }

  /** A poll is told to wait, nobody is notified, and a message is ready. */
  ghost predicate Oversleeps(w: World, s: Step, wait: nat, ready: Id) {
    && PendingShape(w) && Allowed(w, s) && WaitTime(w.db.msgs, 0, None) == Some(wait) && Notices(w, s) == {}
    && ReadySet(Apply(w, s).db.msgs, 0, None) == {ready}
  }

  lemma PromotionOversleeps(w: World, txn: Txn, c: Channel, x: Id, v: Id, wait: nat)
    requires AboutToPromote(w, txn, c, x, v, wait)
    ensures Oversleeps(w, FinishDelete(txn, {}), wait, v)
  {
    assert Lined(w.db.msgs) by {
      ReachableIsSound(w);
    }
    HeadsBefore(w.db.msgs, c, x, v);
    ReadyAfter(w.db, c, x, v);
    assert {x} - {} == {x};
  }

  lemma HeadsBefore(msgs: Msgs, c: Channel, x: Id, v: Id)
    requires msgs.Keys == {NIL, x, v} && HasLine(msgs, c) && LineOf(msgs, c) == [x, v]
    requires msgs[x].attemptAt.Some?
    ensures TimedHeads(msgs, None) == {x}
  {
    assert Ordered(msgs, c, LineOf(msgs, c)[0]) && Ordered(msgs, c, LineOf(msgs, c)[1]);
    HeadIsFirst(msgs, c, LineOf(msgs, c), 0);
    HeadIsFirst(msgs, c, LineOf(msgs, c), 1);
  }

  lemma ReadyAfter(db: Db, c: Channel, x: Id, v: Id)
    requires Lined(db.msgs) && x != NIL && v != NIL && v != x && db.msgs.Keys == {NIL, x, v}
    requires HasLine(db.msgs, c) && LineOf(db.msgs, c) == [x, v] && db.msgs[v].attemptAt == Some(0)
    ensures DeleteRows(db, {x}).Committed? && ReadySet(DeleteRows(db, {x}).db.msgs, 0, None) == {v}
  {
    PromotedBehind(db, {x}, x, v, c);
    var msgs' := DeleteRows(db, {x}).db.msgs;
    assert msgs'.Keys == {NIL, v} && msgs'[v] == PromoteRow(db.msgs[v]);
  }

  /** A deletion can promote a message in silence: while it is between its query and its DELETE,
      the message ahead is deleted by someone else.  A runner that was told to wait for the message
      that is about to go sleeps through the one behind it. */
  lemma StaleNoticeIsMissed(c: Channel, wait: nat) returns (w: World)
    ensures Reachable(w) && 0 in w.deletes && w.deletes[0].ids == {2}
    ensures Oversleeps(w, FinishDelete(0, {}), wait, 3)
  {
    var w3 := ThreeInLine(c, wait);
    NotAHead(w3.db.msgs, c);
    var pending := LookAtHeads(w3, 0, {2});
    assert {2} - w3.used == {};
    w := DeleteAhead(pending, c);
    PromotionOversleeps(w, 0, c, 2, 3, wait);
  }

  lemma LookAtChannel(w: World, txn: Txn, name: string) returns (w': World)
    requires Reachable(w) && PendingShape(w) && txn !in w.deletes
    ensures Reachable(w') && PendingShape(w')
    ensures w' == w.(deletes := w.deletes[txn := PendingDelete(InChannels(w.db.msgs, {name}), {}, {})])
  {
    Extend(w, BeginClear(txn, {name}));
    w' := Apply(w, BeginClear(txn, {name}));
  }

  lemma DeleteAhead(w: World, c: Channel) returns (w': World)
    requires Reachable(w) && PendingShape(w) && w.db.msgs.Keys == {NIL, 1, 2, 3}
    requires HasLine(w.db.msgs, c) && LineOf(w.db.msgs, c) == [1, 2, 3]
    ensures Reachable(w') && PendingShape(w') && w'.deletes == w.deletes && w'.db.msgs.Keys == {NIL, 2, 3}
    ensures HasLine(w'.db.msgs, c) && LineOf(w'.db.msgs, c) == [2, 3]
    ensures w'.db.msgs[2].attemptAt == w.db.msgs[2].attemptAt && w'.db.msgs[3].attemptAt == w.db.msgs[3].attemptAt
  {
    assert Lined(w.db.msgs) by {
      ReachableIsSound(w);
    }
    DeleteFirst(w.db, c, 1, [2, 3]);
    var steps;
    steps, w' := DeleteAtOnce(w, {1});
    KeptRows(w.db, {1});
  }

  lemma NotAHead(msgs: Msgs, c: Channel)
    requires HasLine(msgs, c) && LineOf(msgs, c) == [1, 2, 3]
    ensures DeleteNotices(msgs, {2}) == {}
  {
    assert Ordered(msgs, c, LineOf(msgs, c)[1]);
    HeadIsFirst(msgs, c, LineOf(msgs, c), 1);
  }

  lemma ThreeInLine(c: Channel, wait: nat) returns (w: World)
    ensures Reachable(w) && PendingShape(w) && w.deletes == map[] && w.db.msgs.Keys == {NIL, 1, 2, 3}
    ensures w.used == {1, 2, 3}
    ensures HasLine(w.db.msgs, c) && LineOf(w.db.msgs, c) == [1, 2, 3]
    ensures w.db.msgs[2].attemptAt == Some(wait) && w.db.msgs[3].attemptAt == Some(0)
  {
    var w2 := TwoInLine(c, wait);
    var steps;
    steps, w := NextInLine(w2, c, 3, 0, [1, 2]);
    assert [1, 2] + [3] == [1, 2, 3];
  }

  lemma TwoInLine(c: Channel, wait: nat) returns (w: World)
    ensures Reachable(w) && PendingShape(w) && w.deletes == map[] && w.db.msgs.Keys == {NIL, 1, 2}
    ensures w.used == {1, 2} && HasLine(w.db.msgs, c) && LineOf(w.db.msgs, c) == [1, 2]
    ensures w.db.msgs[2].attemptAt == Some(wait)
  {
    var w1 := OneInLine(c, 1, 0);
    var steps;
    steps, w := NextInLine(w1, c, 2, wait, [1]);
    assert [1] + [2] == [1, 2];
  }

  lemma OneInLine(c: Channel, id: Id, delay: nat) returns (w: World)
    requires id != NIL
    ensures Reachable(w) && PendingShape(w) && w.deletes == map[] && w.db.msgs.Keys == {NIL, id} && w.used == {id}
    ensures HasLine(w.db.msgs, c) && LineOf(w.db.msgs, c) == [id]
    ensures w.db.msgs[id].attemptAt == Some(delay) && w.db.msgs[id].createdAt == 0
  {
    InitReachable(0);
    var steps;
    steps, w := NextInLine(Init(0), c, id, delay, []);
    assert [] + [id] == [id];
  }

  /** A clear can, too: a message is inserted behind one that the clear is about to remove. */
  lemma ClearIsSilent(c: Channel, wait: nat) returns (w: World)
    ensures Reachable(w) && 0 in w.deletes && w.deletes[0].ids == {1}
    ensures Oversleeps(w, FinishDelete(0, {}), wait, 2)
  {
    var w1 := OneInLine(c, 1, wait);
    assert InChannels(w1.db.msgs, {c.name}) == {1} by {
      assert Ordered(w1.db.msgs, c, LineOf(w1.db.msgs, c)[0]);
    }
    var pending := LookAtChannel(w1, 0, c.name);
    var steps;
    steps, w := NextInLine(pending, c, 2, 0, [1]);
    assert [1] + [2] == [1, 2];
    PromotionOversleeps(w, 0, c, 1, 2, wait);
  }

  lemma DeleteFirst(db: Db, c: Channel, first: Id, rest: seq<Id>)
    requires Lined(db.msgs) && first != NIL && HasLine(db.msgs, c) && LineOf(db.msgs, c) == [first] + rest
    ensures DeleteRows(db, {first}).Committed?
    ensures HasLine(DeleteRows(db, {first}).db.msgs, c) && LineOf(DeleteRows(db, {first}).db.msgs, c) == rest
  {
    var line := [first] + rest;
    assert Ordered(db.msgs, c, line[0]);
    forall d ensures HasLine(db.msgs, d) && Contiguous(LineOf(db.msgs, d), {first}) {
      assert HasLine(db.msgs, d);
      if d == c {
        assert forall k | 0 < k < |line| :: line[0] != line[k];
        assert Keeps(LineOf(db.msgs, d), {first}, 1, |line|);
      } else {
        assert forall k | 0 <= k < |LineOf(db.msgs, d)| :: Ordered(db.msgs, d, LineOf(db.msgs, d)[k]);
        assert Keeps(LineOf(db.msgs, d), {first}, 0, |LineOf(db.msgs, d)|);
      }
    }
    DeleteCommitsIff(db, {first});
    var lo, hi := DeleteTrimsLine(db, {first}, c);
    if rest != [] {
      assert line[1] != line[0] && line[|line| - 1] != line[0];
    }
    assert line[0] == first;
    assert line[lo..hi] == rest;
  }

  // Revival

  /** From `w` on, polls can deliver the message `n` times more, and are `n` attempts overdrawn. */
  ghost predicate Overdraws(w: World, id: Id, n: nat) {
    exists steps, w' :: LeadsTo(w, steps, w') && |Times(EventsOf(w, steps, id))| == n
                        && id in w'.db.msgs && w'.db.msgs[id].attempts + n == 0
  }

  lemma {:induction false} DeliverAgain(w: World, n: nat) returns (steps: seq<Step>, w': World)
    requires Reachable(w) && PendingShape(w) && w.polls == map[] && w.db.msgs.Keys == {NIL, 1}
    requires IsHead(w.db.msgs[1]) && w.db.msgs[1].attemptAt.Some? && w.db.msgs[1].attempts <= 0
    ensures LeadsTo(w, steps, w') && |Times(EventsOf(w, steps, 1))| == n
    ensures 1 in w'.db.msgs && w'.db.msgs[1].attempts == w.db.msgs[1].attempts - n
    decreases n
  {
    steps, w' := [], w;
    if n > 0 {
      var now := w.db.msgs[1].attemptAt.value;
      var once, w1 := PollSteps(w, now, 1);
      var rest;
      rest, w' := DeliverAgain(w1, n - 1);
      steps := once + rest;
      RunAppend(w, once, rest);
      DeliveryFirst(w, once[0], rest);
    }
  }

  lemma FirstEvent(w: World, s: Step, rest: seq<Step>, id: Id)
    requires PendingShape(w) && Allowed(w, s) && IsRun(w, [s] + rest)
    ensures IsRun(Apply(w, s), rest)
    ensures |Times(EventsOf(w, [s] + rest, id))| ==
            |Times(EventsOf(Apply(w, s), rest, id))| + if EventOf(w, s, id).Delivery? then 1 else 0
  {
    assert ([s] + rest)[1..] == rest;
    var es := EventsOf(w, [s] + rest, id);
    assert es[1..] == EventsOf(Apply(w, s), rest, id);
  }

  lemma DeliveryFirst(w: World, begin: Step, rest: seq<Step>)
    requires PendingShape(w) && Allowed(w, begin) && begin.BeginPoll? && begin.txn == 0
    requires var w1 := Apply(w, begin); PendingShape(w1) && DeliveredBy(w1, 0) == {1}
    requires IsRun(w, [begin, FinishPoll(0)] + rest) && IsRun(Apply(Apply(w, begin), FinishPoll(0)), rest)
    ensures |Times(EventsOf(w, [begin, FinishPoll(0)] + rest, 1))| ==
            1 + |Times(EventsOf(Apply(Apply(w, begin), FinishPoll(0)), rest, 1))|
  {
    assert [begin, FinishPoll(0)] + rest == [begin] + ([FinishPoll(0)] + rest);
    FirstEvent(w, begin, [FinishPoll(0)] + rest, 1);
    FirstEvent(Apply(w, begin), FinishPoll(0), rest, 1);
  }

  lemma ReviveExhausted(w: World, duration: nat) returns (w': World)
    requires Reachable(w) && PendingShape(w) && w.polls == map[] && w.db.msgs.Keys == {NIL, 1}
    requires IsHead(w.db.msgs[1]) && w.db.msgs[1].attemptAt.None? && w.db.msgs[1].attempts == 0
    ensures w' == Apply(w, CheckpointStep(0, 1, duration, None, None, None))
    ensures Reachable(w') && PendingShape(w') && w'.polls == map[] && w'.db.msgs.Keys == {NIL, 1}
    ensures IsHead(w'.db.msgs[1]) && w'.db.msgs[1].attemptAt.Some? && w'.db.msgs[1].attempts == 0
  {
    var revive := CheckpointStep(0, 1, duration, None, None, None);
    Extend(w, revive);
    w' := Apply(w, revive);
  }

  lemma LastAttemptOut(b: nat) returns (w: World)
    ensures Reachable(w) && PendingShape(w) && w.polls == map[] && w.db.msgs.Keys == {NIL, 1}
    ensures IsHead(w.db.msgs[1]) && w.db.msgs[1].attemptAt.None? && w.db.msgs[1].attempts == 0
  {
    var insert, w0 := OnlyMessage(b, 0);
    w := PollOnce(w0, 0, 1);
  }

  lemma OverdrawsForever(w: World)
    requires Reachable(w) && PendingShape(w) && w.polls == map[] && w.db.msgs.Keys == {NIL, 1}
    requires IsHead(w.db.msgs[1]) && w.db.msgs[1].attemptAt.Some? && w.db.msgs[1].attempts == 0
    ensures forall n: nat :: Overdraws(w, 1, n)
  {
    forall n: nat ensures Overdraws(w, 1, n) {
      var steps, w' := DeliverAgain(w, n);
    }
  }

  /** A message whose only attempt is out, checkpointed without extra retries: it is due again with
      no attempt left, and from then on polls deliver it as often as they like. */
  lemma RevivalOverdrawsBudget(b: nat, duration: nat) returns (w: World, w': World)
    ensures Reachable(w) && PendingShape(w) && w' == Apply(w, CheckpointStep(0, 1, duration, None, None, None))
    ensures 1 in w.db.msgs && InBudget(w.db.msgs[1])
    ensures 1 in w'.db.msgs && !InBudget(w'.db.msgs[1]) && forall n: nat :: Overdraws(w', 1, n)
  {
    w := LastAttemptOut(b);
    w' := ReviveExhausted(w, duration);
    OverdrawsForever(w');
  }

  // Exhausted heads

  predicate NoCheckpoint(es: seq<RowEvent>) {
    forall i | 0 <= i < |es| :: !es[i].Checkpointed?
  }

  lemma {:induction false} StaysExhausted(m: Msg, es: seq<RowEvent>)
    requires m.attemptAt.None? && Legal(m, es) && NoCheckpoint(es)
    ensures RowRun(m, es).attemptAt.None?
    decreases |es|
  {
    if es != [] {
      StaysExhausted(RowApply(m, es[0]), es[1..]);
    }
  }

  /** A head whose attempts are used up blocks its channel: until it is deleted or checkpointed, no
      poll delivers any ordered message there. */
  lemma ExhaustedHeadBlocks(w: World, steps: seq<Step>, w': World, txn: Txn, c: Channel, head: Id, id: Id)
    requires Reachable(w) && LeadsTo(w, steps, w') && txn in w'.polls
    requires Ordered(w.db.msgs, c, head) && IsHead(w.db.msgs[head]) && w.db.msgs[head].attemptAt.None?
    requires head in w'.db.msgs && NoCheckpoint(EventsOf(w, steps, head))
    requires Ordered(w'.db.msgs, c, id)
    ensures id !in DeliveredBy(w', txn)
  {
    ReachableIsSound(w);
    RunKeepsSound(w, steps);
    RowHistory(w, steps, head);
    StaysExhausted(w.db.msgs[head], EventsOf(w, steps, head));
    if id != head {
      assert HasLine(w'.db.msgs, c);
      var line := LineOf(w'.db.msgs, c);
      var i := IndexInLine(w'.db.msgs, c, line, head);
      var j := IndexInLine(w'.db.msgs, c, line, id);
      HeadIsFirst(w'.db.msgs, c, line, i);
      assert Before(w'.db.msgs, c, head, id);
      BehindIsNotDelivered(w', txn, c, head, id);
    }
  }
}
