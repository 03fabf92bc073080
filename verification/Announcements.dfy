/** Whether a deletion or clear notifies the channels of what it promotes.

    `mq_delete` looks for the heads among its messages in a query of its own, and then deletes;
    `mq_clear` does not notify at all.  What the deletion promotes is decided when it writes, after
    anything may have happened, so whether it is announced has to follow from what was there when
    the deletion looked. */
module Announcements {
  import opened Schema
  import opened Lines
  import opened Statements
  import opened Deletion
  import opened Runs
  import opened Ordering
  import opened Wakeups
  import opened Scenarios

  /** All of its messages have been seen, and each channel with an ordered one is to be notified. */
  ghost predicate Covers(w: World, p: PendingDelete) {
    && p.ids <= w.used
    && forall id | id in p.ids && id in w.db.msgs && w.db.msgs[id].after.Some? ::
         w.db.msgs[id].channel.name in p.notices
  }

  lemma CoversStays(w: World, w': World, p: PendingDelete)
    requires Covers(w, p) && Evolves(w, w')
    ensures Covers(w', p)
  {
  }

  lemma CoveredAnnounces(w: World, txn: Txn, missed: set<Id>)
    requires Sound(w) && txn in w.deletes && Covers(w, w.deletes[txn])
    ensures Announces(w, txn, missed)
  {
    forall id | id in w.db.msgs && Promotes(w, txn, missed, id)
      ensures w.db.msgs[id].channel.name in w.deletes[txn].notices
    {
      var c := w.db.msgs[id].channel;
      assert HasLine(w.db.msgs, c);
      var i := IndexInLine(w.db.msgs, c, LineOf(w.db.msgs, c), id);
      assert Ordered(w.db.msgs, c, LineOf(w.db.msgs, c)[i - 1]);
    }
  }

  /** If the deletion writes after `steps`, it announces what it promotes. */
  ghost predicate AnnouncesAfter(w: World, txn: Txn, steps: seq<Step>) {
    IsRun(w, steps) && !Finishes(steps, txn) && txn in Exec(w, steps).deletes ==>
      forall missed | Allowed(Exec(w, steps), FinishDelete(txn, missed)) :: Announces(Exec(w, steps), txn, missed)
  }

  /** A pending deletion or clear will announce whatever it promotes, in every run, exactly if it
      covers its ordered messages now. */
  lemma AnnouncesIff(w: World, txn: Txn)
    requires Reachable(w) && PendingShape(w) && txn in w.deletes
    ensures Covers(w, w.deletes[txn]) <==> forall steps :: AnnouncesAfter(w, txn, steps)
  {
    ReachableIsSound(w);
    if Covers(w, w.deletes[txn]) {
      forall steps ensures AnnouncesAfter(w, txn, steps) {
        if IsRun(w, steps) && !Finishes(steps, txn) {
          RunKeepsSound(w, steps);
          PendingStays(w, steps, txn);
          CoversStays(w, Exec(w, steps), w.deletes[txn]);
          forall missed ensures Announces(Exec(w, steps), txn, missed) {
            CoveredAnnounces(Exec(w, steps), txn, missed);
          }
        }
      }
    } else {
      var steps, w' := SilentRun(w, txn);
      assert Allowed(w', FinishDelete(txn, {}));
      assert !AnnouncesAfter(w, txn, steps);
    }
  }

  /** Checked when `mq_delete` is called: its messages have all been inserted by then, and in each
      channel name with an ordered one it deletes a head. */
  ghost predicate HeadsCover(w: World, ids: set<Id>) {
    && ids <= w.used
    && forall id | id in ids && id in w.db.msgs && w.db.msgs[id].after.Some? ::
         exists head | head in ids :: head in w.db.msgs && w.db.msgs[head].after == Some(NIL)
           && w.db.msgs[head].channel.name == w.db.msgs[id].channel.name
  }

  /** `mq_delete` announces whatever it promotes, whatever happens between its two statements,
      exactly if the heads it finds cover its messages. */
  lemma DeleteAnnouncesIff(w: World, txn: Txn, ids: set<Id>)
    requires Reachable(w) && PendingShape(w) && Allowed(w, BeginDelete(txn, ids))
    ensures HeadsCover(w, ids) <==> forall steps :: AnnouncesAfter(Apply(w, BeginDelete(txn, ids)), txn, steps)
  {
    Extend(w, BeginDelete(txn, ids));
    AnnouncesIff(Apply(w, BeginDelete(txn, ids)), txn);
  }

  /** A message that a deletion promotes was behind the head of its channel, and deleting a head
      notifies the channel. */
  lemma PromotionNotifies(db: Db, ids: set<Id>, id: Id)
    requires Lined(db.msgs) && NIL !in ids && DeleteRows(db, ids).Committed?
    requires id in DeleteRows(db, ids).db.msgs && DeleteRows(db, ids).db.msgs[id] != db.msgs[id]
    ensures db.msgs[id].channel.name in DeleteNotices(db.msgs, ids)
  {
    var c := db.msgs[id].channel;
    assert Ordered(db.msgs, c, id);
    var lo, hi := DeleteTrimsLine(db, ids, c);
    var line := LineOf(db.msgs, c);
    var i := IndexInLine(db.msgs, c, line, id);
    assert i == 0 || line[i - 1] in ids;
    assert i == lo;
    FirstWaitsForNil(db.msgs, c, line);
    if i > 0 {
      assert line[0] in ids;
      assert line[0] in db.msgs && db.msgs[line[0]].channel == c;
    }
  }

  /** And a deletion with nothing in between announces whatever it promotes. */
  lemma UninterruptedAnnounces(w: World, txn: Txn, ids: set<Id>)
    requires Reachable(w) && PendingShape(w) && Allowed(w, BeginDelete(txn, ids))
    ensures Announces(Apply(w, BeginDelete(txn, ids)), txn, {})
  {
    ReachableIsSound(w);
    assert ids - {} == ids;
    forall id | id in w.db.msgs && Promotes(Apply(w, BeginDelete(txn, ids)), txn, {}, id)
      ensures w.db.msgs[id].channel.name in DeleteNotices(w.db.msgs, ids)
    {
      PromotionNotifies(w.db, ids, id);
    }
  }

  /** Deleting messages that are heads, or that are gone, is always announced. */
  lemma HeadsAreCovered(w: World, ids: set<Id>)
    requires ids <= w.used && forall id | id in ids && id in w.db.msgs :: IsHead(w.db.msgs[id]) && id != NIL
    ensures HeadsCover(w, ids)
  {
    forall id | id in ids && id in w.db.msgs && w.db.msgs[id].after.Some?
      ensures exists head | head in ids :: head in w.db.msgs && w.db.msgs[head].after == Some(NIL)
                && w.db.msgs[head].channel.name == w.db.msgs[id].channel.name
    {
      assert w.db.msgs[id].after == Some(NIL);
    }
  }

  /** So the runner's own deletions are announced: it deletes only what a poll has delivered to it,
      jobs that complete and reservations that have expired, however long after the poll. */
  lemma DeliveredAreCovered(w: World, poll: Txn, steps: seq<Step>, w': World, ids: set<Id>)
    requires Reachable(w) && PendingShape(w) && poll in w.polls && ids <= DeliveredBy(w, poll)
    requires LeadsTo(Apply(w, FinishPoll(poll)), steps, w')
    ensures HeadsCover(w', ids)
  {
    DeliveredStayHeads(w, poll, steps, w');
    HeadsAreCovered(w', ids);
  }

  /** A clear promotes nothing that was there when it looked: only what was inserted since. */
  lemma ClearPromotesOnlyNew(w: World, clear: Step, steps: seq<Step>, w': World, id: Id)
    requires Reachable(w) && PendingShape(w) && Allowed(w, clear) && (clear.BeginClear? || clear.BeginClearAll?)
    requires LeadsTo(Apply(w, clear), steps, w') && !Finishes(steps, clear.txn)
    ensures clear.txn in w'.deletes && (Promotes(w', clear.txn, {}, id) ==> id !in w.used)
  {
    ReachableIsSound(w);
    StepKeepsSound(w, clear);
    RunKeepsSound(Apply(w, clear), steps);
    PendingStays(Apply(w, clear), steps, clear.txn);
    if Promotes(w', clear.txn, {}, id) {
      var c := w'.db.msgs[id].channel;
      assert HasLine(w'.db.msgs, c);
      var i := IndexInLine(w'.db.msgs, c, LineOf(w'.db.msgs, c), id);
      assert Ordered(w'.db.msgs, c, LineOf(w'.db.msgs, c)[i - 1]);
    }
  }

  // What callers have to see to

  /** A step that hastens nothing in silence, by what its caller knows when it begins: no commit, no
      checkpoint of a message whose last attempt is out, a deletion only of what its heads cover, and
      a clear only of channels without ordered messages. */
  ghost predicate Announced(w: World, s: Step)
    requires PendingShape(w) && Allowed(w, s)
  {
    match s
    case CommitStep(_) => false
    case CheckpointStep(_, id, _, _, _, _) => id in w.db.msgs ==> w.db.msgs[id].attemptAt.Some?
    case BeginDelete(_, ids) => HeadsCover(w, ids)
    case BeginClear(txn, _) => Covers(w, Apply(w, s).deletes[txn])
    case BeginClearAll(txn) => Covers(w, Apply(w, s).deletes[txn])
    case _ => true
  }

  ghost predicate AnnouncedRun(w: World, steps: seq<Step>)
    requires IsRun(w, steps)
    decreases |steps|
  {
    steps == [] || (Announced(w, steps[0]) && AnnouncedRun(Apply(w, steps[0]), steps[1..]))
  }

  ghost predicate AllCovered(w: World) {
    forall txn | txn in w.deletes :: Covers(w, w.deletes[txn])
  }

  lemma StepStaysCovered(w: World, s: Step)
    requires Sound(w) && AllCovered(w) && Allowed(w, s) && Announced(w, s)
    ensures Ordinary(w, s) && AllCovered(Apply(w, s))
  {
    StepKeepsSound(w, s);
    forall txn | txn in w.deletes ensures Covers(Apply(w, s), w.deletes[txn]) {
      CoversStays(w, Apply(w, s), w.deletes[txn]);
    }
    if s.FinishDelete? {
      CoveredAnnounces(w, s.txn, s.missed);
    }
  }

  ghost predicate Unheard(w: World, steps: seq<Step>, subs: Subscription)
    requires IsRun(w, steps)
    decreases |steps|
  {
    steps == [] || (!Hears(subs, Notices(w, steps[0])) && Unheard(Apply(w, steps[0]), steps[1..], subs))
  }

  lemma {:induction false} AnnouncedIsOrdinary(w: World, steps: seq<Step>, subs: Subscription)
    requires Sound(w) && AllCovered(w) && IsRun(w, steps) && AnnouncedRun(w, steps) && Unheard(w, steps, subs)
    ensures OrdinaryAndUnheard(w, steps, subs)
    decreases |steps|
  {
    if steps != [] {
      StepKeepsSound(w, steps[0]);
      StepStaysCovered(w, steps[0]);
      AnnouncedIsOrdinary(Apply(w, steps[0]), steps[1..], subs);
    }
  }

  /** No lost wake-up, by what each caller can check when it calls: as long as the runner hears
      nothing, nothing it subscribed to is ready before the wait it was told is over. */
  lemma AnnouncedSleepIsSafe(w: World, now: int, subs: Subscription, steps: seq<Step>, w': World, t: int)
    requires Reachable(w) && AllCovered(w) && LeadsTo(w, steps, w')
    requires AnnouncedRun(w, steps) && Unheard(w, steps, subs)
    requires var wait := WaitTime(w.db.msgs, now, subs); wait.Some? ==> t < now + wait.value
    ensures ReadySet(w'.db.msgs, t, subs) == {}
  {
    ReachableIsSound(w);
    AnnouncedIsOrdinary(w, steps, subs);
    SleepIsSafe(w, now, subs, steps, w', t);
  }

  // The silent run

  lemma LongerThanAll(names: set<string>) returns (n: string)
    ensures forall m | m in names :: |m| < |n|
    decreases |names|
  {
    n := "a";
    if names != {} {
      var m :| m in names;
      var n' := LongerThanAll(names - {m});
      n := n' + m + "a";
      forall o | o in names ensures |o| < |n| {
        assert o == m || o in names - {m};
      }
    }
  }

  /** `x` is the only message, and the deletion `txn` will remove it without notifying its channel. */
  ghost predicate AloneAndUncovered(w: World, txn: Txn, x: Id) {
    && txn in w.deletes && x in w.deletes[txn].ids && w.db.msgs.Keys == {NIL, x}
    && w.db.msgs[x].after.Some? && w.db.msgs[x].channel.name !in w.deletes[txn].notices
  }

  lemma InsertInFreshChannel(w: World, txn: Txn, x: Id) returns (steps: seq<Step>, w': World)
    requires Reachable(w) && PendingShape(w) && txn in w.deletes && x in w.deletes[txn].ids && x !in w.used
    requires w.db.msgs.Keys == {NIL}
    ensures LeadsTo(w, steps, w') && Reachable(w') && PendingShape(w') && !Finishes(steps, txn)
    ensures w'.deletes == w.deletes && AloneAndUncovered(w', txn, x)
  {
    var name := LongerThanAll(w.deletes[txn].notices);
    var m := NewMsg(x, 0, 0, 0, Channel(name, ""), None, true, Payload("", None, None));
    steps, w' := InsertOne(w, 0, m);
    IdsOfOne(m);
  }

  lemma IsolateUncovered(w: World, txn: Txn) returns (steps: seq<Step>, w': World, x: Id)
    requires Reachable(w) && PendingShape(w) && txn in w.deletes && !Covers(w, w.deletes[txn])
    ensures LeadsTo(w, steps, w') && Reachable(w') && PendingShape(w') && !Finishes(steps, txn)
    ensures w'.deletes == w.deletes && AloneAndUncovered(w', txn, x)
  {
    ReachableIsSound(w);
    var p := w.deletes[txn];
    if p.ids <= w.used {
      x :| x in p.ids && x in w.db.msgs && w.db.msgs[x].after.Some? && w.db.msgs[x].channel.name !in p.notices;
      steps, w' := DeleteOthers(w, {x});
    } else {
      x :| x in p.ids && x !in w.used;
      steps, w' := InsertAlone(w, txn, x);
    }
  }

  lemma InsertAlone(w: World, txn: Txn, x: Id) returns (steps: seq<Step>, w': World)
    requires Reachable(w) && PendingShape(w) && txn in w.deletes && x in w.deletes[txn].ids && x !in w.used
    ensures LeadsTo(w, steps, w') && Reachable(w') && PendingShape(w') && !Finishes(steps, txn)
    ensures w'.deletes == w.deletes && AloneAndUncovered(w', txn, x)
  {
    var first, w1 := DeleteOthers(w, {});
    var second;
    second, w' := InsertInFreshChannel(w1, txn, x);
    steps := first + second;
    Concat(w, first, w1, second, w');
  }

  /** A new message `v` behind `x`. */
  lemma InsertBehind(w: World, txn: Txn, x: Id) returns (steps: seq<Step>, w': World, v: Id)
    requires Reachable(w) && PendingShape(w) && AloneAndUncovered(w, txn, x)
    ensures LeadsTo(w, steps, w') && Reachable(w') && PendingShape(w') && !Finishes(steps, txn)
    ensures w'.deletes == w.deletes && v !in w.deletes[txn].ids && w'.db.msgs.Keys == {NIL, x, v}
    ensures w'.db.msgs[x].channel == w.db.msgs[x].channel == w'.db.msgs[v].channel
    ensures HasLine(w'.db.msgs, w.db.msgs[x].channel) && LineOf(w'.db.msgs, w.db.msgs[x].channel) == [x, v]
  {
    assert HasLine(w.db.msgs, w.db.msgs[x].channel) && x != NIL by {
      ReachableIsSound(w);
    }
    var c := w.db.msgs[x].channel;
    v := FreshTxn({NIL} + w.used + w.deletes[txn].ids);
    OnlyInLine(w.db.msgs, c, x);
    steps, w' := NextInLine(w, c, v, 0, [x]);
    assert [x] + [v] == [x, v];
    assert w'.db.msgs[v].channel == c by {
      assert Ordered(w'.db.msgs, c, LineOf(w'.db.msgs, c)[1]);
    }
  }

  lemma OnlyMember(msgs: Msgs, c: Channel, line: seq<Id>, x: Id, i: nat)
    requires IsLine(msgs, c, line) && msgs.Keys == {NIL, x} && i < |line|
    ensures line[i] == x
  {
    assert Ordered(msgs, c, line[i]);
  }

  lemma OnlyInLine(msgs: Msgs, c: Channel, x: Id)
    requires HasLine(msgs, c) && msgs.Keys == {NIL, x} && Ordered(msgs, c, x)
    ensures LineOf(msgs, c) == [x]
  {
    var line := LineOf(msgs, c);
    assert forall k | 0 <= k < |line| :: Ordered(msgs, c, line[k]);
    var i := IndexInLine(msgs, c, line, x);
    if |line| > 1 {
      OnlyMember(msgs, c, line, x, 0);
      OnlyMember(msgs, c, line, x, 1);
    }
  }

  lemma NothingOrdered(msgs: Msgs, c: Channel)
    requires HasLine(msgs, c) && forall id :: !Ordered(msgs, c, id)
    ensures LineOf(msgs, c) == []
  {
    LineIs(msgs, c, []);
  }

  lemma PromotedBehind(db: Db, ids: set<Id>, x: Id, v: Id, c: Channel)
    requires Lined(db.msgs) && NIL !in ids && x in ids && v !in ids && db.msgs.Keys == {NIL, x, v}
    requires HasLine(db.msgs, c) && LineOf(db.msgs, c) == [x, v]
    ensures DeleteRows(db, ids).Committed? && v in db.msgs && db.msgs[v].after == Some(x)
  {
    var line := LineOf(db.msgs, c);
    assert Ordered(db.msgs, c, line[0]) && Ordered(db.msgs, c, line[1]);
    assert db.msgs[line[1]].after == Some(PredecessorIn(line, 1));
    forall d ensures HasLine(db.msgs, d) && Contiguous(LineOf(db.msgs, d), ids) {
      assert HasLine(db.msgs, d);
      if d == c {
        assert Keeps(line, ids, 1, 2);
      } else {
        NothingOrdered(db.msgs, d);
        assert Keeps(LineOf(db.msgs, d), ids, 0, 0);
      }
    }
    DeleteCommitsIff(db, ids);
  }

  /** A deletion that does not cover its messages can promote one in silence: others delete the rest
      of its channel, or one of its messages is inserted only now, and then another is inserted
      behind it. */
  lemma SilentRun(w: World, txn: Txn) returns (steps: seq<Step>, w': World)
    requires Reachable(w) && PendingShape(w) && txn in w.deletes && !Covers(w, w.deletes[txn])
    ensures LeadsTo(w, steps, w') && !Finishes(steps, txn) && txn in w'.deletes
    ensures !Announces(w', txn, {})
  {
    var first, w1, x := IsolateUncovered(w, txn);
    var second, v;
    second, w', v := InsertBehind(w1, txn, x);
    steps := first + second;
    Concat(w, first, w1, second, w');
    ReachableIsSound(w');
    PromotedBehind(w'.db, w'.deletes[txn].ids, x, v, w1.db.msgs[x].channel);
    assert w'.deletes[txn].ids - {} == w'.deletes[txn].ids;
    assert Promotes(w', txn, {}, v);
  }
}
