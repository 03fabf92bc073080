/** The tables as an object that the SQL functions update in place, one transaction a call. */
module Tables {
  import opened Schema
  import opened Rows
  import opened Batches
  import opened Lines
  import opened Statements
  import opened Polling
  import opened Deletion
  import opened Insertion
  import opened Runs
  import opened Ordering

  /** A row that `mq_poll` returns. */
  datatype Polled = Polled(isCommitted: bool, payload: Option<Payload>, backoff: int)

  class MqTables {
    var msgs: Msgs
    var payloads: map<Id, Payload>

    ghost function State(): Db
      reads this
    {
      Db(msgs, payloads)
    }

    ghost predicate Valid()
      reads this
    {
      Lined(msgs) && TablesAgree(State()) && BackoffsNonNegative(msgs)
    }

    ghost function Line(c: Channel): seq<Id>
      reads this
      requires Valid()
    {
      assert HasLine(msgs, c);
      LineOf(msgs, c)
    }

    constructor (now: int)
      ensures Valid() && State() == Init(now).db && payloads == map[]
      ensures msgs == map[0 := Msg(now, Some(now), 5, 1_000_000, Channel("", ""), None, None)]
      ensures forall c :: Line(c) == []
    {
      msgs := map[NIL := Msg(now, Some(now), 5, 1_000_000, Channel("", ""), None, None)];
      payloads := map[];
      new;
      InitIsSound(now);
      forall c ensures Line(c) == [] {
        LineIs(msgs, c, []);
      }
    }

    // mq_latest_message: newest of the candidates, nil by COALESCE
    method LatestMessage(c: Channel) returns (r: Id)
      requires Valid()
      ensures r == if Line(c) == [] then NIL else Line(c)[|Line(c)| - 1]
    {
      r := NIL;
      var found := false;
      var rest := msgs.Keys;
      while rest != {}
        invariant rest <= msgs.Keys
        invariant found ==> TailCandidate(msgs, c, r)
        invariant found ==> forall id | TailCandidate(msgs, c, id) && id !in rest ::
                    msgs[id].createdAt <= msgs[r].createdAt
        invariant !found ==> r == NIL && forall id | TailCandidate(msgs, c, id) :: id in rest
        decreases |rest|
      {
        var id :| id in rest;
        if TailCandidate(msgs, c, id) && (!found || msgs[r].createdAt < msgs[id].createdAt) {
          r, found := id, true;
        }
        rest := rest - {id};
      }
      assert HasLine(msgs, c);
      LatestIsTail(msgs, c, r);
    }

    /** The tails that the query of an insert reads. */
    method ReadTails(batch: seq<NewMsg>) returns (tails: Tails)
      requires Valid()
      ensures tails.Keys == OrderedChannels(batch) && TailsCurrent(msgs, batch, tails)
    {
      tails := map[];
      for i := 0 to |batch|
        invariant tails.Keys == OrderedChannels(batch[..i])
        invariant forall c | c in tails :: HasLine(msgs, c) && tails[c] == Tail(msgs, c)
      {
        assert batch[..i + 1] == batch[..i] + [batch[i]];
        if batch[i].ordered {
          var tail := LatestMessage(batch[i].channel);
          assert HasLine(msgs, batch[i].channel);
          tails := tails[batch[i].channel := tail];
        }
      }
      assert batch[..|batch|] == batch;
    }

    /** mq_insert, with nobody writing between its query and its checks. */
    method Insert(now: int, batch: seq<NewMsg>) returns (ok: bool, notices: set<string>)
      requires Valid()
      modifies this
      ensures Valid()
      ensures ok <==> (forall i, j | 0 <= i < j < |batch| :: batch[i].id != batch[j].id)
                      && forall m | m in batch :: m.id !in old(msgs) && m.id !in old(payloads)
      ensures ok ==> forall m | m in batch :: m.id in payloads && payloads[m.id] == m.payload
      ensures ok ==> Inserted(old(State()), State(), now, batch) && notices == set m | m in batch :: m.channel.name
      ensures ok ==> forall c :: Line(c) == old(Line(c)) + Sorted(OrderedIds(batch, c))
      ensures !ok ==> State() == old(State()) && notices == {}
    {
      var tails := ReadTails(batch);
      ok, notices := false, {};
      if DistinctIds(batch) && Ids(batch) !! payloads.Keys && Ids(batch) !! msgs.Keys {
        ghost var before := State();
        msgs := msgs + NewRows(now, batch, tails);
        payloads := payloads + NewPayloads(batch);
        ok, notices := true, set m | m in batch :: m.channel.name;
        InsertsAtomically(before, now, batch, tails);
        BackoffsOfInserted(before, State(), now, batch);
      }
    }

    /** mq_commit */
    method Commit(ids: set<Id>)
      requires Valid()
      modifies this`msgs
      ensures Valid() && State() == AfterCommit(old(State()), ids)
      ensures forall c :: Line(c) == old(Line(c))
    {
      ghost var before := msgs;
      msgs := map id | id in msgs ::
        if id in ids && msgs[id].commitInterval.Some? then
          msgs[id].(attemptAt := if msgs[id].attemptAt.Some?
                                 then Some(msgs[id].attemptAt.value - msgs[id].commitInterval.value)
                                 else None,
                    commitInterval := None)
        else msgs[id];
      SameChainsSameLines(before, msgs);
    }

    /** mq_keep_alive */
    method KeepAlive(now: int, ids: set<Id>, duration: nat)
      requires Valid()
      modifies this`msgs
      ensures Valid() && State() == AfterKeepAlive(old(State()), now, ids, duration)
      ensures forall id | id in ids && id in msgs && id in old(msgs) && old(msgs)[id].attemptAt.Some? ::
                && msgs[id].attemptAt.Some? && msgs[id].attemptAt.value >= now + duration
                && (old(msgs)[id].attemptAt.value >= now + duration ==> msgs[id] == old(msgs)[id])
                && (old(msgs)[id].attemptAt.value < now + duration ==> msgs[id].attemptAt.value == now + duration)
                && (old(msgs)[id].commitInterval.Some? ==>
                      && msgs[id].commitInterval.Some?
                      && msgs[id].attemptAt.value - msgs[id].commitInterval.value ==
                         old(msgs)[id].attemptAt.value - old(msgs)[id].commitInterval.value)
      ensures forall c :: Line(c) == old(Line(c))
    {
      ghost var before := msgs;
      msgs := map id | id in msgs ::
        if id in ids && msgs[id].attemptAt.Some? && msgs[id].attemptAt.value < now + duration then
          msgs[id].(attemptAt := Some(now + duration),
                    commitInterval := if msgs[id].commitInterval.Some?
                                      then Some(msgs[id].commitInterval.value
                                                + (now + duration - msgs[id].attemptAt.value))
                                      else None)
        else msgs[id];
      SameChainsSameLines(before, msgs);
    }

    /** mq_checkpoint */
    method Checkpoint(now: int, id: Id, duration: nat, json: Option<string>, bytes: Option<seq<bv8>>,
                      extra: Option<int>)
      requires Valid()
      modifies this
      ensures Valid() && State() == AfterCheckpoint(old(State()), now, id, duration, json, bytes, extra)
      ensures id in old(payloads) ==>
                && id in payloads && payloads[id].name == old(payloads)[id].name
                && payloads[id].json == (if json.Some? then json else old(payloads)[id].json)
                && payloads[id].bytes == (if bytes.Some? then bytes else old(payloads)[id].bytes)
      ensures id in old(msgs) ==>
                && id in msgs && msgs[id].attemptAt.Some? && msgs[id].attemptAt.value >= now + duration
                && msgs[id].attempts == old(msgs)[id].attempts + if extra.Some? then extra.value else 0
      ensures forall c :: Line(c) == old(Line(c))
    {
      ghost var before := State();
      CheckpointKeepsLines(before, now, id, duration, json, bytes, extra);
      if id in msgs {
        var m := msgs[id];
        var deadline := now + duration;
        msgs := msgs[id := m.(
          attemptAt := Some(if m.attemptAt.Some? && m.attemptAt.value > deadline then m.attemptAt.value else deadline),
          attempts := m.attempts + if extra.None? then 0 else extra.value)];
      }
      if id in payloads {
        var p := payloads[id];
        payloads := payloads[id := p.(json := if json.Some? then json else p.json,
                                      bytes := if bytes.Some? then bytes else p.bytes)];
      }
    }

    /** ON DELETE SET DEFAULT, once the rows of `ids` are gone: one deleted row after another, the
        message that waited for it gets the default, and the index is checked. */
    method SetDefaults(ids: set<Id>) returns (ok: bool, kept: Msgs)
      requires Valid()
      ensures ok <==> OrderIndexHolds(Promote(msgs, ids * msgs.Keys))
      ensures ok ==> kept == Promote(msgs, ids * msgs.Keys)
    {
      var gone := ids * msgs.Keys;
      kept, ok := msgs - gone, true;
      KeptStart(msgs, gone);
      var rest := gone;
      while rest != {} && ok
        invariant rest <= gone && PartlyPromoted(msgs, gone, gone - rest, kept)
        invariant ok <==> OrderIndexHolds(kept)
        decreases |rest|
      {
        var d :| d in rest;
        PromoteOne(msgs, gone, gone - rest, kept, d);
        assert gone - (rest - {d}) == gone - rest + {d};
        rest := rest - {d};
        kept := map id | id in kept :: if kept[id].after == Some(d) then PromoteRow(kept[id]) else kept[id];
        ok := OrderIndexHolds(kept);
      }
      PromotionOrderIsIrrelevant(State(), ids, gone - rest, kept);
    }

    /** mq_delete.  It commits if what stays of every line is contiguous; the nil row can go only
        if no ordered message stays. */
    method Delete(ids: set<Id>) returns (ok: bool, notices: set<string>)
      requires Valid()
      modifies this
      ensures NIL !in ids || !ok ==> Valid()
      ensures NIL !in ids ==> (ok <==> forall c :: Contiguous(old(Line(c)), ids))
      ensures NIL in ids ==> (ok <==> forall id | id in old(msgs) && old(msgs)[id].after.Some? :: id in ids)
      ensures ok && NIL !in ids ==> forall c :: SegmentLeft(old(Line(c)), ids, Line(c))
      ensures ok ==> State() == Db(Promote(old(msgs), ids * old(msgs).Keys), old(payloads) - ids)
      ensures ok ==> forall name :: name in notices <==>
                exists id :: id in ids && id in old(msgs) && old(msgs)[id].after == Some(0)
                             && old(msgs)[id].channel.name == name
      ensures !ok ==> State() == old(State()) && notices == {}
    {
      ghost var before := State();
      forall c ensures HasLine(before.msgs, c) && old(Line(c)) == LineOf(before.msgs, c) {}
      if NIL in ids {
        DeleteNilCommitsIff(before, ids);
      } else {
        DeletesSegments(before, ids);
      }
      var kept;
      ok, kept := SetDefaults(ids);
      ok := ok && ForeignKeyHolds(kept);
      notices := {};
      if ok {
        notices := DeleteNotices(msgs, ids);
        msgs := kept;
        payloads := payloads - ids;
      }
    }

    /** The UPDATE of mq_poll: candidates that are gone or no longer due are passed over. */
    method LeaseRows(now: int, picked: set<Id>) returns (polled: map<Id, Polled>)
      requires Valid() && NIL !in picked
      modifies this`msgs
      ensures Valid() && State() == PollUpdate(old(State()), now, picked)
      ensures polled.Keys == Delivered(old(msgs), now, picked)
      ensures forall id | id in polled :: id in old(msgs) && id in payloads &&
                polled[id] == Polled(old(msgs)[id].commitInterval.None?, Some(payloads[id]), old(msgs)[id].backoff)
      ensures forall c :: Line(c) == old(Line(c))
    {
      ghost var before := State();
      var found := set id | id in picked && id in msgs && Due(msgs[id], now);
      msgs := map id | id in msgs ::
        if id in picked && Due(msgs[id], now) then
          msgs[id].(attemptAt := if msgs[id].attempts == 1 then None else Some(now + msgs[id].backoff),
                    attempts := msgs[id].attempts - 1,
                    backoff := msgs[id].backoff * 2)
        else msgs[id];
      LeasedRows(before, now, picked, msgs);
      polled := map id | id in found ::
        Polled(msgs[id].commitInterval.None?,
               if id in payloads then Some(payloads[id]) else None,
               msgs[id].backoff / 2);
    }

    /** mq_poll, with the query's choice of rows given and nobody writing in between: it returns
        ready rows, as many as it can, each with its payload and the backoff it had. */
    method Poll(now: int, subs: Subscription, size: nat, ghost chosen: set<Channel>, ghost rows: map<Channel, set<Id>>,
                picked: set<Id>)
      returns (polled: map<Id, Polled>)
      requires Valid() && Selected(State().msgs, now, subs, size, chosen, rows, picked)
      modifies this`msgs
      ensures Valid() && State() == PollUpdate(old(State()), now, picked)
      ensures polled.Keys == picked <= ReadySet(old(msgs), now, subs)
      ensures |polled.Keys| == Min(size, |ReadySet(old(msgs), now, subs)|)
      ensures subs.Some? ==> forall id | id in polled :: id in old(msgs) && old(msgs)[id].channel.name in subs.value
      ensures forall id | id in polled :: id in old(msgs) && id in payloads &&
                polled[id] == Polled(old(msgs)[id].commitInterval.None?, Some(payloads[id]), old(msgs)[id].backoff)
      ensures forall c :: Line(c) == old(Line(c))
    {
      PickedRows(State(), now, subs, size, chosen, rows, picked);
      polled := LeaseRows(now, picked);
    }

    // The second query of mq_poll: MIN skips NULLs and is NULL over nothing
    method TimeToWait(now: int, subs: Subscription) returns (wait: Option<int>)
      ensures wait == WaitTime(msgs, now, subs)
      ensures wait.Some? ==> forall id | id in msgs && id != 0 && msgs[id].attemptAt.Some?
                                && (msgs[id].after == None || msgs[id].after == Some(0))
                                && (subs.Some? ==> msgs[id].channel.name in subs.value) ::
                now + wait.value <= msgs[id].attemptAt.value
    {
      var first: Option<int> := None;
      var rest := msgs.Keys;
      while rest != {}
        invariant rest <= msgs.Keys
        invariant first.None? <==> TimedHeads(msgs, subs) <= rest
        invariant first.Some? ==> exists id | id in TimedHeads(msgs, subs) :: msgs[id].attemptAt == first
        invariant first.Some? ==> forall id | id in TimedHeads(msgs, subs) && id !in rest ::
                    first.value <= msgs[id].attemptAt.value
        decreases |rest|
      {
        var id :| id in rest;
        if SubscribedHead(msgs, subs, id) && msgs[id].attemptAt.Some?
           && (first.None? || msgs[id].attemptAt.value < first.value) {
          first := msgs[id].attemptAt;
          assert id in TimedHeads(msgs, subs);
        }
        rest := rest - {id};
      }
      wait := if first.None? then None else Some(first.value - now);
    }

    /** mq_clear */
    method Clear(names: set<string>)
      requires Valid()
      modifies this
      ensures Valid()
      ensures forall id :: id in msgs <==> id in old(msgs) && (id == 0 || old(msgs)[id].channel.name !in names)
      ensures forall id :: id in payloads <==> id in old(payloads) && id in msgs
      ensures forall id | id in msgs :: msgs[id] == old(msgs)[id]
      ensures forall id | id in payloads :: payloads[id] == old(payloads)[id]
      ensures forall c :: Line(c) == if c.name in names then [] else old(Line(c))
    {
      ghost var before := State();
      var gone := set id | id in msgs && msgs[id].channel.name in names && id != NIL;
      msgs := msgs - gone;
      payloads := payloads - gone;
      ClearsLines(before, State(), names);
    }

    /** mq_clear_all */
    method ClearAll()
      requires Valid()
      modifies this
      ensures Valid() && msgs == map[NIL := old(msgs)[NIL]] && payloads == map[]
      ensures forall c :: Line(c) == []
    {
      ghost var before := State();
      ClearAllCommits(before);
      DeleteKeepsLines(before, msgs.Keys - {NIL});
      msgs := map[NIL := msgs[NIL]];
      payloads := map[];
      forall c ensures Line(c) == [] {
        LineIs(msgs, c, []);
      }
    }
  }

  // What the methods do to the tables, and why

  lemma InsertsAtomically(before: Db, now: int, batch: seq<NewMsg>, tails: Tails)
    requires Lined(before.msgs) && TablesAgree(before) && FreshKeys(before, batch)
    requires tails.Keys == OrderedChannels(batch) && TailsCurrent(before.msgs, batch, tails)
    ensures var after := Db(before.msgs + NewRows(now, batch, tails), before.payloads + NewPayloads(batch));
            && Inserted(before, after, now, batch) && Lined(after.msgs) && TablesAgree(after)
            && forall c :: HasLine(before.msgs, c) && HasLine(after.msgs, c) &&
                 LineOf(after.msgs, c) == LineOf(before.msgs, c) + Sorted(OrderedIds(batch, c))
  {
    CurrentTailsCommit(before, now, batch, tails);
    InsertsRows(before, now, batch, tails);
  }

  ghost predicate SegmentLeft(line: seq<Id>, ids: set<Id>, line': seq<Id>) {
    exists lo: nat, hi: nat :: Keeps(line, ids, lo, hi) && line' == line[lo..hi]
  }

  lemma DeletesSegments(before: Db, ids: set<Id>)
    requires Lined(before.msgs) && TablesAgree(before) && NIL !in ids
    ensures forall c :: HasLine(before.msgs, c)
    ensures ForeignKeyHolds(Promote(before.msgs, ids * before.msgs.Keys))
    ensures OrderIndexHolds(Promote(before.msgs, ids * before.msgs.Keys)) <==>
            forall c :: HasLine(before.msgs, c) && Contiguous(LineOf(before.msgs, c), ids)
    ensures var msgs := Promote(before.msgs, ids * before.msgs.Keys);
            OrderIndexHolds(msgs) ==>
              && Lined(msgs) && TablesAgree(Db(msgs, before.payloads - ids))
              && forall c :: HasLine(before.msgs, c) && HasLine(msgs, c) &&
                   SegmentLeft(LineOf(before.msgs, c), ids, LineOf(msgs, c))
  {
    DeleteCommitsIff(before, ids);
    PromotedForeignKey(before.msgs, ids);
    if OrderIndexHolds(Promote(before.msgs, ids * before.msgs.Keys)) {
      DeleteKeepsLines(before, ids);
      forall c
        ensures HasLine(before.msgs, c) && HasLine(DeleteRows(before, ids).db.msgs, c) &&
                SegmentLeft(LineOf(before.msgs, c), ids, LineOf(DeleteRows(before, ids).db.msgs, c))
      {
        var lo, hi := DeleteTrimsLine(before, ids, c);
      }
    }
  }

  lemma CheckpointKeepsLines(before: Db, now: int, id: Id, duration: nat, json: Option<string>, bytes: Option<seq<bv8>>,
                             extra: Option<int>)
    requires Lined(before.msgs) && TablesAgree(before) && BackoffsNonNegative(before.msgs)
    ensures var after := AfterCheckpoint(before, now, id, duration, json, bytes, extra);
            && Lined(after.msgs) && TablesAgree(after) && BackoffsNonNegative(after.msgs)
            && forall c :: HasLine(before.msgs, c) && HasLine(after.msgs, c)
                 && LineOf(after.msgs, c) == LineOf(before.msgs, c)
  {
    SameChainsSameLines(before.msgs, AfterCheckpoint(before, now, id, duration, json, bytes, extra).msgs);
  }

  lemma PickedRows(before: Db, now: int, subs: Subscription, size: nat,
                   chosen: set<Channel>, rows: map<Channel, set<Id>>, picked: set<Id>)
    requires TablesAgree(before) && Selected(before.msgs, now, subs, size, chosen, rows, picked)
    ensures picked <= ReadySet(before.msgs, now, subs)
    ensures |picked| == Min(size, |ReadySet(before.msgs, now, subs)|)
    ensures NIL !in picked && Delivered(before.msgs, now, picked) == picked
  {
    PollTakesAllItCan(before.msgs, now, subs, size, chosen, rows, picked);
    AtomicPollDelivers(before.msgs, now, subs, size, chosen, rows, picked);
  }

  lemma LeasedRows(before: Db, now: int, picked: set<Id>, msgs: Msgs)
    requires Lined(before.msgs) && BackoffsNonNegative(before.msgs)
    requires msgs.Keys == before.msgs.Keys
    requires forall id | id in msgs ::
               msgs[id] == if id in picked && Due(before.msgs[id], now) then Lease(before.msgs[id], now)
                           else before.msgs[id]
    ensures before.(msgs := msgs) == PollUpdate(before, now, picked)
    ensures Lined(msgs) && BackoffsNonNegative(msgs)
    ensures forall id | id in Delivered(before.msgs, now, picked) ::
              && msgs[id].commitInterval == before.msgs[id].commitInterval
              && msgs[id].backoff / 2 == before.msgs[id].backoff
    ensures forall c :: HasLine(before.msgs, c) && HasLine(msgs, c) && LineOf(msgs, c) == LineOf(before.msgs, c)
  {
    SameChainsSameLines(before.msgs, msgs);
    assert msgs == PollUpdate(before, now, picked).msgs;
  }

  ghost predicate Cleared(before: Db, after: Db, names: set<string>) {
    && (forall id :: id in after.msgs <==> id in before.msgs && (id == NIL || before.msgs[id].channel.name !in names))
    && (forall id | id in after.msgs :: after.msgs[id] == before.msgs[id])
    && (forall id :: id in after.payloads <==> id in before.payloads && id in after.msgs)
    && (forall id | id in after.payloads :: after.payloads[id] == before.payloads[id])
  }

  lemma ClearsLines(before: Db, after: Db, names: set<string>)
    requires Lined(before.msgs) && TablesAgree(before) && Cleared(before, after, names)
    ensures Lined(after.msgs) && TablesAgree(after)
    ensures forall c :: HasLine(before.msgs, c) && HasLine(after.msgs, c) &&
              LineOf(after.msgs, c) == if c.name in names then [] else LineOf(before.msgs, c)
  {
    forall c
      ensures HasLine(before.msgs, c) && HasLine(after.msgs, c)
      ensures LineOf(after.msgs, c) == if c.name in names then [] else LineOf(before.msgs, c)
    {
      assert HasLine(before.msgs, c);
      if c.name in names {
        LineIs(after.msgs, c, []);
      } else {
        assert SameOrder(before.msgs, after.msgs, c);
        SameOrderSameLine(before.msgs, after.msgs, c);
      }
    }
  }

  // Promotion, one deleted row after another

  predicate PromotedSoFar(msgs: Msgs, done: set<Id>, id: Id) {
    id in msgs && msgs[id].after.Some? && msgs[id].after.value in done
  }

  /** `kept` is what is left of `msgs` without `gone`, promoted for the rows in `done`. */
  ghost predicate PartlyPromoted(msgs: Msgs, gone: set<Id>, done: set<Id>, kept: Msgs) {
    && kept.Keys == msgs.Keys - gone
    && forall id | id in kept ::
         kept[id] == if PromotedSoFar(msgs, done, id) then PromoteRow(msgs[id]) else msgs[id]
  }

  lemma PromoteOne(msgs: Msgs, gone: set<Id>, done: set<Id>, kept: Msgs, d: Id)
    requires PartlyPromoted(msgs, gone, done, kept) && d !in done
    ensures PartlyPromoted(msgs, gone, done + {d},
              map id | id in kept :: if kept[id].after == Some(d) then PromoteRow(kept[id]) else kept[id])
  {
  }

  lemma KeptStart(msgs: Msgs, gone: set<Id>)
    requires Lined(msgs)
    ensures PartlyPromoted(msgs, gone, gone - gone, msgs - gone) && OrderIndexHolds(msgs - gone)
  {
    LinedImpliesConstraints(msgs);
  }

  /** Promoting the waiting messages one deleted row after another, and stopping at the first
      collision, finds a collision exactly if promoting all of them at once does. */
  lemma PromotionOrderIsIrrelevant(before: Db, ids: set<Id>, done: set<Id>, kept: Msgs)
    requires Lined(before.msgs) && done <= ids * before.msgs.Keys
    requires PartlyPromoted(before.msgs, ids * before.msgs.Keys, done, kept)
    requires OrderIndexHolds(kept) ==> done == ids * before.msgs.Keys
    ensures OrderIndexHolds(kept) ==> kept == Promote(before.msgs, ids * before.msgs.Keys)
    ensures OrderIndexHolds(kept) <==> OrderIndexHolds(Promote(before.msgs, ids * before.msgs.Keys))
  {
    var gone := ids * before.msgs.Keys;
    if OrderIndexHolds(kept) {
      assert kept == Promote(before.msgs, gone);
    } else {
      MorePromotionsCollide(before.msgs, gone, done, kept);
    }
  }

  lemma MorePromotionsCollide(msgs: Msgs, gone: set<Id>, done: set<Id>, kept: Msgs)
    requires Lined(msgs) && done <= gone <= msgs.Keys
    requires PartlyPromoted(msgs, gone, done, kept) && !OrderIndexHolds(kept)
    ensures !OrderIndexHolds(Promote(msgs, gone))
  {
    LinedImpliesConstraints(msgs);
    var a, b :| a in kept && b in kept && a != b && kept[a].after.Some? && kept[a].channel == kept[b].channel
                && kept[a].after == kept[b].after;
    var promoted := Promote(msgs, gone);
    assert a in promoted && b in promoted;
    assert promoted[a].channel == promoted[b].channel && promoted[a].after == promoted[b].after;
  }
}
