/** The optimistic append: `mq_insert` reads the tails first and the constraints are checked
    when it writes.  The write goes through exactly when every tail it read is still the tail,
    and then it has done what an insert in one step would do. */
module Insertion {
  import opened Schema
  import opened Batches
  import opened Lines
  import opened Statements

  ghost predicate TailsCurrent(msgs: Msgs, batch: seq<NewMsg>, tails: Tails) {
    forall c | c in OrderedChannels(batch) :: HasLine(msgs, c) && c in tails && tails[c] == Tail(msgs, c)
  }

  /** What a tail read earlier may have become, when ids are not reused: it is nil, it is gone,
      or it is still an ordered message of its channel. */
  ghost predicate TailsAged(msgs: Msgs, tails: Tails) {
    forall c | c in tails :: tails[c] == NIL || tails[c] !in msgs || Ordered(msgs, c, tails[c])
  }

  // Rows of the batch in the new table

  lemma BatchElement(batch: seq<NewMsg>, m: NewMsg) returns (i: nat)
    requires m in batch
    ensures i < |batch| && batch[i] == m
  {
    i :| i < |batch| && batch[i] == m;
  }

  lemma NewRowAt(now: int, batch: seq<NewMsg>, tails: Tails, m: NewMsg)
    requires DistinctIds(batch) && OrderedChannels(batch) <= tails.Keys && m in batch
    ensures m.ordered ==> m.channel in tails
    ensures m.id in NewRows(now, batch, tails) && NewRows(now, batch, tails)[m.id] == NewRow(m, now, batch, tails)
    ensures NewRows(now, batch, tails).Keys == Ids(batch)
  {
  }

  lemma NewRowKeys(now: int, batch: seq<NewMsg>, tails: Tails)
    requires DistinctIds(batch) && OrderedChannels(batch) <= tails.Keys
    ensures NewRows(now, batch, tails).Keys == Ids(batch)
  {
  }

  /** The ordered message of the batch with this id. */
  lemma OrderedRow(now: int, batch: seq<NewMsg>, tails: Tails, c: Channel, id: Id)
    requires DistinctIds(batch) && OrderedChannels(batch) <= tails.Keys && id in OrderedIds(batch, c)
    ensures c in tails && id in NewRows(now, batch, tails)
    ensures NewRows(now, batch, tails)[id].channel == c
    ensures NewRows(now, batch, tails)[id].after == Some(Lag(OrderedIds(batch, c), id, tails[c]))
  {
  }

  lemma OrderedAfterInsert(msgs: Msgs, now: int, batch: seq<NewMsg>, tails: Tails, c: Channel, id: Id)
    requires DistinctIds(batch) && OrderedChannels(batch) <= tails.Keys
    requires Ids(batch) !! msgs.Keys && NIL in msgs
    ensures Ordered(msgs + NewRows(now, batch, tails), c, id) <==> Ordered(msgs, c, id) || id in OrderedIds(batch, c)
  {
  }

  /** An old message of the line is still where it was. */
  lemma OldInLine(msgs: Msgs, now: int, batch: seq<NewMsg>, tails: Tails, c: Channel, i: nat)
    requires DistinctIds(batch) && OrderedChannels(batch) <= tails.Keys && Ids(batch) !! msgs.Keys
    requires HasLine(msgs, c) && i < |LineOf(msgs, c)|
    ensures var id := LineOf(msgs, c)[i];
            && id !in Ids(batch) && Ordered(msgs + NewRows(now, batch, tails), c, id)
            && (msgs + NewRows(now, batch, tails))[id].after == Some(PredecessorIn(LineOf(msgs, c), i))
  {
  }

  /** A new ordered message waits for the one before it in the batch, the first for the tail. */
  lemma NewInLine(msgs: Msgs, now: int, batch: seq<NewMsg>, tails: Tails, c: Channel, k: nat)
    requires DistinctIds(batch) && OrderedChannels(batch) <= tails.Keys
    requires Ids(batch) !! msgs.Keys && NIL in msgs && k < |Sorted(OrderedIds(batch, c))|
    ensures var id := Sorted(OrderedIds(batch, c))[k];
            && id in Ids(batch) && Ordered(msgs + NewRows(now, batch, tails), c, id)
            && c in tails && c in OrderedChannels(batch)
            && (msgs + NewRows(now, batch, tails))[id].after ==
               Some(if k == 0 then tails[c] else Sorted(OrderedIds(batch, c))[k - 1])
  {
    SortedOrder(OrderedIds(batch, c));
    var id := Sorted(OrderedIds(batch, c))[k];
    assert id in OrderedIds(batch, c);
    OrderedRow(now, batch, tails, c, id);
    LagInSorted(OrderedIds(batch, c), k, tails[c]);
    OrderedChannelOf(batch, c, id);
    OrderedAfterInsert(msgs, now, batch, tails, c, id);
    assert OrderedIds(batch, c) <= Ids(batch);
  }

  /** The message at `k` of `added` waits for the one before it in the joined line. */
  ghost predicate WaitsInJoin(msgs: Msgs, line: seq<Id>, added: seq<Id>, k: nat)
    requires k < |added|
  {
    added[k] in msgs && msgs[added[k]].after == Some(PredecessorIn(line + added, |line| + k))
  }

  lemma NewAtEnd(msgs: Msgs, now: int, batch: seq<NewMsg>, tails: Tails, c: Channel, k: nat)
    requires DistinctIds(batch) && OrderedChannels(batch) <= tails.Keys
    requires Ids(batch) !! msgs.Keys && NIL in msgs && k < |Sorted(OrderedIds(batch, c))|
    requires HasLine(msgs, c) && (c in OrderedChannels(batch) ==> tails[c] == Tail(msgs, c))
    ensures WaitsInJoin(msgs + NewRows(now, batch, tails), LineOf(msgs, c), Sorted(OrderedIds(batch, c)), k)
  {
    NewInLine(msgs, now, batch, tails, c, k);
    JoinPredecessor(LineOf(msgs, c), Sorted(OrderedIds(batch, c)), k);
  }

  lemma JoinPredecessor(line: seq<Id>, added: seq<Id>, k: nat)
    requires k < |added|
    ensures PredecessorIn(line + added, |line| + k) ==
            if k > 0 then added[k - 1] else if line == [] then NIL else line[|line| - 1]
  {
  }

  /** Appending after the tail: the new line is the old one and then the batch in id order. */
  lemma AppendIsLine(msgs: Msgs, now: int, batch: seq<NewMsg>, tails: Tails, c: Channel)
    requires DistinctIds(batch) && OrderedChannels(batch) <= tails.Keys
    requires Ids(batch) !! msgs.Keys && NIL in msgs
    requires HasLine(msgs, c) && (c in OrderedChannels(batch) ==> tails[c] == Tail(msgs, c))
    ensures IsLine(msgs + NewRows(now, batch, tails), c, LineOf(msgs, c) + Sorted(OrderedIds(batch, c)))
  {
    var msgs' := msgs + NewRows(now, batch, tails);
    var line, added := LineOf(msgs, c), Sorted(OrderedIds(batch, c));
    forall i: nat {:trigger PredecessorIn(line, i)} | i < |line|
      ensures line[i] in msgs' && msgs'[line[i]].after == Some(PredecessorIn(line, i))
    {
      OldInLine(msgs, now, batch, tails, c, i);
    }
    forall k: nat | k < |added| ensures WaitsInJoin(msgs', line, added, k) {
      NewAtEnd(msgs, now, batch, tails, c, k);
    }
    SortedOrder(OrderedIds(batch, c));
    forall id ensures Ordered(msgs', c, id) <==> Ordered(msgs, c, id) || id in added {
      OrderedAfterInsert(msgs, now, batch, tails, c, id);
    }
    assert OrderedIds(batch, c) <= Ids(batch);
    JoinIsLine(msgs', c, line, added);
  }

  /** Two pieces of a line, the second waiting for the end of the first. */
  lemma JoinIsLine(msgs: Msgs, c: Channel, line: seq<Id>, added: seq<Id>)
    requires forall i, j | 0 <= i < j < |line| :: line[i] != line[j]
    requires forall i: nat {:trigger PredecessorIn(line, i)} | i < |line| ::
               line[i] in msgs && msgs[line[i]].after == Some(PredecessorIn(line, i))
    requires Ascending(added) && forall id | id in line :: id !in added
    requires forall k: nat | k < |added| :: WaitsInJoin(msgs, line, added, k)
    requires forall id :: Ordered(msgs, c, id) <==> id in line || id in added
    ensures IsLine(msgs, c, line + added)
  {
    var line' := line + added;
    forall i | 0 <= i < |line'|
      ensures Ordered(msgs, c, line'[i]) && msgs[line'[i]].after == Some(PredecessorIn(line', i))
    {
      if i < |line| {
        assert line[i] in line && PredecessorIn(line', i) == PredecessorIn(line, i);
      } else {
        var k := i - |line|;
        assert WaitsInJoin(msgs, line, added, k);
        assert line'[i] == added[k] && added[k] in added;
      }
    }
    forall i, j | 0 <= i < j < |line'| ensures line'[i] != line'[j] {
      if i < |line| <= j {
        assert line[i] in line && added[j - |line|] in added;
      }
    }
  }

  lemma OrderedChannelOf(batch: seq<NewMsg>, c: Channel, id: Id)
    requires id in OrderedIds(batch, c)
    ensures c in OrderedChannels(batch)
  {
  }

  // What an insert leaves of the tables

  ghost predicate Inserted(before: Db, after: Db, now: int, batch: seq<NewMsg>) {
    && after.msgs.Keys == before.msgs.Keys + Ids(batch)
    && (forall id | id in before.msgs :: after.msgs[id] == before.msgs[id])
    && after.payloads.Keys == before.payloads.Keys + Ids(batch)
    && (forall id | id in before.payloads :: after.payloads[id] == before.payloads[id])
    && (forall m | m in batch :: m.id in after.msgs && m.id in after.payloads && after.payloads[m.id] == m.payload
          && InsertedAs(m, now, after.msgs[m.id]))
  }

  predicate InsertedAs(m: NewMsg, now: int, row: Msg) {
    && row.createdAt == now && row.channel == m.channel && row.commitInterval == m.commitInterval
    && row.attemptAt == Some(now + m.delay + if m.commitInterval.None? then 0 else m.commitInterval.value)
    && row.attempts == m.retries + 1 && row.backoff == m.backoff
    && (row.after.Some? <==> m.ordered)
  }

  lemma NewPayloadKeys(batch: seq<NewMsg>)
    requires DistinctIds(batch)
    ensures NewPayloads(batch).Keys == Ids(batch)
  {
  }

  lemma InsertsRows(before: Db, now: int, batch: seq<NewMsg>, tails: Tails)
    requires PayloadsBelong(before) && FreshKeys(before, batch) && tails.Keys == OrderedChannels(batch)
    requires NIL in before.msgs
    ensures var after := Db(before.msgs + NewRows(now, batch, tails), before.payloads + NewPayloads(batch));
            Inserted(before, after, now, batch) && PayloadsBelong(after) && (TablesAgree(before) ==> TablesAgree(after))
  {
    NewRowKeys(now, batch, tails);
    NewPayloadKeys(batch);
    forall m | m in batch
      ensures m.id in Ids(batch) && InsertedAs(m, now, NewRows(now, batch, tails)[m.id])
      ensures NewPayloads(batch)[m.id] == m.payload
    {
      InsertsRow(now, batch, tails, m);
    }
  }

  lemma InsertsRow(now: int, batch: seq<NewMsg>, tails: Tails, m: NewMsg)
    requires DistinctIds(batch) && tails.Keys == OrderedChannels(batch) && m in batch
    ensures m.id in Ids(batch) && m.id in NewRows(now, batch, tails) && m.id in NewPayloads(batch)
    ensures InsertedAs(m, now, NewRows(now, batch, tails)[m.id])
    ensures NewPayloads(batch)[m.id] == m.payload
  {
    NewRowAt(now, batch, tails, m);
    var i := BatchElement(batch, m);
  }

  lemma BackoffsOfInserted(before: Db, after: Db, now: int, batch: seq<NewMsg>)
    requires BackoffsNonNegative(before.msgs) && Inserted(before, after, now, batch)
    ensures BackoffsNonNegative(after.msgs)
  {
  }

  lemma CurrentTailsCommit(db: Db, now: int, batch: seq<NewMsg>, tails: Tails)
    requires Lined(db.msgs) && OrderedChannels(batch) <= tails.Keys
    requires FreshKeys(db, batch) && TailsCurrent(db.msgs, batch, tails)
    ensures InsertAfter(db, now, batch, tails).Committed?
    ensures Lined(InsertAfter(db, now, batch, tails).db.msgs)
    ensures forall c :: HasLine(db.msgs, c) && HasLine(InsertAfter(db, now, batch, tails).db.msgs, c) &&
                        LineOf(InsertAfter(db, now, batch, tails).db.msgs, c) ==
                        LineOf(db.msgs, c) + Sorted(OrderedIds(batch, c))
  {
    var msgs' := db.msgs + NewRows(now, batch, tails);
    NewRowKeys(now, batch, tails);
    forall c ensures HasLine(db.msgs, c) && HasLine(msgs', c) &&
                     LineOf(msgs', c) == LineOf(db.msgs, c) + Sorted(OrderedIds(batch, c))
    {
      assert HasLine(db.msgs, c);
      AppendIsLine(db.msgs, now, batch, tails, c);
      LineIs(msgs', c, LineOf(db.msgs, c) + Sorted(OrderedIds(batch, c)));
    }
    assert Lined(msgs');
    LinedImpliesConstraints(msgs');
  }

  // Stale tails

  /** The first message of the batch in its channel waits for the tail that was read. */
  lemma FirstOfBatch(now: int, batch: seq<NewMsg>, tails: Tails, c: Channel) returns (id: Id)
    requires DistinctIds(batch) && OrderedChannels(batch) <= tails.Keys && c in OrderedChannels(batch)
    ensures id in OrderedIds(batch, c) && id in NewRows(now, batch, tails) && id in Ids(batch)
    ensures NewRows(now, batch, tails)[id].channel == c && NewRows(now, batch, tails)[id].after == Some(tails[c])
  {
    var m :| m in batch && m.ordered && m.channel == c;
    assert m.id in OrderedIds(batch, c);
    var s := Sorted(OrderedIds(batch, c));
    SortedOrder(OrderedIds(batch, c));
    assert |s| > 0;
    id := s[0];
    assert id in s;
    LagInSorted(OrderedIds(batch, c), 0, tails[c]);
    OrderedRow(now, batch, tails, c, id);
  }

  /** The read tail is gone: the foreign key finds nothing. */
  lemma GoneTailViolates(db: Db, now: int, batch: seq<NewMsg>, tails: Tails, c: Channel)
    requires Lined(db.msgs) && OrderedChannels(batch) <= tails.Keys && FreshKeys(db, batch)
    requires c in OrderedChannels(batch) && tails[c] !in db.msgs && tails[c] !in Ids(batch)
    ensures !ForeignKeyHolds(db.msgs + NewRows(now, batch, tails))
  {
    var id := FirstOfBatch(now, batch, tails, c);
    NewRowKeys(now, batch, tails);
    var msgs' := db.msgs + NewRows(now, batch, tails);
    assert id in msgs' && msgs'[id].after == Some(tails[c]);
  }

  /** The read tail has been overtaken: another message already waits for it. */
  lemma OvertakenTailViolates(db: Db, now: int, batch: seq<NewMsg>, tails: Tails, c: Channel)
    requires Lined(db.msgs) && OrderedChannels(batch) <= tails.Keys && FreshKeys(db, batch)
    requires c in OrderedChannels(batch) && HasLine(db.msgs, c) && tails[c] != Tail(db.msgs, c)
    requires tails[c] == NIL || Ordered(db.msgs, c, tails[c])
    ensures !OrderIndexHolds(db.msgs + NewRows(now, batch, tails))
  {
    var line := LineOf(db.msgs, c);
    var k: nat := 0;
    if tails[c] != NIL {
      var i := IndexInLine(db.msgs, c, line, tails[c]);
      k := i + 1;
    }
    assert k < |line|;
    assert db.msgs[line[k]].after == Some(PredecessorIn(line, k));
    assert Ordered(db.msgs, c, line[k]);
    var id := FirstOfBatch(now, batch, tails, c);
    NewRowKeys(now, batch, tails);
    var msgs' := db.msgs + NewRows(now, batch, tails);
    assert line[k] in msgs' && id in msgs' && id != line[k];
    assert msgs'[id].after == msgs'[line[k]].after && msgs'[id].channel == msgs'[line[k]].channel;
  }

  ghost predicate SomeGone(msgs: Msgs, batch: seq<NewMsg>, tails: Tails) {
    exists c | c in OrderedChannels(batch) :: c in tails && tails[c] !in msgs
  }

  ghost predicate SomeOvertaken(msgs: Msgs, batch: seq<NewMsg>, tails: Tails) {
    exists c | c in OrderedChannels(batch) ::
      c in tails && tails[c] in msgs && HasLine(msgs, c) && tails[c] != Tail(msgs, c)
  }

  lemma CurrentOrStale(msgs: Msgs, batch: seq<NewMsg>, tails: Tails)
    requires Lined(msgs) && OrderedChannels(batch) <= tails.Keys
    ensures TailsCurrent(msgs, batch, tails) <==> !SomeGone(msgs, batch, tails) && !SomeOvertaken(msgs, batch, tails)
  {
  }

  lemma ForeignKeyUnlessGone(db: Db, now: int, batch: seq<NewMsg>, tails: Tails)
    requires Lined(db.msgs) && OrderedChannels(batch) <= tails.Keys && FreshKeys(db, batch)
    requires !SomeGone(db.msgs, batch, tails)
    ensures ForeignKeyHolds(db.msgs + NewRows(now, batch, tails))
  {
    var msgs' := db.msgs + NewRows(now, batch, tails);
    NewRowKeys(now, batch, tails);
    LinedImpliesConstraints(db.msgs);
    forall a | a in msgs' && msgs'[a].after.Some? ensures msgs'[a].after.value in msgs' {
      if a in Ids(batch) {
        var m :| m in batch && m.id == a;
        NewRowAt(now, batch, tails, m);
        assert m.channel in OrderedChannels(batch);
        assert OrderedIds(batch, m.channel) <= Ids(batch);
      }
    }
  }

  /** Unless a read tail has been overtaken, no two rows collide in the index. */
  lemma OrderIndexUnlessOvertaken(db: Db, now: int, batch: seq<NewMsg>, tails: Tails)
    requires Lined(db.msgs) && OrderedChannels(batch) <= tails.Keys && FreshKeys(db, batch)
    requires TailsAged(db.msgs, tails)
    requires forall c | c in tails :: tails[c] !in Ids(batch)
    requires !SomeOvertaken(db.msgs, batch, tails)
    ensures OrderIndexHolds(db.msgs + NewRows(now, batch, tails))
  {
    var msgs' := db.msgs + NewRows(now, batch, tails);
    NewRowKeys(now, batch, tails);
    LinedImpliesConstraints(db.msgs);
    forall a, b | a in msgs' && b in msgs' && a != b && msgs'[a].after.Some? && msgs'[a].channel == msgs'[b].channel
      ensures msgs'[a].after != msgs'[b].after
    {
      if a in Ids(batch) && b in Ids(batch) {
        NewRowsDiffer(now, batch, tails, a, b);
      } else if a in Ids(batch) {
        NewRowMeetsOld(db, now, batch, tails, a, b);
      } else if b in Ids(batch) && msgs'[b].after.Some? {
        NewRowMeetsOld(db, now, batch, tails, b, a);
      }
    }
  }

  lemma NewRowsDiffer(now: int, batch: seq<NewMsg>, tails: Tails, a: Id, b: Id)
    requires DistinctIds(batch) && OrderedChannels(batch) <= tails.Keys && a in Ids(batch) && b in Ids(batch) && a != b
    requires forall c | c in tails :: tails[c] !in Ids(batch)
    requires NewRows(now, batch, tails).Keys == Ids(batch)
    requires NewRows(now, batch, tails)[a].after.Some?
    requires NewRows(now, batch, tails)[a].channel == NewRows(now, batch, tails)[b].channel
    ensures NewRows(now, batch, tails)[a].after != NewRows(now, batch, tails)[b].after
  {
    var m :| m in batch && m.id == a;
    var n :| n in batch && n.id == b;
    NewRowAt(now, batch, tails, m);
    NewRowAt(now, batch, tails, n);
    if n.ordered {
      var ids := OrderedIds(batch, m.channel);
      assert a in ids && b in ids;
      LagDiffers(ids, a, b, tails[m.channel]);
    }
  }

  lemma LagDiffers(ids: set<Id>, a: Id, b: Id, default: Id)
    requires a in ids && b in ids && a != b && default !in ids
    ensures Lag(ids, a, default) != Lag(ids, b, default)
  {
    assert a < b ==> a in Below(ids, b);
    assert b < a ==> b in Below(ids, a);
  }

  lemma NewRowMeetsOld(db: Db, now: int, batch: seq<NewMsg>, tails: Tails, a: Id, b: Id)
    requires Lined(db.msgs) && OrderedChannels(batch) <= tails.Keys && FreshKeys(db, batch)
    requires TailsAged(db.msgs, tails) && !SomeOvertaken(db.msgs, batch, tails)
    requires NewRows(now, batch, tails).Keys == Ids(batch)
    requires a in Ids(batch) && NewRows(now, batch, tails)[a].after.Some?
    requires b in db.msgs && db.msgs[b].channel == NewRows(now, batch, tails)[a].channel
    ensures db.msgs[b].after != NewRows(now, batch, tails)[a].after
  {
    var m :| m in batch && m.id == a;
    NewRowAt(now, batch, tails, m);
    var c := m.channel;
    assert c in OrderedChannels(batch) && HasLine(db.msgs, c);
    assert OrderedIds(batch, c) <= Ids(batch);
    LinedImpliesConstraints(db.msgs);
    if db.msgs[b].after == NewRows(now, batch, tails)[a].after {
      assert db.msgs[b].after == Some(tails[c]);
      var line := LineOf(db.msgs, c);
      var k := IndexInLine(db.msgs, c, line, b);
    }
  }

  /** What the write of an append reports: the foreign key if and only if a tail it read is
      gone, the unique index if and only if a tail it read has been overtaken. */
  lemma AppendViolations(db: Db, now: int, batch: seq<NewMsg>, tails: Tails)
    requires Lined(db.msgs) && OrderedChannels(batch) <= tails.Keys
    requires TailsAged(db.msgs, tails) && forall c | c in tails :: tails[c] !in Ids(batch)
    requires FreshKeys(db, batch)
    ensures OrderForeignKey in Violations(db.msgs + NewRows(now, batch, tails)) <==> SomeGone(db.msgs, batch, tails)
    ensures OrderIndex in Violations(db.msgs + NewRows(now, batch, tails)) <==> SomeOvertaken(db.msgs, batch, tails)
  {
    if SomeGone(db.msgs, batch, tails) {
      var c :| c in OrderedChannels(batch) && tails[c] !in db.msgs;
      GoneTailViolates(db, now, batch, tails, c);
    } else {
      ForeignKeyUnlessGone(db, now, batch, tails);
    }
    if SomeOvertaken(db.msgs, batch, tails) {
      var c :| c in OrderedChannels(batch) && tails[c] in db.msgs && HasLine(db.msgs, c)
               && tails[c] != Tail(db.msgs, c);
      OvertakenTailViolates(db, now, batch, tails, c);
    } else {
      OrderIndexUnlessOvertaken(db, now, batch, tails);
    }
  }

  /** The two constraints on the order are the ones a caller retries on; a taken key is not. */
  lemma RetryOrderViolations(v: Violation)
    ensures ShouldRetry(Some(v.Code()), Some(v.Constraint())) <==> v in {OrderIndex, OrderForeignKey}
  {
  }

  /** What `should_retry` accepts: the two violations by code and constraint, and any failed
      serialization or deadlock by code alone. */
  lemma RetryCodes(code: Option<string>, constraint: Option<string>)
    ensures ShouldRetry(code, constraint) <==>
            || (code == Some("23503") && constraint == Some("mq_msgs_after_message_id_fkey"))
            || (code == Some("23505") &&
                constraint == Some("mq_msgs_channel_name_channel_args_after_message_id_idx"))
            || code == Some("40001") || code == Some("40P01")
    ensures OrderForeignKey.Code() == "23503" && OrderForeignKey.Constraint() == "mq_msgs_after_message_id_fkey"
    ensures OrderIndex.Code() == MsgKey.Code() == PayloadKey.Code() == "23505"
    ensures OrderIndex.Constraint() == "mq_msgs_channel_name_channel_args_after_message_id_idx"
  {
  }

  /** The append commits exactly when its keys are free and every tail it read is still the
      tail; if only the tails are stale, `should_retry` accepts whatever it reports. */
  lemma InsertCommitsIff(db: Db, now: int, batch: seq<NewMsg>, tails: Tails)
    requires Lined(db.msgs) && OrderedChannels(batch) <= tails.Keys
    requires TailsAged(db.msgs, tails)
    requires FreshKeys(db, batch) ==> forall c | c in tails :: tails[c] !in Ids(batch)
    ensures InsertAfter(db, now, batch, tails).Committed? <==>
            FreshKeys(db, batch) && TailsCurrent(db.msgs, batch, tails)
    ensures FreshKeys(db, batch) && !TailsCurrent(db.msgs, batch, tails) ==>
              && InsertAfter(db, now, batch, tails).violations != {}
              && forall v | v in InsertAfter(db, now, batch, tails).violations ::
                   ShouldRetry(Some(v.Code()), Some(v.Constraint()))
  {
    if FreshKeys(db, batch) {
      FreshCommitsIff(db, now, batch, tails);
      forall v | v in Violations(db.msgs + NewRows(now, batch, tails))
        ensures ShouldRetry(Some(v.Code()), Some(v.Constraint()))
      {
        RetryOrderViolations(v);
      }
    }
  }

  lemma FreshCommitsIff(db: Db, now: int, batch: seq<NewMsg>, tails: Tails)
    requires Lined(db.msgs) && OrderedChannels(batch) <= tails.Keys && FreshKeys(db, batch)
    requires TailsAged(db.msgs, tails) && forall c | c in tails :: tails[c] !in Ids(batch)
    ensures Violations(db.msgs + NewRows(now, batch, tails)) == {} <==> TailsCurrent(db.msgs, batch, tails)
  {
    CurrentOrStale(db.msgs, batch, tails);
    AppendViolations(db, now, batch, tails);
  }
}
