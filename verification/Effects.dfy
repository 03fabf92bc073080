/** What each step leaves in the columns of the two tables and remembers for its write, column by
    column. */
module Effects {
  import opened Schema
  import opened Batches
  import opened Statements
  import opened Insertion
  import opened Runs

  // mq_insert

  lemma CommittedInsert(w: World, txn: Txn)
    requires Sound(w) && Allowed(w, FinishInsert(txn)) && InsertOutcome(w, txn).Committed?
    ensures Inserted(w.db, Apply(w, FinishInsert(txn)).db, w.inserts[txn].now, w.inserts[txn].batch)
  {
    var p := w.inserts[txn];
    InsertsRows(w.db, p.now, p.batch, p.tails);
  }

  lemma InsertedMeans(before: Db, after: Db, now: int, batch: seq<NewMsg>)
    requires Inserted(before, after, now, batch)
    ensures after.msgs.Keys == before.msgs.Keys + set m | m in batch :: m.id
    ensures after.payloads.Keys == before.payloads.Keys + set m | m in batch :: m.id
    ensures forall id | id in before.msgs :: id in after.msgs && after.msgs[id] == before.msgs[id]
    ensures forall id | id in before.payloads :: id in after.payloads && after.payloads[id] == before.payloads[id]
    ensures forall m | m in batch ::
              m.id in after.payloads && after.payloads[m.id] == m.payload
  {
  }

  /** The row that a message asks for (`Histories.InsertedRow`). */
  lemma InsertedAsMeans(m: NewMsg, now: int, row: Msg)
    ensures InsertedAs(m, now, row) <==>
            && row.createdAt == now
            && row.attemptAt == Some(now + m.delay + if m.commitInterval.Some? then m.commitInterval.value else 0)
            && row.attempts == m.retries + 1
            && row.backoff == m.backoff
            && row.channel == m.channel
            && row.commitInterval == m.commitInterval
            && (row.after.Some? <==> m.ordered)
  {
  }

  /** An insert that commits gives every message of its batch its own payload, and leaves all other
      payloads as they were. */
  lemma InsertPayloads(w: World, txn: Txn)
    requires Sound(w) && Allowed(w, FinishInsert(txn)) && InsertOutcome(w, txn).Committed?
    ensures var batch, payloads := w.inserts[txn].batch, Apply(w, FinishInsert(txn)).db.payloads;
            && payloads.Keys == w.db.payloads.Keys + (set m | m in batch :: m.id)
            && (forall m | m in batch :: m.id in payloads && payloads[m.id] == m.payload)
            && forall id | id in w.db.payloads :: id in payloads && payloads[id] == w.db.payloads[id]
  {
    CommittedInsert(w, txn);
    InsertedMeans(w.db, Apply(w, FinishInsert(txn)).db, w.inserts[txn].now, w.inserts[txn].batch);
  }

  /** What an insert reports if an id is taken: the payloads go first, so an id that is twice in the
      batch or has a payload already is found there; none of these is retried. */
  lemma TakenKeys(db: Db, now: int, batch: seq<NewMsg>, tails: Tails)
    requires OrderedChannels(batch) <= tails.Keys
    ensures (exists i, j | 0 <= i < j < |batch| :: batch[i].id == batch[j].id)
            || (exists m | m in batch :: m.id in db.payloads) ==>
              InsertAfter(db, now, batch, tails) == Aborted({PayloadKey})
    ensures (forall i, j | 0 <= i < j < |batch| :: batch[i].id != batch[j].id)
            && (forall m | m in batch :: m.id !in db.payloads) && (exists m | m in batch :: m.id in db.msgs) ==>
              InsertAfter(db, now, batch, tails).Aborted? && MsgKey in InsertAfter(db, now, batch, tails).violations
    ensures !ShouldRetry(Some(PayloadKey.Code()), Some(PayloadKey.Constraint()))
    ensures !ShouldRetry(Some(MsgKey.Code()), Some(MsgKey.Constraint()))
  {
    if m :| m in batch && m.id in db.payloads {
      assert m.id in Ids(batch);
    }
    if m :| m in batch && m.id in db.msgs {
      assert m.id in Ids(batch);
    }
  }

  /** What the first half of an insert remembers. */
  lemma BeginInsertEffect(w: World, txn: Txn, now: int, batch: seq<NewMsg>, tails: Tails)
    requires PendingShape(w) && Allowed(w, BeginInsert(txn, now, batch, tails))
    ensures var w' := Apply(w, BeginInsert(txn, now, batch, tails));
            && txn in w'.inserts && w'.inserts[txn] == PendingInsert(now, batch, tails)
            && w' == w.(inserts := w'.inserts) && w'.inserts - {txn} == w.inserts
  {
    assert w.inserts[txn := PendingInsert(now, batch, tails)] - {txn} == w.inserts;
  }

  // mq_poll

  /** What the query of a poll remembers: its time, and of each candidate the payload there is. */
  lemma BeginPollEffect(w: World, s: Step)
    requires PendingShape(w) && Allowed(w, s) && s.BeginPoll?
    ensures var w' := Apply(w, s);
            && s.txn in w'.polls && w' == w.(polls := w'.polls) && w'.polls - {s.txn} == w.polls
            && w'.polls[s.txn].now == s.now && w'.polls[s.txn].subs == s.subs && w'.polls[s.txn].size == s.size
            && w'.polls[s.txn].picked.Keys == s.picked
            && forall id | id in s.picked :: w'.polls[s.txn].picked[id] ==
                 if id in w.db.payloads then Some(w.db.payloads[id]) else None
  {
    assert w.polls[s.txn := Apply(w, s).polls[s.txn]] - {s.txn} == w.polls;
  }

  /** The write of a poll: a candidate that is still there and due loses an attempt, its backoff
      doubles, and it is scheduled after the backoff it had, or not at all if that was its last
      attempt; reservations are treated as all others, and nothing else changes. */
  lemma PollEffect(w: World, txn: Txn)
    requires PendingShape(w) && txn in w.polls
    ensures var p, w' := w.polls[txn], Apply(w, FinishPoll(txn));
            && w' == w.(db := w.db.(msgs := w'.db.msgs), polls := w.polls - {txn})
            && w'.db.msgs.Keys == w.db.msgs.Keys
            && forall id | id in w.db.msgs ::
                 var row, row' := w.db.msgs[id], w'.db.msgs[id];
                 if id in p.picked && row.attemptAt.Some? && row.attemptAt.value <= p.now then
                   && id in DeliveredBy(w, txn)
                   && row'.attempts == row.attempts - 1
                   && row'.backoff == row.backoff + row.backoff
                   && row'.attemptAt == (if row.attempts == 1 then None else Some(p.now + row.backoff))
                   && row' == row.(attempts := row'.attempts, backoff := row'.backoff, attemptAt := row'.attemptAt)
                 else id !in DeliveredBy(w, txn) && row' == row
  {
  }

  // mq_commit, mq_keep_alive, mq_checkpoint

  /** A commit takes the commit interval off the schedule of each reservation it names. */
  lemma CommitEffect(w: World, ids: set<Id>)
    requires PendingShape(w)
    ensures var w' := Apply(w, CommitStep(ids));
            && w' == w.(db := w.db.(msgs := w'.db.msgs)) && w'.db.msgs.Keys == w.db.msgs.Keys
            && forall id | id in w.db.msgs ::
                 var row, row' := w.db.msgs[id], w'.db.msgs[id];
                 if id in ids && row.commitInterval.Some? then
                   && row'.commitInterval == None
                   && (row.attemptAt.None? ==> row'.attemptAt == None)
                   && (row.attemptAt.Some? ==> row'.attemptAt == Some(row.attemptAt.value - row.commitInterval.value))
                   && row' == row.(commitInterval := None, attemptAt := row'.attemptAt)
                 else row' == row
  {
  }

  /** A keep-alive moves what is scheduled before its deadline to the deadline, and lengthens a commit
      interval by as much. */
  lemma KeepAliveEffect(w: World, now: int, ids: set<Id>, duration: nat)
    requires PendingShape(w)
    ensures var w' := Apply(w, KeepAliveStep(now, ids, duration));
            && w' == w.(db := w.db.(msgs := w'.db.msgs)) && w'.db.msgs.Keys == w.db.msgs.Keys
            && forall id | id in w.db.msgs ::
                 var row, row' := w.db.msgs[id], w'.db.msgs[id];
                 if id in ids && row.attemptAt.Some? && row.attemptAt.value < now + duration then
                   && row'.attemptAt == Some(now + duration)
                   && (row.commitInterval.None? ==> row'.commitInterval == None)
                   && (row.commitInterval.Some? ==>
                         row'.commitInterval == Some(row.commitInterval.value + now + duration - row.attemptAt.value))
                   && row' == row.(attemptAt := row'.attemptAt, commitInterval := row'.commitInterval)
                 else row' == row
  {
  }

  /** A checkpoint moves the schedule to its deadline unless it is later already, adds retries, and
      replaces the parts of the payload that it brings. */
  lemma CheckpointEffect(w: World, s: Step)
    requires PendingShape(w) && s.CheckpointStep?
    ensures var w' := Apply(w, s);
            && w' == w.(db := w'.db)
            && w'.db.msgs.Keys == w.db.msgs.Keys && w'.db.payloads.Keys == w.db.payloads.Keys
            && (forall id | id in w.db.msgs && id != s.id :: w'.db.msgs[id] == w.db.msgs[id])
            && (forall id | id in w.db.payloads && id != s.id :: w'.db.payloads[id] == w.db.payloads[id])
            && (s.id in w.db.msgs ==>
                  var row, row' := w.db.msgs[s.id], w'.db.msgs[s.id];
                  && row'.attemptAt.Some?
                  && (row.attemptAt.None? || row.attemptAt.value <= s.now + s.duration ==>
                        row'.attemptAt.value == s.now + s.duration)
                  && (row.attemptAt.Some? && row.attemptAt.value > s.now + s.duration ==>
                        row'.attemptAt == row.attemptAt)
                  && (s.extra.None? ==> row'.attempts == row.attempts)
                  && (s.extra.Some? ==> row'.attempts == row.attempts + s.extra.value)
                  && row' == row.(attemptAt := row'.attemptAt, attempts := row'.attempts))
            && (s.id in w.db.payloads ==>
                  var p, p' := w.db.payloads[s.id], w'.db.payloads[s.id];
                  && p'.name == p.name
                  && (s.json.Some? ==> p'.json == s.json) && (s.json.None? ==> p'.json == p.json)
                  && (s.bytes.Some? ==> p'.bytes == s.bytes) && (s.bytes.None? ==> p'.bytes == p.bytes))
  {
  }

  // mq_delete, mq_clear, mq_clear_all

  /** What the first half of a deletion or a clear remembers: which rows will go, which of them it
      does not know, and which channels to notify. */
  lemma BeginDeleteEffect(w: World, txn: Txn, ids: set<Id>, names: set<string>)
    requires PendingShape(w) && txn !in w.deletes && NIL !in ids
    ensures var w' := Apply(w, BeginDelete(txn, ids));
            && w' == w.(deletes := w'.deletes) && w'.deletes.Keys == w.deletes.Keys + {txn}
            && w'.deletes[txn].ids == ids
            && (forall id :: id in w'.deletes[txn].unseen <==> id in ids && id !in w.used)
            && forall name :: name in w'.deletes[txn].notices <==>
                 exists id :: id in ids && id in w.db.msgs && w.db.msgs[id].after == Some(0)
                              && w.db.msgs[id].channel.name == name
    ensures var w' := Apply(w, BeginClear(txn, names));
            && w' == w.(deletes := w'.deletes) && w'.deletes.Keys == w.deletes.Keys + {txn}
            && (forall id :: id in w'.deletes[txn].ids <==>
                  id in w.db.msgs && id != 0 && w.db.msgs[id].channel.name in names)
            && w'.deletes[txn].unseen == {} && w'.deletes[txn].notices == {}
    ensures var w' := Apply(w, BeginClearAll(txn));
            && w' == w.(deletes := w'.deletes) && w'.deletes.Keys == w.deletes.Keys + {txn}
            && (forall id :: id in w'.deletes[txn].ids <==> id in w.db.msgs && id != 0)
            && w'.deletes[txn].unseen == {} && w'.deletes[txn].notices == {}
  {
  }

  /** The write of a deletion or a clear that commits: its rows are gone but for those it has missed,
      with all of their payloads, and who waited for one of them waits for nil. */
  lemma DeleteEffect(w: World, txn: Txn, missed: set<Id>)
    requires PendingShape(w) && Allowed(w, FinishDelete(txn, missed)) && DeleteOutcome(w, txn, missed).Committed?
    ensures var ids, w' := w.deletes[txn].ids, Apply(w, FinishDelete(txn, missed));
            && w' == w.(db := w'.db, deletes := w.deletes - {txn})
            && (forall id :: id in w'.db.msgs <==> id in w.db.msgs && (id !in ids || id in missed))
            && (forall id :: id in w'.db.payloads <==> id in w.db.payloads && id !in ids)
            && (forall id | id in w'.db.payloads :: w'.db.payloads[id] == w.db.payloads[id])
            && forall id | id in w'.db.msgs ::
                 var row, row' := w.db.msgs[id], w'.db.msgs[id];
                 if row.after.Some? && row.after.value in w.db.msgs && row.after.value !in w'.db.msgs
                 then row' == row.(after := Some(0))
                 else row' == row
  {
  }

  /** A write that breaks a constraint leaves both tables as they are. */
  lemma AbortEffect(w: World, s: Step)
    requires PendingShape(w) && Allowed(w, s)
    requires (s.FinishInsert? && InsertOutcome(w, s.txn).Aborted?) ||
             (s.FinishDelete? && DeleteOutcome(w, s.txn, s.missed).Aborted?)
    ensures Apply(w, s).db == w.db && Apply(w, s).used == w.used
  {
  }
}
