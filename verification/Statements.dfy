/** The SQL functions, each as the state change of one transaction.

    Commit, keep-alive, checkpoint and poll change rows one by one; insert, delete and clear can
    break a constraint, and then change nothing. */
module Statements {
  import opened Schema
  import opened Rows
  import opened Batches

  function Violations(msgs: Msgs): set<Violation> {
    (if OrderIndexHolds(msgs) then {} else {OrderIndex}) +
    (if ForeignKeyHolds(msgs) then {} else {OrderForeignKey})
  }

  /** There are no payloads but those of messages other than nil. */
  ghost predicate PayloadsBelong(db: Db) {
    db.payloads.Keys <= db.msgs.Keys - {NIL}
  }

  /** The payloads are exactly those of the messages other than nil. */
  ghost predicate TablesAgree(db: Db) {
    db.payloads.Keys == db.msgs.Keys - {NIL}
  }

  ghost predicate BackoffsNonNegative(msgs: Msgs) {
    forall id | id in msgs :: msgs[id].backoff >= 0
  }

  // Insert

  type Tails = map<Channel, Id>

  function NewRow(m: NewMsg, now: int, batch: seq<NewMsg>, tails: Tails): Msg
    requires m.ordered ==> m.channel in tails
  {
    Msg(now,
        Some(now + m.delay + if m.commitInterval.None? then 0 else m.commitInterval.value),
        m.retries + 1,
        m.backoff,
        m.channel,
        m.commitInterval,
        if m.ordered then Some(Lag(OrderedIds(batch, m.channel), m.id, tails[m.channel])) else None)
  }

  function NewRows(now: int, batch: seq<NewMsg>, tails: Tails): Msgs
    requires DistinctIds(batch) && OrderedChannels(batch) <= tails.Keys
  {
    map i | 0 <= i < |batch| :: batch[i].id := NewRow(batch[i], now, batch, tails)
  }

  function NewPayloads(batch: seq<NewMsg>): map<Id, Payload>
    requires DistinctIds(batch)
  {
    map i | 0 <= i < |batch| :: batch[i].id := batch[i].payload
  }

  /** No id of the batch is taken, by another element or by a row. */
  predicate FreshKeys(db: Db, batch: seq<NewMsg>) {
    DistinctIds(batch) && Ids(batch) !! db.msgs.Keys && Ids(batch) !! db.payloads.Keys
  }

  /** The write of `mq_insert` with the tails that its query read. */
  function InsertAfter(db: Db, now: int, batch: seq<NewMsg>, tails: Tails): Outcome
    requires OrderedChannels(batch) <= tails.Keys
  {
    if !DistinctIds(batch) || !(Ids(batch) !! db.payloads.Keys) then Aborted({PayloadKey})
    else if !(Ids(batch) !! db.msgs.Keys) then Aborted({MsgKey} + Violations(db.msgs + NewRows(now, batch, tails)))
    else
      var msgs := db.msgs + NewRows(now, batch, tails);
      if Violations(msgs) != {} then Aborted(Violations(msgs))
      else Committed(Db(msgs, db.payloads + NewPayloads(batch)))
  }

  function InsertNotices(batch: seq<NewMsg>): set<string> {
    set m | m in batch :: m.channel.name
  }

  // Commit, keep-alive, checkpoint

  function AfterCommit(db: Db, ids: set<Id>): Db {
    db.(msgs := map id | id in db.msgs :: if id in ids then CommitRow(db.msgs[id]) else db.msgs[id])
  }

  function AfterKeepAlive(db: Db, now: int, ids: set<Id>, duration: nat): Db {
    db.(msgs := map id | id in db.msgs :: if id in ids then RenewRow(db.msgs[id], now + duration) else db.msgs[id])
  }

  function Replaced(p: Payload, json: Option<string>, bytes: Option<seq<bv8>>): Payload {
    p.(json := if json.Some? then json else p.json, bytes := if bytes.Some? then bytes else p.bytes)
  }

  function AfterCheckpoint(db: Db, now: int, id: Id, duration: nat, json: Option<string>, bytes: Option<seq<bv8>>,
                      extra: Option<int>): Db {
    Db(if id in db.msgs then db.msgs[id := CheckpointRow(db.msgs[id], now + duration, extra)] else db.msgs,
       if id in db.payloads then db.payloads[id := Replaced(db.payloads[id], json, bytes)] else db.payloads)
  }

  // Delete and clear

  function Promote(msgs: Msgs, gone: set<Id>): Msgs {
    map id | id in msgs && id !in gone ::
      if msgs[id].after.Some? && msgs[id].after.value in gone then PromoteRow(msgs[id]) else msgs[id]
  }

  /** DELETE from both tables: the survivors that waited for a deleted row get the default,
      and then the constraints are checked. */
  function DeleteRows(db: Db, ids: set<Id>): Outcome {
    var msgs := Promote(db.msgs, ids * db.msgs.Keys);
    if Violations(msgs) != {} then Aborted(Violations(msgs))
    else Committed(Db(msgs, db.payloads - ids))
  }

  /** The two DELETE statements of `mq_delete`.  The rows of `missed` are inserted between them, so
      the first does not see them, but the second sees their payloads. */
  function DeleteMissing(db: Db, ids: set<Id>, missed: set<Id>): Outcome {
    var o := DeleteRows(db, ids - missed);
    if o.Committed? then Committed(Db(o.db.msgs, db.payloads - ids)) else o
  }

  function DeleteNotices(msgs: Msgs, ids: set<Id>): set<string> {
    set id | id in ids && id in msgs && msgs[id].after == Some(NIL) :: msgs[id].channel.name
  }

  function InChannels(msgs: Msgs, names: set<string>): set<Id> {
    set id | id in msgs && msgs[id].channel.name in names && id != NIL
  }

  function AfterClear(db: Db, names: set<string>): Outcome {
    DeleteRows(db, InChannels(db.msgs, names))
  }

  function AfterClearAll(db: Db): Outcome {
    DeleteRows(db, db.msgs.Keys - {NIL})
  }

  // Poll

  /** The names a runner polls for; `None` is every channel. */
  type Subscription = Option<set<string>>

  predicate Subscribed(subs: Subscription, name: string) {
    subs.None? || name in subs.value
  }

  predicate SubscribedHead(msgs: Msgs, subs: Subscription, id: Id) {
    id in msgs && id != NIL && IsHead(msgs[id]) && Subscribed(subs, msgs[id].channel.name)
  }

  function ReadySet(msgs: Msgs, now: int, subs: Subscription): set<Id> {
    set id | id in msgs && SubscribedHead(msgs, subs, id) && Due(msgs[id], now)
  }

  /** The rows the UPDATE finds still due when it reaches them. */
  function Delivered(msgs: Msgs, now: int, picked: set<Id>): set<Id> {
    set id | id in picked && id in msgs && Due(msgs[id], now)
  }

  function PollUpdate(db: Db, now: int, picked: set<Id>): Db {
    db.(msgs := map id | id in db.msgs ::
          if id in Delivered(db.msgs, now, picked) then Lease(db.msgs[id], now) else db.msgs[id])
  }

  /** The subscribed heads that will be due at some time. */
  function TimedHeads(msgs: Msgs, subs: Subscription): set<Id> {
    set id | id in msgs && SubscribedHead(msgs, subs, id) && msgs[id].attemptAt.Some?
  }

  ghost predicate IsEarliest(msgs: Msgs, ids: set<Id>, id: Id)
    requires forall x | x in ids :: x in msgs && msgs[x].attemptAt.Some?
  {
    id in ids && forall x | x in ids :: msgs[id].attemptAt.value <= msgs[x].attemptAt.value
  }

  lemma {:induction false} EarliestExists(msgs: Msgs, ids: set<Id>) returns (first: Id)
    requires forall x | x in ids :: x in msgs && msgs[x].attemptAt.Some?
    requires |ids| > 0
    ensures IsEarliest(msgs, ids, first)
    decreases |ids|
  {
    var e :| e in ids;
    var rest := ids - {e};
    first := e;
    if |rest| > 0 {
      var m := EarliestExists(msgs, rest);
      first := if msgs[e].attemptAt.value < msgs[m].attemptAt.value then e else m;
    }
    forall x | x in ids ensures msgs[first].attemptAt.value <= msgs[x].attemptAt.value {
      assert x == e || x in rest;
    }
  }

  /** The answer of a poll that updated nothing: MIN(attempt_at) - NOW(), NULL over no times. */
  ghost function WaitTime(msgs: Msgs, now: int, subs: Subscription): (wait: Option<int>)
    ensures wait.None? <==> TimedHeads(msgs, subs) == {}
    ensures wait.Some? ==> exists id | id in TimedHeads(msgs, subs) :: msgs[id].attemptAt.value == now + wait.value
    ensures wait.Some? ==> forall id | id in TimedHeads(msgs, subs) :: now + wait.value <= msgs[id].attemptAt.value
  {
    var heads := TimedHeads(msgs, subs);
    if heads == {} then None else
      assert exists id :: IsEarliest(msgs, heads, id) by {
        var first := EarliestExists(msgs, heads);
      }
      var first :| IsEarliest(msgs, heads, first);
      Some(msgs[first].attemptAt.value - now)
  }
}
