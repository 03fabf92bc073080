/** Runs of the queue: any interleaving of transactions of any number of clients.

    An insert, a poll, a deletion and a clear take two steps each: what their query reads, and the
    write, which checks the constraints and rechecks the rows against the table as it then is. */
module Runs {
  import opened Schema
  import opened Batches
  import opened Lines
  import opened Statements
  import opened Polling
  import opened Deletion
  import opened Insertion

  type Txn = nat

  datatype PendingInsert = PendingInsert(now: int, batch: seq<NewMsg>, tails: Tails)

  // `picked` maps each candidate to the payload it was joined with, if there was one
  datatype PendingPoll = PendingPoll(now: int, subs: Subscription, size: nat, picked: map<Id, Option<Payload>>)

  // The rows that are about to go, those of them that had not been inserted yet when it looked, and
  // the channel names to notify
  datatype PendingDelete = PendingDelete(ids: set<Id>, unseen: set<Id>, notices: set<string>)

  /** `used` holds every id that has ever been a message. */
  datatype World = World(
    db: Db,
    used: set<Id>,
    inserts: map<Txn, PendingInsert>,
    polls: map<Txn, PendingPoll>,
    deletes: map<Txn, PendingDelete>)

  datatype Step =
    | BeginInsert(txn: Txn, now: int, batch: seq<NewMsg>, tails: Tails)
    | FinishInsert(txn: Txn)
    | BeginPoll(txn: Txn, now: int, subs: Subscription, size: nat,
                chosen: set<Channel>, rows: map<Channel, set<Id>>, picked: set<Id>)
    | FinishPoll(txn: Txn)
    | CommitStep(ids: set<Id>)
    | BeginDelete(txn: Txn, ids: set<Id>)
    | BeginClear(txn: Txn, names: set<string>)
    | BeginClearAll(txn: Txn)
    | FinishDelete(txn: Txn, missed: set<Id>)  // `missed` is inserted between its two DELETEs
    | KeepAliveStep(now: int, ids: set<Id>, duration: nat)
    | CheckpointStep(now: int, id: Id, duration: nat, json: Option<string>, bytes: Option<seq<bv8>>, extra: Option<int>)

  /** The table right after the setup migration ran at `now`. */
  function Init(now: int): World {
    var nilRow := Msg(now, Some(now), 5, 1_000_000, Channel("", ""), None, None);
    World(Db(map[NIL := nilRow], map[]), {}, map[], map[], map[])
  }

  /** What callers and the database do.  Callers never delete nil and never insert the id of a
      message that is gone; an id that is still there fails on the primary key. */
  ghost predicate Allowed(w: World, s: Step) {
    match s
    case BeginInsert(txn, now, batch, tails) =>
      && txn !in w.inserts && tails.Keys == OrderedChannels(batch)
      && forall c | c in tails :: IsLatest(w.db.msgs, c, tails[c])
    case FinishInsert(txn) =>
      txn in w.inserts && forall id | id in Ids(w.inserts[txn].batch) && id in w.used :: id in w.db.msgs
    case BeginPoll(txn, now, subs, size, chosen, rows, picked) =>
      txn !in w.polls && Selected(w.db.msgs, now, subs, size, chosen, rows, picked)
    case FinishPoll(txn) => txn in w.polls
    case BeginDelete(txn, ids) => txn !in w.deletes && NIL !in ids
    case BeginClear(txn, _) => txn !in w.deletes
    case BeginClearAll(txn) => txn !in w.deletes
    case FinishDelete(txn, missed) => txn in w.deletes && missed <= w.deletes[txn].unseen
    case _ => true
  }

  function Join(db: Db, picked: set<Id>): map<Id, Option<Payload>> {
    map id | id in picked :: if id in db.payloads then Some(db.payloads[id]) else None
  }

  function Settle(db: Db, o: Outcome): Db {
    if o.Committed? then o.db else db
  }

  /** The write of the pending insert `txn`. */
  function InsertOutcome(w: World, txn: Txn): Outcome
    requires txn in w.inserts && OrderedChannels(w.inserts[txn].batch) <= w.inserts[txn].tails.Keys
  {
    InsertAfter(w.db, w.inserts[txn].now, w.inserts[txn].batch, w.inserts[txn].tails)
  }

  /** The write of the pending deletion or clear `txn`. */
  function DeleteOutcome(w: World, txn: Txn, missed: set<Id>): Outcome
    requires txn in w.deletes
  {
    DeleteMissing(w.db, w.deletes[txn].ids, missed)
  }

  /** The deletion `txn` promotes `id`: it removes the message that `id` waits for, and not `id`. */
  predicate Promotes(w: World, txn: Txn, missed: set<Id>, id: Id)
    requires txn in w.deletes
  {
    var gone := w.deletes[txn].ids - missed;
    && DeleteOutcome(w, txn, missed).Committed? && id in w.db.msgs && id !in gone
    && w.db.msgs[id].after.Some? && w.db.msgs[id].after.value in gone * w.db.msgs.Keys
  }

  function DeliveredBy(w: World, txn: Txn): set<Id>
    requires txn in w.polls
  {
    Delivered(w.db.msgs, w.polls[txn].now, w.polls[txn].picked.Keys)
  }

  ghost function Apply(w: World, s: Step): World
    requires Allowed(w, s)
    requires PendingShape(w)
  {
    match s
    case BeginInsert(txn, now, batch, tails) => w.(inserts := w.inserts[txn := PendingInsert(now, batch, tails)])
    case FinishInsert(txn) =>
      var o := InsertOutcome(w, txn);
      World(Settle(w.db, o), if o.Committed? then w.used + Ids(w.inserts[txn].batch) else w.used,
            w.inserts - {txn}, w.polls, w.deletes)
    case BeginPoll(txn, now, subs, size, chosen, rows, picked) =>
      w.(polls := w.polls[txn := PendingPoll(now, subs, size, Join(w.db, picked))])
    case FinishPoll(txn) =>
      w.(db := PollUpdate(w.db, w.polls[txn].now, w.polls[txn].picked.Keys), polls := w.polls - {txn})
    case CommitStep(ids) => w.(db := AfterCommit(w.db, ids))
    case BeginDelete(txn, ids) =>
      w.(deletes := w.deletes[txn := PendingDelete(ids, ids - w.used, DeleteNotices(w.db.msgs, ids))])
    case BeginClear(txn, names) =>
      w.(deletes := w.deletes[txn := PendingDelete(InChannels(w.db.msgs, names), {}, {})])
    case BeginClearAll(txn) =>
      w.(deletes := w.deletes[txn := PendingDelete(w.db.msgs.Keys - {NIL}, {}, {})])
    case FinishDelete(txn, missed) =>
      w.(db := Settle(w.db, DeleteOutcome(w, txn, missed)), deletes := w.deletes - {txn})
    case KeepAliveStep(now, ids, duration) => w.(db := AfterKeepAlive(w.db, now, ids, duration))
    case CheckpointStep(now, id, duration, json, bytes, extra) =>
      w.(db := AfterCheckpoint(w.db, now, id, duration, json, bytes, extra))
  }

  // The invariant

  ghost predicate PendingShape(w: World) {
    && (forall txn | txn in w.inserts :: OrderedChannels(w.inserts[txn].batch) == w.inserts[txn].tails.Keys)
    && (forall txn | txn in w.deletes :: NIL !in w.deletes[txn].ids)
  }

  ghost predicate TailsSeen(w: World, tails: Tails) {
    forall c | c in tails :: tails[c] == NIL ||
      (tails[c] in w.used && (tails[c] in w.db.msgs ==> Ordered(w.db.msgs, c, tails[c])))
  }

  ghost predicate CandidatesSeen(w: World, p: PendingPoll) {
    && |p.picked| <= p.size
    && forall id | id in p.picked ::
         id in w.used && (id in w.db.msgs ==> IsHead(w.db.msgs[id]))
  }

  ghost predicate UsedCovers(w: World) {
    NIL !in w.used && forall id | id in w.db.msgs && id != NIL :: id in w.used
  }

  ghost predicate Sound(w: World) {
    && Lined(w.db.msgs)
    && PayloadsBelong(w.db)
    && UsedCovers(w)
    && BackoffsNonNegative(w.db.msgs)
    && PendingShape(w)
    && (forall txn | txn in w.inserts :: TailsSeen(w, w.inserts[txn].tails))
    && (forall txn | txn in w.polls :: CandidatesSeen(w, w.polls[txn]))
  }

  /** What no step undoes: ids stay used, a message that is gone stays gone, one that stays
      keeps its channel and whether it is ordered, and a head stays a head. */
  ghost predicate Evolves(w: World, w': World) {
    && w.used <= w'.used
    && forall id | id in w.used && id in w'.db.msgs ::
         && id in w.db.msgs
         && w'.db.msgs[id].channel == w.db.msgs[id].channel
         && (w'.db.msgs[id].after.Some? <==> w.db.msgs[id].after.Some?)
         && (IsHead(w.db.msgs[id]) ==> IsHead(w'.db.msgs[id]))
  }

  lemma EvolvesKeepsPending(w: World, w': World)
    requires UsedCovers(w) && Evolves(w, w')
    ensures forall tails: Tails :: TailsSeen(w, tails) ==> TailsSeen(w', tails)
    ensures forall p :: CandidatesSeen(w, p) ==> CandidatesSeen(w', p)
  {
  }

  /** `line'` is `line` with a prefix and a suffix gone and `added` at the end. */
  ghost predicate Trimmed(line: seq<Id>, line': seq<Id>, lo: nat, hi: nat, added: seq<Id>) {
    lo <= hi <= |line| && line' == line[lo..hi] + added
  }

  /** Rows keep their channel and predecessor. */
  ghost predicate SameChains(msgs: Msgs, msgs': Msgs) {
    msgs.Keys == msgs'.Keys &&
    forall id | id in msgs :: msgs'[id].channel == msgs[id].channel && msgs'[id].after == msgs[id].after
  }

  lemma SameChainsSameLines(msgs: Msgs, msgs': Msgs)
    requires Lined(msgs) && SameChains(msgs, msgs')
    ensures Lined(msgs')
    ensures forall c :: HasLine(msgs, c) && HasLine(msgs', c) && LineOf(msgs', c) == LineOf(msgs, c)
  {
    forall c ensures HasLine(msgs, c) && HasLine(msgs', c) && LineOf(msgs', c) == LineOf(msgs, c) {
      assert HasLine(msgs, c);
      assert SameOrder(msgs, msgs', c);
      SameOrderSameLine(msgs, msgs', c);
    }
  }

  predicate UpdatesRows(s: Step) {
    s.FinishPoll? || s.CommitStep? || s.KeepAliveStep? || s.CheckpointStep?
  }

  lemma UpdateStep(w: World, s: Step)
    requires PendingShape(w) && BackoffsNonNegative(w.db.msgs) && Allowed(w, s) && UpdatesRows(s)
    ensures SameChains(w.db.msgs, Apply(w, s).db.msgs)
    ensures Apply(w, s).db.payloads.Keys == w.db.payloads.Keys
    ensures BackoffsNonNegative(Apply(w, s).db.msgs)
  {
  }

  lemma DeleteStep(w: World, txn: Txn, missed: set<Id>)
    requires Sound(w) && Allowed(w, FinishDelete(txn, missed))
    ensures var w' := Apply(w, FinishDelete(txn, missed));
            Lined(w'.db.msgs) && PayloadsBelong(w'.db) && Evolves(w, w') && BackoffsNonNegative(w'.db.msgs)
  {
    if DeleteOutcome(w, txn, missed).Committed? {
      DeleteKeepsLines(w.db, w.deletes[txn].ids - missed);
    }
  }

  lemma PendingInsertReady(w: World, txn: Txn)
    requires Sound(w) && Allowed(w, FinishInsert(txn))
    ensures TailsAged(w.db.msgs, w.inserts[txn].tails)
    ensures FreshKeys(w.db, w.inserts[txn].batch) ==>
              forall c | c in w.inserts[txn].tails :: w.inserts[txn].tails[c] !in Ids(w.inserts[txn].batch)
  {
  }

  /** The parts of the invariant that a committed insert touches besides the lines. */
  lemma InsertedTables(w: World, w': World, now: int, batch: seq<NewMsg>)
    requires PayloadsBelong(w.db) && UsedCovers(w) && BackoffsNonNegative(w.db.msgs)
    requires Inserted(w.db, w'.db, now, batch) && w'.used == w.used + Ids(batch) && NIL in w.db.msgs
    requires Ids(batch) !! w.db.msgs.Keys && forall id | id in Ids(batch) && id in w.used :: id in w.db.msgs
    ensures PayloadsBelong(w'.db) && UsedCovers(w') && Evolves(w, w') && BackoffsNonNegative(w'.db.msgs)
  {
  }

  lemma InsertStep(w: World, txn: Txn)
    requires Sound(w) && Allowed(w, FinishInsert(txn))
    ensures Lined(Apply(w, FinishInsert(txn)).db.msgs)
    ensures PayloadsBelong(Apply(w, FinishInsert(txn)).db)
    ensures Evolves(w, Apply(w, FinishInsert(txn))) && UsedCovers(Apply(w, FinishInsert(txn)))
    ensures BackoffsNonNegative(Apply(w, FinishInsert(txn)).db.msgs)
  {
    var p := w.inserts[txn];
    if InsertOutcome(w, txn).Committed? {
      assert FreshKeys(w.db, p.batch) && TailsCurrent(w.db.msgs, p.batch, p.tails) by {
        PendingInsertReady(w, txn);
        InsertCommitsIff(w.db, p.now, p.batch, p.tails);
      }
      CurrentTailsCommit(w.db, p.now, p.batch, p.tails);
      InsertsRows(w.db, p.now, p.batch, p.tails);
      InsertedTables(w, Apply(w, FinishInsert(txn)), p.now, p.batch);
    }
  }

  lemma TailsReadAreSeen(w: World, tails: Tails)
    requires Sound(w) && forall c | c in tails :: IsLatest(w.db.msgs, c, tails[c])
    ensures TailsSeen(w, tails)
  {
  }

  lemma PendInsert(w: World, txn: Txn, p: PendingInsert)
    requires Sound(w) && OrderedChannels(p.batch) == p.tails.Keys && TailsSeen(w, p.tails)
    ensures Sound(w.(inserts := w.inserts[txn := p])) && Evolves(w, w.(inserts := w.inserts[txn := p]))
  {
    var w' := w.(inserts := w.inserts[txn := p]);
    EvolvesKeepsPending(w, w');
  }

  lemma PendPoll(w: World, txn: Txn, p: PendingPoll)
    requires Sound(w) && CandidatesSeen(w, p)
    ensures Sound(w.(polls := w.polls[txn := p])) && Evolves(w, w.(polls := w.polls[txn := p]))
  {
  }

  lemma BeginInsertStep(w: World, s: Step)
    requires Sound(w) && Allowed(w, s) && s.BeginInsert?
    ensures Sound(Apply(w, s)) && Evolves(w, Apply(w, s))
  {
    TailsReadAreSeen(w, s.tails);
    PendInsert(w, s.txn, PendingInsert(s.now, s.batch, s.tails));
  }

  lemma BeginPollStep(w: World, s: Step)
    requires Sound(w) && Allowed(w, s) && s.BeginPoll?
    ensures Sound(Apply(w, s)) && Evolves(w, Apply(w, s))
  {
    var p := PendingPoll(s.now, s.subs, s.size, Join(w.db, s.picked));
    assert CandidatesSeen(w, p) by {
      PickedAreReady(w, s);
      JoinIsSeen(w, p, s.picked);
    }
    PendPoll(w, s.txn, p);
  }

  predicate BeginsDelete(s: Step) {
    s.BeginDelete? || s.BeginClear? || s.BeginClearAll?
  }

  lemma BeginDeleteStep(w: World, s: Step)
    requires Sound(w) && Allowed(w, s) && BeginsDelete(s)
    ensures Sound(Apply(w, s)) && Evolves(w, Apply(w, s))
    ensures Apply(w, s).db == w.db
  {
    EvolvesKeepsPending(w, Apply(w, s));
  }

  lemma PickedAreReady(w: World, s: Step)
    requires s.BeginPoll? && Allowed(w, s)
    ensures s.picked <= ReadySet(w.db.msgs, s.now, s.subs) && |s.picked| <= s.size
  {
  }

  lemma JoinIsSeen(w: World, p: PendingPoll, picked: set<Id>)
    requires UsedCovers(w)
    requires picked <= ReadySet(w.db.msgs, p.now, p.subs) && |picked| <= p.size && p.picked == Join(w.db, picked)
    ensures CandidatesSeen(w, p)
  {
    assert p.picked.Keys == picked;
    assert |p.picked| == |p.picked.Keys|;
  }

  /** Once the tables are in order again, what was pending still is. */
  lemma FinishSound(w: World, w': World)
    requires Sound(w) && Evolves(w, w')
    requires Lined(w'.db.msgs) && PayloadsBelong(w'.db) && UsedCovers(w') && BackoffsNonNegative(w'.db.msgs)
    requires forall txn | txn in w'.inserts :: txn in w.inserts && w'.inserts[txn] == w.inserts[txn]
    requires forall txn | txn in w'.polls :: txn in w.polls && w'.polls[txn] == w.polls[txn]
    requires forall txn | txn in w'.deletes :: txn in w.deletes && w'.deletes[txn] == w.deletes[txn]
    ensures Sound(w')
  {
    EvolvesKeepsPending(w, w');
  }

  /** Every step of every run keeps the shape of the tables. */
  lemma StepKeepsSound(w: World, s: Step)
    requires Sound(w) && Allowed(w, s)
    ensures Sound(Apply(w, s)) && Evolves(w, Apply(w, s))
  {
    if s.BeginInsert? {
      BeginInsertStep(w, s);
    } else if s.BeginPoll? {
      BeginPollStep(w, s);
    } else if BeginsDelete(s) {
      BeginDeleteStep(w, s);
    } else {
      if s.FinishInsert? {
        InsertStep(w, s.txn);
      } else if s.FinishDelete? {
        DeleteStep(w, s.txn, s.missed);
      } else {
        UpdateStep(w, s);
        SameChainsSameLines(w.db.msgs, Apply(w, s).db.msgs);
      }
      FinishSound(w, Apply(w, s));
    }
  }
}
