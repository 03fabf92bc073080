/** Why a runner may sleep as long as an empty poll told it to: the steps that make a message
    ready earlier send a notification, all but three. */
module Wakeups {
  import opened Schema
  import opened Rows
  import opened Batches
  import opened Statements
  import opened Insertion
  import opened Runs
  import opened Ordering

  /** The channel names a step notifies when it commits; 'mq' is notified along with any of them. */
  ghost function Notices(w: World, s: Step): set<string>
    requires PendingShape(w) && Allowed(w, s)
  {
    match s
    case FinishInsert(txn) =>
      if InsertOutcome(w, txn).Committed? then InsertNotices(w.inserts[txn].batch) else {}
    case FinishDelete(txn, missed) => if DeleteOutcome(w, txn, missed).Committed? then w.deletes[txn].notices else {}
    case _ => {}
  }

  /** A runner listens to 'mq', or to the names it subscribed to. */
  ghost predicate Hears(subs: Subscription, names: set<string>) {
    exists name | name in names :: Subscribed(subs, name)
  }

  /** Without names a runner hears every notification, and with names those of its channels. */
  lemma HearsMeans(names: set<string>, notices: set<string>)
    ensures Hears(None, notices) <==> notices != {}
    ensures Hears(Some(names), notices) <==> exists name :: name in names && name in notices
  {
  }

  /** Who is notified: the channels of what is inserted, and those a deletion has looked up. */
  lemma NoticesMean(w: World, s: Step)
    requires PendingShape(w) && Allowed(w, s)
    ensures s.FinishInsert? && InsertOutcome(w, s.txn).Committed? ==>
              forall name :: name in Notices(w, s) <==>
                exists m :: m in w.inserts[s.txn].batch && m.channel.name == name
    ensures s.FinishDelete? && DeleteOutcome(w, s.txn, s.missed).Committed? ==>
              Notices(w, s) == w.deletes[s.txn].notices
    ensures (!(s.FinishInsert? && InsertOutcome(w, s.txn).Committed?)
             && !(s.FinishDelete? && DeleteOutcome(w, s.txn, s.missed).Committed?)) ==> Notices(w, s) == {}
  {
  }

  /** No subscribed head is due before `deadline`, or ever if there is none. */
  ghost predicate Quiet(msgs: Msgs, subs: Subscription, deadline: Option<int>) {
    forall id | id in msgs && SubscribedHead(msgs, subs, id) && msgs[id].attemptAt.Some? ::
      deadline.Some? && deadline.value <= msgs[id].attemptAt.value
  }

  predicate Earlier(time: int, deadline: Option<int>) {
    deadline.None? || time < deadline.value
  }

  /** The ways to make a head due earlier that need not be heard: committing it, which takes its
      commit interval off, reviving it after its last attempt, and promoting a message to one. */
  ghost predicate Hastens(w: World, s: Step, subs: Subscription, deadline: Option<int>)
    requires Allowed(w, s)
  {
    match s
    case CommitStep(ids) =>
      exists id | id in ids :: id in w.db.msgs && SubscribedHead(w.db.msgs, subs, id)
        && w.db.msgs[id].commitInterval.Some? && w.db.msgs[id].attemptAt.Some?
        && Earlier(w.db.msgs[id].attemptAt.value - w.db.msgs[id].commitInterval.value, deadline)
    case CheckpointStep(now, id, duration, json, bytes, extra) =>
      id in w.db.msgs && SubscribedHead(w.db.msgs, subs, id)
        && w.db.msgs[id].attemptAt.None? && Earlier(now + duration, deadline)
    case FinishDelete(txn, missed) =>
      exists id :: id in w.db.msgs && Promotes(w, txn, missed, id) && Subscribed(subs, w.db.msgs[id].channel.name)
        && w.db.msgs[id].attemptAt.Some? && Earlier(w.db.msgs[id].attemptAt.value, deadline)
    case _ => false
  }

  lemma QuietInsert(w: World, s: Step, subs: Subscription, deadline: Option<int>)
    requires Sound(w) && Allowed(w, s) && s.FinishInsert?
    requires Quiet(w.db.msgs, subs, deadline) && !Hears(subs, Notices(w, s))
    ensures Quiet(Apply(w, s).db.msgs, subs, deadline)
  {
    var o := InsertOutcome(w, s.txn);
    if o.Committed? {
      var p := w.inserts[s.txn];
      NewRowKeys(p.now, p.batch, p.tails);
      forall id | id in o.db.msgs && SubscribedHead(o.db.msgs, subs, id)
        ensures id in w.db.msgs && id !in Ids(p.batch)
      {
        if id in Ids(p.batch) {
          var m :| m in p.batch && m.id == id;
          NewRowAt(p.now, p.batch, p.tails, m);
        }
      }
    }
  }

  lemma QuietDelete(w: World, s: Step, subs: Subscription, deadline: Option<int>)
    requires Sound(w) && Allowed(w, s) && s.FinishDelete? && Quiet(w.db.msgs, subs, deadline)
    ensures Quiet(Apply(w, s).db.msgs, subs, deadline) <==> !Hastens(w, s, subs, deadline)
  {
    var msgs, msgs' := w.db.msgs, Apply(w, s).db.msgs;
    if DeleteOutcome(w, s.txn, s.missed).Committed? {
      forall id | id in msgs'
        ensures id in msgs && msgs'[id] == if Promotes(w, s.txn, s.missed, id) then PromoteRow(msgs[id]) else msgs[id]
      {
      }
      if Hastens(w, s, subs, deadline) {
        var id :| id in msgs && Promotes(w, s.txn, s.missed, id) && Subscribed(subs, msgs[id].channel.name)
                  && msgs[id].attemptAt.Some? && Earlier(msgs[id].attemptAt.value, deadline);
        assert id in msgs' && msgs'[id] == PromoteRow(msgs[id]) && id != NIL;
        assert SubscribedHead(msgs', subs, id);
      }
    }
  }

  /** A step that the runner does not hear leaves nothing due before the deadline, exactly if it
      is not one of those that hasten a head. */
  lemma SilentStep(w: World, s: Step, subs: Subscription, deadline: Option<int>)
    requires Sound(w) && Allowed(w, s)
    requires Quiet(w.db.msgs, subs, deadline) && !Hears(subs, Notices(w, s))
    ensures Quiet(Apply(w, s).db.msgs, subs, deadline) <==> !Hastens(w, s, subs, deadline)
  {
    match s
    case FinishInsert(_) => QuietInsert(w, s, subs, deadline);
    case CommitStep(ids) => QuietCommit(w, s, subs, deadline);
    case CheckpointStep(_, _, _, _, _, _) => QuietCheckpoint(w, s, subs, deadline);
    case FinishPoll(_) => QuietUpdate(w, s, subs, deadline);
    case KeepAliveStep(_, _, _) => QuietUpdate(w, s, subs, deadline);
    case FinishDelete(_, _) => QuietDelete(w, s, subs, deadline);
    case _ =>
  }

  lemma QuietCommit(w: World, s: Step, subs: Subscription, deadline: Option<int>)
    requires PendingShape(w) && Allowed(w, s) && s.CommitStep? && Quiet(w.db.msgs, subs, deadline)
    ensures Quiet(Apply(w, s).db.msgs, subs, deadline) <==> !Hastens(w, s, subs, deadline)
  {
    var msgs, msgs' := w.db.msgs, Apply(w, s).db.msgs;
    assert forall id | id in msgs :: SubscribedHead(msgs', subs, id) <==> SubscribedHead(msgs, subs, id);
    if Hastens(w, s, subs, deadline) {
      var id :| id in s.ids && id in msgs && SubscribedHead(msgs, subs, id)
                && msgs[id].commitInterval.Some? && msgs[id].attemptAt.Some?
                && Earlier(msgs[id].attemptAt.value - msgs[id].commitInterval.value, deadline);
      assert id in msgs' && SubscribedHead(msgs', subs, id);
    }
  }

  lemma QuietCheckpoint(w: World, s: Step, subs: Subscription, deadline: Option<int>)
    requires PendingShape(w) && Allowed(w, s) && s.CheckpointStep? && Quiet(w.db.msgs, subs, deadline)
    ensures Quiet(Apply(w, s).db.msgs, subs, deadline) <==> !Hastens(w, s, subs, deadline)
  {
    var msgs, msgs' := w.db.msgs, Apply(w, s).db.msgs;
    assert forall id | id in msgs :: SubscribedHead(msgs', subs, id) <==> SubscribedHead(msgs, subs, id);
    if s.id in msgs && SubscribedHead(msgs, subs, s.id) {
      assert SubscribedHead(msgs', subs, s.id);
    }
  }

  lemma QuietUpdate(w: World, s: Step, subs: Subscription, deadline: Option<int>)
    requires PendingShape(w) && BackoffsNonNegative(w.db.msgs)
    requires Allowed(w, s) && (s.FinishPoll? || s.KeepAliveStep?) && Quiet(w.db.msgs, subs, deadline)
    ensures Quiet(Apply(w, s).db.msgs, subs, deadline)
  {
  }

  /** Every step of the run goes unheard and hastens nothing. */
  ghost predicate Undisturbed(w: World, steps: seq<Step>, subs: Subscription, deadline: Option<int>)
    requires IsRun(w, steps)
    decreases |steps|
  {
    steps == [] ||
    (!Hears(subs, Notices(w, steps[0])) && !Hastens(w, steps[0], subs, deadline)
     && Undisturbed(Apply(w, steps[0]), steps[1..], subs, deadline))
  }

  lemma {:induction false} QuietRun(w: World, steps: seq<Step>, subs: Subscription, deadline: Option<int>)
    requires Sound(w) && IsRun(w, steps) && Undisturbed(w, steps, subs, deadline)
    requires Quiet(w.db.msgs, subs, deadline)
    ensures Quiet(Exec(w, steps).db.msgs, subs, deadline)
    decreases |steps|
  {
    if steps != [] {
      SilentStep(w, steps[0], subs, deadline);
      StepKeepsSound(w, steps[0]);
      QuietRun(Apply(w, steps[0]), steps[1..], subs, deadline);
    }
  }

  ghost function Deadline(now: int, wait: Option<int>): Option<int> {
    if wait.None? then None else Some(now + wait.value)
  }

  lemma QuietUntilTold(msgs: Msgs, now: int, subs: Subscription)
    ensures Quiet(msgs, subs, Deadline(now, WaitTime(msgs, now, subs)))
  {
    assert forall id | id in msgs && SubscribedHead(msgs, subs, id) && msgs[id].attemptAt.Some? ::
      id in TimedHeads(msgs, subs);
  }

  /** No lost wake-up: a poll at `now` that found nothing and reported a wait is right until the
      runner hears something, as long as no head is committed or revived to an earlier time and no
      message is promoted without its channel being notified.
      Before the wait is over, or ever if there was none, no subscribed message is ready. */
  lemma NoLostWakeup(w: World, now: int, subs: Subscription, steps: seq<Step>, w': World, t: int)
    requires Reachable(w) && LeadsTo(w, steps, w')
    requires Undisturbed(w, steps, subs, Deadline(now, WaitTime(w.db.msgs, now, subs)))
    requires var wait := WaitTime(w.db.msgs, now, subs); wait.Some? ==> t < now + wait.value
    ensures ReadySet(w'.db.msgs, t, subs) == {}
  {
    ReachableIsSound(w);
    var deadline := Deadline(now, WaitTime(w.db.msgs, now, subs));
    QuietUntilTold(w.db.msgs, now, subs);
    QuietRun(w, steps, subs, deadline);
  }

  /** Every message that the deletion or clear promotes has its channel notified. */
  ghost predicate Announces(w: World, txn: Txn, missed: set<Id>)
    requires txn in w.deletes
  {
    forall id | id in w.db.msgs && Promotes(w, txn, missed, id) :: w.db.msgs[id].channel.name in w.deletes[txn].notices
  }

  /** The steps the wait covers without looking at times: no commits, no checkpoints of messages
      whose last attempt is out, and no deletions that promote without an announcement. */
  ghost predicate Ordinary(w: World, s: Step)
    requires Allowed(w, s)
  {
    match s
    case CommitStep(_) => false
    case CheckpointStep(_, id, _, _, _, _) => id in w.db.msgs ==> w.db.msgs[id].attemptAt.Some?
    case FinishDelete(txn, missed) => Announces(w, txn, missed)
    case _ => true
  }

  ghost predicate OrdinaryAndUnheard(w: World, steps: seq<Step>, subs: Subscription)
    requires IsRun(w, steps)
    decreases |steps|
  {
    steps == [] ||
    (Ordinary(w, steps[0]) && !Hears(subs, Notices(w, steps[0]))
     && OrdinaryAndUnheard(Apply(w, steps[0]), steps[1..], subs))
  }

  lemma {:induction false} OrdinaryIsUndisturbed(w: World, steps: seq<Step>, subs: Subscription, deadline: Option<int>)
    requires IsRun(w, steps) && OrdinaryAndUnheard(w, steps, subs)
    ensures Undisturbed(w, steps, subs, deadline)
    decreases |steps|
  {
    if steps != [] {
      OrdinaryIsUndisturbed(Apply(w, steps[0]), steps[1..], subs, deadline);
    }
  }

  /** In particular no insert, keep-alive or poll, by anyone, no checkpoint of a message with
      attempts left, and no deletion or clear that announces what it promotes makes a message ready
      early without a notification. */
  lemma SleepIsSafe(w: World, now: int, subs: Subscription, steps: seq<Step>, w': World, t: int)
    requires Reachable(w) && LeadsTo(w, steps, w') && OrdinaryAndUnheard(w, steps, subs)
    requires var wait := WaitTime(w.db.msgs, now, subs); wait.Some? ==> t < now + wait.value
    ensures ReadySet(w'.db.msgs, t, subs) == {}
  {
    OrdinaryIsUndisturbed(w, steps, subs, Deadline(now, WaitTime(w.db.msgs, now, subs)));
    NoLostWakeup(w, now, subs, steps, w', t);
  }
}
