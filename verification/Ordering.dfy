/** What holds over whole runs of the ordered channels. */
module Ordering {
  import opened Schema
  import opened Batches
  import opened Lines
  import opened Statements
  import opened Deletion
  import opened Insertion
  import opened Runs

  ghost predicate IsRun(w: World, steps: seq<Step>)
    decreases |steps|
  {
    steps == [] ||
    (PendingShape(w) && Allowed(w, steps[0]) && IsRun(Apply(w, steps[0]), steps[1..]))
  }

  ghost function Exec(w: World, steps: seq<Step>): World
    requires IsRun(w, steps)
    decreases |steps|
  {
    if steps == [] then w else Exec(Apply(w, steps[0]), steps[1..])
  }

  ghost predicate LeadsTo(w: World, steps: seq<Step>, w': World) {
    IsRun(w, steps) && Exec(w, steps) == w'
  }

  ghost predicate Reachable(w: World) {
    exists now, steps :: LeadsTo(Init(now), steps, w)
  }

  lemma InitIsSound(now: int)
    ensures Sound(Init(now))
  {
    var msgs := Init(now).db.msgs;
    forall c ensures HasLine(msgs, c) {
      assert IsLine(msgs, c, []);
    }
  }

  lemma {:induction false} RunKeepsSound(w: World, steps: seq<Step>)
    requires Sound(w) && IsRun(w, steps)
    ensures Sound(Exec(w, steps)) && Evolves(w, Exec(w, steps))
    decreases |steps|
  {
    if steps != [] {
      StepKeepsSound(w, steps[0]);
      RunKeepsSound(Apply(w, steps[0]), steps[1..]);
    }
  }

  lemma ReachableIsSound(w: World)
    requires Reachable(w)
    ensures Sound(w)
  {
    var now, steps :| LeadsTo(Init(now), steps, w);
    InitIsSound(now);
    RunKeepsSound(Init(now), steps);
  }

  lemma {:induction false} RunAppend(w: World, steps: seq<Step>, more: seq<Step>)
    requires IsRun(w, steps) && IsRun(Exec(w, steps), more)
    ensures IsRun(w, steps + more) && Exec(w, steps + more) == Exec(Exec(w, steps), more)
    decreases |steps|
  {
    if steps == [] {
      assert steps + more == more;
    } else {
      RunAppend(Apply(w, steps[0]), steps[1..], more);
      assert (steps + more)[1..] == steps[1..] + more;
    }
  }

  lemma RunFromReachable(w: World, steps: seq<Step>)
    requires Reachable(w) && IsRun(w, steps)
    ensures Reachable(Exec(w, steps))
  {
    var now, first :| LeadsTo(Init(now), first, w);
    RunAppend(Init(now), first, steps);
    assert LeadsTo(Init(now), first + steps, Exec(w, steps));
  }

  // The shape of every reachable state

  /** In every reachable state the ordered messages of each channel form one line: one head
      that waits for nil, every other message waits for the one before it, and nothing else is
      ordered there.  There are no payloads but those of messages, and the nil row is there. */
  lemma ReachableLines(w: World, c: Channel) returns (line: seq<Id>)
    requires Reachable(w)
    ensures forall i, j | 0 <= i < j < |line| :: line[i] != line[j]
    ensures forall id :: id in line <==>
              id in w.db.msgs && id != 0 && w.db.msgs[id].channel == c && w.db.msgs[id].after.Some?
    ensures forall i | 0 <= i < |line| :: line[i] in w.db.msgs
    ensures forall i | 0 < i < |line| :: w.db.msgs[line[i]].after == Some(line[i - 1])
    ensures line != [] ==> w.db.msgs[line[0]].after == Some(NIL)
    ensures NIL in w.db.msgs && w.db.payloads.Keys <= w.db.msgs.Keys - {NIL}
  {
    ReachableIsSound(w);
    assert HasLine(w.db.msgs, c);
    line := LineOf(w.db.msgs, c);
    assert forall i | 0 <= i < |line| :: Ordered(w.db.msgs, c, line[i]);
    if line != [] {
      FirstWaitsForNil(w.db.msgs, c, line);
    }
    forall i | 0 < i < |line| ensures w.db.msgs[line[i]].after == Some(line[i - 1]) {
      assert w.db.msgs[line[i]].after == Some(PredecessorIn(line, i));
    }
  }

  /** The current answer of `mq_latest_message` in every reachable state. */
  lemma ReachableLatest(w: World, c: Channel, r: Id)
    requires Reachable(w)
    ensures IsLatest(w.db.msgs, c, r) <==> HasLine(w.db.msgs, c) && r == Tail(w.db.msgs, c)
  {
    ReachableIsSound(w);
    LatestIsTail(w.db.msgs, c, r);
  }

  // Optimistic append

  ghost function CurrentTails(msgs: Msgs, batch: seq<NewMsg>): Tails
    requires Lined(msgs)
  {
    map c | c in OrderedChannels(batch) && HasLine(msgs, c) :: Tail(msgs, c)
  }

  /** `mq_insert` in one step: the tails are those of the table it writes to. */
  ghost function InsertNow(db: Db, now: int, batch: seq<NewMsg>): Outcome
    requires Lined(db.msgs)
  {
    assert forall c | c in OrderedChannels(batch) :: HasLine(db.msgs, c);
    InsertAfter(db, now, batch, CurrentTails(db.msgs, batch))
  }

  /** Whatever ran between its read and its write, an insert that commits did what an insert in
      one step would have done: it put its ordered messages, in id order, at the end of the line.
      It commits exactly when its keys are free and every tail it read is still the tail;
      otherwise nothing changes, and stale tails are reported as violations to retry on. */
  lemma OptimisticAppend(w: World, txn: Txn)
    requires Reachable(w) && PendingShape(w) && Allowed(w, FinishInsert(txn))
    ensures Lined(w.db.msgs)
    ensures InsertOutcome(w, txn).Committed? <==>
            FreshKeys(w.db, w.inserts[txn].batch) && TailsCurrent(w.db.msgs, w.inserts[txn].batch, w.inserts[txn].tails)
    ensures InsertOutcome(w, txn).Committed? ==>
              && InsertOutcome(w, txn) == InsertNow(w.db, w.inserts[txn].now, w.inserts[txn].batch)
              && forall c :: HasLine(w.db.msgs, c) && HasLine(InsertOutcome(w, txn).db.msgs, c) &&
                   LineOf(InsertOutcome(w, txn).db.msgs, c) ==
                   LineOf(w.db.msgs, c) + Sorted(OrderedIds(w.inserts[txn].batch, c))
    ensures InsertOutcome(w, txn).Aborted? ==> Apply(w, FinishInsert(txn)).db == w.db
    ensures InsertOutcome(w, txn).Aborted? && FreshKeys(w.db, w.inserts[txn].batch) ==>
              && InsertOutcome(w, txn).violations != {}
              && forall v | v in InsertOutcome(w, txn).violations :: ShouldRetry(Some(v.Code()), Some(v.Constraint()))
  {
    ReachableIsSound(w);
    var p := w.inserts[txn];
    PendingInsertReady(w, txn);
    InsertCommitsIff(w.db, p.now, p.batch, p.tails);
    if InsertOutcome(w, txn).Committed? {
      CurrentTailsCommit(w.db, p.now, p.batch, p.tails);
      CurrentIsNow(w.db, p.now, p.batch, p.tails);
    }
  }

  lemma CurrentIsNow(db: Db, now: int, batch: seq<NewMsg>, tails: Tails)
    requires Lined(db.msgs) && tails.Keys == OrderedChannels(batch) && TailsCurrent(db.msgs, batch, tails)
    ensures InsertAfter(db, now, batch, tails) == InsertNow(db, now, batch)
  {
    forall c | c in OrderedChannels(batch) ensures HasLine(db.msgs, c) && tails[c] == Tail(db.msgs, c) {}
    assert tails == CurrentTails(db.msgs, batch);
  }

  // Lines over steps

  lemma InsertLineStep(w: World, s: Step, c: Channel) returns (added: seq<Id>)
    requires Sound(w) && Allowed(w, s) && s.FinishInsert? && InsertOutcome(w, s.txn).Committed?
    ensures added == Sorted(OrderedIds(w.inserts[s.txn].batch, c))
    ensures forall id | id in added :: id !in w.used
    ensures HasLine(w.db.msgs, c) && HasLine(Apply(w, s).db.msgs, c)
    ensures LineOf(Apply(w, s).db.msgs, c) == LineOf(w.db.msgs, c) + added
  {
    var txn := s.txn;
    var p := w.inserts[txn];
    PendingInsertReady(w, txn);
    InsertCommitsIff(w.db, p.now, p.batch, p.tails);
    CurrentTailsCommit(w.db, p.now, p.batch, p.tails);
    added := Sorted(OrderedIds(p.batch, c));
    SortedOrder(OrderedIds(p.batch, c));
    assert OrderedIds(p.batch, c) <= Ids(p.batch);
  }

  lemma RemoveLineStep(w: World, s: Step, c: Channel) returns (lo: nat, hi: nat)
    requires Sound(w) && Allowed(w, s) && s.FinishDelete?
    ensures HasLine(w.db.msgs, c) && HasLine(Apply(w, s).db.msgs, c)
    ensures Trimmed(LineOf(w.db.msgs, c), LineOf(Apply(w, s).db.msgs, c), lo, hi, [])
  {
    assert HasLine(w.db.msgs, c);
    lo, hi := 0, |LineOf(w.db.msgs, c)|;
    if DeleteOutcome(w, s.txn, s.missed).Committed? {
      lo, hi := DeleteTrimsLine(w.db, w.deletes[s.txn].ids - s.missed, c);
    }
  }

  lemma OtherLineStep(w: World, s: Step, c: Channel)
    requires Sound(w) && Allowed(w, s) && !s.FinishDelete?
    requires s.FinishInsert? ==> InsertOutcome(w, s.txn).Aborted?
    ensures HasLine(w.db.msgs, c) && HasLine(Apply(w, s).db.msgs, c)
    ensures LineOf(Apply(w, s).db.msgs, c) == LineOf(w.db.msgs, c)
  {
    assert HasLine(w.db.msgs, c);
    if UpdatesRows(s) {
      UpdateStep(w, s);
      SameChainsSameLines(w.db.msgs, Apply(w, s).db.msgs);
    }
  }

  /** A channel is a queue: a step may cut its line at either end and append new messages, and
      only the write of an insert appends. */
  lemma LineStep(w: World, s: Step, c: Channel) returns (lo: nat, hi: nat, added: seq<Id>)
    requires Sound(w) && Allowed(w, s)
    ensures HasLine(w.db.msgs, c) && HasLine(Apply(w, s).db.msgs, c)
    ensures Trimmed(LineOf(w.db.msgs, c), LineOf(Apply(w, s).db.msgs, c), lo, hi, added)
    ensures forall id | id in added :: id !in w.used
    ensures added != [] ==> s.FinishInsert? && lo == 0 && hi == |LineOf(w.db.msgs, c)|
  {
    added := [];
    if s.FinishDelete? {
      lo, hi := RemoveLineStep(w, s, c);
    } else {
      if s.FinishInsert? && InsertOutcome(w, s.txn).Committed? {
        added := InsertLineStep(w, s, c);
      } else {
        OtherLineStep(w, s, c);
      }
      lo, hi := 0, |LineOf(w.db.msgs, c)|;
      WholeLine(LineOf(w.db.msgs, c), added);
    }
  }

  lemma WholeLine(line: seq<Id>, added: seq<Id>)
    ensures Trimmed(line, line + added, 0, |line|, added)
    ensures added == [] ==> line + added == line
  {
  }

  /** The same over whole runs: a line loses messages at its ends and gains new ones at its end. */
  lemma {:induction false} RunTrims(w: World, steps: seq<Step>, c: Channel)
    returns (lo: nat, hi: nat, added: seq<Id>)
    requires Sound(w) && IsRun(w, steps)
    ensures HasLine(w.db.msgs, c) && HasLine(Exec(w, steps).db.msgs, c)
    ensures Trimmed(LineOf(w.db.msgs, c), LineOf(Exec(w, steps).db.msgs, c), lo, hi, added)
    ensures forall id | id in added :: id !in w.used
    decreases |steps|
  {
    assert HasLine(w.db.msgs, c);
    if steps == [] {
      lo, hi, added := 0, |LineOf(w.db.msgs, c)|, [];
      WholeLine(LineOf(w.db.msgs, c), added);
    } else {
      var w' := Apply(w, steps[0]);
      StepKeepsSound(w, steps[0]);
      var lo1, hi1, added1 := LineStep(w, steps[0], c);
      var lo2, hi2, added2 := RunTrims(w', steps[1..], c);
      lo, hi, added := TrimTwice(LineOf(w.db.msgs, c), LineOf(w'.db.msgs, c), lo1, hi1, added1, lo2, hi2, added2);
    }
  }

  lemma SliceOfJoin(a: seq<Id>, b: seq<Id>, lo: nat, hi: nat)
    requires lo <= hi <= |a| + |b|
    ensures (a + b)[lo..hi] ==
            a[if lo < |a| then lo else |a| .. if hi < |a| then hi else |a|]
            + b[if lo < |a| then 0 else lo - |a| .. if hi < |a| then 0 else hi - |a|]
  {
  }

  lemma SliceOfSlice(line: seq<Id>, lo: nat, hi: nat, from: nat, to: nat)
    requires lo <= hi <= |line| && from <= to <= hi - lo
    ensures line[lo..hi][from..to] == line[lo + from..lo + to]
  {
    var once, twice := line[lo + from..lo + to], line[lo..hi][from..to];
    forall k: nat | k < to - from ensures twice[k] == once[k] {
      assert twice[k] == line[lo..hi][from + k] == line[lo + from + k];
    }
    assert once == twice;
  }

  lemma TrimTwice(line: seq<Id>, line': seq<Id>, lo1: nat, hi1: nat, added1: seq<Id>,
                  lo2: nat, hi2: nat, added2: seq<Id>) returns (lo: nat, hi: nat, added: seq<Id>)
    requires Trimmed(line, line', lo1, hi1, added1) && lo2 <= hi2 <= |line'|
    ensures Trimmed(line, line'[lo2..hi2] + added2, lo, hi, added)
    ensures forall id | id in added :: id in added1 || id in added2
  {
    var kept := hi1 - lo1;
    lo := lo1 + if lo2 < kept then lo2 else kept;
    hi := lo1 + if hi2 < kept then hi2 else kept;
    var from, to := if lo2 < kept then 0 else lo2 - kept, if hi2 < kept then 0 else hi2 - kept;
    added := added1[from..to] + added2;
    SliceOfJoin(line[lo1..hi1], added1, lo2, hi2);
    SliceOfSlice(line, lo1, hi1, lo - lo1, hi - lo1);
    assert line'[lo2..hi2] + added2 == line[lo..hi] + added;
  }

  // Clears

  /** The pending deletion or clear `txn` writes in one of the steps. */
  predicate Finishes(steps: seq<Step>, txn: Txn) {
    exists i | 0 <= i < |steps| :: steps[i].FinishDelete? && steps[i].txn == txn
  }

  lemma {:induction false} PendingStays(w: World, steps: seq<Step>, txn: Txn)
    requires IsRun(w, steps) && txn in w.deletes && !Finishes(steps, txn)
    ensures txn in Exec(w, steps).deletes && Exec(w, steps).deletes[txn] == w.deletes[txn]
    decreases |steps|
  {
    if steps != [] {
      PendingStays(Apply(w, steps[0]), steps[1..], txn);
    }
  }

  lemma {:induction false} PollStays(w: World, steps: seq<Step>, txn: Txn)
    requires IsRun(w, steps) && txn in w.polls && FinishPoll(txn) !in steps
    ensures txn in Exec(w, steps).polls && Exec(w, steps).polls[txn] == w.polls[txn]
    decreases |steps|
  {
    if steps != [] {
      PollStays(Apply(w, steps[0]), steps[1..], txn);
    }
  }

  /** `ids` are messages that have been seen, and of no channel only some of the ordered ones. */
  ghost predicate WholeLines(w: World, ids: set<Id>) {
    && NIL !in ids && ids <= w.used
    && forall c, a, b | Ordered(w.db.msgs, c, a) && Ordered(w.db.msgs, c, b) :: a in ids <==> b in ids
  }

  /** Whatever runs in between, removing what were whole lines commits: what has been appended since
      stays, and is contiguous. */
  lemma WholeLinesCommit(w: World, ids: set<Id>, steps: seq<Step>, w': World)
    requires Sound(w) && WholeLines(w, ids) && LeadsTo(w, steps, w')
    ensures DeleteRows(w'.db, ids).Committed?
  {
    RunKeepsSound(w, steps);
    forall c ensures HasLine(w'.db.msgs, c) && Contiguous(LineOf(w'.db.msgs, c), ids) {
      var lo, hi, added := RunTrims(w, steps, c);
      var line, line' := LineOf(w.db.msgs, c), LineOf(w'.db.msgs, c);
      assert forall i | 0 <= i < |line| :: Ordered(w.db.msgs, c, line[i]);
      assert forall i | hi - lo <= i < |line'| :: line'[i] in added;
      if lo < hi && line[lo] in ids {
        assert Keeps(line', ids, hi - lo, |line'|);
      } else {
        assert Keeps(line', ids, 0, |line'|);
      }
    }
    DeleteCommitsIff(w'.db, ids);
  }

  /** A clear never fails, however much is inserted and deleted between its snapshot and its write. */
  lemma ClearAlwaysCommits(w: World, clear: Step, steps: seq<Step>, w': World)
    requires Reachable(w) && PendingShape(w) && Allowed(w, clear) && (clear.BeginClear? || clear.BeginClearAll?)
    requires LeadsTo(Apply(w, clear), steps, w') && !Finishes(steps, clear.txn)
    ensures clear.txn in w'.deletes && w'.deletes[clear.txn].unseen == {}
    ensures DeleteOutcome(w', clear.txn, {}).Committed?
  {
    ReachableIsSound(w);
    StepKeepsSound(w, clear);
    PendingStays(Apply(w, clear), steps, clear.txn);
    assert WholeLines(w, Apply(w, clear).deletes[clear.txn].ids);
    WholeLinesCommit(Apply(w, clear), Apply(w, clear).deletes[clear.txn].ids, steps, w');
    assert w'.deletes[clear.txn].ids - {} == w'.deletes[clear.txn].ids;
  }

  // Strict ordering

  ghost predicate Before(msgs: Msgs, c: Channel, a: Id, b: Id) {
    HasLine(msgs, c) && BeforeIn(LineOf(msgs, c), a, b)
  }

  ghost predicate BeforeIn(line: seq<Id>, a: Id, b: Id) {
    exists i, j | 0 <= i < j < |line| :: line[i] == a && line[j] == b
  }

  lemma StepKeepsBefore(w: World, s: Step, c: Channel, a: Id, b: Id)
    requires Sound(w) && Allowed(w, s) && Before(w.db.msgs, c, a, b)
    requires a in Apply(w, s).db.msgs && b in Apply(w, s).db.msgs
    ensures Before(Apply(w, s).db.msgs, c, a, b)
  {
    BeforeAreUsed(w, c, a, b);
    var lo, hi, added := LineStep(w, s, c);
    StaysInLine(w, s, c, a);
    StaysInLine(w, s, c, b);
    TrimKeepsBefore(LineOf(w.db.msgs, c), LineOf(Apply(w, s).db.msgs, c), lo, hi, added, a, b);
  }

  lemma StaysInLine(w: World, s: Step, c: Channel, id: Id)
    requires Sound(w) && Allowed(w, s) && Ordered(w.db.msgs, c, id) && id in w.used && id in Apply(w, s).db.msgs
    ensures HasLine(Apply(w, s).db.msgs, c) && id in LineOf(Apply(w, s).db.msgs, c)
  {
    StepKeepsSound(w, s);
    assert HasLine(Apply(w, s).db.msgs, c);
    assert Ordered(Apply(w, s).db.msgs, c, id);
  }

  /** Trimming and appending keep the order of what stays. */
  lemma TrimKeepsBefore(line: seq<Id>, line': seq<Id>, lo: nat, hi: nat, added: seq<Id>, a: Id, b: Id)
    requires Trimmed(line, line', lo, hi, added) && BeforeIn(line, a, b)
    requires forall x, y | 0 <= x < y < |line| :: line[x] != line[y]
    requires a in line' && b in line' && a !in added && b !in added
    ensures BeforeIn(line', a, b)
  {
  }

  lemma {:induction false} RunKeepsBefore(w: World, steps: seq<Step>, c: Channel, a: Id, b: Id)
    requires Sound(w) && IsRun(w, steps) && Before(w.db.msgs, c, a, b)
    requires a in Exec(w, steps).db.msgs && b in Exec(w, steps).db.msgs
    ensures Before(Exec(w, steps).db.msgs, c, a, b)
    decreases |steps|
  {
    if steps != [] {
      var w' := Apply(w, steps[0]);
      StepKeepsSound(w, steps[0]);
      RunKeepsSound(w', steps[1..]);
      BeforeAreUsed(w, c, a, b);
      StepKeepsBefore(w, steps[0], c, a, b);
      RunKeepsBefore(w', steps[1..], c, a, b);
    }
  }

  lemma BeforeAreUsed(w: World, c: Channel, a: Id, b: Id)
    requires Sound(w) && Before(w.db.msgs, c, a, b)
    ensures a in w.used && b in w.used && Ordered(w.db.msgs, c, a) && Ordered(w.db.msgs, c, b)
  {
  }

  /** Whoever is behind another message is not a head, so even a poll that chose its candidates
      long ago does not have it among them. */
  lemma BehindIsNotDelivered(w: World, txn: Txn, c: Channel, a: Id, b: Id)
    requires Sound(w) && txn in w.polls && Before(w.db.msgs, c, a, b)
    ensures b !in DeliveredBy(w, txn)
  {
    var line := LineOf(w.db.msgs, c);
    var i, j :| 0 <= i < j < |line| && line[i] == a && line[j] == b;
    HeadIsFirst(w.db.msgs, c, line, j);
    assert CandidatesSeen(w, w.polls[txn]);
  }

  /** Strict ordering: once `a` is before `b` in a channel, no poll delivers `b` while `a` is in
      the table, whatever runs in between. */
  lemma StrictOrder(w: World, steps: seq<Step>, w': World, txn: Txn, c: Channel, a: Id, b: Id)
    requires Reachable(w) && Before(w.db.msgs, c, a, b)
    requires LeadsTo(w, steps, w') && a in w'.db.msgs && txn in w'.polls
    ensures b !in DeliveredBy(w', txn)
  {
    ReachableIsSound(w);
    RunKeepsSound(w, steps);
    if b in w'.db.msgs {
      RunKeepsBefore(w, steps, c, a, b);
      BehindIsNotDelivered(w', txn, c, a, b);
    }
  }

  /** The order of a line is the order of commits: a committed insert puts each of its ordered
      messages behind those already there, and behind those of the batch with a smaller id. */
  lemma CommitOrder(w: World, txn: Txn, c: Channel, a: Id, b: Id)
    requires Reachable(w) && PendingShape(w) && Allowed(w, FinishInsert(txn)) && InsertOutcome(w, txn).Committed?
    requires b in OrderedIds(w.inserts[txn].batch, c)
    requires Ordered(w.db.msgs, c, a) || (a in OrderedIds(w.inserts[txn].batch, c) && a < b)
    ensures Before(Apply(w, FinishInsert(txn)).db.msgs, c, a, b)
  {
    ReachableIsSound(w);
    var added := InsertLineStep(w, FinishInsert(txn), c);
    SortedOrder(OrderedIds(w.inserts[txn].batch, c));
    JoinedBefore(LineOf(w.db.msgs, c), added, a, b);
  }

  lemma JoinedBefore(line: seq<Id>, added: seq<Id>, a: Id, b: Id)
    requires Ascending(added) && b in added && (a in line || (a in added && a < b))
    ensures BeforeIn(line + added, a, b)
  {
    var line' := line + added;
    var j :| 0 <= j < |added| && added[j] == b;
    assert line'[|line| + j] == b;
    if a in line {
      var i :| 0 <= i < |line| && line[i] == a;
      assert line'[i] == a;
    } else {
      var i :| 0 <= i < |added| && added[i] == a;
      assert line'[|line| + i] == a;
    }
  }

  /** What a poll delivers is a head, or gone, ever after. */
  lemma DeliveredStayHeads(w: World, poll: Txn, steps: seq<Step>, w': World)
    requires Reachable(w) && PendingShape(w) && poll in w.polls && LeadsTo(Apply(w, FinishPoll(poll)), steps, w')
    ensures Sound(w') && DeliveredBy(w, poll) <= w'.used && NIL !in DeliveredBy(w, poll)
    ensures forall id | id in DeliveredBy(w, poll) && id in w'.db.msgs :: IsHead(w'.db.msgs[id])
  {
    ReachableIsSound(w);
    StepKeepsSound(w, FinishPoll(poll));
    RunKeepsSound(Apply(w, FinishPoll(poll)), steps);
    assert CandidatesSeen(w, w.polls[poll]);
  }

  /** Heads can always be deleted, alone or together, and so can messages that are gone. */
  lemma DeletingHeadsCommits(w: World, ids: set<Id>)
    requires Sound(w) && NIL !in ids && forall id | id in ids && id in w.db.msgs :: IsHead(w.db.msgs[id])
    ensures DeleteRows(w.db, ids).Committed?
  {
    forall c ensures HasLine(w.db.msgs, c) && Contiguous(LineOf(w.db.msgs, c), ids) {
      assert HasLine(w.db.msgs, c);
      var line := LineOf(w.db.msgs, c);
      forall k: nat | 0 < k < |line| ensures line[k] !in ids {
        HeadIsFirst(w.db.msgs, c, line, k);
      }
      if line != [] && line[0] in ids {
        assert Keeps(line, ids, 1, |line|);
      } else {
        assert Keeps(line, ids, 0, |line|);
      }
    }
    DeleteCommitsIff(w.db, ids);
  }
}
