/** Runs in which a lease lapses while its job is in hand, and both deliveries of the message are
    completed: neither assumption of `Handles.AtMostOneCompletes` can be dropped. */
module Lapses {
  import opened Schema
  import opened Rows
  import opened Runs
  import opened Ordering
  import opened Renewals
  import opened Scenarios
  import opened Handles

  // Making runs

  ghost function Final(r: JobRun): Jobs
    requires r.states != []
  {
    r.states[|r.states| - 1]
  }

  /** `r'` is `r` with one more step. */
  ghost predicate Continues(r: JobRun, j: JobStep, r': JobRun) {
    && r.states != [] && CanDo(Final(r), j)
    && r'.steps == r.steps + [j] && r'.states == r.states + [Do(Final(r), j)]
  }

  lemma StepOfContinued(r: JobRun, j: JobStep, r': JobRun, i: nat)
    requires IsJobRun(r) && Continues(r, j, r') && i < |r'.steps|
    ensures CanDo(r'.states[i], r'.steps[i]) && r'.states[i + 1] == Do(r'.states[i], r'.steps[i])
  {
    PlacesOfContinued(r.states, r.steps, Do(Final(r), j), j, i);
    if i < |r.steps| {
      assert CanDo(r.states[i], r.steps[i]) && r.states[i + 1] == Do(r.states[i], r.steps[i]);
    }
  }

  lemma PlacesOfContinued(states: seq<Jobs>, steps: seq<JobStep>, s: Jobs, j: JobStep, i: nat)
    requires |states| == |steps| + 1 && i <= |steps|
    ensures (states + [s])[i] == states[i] && (states + [s])[i + 1] == if i < |steps| then states[i + 1] else s
    ensures (steps + [j])[i] == if i < |steps| then steps[i] else j
  {
  }

  lemma Continue(r: JobRun, j: JobStep) returns (r': JobRun)
    requires IsJobRun(r) && CanDo(Final(r), j)
    ensures Continues(r, j, r') && IsJobRun(r') && Final(r') == Do(Final(r), j)
  {
    var s' := Do(Final(r), j);
    r' := JobRun(r.states + [s'], r.steps + [j]);
    forall i: nat | i < |r'.steps|
      ensures CanDo(r'.states[i], r'.steps[i]) && r'.states[i + 1] == Do(r'.states[i], r'.steps[i])
    {
      StepOfContinued(r, j, r', i);
    }
    assert r'.states[0] == r.states[0];
  }

  lemma PromptContinues(r: JobRun, j: JobStep, r': JobRun, delays: Delays)
    requires |r.states| == |r.steps| + 1 && Continues(r, j, r')
    requires PromptRun(r, delays) && RenewalsPrompt(Final(r), delays)
    ensures PromptRun(r', delays)
  {
    forall i | 0 <= i < |r'.steps| ensures RenewalsPrompt(r'.states[i], delays) {
      assert r'.states[i] == if i < |r.steps| then r.states[i] else Final(r);
    }
  }

  lemma InOrderContinues(r: JobRun, j: JobStep, r': JobRun, delays: Delays)
    requires |r.states| == |r.steps| + 1 && Continues(r, j, r')
    requires InOrderRun(r, delays) && InOrder(Final(r), j, delays)
    ensures InOrderRun(r', delays)
  {
    forall i | 0 <= i < |r'.steps| ensures InOrder(r'.states[i], r'.steps[i], delays) {
      assert r'.states[i] == if i < |r.steps| then r.states[i] else Final(r);
      assert r'.steps[i] == if i < |r.steps| then r.steps[i] else j;
    }
  }

  lemma ConsiderateContinues(r: JobRun, j: JobStep, r': JobRun)
    requires |r.states| == |r.steps| + 1 && Continues(r, j, r')
    requires ConsiderateRun(r) && Considerate(Final(r), j)
    ensures ConsiderateRun(r')
  {
    forall i | 0 <= i < |r'.steps| ensures Considerate(r'.states[i], r'.steps[i]) {
      assert r'.states[i] == if i < |r.steps| then r.states[i] else Final(r);
      assert r'.steps[i] == if i < |r.steps| then r.steps[i] else j;
    }
  }

  lemma {:induction false} JobQueueIsReachable(r: JobRun, i: nat)
    requires IsJobRun(r) && i < |r.states|
    ensures Reachable(r.states[i].w) && PendingShape(r.states[i].w)
  {
    if i == 0 {
      var now :| r.states[0] == Start(now);
      InitReachable(now);
    } else {
      JobQueueIsReachable(r, i - 1);
      var s, j := r.states[i - 1], r.steps[i - 1];
      assert CanDo(s, j) && r.states[i] == Do(s, j);
      if !j.Drop? {
        Extend(s.w, QueueStep(s, j));
      }
    }
  }

  /** Steps of the queue alone, while no job is in hand. */
  lemma {:induction false} QueueAll(r: JobRun, steps: seq<Step>, w': World, delays: Delays) returns (r': JobRun)
    requires IsJobRun(r) && KeepsLeases(r, delays) && Final(r).held == map[] && LeadsTo(Final(r).w, steps, w')
    requires forall s | s in steps :: !s.FinishPoll? && !s.CheckpointStep?
    ensures IsJobRun(r') && KeepsLeases(r', delays) && Final(r') == Final(r).(w := w')
    decreases |steps|
  {
    r' := r;
    if steps != [] {
      var j := Queue(steps[0]);
      var r1 := Continue(r, j);
      PromptContinues(r, j, r1, delays);
      InOrderContinues(r, j, r1, delays);
      ConsiderateContinues(r, j, r1);
      r' := QueueAll(r1, steps[1..], w', delays);
    }
  }

  lemma OnlyOneDelivered(s: Jobs, txn: Txn, now: int, id: Id)
    requires PendingShape(s.w) && txn in s.w.polls && s.w.polls[txn].now == now && DeliveredBy(s.w, txn) == {id}
    requires id in s.w.db.msgs && s.w.db.msgs[id].commitInterval.None? && s.w.db.msgs[id].backoff >= 0
    ensures CanDo(s, Deliver(txn))
    ensures var s' := Do(s, Deliver(txn));
            && s'.held == s.held + map[Handle(id, s.polls) := Hold(now, s.w.db.msgs[id].backoff, [])]
            && s'.completed == s.completed && s'.polls == s.polls + 1
            && s'.w.polls == s.w.polls - {txn} && s'.w.db.msgs.Keys == s.w.db.msgs.Keys
            && s'.w.db.msgs[id] == Rows.Lease(s.w.db.msgs[id], now)
  {
    assert Deliverable(s, txn) == {id};
    assert NewHandles(s, txn) == map[Handle(id, s.polls) := Hold(now, s.w.db.msgs[id].backoff, [])];
  }

  /** The only message, delivered at `now` without interference. */
  lemma DeliverOne(r: JobRun, now: int, id: Id, delays: Delays) returns (r': JobRun)
    requires IsJobRun(r) && InOrderRun(r, delays) && Final(r).w.polls == map[] && id != NIL
    requires Final(r).w.db.msgs.Keys == {NIL, id}
    requires var m := Final(r).w.db.msgs[id]; IsHead(m) && Due(m, now) && m.commitInterval.None? && m.backoff >= 0
    requires forall job | job in Final(r).held ::
               now <= Final(r).held[job].NextRenewal(Lateness(Final(r).held[job], job, delays))
    ensures IsJobRun(r') && InOrderRun(r', delays)
    ensures ConsiderateRun(r) ==> ConsiderateRun(r')
    ensures PromptRun(r, delays) && RenewalsPrompt(Final(r), delays) ==> PromptRun(r', delays)
    ensures Final(r').held ==
            Final(r).held + map[Handle(id, Final(r).polls) := Hold(now, Final(r).w.db.msgs[id].backoff, [])]
    ensures Final(r').completed == Final(r).completed && Final(r').polls == Final(r).polls + 1
    ensures Final(r').w.polls == map[] && Final(r').w.db.msgs.Keys == {NIL, id}
    ensures Final(r').w.db.msgs[id] == Rows.Lease(Final(r).w.db.msgs[id], now)
  {
    var s := Final(r);
    JobQueueIsReachable(r, |r.states| - 1);
    PollFinds(s.w, 0, now, id);
    var begin := Queue(PollFor(s.w, 0, now, id));
    var r1 := Continue(r, begin);
    InOrderContinues(r, begin, r1, delays);
    OnlyOneDelivered(Final(r1), 0, now, id);
    r' := Continue(r1, Deliver(0));
    InOrderContinues(r1, Deliver(0), r', delays);
    if ConsiderateRun(r) {
      ConsiderateContinues(r, begin, r1);
      ConsiderateContinues(r1, Deliver(0), r');
    }
    if PromptRun(r, delays) && RenewalsPrompt(s, delays) {
      PromptContinues(r, begin, r1, delays);
      PromptContinues(r1, Deliver(0), r', delays);
    }
  }

  /** A message with this backoff and number of retries is inserted and delivered at 0. */
  lemma FirstDelivery(b: nat, retries: nat, delays: Delays) returns (r: JobRun)
    ensures IsJobRun(r) && KeepsLeases(r, delays)
    ensures Final(r).held == map[Handle(1, 0) := Hold(0, b, [])]
    ensures Final(r).completed == {} && Final(r).polls == 1
    ensures Final(r).w.polls == map[] && Final(r).w.db.msgs.Keys == {NIL, 1}
    ensures var m := Final(r).w.db.msgs[1];
            && IsHead(m) && m.commitInterval.None? && m.backoff == 2 * b && m.attempts == retries
            && m.attemptAt == if retries == 0 then None else Some(b)
  {
    var r0 := JobRun([Start(0)], []);
    var steps, w := OnlyMessage(b, retries);
    var r1 := QueueAll(r0, steps, w, delays);
    r := DeliverOne(r1, 0, 1, delays);
  }

  lemma OneCompleted(s: Jobs, txn: Txn, job: Handle)
    requires PendingShape(s.w) && txn in s.w.deletes && IsDeletionOf(s.w.deletes[txn], job) && job in s.held
    requires DeleteOutcome(s.w, txn, {}).Committed?
    ensures CanDo(s, Complete(job, txn))
    ensures var s' := Do(s, Complete(job, txn));
            && s'.held == s.held && s'.completed == s.completed + {job} && job.id !in s'.w.db.msgs
            && forall id | id in s'.w.db.msgs :: id in s.w.db.msgs
  {
  }

  /** A job in hand completed, its message being a head or gone. */
  lemma CompleteOne(r: JobRun, job: Handle, delays: Delays) returns (r': JobRun)
    requires IsJobRun(r) && InOrderRun(r, delays) && job in Final(r).held
    ensures IsJobRun(r') && InOrderRun(r', delays)
    ensures ConsiderateRun(r) ==> ConsiderateRun(r')
    ensures PromptRun(r, delays) && RenewalsPrompt(Final(r), delays) ==>
              PromptRun(r', delays) && RenewalsPrompt(Final(r'), delays)
    ensures Final(r').held == Final(r).held && Final(r').completed == Final(r).completed + {job}
    ensures job.id !in Final(r').w.db.msgs
  {
    var s := Final(r);
    var txn := FreshTxn(s.w.deletes.Keys);
    var begin := Queue(BeginDelete(txn, {job.id}));
    CompletingCommits(r, s, job, txn);
    var r1 := Continue(r, begin);
    CompletingCommits(r1, Final(r1), job, txn);
    OneCompleted(Final(r1), txn, job);
    r' := Continue(r1, Complete(job, txn));
    InOrderContinues(r, begin, r1, delays);
    InOrderContinues(r1, Complete(job, txn), r', delays);
    if ConsiderateRun(r) {
      ConsiderateContinues(r, begin, r1);
      ConsiderateContinues(r1, Complete(job, txn), r');
    }
    if PromptRun(r, delays) && RenewalsPrompt(s, delays) {
      PromptContinues(r, begin, r1, delays);
      PromptContinues(r1, Complete(job, txn), r', delays);
    }
  }

  /** Two deliveries of one message have been completed. */
  ghost predicate CompletedTwice(s: Jobs) {
    exists a, b :: a in s.completed && b in s.completed && a.id == b.id && a != b
  }

  lemma CompleteBoth(r: JobRun, delays: Delays) returns (r': JobRun)
    requires IsJobRun(r) && InOrderRun(r, delays) && Handle(1, 0) in Final(r).held && Handle(1, 1) in Final(r).held
    ensures IsJobRun(r') && InOrderRun(r', delays) && CompletedTwice(Final(r'))
    ensures ConsiderateRun(r) ==> ConsiderateRun(r')
    ensures PromptRun(r, delays) && RenewalsPrompt(Final(r), delays) ==> PromptRun(r', delays)
  {
    var r1 := CompleteOne(r, Handle(1, 0), delays);
    r' := CompleteOne(r1, Handle(1, 1), delays);
    assert Handle(1, 0) in Final(r').completed && Handle(1, 1) in Final(r').completed;
  }

  /** The first delivery is renewed as late as `late` has it, and then comes a renewal of delay `d`. */
  function ThenLate(late: seq<nat>, d: Delay): Delays {
    (job: Handle, k: nat) =>
      if job != Handle(1, 0) || k > |late| then Delay(0, 0) else if k < |late| then Delay(late[k], 0) else d
  }

  /** The only message is in hand under a lease that the table has as well. */
  ghost predicate OneInHand(s: Jobs, b: nat, late: seq<nat>) {
    && s.held == map[Handle(1, 0) := Hold(0, b, late)]
    && s.polls == 1 && s.w.polls == map[] && s.w.db.msgs.Keys == {NIL, 1}
    && IsHead(s.w.db.msgs[1]) && s.w.db.msgs[1].commitInterval.None? && s.w.db.msgs[1].backoff >= 0
    && s.w.db.msgs[1].attemptAt == Some(LeasedUntil(0, b, late))
  }

  lemma RenewsOne(s: Jobs, b: nat, late: seq<nat>, delay: nat)
    requires PendingShape(s.w) && OneInHand(s, b, late)
    ensures CanDo(s, Renew(Handle(1, 0), delay)) && OneInHand(Do(s, Renew(Handle(1, 0), delay)), b, late + [delay])
  {
    RenewedNext(0, b, late, delay);
  }

  lemma RenewOne(r: JobRun, b: nat, late: seq<nat>, delay: nat, delays: Delays) returns (r': JobRun)
    requires IsJobRun(r) && InOrderRun(r, delays) && ConsiderateRun(r) && OneInHand(Final(r), b, late)
    requires delays(Handle(1, 0), |late|) == Delay(delay, 0)
    ensures IsJobRun(r') && InOrderRun(r', delays) && ConsiderateRun(r') && OneInHand(Final(r'), b, late + [delay])
  {
    var renew := Renew(Handle(1, 0), delay);
    JobQueueIsReachable(r, |r.states| - 1);
    RenewsOne(Final(r), b, late, delay);
    r' := Continue(r, renew);
    InOrderContinues(r, renew, r', delays);
    ConsiderateContinues(r, renew, r');
  }

  /** Renewals as late as `late` has them. */
  lemma RenewAll(r: JobRun, b: nat, late: seq<nat>, d: Delay) returns (r': JobRun)
    requires IsJobRun(r) && InOrderRun(r, ThenLate(late, d)) && ConsiderateRun(r) && OneInHand(Final(r), b, [])
    ensures IsJobRun(r') && InOrderRun(r', ThenLate(late, d)) && ConsiderateRun(r') && OneInHand(Final(r'), b, late)
  {
    r' := r;
    for k := 0 to |late|
      invariant IsJobRun(r') && InOrderRun(r', ThenLate(late, d)) && ConsiderateRun(r')
      invariant OneInHand(Final(r'), b, late[..k])
    {
      assert late[..k] + [late[k]] == late[..k + 1];
      r' := RenewOne(r', b, late[..k], late[k], ThenLate(late, d));
    }
    assert late[..|late|] == late;
  }

  /** Renewals have to be prompt, every one of them: if after any prompt renewals the next one is
      late by half of its interval or more when it writes, then a run has the message delivered again
      before, and both deliveries completed. */
  lemma LateRenewalCompletesTwice(b: nat, late: seq<nat>, d: Delay) returns (r: JobRun)
    requires d.start + d.lag >= Slack(b, |late|)
    ensures IsJobRun(r) && InOrderRun(r, ThenLate(late, d)) && ConsiderateRun(r)
    ensures CompletedTwice(Final(r))
  {
    var delays := ThenLate(late, d);
    var r1 := FirstDelivery(b, 1, delays);
    var r2 := RenewAll(r1, b, late, d);
    RenewedNext(0, b, late, d.start + d.lag);
    var r3 := DeliverOne(r2, LeasedUntil(0, b, late), 1, delays);
    r := CompleteBoth(r3, delays);
  }

  function NoneLate(): Delays {
    (job: Handle, k: nat) => Delay(0, 0)
  }

  lemma ReviveOne(r: JobRun, delays: Delays) returns (r': JobRun)
    requires IsJobRun(r) && InOrderRun(r, delays) && PromptRun(r, delays) && RenewalsPrompt(Final(r), delays)
    requires Final(r).w.db.msgs.Keys == {NIL, 1} && Final(r).w.db.msgs[1].attemptAt.None?
    ensures IsJobRun(r') && InOrderRun(r', delays) && PromptRun(r', delays) && RenewalsPrompt(Final(r'), delays)
    ensures Final(r') == Final(r).(w := Final(r').w)
    ensures Final(r').w.polls == Final(r).w.polls && Final(r').w.db.msgs.Keys == {NIL, 1}
    ensures Final(r').w.db.msgs[1] == Final(r).w.db.msgs[1].(attemptAt := Some(0))
  {
    JobQueueIsReachable(r, |r.states| - 1);
    var revive := Queue(CheckpointStep(0, 1, 0, None, None, None));
    r' := Continue(r, revive);
    InOrderContinues(r, revive, r', delays);
    PromptContinues(r, revive, r', delays);
  }

  /** Nor may a message be revived under a lease: a job on its last attempt is checkpointed for no
      time at all, and although every renewal is on time, its message is delivered again, and both
      deliveries are completed. */
  lemma RevivalCompletesTwice(b: nat) returns (r: JobRun)
    requires b > 0
    ensures IsJobRun(r) && InOrderRun(r, NoneLate()) && PromptRun(r, NoneLate())
    ensures CompletedTwice(Final(r))
  {
    var delays := NoneLate();
    var r1 := FirstDelivery(b, 0, delays);
    RenewedNext(0, b, [], 0);
    var r2 := ReviveOne(r1, delays);
    var r3 := DeliverOne(r2, 0, 1, delays);
    r := CompleteBoth(r3, delays);
  }
}
