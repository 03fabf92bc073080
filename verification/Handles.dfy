/** Jobs in hand: what a runner does with the messages a poll delivers to it, and why at most one
    delivery of each message is completed. */
module Handles {
  import opened Schema
  import opened Statements
  import opened Runs
  import opened Ordering
  import opened Histories
  import opened RowRuns
  import opened Renewals

  /** A `CurrentJob`: the delivery of `id` by the poll with this number. */
  datatype Handle = Handle(id: Id, poll: nat)

  /** The lease of a job in hand: when and for how long it was taken, and how late each of its
      renewals so far has been. */
  datatype Hold = Hold(polledAt: int, backoff: nat, late: seq<nat>)
  {
    function Until(): int {
      LeasedUntil(polledAt, backoff, late)
    }

    /** When the next renewal takes place, if it is late by `delay`. */
    function NextRenewal(delay: nat): int {
      RenewedAt(polledAt, backoff, late + [delay])
    }
  }

  /** The queue together with the jobs in hand and those that were completed. */
  datatype Jobs = Jobs(w: World, held: map<Handle, Hold>, completed: set<Handle>, polls: nat)

  datatype JobStep =
    | Queue(step: Step)                        // any other step of a transaction
    | Deliver(txn: Txn)                        // the write of a poll, and dispatch of its committed rows
    | Renew(job: Handle, delay: nat)           // one round of keep_job_alive
    | Complete(job: Handle, txn: Txn)          // the write of the job's mq_delete, which is then committed
    | Drop(job: Handle)

  ghost function Deliverable(s: Jobs, txn: Txn): set<Id>
    requires txn in s.w.polls
  {
    set id | id in DeliveredBy(s.w, txn) && id in s.w.db.msgs && s.w.db.msgs[id].commitInterval.None?
  }

  ghost function NewHandles(s: Jobs, txn: Txn): map<Handle, Hold>
    requires txn in s.w.polls
  {
    map id | id in Deliverable(s, txn) && s.w.db.msgs[id].backoff >= 0 ::
      Handle(id, s.polls) := Hold(s.w.polls[txn].now, s.w.db.msgs[id].backoff, [])
  }

  /** A deletion of the job's message that began after it was inserted. */
  predicate IsDeletionOf(p: PendingDelete, job: Handle) {
    p.ids == {job.id} && p.unseen == {}
  }

  ghost predicate CanDo(s: Jobs, j: JobStep) {
    PendingShape(s.w) &&
    match j
    case Queue(step) => Allowed(s.w, step) && !step.FinishPoll?
    case Deliver(txn) => txn in s.w.polls
    case Renew(job, _) => job in s.held
    case Complete(job, txn) =>
      job in s.held && txn in s.w.deletes && IsDeletionOf(s.w.deletes[txn], job)
      && DeleteOutcome(s.w, txn, {}).Committed?
    case Drop(job) => job in s.held
  }

  /** What the step does to the queue. */
  ghost function QueueStep(s: Jobs, j: JobStep): Step
    requires CanDo(s, j) && !j.Drop?
  {
    match j
    case Queue(step) => step
    case Deliver(txn) => FinishPoll(txn)
    case Renew(job, delay) =>
      var h := s.held[job];
      KeepAliveStep(h.NextRenewal(delay), {job.id}, Interval(h.backoff, |h.late| + 1))
    case Complete(_, txn) => FinishDelete(txn, {})
  }

  ghost function Do(s: Jobs, j: JobStep): Jobs
    requires CanDo(s, j)
  {
    if j.Drop? then s.(held := s.held - {j.job}) else
    var w' := Apply(s.w, QueueStep(s, j));
    match j
    case Queue(_) => s.(w := w')
    case Deliver(txn) => Jobs(w', s.held + NewHandles(s, txn), s.completed, s.polls + 1)
    case Renew(job, delay) => s.(w := w', held := s.held[job := s.held[job].(late := s.held[job].late + [delay])])
    case Complete(job, _) => s.(w := w', completed := s.completed + {job})
  }

  /** A poll puts exactly the committed messages that it delivers in hand, each under the lease that it
      has just taken. */
  lemma DeliverEffect(s: Jobs, txn: Txn, id: Id)
    requires Sound(s.w) && CanDo(s, Deliver(txn)) && forall job | job in s.held :: job.poll < s.polls
    ensures var s', job := Do(s, Deliver(txn)), Handle(id, s.polls);
            && s'.w == Apply(s.w, FinishPoll(txn)) && s'.completed == s.completed && s'.polls == s.polls + 1
            && (job in s'.held <==>
                  id in DeliveredBy(s.w, txn) && id in s.w.db.msgs && s.w.db.msgs[id].commitInterval == None)
            && (job in s'.held ==>
                  && s'.held[job].polledAt == s.w.polls[txn].now && s'.held[job].late == []
                  && s'.held[job].backoff == s.w.db.msgs[id].backoff)
            && (forall other | other in s.held :: other in s'.held && s'.held[other] == s.held[other])
            && forall other | other in s'.held :: other in s.held || other.poll == s.polls
  {
    assert Handle(id, s.polls) !in s.held;
  }

  /** A renewal is a keep-alive of the job's own message, at the time and for as long as the schedule
      has it. */
  lemma RenewEffect(s: Jobs, job: Handle, delay: nat)
    requires CanDo(s, Renew(job, delay))
    ensures var h, s' := s.held[job], Do(s, Renew(job, delay));
            && s'.w == Apply(s.w, KeepAliveStep(RenewedAt(h.polledAt, h.backoff, h.late + [delay]), {job.id},
                                                h.backoff * Pow2(|h.late| + 1)))
            && s' == s.(w := s'.w, held := s.held[job := h.(late := h.late + [delay])])
  {
    IntervalIsPower(s.held[job].backoff, |s.held[job].late| + 1);
  }

  /** To complete a job is to delete its message, and to drop it is to let it go. */
  lemma CompleteEffect(s: Jobs, job: Handle, txn: Txn)
    ensures CanDo(s, Complete(job, txn)) ==>
              var s' := Do(s, Complete(job, txn));
              && s'.w == Apply(s.w, FinishDelete(txn, {})) && s.w.deletes[txn].ids == {job.id}
              && s' == s.(w := s'.w, completed := s.completed + {job})
    ensures CanDo(s, Drop(job)) ==> Do(s, Drop(job)) == s.(held := s.held - {job})
  {
  }

  /** A run of the queue and the jobs in hand, from a queue set up at some time: the states and the
      step that leads from each to the next. */
  datatype JobRun = JobRun(states: seq<Jobs>, steps: seq<JobStep>)

  function Start(now: int): Jobs {
    Jobs(Init(now), map[], {}, 0)
  }

  ghost predicate IsJobRun(r: JobRun) {
    && |r.states| == |r.steps| + 1
    && (exists now :: r.states[0] == Start(now))
    && forall i | 0 <= i < |r.steps| :: CanDo(r.states[i], r.steps[i]) && r.states[i + 1] == Do(r.states[i], r.steps[i])
  }

  // What is assumed of a run

  /** How late a renewal starts, which is its `NOW()`, and how much later it writes. */
  datatype Delay = Delay(start: nat, lag: nat)

  /** The delay of each renewal of each job, by its number, past or to come. */
  type Delays = (Handle, nat) -> Delay

  /** How late the pending renewal of the job will be when it writes. */
  function Lateness(h: Hold, job: Handle, delays: Delays): nat {
    delays(job, |h.late|).start + delays(job, |h.late|).lag
  }

  /** The renewals of every job in hand are late by less than half the interval, the pending one
      even when it writes. */
  ghost predicate RenewalsPrompt(s: Jobs, delays: Delays) {
    forall job | job in s.held && job.id in s.w.db.msgs ::
      Prompt(s.held[job].backoff, s.held[job].late + [Lateness(s.held[job], job, delays)])
  }

  /** Each renewal is as late as `delays` has it, and what happens first is not of a later time: a
      poll has started when it writes, so if it writes before a renewal does, then its `NOW()` is no
      later than the write of the renewal. */
  ghost predicate InOrder(s: Jobs, j: JobStep, delays: Delays) {
    match j
    case Renew(job, delay) => job in s.held ==> delay == delays(job, |s.held[job].late|).start
    case Deliver(txn) =>
      txn in s.w.polls ==>
        forall job | job in s.held ::
          s.w.polls[txn].now <= s.held[job].NextRenewal(Lateness(s.held[job], job, delays))
    case _ => true
  }

  /** Nobody revives the message of a job in hand past its last attempt to a time that its lease
      does not cover. */
  ghost predicate Considerate(s: Jobs, j: JobStep) {
    match j
    case Queue(CheckpointStep(now, id, duration, _, _, _)) =>
      id in s.w.db.msgs && s.w.db.msgs[id].attemptAt.None? ==>
        forall job | job in s.held && job.id == id :: now + duration >= s.held[job].Until()
    case _ => true
  }

  ghost predicate PromptRun(r: JobRun, delays: Delays) {
    |r.states| > |r.steps| && forall i | 0 <= i < |r.steps| :: RenewalsPrompt(r.states[i], delays)
  }

  ghost predicate InOrderRun(r: JobRun, delays: Delays) {
    |r.states| > |r.steps| && forall i | 0 <= i < |r.steps| :: InOrder(r.states[i], r.steps[i], delays)
  }

  ghost predicate ConsiderateRun(r: JobRun) {
    |r.states| > |r.steps| && forall i | 0 <= i < |r.steps| :: Considerate(r.states[i], r.steps[i])
  }

  ghost predicate KeepsLeases(r: JobRun, delays: Delays) {
    PromptRun(r, delays) && InOrderRun(r, delays) && ConsiderateRun(r)
  }

  ghost predicate StepKeepsLeases(s: Jobs, j: JobStep, delays: Delays) {
    RenewalsPrompt(s, delays) && InOrder(s, j, delays) && Considerate(s, j)
  }

  /** Prompt renewals cover all the time there is: whatever comes before the pending renewal falls
      under the lease in force. */
  lemma CoveredUntilRenewal(h: Hold, delay: nat, t: int)
    requires Prompt(h.backoff, h.late + [delay]) && t <= h.NextRenewal(delay)
    ensures t < h.Until()
  {
    var late := h.late + [delay];
    LeaseNeverLapses(h.polledAt, h.backoff, late, |h.late|);
    assert late[..|h.late|] == h.late && late[..|h.late| + 1] == late;
  }

  // Why no message is delivered twice at a time

  /** The row of a message in hand, if it is still there, is a committed head and leased. */
  ghost predicate LeasedIn(msgs: Msgs, id: Id, h: Hold) {
    id in msgs ==>
      && IsHead(msgs[id])
      && msgs[id].commitInterval.None?
      && (msgs[id].attemptAt.Some? ==> msgs[id].attemptAt.value >= h.Until())
  }

  ghost predicate Leased(s: Jobs, job: Handle)
    requires job in s.held
  {
    LeasedIn(s.w.db.msgs, job.id, s.held[job])
  }

  ghost predicate Exclusive(s: Jobs) {
    && Sound(s.w)
    && (forall job | job in s.held :: job.id in s.w.used && job.poll < s.polls && Leased(s, job))
    && (forall job | job in s.completed :: job.id in s.w.used && job.id !in s.w.db.msgs)
    && (forall a, b | a in Known(s) && b in Known(s) && a.id == b.id :: a == b)
  }

  function Known(s: Jobs): set<Handle> {
    s.held.Keys + s.completed
  }

  lemma QueueKeepsExclusive(s: Jobs, step: Step)
    requires Exclusive(s) && CanDo(s, Queue(step)) && Considerate(s, Queue(step))
    ensures Exclusive(Do(s, Queue(step)))
  {
    StepKeepsSound(s.w, step);
    var s' := Do(s, Queue(step));
    forall job | job in s'.held ensures Leased(s', job) {
      if job.id in s'.w.db.msgs {
        assert Leased(s, job);
        LeaseSurvives(s, step, job);
      }
    }
  }

  lemma LeaseSurvives(s: Jobs, step: Step, job: Handle)
    requires Exclusive(s) && CanDo(s, Queue(step)) && Considerate(s, Queue(step))
    requires job in s.held && job.id in Apply(s.w, step).db.msgs
    ensures var m := Apply(s.w, step).db.msgs[job.id];
            m.commitInterval.None? && (m.attemptAt.Some? ==> m.attemptAt.value >= s.held[job].Until())
  {
    assert Leased(s, job);
    Evolved(s.w, step, job.id);
    RowStep(s.w, step, job.id);
  }

  lemma Evolved(w: World, step: Step, id: Id)
    requires Sound(w) && Allowed(w, step) && id in w.used && id in Apply(w, step).db.msgs
    ensures id in w.db.msgs
  {
    StepKeepsSound(w, step);
  }

  /** No message is delivered while a handle to it is held. */
  lemma HeldIsNotDelivered(s: Jobs, txn: Txn, job: Handle, delays: Delays)
    requires Exclusive(s) && CanDo(s, Deliver(txn)) && StepKeepsLeases(s, Deliver(txn), delays) && job in s.held
    ensures job.id !in DeliveredBy(s.w, txn)
  {
    if job.id in s.w.db.msgs {
      assert Leased(s, job);
      CoveredUntilRenewal(s.held[job], Lateness(s.held[job], job, delays), s.w.polls[txn].now);
    }
  }

  /** The row of a message as a poll leaves it when it delivers the message. */
  lemma NewJobIsLeased(s: Jobs, txn: Txn, job: Handle)
    requires CanDo(s, Deliver(txn)) && job in NewHandles(s, txn) && CandidatesSeen(s.w, s.w.polls[txn])
    ensures job.id in s.w.used && job.id in DeliveredBy(s.w, txn) && job.poll == s.polls
    ensures job in Do(s, Deliver(txn)).held && Leased(Do(s, Deliver(txn)), job)
  {
  }

  lemma UndeliveredStaysLeased(db: Db, now: int, picked: set<Id>, id: Id, h: Hold)
    requires LeasedIn(db.msgs, id, h) && id !in Delivered(db.msgs, now, picked)
    ensures LeasedIn(PollUpdate(db, now, picked).msgs, id, h)
  {
  }

  /** No message that is delivered is already known. */
  lemma DeliveredIsUnknown(s: Jobs, txn: Txn, job: Handle, delays: Delays)
    requires Exclusive(s) && CanDo(s, Deliver(txn)) && StepKeepsLeases(s, Deliver(txn), delays) && job in Known(s)
    ensures job.id !in DeliveredBy(s.w, txn)
  {
    if job in s.held {
      HeldIsNotDelivered(s, txn, job, delays);
    }
  }

  lemma DeliverKeepsExclusive(s: Jobs, txn: Txn, delays: Delays)
    requires Exclusive(s) && CanDo(s, Deliver(txn)) && StepKeepsLeases(s, Deliver(txn), delays)
    ensures Exclusive(Do(s, Deliver(txn)))
  {
    var s' := Do(s, Deliver(txn));
    StepKeepsSound(s.w, FinishPoll(txn));
    assert CandidatesSeen(s.w, s.w.polls[txn]);
    forall job | job in s'.held ensures job.id in s'.w.used && job.poll < s'.polls && Leased(s', job) {
      if job in NewHandles(s, txn) {
        NewJobIsLeased(s, txn, job);
      } else {
        HeldIsNotDelivered(s, txn, job, delays);
        UndeliveredStaysLeased(s.w.db, s.w.polls[txn].now, s.w.polls[txn].picked.Keys, job.id, s.held[job]);
      }
    }
    forall a, b | a in Known(s') && b in Known(s') && a.id == b.id ensures a == b {
      if a in Known(s) {
        DeliveredIsUnknown(s, txn, a, delays);
      }
      if b in Known(s) {
        DeliveredIsUnknown(s, txn, b, delays);
      }
      if a in NewHandles(s, txn) {
        NewJobIsLeased(s, txn, a);
      }
      if b in NewHandles(s, txn) {
        NewJobIsLeased(s, txn, b);
      }
    }
  }

  lemma RenewKeepsExclusive(s: Jobs, job: Handle, delay: nat)
    requires Exclusive(s) && CanDo(s, Renew(job, delay))
    ensures Exclusive(Do(s, Renew(job, delay)))
  {
    var s' := Do(s, Renew(job, delay));
    StepKeepsSound(s.w, QueueStep(s, Renew(job, delay)));
    RenewedUntil(s.held[job], delay);
    forall other | other in s'.held ensures Leased(s', other) {
      assert Leased(s, other);
    }
  }

  lemma RenewedUntil(h: Hold, delay: nat)
    ensures h.(late := h.late + [delay]).Until() == h.NextRenewal(delay) + Interval(h.backoff, |h.late| + 1)
  {
  }

  lemma CompleteKeepsExclusive(s: Jobs, job: Handle, txn: Txn)
    requires Exclusive(s) && CanDo(s, Complete(job, txn))
    ensures Exclusive(Do(s, Complete(job, txn)))
  {
    QueueKeepsExclusive(s, FinishDelete(txn, {}));
    CountCompleted(Do(s, Queue(FinishDelete(txn, {}))), job);
  }

  lemma CountCompleted(s: Jobs, job: Handle)
    requires Exclusive(s) && job in s.held && job.id !in s.w.db.msgs
    ensures Exclusive(s.(completed := s.completed + {job}))
  {
  }

  lemma StepKeepsExclusive(s: Jobs, j: JobStep, delays: Delays)
    requires Exclusive(s) && CanDo(s, j) && StepKeepsLeases(s, j, delays)
    ensures Exclusive(Do(s, j))
  {
    match j {
      case Queue(step) => QueueKeepsExclusive(s, step);
      case Deliver(txn) => DeliverKeepsExclusive(s, txn, delays);
      case Renew(job, delay) => RenewKeepsExclusive(s, job, delay);
      case Complete(job, txn) => CompleteKeepsExclusive(s, job, txn);
      case Drop(job) =>
        forall other | other in Do(s, j).held ensures Leased(Do(s, j), other) {
          assert Leased(s, other);
        }
    }
  }

  lemma {:induction false} RunKeepsExclusive(r: JobRun, delays: Delays, i: nat)
    requires IsJobRun(r) && KeepsLeases(r, delays) && i < |r.states|
    ensures Exclusive(r.states[i])
  {
    if i == 0 {
      var now :| r.states[0] == Start(now);
      InitIsSound(now);
    } else {
      RunKeepsExclusive(r, delays, i - 1);
      assert CanDo(r.states[i - 1], r.steps[i - 1]);
      StepKeepsExclusive(r.states[i - 1], r.steps[i - 1], delays);
    }
  }

  /** At most one delivery of each message completes: over every run in which renewals are prompt
      and no message past its last attempt is revived under a lease, no two completed deliveries
      and no two in hand are of the same message, though `mq_delete` accepts a missing row. */
  lemma AtMostOneCompletes(r: JobRun, delays: Delays, s: Jobs)
    requires IsJobRun(r) && KeepsLeases(r, delays) && s in r.states
    ensures forall a, b | a in s.completed && b in s.completed && a.id == b.id :: a == b
    ensures forall a, b | a in s.held && b in s.held && a.id == b.id :: a == b
    ensures forall a | a in s.completed :: a.id !in s.w.db.msgs
  {
    var i :| 0 <= i < |r.states| && r.states[i] == s;
    RunKeepsExclusive(r, delays, i);
  }

  /** While a handle is held, no poll delivers its message. */
  lemma NotDeliveredWhileHeld(r: JobRun, delays: Delays, i: nat, job: Handle)
    requires IsJobRun(r) && KeepsLeases(r, delays) && i < |r.steps|
    requires r.steps[i].Deliver? && job in r.states[i].held
    ensures CanDo(r.states[i], r.steps[i]) && job.id !in DeliveredBy(r.states[i].w, r.steps[i].txn)
  {
    RunKeepsExclusive(r, delays, i);
    assert CanDo(r.states[i], r.steps[i]);
    HeldIsNotDelivered(r.states[i], r.steps[i].txn, job, delays);
  }

  // Completion

  /** Whatever the renewals do, the message of a job in hand is a head, or gone. */
  ghost predicate HeldAreHeads(s: Jobs) {
    && Sound(s.w)
    && forall job | job in s.held ::
         job.id in s.w.used && job.id != NIL && (job.id in s.w.db.msgs ==> IsHead(s.w.db.msgs[job.id]))
  }

  lemma StepKeepsHeads(s: Jobs, j: JobStep)
    requires HeldAreHeads(s) && CanDo(s, j)
    ensures HeldAreHeads(Do(s, j))
  {
    if !j.Drop? {
      StepKeepsSound(s.w, QueueStep(s, j));
      if j.Deliver? {
        assert CandidatesSeen(s.w, s.w.polls[j.txn]);
      }
    }
  }

  lemma {:induction false} RunKeepsHeads(r: JobRun, i: nat)
    requires IsJobRun(r) && i < |r.states|
    ensures HeldAreHeads(r.states[i])
  {
    if i == 0 {
      var now :| r.states[0] == Start(now);
      InitIsSound(now);
    } else {
      RunKeepsHeads(r, i - 1);
      assert CanDo(r.states[i - 1], r.steps[i - 1]);
      StepKeepsHeads(r.states[i - 1], r.steps[i - 1]);
    }
  }

  /** Completing a job in hand never fails on a constraint, even if its lease has lapsed: its message
      is a head, or gone.  And a deletion of it that begins now is the job's own. */
  lemma CompletingCommits(r: JobRun, s: Jobs, job: Handle, txn: Txn)
    requires IsJobRun(r) && s in r.states && job in s.held
    ensures txn in s.w.deletes && IsDeletionOf(s.w.deletes[txn], job) ==> CanDo(s, Complete(job, txn))
    ensures txn !in s.w.deletes ==>
              && CanDo(s, Queue(BeginDelete(txn, {job.id})))
              && IsDeletionOf(Do(s, Queue(BeginDelete(txn, {job.id}))).w.deletes[txn], job)
  {
    var i :| 0 <= i < |r.states| && r.states[i] == s;
    RunKeepsHeads(r, i);
    DeletingHeadsCommits(s.w, {job.id});
    assert {job.id} - {} == {job.id};
  }
}
