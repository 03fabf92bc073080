/** What the runner does with the answer of a poll, and how long it waits between polls. */
module Dispatching {
  import opened Schema
  import opened RowRuns
  import opened Statements
  import opened Runs
  import opened Ordering
  import opened Agreement
  import opened Scenarios
  import opened Runner

  /** A row as the runner receives it; every column can be NULL. */
  datatype PolledMessage = PolledMessage(
    id: Option<Id>,
    isCommitted: Option<bool>,
    name: Option<string>,
    payloadJson: Option<string>,
    payloadBytes: Option<seq<bv8>>,
    retryBackoff: Option<int>,
    waitTime: Option<int>)

  const MAX_WAIT := 60_000_000
  const FULL_WAIT := 60_000_000
  const FIRST_FAILURE_WAIT := 50_000

  function ToDuration(interval: int): nat {
    if interval < 0 then 0 else interval
  }

  predicate IsJob(m: PolledMessage) {
    m.id.Some? && m.isCommitted == Some(true) && m.name.Some? && m.retryBackoff.Some?
  }

  predicate IsReservation(m: PolledMessage) {
    m.isCommitted == Some(false) && m.id.Some?
  }

  /** What the dispatch function gets. */
  datatype CurrentJob = CurrentJob(id: Id, name: string, json: Option<string>, bytes: Option<seq<bv8>>)

  function JobOf(m: PolledMessage): CurrentJob
    requires IsJob(m)
  {
    CurrentJob(m.id.value, m.name.value, m.payloadJson, m.payloadBytes)
  }

  /** The jobs among the messages, in order. */
  function JobsIn(messages: seq<PolledMessage>): seq<CurrentJob> {
    if messages == [] then [] else
      var m := messages[|messages| - 1];
      JobsIn(messages[..|messages| - 1]) + if IsJob(m) then [JobOf(m)] else []
  }

  /** A `keep_job_alive` loop, and the interval it starts from. */
  datatype RenewalLoop = RenewalLoop(id: Id, interval: nat)

  /** The renewal loops that go with the jobs among the messages, in order. */
  function LoopsIn(o: Options, messages: seq<PolledMessage>): seq<RenewalLoop> {
    if messages == [] then [] else
      var m := messages[|messages| - 1];
      LoopsIn(o, messages[..|messages| - 1]) + LoopOf(o, m)
  }

  function LoopOf(o: Options, m: PolledMessage): seq<RenewalLoop> {
    if IsJob(m) && o.keepAlive then [RenewalLoop(m.id.value, ToDuration(m.retryBackoff.value))] else []
  }

  lemma ConcatAssociates<T>(a: seq<T>, b: seq<T>, c: seq<T>)
    ensures a + b + c == a + (b + c)
  {
  }

  /** The reservations whose commit interval has run out, in order. */
  function ReservationsIn(messages: seq<PolledMessage>): seq<Id> {
    if messages == [] then [] else
      var m := messages[|messages| - 1];
      ReservationsIn(messages[..|messages| - 1]) + if IsReservation(m) then [m.id.value] else []
  }

  lemma OneMoreMessage(o: Options, messages: seq<PolledMessage>, i: nat)
    requires i < |messages|
    ensures var m := messages[i];
            && JobsIn(messages[..i + 1]) == JobsIn(messages[..i]) + (if IsJob(m) then [JobOf(m)] else [])
            && LoopsIn(o, messages[..i + 1]) ==
               LoopsIn(o, messages[..i]) + LoopOf(o, m)
  {
    assert messages[..i + 1][..i] == messages[..i];
  }

  /** The shortest wait the messages ask for, or the longest wait there is if none asks. */
  ghost predicate IsLeastWait(messages: seq<PolledMessage>, wait: int) {
    if forall k | 0 <= k < |messages| :: messages[k].waitTime.None? then wait == MAX_WAIT
    else
      && (exists k | 0 <= k < |messages| ::
            messages[k].waitTime.Some? && wait == ToDuration(messages[k].waitTime.value))
      && (forall k | 0 <= k < |messages| && messages[k].waitTime.Some? ::
            wait <= ToDuration(messages[k].waitTime.value))
  }

  /** The state that the runner's tasks share. */
  class JobRunner {
    const options: Options
    var runningJobs: nat
    var permit: bool
    var loops: seq<RenewalLoop>      // the renewal loops spawned so far
    var dispatched: seq<CurrentJob>  // the jobs handed to the dispatch function so far

    constructor (options: Options)
      ensures this.options == options && runningJobs == 0 && !permit && loops == [] && dispatched == []
    {
      this.options := options;
      runningJobs, permit, loops, dispatched := 0, false, [], [];
    }

    /** Drop for CurrentJob, when no other task comes between its two steps. */
    method DropJob()
      requires runningJobs > 0
      modifies this`runningJobs, this`permit
      ensures runningJobs == old(runningJobs) - 1
      ensures permit <==> old(permit) || old(runningJobs) == options.minConcurrency
      ensures old(runningJobs) >= options.minConcurrency && runningJobs < options.minConcurrency ==> permit
    {
      var previous := runningJobs;
      runningJobs := previous - 1;
      if previous == options.minConcurrency {
        permit := true;
      }
    }

    /** poll_and_dispatch, on what mq_poll returned.  No wait is an error: that of mq_delete, which
        is called if there is anything to delete, and then nothing has been dispatched. */
    method PollAndDispatch(messages: seq<PolledMessage>, deleteFails: bool)
      returns (wait: Option<nat>, idsToDelete: seq<Id>)
      modifies this`runningJobs, this`loops, this`dispatched
      ensures idsToDelete == ReservationsIn(messages)
      ensures wait.None? <==> deleteFails && idsToDelete != []
      ensures wait.None? ==> runningJobs == old(runningJobs) && loops == old(loops) && dispatched == old(dispatched)
      ensures wait.Some? ==> loops == old(loops) + LoopsIn(options, messages)
      ensures wait.Some? ==> dispatched == old(dispatched) + JobsIn(messages)
      ensures wait.Some? ==> runningJobs == old(runningJobs) + |JobsIn(messages)|
      ensures wait.Some? ==> IsLeastWait(messages, wait.value)
    {
      idsToDelete := [];
      for i := 0 to |messages|
        invariant idsToDelete == ReservationsIn(messages[..i])
      {
        var m := messages[i];
        assert messages[..i + 1][..i] == messages[..i];
        if m.isCommitted == Some(false) && m.id.Some? {
          idsToDelete := idsToDelete + [m.id.value];
        }
      }
      assert messages[..|messages|] == messages;
      if idsToDelete != [] && deleteFails {
        wait := None;
        return;
      }

      var least := LeastWait(messages);
      wait := Some(least);

      for i := 0 to |messages|
        invariant dispatched == old(dispatched) + JobsIn(messages[..i])
        invariant loops == old(loops) + LoopsIn(options, messages[..i])
        invariant runningJobs == old(runningJobs) + |JobsIn(messages[..i])|
      {
        var m := messages[i];
        OneMoreMessage(options, messages, i);
        ConcatAssociates(old(dispatched), JobsIn(messages[..i]), if IsJob(m) then [JobOf(m)] else []);
        ConcatAssociates(old(loops), LoopsIn(options, messages[..i]), LoopOf(options, m));
        if m.id.Some? && m.isCommitted == Some(true) && m.name.Some? && m.retryBackoff.Some? {
          if options.keepAlive {
            loops := loops + [RenewalLoop(m.id.value, ToDuration(m.retryBackoff.value))];
          }
          runningJobs := runningJobs + 1;
          dispatched := dispatched + [CurrentJob(m.id.value, m.name.value, m.payloadJson, m.payloadBytes)];
        }
      }
    }

    method LeastWait(messages: seq<PolledMessage>) returns (least: nat)
      ensures IsLeastWait(messages, least)
    {
      var found := false;
      least := MAX_WAIT;
      for i := 0 to |messages|
        invariant !found ==> least == MAX_WAIT && forall k | 0 <= k < i :: messages[k].waitTime.None?
        invariant found ==> exists k | 0 <= k < i ::
                    messages[k].waitTime.Some? && least == ToDuration(messages[k].waitTime.value)
        invariant found ==> forall k | 0 <= k < i && messages[k].waitTime.Some? ::
                    least <= ToDuration(messages[k].waitTime.value)
      {
        if messages[i].waitTime.Some? {
          var wait := ToDuration(messages[i].waitTime.value);
          if !found || wait < least {
            least, found := wait, true;
          }
        }
      }
    }

    /** One round of main_loop, after this many failures in a row. */
    method TakeRound(r: Round, failures: nat) returns (batch: Option<int>, wait: int, failures': nat)
      modifies this`runningJobs, this`loops, this`dispatched
      ensures batch == BatchOf(options, r)
      ensures !Polls(options, r) ==> wait == FULL_WAIT && failures' == failures
      ensures Polls(options, r) && r.answer.None? ==>
                failures' == failures + 1 && wait == FIRST_FAILURE_WAIT * Pow2(failures')
      ensures Polls(options, r) && r.answer.Some? ==> failures' == 0 && IsLeastWait(r.answer.value, wait)
      ensures dispatched == old(dispatched) + RoundJobs(options, r)
    {
      batch, failures' := None, failures;
      if r.running < options.minConcurrency {
        batch := Some(AsI32(options.maxConcurrency - r.running));
        if r.answer.Some? {
          var duration, _ := PollAndDispatch(r.answer.value, false);
          wait, failures' := duration.value, 0;
        } else {
          failures' := failures + 1;
          wait := FIRST_FAILURE_WAIT * Pow2(failures');
        }
      } else {
        wait := FULL_WAIT;
      }
    }
  }

  // The main loop

  /** What one round of the loop meets: the count it loads, and how its poll ends if it polls. */
  datatype Round = Round(running: nat, answer: Option<seq<PolledMessage>>)

  predicate Polls(o: Options, r: Round) {
    r.running < o.minConcurrency
  }

  /** How many of the last polls failed in a row. */
  function Failures(o: Options, rounds: seq<Round>): nat {
    if rounds == [] then 0 else
      var r := rounds[|rounds| - 1];
      var before := Failures(o, rounds[..|rounds| - 1]);
      if !Polls(o, r) then before else if r.answer.Some? then 0 else before + 1
  }

  function AllJobs(o: Options, rounds: seq<Round>): seq<CurrentJob> {
    if rounds == [] then [] else
      var r := rounds[|rounds| - 1];
      AllJobs(o, rounds[..|rounds| - 1]) + RoundJobs(o, r)
  }

  function RoundJobs(o: Options, r: Round): seq<CurrentJob> {
    if Polls(o, r) && r.answer.Some? then JobsIn(r.answer.value) else []
  }

  /** How long the loop is ready to wait after the last of these rounds: a full runner waits a
      minute, a failed poll 50 ms times 2 for each failure in a row, and otherwise it is as long
      as the answer asks for. */
  ghost predicate IsWaitAfter(o: Options, rounds: seq<Round>, wait: int)
    requires rounds != []
  {
    var r := rounds[|rounds| - 1];
    if !Polls(o, r) then wait == FULL_WAIT
    else if r.answer.None? then wait == FIRST_FAILURE_WAIT * Pow2(Failures(o, rounds))
    else IsLeastWait(r.answer.value, wait)
  }

  /** How many messages the round polls for, if it polls: up to the maximum. */
  function BatchOf(o: Options, r: Round): Option<int> {
    if Polls(o, r) then Some(AsI32(o.maxConcurrency - r.running)) else None
  }

  lemma OneMoreRound(o: Options, rounds: seq<Round>, i: nat)
    requires i < |rounds|
    ensures var polled := Polls(o, rounds[i]) && rounds[i].answer.Some?;
            && AllJobs(o, rounds[..i + 1]) == AllJobs(o, rounds[..i]) + RoundJobs(o, rounds[i])
            && Failures(o, rounds[..i + 1]) ==
               (if !Polls(o, rounds[i]) then Failures(o, rounds[..i])
                else if polled then 0 else Failures(o, rounds[..i]) + 1)
  {
    assert rounds[..i + 1][..i] == rounds[..i];
  }

  /** A round polls exactly if fewer jobs are running than the minimum, and then, as the loop does, for
      as many as there is room for. */
  lemma BatchIsWhatLoadAsksFor(o: Options, r: Round, s: State, b: int)
    requires s.phase.Top? && s.running == r.running
    ensures BatchOf(o, r).Some? <==> r.running < o.minConcurrency
    ensures BatchOf(o, r) == Some(b) <==> Act(o, s, Load).phase == Asking(b)
    ensures BatchOf(o, r) == None <==> Act(o, s, Load).phase == Full
  {
  }

  /** Only polls count: one that succeeds ends a row of failures, and each that fails adds one. */
  lemma FailuresInARow(o: Options, before: seq<Round>, r: Round)
    ensures Failures(o, before + [r]) ==
            if r.running >= o.minConcurrency then Failures(o, before)
            else if r.answer.Some? then 0
            else Failures(o, before) + 1
    ensures Failures(o, []) == 0
  {
    assert (before + [r])[..|before|] == before;
  }

  /** The jobs of a round follow those of the rounds before. */
  lemma JobsOfRounds(o: Options, before: seq<Round>, r: Round)
    ensures AllJobs(o, before + [r]) == AllJobs(o, before) +
            if r.running < o.minConcurrency && r.answer.Some? then JobsIn(r.answer.value) else []
    ensures AllJobs(o, []) == []
  {
    assert (before + [r])[..|before|] == before;
  }

  ghost predicate RoundsAnswered(o: Options, rounds: seq<Round>, n: nat, waits: seq<int>, batches: seq<Option<int>>)
    requires n <= |rounds|
  {
    && |waits| == |batches| == n
    && forall k | 0 <= k < n :: batches[k] == BatchOf(o, rounds[k]) && IsWaitAfter(o, rounds[..k + 1], waits[k])
  }

  lemma OneMoreAnswered(o: Options, rounds: seq<Round>, i: nat, waits: seq<int>, batches: seq<Option<int>>,
                        wait: int, batch: Option<int>)
    requires i < |rounds| && RoundsAnswered(o, rounds, i, waits, batches) && batch == BatchOf(o, rounds[i])
    requires !Polls(o, rounds[i]) ==> wait == FULL_WAIT
    requires Polls(o, rounds[i]) && rounds[i].answer.None? ==>
               wait == FIRST_FAILURE_WAIT * Pow2(Failures(o, rounds[..i + 1]))
    requires Polls(o, rounds[i]) && rounds[i].answer.Some? ==> IsLeastWait(rounds[i].answer.value, wait)
    ensures RoundsAnswered(o, rounds, i + 1, waits + [wait], batches + [batch])
  {
    assert rounds[..i + 1][i] == rounds[i];
  }

  lemma RoundsAnsweredMeans(o: Options, rounds: seq<Round>, waits: seq<int>, batches: seq<Option<int>>, i: nat)
    requires RoundsAnswered(o, rounds, |rounds|, waits, batches) && i < |rounds|
    ensures batches[i].Some? <==> rounds[i].running < o.minConcurrency
    ensures batches[i].Some? ==> batches[i].value == AsI32(o.maxConcurrency - rounds[i].running)
    ensures rounds[i].running >= o.minConcurrency ==> waits[i] == 60_000_000
    ensures rounds[i].running < o.minConcurrency && rounds[i].answer.Some? ==>
              IsLeastWait(rounds[i].answer.value, waits[i])
    ensures rounds[i].running < o.minConcurrency && rounds[i].answer.None? ==>
              waits[i] == 50_000 * Pow2(Failures(o, rounds[..i + 1]))
  {
    assert IsWaitAfter(o, rounds[..i + 1], waits[i]) && rounds[..i + 1][i] == rounds[i];
  }

  /** main_loop for as many rounds as are given; it returns how many messages each polls for, if it
      polls, and how long the loop is ready to wait after it.
      No answer stands for an error of the poll or of the deletion that goes with it. */
  method MainLoop(runner: JobRunner, rounds: seq<Round>) returns (waits: seq<int>, batches: seq<Option<int>>)
    modifies runner`runningJobs, runner`loops, runner`dispatched
    ensures |batches| == |rounds| && |waits| == |rounds|
    ensures forall i | 0 <= i < |rounds| :: batches[i].Some? <==> rounds[i].running < runner.options.minConcurrency
    ensures forall i | 0 <= i < |rounds| && batches[i].Some? ::
              batches[i].value == AsI32(runner.options.maxConcurrency - rounds[i].running)
    ensures forall i | 0 <= i < |rounds| && rounds[i].running >= runner.options.minConcurrency :: waits[i] == 60_000_000
    ensures forall i | 0 <= i < |rounds| && rounds[i].running < runner.options.minConcurrency
                       && rounds[i].answer.Some? ::
              IsLeastWait(rounds[i].answer.value, waits[i])
    ensures forall i | 0 <= i < |rounds| && rounds[i].running < runner.options.minConcurrency
                       && rounds[i].answer.None? ::
              waits[i] == 50_000 * Pow2(Failures(runner.options, rounds[..i + 1]))
    ensures runner.dispatched == old(runner.dispatched) + AllJobs(runner.options, rounds)
  {
    waits, batches := [], [];
    var failures := 0;
    assert rounds[..0] == [];
    for i := 0 to |rounds|
      invariant RoundsAnswered(runner.options, rounds, i, waits, batches)
      invariant failures == Failures(runner.options, rounds[..i])
      invariant runner.dispatched == old(runner.dispatched) + AllJobs(runner.options, rounds[..i])
    {
      OneMoreRound(runner.options, rounds, i);
      ghost var jobs := AllJobs(runner.options, rounds[..i]);
      var batch, duration;
      batch, duration, failures := runner.TakeRound(rounds[i], failures);
      ConcatAssociates(old(runner.dispatched), jobs, RoundJobs(runner.options, rounds[i]));
      OneMoreAnswered(runner.options, rounds, i, waits, batches, duration, batch);
      waits, batches := waits + [duration], batches + [batch];
    }
    assert rounds[..|rounds|] == rounds;
    ghost var o, rs, ws, bs := runner.options, rounds, waits, batches;
    forall i: nat | i < |rounds|
      ensures bs[i].Some? <==> rs[i].running < o.minConcurrency
      ensures bs[i].Some? ==> bs[i].value == AsI32(o.maxConcurrency - rs[i].running)
      ensures rs[i].running >= o.minConcurrency ==> ws[i] == 60_000_000
      ensures rs[i].running < o.minConcurrency && rs[i].answer.Some? ==> IsLeastWait(rs[i].answer.value, ws[i])
      ensures rs[i].running < o.minConcurrency && rs[i].answer.None? ==>
                ws[i] == 50_000 * Pow2(Failures(o, rs[..i + 1]))
    {
      RoundsAnsweredMeans(o, rs, ws, bs, i);
    }
  }

  // The answer of a poll

  /** The row that poll `txn` returns for a message it delivers. */
  ghost function AnswerRow(w: World, txn: Txn, id: Id): PolledMessage
    requires txn in w.polls && id in w.polls[txn].picked && id in w.db.msgs
  {
    var payload := w.polls[txn].picked[id];
    PolledMessage(Some(id), Some(w.db.msgs[id].commitInterval.None?),
                  if payload.Some? then Some(payload.value.name) else None,
                  if payload.Some? then payload.value.json else None,
                  if payload.Some? then payload.value.bytes else None,
                  Some(w.db.msgs[id].backoff * 2 / 2), Some(0))
  }

  /** What `mq_poll` returns when `txn` writes: a row for each message it delivers, or the wait. */
  ghost predicate IsAnswer(w: World, txn: Txn, messages: seq<PolledMessage>)
    requires txn in w.polls
  {
    var delivered := DeliveredBy(w, txn);
    if delivered == {} then
      messages ==
      [PolledMessage(None, None, None, None, None, None, WaitTime(w.db.msgs, w.polls[txn].now, w.polls[txn].subs))]
    else
      && |messages| == |delivered|
      && (forall id | id in delivered :: AnswerRow(w, txn, id) in messages)
      && (forall m | m in messages :: exists id | id in delivered :: m == AnswerRow(w, txn, id))
  }

  /** What becomes of a message by its columns, and that it becomes of each in turn. */
  lemma OneByOne(o: Options, a: seq<PolledMessage>, m: PolledMessage)
    ensures JobsIn(a + [m]) == JobsIn(a) +
            if m.id.Some? && m.isCommitted == Some(true) && m.name.Some? && m.retryBackoff.Some?
            then [CurrentJob(m.id.value, m.name.value, m.payloadJson, m.payloadBytes)] else []
    ensures LoopsIn(o, a + [m]) == LoopsIn(o, a) +
            if m.id.Some? && m.isCommitted == Some(true) && m.name.Some? && m.retryBackoff.Some? && o.keepAlive
            then [RenewalLoop(m.id.value, if m.retryBackoff.value > 0 then m.retryBackoff.value else 0)] else []
    ensures ReservationsIn(a + [m]) == ReservationsIn(a) +
            if m.id.Some? && m.isCommitted == Some(false) then [m.id.value] else []
    ensures JobsIn([]) == [] && LoopsIn(o, []) == [] && ReservationsIn([]) == []
  {
    assert (a + [m])[..|a|] == a;
  }

  /** The wait is the shortest one asked for, not below zero, and a minute if none is. */
  lemma LeastWaitMeans(messages: seq<PolledMessage>, wait: int)
    ensures (forall m | m in messages :: m.waitTime == None) ==> (IsLeastWait(messages, wait) <==> wait == 60_000_000)
    ensures (exists m | m in messages :: m.waitTime.Some?) ==>
              (IsLeastWait(messages, wait) <==>
                && (exists m | m in messages :: m.waitTime.Some? &&
                      wait == if m.waitTime.value > 0 then m.waitTime.value else 0)
                && forall m | m in messages && m.waitTime.Some? ::
                     wait <= if m.waitTime.value > 0 then m.waitTime.value else 0)
  {
  }

  lemma {:induction false} JobsAreMessages(messages: seq<PolledMessage>, job: CurrentJob, id: Id)
    ensures job in JobsIn(messages) <==>
            exists m | m in messages ::
              m.id == Some(job.id) && m.isCommitted == Some(true) && m.name == Some(job.name) && m.retryBackoff.Some?
              && m.payloadJson == job.json && m.payloadBytes == job.bytes
    ensures id in ReservationsIn(messages) <==>
            exists m | m in messages :: m.id == Some(id) && m.isCommitted == Some(false)
    ensures |JobsIn(messages)| + |ReservationsIn(messages)| <= |messages|
  {
    if messages != [] {
      var front, m := messages[..|messages| - 1], messages[|messages| - 1];
      JobsAreMessages(front, job, id);
      assert messages == front + [m];
    }
  }

  lemma {:induction false} LoopsAreMessages(o: Options, messages: seq<PolledMessage>, loop: RenewalLoop)
    requires o.keepAlive
    ensures loop in LoopsIn(o, messages) <==>
            exists m | m in messages :: IsJob(m) && loop == RenewalLoop(m.id.value, ToDuration(m.retryBackoff.value))
  {
    if messages != [] {
      var front, m := messages[..|messages| - 1], messages[|messages| - 1];
      LoopsAreMessages(o, front, loop);
      assert messages == front + [m];
    }
  }

  /** After a poll that delivers nothing the runner waits until the first subscribed head is due, or a
      minute if none is scheduled. */
  lemma EmptyAnswerAsksToWait(w: World, txn: Txn, messages: seq<PolledMessage>, wait: int)
    requires txn in w.polls && IsAnswer(w, txn, messages) && DeliveredBy(w, txn) == {}
    ensures var until := WaitTime(w.db.msgs, w.polls[txn].now, w.polls[txn].subs);
            IsLeastWait(messages, wait) <==>
              wait == if until.None? then 60_000_000 else if until.value > 0 then until.value else 0
  {
    assert messages[0].waitTime == WaitTime(w.db.msgs, w.polls[txn].now, w.polls[txn].subs);
  }

  lemma EmptyAnswer(w: World, txn: Txn, messages: seq<PolledMessage>)
    requires txn in w.polls && IsAnswer(w, txn, messages) && DeliveredBy(w, txn) == {}
    ensures JobsIn(messages) == [] && ReservationsIn(messages) == []
  {
  }

  /** A message that is delivered, committed, and was found with its payload. */
  ghost predicate IsDispatched(w: World, txn: Txn, job: CurrentJob)
    requires txn in w.polls
  {
    && job.id in DeliveredBy(w, txn) && w.db.msgs[job.id].commitInterval.None?
    && w.polls[txn].picked[job.id] == Some(Payload(job.name, job.json, job.bytes))
  }

  /** A message that is delivered and not committed. */
  ghost predicate IsExpired(w: World, txn: Txn, id: Id)
    requires txn in w.polls
  {
    id in DeliveredBy(w, txn) && w.db.msgs[id].commitInterval.Some?
  }

  /** The renewal loop of a job starts from the backoff that the poll has just leased it for. */
  lemma LoopsStartFromTheLease(o: Options, w: World, txn: Txn, messages: seq<PolledMessage>, id: Id, b: nat)
    requires Reachable(w) && txn in w.polls && IsAnswer(w, txn, messages) && o.keepAlive
    requires id in w.db.msgs
    ensures RenewalLoop(id, b) in LoopsIn(o, messages) <==>
            && id in DeliveredBy(w, txn) && w.db.msgs[id].commitInterval.None? && w.polls[txn].picked[id].Some?
            && b == w.db.msgs[id].backoff
  {
    ReachableIsSound(w);
    assert CandidatesSeen(w, w.polls[txn]);
    LoopsAreMessages(o, messages, RenewalLoop(id, b));
    if id in DeliveredBy(w, txn) {
      assert AnswerRow(w, txn, id) in messages;
    }
  }

  /** A delivered message has its row in the answer. */
  lemma RowInAnswer(w: World, txn: Txn, messages: seq<PolledMessage>, job: CurrentJob, id: Id)
    requires txn in w.polls && IsAnswer(w, txn, messages) && CandidatesSeen(w, w.polls[txn])
    requires DeliveredBy(w, txn) != {}
    ensures job in JobsIn(messages) <==> IsDispatched(w, txn, job)
    ensures id in ReservationsIn(messages) <==> IsExpired(w, txn, id)
  {
    JobsAreMessages(messages, job, id);
    if id in DeliveredBy(w, txn) {
      assert AnswerRow(w, txn, id) in messages;
    }
    if job.id in DeliveredBy(w, txn) {
      assert AnswerRow(w, txn, job.id) in messages;
    }
  }

  lemma AnswerAsksForNoWait(w: World, txn: Txn, messages: seq<PolledMessage>)
    requires txn in w.polls && IsAnswer(w, txn, messages) && DeliveredBy(w, txn) != {}
    ensures IsLeastWait(messages, 0)
  {
  }

  /** What is done with the messages that a poll delivers: the committed ones are dispatched if they
      have a payload, the uncommitted ones are put up for deletion, and there is nothing else; there
      are no more jobs than the poll asked for, and the runner polls again at once if any came. */
  lemma AnswerIsUsed(w: World, txn: Txn, messages: seq<PolledMessage>)
    requires Reachable(w) && txn in w.polls && IsAnswer(w, txn, messages)
    ensures forall job :: job in JobsIn(messages) <==> IsDispatched(w, txn, job)
    ensures forall id :: id in ReservationsIn(messages) <==> IsExpired(w, txn, id)
    ensures |JobsIn(messages)| <= w.polls[txn].size
    ensures DeliveredBy(w, txn) != {} ==> IsLeastWait(messages, 0)
  {
    assert CandidatesSeen(w, w.polls[txn]) by {
      ReachableIsSound(w);
    }
    if DeliveredBy(w, txn) == {} {
      EmptyAnswer(w, txn, messages);
    } else {
      var nobody := CurrentJob(NIL, "", None, None);
      forall job ensures job in JobsIn(messages) <==> IsDispatched(w, txn, job) {
        RowInAnswer(w, txn, messages, job, NIL);
      }
      forall id ensures id in ReservationsIn(messages) <==> IsExpired(w, txn, id) {
        RowInAnswer(w, txn, messages, nobody, id);
      }
      JobsAreMessages(messages, nobody, NIL);
      Polling.SubsetSize(DeliveredBy(w, txn), w.polls[txn].picked.Keys);
      AnswerAsksForNoWait(w, txn, messages);
    }
  }

  /** Nothing a poll delivers is skipped, if callers delete only what has been inserted. */
  lemma NothingSkipped(w: World, txn: Txn, messages: seq<PolledMessage>, id: Id)
    requires CarefullyReachable(w) && txn in w.polls && IsAnswer(w, txn, messages) && id in DeliveredBy(w, txn)
    ensures id in w.db.msgs
    ensures (exists job :: job in JobsIn(messages) && job.id == id) <==> w.db.msgs[id].commitInterval.None?
    ensures id in ReservationsIn(messages) <==> w.db.msgs[id].commitInterval.Some?
  {
    ReachableTablesAgree(w);
    AnswerIsUsed(w, txn, messages);
    var payload := w.polls[txn].picked[id].value;
    var job := CurrentJob(id, payload.name, payload.json, payload.bytes);
    assert IsDispatched(w, txn, job) <==> w.db.msgs[id].commitInterval.None?;
  }

  /** A job comes with the name and the contents that its message had when the poll chose it, whatever
      is checkpointed before the poll writes. */
  lemma JobsCarryTheirPayload(w: World, begin: Step, steps: seq<Step>, w': World, messages: seq<PolledMessage>,
                              job: CurrentJob)
    requires Reachable(w) && PendingShape(w) && Allowed(w, begin) && begin.BeginPoll?
    requires LeadsTo(Apply(w, begin), steps, w') && FinishPoll(begin.txn) !in steps
    ensures begin.txn in w'.polls
    ensures IsAnswer(w', begin.txn, messages) && job in JobsIn(messages) ==>
              && job.id in w.db.payloads && w.db.payloads[job.id].name == job.name
              && w.db.payloads[job.id].json == job.json && w.db.payloads[job.id].bytes == job.bytes
  {
    Extend(w, begin);
    PollStays(Apply(w, begin), steps, begin.txn);
    if IsAnswer(w', begin.txn, messages) && job in JobsIn(messages) {
      RunFromReachable(Apply(w, begin), steps);
      AnswerIsUsed(w', begin.txn, messages);
    }
  }

  /** The deletion of expired reservations, ahead of dispatch, cannot fail on a constraint, whatever
      happens before it writes, so it does not keep the jobs of the same answer from being dispatched. */
  lemma ReservationsCanGo(w: World, poll: Txn, messages: seq<PolledMessage>, steps: seq<Step>, w': World,
                          ids: set<Id>)
    requires Reachable(w) && PendingShape(w) && poll in w.polls && IsAnswer(w, poll, messages)
    requires LeadsTo(Apply(w, FinishPoll(poll)), steps, w') && forall id | id in ids :: id in ReservationsIn(messages)
    ensures DeleteMissing(w'.db, ids, {}).Committed?
  {
    AnswerIsUsed(w, poll, messages);
    DeliveredStayHeads(w, poll, steps, w');
    DeletingHeadsCommits(w', ids);
    assert ids - {} == ids;
  }
}
