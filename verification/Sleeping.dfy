/** The runner's loop, the queue and the notifications between them, in one system: a loop that
    idles after an empty poll may do so. */
module Sleeping {
  import opened Schema
  import opened Statements
  import opened Runs
  import opened Ordering
  import opened Wakeups
  import opened Runner

  /** `told` is the deadline that the loop's last poll reported if it found nothing, and `coming`
      the number of notifications for the runner that are on their way. */
  datatype System = System(w: World, runner: State, told: Option<Option<int>>, coming: nat)

  datatype Event =
    | Database(step: Step)       // a step of anybody's transaction
    | Query(now: int)            // the second query of the loop's own poll, which found nothing
    | Local(action: Action)      // a step of the loop or of a job
    | Arrive                     // the listener gets a notification

  ghost predicate Possible(o: Options, s: System, e: Event) {
    match e
    case Database(step) => PendingShape(s.w) && Allowed(s.w, step)
    case Query(_) => s.runner.phase.Asking?
    case Local(a) => Enabled(o, s.runner, a) && !a.Heard? && (a.Answer? && s.told.Some? ==> a.count == 0)
    case Arrive => s.coming > 0
  }

  ghost function Next(o: Options, subs: Subscription, s: System, e: Event): System
    requires Possible(o, s, e)
  {
    match e
    case Database(step) =>
      s.(w := Apply(s.w, step), coming := if Hears(subs, Notices(s.w, step)) then s.coming + 1 else s.coming)
    case Query(now) => s.(told := Some(Deadline(now, WaitTime(s.w.db.msgs, now, subs))))
    case Local(a) => s.(runner := Act(o, s.runner, a), told := if EndsSleep(a) then None else s.told)
    case Arrive => s.(runner := Act(o, s.runner, Heard), coming := s.coming - 1)
  }

  /** What the loop was told holds until it goes round again, or its poll fails after all. */
  predicate EndsSleep(a: Action) {
    a.Load? || a.PollFails? || a.Wake? || a.Timeout?
  }

  /** No step hastens a head past what the loop was told without the runner being notified. */
  ghost predicate Harmless(s: System, subs: Subscription, e: Event) {
    e.Database? && PendingShape(s.w) && Allowed(s.w, e.step) && s.told.Some? && !Hears(subs, Notices(s.w, e.step)) ==>
      !Hastens(s.w, e.step, subs, s.told.value)
  }

  ghost predicate IsHarmlessRun(o: Options, subs: Subscription, s: System, events: seq<Event>)
    decreases |events|
  {
    events == [] ||
    (Possible(o, s, events[0]) && Harmless(s, subs, events[0])
     && IsHarmlessRun(o, subs, Next(o, subs, s, events[0]), events[1..]))
  }

  ghost function Result(o: Options, subs: Subscription, s: System, events: seq<Event>): System
    requires IsHarmlessRun(o, subs, s, events)
    decreases |events|
  {
    if events == [] then s else Result(o, subs, Next(o, subs, s, events[0]), events[1..])
  }

  /** Unless a wake-up is stored or on its way, nothing is due before the loop has been told. */
  ghost predicate SleepsWell(s: System, subs: Subscription) {
    Sound(s.w) && (s.told.Some? && !s.runner.permit && s.coming == 0 ==> Quiet(s.w.db.msgs, subs, s.told.value))
  }

  lemma NextSleepsWell(o: Options, subs: Subscription, s: System, e: Event)
    requires SleepsWell(s, subs) && Possible(o, s, e) && Harmless(s, subs, e)
    ensures SleepsWell(Next(o, subs, s, e), subs)
  {
    match e {
      case Database(step) =>
        StepKeepsSound(s.w, step);
        if s.told.Some? && !s.runner.permit && s.coming == 0 && !Hears(subs, Notices(s.w, step)) {
          SilentStep(s.w, step, subs, s.told.value);
        }
      case Query(now) => QuietUntilTold(s.w.db.msgs, now, subs);
      case Local(_) =>
      case Arrive =>
    }
  }

  lemma {:induction false} RunSleepsWell(o: Options, subs: Subscription, s: System, events: seq<Event>)
    requires SleepsWell(s, subs) && IsHarmlessRun(o, subs, s, events)
    ensures SleepsWell(Result(o, subs, s, events), subs)
    decreases |events|
  {
    if events != [] {
      NextSleepsWell(o, subs, s, events[0]);
      RunSleepsWell(o, subs, Next(o, subs, s, events[0]), events[1..]);
    }
  }

  /** A loop that polls and finds nothing does get to idle, with what the query told it. */
  lemma TellsTheWait(o: Options, subs: Subscription, w: World, now: int)
    requires 0 < o.minConcurrency
    ensures var events := [Local(Load), Query(now), Local(Answer(0)), Local(DispatchDone)];
            var wait := WaitTime(w.db.msgs, now, subs);
            AsI32(o.maxConcurrency) >= 0 ==>
              && IsHarmlessRun(o, subs, System(w, START, None, 0), events)
              && Result(o, subs, System(w, START, None, 0), events) ==
                 System(w, START.(phase := Idle), Some(if wait.Some? then Some(now + wait.value) else None), 0)
  {
    var events := [Local(Load), Query(now), Local(Answer(0)), Local(DispatchDone)];
    if AsI32(o.maxConcurrency) >= 0 {
      var s0 := System(w, START, None, 0);
      var s1 := Next(o, subs, s0, events[0]);
      var s2 := Next(o, subs, s1, events[1]);
      var s3 := Next(o, subs, s2, events[2]);
      var s4 := Next(o, subs, s3, events[3]);
      OneMoreEvent(o, subs, s3, events[3], []);
      OneMoreEvent(o, subs, s2, events[2], [events[3]]);
      OneMoreEvent(o, subs, s1, events[1], [events[2], events[3]]);
      OneMoreEvent(o, subs, s0, events[0], [events[1], events[2], events[3]]);
      assert events == [events[0]] + [events[1], events[2], events[3]];
      assert [events[1], events[2], events[3]] == [events[1]] + [events[2], events[3]];
      assert [events[2], events[3]] == [events[2]] + [events[3]] && [events[3]] == [events[3]] + [];
    }
  }

  lemma OneMoreEvent(o: Options, subs: Subscription, s: System, e: Event, rest: seq<Event>)
    requires Possible(o, s, e) && Harmless(s, subs, e) && IsHarmlessRun(o, subs, Next(o, subs, s, e), rest)
    ensures IsHarmlessRun(o, subs, s, [e] + rest)
    ensures Result(o, subs, s, [e] + rest) == Result(o, subs, Next(o, subs, s, e), rest)
  {
    assert ([e] + rest)[1..] == rest;
  }

  /** A loop that idles after an empty poll has nothing to do: in every interleaving with the
      transactions of all clients, with the jobs in hand and with the arrival of notifications, if
      no wake-up is stored and no notification is on its way, no subscribed message is ready before
      the wait it was told is over. */
  lemma IdleIsSafe(o: Options, subs: Subscription, w: World, events: seq<Event>, t: int)
    requires Reachable(w) && IsHarmlessRun(o, subs, System(w, START, None, 0), events)
    ensures var s := Result(o, subs, System(w, START, None, 0), events);
            s.runner.phase.Idle? && s.told.Some? && !s.runner.permit && s.coming == 0
            && (s.told.value.Some? ==> t < s.told.value.value) ==>
              ReadySet(s.w.db.msgs, t, subs) == {}
  {
    ReachableIsSound(w);
    RunSleepsWell(o, subs, System(w, START, None, 0), events);
  }
}
