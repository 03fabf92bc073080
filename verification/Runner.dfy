/** The job runner: its main loop, the jobs it has dispatched, and the wake-up they share.

    `main_loop` is one task; each `CurrentJob` is dropped by whatever task runs it, in two steps
    that others may come between: `fetch_sub`, then `notify_one` if the count was the minimum. */
module Runner {

  /** Where the main loop is. */
  datatype Phase =
    | Top                        // about to load running_jobs
    | Asking(batch: int)        // mq_poll with this batch size is on its way
    | HandingOut(left: nat)     // this many of the polled jobs are yet to be dispatched
    | Idle                       // waiting after a poll
    | Full                       // waiting because running_jobs was not below the minimum

  datatype Options = Options(minConcurrency: nat, maxConcurrency: nat, keepAlive: bool)

  /** `permit` is a wake-up stored by `notify_one`, `dropping` how many jobs have seen the minimum
      in their `fetch_sub` and are yet to notify. */
  datatype State = State(phase: Phase, running: int, permit: bool, live: set<nat>, dropping: nat, next: nat)

  datatype Action =
    | Load
    | Answer(count: nat)         // the poll has returned this many jobs to dispatch
    | PollFails
    | Dispatch
    | DispatchDone
    | Wake
    | Timeout
    | FetchSub(job: nat)
    | NotifyOne
    | Heard                      // the listener got a notification

  const I32_MODULUS := 0x1_0000_0000

  // `as i32`
  function AsI32(n: int): int {
    var r := n % I32_MODULUS;
    if r < I32_MODULUS / 2 then r else r - I32_MODULUS
  }

  predicate Enabled(o: Options, s: State, a: Action) {
    match a
    case Load => s.phase.Top?
    case Answer(count) => s.phase.Asking? && count <= s.phase.batch
    case PollFails => s.phase.Asking?
    case Dispatch => s.phase.HandingOut? && s.phase.left > 0
    case DispatchDone => s.phase.HandingOut? && s.phase.left == 0
    case Wake => (s.phase.Idle? || s.phase.Full?) && s.permit
    case Timeout => s.phase.Idle? || s.phase.Full?
    case FetchSub(job) => job in s.live
    case NotifyOne => s.dropping > 0
    case Heard => true
  }

  function Act(o: Options, s: State, a: Action): State
    requires Enabled(o, s, a)
  {
    match a
    case Load =>
      s.(phase := if s.running < o.minConcurrency then Asking(AsI32(o.maxConcurrency - s.running)) else Full)
    case Answer(count) => s.(phase := HandingOut(count))
    case PollFails => s.(phase := Idle)
    case Dispatch =>
      s.(phase := HandingOut(s.phase.left - 1), running := s.running + 1, live := s.live + {s.next}, next := s.next + 1)
    case DispatchDone => s.(phase := Idle)
    case Wake => s.(phase := Top, permit := false)
    case Timeout => s.(phase := Top)
    case FetchSub(job) =>
      s.(running := s.running - 1, live := s.live - {job},
         dropping := if s.running == o.minConcurrency then s.dropping + 1 else s.dropping)
    case NotifyOne => s.(permit := true, dropping := s.dropping - 1)
    case Heard => s.(permit := true)
  }

  /** A count that fits the batch type is asked for as it is. */
  lemma AsI32Means(n: int)
    ensures 0 <= n < 0x8000_0000 ==> AsI32(n) == n
    ensures 0x8000_0000 <= n < 0x1_0000_0000 ==> AsI32(n) == n - 0x1_0000_0000
  {
  }

  /** What the loop does: it asks for as many jobs as there is room for if fewer than the minimum are
      running, and otherwise waits for room; it goes on when it takes the stored wake-up, which is
      then gone, or when its time is up. */
  lemma LoopSteps(o: Options, s: State)
    ensures s.phase == Top <==> Enabled(o, s, Load)
    ensures s.phase == Top && s.running < o.minConcurrency ==>
              Act(o, s, Load) == s.(phase := Asking(AsI32(o.maxConcurrency - s.running)))
    ensures s.phase == Top && s.running >= o.minConcurrency ==> Act(o, s, Load) == s.(phase := Full)
    ensures Enabled(o, s, Wake) <==> (s.phase == Idle || s.phase == Full) && s.permit
    ensures Enabled(o, s, Wake) ==> Act(o, s, Wake) == s.(phase := Top, permit := false)
    ensures Enabled(o, s, Timeout) <==> s.phase == Idle || s.phase == Full
    ensures Enabled(o, s, Timeout) ==> Act(o, s, Timeout) == s.(phase := Top)
  {
  }

  /** A job that is dispatched is counted, and one that is dropped is not any more; exactly the drop
      that finds the count at the minimum goes on to store a wake-up. */
  lemma JobSteps(o: Options, s: State, job: nat)
    ensures s.phase.HandingOut? && s.phase.left > 0 ==>
              && Enabled(o, s, Dispatch)
              && Act(o, s, Dispatch) == s.(phase := HandingOut(s.phase.left - 1), running := s.running + 1,
                                           live := s.live + {s.next}, next := s.next + 1)
    ensures Enabled(o, s, FetchSub(job)) <==> job in s.live
    ensures job in s.live && s.running == o.minConcurrency ==>
              Act(o, s, FetchSub(job)) ==
              s.(running := s.running - 1, live := s.live - {job}, dropping := s.dropping + 1)
    ensures job in s.live && s.running != o.minConcurrency ==>
              Act(o, s, FetchSub(job)) == s.(running := s.running - 1, live := s.live - {job})
    ensures s.dropping > 0 ==>
              && Enabled(o, s, NotifyOne)
              && Act(o, s, NotifyOne) == s.(permit := true, dropping := s.dropping - 1)
  {
  }

  const START := State(Top, 0, false, {}, 0, 0)

  predicate IsExecution(o: Options, s: State, actions: seq<Action>)
    decreases |actions|
  {
    actions == [] || (Enabled(o, s, actions[0]) && IsExecution(o, Act(o, s, actions[0]), actions[1..]))
  }

  function After(o: Options, s: State, actions: seq<Action>): State
    requires IsExecution(o, s, actions)
    decreases |actions|
  {
    if actions == [] then s else After(o, Act(o, s, actions[0]), actions[1..])
  }

  /** Room for what has been asked for and for what is being dispatched. */
  predicate WithinCapacity(o: Options, s: State) {
    && s.running == |s.live|
    && (forall job | job in s.live :: job < s.next)
    && s.running <= o.maxConcurrency
    && (s.phase.Asking? ==> 0 <= s.phase.batch && s.running + s.phase.batch <= o.maxConcurrency)
    && (s.phase.HandingOut? ==> s.running + s.phase.left <= o.maxConcurrency)
  }

  /** A loop that waits for room has not missed it. */
  predicate WillWake(o: Options, s: State) {
    s.phase.Full? && s.running < o.minConcurrency ==> s.permit || s.dropping > 0
  }

  lemma {:induction false} ExecutionKeepsWake(o: Options, s: State, actions: seq<Action>)
    requires WillWake(o, s) && IsExecution(o, s, actions)
    ensures WillWake(o, After(o, s, actions))
    decreases |actions|
  {
    if actions != [] {
      ExecutionKeepsWake(o, Act(o, s, actions[0]), actions[1..]);
    }
  }

  lemma ActKeepsBounds(o: Options, s: State, a: Action)
    requires o.maxConcurrency < I32_MODULUS / 2 && WithinCapacity(o, s) && Enabled(o, s, a)
    ensures WithinCapacity(o, Act(o, s, a))
  {
  }

  lemma {:induction false} ExecutionKeepsBounds(o: Options, s: State, actions: seq<Action>)
    requires o.maxConcurrency < I32_MODULUS / 2 && WithinCapacity(o, s) && IsExecution(o, s, actions)
    ensures WithinCapacity(o, After(o, s, actions))
    decreases |actions|
  {
    if actions != [] {
      ActKeepsBounds(o, s, actions[0]);
      ExecutionKeepsBounds(o, Act(o, s, actions[0]), actions[1..]);
    }
  }

  /** Runner wake-up: in every interleaving, whatever the options are, if the loop waits at capacity
      while fewer jobs than the minimum are running, a wake-up is stored or a dropping job is about to
      store one. */
  lemma NoMissedWakeup(o: Options, actions: seq<Action>)
    requires IsExecution(o, START, actions)
    ensures var s := After(o, START, actions);
            s.phase.Full? && s.running < o.minConcurrency ==> s.permit || s.dropping > 0
  {
    ExecutionKeepsWake(o, START, actions);
  }

  /** Runner capacity: in every interleaving the counter is the number of jobs in hand and never
      exceeds the maximum, whatever the minimum is, so neither it nor the batch size underflows. */
  lemma NeverOverCapacity(o: Options, actions: seq<Action>)
    requires o.maxConcurrency < I32_MODULUS / 2 && IsExecution(o, START, actions)
    ensures var s := After(o, START, actions);
            && s.running == |s.live| && 0 <= s.running <= o.maxConcurrency
            && (s.phase.Top? ==> AsI32(o.maxConcurrency - s.running) == o.maxConcurrency - s.running >= 0)
            && (s.phase.Asking? ==> 0 <= s.phase.batch <= o.maxConcurrency - s.running)
  {
    ExecutionKeepsBounds(o, START, actions);
  }

  /** The maximum has to fit the batch type: the very first poll asks for that many jobs exactly if
      it does. */
  lemma MaximumMustFit(o: Options)
    requires o.minConcurrency > 0
    ensures Act(o, START, Load).phase.Asking?
    ensures Act(o, START, Load).phase.batch == o.maxConcurrency <==> o.maxConcurrency < I32_MODULUS / 2
  {
  }
}
