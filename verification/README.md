# A verified model of the sqlxmq job queue

sqlxmq keeps a job queue in two PostgreSQL tables, `mq_msgs` and `mq_payloads`, and runs jobs from
it in a concurrent Rust runner. This project models the SQL functions, the constraints they rely
on and the runner's protocol, and proves what they promise over every run.

* `Schema`, `Rows`, `Batches`, `Statements`: the tables, their constraints, and each SQL function as
  the state change of one transaction that commits or changes nothing. UUIDs are their numeric
  value with nil = 0, times and intervals are microseconds, NULL is `None`, `NOW()` is a parameter
  that is fixed for a transaction and need not grow from one to the next.
* `Lines`, `Insertion`, `Deletion`: the line that the ordered messages of a channel form, and when
  appending to it and deleting from it go through.
* `Polling`, `Runs`, `Ordering`: which rows a poll may pick, and runs of any number of clients. An
  insert is two steps, the query that reads the tails and the write that checks the constraints; a
  poll is two steps, the query that chooses candidates and the update that rechecks each of them; a
  deletion is two steps, the query that looks for heads to notify and the write, in which any inserts
  may come between its two DELETEs; and a clear is its snapshot and its write. Everything may happen
  in between.
* `Agreement`: when the two tables agree.
* `Effects`: what each of these steps leaves in the tables, column by column.
* `Wakeups`, `Announcements`, `Sleeping`: notifications, when a deletion sends the ones it has to,
  and why a runner may sleep for as long as it was told.
* `RowRuns`, `Histories`, `Reservations`: what a run does to one row, for leases, retries, backoff,
  two-phase commit and payloads, and when a commit comes too late.
* `Renewals`, `Handles`, `Lapses`: the renewal loop, jobs in hand, why at most one delivery
  completes, and runs in which two do.
* `Runner`, `Dispatching`: the main loop, the drop of a job and the stored wake-up, interleaved step
  by step, and what is done with the answer of a poll.
* `Tables`: the two tables as an object that each SQL function updates in place, with the
  invariant its methods keep.
* `Traps`, `Losses`: reachable runs in which an unconditional claim fails or a message is lost.
  `Scenarios` builds them.

Runs assume of callers that they never delete nil and never insert the id of a message that is gone.
That callers delete only what has been inserted (`Agreement.Careful`) is assumed only where a member
says so.
`should_retry`'s documentation names the errors of an ordered insert; the code agrees with it.

## Model

| member | source | states |
|---|---|---|
| `Ordering.OptimisticAppend` | migrations/20210316025847_setup.up.sql:186-211 | whatever ran between the tail read and the write, the insert commits iff its keys are free and every tail read is still the tail; it is then the one-step insert, which appends the batch in id order at the end of each line; otherwise nothing changes and stale tails give violations to retry on |
| `Insertion.AppendViolations` | migrations/20210316025847_setup.up.sql:40-59 | the foreign key is reported iff a tail that was read is gone, the unique index iff one has been overtaken |
| `Insertion.InsertCommitsIff` | migrations/20210316025847_setup.up.sql:186-211 | commit iff free keys and current tails, on any table whose channels are lines |
| `Insertion.CurrentTailsCommit` | migrations/20210316025847_setup.up.sql:204-210 | with current tails every channel grows by its sorted batch and the constraints hold |
| `Insertion.RetryOrderViolations` | src/lib.rs:241-260 | `should_retry` accepts exactly the two order constraints, and no taken key |
| `Insertion.RetryCodes` | src/lib.rs:241-260 | the two constraints by code and name, and any failed serialization or deadlock by code alone; nothing else |
| `Effects.InsertPayloads` | migrations/20210316025847_setup.up.sql:174-184 | the write of a committed insert gives every message of its batch its own payload; other payloads stay |
| `Effects.CommittedInsert` | migrations/20210316025847_setup.up.sql:186-211 | and its own row; other rows stay |
| `Effects.InsertedAsMeans` | migrations/20210316025847_setup.up.sql:186-211 | that row column by column |
| `Effects.TakenKeys` | migrations/20210316025847_setup.up.sql:174-211 | an id that is twice in the batch or has a payload is reported by the key of `mq_payloads`, one that only has a row by that of `mq_msgs`, and neither is retried |
| `Effects.BeginInsertEffect` | migrations/20210316025847_setup.up.sql:206-207 | the query of an insert changes nothing and remembers its time, its batch and the tails it read |
| `Effects.AbortEffect` | migrations/20210316025847_setup.up.sql:40-59 | a write that breaks a constraint changes nothing |
| `Batches.LagInSorted` | migrations/20210316025847_setup.up.sql:206-207 | the window chains a partition in id order, the first element after the default |
| `Ordering.ReachableLines` | migrations/20210316025847_setup.up.sql:40-59 | in every reachable state the ordered messages of a channel are one line from one head, without forks, cycles or strays; no payload is without its message, and the nil row is there |
| `Agreement.ReachableTablesAgree` | migrations/20210316025847_setup.up.sql:174-247 | with callers that delete only what has been inserted, the payload ids are the message ids other than nil, in every reachable state |
| `Agreement.DeleteAgreesIff` | migrations/20210316025847_setup.up.sql:244-245 | a deletion leaves the tables in agreement, in every run and wherever inserts commit between its two DELETEs, iff its messages have all been inserted when it begins |
| `Losses.MissedMessageIsSkipped` | src/runner.rs:412-467 | a reachable run in which a message is inserted between the two DELETEs of its deletion: it stays without a payload at the head of its channel, and the runner skips it when a poll delivers it |
| `Runs.StepKeepsSound` | migrations/20210316025847_setup.up.sql:30-68 | each step keeps lines, payloads only of messages, and what pending inserts, polls and deletions rely on |
| `Ordering.LineStep` | migrations/20210316025847_setup.up.sql:186-247 | a step only trims a line at its ends or, if it writes an insert, appends messages never used before |
| `Ordering.RunTrims` | migrations/20210316025847_setup.up.sql:186-247 | the same over whole runs |
| `Lines.ConstraintsAllowACycle` | migrations/20210316025847_setup.up.sql:40-59 | the two constraints alone admit a cycle |
| `Lines.LinedImpliesConstraints` | migrations/20210316025847_setup.up.sql:40-59 | lines imply both constraints |
| `Lines.LineUnique` | migrations/20210316025847_setup.up.sql:40-59 | a table determines the line of a channel |
| `Lines.LatestIsTail` | migrations/20211013151757_fix_mq_latest_message.up.sql:3-18 | the answers the query may give are exactly the tail; ORDER BY and LIMIT decide nothing |
| `Ordering.ReachableLatest` | migrations/20211013151757_fix_mq_latest_message.up.sql:3-18 | the same in every reachable state, for every history of creation times |
| `Traps.OldLatestMissesTheTail` | migrations/20210316025847_setup.up.sql:70-85 | a reachable state in which the replaced definition answers a message that is not the tail |
| `Deletion.DeleteCommitsIff` | migrations/20210316025847_setup.up.sql:231-247 | deleting ids other than nil commits iff the ordered messages left are contiguous in every line; the only violation is the unique index |
| `Deletion.DeleteTrimsLine` | migrations/20210316025847_setup.up.sql:231-247 | after it each line is the kept segment of the old one, in the old order |
| `Deletion.DeleteNilCommitsIff` | migrations/20210316025847_setup.up.sql:40-44 | the nil row can be deleted iff no ordered message is left |
| `Tables.PromotionOrderIsIrrelevant` | migrations/20210316025847_setup.up.sql:40-59 | promoting waiting rows one deleted row at a time collides iff promoting all at once does |
| `Deletion.ClearCommits` | migrations/20220713122907_fix-clear_all-keep-nil-message.up.sql:1-11 | clearing channels always commits, removes just their rows and promotes none |
| `Deletion.ClearAllCommits` | migrations/20220713122907_fix-clear_all-keep-nil-message.up.sql:17-26 | clearing everything leaves the nil row |
| `Ordering.ClearAlwaysCommits` | migrations/20220713122907_fix-clear_all-keep-nil-message.up.sql:1-26 | a clear commits whatever is inserted and deleted between its snapshot and its write |
| `Ordering.DeletingHeadsCommits` | migrations/20210316025847_setup.up.sql:231-247 | deleting any set of heads and missing rows never fails |
| `Ordering.StrictOrder` | migrations/20220208120856_fix_concurrent_poll.up.sql:24-36 | once `a` is before `b`, no poll delivers `b` while `a` is in the table, over every run and however stale the poll |
| `Ordering.CommitOrder` | migrations/20210316025847_setup.up.sql:204-210 | a committed insert puts its messages behind all that were there and behind smaller ids of its batch |
| `Ordering.StepKeepsBefore` | migrations/20210316025847_setup.up.sql:231-247 | no step changes the relative order of two messages that stay |
| `Histories.CandidateStaysHead` | migrations/20220208120856_fix_concurrent_poll.up.sql:24-36 | a candidate is a head as long as it exists |
| `Traps.ExhaustedHeadBlocks` | migrations/20220208120856_fix_concurrent_poll.up.sql:16-30 | until it is deleted or checkpointed, a head without attempts blocks its channel |
| `Polling.PollTakesAllItCan` | migrations/20220208120856_fix_concurrent_poll.up.sql:18-36 | for every choice of channels and ties, poll picks ready rows, min(batch, ready) of them |
| `Polling.PollAsksForNames` | migrations/20210316025847_setup.up.sql:88-99 | a poll for names picks due heads of those channels only, and with a batch as large as the table all of them |
| `Polling.WaitMeans` | migrations/20220208120856_fix_concurrent_poll.up.sql:47-60 | the wait that an empty poll for names reports is until the first scheduled head of those channels, or none |
| `Polling.SelectionExists` | migrations/20220208120856_fix_concurrent_poll.up.sql:18-36 | for every table, time, subscription and batch size there is something to pick |
| `Polling.AtomicPollDelivers` | migrations/20220208120856_fix_concurrent_poll.up.sql:14-37 | without a writer in between all picked rows are delivered |
| `Polling.PollPicksOneOrdered` | migrations/20220208120856_fix_concurrent_poll.up.sql:24-31 | the only ordered message of a channel it can pick is the first of the line |
| `Polling.EarliestFirst` | migrations/20220208120856_fix_concurrent_poll.up.sql:30-31 | within a channel earlier rows go first when the candidates fit the batch |
| `Wakeups.HearsMeans` | src/runner.rs:353-362 | a runner for all channels hears every notification, one for names exactly those that meet them |
| `Wakeups.NoticesMean` | migrations/20210316025847_setup.up.sql:166-172 | a committed insert notifies the channels of its batch, a committed deletion those it looked up, and nothing else does |
| `Wakeups.SilentStep` | migrations/20210316025847_setup.up.sql:166-172 | an unheard step leaves no subscribed head due before the deadline iff it is no commit, revival or promotion that makes one due earlier |
| `Wakeups.NoLostWakeup` | migrations/20220208120856_fix_concurrent_poll.up.sql:47-60 | until the runner hears something or a head is hastened in silence, nothing it subscribed to is ready before the wait it was told is over, or ever if it was told none; inserts, polls, deletions and clears are interleaved statement by statement |
| `Wakeups.SleepIsSafe` | migrations/20220208120856_fix_concurrent_poll.up.sql:47-60 | the same, for all runs without commits, without checkpoints of exhausted messages and with every promotion announced |
| `Announcements.AnnouncedSleepIsSafe` | migrations/20220208120856_fix_concurrent_poll.up.sql:47-60 | the same by what each caller can check when it calls: deletions covered by their heads, clears only of channels without ordered messages |
| `Sleeping.IdleIsSafe` | src/runner.rs:472-498 | loop, jobs, notifications and all clients interleaved: a loop that idles after an empty poll, with no wake-up stored and no notification on its way, has no subscribed message ready before the wait it was told is over, if no head was hastened in silence meanwhile |
| `Sleeping.TellsTheWait` | src/runner.rs:472-498 | a round that finds nothing does lead there, with the deadline the query reported |
| `Announcements.DeleteAnnouncesIff` | migrations/20210316025847_setup.up.sql:231-247 | `mq_delete` looks for heads in one statement and deletes in another: it notifies the channel of every message it promotes, whatever any client does in between, iff its messages have all been inserted when it looks, and in each channel name with an ordered one it finds a head among them |
| `Announcements.AnnouncesIff` | migrations/20210316025847_setup.up.sql:231-247 | the same for any pending deletion or clear: it announces its promotions in every run iff it is going to notify each channel with an ordered message of its own |
| `Announcements.SilentRun` | migrations/20210316025847_setup.up.sql:231-247 | otherwise a run leads to a promotion in silence |
| `Announcements.HeadsAreCovered` | migrations/20210316025847_setup.up.sql:234-244 | deleting heads, or messages that are gone, meets the condition |
| `Announcements.DeliveredAreCovered` | src/runner.rs:412-424 | the runner deletes only what a poll delivered to it, so all its deletions are announced, however long after the poll |
| `Announcements.UninterruptedAnnounces` | migrations/20210316025847_setup.up.sql:234-244 | so is a deletion with nothing between its two statements |
| `Announcements.ClearPromotesOnlyNew` | migrations/20220713122907_fix-clear_all-keep-nil-message.up.sql:1-26 | a clear notifies nobody, and promotes only what was inserted after its snapshot |
| `Traps.StaleNoticeIsMissed` | migrations/20210316025847_setup.up.sql:234-244 | a reachable run in which a runner told to wait for a message, for any time, sleeps through the one behind it, which a deletion promotes in silence |
| `Traps.ClearIsSilent` | migrations/20220713122907_fix-clear_all-keep-nil-message.up.sql:1-26 | the same of a clear |
| `Traps.CommitIsSilent` | migrations/20210316025847_setup.up.sql:216-226 | a commit that makes a message ready at once and notifies nobody |
| `Histories.RowHistory` | migrations/20210316025847_setup.up.sql:186-288 | over any run, the row of a surviving message is the result of its own events, each delivery of it being due |
| `Effects.PollEffect` | migrations/20220208120856_fix_concurrent_poll.up.sql:14-37 | a candidate still there and due, committed or not, loses an attempt, doubles its backoff and is scheduled after the one it had, or not at all after its last attempt; all else stays |
| `Effects.BeginPollEffect` | migrations/20220208120856_fix_concurrent_poll.up.sql:18-36 | the query of a poll changes nothing and remembers each candidate with the payload it found |
| `Effects.CommitEffect` | migrations/20210316025847_setup.up.sql:216-226 | a commit takes the interval off the schedule of the reservations it names; all else stays |
| `Effects.KeepAliveEffect` | migrations/20210316025847_setup.up.sql:254-262 | what is scheduled before the deadline moves to it, and a commit interval grows by as much; all else stays |
| `Effects.CheckpointEffect` | migrations/20210316025847_setup.up.sql:276-287 | the schedule moves to the deadline unless later, retries are added, and what is brought replaces its part of the payload; all else stays |
| `Effects.DeleteEffect` | migrations/20210316025847_setup.up.sql:244-245 | the rows and payloads that go, and that only who waited for one of them changes, to wait for nil |
| `Effects.BeginDeleteEffect` | migrations/20210316025847_setup.up.sql:234-242 | the channels a deletion will notify are those of the heads among its messages when it looks; a clear notifies none |
| `Histories.LeaseExclusion` | migrations/20220208120856_fix_concurrent_poll.up.sql:14-37 | successive deliveries lie at least the backoff apart, and after every keep-alive and checkpoint deadline in between, for committed messages and for reservations until they are committed |
| `Histories.NotBeforeItIsDue` | migrations/20210316025847_setup.up.sql:198-262 | no first delivery before delay and commit interval are over, nor before any keep-alive or checkpoint deadline set by then, unless a commit comes first |
| `RowRuns.LeaseHolds` | migrations/20210316025847_setup.up.sql:254-280 | renewals and checkpoints extend a lease to their deadline, and only the commit of a reservation shortens one |
| `Histories.InsertedRow` | migrations/20210316025847_setup.up.sql:186-211 | a committed insert leaves each message with the schedule, attempts, backoff and channel it asks for |
| `Histories.RetryBudget` | migrations/20220208120856_fix_concurrent_poll.up.sql:16-17 | over every run from its insertion, deliveries + attempts left = retries + 1 + extra retries |
| `Histories.WithinBudget` | migrations/20220208120856_fix_concurrent_poll.up.sql:16-17 | if each checkpoint leaves an attempt, attempts is never negative, attempt_at is NULL iff it is 0, and deliveries stay within what was granted |
| `RowRuns.StaysInBudget` | migrations/20220208120856_fix_concurrent_poll.up.sql:16-17 | the same for one row from any state in budget |
| `RowRuns.CheckpointKeepsBudgetIff` | migrations/20210316025847_setup.up.sql:276-280 | a checkpoint keeps a row in budget iff it leaves it an attempt |
| `Traps.RevivalOverdrawsBudget` | migrations/20210316025847_setup.up.sql:276-280 | a reachable queue in which a message whose only attempt is out is checkpointed without extra retries; from there, for every n, a run of polls delivers it n more times and leaves attempts at -n |
| `Histories.DrainingEnds` | migrations/20220208120856_fix_concurrent_poll.up.sql:14-37 | after any run whose checkpoints leave an attempt, any interleaving of polls spends one attempt per delivery, so it delivers at most as often as attempts were left |
| `Histories.RunStaysInBudget` | migrations/20220208120856_fix_concurrent_poll.up.sql:16-17 | over every run whose checkpoints leave an attempt, all messages stay in budget |
| `Histories.DeliveriesBackOff` | migrations/20220208120856_fix_concurrent_poll.up.sql:16-18 | backoff b * 2^k, and delivery k at least b * (2^k - 1) after the first, for a message committed before its first delivery and never revived |
| `RowRuns.ExponentialBackoff` | migrations/20220208120856_fix_concurrent_poll.up.sql:16-18 | the same for a row committed before its first delivery |
| `Histories.TwoPhaseCommit` | migrations/20210316025847_setup.up.sql:198-226 | reserve, keep alive, commit gives the schedule of a plain insert |
| `Reservations.CommittedIsLostIff` | src/runner.rs:412-424 | a committed message can still be deleted by a runner as an expired reservation, in some run, iff a poll had delivered it before it was committed |
| `Losses.CommittedIsLost` | migrations/20210316025847_setup.up.sql:216-226 | a reachable run in which a commit goes through and leaves the message an attempt, and a runner can still delete it |
| `RowRuns.CommitRestoresSchedule` | migrations/20210316025847_setup.up.sql:216-262 | the same for one row |
| `RowRuns.CheckpointKeepsScheduleIff` | migrations/20210316025847_setup.up.sql:276-280 | a checkpoint of a reservation keeps that schedule iff it does not move the deadline |
| `Histories.PayloadHistory` | migrations/20210316025847_setup.up.sql:282-287 | JSON and bytes of a payload are each the last that a checkpoint brought, and the name stays |
| `Renewals.KeepJobAlive` | src/runner.rs:500-514 | the loop renews its own row at the times and to the deadlines of the schedule, up to the first error |
| `Renewals.LeaseNeverLapses` | src/runner.rs:500-514 | if every renewal is late by less than half the current interval, each beats the deadline in force, for every k |
| `Renewals.RenewalInTimeIff` | src/runner.rs:500-514 | and that bound is exact |
| `Renewals.RenewalTimes` | src/runner.rs:500-514 | renewal times and deadlines in closed form |
| `Renewals.RenewalsSetDeadline` | migrations/20210316025847_setup.up.sql:254-262 | the deadline in force is the one in the table |
| `Handles.AtMostOneCompletes` | src/runner.rs:122-149 | over every run in which each renewal writes less than half its interval late and nobody revives an exhausted message under a lease, no two held and no two completed deliveries are of one message |
| `Handles.NotDeliveredWhileHeld` | src/runner.rs:500-514 | in those runs, while a handle is held, no poll delivers its message |
| `Handles.DeliverEffect` | src/runner.rs:435-463 | a poll puts exactly the committed messages it delivers in hand, each under the lease just taken |
| `Handles.RenewEffect` | src/runner.rs:500-514 | a renewal is a keep-alive of the job's own message at the time of the schedule, for b * 2^k |
| `Handles.CompleteEffect` | src/runner.rs:122-149 | to complete a job deletes just its message |
| `Handles.RunKeepsExclusive` | src/runner.rs:122-149 | the invariant behind the two before, in every state of those runs |
| `Handles.CoveredUntilRenewal` | src/runner.rs:500-514 | prompt renewals leave no gap: all that comes before the next renewal falls under the lease in force |
| `Lapses.LateRenewalCompletesTwice` | src/runner.rs:500-514 | promptness is needed of every renewal: whatever the backoff and the renewals before, if one writes half its interval late or more, a run completes two deliveries of one message |
| `Lapses.RevivalCompletesTwice` | migrations/20210316025847_setup.up.sql:276-280 | so is the other assumption: with all renewals on time, a checkpoint of an exhausted job for no time lets two deliveries of its message complete |
| `Handles.CompletingCommits` | src/runner.rs:122-149 | in every run, even with lapsed leases, completing a job in hand never fails on a constraint |
| `Handles.RunKeepsHeads` | src/runner.rs:122-149 | the invariant behind it: what is in hand is a head, or gone |
| `Runner.NoMissedWakeup` | src/runner.rs:208-216 | in every interleaving and for all options, a loop waiting at capacity with fewer jobs than the minimum has a wake-up stored or coming |
| `Runner.JobSteps` | src/runner.rs:208-216 | exactly the drop that finds the count at the minimum goes on to store a wake-up |
| `Runner.LoopSteps` | src/runner.rs:476-497 | when the loop polls, for how many, and that a stored wake-up wakes it once |
| `Runner.NeverOverCapacity` | src/runner.rs:472-483 | the counter is the number of jobs in hand and at most the maximum; neither it nor the batch size underflows |
| `Runner.ExecutionKeepsBounds` | src/runner.rs:435-496 | the invariant behind it |
| `Runner.MaximumMustFit` | src/runner.rs:478-478 | the first poll asks for as many jobs as the maximum iff that fits the batch type |
| `Runner.AsI32Means` | src/runner.rs:478-478 | the cast of the batch size keeps what is below 2^31 and makes the rest negative |
| `Dispatching.AnswerIsUsed` | src/runner.rs:412-467 | of the delivered messages the committed ones with a payload are dispatched, the uncommitted ones put up for deletion, and nothing else is |
| `Dispatching.NothingSkipped` | src/runner.rs:412-467 | with callers that delete only what has been inserted, each delivered message is one of these |
| `Dispatching.JobsCarryTheirPayload` | migrations/20220208120856_fix_concurrent_poll.up.sql:14-45 | a job comes with the name and contents its message had when the poll chose it, whatever is checkpointed before the poll writes |
| `Dispatching.ReservationsCanGo` | src/runner.rs:412-424 | the deletion ahead of dispatch cannot fail on a constraint, whatever happens before it writes, so the jobs of the answer are not lost to it |
| `Dispatching.LoopsStartFromTheLease` | src/runner.rs:446-452 | a renewal loop starts for exactly the dispatched messages, from the backoff they have just been leased for |
| `Dispatching.JobRunner.PollAndDispatch` | src/runner.rs:399-470 | which ids are deleted, which jobs are dispatched and counted, which renewal loops start and from what interval, how long to wait, and that a failed deletion dispatches nothing |
| `Dispatching.JobRunner.LeastWait` | src/runner.rs:426-433 | the shortest wait asked for, 60 s if none is |
| `Dispatching.EmptyAnswerAsksToWait` | src/runner.rs:426-433 | after an empty answer the wait is until the first scheduled head, or 60 s if there is none |
| `Dispatching.LeastWaitMeans` | src/runner.rs:426-433 | the shortest wait asked for, not below zero, or 60 s |
| `Dispatching.OneByOne` | src/runner.rs:435-463 | each message in turn becomes a job, a renewal loop or a deletion by its columns |
| `Dispatching.JobRunner.DropJob` | src/runner.rs:208-216 | falling below the minimum stores a wake-up |
| `Dispatching.MainLoop` | src/runner.rs:472-498 | a round polls iff fewer jobs than the minimum are running, for as many as there is room for; the wait is 60 s when full, 50 ms doubled per failure in a row, else what the answer asks for |
| `Dispatching.BatchIsWhatLoadAsksFor` | src/runner.rs:476-479 | the round and the interleaved loop of `Runner` decide the same |
| `Dispatching.FailuresInARow` | src/runner.rs:480-490 | a failed poll adds to the row, a successful one ends it, and a round without a poll does neither |
| `Dispatching.JobsOfRounds` | src/runner.rs:480-482 | jobs are dispatched round by round, and only in rounds that poll |
| `Tables.MqTables.constructor` | migrations/20210316025847_setup.up.sql:30-44 | the migrated table: nil row, empty lines |
| `Tables.MqTables.LatestMessage` | migrations/20211013151757_fix_mq_latest_message.up.sql:3-18 | the scan returns the tail |
| `Tables.MqTables.ReadTails` | migrations/20210316025847_setup.up.sql:206-207 | the tails of all channels of a batch |
| `Tables.MqTables.Insert` | migrations/20210316025847_setup.up.sql:163-213 | commits iff no id is twice in the batch or taken; new rows, payloads, lines and notices |
| `Tables.MqTables.Commit` | migrations/20210316025847_setup.up.sql:216-226 | the new state; lines stay |
| `Tables.MqTables.KeepAlive` | migrations/20210316025847_setup.up.sql:254-262 | each scheduled row it names is leased to the deadline at least, and a reservation keeps the time it would be due at once committed; lines stay |
| `Tables.MqTables.Checkpoint` | migrations/20210316025847_setup.up.sql:268-288 | the parts of the payload it brings replace the old, retries are added, and the row is leased to the deadline at least; lines stay |
| `Tables.MqTables.SetDefaults` | migrations/20210316025847_setup.up.sql:40-59 | the row-by-row trigger gives the promotion of all rows at once, or a collision |
| `Tables.MqTables.Delete` | migrations/20210316025847_setup.up.sql:231-247 | commits iff the rest of every line is contiguous (or, with nil, iff no ordered message is left); the kept segments, payloads and notices |
| `Tables.MqTables.Poll` | migrations/20220208120856_fix_concurrent_poll.up.sql:14-45 | min(batch, ready) ready rows, of the channels asked for only, leased and returned with payload, commit flag and the backoff before doubling |
| `Tables.MqTables.LeaseRows` | migrations/20220208120856_fix_concurrent_poll.up.sql:14-45 | the UPDATE and its RETURNING: exactly the candidates still there and due are leased and returned |
| `Tables.MqTables.TimeToWait` | migrations/20220208120856_fix_concurrent_poll.up.sql:47-60 | the wait of an empty poll |
| `Tables.MqTables.Clear` | migrations/20220713122907_fix-clear_all-keep-nil-message.up.sql:1-11 | rows, payloads and lines of the named channels go, the rest stays |
| `Tables.MqTables.ClearAll` | migrations/20220713122907_fix-clear_all-keep-nil-message.up.sql:17-26 | only the nil row stays |

## Left out

- sqlx, tokio, connection pools, PgListener and error transport: used only through atomic commit or
  abort, a stored notify permit, and notifications that arrive on commit.
- Builders, registry, macros, the stress program, the example and the down migrations: field
  setting, a map lookup and code generation, which would only add easy members.
- Several calls in one explicit transaction: each SQL function is a transaction of its own. A row an
  open transaction has written blocks whoever would conflict with it until it ends, so for one call
  the write is the point that counts.
- The two UPDATEs of `mq_checkpoint` as separate steps: they differ only for a message that is
  inserted between them, and nothing is claimed about checkpoints of what has not been inserted.
- The limit that `pg_notify` puts on a channel name: an insert aborts if it is longer than 60 bytes.
- The violation that is reported first when several apply: an aborted insert carries all of them.
- NULL among the fields of a new message that the Rust API always binds, and negative intervals.
- Calendar units of intervals, `to_duration` of days and months, integer casts other than that of the
  batch size, and the shift overflow of the error backoff: numbers are unbounded.
- Sleeps of half a microsecond: half of an odd interval is rounded down.
- Fairness of `ORDER BY RANDOM()`: it is an arbitrary choice.
- Deadlocks and lock scheduling inside PostgreSQL, and the order of rows in an answer.
- Payload contents beyond being replaced as a whole.
- Stopping the keep-alive task of a completed job: its renewals then find no row.
- Renewals.KeepJobAlive: nobody else writes while the loop runs; `Handles` has the renewals of all
  jobs interleaved with everything else.
- Renewals.RenewalsSetDeadline: only for a row that nothing but the renewals touches; what others do
  to it is in `RowRuns.LeaseHolds`.
- Dispatching.JobRunner.DropJob: no other task comes between its two steps; the interleaving is that
  of `Runner`.
- Dispatching.MainLoop: the count each round loads and the answer of each poll are given, since other
  tasks change the one and the database decides the other; the interleaving is that of `Runner` and
  `Sleeping`.
- Tables.MqTables.Insert: nobody writes between the tails it reads and its checks; `Runs` has the
  general case.
- Tables.MqTables.Delete: nobody writes between its look for heads and its two DELETEs; `Runs` has
  the general case.
- Tables.MqTables.Poll: the choice of candidates, which the query makes at random, is given, and
  nobody writes between the query and the update; `Runs` has the general case. The wait that an empty
  poll reports is `Tables.MqTables.TimeToWait`.
