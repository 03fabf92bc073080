/** What each statement does to one row of `mq_msgs`. */
module Rows {
  import opened Schema

  predicate Due(m: Msg, now: int) {
    m.attemptAt.Some? && m.attemptAt.value <= now
  }

  // mq_poll's UPDATE
  function Lease(m: Msg, now: int): Msg {
    m.(attemptAt := if m.attempts == 1 then None else Some(now + m.backoff),
       attempts := m.attempts - 1,
       backoff := m.backoff * 2)
  }

  // mq_commit: NULL minus an interval is NULL
  function CommitRow(m: Msg): Msg {
    if m.commitInterval.None? then m
    else m.(attemptAt := if m.attemptAt.None? then None else Some(m.attemptAt.value - m.commitInterval.value),
            commitInterval := None)
  }

  // mq_keep_alive, with deadline = NOW() + duration: a NULL attempt_at is not earlier than anything
  function RenewRow(m: Msg, deadline: int): Msg {
    if m.attemptAt.None? || m.attemptAt.value >= deadline then m
    else m.(attemptAt := Some(deadline),
            commitInterval := if m.commitInterval.None? then None
                              else Some(m.commitInterval.value + (deadline - m.attemptAt.value)))
  }

  // mq_checkpoint: GREATEST ignores NULL
  function CheckpointRow(m: Msg, deadline: int, extra: Option<int>): Msg {
    m.(attemptAt := Some(if m.attemptAt.Some? && m.attemptAt.value > deadline then m.attemptAt.value else deadline),
       attempts := m.attempts + if extra.None? then 0 else extra.value)
  }

  // ON DELETE SET DEFAULT
  function PromoteRow(m: Msg): Msg {
    m.(after := Some(NIL))
  }
}
