/** The two tables of the queue, the constraints PostgreSQL enforces on them, and the
    errors it reports when a statement would break one.

    UUIDs are their numeric value, so `uuid_nil()` is 0 and the UUID order is the order of
    the numbers.  Times and intervals are microseconds.  SQL's NULL is `None`. */
module Schema {

  datatype Option<+T> = None | Some(value: T)

  type Id = nat

  const NIL: Id := 0

  datatype Channel = Channel(name: string, args: string)

  /** A row of `mq_msgs` without its key. */
  datatype Msg = Msg(
    createdAt: int,
    attemptAt: Option<int>,
    attempts: int,
    backoff: int,
    channel: Channel,
    commitInterval: Option<int>,
    after: Option<Id>)

  /** A row of `mq_payloads` without its key. */
  datatype Payload = Payload(name: string, json: Option<string>, bytes: Option<seq<bv8>>)

  type Msgs = map<Id, Msg>

  datatype Db = Db(msgs: Msgs, payloads: map<Id, Payload>)

  /** One element of the array passed to `mq_insert`.  Delays, intervals and retry counts
      come from unsigned Rust types. */
  datatype NewMsg = NewMsg(
    id: Id,
    delay: nat,
    retries: nat,
    backoff: nat,
    channel: Channel,
    commitInterval: Option<nat>,
    ordered: bool,
    payload: Payload)

  // `mq_uuid_exists`
  predicate UuidExists(id: Option<Id>) {
    id.Some? && id.value != NIL
  }

  /** A message nothing has to be processed before: unordered, or first of its channel. */
  predicate IsHead(m: Msg) {
    !UuidExists(m.after)
  }

  // The unique index on (channel_name, channel_args, after_message_id); NULLs never collide.
  predicate OrderIndexHolds(msgs: Msgs) {
    forall a, b | a in msgs && b in msgs && a != b && msgs[a].after.Some? && msgs[a].channel == msgs[b].channel ::
      msgs[a].after != msgs[b].after
  }

  // The foreign key from after_message_id to id.
  predicate ForeignKeyHolds(msgs: Msgs) {
    forall a | a in msgs && msgs[a].after.Some? :: msgs[a].after.value in msgs
  }

  datatype Violation = MsgKey | PayloadKey | OrderIndex | OrderForeignKey
  {
    function Code(): string {
      if this == OrderForeignKey then "23503" else "23505"
    }

    function Constraint(): string {
      match this
      case MsgKey => "mq_msgs_pkey"
      case PayloadKey => "mq_payloads_pkey"
      case OrderIndex => "mq_msgs_channel_name_channel_args_after_message_id_idx"
      case OrderForeignKey => "mq_msgs_after_message_id_fkey"
    }
  }

  // `should_retry` on a database error; any other kind of error is not retried.
  predicate ShouldRetry(code: Option<string>, constraint: Option<string>) {
    match (code, constraint)
    case (Some("23503"), Some("mq_msgs_after_message_id_fkey")) => true
    case (Some("23505"), Some("mq_msgs_channel_name_channel_args_after_message_id_idx")) => true
    case (Some("40001"), _) => true
    case (Some("40P01"), _) => true
    case _ => false
  }

  /** What a transaction did: it installed a new state, or it changed nothing and reported
      one of `violations`. */
  datatype Outcome = Committed(db: Db) | Aborted(violations: set<Violation>)
}
