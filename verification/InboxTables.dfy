/**
 * The tables behind the durable Telegram inbox and every statement the store
 * runs on them, each as one atomic function from tables to tables.
 *
 * One stream key is fixed. Times and durations are integers (milliseconds) and
 * are always passed in. Text columns that only carry diagnostics
 * (`last_error`, `updated_at` of an inbox row) are not modelled.
 */
module InboxTables {
  import opened Numbers
  import opened Options
  import opened Sets

  datatype Lane = Ledger | Bypass | Unknown(name: string)

  datatype Status = Pending | Processing | Retry | Done | Dead

  /** One row of `telegram_update_inbox`. */
  datatype Row = Row(
    lane: Lane, route: string, payload: string,
    status: Status, attempts: nat, nextAttemptAt: int,
    leaseOwner: string, leaseUntil: Option<int>, leaseReclaims: nat,
    handledAt: Option<int>, createdAt: int, doneAt: Option<int>)

  type Rows = map<int, Row>

  datatype Incoming = Incoming(id: int, payload: string, lane: Lane, route: string)

  /** One row of `telegram_private_route_states`. */
  datatype StateRow = StateRow(json: string, hasState: bool, version: int, updatedAt: int)

  datatype ReplyInput = ReplyInput(
    dedupe: string, actor: int, sourceChat: int, sourceMessage: int,
    targetChat: int, targetMessage: int)

  /** The statuses 'pending', 'processing', 'retry', 'sent', 'cancelled' and
      'dead' of `telegram_quick_reply_outbox`. */
  datatype Delivery = Waiting | Sending | Backoff | Sent | Cancelled | Dropped

  /** One row of `telegram_quick_reply_outbox`. */
  datatype Reply = Reply(
    update: int, input: ReplyInput, stateVersion: int,
    status: Delivery, attempts: nat, nextAttemptAt: int,
    leaseOwner: string, leaseUntil: Option<int>, completedAt: Option<int>)

  type Replies = map<int, Reply>

  datatype Db = Db(
    offset: int, rows: Rows, processed: set<int>,
    states: map<int, StateRow>, replies: Replies, nextReply: int)

  const MINUTE := 60_000

  const EmptyDb := Db(0, map[], {}, map[], map[], 1)

  /** Go's repeated "if the limit is below one, use one". */
  function AtLeastOne(n: int): nat { if n < 1 then 1 else n }

  function LeaseOrMinute(lease: int): int { if lease <= 0 then MINUTE else lease }

  // ---------------------------------------------------------------- persisting

  predicate Complete(u: Incoming) {
    u.id >= 0 && u.payload != "" && !u.lane.Unknown? && u.route != ""
  }

  function NextOffset(updates: seq<Incoming>, offset: int): int {
    if updates == [] then offset
    else Max(NextOffset(updates[..|updates| - 1], offset), updates[|updates| - 1].id + 1)
  }

  function NewRow(u: Incoming, processed: set<int>, now: int): Row {
    Row(u.lane, u.route, u.payload, if u.id in processed then Done else Pending, 0, now,
        "", None, 0, None, now, if u.id in processed then Some(now) else None)
  }

  /** `INSERT … ON CONFLICT DO NOTHING`: the first row with an id stays. */
  function InsertAll(rows: Rows, updates: seq<Incoming>, processed: set<int>, now: int): Rows {
    if updates == [] then rows
    else
      var before := InsertAll(rows, updates[..|updates| - 1], processed, now);
      var u := updates[|updates| - 1];
      if u.id in before then before else before[u.id := NewRow(u, processed, now)]
  }

  function Persist(db: Db, updates: seq<Incoming>, now: int): Option<Db> {
    if forall i :: 0 <= i < |updates| ==> Complete(updates[i]) then
      Some(db.(offset := NextOffset(updates, db.offset),
               rows := InsertAll(db.rows, updates, db.processed, now)))
    else None
  }

  // ------------------------------------------------------------------ claiming

  predicate Terminal(s: Status) { s == Done || s == Dead }

  predicate LeaseExpired(r: Row, now: int) {
    r.status == Processing && r.leaseUntil.Some? && r.leaseUntil.value <= now
  }

  predicate LeaseHeld(r: Row, owner: string, now: int) {
    r.status == Processing && r.leaseOwner == owner && r.leaseUntil.Some? && r.leaseUntil.value > now
  }

  predicate Exhausted(r: Row, lane: Lane, maxAttempts: nat, now: int) {
    r.lane == lane && LeaseExpired(r, now) && r.attempts >= maxAttempts
  }

  function Kill(r: Row): Row { r.(status := Dead, leaseOwner := "", leaseUntil := None) }

  function ExpireExhausted(rows: Rows, lane: Lane, maxAttempts: nat, now: int): Rows {
    map id | id in rows ::
      if Exhausted(rows[id], lane, maxAttempts, now) then Kill(rows[id]) else rows[id]
  }

  /** No earlier row of the same lane and route is still open. */
  predicate HeadOfRoute(rows: Rows, id: int)
    requires id in rows
  {
    forall e :: e in rows && e < id && rows[e].lane == rows[id].lane && rows[e].route == rows[id].route
      ==> Terminal(rows[e].status)
  }

  predicate Due(r: Row, now: int) {
    ((r.status == Pending || r.status == Retry) && r.nextAttemptAt <= now) || LeaseExpired(r, now)
  }

  predicate Candidate(rows: Rows, id: int, lane: Lane, maxAttempts: nat, now: int)
    requires id in rows
  {
    rows[id].lane == lane && rows[id].attempts < maxAttempts && Due(rows[id], now) &&
    (lane == Ledger ==> HeadOfRoute(rows, id))
  }

  function Candidates(rows: Rows, lane: Lane, maxAttempts: nat, now: int): set<int> {
    set id | id in rows && Candidate(rows, id, lane, maxAttempts, now)
  }

  function ClaimedRow(r: Row, owner: string, lease: int, now: int): Row {
    r.(status := Processing, attempts := r.attempts + 1, leaseOwner := owner,
       leaseUntil := Some(now + lease),
       leaseReclaims := r.leaseReclaims + if r.status == Processing then 1 else 0)
  }

  function ClaimBatch(rows: Rows, batch: set<int>, owner: string, lease: int, now: int): Rows {
    map id | id in rows ::
      if id in batch then ClaimedRow(rows[id], owner, lease, now) else rows[id]
  }

  /** The ids one claim takes when the rows in `locked` are skipped:
      `ORDER BY update_id … SKIP LOCKED LIMIT n`. */
  ghost function Batch(rows: Rows, lane: Lane, limit: int, maxAttempts: nat, now: int, locked: set<int>): set<int> {
    Lowest(Candidates(rows, lane, maxAttempts, now) - locked, AtLeastOne(limit))
  }

  // ------------------------------------------------- one-row updates of the inbox

  function MarkHandled(rows: Rows, id: int, owner: string, now: int): Rows {
    if id in rows && LeaseHeld(rows[id], owner, now) then rows[id := rows[id].(handledAt := Some(now))] else rows
  }

  function Renew(rows: Rows, id: int, owner: string, lease: int, now: int): Rows {
    if id in rows && LeaseHeld(rows[id], owner, now)
    then rows[id := rows[id].(leaseUntil := Some(now + LeaseOrMinute(lease)))] else rows
  }

  predicate CanFinish(rows: Rows, id: int, owner: string, now: int) {
    id in rows && LeaseHeld(rows[id], owner, now) && rows[id].handledAt.Some?
  }

  function Finish(rows: Rows, id: int, owner: string, now: int): Rows {
    if CanFinish(rows, id, owner, now)
    then rows[id := rows[id].(status := Done, leaseOwner := "", leaseUntil := None, doneAt := Some(now))]
    else rows
  }

  function RetriedRow(r: Row, maxAttempts: int, retryAt: int): Row {
    if r.attempts >= maxAttempts then Kill(r)
    else r.(status := Retry, nextAttemptAt := retryAt, leaseOwner := "", leaseUntil := None)
  }

  function RetryLater(rows: Rows, id: int, owner: string, maxAttempts: int, retryAt: int, now: int): Rows {
    if id in rows && LeaseHeld(rows[id], owner, now)
    then rows[id := RetriedRow(rows[id], maxAttempts, retryAt)] else rows
  }

  function CleanupDone(rows: Rows, ids: set<int>, cutoff: int): Rows {
    map id | id in rows &&
             !(id in ids && rows[id].status == Done && rows[id].doneAt.Some? && rows[id].doneAt.value < cutoff)
      :: rows[id]
  }

  // ---------------------------------------------------- the private-state commit

  datatype CommitResult = Committed | Refused | LeaseLost | Incomplete | ReplyConflict

  predicate CompleteReply(input: ReplyInput) {
    input.dedupe != "" && input.actor > 0 && input.sourceChat != 0 && input.sourceMessage > 0 &&
    input.targetChat != 0 && input.targetMessage > 0
  }

  predicate Conflicting(replies: Replies, update: int, input: ReplyInput) {
    exists q :: q in replies && (replies[q].input.dedupe == input.dedupe || replies[q].update == update)
  }

  /** The row a conflicting insert is compared with: a row with the same dedupe
      key if there is one, else the row of the same update. */
  predicate SameDelivery(replies: Replies, update: int, input: ReplyInput) {
    if exists q :: q in replies && replies[q].input.dedupe == input.dedupe then
      forall q :: q in replies && replies[q].input.dedupe == input.dedupe ==>
        replies[q].update == update && replies[q].stateVersion == update && replies[q].input == input
    else
      forall q :: q in replies && replies[q].update == update ==>
        replies[q].stateVersion == update && replies[q].input == input
  }

  function NewReply(update: int, input: ReplyInput, now: int): Reply {
    Reply(update, input, update, Waiting, 0, now, "", None, None)
  }

  /** `insertQuickReplyOutboxTx`; `None` is the error that aborts the transaction. */
  function InsertReply(db: Db, update: int, input: ReplyInput, now: int): Option<Db> {
    if !CompleteReply(input) then None
    else if !Conflicting(db.replies, update, input) then
      Some(db.(replies := db.replies[db.nextReply := NewReply(update, input, now)], nextReply := db.nextReply + 1))
    else if SameDelivery(db.replies, update, input) then Some(db)
    else None
  }

  function Version(states: map<int, StateRow>, user: int): int {
    if user in states then states[user].version else -1
  }

  /** `CommitTelegramPrivateStateHandledAndQuickReply`. */
  function CommitPrivateState(db: Db, id: int, owner: string, user: int, expected: int,
                              json: string, hasState: bool, reply: Option<ReplyInput>, now: int)
    : (Db, CommitResult)
  {
    if id < 0 || owner == "" || user <= 0 || id <= expected then (db, Incomplete)
    else if id !in db.rows then (db, LeaseLost)
    else if db.rows[id].handledAt.Some? then (db, Refused)
    else if !LeaseHeld(db.rows[id], owner, now) then (db, LeaseLost)
    else if Version(db.states, user) != expected || id <= Version(db.states, user) then (db, Refused)
    else
      var stored := if json == "" then "{}" else json;
      var withState := db.(states := db.states[user := StateRow(stored, hasState, id, now)]);
      var withReply := if reply.None? then Some(withState) else InsertReply(withState, id, reply.value, now);
      if withReply.None? then (db, ReplyConflict)
      else (withReply.value.(rows := db.rows[id := db.rows[id].(handledAt := Some(now))]), Committed)
  }

  // -------------------------------------------------------- quick-reply delivery

  predicate Closed(s: Delivery) { s == Sent || s == Cancelled || s == Dropped }

  predicate ReplyExpired(q: Reply, now: int) {
    q.status == Sending && q.leaseUntil.Some? && q.leaseUntil.value <= now
  }

  predicate ReplyHeld(q: Reply, owner: string, now: int) {
    q.status == Sending && q.leaseOwner == owner && q.leaseUntil.Some? && q.leaseUntil.value > now
  }

  function CloseReply(q: Reply, status: Delivery, now: int): Reply {
    q.(status := status, leaseOwner := "", leaseUntil := None, completedAt := Some(now))
  }

  function ExpireReplies(replies: Replies, maxAttempts: nat, now: int): Replies {
    map q | q in replies ::
      if ReplyExpired(replies[q], now) && replies[q].attempts >= maxAttempts
      then CloseReply(replies[q], Dropped, now) else replies[q]
  }

  predicate HeadOfActor(replies: Replies, id: int)
    requires id in replies
  {
    forall e :: e in replies && e < id && replies[e].input.actor == replies[id].input.actor ==> Closed(replies[e].status)
  }

  predicate ReplyCandidate(replies: Replies, id: int, maxAttempts: nat, now: int)
    requires id in replies
  {
    var q := replies[id];
    q.attempts < maxAttempts && HeadOfActor(replies, id) &&
    (((q.status == Waiting || q.status == Backoff) && q.nextAttemptAt <= now) || ReplyExpired(q, now))
  }

  function ReplyCandidates(replies: Replies, maxAttempts: nat, now: int): set<int> {
    set q | q in replies && ReplyCandidate(replies, q, maxAttempts, now)
  }

  function SendingReply(q: Reply, owner: string, lease: int, now: int): Reply {
    q.(status := Sending, attempts := q.attempts + 1, leaseOwner := owner, leaseUntil := Some(now + lease))
  }

  function ClaimReplies(replies: Replies, batch: set<int>, owner: string, lease: int, now: int): Replies {
    map q | q in replies :: if q in batch then SendingReply(replies[q], owner, lease, now) else replies[q]
  }

  function RenewReply(replies: Replies, q: int, owner: string, lease: int, now: int): Replies {
    if q in replies && ReplyHeld(replies[q], owner, now)
    then replies[q := replies[q].(leaseUntil := Some(now + LeaseOrMinute(lease)))] else replies
  }

  /** `MarkQuickReplyOutboxSent`, `MarkQuickReplyOutboxDead` and the last
      statement of the cancellation. */
  function EndReply(replies: Replies, q: int, owner: string, status: Delivery, now: int): Replies {
    if q in replies && ReplyHeld(replies[q], owner, now)
    then replies[q := CloseReply(replies[q], status, now)] else replies
  }

  function RetryReply(replies: Replies, q: int, owner: string, maxAttempts: int, retryAt: int, now: int): Replies {
    if q in replies && ReplyHeld(replies[q], owner, now) then
      if replies[q].attempts >= AtLeastOne(maxAttempts) then replies[q := CloseReply(replies[q], Dropped, now)]
      else replies[q := replies[q].(status := Backoff, nextAttemptAt := retryAt, leaseOwner := "",
                                    leaseUntil := None, completedAt := None)]
    else replies
  }

  function ClearedState(s: StateRow, now: int): StateRow { s.(json := "{}", hasState := false, updatedAt := now) }

  /** Whether cancelling reply `q` also clears its actor's stored state. */
  predicate Clears(db: Db, q: int, owner: string, now: int) {
    q in db.replies && ReplyHeld(db.replies[q], owner, now) &&
    db.replies[q].input.actor in db.states &&
    db.states[db.replies[q].input.actor].version == db.replies[q].stateVersion
  }

  /** `CancelQuickReplyOutboxRevoked`. */
  function CancelReply(db: Db, q: int, owner: string, now: int): Db {
    var states :=
      if Clears(db, q, owner, now) then
        var actor := db.replies[q].input.actor;
        db.states[actor := ClearedState(db.states[actor], now)]
      else db.states;
    db.(states := states, replies := EndReply(db.replies, q, owner, Cancelled, now))
  }

  function CleanupReplies(replies: Replies, ids: set<int>, cutoff: int): Replies {
    map q | q in replies &&
            !(q in ids && Closed(replies[q].status) && replies[q].completedAt.Some? && replies[q].completedAt.value < cutoff)
      :: replies[q]
  }
}
