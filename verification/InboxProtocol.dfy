/**
 * Any number of workers running the inbox protocol against the store.
 *
 * A run is a list of events, each one statement of the store or one read of a
 * user's stored state by a worker. Workers crash by never being heard of
 * again, and a late worker is an old read that commits at any later time, so
 * no event depends on which worker issues it: owners, clocks and the choice of
 * what to do next are arbitrary. The only thing a commit is tied to is the
 * read it was computed from.
 */
module InboxProtocol {
  import opened Options
  import opened Sets
  import opened InboxTables

  /** What executing an update gives: an error, or the private state it leaves
      (none: deleted) and the quick reply it staged. */
  datatype Handling = Failed | Handled(state: Option<string>, reply: Option<ReplyInput>)

  /** `handle` maps the restored state, the payload, and everything else the
      handler observes, to its outcome. */
  datatype Config = Config(
    userOf: string -> int, legacyOf: string -> Option<string>,
    handle: (Option<string>, string, string) -> Handling,
    maxAttempts: nat, maxSends: nat)

  const PRIVATE_STATE_TTL := 30 * MINUTE

  /** One read of a user's stored state, made before handling update `id`. */
  datatype Read = Read(
    id: int, user: int, payload: string, base: Option<StateRow>, seen: nat,
    readAt: int, broadcast: Option<string>, observed: string)

  /** The committed history of one user: updates folded into the state, each
      with the length of the history its worker had read, and revoke clears. */
  datatype Item =
    | Folded(id: int, payload: string, seen: nat, readAt: int,
             broadcast: Option<string>, observed: string, commitAt: int)
    | Cleared(at: int)

  type Log = seq<Item>

  datatype World = World(db: Db, snapshots: seq<Read>, logs: map<int, Log>, claims: map<int, nat>)

  datatype Event =
    | Deliver(updates: seq<Incoming>, now: int)
    | Expire(lane: Lane, now: int)
    | Claim(lane: Lane, owner: string, limit: int, lease: int, now: int, locked: set<int>)
    | ReadState(id: int, broadcast: Option<string>, observed: string, now: int)
    | CommitRead(read: nat, owner: string, now: int)
    | HandledPublic(id: int, owner: string, now: int)
    | RenewLease(id: int, owner: string, lease: int, now: int)
    | FinishUpdate(id: int, owner: string, now: int)
    | FailUpdate(id: int, owner: string, retryAt: int, now: int)
    | Cleanup(ids: set<int>, cutoff: int)
    | ExpireSends(now: int)
    | ClaimSends(owner: string, limit: int, lease: int, now: int, locked: set<int>)
    | RenewSend(q: int, owner: string, lease: int, now: int)
    | EndSend(q: int, owner: string, sent: bool, now: int)
    | RetrySend(q: int, owner: string, retryAt: int, now: int)
    | Revoke(q: int, owner: string, now: int)
    | CleanupSends(ids: set<int>, cutoff: int)

  ghost predicate ValidConfig(cfg: Config) { cfg.maxAttempts >= 1 && cfg.maxSends >= 1 }

  // ------------------------------------------------------------ the fold itself

  function Stored(states: map<int, StateRow>, user: int): Option<StateRow> {
    if user in states then Some(states[user]) else None
  }

  function VersionOf(base: Option<StateRow>): int { if base.Some? then base.value.version else -1 }

  /** `restoreTelegramPrivateState`: the stored state while it is fresh, else
      the state an old payload carries, else the pending broadcast target. */
  ghost function Restore(cfg: Config, base: Option<StateRow>, payload: string,
                         broadcast: Option<string>, readAt: int): Option<string>
  {
    if base.Some? && base.value.hasState && readAt - base.value.updatedAt < PRIVATE_STATE_TTL then Some(base.value.json)
    else if base.None? && cfg.legacyOf(payload).Some? then cfg.legacyOf(payload)
    else broadcast
  }

  ghost function Outcome(cfg: Config, base: Option<StateRow>, payload: string,
                         broadcast: Option<string>, readAt: int, observed: string): Handling
  {
    cfg.handle(Restore(cfg, base, payload, broadcast, readAt), payload, observed)
  }

  ghost function ItemOutcome(cfg: Config, base: Option<StateRow>, it: Item): Handling
    requires it.Folded?
  {
    Outcome(cfg, base, it.payload, it.broadcast, it.readAt, it.observed)
  }

  function StateJson(state: Option<string>): string {
    if state.Some? && state.value != "" then state.value else "{}"
  }

  /** The row a folded update leaves when its worker had read `base`. */
  ghost function After(cfg: Config, base: Option<StateRow>, it: Item): Option<StateRow>
    requires it.Folded?
  {
    match ItemOutcome(cfg, base, it)
    case Failed => None
    case Handled(state, _) => Some(StateRow(StateJson(state), state.Some?, it.id, it.commitAt))
  }

  /** The stored state a history stands for. */
  ghost function Replay(cfg: Config, log: Log): Option<StateRow>
    decreases |log|
  {
    if log == [] then None
    else
      var before := log[..|log| - 1];
      match log[|log| - 1]
      case Cleared(at) =>
        var s := Replay(cfg, before);
        if s.None? then None else Some(ClearedState(s.value, at))
      case Folded(_, _, seen, _, _, _, _) =>
        After(cfg, Replay(cfg, if seen <= |before| then before[..seen] else before), log[|log| - 1])
  }

  /** The plain left fold of the handler over a history. */
  ghost function Fold(cfg: Config, log: Log): Option<StateRow>
    requires forall i :: 0 <= i < |log| ==> log[i].Folded?
  {
    if log == [] then None
    else After(cfg, Fold(cfg, log[..|log| - 1]), log[|log| - 1])
  }

  /** The last update folded into a history, -1 before the first. */
  function LastId(log: Log): int {
    if log == [] then -1
    else if log[|log| - 1].Folded? then log[|log| - 1].id
    else LastId(log[..|log| - 1])
  }

  /** A history is linear: ids increase, and between the read behind a folded
      update and its commit nothing happened but revoke clears. */
  ghost predicate LogOk(cfg: Config, user: int, log: Log)
    decreases |log|
  {
    log == [] ||
    var before, it := log[..|log| - 1], log[|log| - 1];
    LogOk(cfg, user, before) &&
    (it.Folded? ==>
      && LastId(before) < it.id
      && cfg.userOf(it.payload) == user
      && it.seen <= |before|
      && (forall i :: it.seen <= i < |before| ==> before[i].Cleared?)
      && ItemOutcome(cfg, Replay(cfg, before[..it.seen]), it).Handled?)
  }

  function LogOf(w: World, user: int): Log { if user in w.logs then w.logs[user] else [] }

  predicate InLog(log: Log, id: int) { exists i :: 0 <= i < |log| && log[i].Folded? && log[i].id == id }

  // ------------------------------------------------------------------ the events

  ghost function ClaimStep(cfg: Config, w: World, e: Event): World
    requires e.Claim?
  {
    var batch := Batch(w.db.rows, e.lane, e.limit, cfg.maxAttempts, e.now, e.locked);
    w.(db := w.db.(rows := ClaimBatch(w.db.rows, batch, e.owner, LeaseOrMinute(e.lease), e.now)),
       claims := map id | id in w.claims.Keys + batch ::
         (if id in w.claims then w.claims[id] else 0) + (if id in batch then 1 else 0))
  }

  ghost function CommitStep(cfg: Config, w: World, e: Event): World
    requires e.CommitRead?
  {
    if e.read >= |w.snapshots| then w
    else
      var r := w.snapshots[e.read];
      match Outcome(cfg, r.base, r.payload, r.broadcast, r.readAt, r.observed)
      case Failed => w
      case Handled(state, reply) =>
        var (db, result) := CommitPrivateState(w.db, r.id, e.owner, r.user, VersionOf(r.base),
                                               StateJson(state), state.Some?, reply, e.now);
        if result == Committed then
          var it := Folded(r.id, r.payload, r.seen, r.readAt, r.broadcast, r.observed, e.now);
          w.(db := db, logs := w.logs[r.user := LogOf(w, r.user) + [it]])
        else w.(db := db)
  }

  ghost function RevokeStep(w: World, e: Event): World
    requires e.Revoke?
  {
    var db := CancelReply(w.db, e.q, e.owner, e.now);
    if Clears(w.db, e.q, e.owner, e.now) then
      var actor := w.db.replies[e.q].input.actor;
      w.(db := db, logs := w.logs[actor := LogOf(w, actor) + [Cleared(e.now)]])
    else w.(db := db)
  }

  /** Telegram only delivers updates at or above the stored offset again, or
      ones the inbox already has. */
  predicate Deliverable(db: Db, updates: seq<Incoming>) {
    forall i :: 0 <= i < |updates| ==> updates[i].id >= db.offset || updates[i].id in db.rows
  }

  ghost function RowsAfter(cfg: Config, db: Db, e: Event): Rows {
    match e
    case Expire(lane, now) => ExpireExhausted(db.rows, lane, cfg.maxAttempts, now)
    case HandledPublic(id, owner, now) =>
      if id in db.rows && cfg.userOf(db.rows[id].payload) <= 0 then MarkHandled(db.rows, id, owner, now) else db.rows
    case RenewLease(id, owner, lease, now) => Renew(db.rows, id, owner, lease, now)
    case FinishUpdate(id, owner, now) => Finish(db.rows, id, owner, now)
    case FailUpdate(id, owner, retryAt, now) => RetryLater(db.rows, id, owner, cfg.maxAttempts, retryAt, now)
    case Cleanup(ids, cutoff) => CleanupDone(db.rows, ids, cutoff)
    case _ => db.rows
  }

  ghost function RepliesAfter(cfg: Config, db: Db, e: Event): Replies {
    match e
    case ExpireSends(now) => ExpireReplies(db.replies, cfg.maxSends, now)
    case ClaimSends(owner, limit, lease, now, locked) =>
      ClaimReplies(db.replies, Lowest(ReplyCandidates(db.replies, cfg.maxSends, now) - locked, AtLeastOne(limit)),
                   owner, LeaseOrMinute(lease), now)
    case RenewSend(q, owner, lease, now) => RenewReply(db.replies, q, owner, lease, now)
    case EndSend(q, owner, sent, now) => EndReply(db.replies, q, owner, if sent then Sent else Dropped, now)
    case RetrySend(q, owner, retryAt, now) => RetryReply(db.replies, q, owner, cfg.maxSends, retryAt, now)
    case CleanupSends(ids, cutoff) => CleanupReplies(db.replies, ids, cutoff)
    case _ => db.replies
  }

  ghost function Apply(cfg: Config, w: World, e: Event): World {
    match e
    case Deliver(updates, now) =>
      var db := Persist(w.db, updates, now);
      if db.Some? && Deliverable(w.db, updates) then w.(db := db.value) else w
    case Claim(_, _, _, _, _, _) => ClaimStep(cfg, w, e)
    case ReadState(id, broadcast, observed, now) =>
      if id in w.db.rows && cfg.userOf(w.db.rows[id].payload) > 0 then
        var payload := w.db.rows[id].payload;
        var user := cfg.userOf(payload);
        var base, seen := Stored(w.db.states, user), |LogOf(w, user)|;
        w.(snapshots := w.snapshots + [Read(id, user, payload, base, seen, now, broadcast, observed)])
      else w
    case CommitRead(_, _, _) => CommitStep(cfg, w, e)
    case Revoke(_, _, _) => RevokeStep(w, e)
    case _ => w.(db := w.db.(rows := RowsAfter(cfg, w.db, e), replies := RepliesAfter(cfg, w.db, e)))
  }

  ghost function Start(legacy: set<int>): World { World(EmptyDb.(processed := legacy), [], map[], map[]) }

  ghost function Run(cfg: Config, legacy: set<int>, events: seq<Event>): World {
    if events == [] then Start(legacy)
    else Apply(cfg, Run(cfg, legacy, events[..|events| - 1]), events[|events| - 1])
  }
}
