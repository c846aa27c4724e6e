/**
 * What a lease protects, spelled out on the columns of the tables: which
 * statement takes effect for whom, which rows a claim takes, and that while a
 * lease lasts nobody but its owner changes the row.
 */
module InboxLeases {
  import opened Options
  import opened Sets
  import opened InboxTables
  import opened InboxProtocol
  import opened InboxRoutes
  import opened InboxReplies

  /** There is no such row, or `owner` does not hold it at `now`. */
  predicate Lost(rows: Rows, id: int, owner: string, now: int) {
    || id !in rows || rows[id].status != Processing || rows[id].leaseOwner != owner
    || rows[id].leaseUntil.None? || rows[id].leaseUntil.value <= now
  }

  // ------------------------------------------------------- one statement on one row

  lemma MarkHandledIff(rows: Rows, id: int, owner: string, now: int)
    ensures Lost(rows, id, owner, now) ==> MarkHandled(rows, id, owner, now) == rows
    ensures !Lost(rows, id, owner, now) ==>
      MarkHandled(rows, id, owner, now) == rows[id := rows[id].(handledAt := Some(now))]
  {
  }

  lemma RenewIff(rows: Rows, id: int, owner: string, lease: int, now: int)
    ensures Lost(rows, id, owner, now) ==> Renew(rows, id, owner, lease, now) == rows
    ensures !Lost(rows, id, owner, now) ==>
      Renew(rows, id, owner, lease, now) ==
        rows[id := rows[id].(leaseUntil := Some(now + if lease > 0 then lease else 60_000))]
  {
  }

  lemma FinishIff(rows: Rows, id: int, owner: string, now: int)
    ensures Lost(rows, id, owner, now) || rows[id].handledAt.None? ==> Finish(rows, id, owner, now) == rows
    ensures !Lost(rows, id, owner, now) && rows[id].handledAt.Some? ==>
      Finish(rows, id, owner, now) ==
        rows[id := rows[id].(status := Done, leaseOwner := "", leaseUntil := None, doneAt := Some(now))]
  {
  }

  lemma RetryLaterIff(rows: Rows, id: int, owner: string, most: int, retryAt: int, now: int)
    ensures Lost(rows, id, owner, now) ==> RetryLater(rows, id, owner, most, retryAt, now) == rows
    ensures !Lost(rows, id, owner, now) ==>
      RetryLater(rows, id, owner, most, retryAt, now) ==
        rows[id :=
          if rows[id].attempts < most
          then rows[id].(status := Retry, nextAttemptAt := retryAt, leaseOwner := "", leaseUntil := None)
          else rows[id].(status := Dead, leaseOwner := "", leaseUntil := None)]
  {
  }

  /** The version a user's state is at, -1 without one. */
  predicate IsAt(states: map<int, StateRow>, user: int, version: int) {
    (user in states && states[user].version == version) || (user !in states && version == -1)
  }

  /** A commit goes through exactly for the holder of the lease on an update not
      yet handled, whose state is still at the version that was read; then the
      state, the handled mark and the reply are there, else nothing changed. */
  lemma CommitIff(db: Db, id: int, owner: string, user: int, expected: int, json: string, hasState: bool,
                  reply: Option<ReplyInput>, now: int)
    ensures
      var (db', result) := CommitPrivateState(db, id, owner, user, expected, json, hasState, reply, now);
      && (result == Committed <==>
           && 0 <= id && expected < id && owner != "" && user > 0
           && !Lost(db.rows, id, owner, now) && db.rows[id].handledAt.None? && IsAt(db.states, user, expected)
           && (reply.Some? ==> InsertReply(db, id, reply.value, now).Some?))
      && (result != Committed ==> db' == db)
      && (result == Committed ==>
           && db'.offset == db.offset && db'.processed == db.processed
           && db'.rows == db.rows[id := db.rows[id].(handledAt := Some(now))]
           && db'.states == db.states[user := StateRow(if json == "" then "{}" else json, hasState, id, now)]
           && (reply.None? ==> db'.replies == db.replies && db'.nextReply == db.nextReply)
           && (reply.Some? ==>
                var inserted := InsertReply(db, id, reply.value, now).value;
                db'.replies == inserted.replies && db'.nextReply == inserted.nextReply))
  {
  }

  /** A reply is refused when it is incomplete or another one stands under its keys;
      a new one gets the next id, and the same one again changes nothing. */
  lemma InsertReplyIff(db: Db, update: int, input: ReplyInput, now: int)
    requires forall p, q :: p in db.replies && q in db.replies && p != q ==>
      db.replies[p].update != db.replies[q].update && db.replies[p].input.dedupe != db.replies[q].input.dedupe
    requires forall q :: q in db.replies ==> db.replies[q].stateVersion == db.replies[q].update
    ensures
      var complete := input.dedupe != "" && input.actor > 0 && input.sourceChat != 0 && input.sourceMessage > 0 &&
        input.targetChat != 0 && input.targetMessage > 0;
      var known := exists q :: q in db.replies && db.replies[q].update == update && db.replies[q].input == input;
      var free := forall q :: q in db.replies ==> db.replies[q].update != update && db.replies[q].input.dedupe != input.dedupe;
      && (InsertReply(db, update, input, now).Some? <==> complete && (known || free))
      && (complete && known ==> InsertReply(db, update, input, now).value == db)
      && (complete && free ==>
           InsertReply(db, update, input, now).value ==
             db.(replies := db.replies[db.nextReply := Reply(update, input, update, Waiting, 0, now, "", None, None)],
                 nextReply := db.nextReply + 1))
  {
  }

  // -------------------------------------------------------------------- what is delivered

  /** A batch is refused if one of its updates lacks something. Else every id has the row
      it had, or that of its first update in the batch: done if it was processed before
      the inbox existed, and due at once if not; and the offset is behind them all. */
  lemma DeliveredMeans(db: Db, updates: seq<Incoming>, now: int)
    ensures
      var ok := forall i :: 0 <= i < |updates| ==>
        updates[i].id >= 0 && updates[i].payload != "" && updates[i].route != "" && updates[i].lane in {Ledger, Bypass};
      Persist(db, updates, now).Some? <==> ok
    ensures Persist(db, updates, now).Some? ==>
      var after := Persist(db, updates, now).value;
      && after == db.(rows := after.rows, offset := after.offset)
      && after.offset >= db.offset && (forall i :: 0 <= i < |updates| ==> updates[i].id < after.offset)
      && (after.offset == db.offset || exists i :: 0 <= i < |updates| && after.offset == updates[i].id + 1)
      && (forall id :: id in db.rows ==> id in after.rows && after.rows[id] == db.rows[id])
      && (forall i :: 0 <= i < |updates| ==> updates[i].id in after.rows)
      && (forall id :: id in after.rows && id !in db.rows ==>
           exists i :: FirstWithId(updates, i) && updates[i].id == id && after.rows[id] == Fresh(updates[i], id in db.processed, now))
  {
    if Persist(db, updates, now).Some? {
      NextOffsetGrows(updates, db.offset);
      OffsetIsReached(updates, db.offset);
      InsertAllKeeps(db.rows, updates, db.processed, now);
      var after := Persist(db, updates, now).value;
      forall id | id in after.rows && id !in db.rows
        ensures exists i :: FirstWithId(updates, i) && updates[i].id == id && after.rows[id] == Fresh(updates[i], id in db.processed, now)
      {
        var i := InsertAllAdds(db.rows, updates, db.processed, now, id);
      }
    }
  }

  function Fresh(u: Incoming, imported: bool, now: int): Row {
    if imported then Row(u.lane, u.route, u.payload, Done, 0, now, "", None, 0, None, now, Some(now))
    else Row(u.lane, u.route, u.payload, Pending, 0, now, "", None, 0, None, now, None)
  }

  lemma {:induction false} OffsetIsReached(updates: seq<Incoming>, offset: int)
    ensures NextOffset(updates, offset) == offset ||
      exists i :: 0 <= i < |updates| && NextOffset(updates, offset) == updates[i].id + 1
  {
    if updates != [] {
      var init := updates[..|updates| - 1];
      OffsetIsReached(init, offset);
      if i :| 0 <= i < |init| && NextOffset(init, offset) == init[i].id + 1 { assert init[i] == updates[i]; }
    }
  }

  /** What a worker hands to the handler: the stored state if there is one, less than 30
      minutes old; else, with no row at all, the state an old payload carries; else the
      pending broadcast. */
  lemma RestoredMeans(cfg: Config, states: map<int, StateRow>, user: int, payload: string, broadcast: Option<string>, readAt: int)
    ensures
      var given := Restore(cfg, Stored(states, user), payload, broadcast, readAt);
      && (user in states && states[user].hasState && readAt < states[user].updatedAt + 1_800_000 ==> given == Some(states[user].json))
      && (user in states && (!states[user].hasState || readAt >= states[user].updatedAt + 1_800_000) ==> given == broadcast)
      && (user !in states ==> given == if cfg.legacyOf(payload).Some? then cfg.legacyOf(payload) else broadcast)
  {
  }

  // ------------------------------------------------------------------ what a claim takes

  /** The row may be claimed: its time has come, it has attempts left, and in the
      ledger lane everything before it on its route is over. */
  predicate Claimable(rows: Rows, id: int, lane: Lane, most: nat, now: int) {
    && id in rows && rows[id].lane == lane && rows[id].attempts < most
    && (match rows[id].status
        case Pending => rows[id].nextAttemptAt <= now
        case Retry => rows[id].nextAttemptAt <= now
        case Processing => rows[id].leaseUntil.Some? && rows[id].leaseUntil.value <= now
        case Done => false
        case Dead => false)
    && (lane == Ledger ==>
         forall e :: e in rows && e < id && rows[e].lane == Ledger && rows[e].route == rows[id].route ==>
           rows[e].status == Done || rows[e].status == Dead)
  }

  /** The claimable rows before `id` that nobody has locked. */
  function Ahead(rows: Rows, id: int, lane: Lane, most: nat, now: int, locked: set<int>): set<int> {
    set e | e in rows && Claimable(rows, e, lane, most, now) && e !in locked && e < id
  }

  lemma BatchIsSmallest(rows: Rows, lane: Lane, limit: int, most: nat, locked: set<int>, now: int, id: int)
    ensures id in Batch(rows, lane, limit, most, now, locked) <==>
      Claimable(rows, id, lane, most, now) && id !in locked &&
      |Ahead(rows, id, lane, most, now, locked)| < (if limit < 1 then 1 else limit)
  {
    hide Claimable, Candidate, Lowest, Candidates;
    var open := Candidates(rows, lane, most, now) - locked;
    forall e ensures e in open <==> e in rows && Claimable(rows, e, lane, most, now) && e !in locked {
      ClaimableMeans(rows, e, lane, most, now);
    }
    LowestIff(open, AtLeastOne(limit), id);
    assert (set e | e in open && e < id) == Ahead(rows, id, lane, most, now, locked);
    ClaimableMeans(rows, id, lane, most, now);
  }

  /** A claim takes exactly the claimable rows nobody has locked that have fewer
      than `limit` (one at least) smaller ones among them, and gives each one more
      attempt, its owner and a lease; every other row stays. */
  lemma ClaimTakesExactly(rows: Rows, lane: Lane, limit: int, most: nat, locked: set<int>, owner: string, lease: int, now: int, id: int)
    ensures
      var batch := Batch(rows, lane, limit, most, now, locked);
      var after := ClaimBatch(rows, batch, owner, lease, now);
      && (id in batch <==>
           Claimable(rows, id, lane, most, now) && id !in locked &&
           |Ahead(rows, id, lane, most, now, locked)| < (if limit < 1 then 1 else limit))
      && after.Keys == rows.Keys
      && (id in rows && id !in batch ==> after[id] == rows[id])
      && (id in batch ==> id in rows)
      && (id in batch ==>
           after[id] == rows[id].(status := Processing, attempts := rows[id].attempts + 1, leaseOwner := owner,
                                  leaseUntil := Some(now + lease),
                                  leaseReclaims := rows[id].leaseReclaims + if rows[id].status == Processing then 1 else 0))
  {
    hide Claimable, Batch;
    BatchIsSmallest(rows, lane, limit, most, locked, now, id);
    ClaimableMeans(rows, id, lane, most, now);
  }

  lemma ClaimableMeans(rows: Rows, id: int, lane: Lane, most: nat, now: int)
    ensures id in Candidates(rows, lane, most, now) <==> Claimable(rows, id, lane, most, now)
    ensures Claimable(rows, id, lane, most, now) ==> id in rows
  {
  }

  /** The sweep kills exactly the rows of the lane whose lease ran out on the last attempt. */
  lemma SweepKillsExactly(rows: Rows, lane: Lane, most: nat, now: int, id: int)
    ensures
      var after := ExpireExhausted(rows, lane, most, now);
      && after.Keys == rows.Keys
      && (id in rows ==>
           after[id] ==
             if rows[id].lane == lane && rows[id].status == Processing && rows[id].leaseUntil.Some? &&
                rows[id].leaseUntil.value <= now && rows[id].attempts >= most
             then rows[id].(status := Dead, leaseOwner := "", leaseUntil := None) else rows[id])
  {
  }

  /** Cleaning up takes exactly rows that were done, and replies that were closed,
      before the cutoff. */
  lemma CleanupTakesExactly(rows: Rows, replies: Replies, ids: set<int>, cutoff: int, id: int)
    ensures
      var kept := CleanupDone(rows, ids, cutoff);
      if id !in rows then id !in kept
      else if id in ids && rows[id].status == Done && rows[id].doneAt.Some? && rows[id].doneAt.value < cutoff then id !in kept
      else id in kept && kept[id] == rows[id]
    ensures
      var kept := CleanupReplies(replies, ids, cutoff);
      if id !in replies then id !in kept
      else if id in ids && replies[id].status in {Sent, Cancelled, Dropped} && replies[id].completedAt.Some? &&
              replies[id].completedAt.value < cutoff then id !in kept
      else id in kept && kept[id] == replies[id]
  {
  }

  // ----------------------------------------------------------------------- whole runs

  /** The event comes from somebody else than `owner`, or is no statement on one
      row; sweeps and claims, whoever makes them, come before `until`. */
  predicate NotOf(e: Event, owner: string, until: int) {
    match e
    case Expire(_, now) => now < until
    case Claim(_, _, _, _, now, _) => now < until
    case CommitRead(_, other, _) => other != owner
    case HandledPublic(_, other, _) => other != owner
    case RenewLease(_, other, _, _) => other != owner
    case FinishUpdate(_, other, _) => other != owner
    case FailUpdate(_, other, _, _) => other != owner
    case _ => true
  }

  lemma {:induction false} DeliveryKeepsRow(rows: Rows, updates: seq<Incoming>, processed: set<int>, now: int, id: int)
    requires id in rows
    ensures id in InsertAll(rows, updates, processed, now) && InsertAll(rows, updates, processed, now)[id] == rows[id]
  {
    if updates != [] { DeliveryKeepsRow(rows, updates[..|updates| - 1], processed, now, id); }
  }

  lemma CommitKeepsRow(cfg: Config, w: World, e: Event, id: int)
    requires e.CommitRead? && id in w.db.rows && Lost(w.db.rows, id, e.owner, e.now)
    ensures id in Apply(cfg, w, e).db.rows && Apply(cfg, w, e).db.rows[id] == w.db.rows[id]
  {
    hide Outcome, InsertReply, Lost;
    if e.read < |w.snapshots| {
      var r := w.snapshots[e.read];
      var outcome := Outcome(cfg, r.base, r.payload, r.broadcast, r.readAt, r.observed);
      if outcome.Handled? {
        CommitIff(w.db, r.id, e.owner, r.user, VersionOf(r.base), StateJson(outcome.state), outcome.state.Some?,
                  outcome.reply, e.now);
        hide CommitPrivateState;
      }
    }
  }

  lemma ClaimKeepsRow(cfg: Config, w: World, e: Event, id: int)
    requires e.Claim? && id in w.db.rows && w.db.rows[id].status == Processing
    requires w.db.rows[id].leaseUntil.Some? && e.now < w.db.rows[id].leaseUntil.value
    ensures id in Apply(cfg, w, e).db.rows && Apply(cfg, w, e).db.rows[id] == w.db.rows[id]
  {
    hide Batch, Persist, CommitStep, RevokeStep, RowsAfter, RepliesAfter;
    ClaimTakesExactly(w.db.rows, e.lane, e.limit, cfg.maxAttempts, e.locked, e.owner, LeaseOrMinute(e.lease), e.now, id);
  }

  lemma StatementKeepsRow(cfg: Config, db: Db, e: Event, owner: string, until: int, id: int)
    requires id in db.rows && db.rows[id].status == Processing && db.rows[id].leaseOwner == owner
    requires db.rows[id].leaseUntil == Some(until) && NotOf(e, owner, until)
    ensures id in RowsAfter(cfg, db, e) && RowsAfter(cfg, db, e)[id] == db.rows[id]
  {
    hide Finish, MarkHandled, Renew, RetryLater, ExpireExhausted;
    match e
    case HandledPublic(other, o, now) => MarkHandledIff(db.rows, other, o, now);
    case RenewLease(other, o, lease, now) => RenewIff(db.rows, other, o, lease, now);
    case FinishUpdate(other, o, now) => FinishIff(db.rows, other, o, now);
    case FailUpdate(other, o, retryAt, now) => RetryLaterIff(db.rows, other, o, cfg.maxAttempts, retryAt, now);
    case Expire(lane, now) => SweepKillsExactly(db.rows, lane, cfg.maxAttempts, now, id);
    case _ =>
  }

  lemma StepKeepsRow(cfg: Config, w: World, e: Event, owner: string, until: int, id: int)
    requires id in w.db.rows && w.db.rows[id].status == Processing && w.db.rows[id].leaseOwner == owner
    requires w.db.rows[id].leaseUntil == Some(until) && NotOf(e, owner, until)
    ensures id in Apply(cfg, w, e).db.rows && Apply(cfg, w, e).db.rows[id] == w.db.rows[id]
  {
    hide RowsAfter, RepliesAfter, ClaimStep, CommitStep, Replay, InsertAll;
    if e.CommitRead? { CommitKeepsRow(cfg, w, e, id); }
    else if e.Claim? { ClaimKeepsRow(cfg, w, e, id); }
    else if e.Deliver? { DeliveryKeepsRow(w.db.rows, e.updates, w.db.processed, e.now, id); }
    else { StatementKeepsRow(cfg, w.db, e, owner, until, id); }
  }

  /** While a lease lasts, only its owner changes the row: over any continuation of
      any run without a statement of the owner, and whose sweeps and claims all come
      before the lease ends, the row stays as it is. */
  lemma {:induction false} OnlyTheOwnerChangesIt(
      cfg: Config, legacy: set<int>, events: seq<Event>, more: seq<Event>, owner: string, until: int, id: int)
    requires
      var rows := Run(cfg, legacy, events).db.rows;
      id in rows && rows[id].status == Processing && rows[id].leaseOwner == owner && rows[id].leaseUntil == Some(until)
    requires forall i :: 0 <= i < |more| ==> NotOf(more[i], owner, until)
    ensures
      var after := Run(cfg, legacy, events + more).db.rows;
      id in after && after[id] == Run(cfg, legacy, events).db.rows[id]
    decreases |more|
  {
    hide Apply, NotOf;
    if more == [] {
      assert events + more == events;
    } else {
      var init, e := more[..|more| - 1], more[|more| - 1];
      var all := events + more;
      assert all[..|all| - 1] == events + init && all[|all| - 1] == e;
      OnlyTheOwnerChangesIt(cfg, legacy, events, init, owner, until, id);
      StepKeepsRow(cfg, Run(cfg, legacy, events + init), e, owner, until, id);
    }
  }

  // ----------------------------------------------------------------------- replies

  /** There is no such reply, or `owner` is not sending it at `now`. */
  predicate NotSending(replies: Replies, q: int, owner: string, now: int) {
    || q !in replies || replies[q].status != Sending || replies[q].leaseOwner != owner
    || replies[q].leaseUntil.None? || replies[q].leaseUntil.value <= now
  }

  function ClosedAs(q: Reply, status: Delivery, now: int): Reply {
    q.(status := status, leaseOwner := "", leaseUntil := None, completedAt := Some(now))
  }

  lemma EndReplyIff(replies: Replies, q: int, owner: string, status: Delivery, now: int)
    ensures NotSending(replies, q, owner, now) ==> EndReply(replies, q, owner, status, now) == replies
    ensures !NotSending(replies, q, owner, now) ==>
      EndReply(replies, q, owner, status, now) == replies[q := ClosedAs(replies[q], status, now)]
  {
  }

  lemma RenewReplyIff(replies: Replies, q: int, owner: string, lease: int, now: int)
    ensures NotSending(replies, q, owner, now) ==> RenewReply(replies, q, owner, lease, now) == replies
    ensures !NotSending(replies, q, owner, now) ==>
      RenewReply(replies, q, owner, lease, now) ==
        replies[q := replies[q].(leaseUntil := Some(now + if lease > 0 then lease else 60_000))]
  {
  }

  lemma RetryReplyIff(replies: Replies, q: int, owner: string, most: int, retryAt: int, now: int)
    ensures NotSending(replies, q, owner, now) ==> RetryReply(replies, q, owner, most, retryAt, now) == replies
    ensures !NotSending(replies, q, owner, now) ==>
      RetryReply(replies, q, owner, most, retryAt, now) ==
        replies[q :=
          if replies[q].attempts >= most && replies[q].attempts >= 1 then ClosedAs(replies[q], Dropped, now)
          else replies[q].(status := Backoff, nextAttemptAt := retryAt, leaseOwner := "", leaseUntil := None, completedAt := None)]
  {
  }

  /** A revoked reply is cancelled, and the state is erased exactly if its version
      is that of the reply; without the lease nothing happens. */
  lemma CancelReplyIff(db: Db, q: int, owner: string, now: int)
    ensures NotSending(db.replies, q, owner, now) ==> CancelReply(db, q, owner, now) == db
    ensures !NotSending(db.replies, q, owner, now) ==>
      var reply := db.replies[q];
      var actor := reply.input.actor;
      CancelReply(db, q, owner, now) ==
        db.(replies := db.replies[q := ClosedAs(reply, Cancelled, now)],
            states :=
              if actor in db.states && db.states[actor].version == reply.stateVersion
              then db.states[actor := StateRow("{}", false, db.states[actor].version, now)] else db.states)
  {
  }

  /** The reply may be sent: its time has come, it has attempts left, and every
      earlier reply of its actor is closed. */
  predicate Sendable(replies: Replies, q: int, most: nat, now: int) {
    && q in replies && replies[q].attempts < most
    && (match replies[q].status
        case Waiting => replies[q].nextAttemptAt <= now
        case Backoff => replies[q].nextAttemptAt <= now
        case Sending => replies[q].leaseUntil.Some? && replies[q].leaseUntil.value <= now
        case Sent => false
        case Cancelled => false
        case Dropped => false)
    && forall e :: e in replies && e < q && replies[e].input.actor == replies[q].input.actor ==>
         replies[e].status == Sent || replies[e].status == Cancelled || replies[e].status == Dropped
  }

  lemma SendableMeans(replies: Replies, q: int, most: nat, now: int)
    ensures q in ReplyCandidates(replies, most, now) <==> Sendable(replies, q, most, now)
    ensures Sendable(replies, q, most, now) ==> q in replies
  {
  }

  /** A claim of replies takes exactly the sendable ones nobody has locked that have
      fewer than `limit` (one at least) smaller ones among them. */
  lemma ClaimSendsTakesExactly(replies: Replies, limit: int, most: nat, locked: set<int>, owner: string, lease: int, now: int, q: int)
    ensures
      var batch := Lowest(ReplyCandidates(replies, most, now) - locked, AtLeastOne(limit));
      var after := ClaimReplies(replies, batch, owner, lease, now);
      && (q in batch <==>
           Sendable(replies, q, most, now) && q !in locked &&
           |set e | e in replies && Sendable(replies, e, most, now) && e !in locked && e < q| < (if limit < 1 then 1 else limit))
      && after.Keys == replies.Keys
      && (q in replies && q !in batch ==> after[q] == replies[q])
      && (q in batch ==>
           after[q] == replies[q].(status := Sending, attempts := replies[q].attempts + 1, leaseOwner := owner,
                                   leaseUntil := Some(now + lease)))
  {
    hide Sendable, ReplyCandidate;
    var open := ReplyCandidates(replies, most, now) - locked;
    forall e ensures e in open <==> Sendable(replies, e, most, now) && e !in locked { SendableMeans(replies, e, most, now); }
    LowestIff(open, AtLeastOne(limit), q);
    assert (set e | e in open && e < q) ==
      set e | e in replies && Sendable(replies, e, most, now) && e !in locked && e < q;
  }

  lemma SendSweepDropsExactly(replies: Replies, most: nat, now: int, q: int)
    ensures
      var after := ExpireReplies(replies, most, now);
      && after.Keys == replies.Keys
      && (q in replies ==>
           after[q] ==
             if replies[q].status == Sending && replies[q].leaseUntil.Some? && replies[q].leaseUntil.value <= now &&
                replies[q].attempts >= most
             then ClosedAs(replies[q], Dropped, now) else replies[q])
  {
  }

  predicate NotSenders(e: Event, owner: string, until: int) {
    match e
    case ExpireSends(now) => now < until
    case ClaimSends(_, _, _, now, _) => now < until
    case RenewSend(_, other, _, _) => other != owner
    case EndSend(_, other, _, _) => other != owner
    case RetrySend(_, other, _, _) => other != owner
    case Revoke(_, other, _) => other != owner
    case _ => true
  }

  lemma ReplyStatementKeeps(cfg: Config, db: Db, e: Event, owner: string, until: int, q: int)
    requires q in db.replies && db.replies[q].status == Sending && db.replies[q].leaseOwner == owner
    requires db.replies[q].leaseUntil == Some(until) && NotSenders(e, owner, until)
    ensures q in RepliesAfter(cfg, db, e) && RepliesAfter(cfg, db, e)[q] == db.replies[q]
  {
    hide EndReply, RenewReply, RetryReply, ExpireReplies, ClaimReplies, Lowest;
    match e
    case ExpireSends(now) => SendSweepDropsExactly(db.replies, cfg.maxSends, now, q);
    case ClaimSends(o, limit, lease, now, locked) =>
      ClaimSendsTakesExactly(db.replies, limit, cfg.maxSends, locked, o, LeaseOrMinute(lease), now, q);
    case RenewSend(other, o, lease, now) => RenewReplyIff(db.replies, other, o, lease, now);
    case EndSend(other, o, sent, now) => EndReplyIff(db.replies, other, o, if sent then Sent else Dropped, now);
    case RetrySend(other, o, retryAt, now) => RetryReplyIff(db.replies, other, o, cfg.maxSends, retryAt, now);
    case _ =>
  }

  lemma CommitKeepsReply(cfg: Config, w: World, e: Event, q: int)
    requires e.CommitRead? && q in w.db.replies && q < w.db.nextReply
    ensures q in Apply(cfg, w, e).db.replies && Apply(cfg, w, e).db.replies[q] == w.db.replies[q]
  {
    hide Outcome, Conflicting, SameDelivery, LeaseHeld;
  }

  lemma StepKeepsReply(cfg: Config, w: World, e: Event, owner: string, until: int, q: int)
    requires q in w.db.replies && q < w.db.nextReply
    requires w.db.replies[q].status == Sending && w.db.replies[q].leaseOwner == owner
    requires w.db.replies[q].leaseUntil == Some(until) && NotSenders(e, owner, until)
    ensures q in Apply(cfg, w, e).db.replies && Apply(cfg, w, e).db.replies[q] == w.db.replies[q]
    ensures w.db.nextReply <= Apply(cfg, w, e).db.nextReply
  {
    hide RowsAfter, RepliesAfter, ClaimBatch, Batch, InsertAll, NextOffset, EndReply;
    if e.CommitRead? { CommitKeepsReply(cfg, w, e, q); }
    else if e.Revoke? { EndReplyIff(w.db.replies, e.q, e.owner, Cancelled, e.now); }
    else { ReplyStatementKeeps(cfg, w.db, e, owner, until, q); }
  }

  /** The same for replies: while a lease on one lasts, only its owner sends, renews,
      gives back, drops or cancels it. */
  lemma {:induction false} OnlyTheSenderChangesIt(
      cfg: Config, legacy: set<int>, events: seq<Event>, more: seq<Event>, owner: string, until: int, q: int)
    requires
      var db := Run(cfg, legacy, events).db;
      && q in db.replies && db.replies[q].status == Sending && db.replies[q].leaseOwner == owner
      && db.replies[q].leaseUntil == Some(until)
    requires forall i :: 0 <= i < |more| ==> NotSenders(more[i], owner, until)
    ensures
      var after := Run(cfg, legacy, events + more).db;
      q in after.replies && q < after.nextReply && after.replies[q] == Run(cfg, legacy, events).db.replies[q]
    decreases |more|
  {
    hide Apply, NotSenders, ReplyOk, Staged, Distinct, ActorsOk;
    if more == [] {
      RunKeepsReplies(cfg, legacy, events);
      assert events + more == events;
    } else {
      var init, e := more[..|more| - 1], more[|more| - 1];
      var all := events + more;
      assert all[..|all| - 1] == events + init && all[|all| - 1] == e;
      OnlyTheSenderChangesIt(cfg, legacy, events, init, owner, until, q);
      StepKeepsReply(cfg, Run(cfg, legacy, events + init), e, owner, until, q);
    }
  }
}
