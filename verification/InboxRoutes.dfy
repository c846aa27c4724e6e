/**
 * What every run keeps about the inbox rows: one open head per route on the
 * ledger lane, bounded claims, and heads that are never blocked for good.
 */
module InboxRoutes {
  import opened Sets
  import opened InboxTables
  import opened InboxProtocol

  ghost predicate RowOk(cfg: Config, r: Row) {
    && r.attempts <= cfg.maxAttempts
    && (r.status == Pending ==> r.attempts == 0)
    && (r.status == Retry ==> 0 < r.attempts < cfg.maxAttempts)
    && (r.status == Processing ==> 0 < r.attempts && r.leaseUntil.Some?)
    && (r.status == Dead ==> 0 < r.attempts)
    && (r.status == Done ==> r.handledAt.Some? || r.attempts == 0)
    && (r.handledAt.Some? ==> 0 < r.attempts)
  }

  ghost predicate RowsOk(cfg: Config, db: Db) {
    forall id :: id in db.rows ==> 0 <= id < db.offset && RowOk(cfg, db.rows[id])
  }

  predicate SameRoute(rows: Rows, i: int, j: int)
    requires i in rows && j in rows
  {
    rows[i].lane == Ledger && rows[j].lane == Ledger && rows[i].route == rows[j].route
  }

  /** Once a ledger row was claimed, every earlier row of its route is over. */
  ghost predicate RoutesOk(rows: Rows) {
    forall i, j :: i in rows && j in rows && i < j && SameRoute(rows, i, j) && rows[j].attempts > 0
      ==> Terminal(rows[i].status)
  }

  ghost predicate ClaimsOk(cfg: Config, w: World) {
    && (forall id :: id in w.db.rows ==> w.db.rows[id].attempts == ClaimsOf(w, id))
    && (forall id :: id in w.claims ==> id < w.db.offset && w.claims[id] <= cfg.maxAttempts)
  }

  function ClaimsOf(w: World, id: int): nat { if id in w.claims then w.claims[id] else 0 }

  ghost predicate RowsInv(cfg: Config, w: World) {
    RowsOk(cfg, w.db) && RoutesOk(w.db.rows) && ClaimsOk(cfg, w)
  }

  /** How one row may change in one event. */
  ghost predicate Moved(cfg: Config, rows: Rows, id: int, after: Row)
    requires id in rows
  {
    var r := rows[id];
    && after.lane == r.lane && after.route == r.route && after.payload == r.payload
    && (Terminal(r.status) ==> after.status == r.status)
    && (r.handledAt.Some? ==> after.handledAt.Some?)
    && RowOk(cfg, after)
    && (after.attempts == r.attempts ||
        (after.attempts == r.attempts + 1 && after.status == Processing && (r.lane == Ledger ==> HeadOfRoute(rows, id))))
  }

  ghost predicate Fresh(cfg: Config, db: Db, db': Db, id: int)
    requires id in db'.rows
  {
    db.offset <= id < db'.offset && db'.rows[id].attempts == 0 && db'.rows[id].handledAt.None? && RowOk(cfg, db'.rows[id])
  }

  ghost predicate Moves(cfg: Config, db: Db, db': Db) {
    && db.offset <= db'.offset
    && (forall id :: id in db'.rows ==>
          if id in db.rows then Moved(cfg, db.rows, id, db'.rows[id]) else Fresh(cfg, db, db', id))
  }

  lemma MovesKeepRoutes(cfg: Config, db: Db, db': Db)
    requires RowsOk(cfg, db) && RoutesOk(db.rows) && Moves(cfg, db, db') && db.offset >= 0
    ensures RowsOk(cfg, db') && RoutesOk(db'.rows)
  {
    forall i, j | i in db'.rows && j in db'.rows && i < j && SameRoute(db'.rows, i, j) && db'.rows[j].attempts > 0
      ensures Terminal(db'.rows[i].status)
    {
      assert j in db.rows;
      assert i in db.rows;
    }
  }

  lemma {:induction false} NextOffsetGrows(updates: seq<Incoming>, offset: int)
    ensures offset <= NextOffset(updates, offset)
    ensures forall i :: 0 <= i < |updates| ==> updates[i].id < NextOffset(updates, offset)
  {
    if updates != [] {
      NextOffsetGrows(updates[..|updates| - 1], offset);
    }
  }

  /** Update `i` is the first of the batch with its id. */
  predicate FirstWithId(updates: seq<Incoming>, i: int) {
    0 <= i < |updates| && forall k :: 0 <= k < i ==> updates[k].id != updates[i].id
  }

  /** A delivered batch keeps every old row, and every update of the batch has a
      row afterwards. */
  lemma {:induction false} InsertAllKeeps(rows: Rows, updates: seq<Incoming>, processed: set<int>, now: int)
    ensures forall id :: id in rows ==> id in InsertAll(rows, updates, processed, now)
                                        && InsertAll(rows, updates, processed, now)[id] == rows[id]
    ensures forall i :: 0 <= i < |updates| ==> updates[i].id in InsertAll(rows, updates, processed, now)
  {
    if updates != [] {
      InsertAllKeeps(rows, updates[..|updates| - 1], processed, now);
    }
  }

  /** A row a batch adds is the row of the first update with that id. */
  lemma {:induction false} InsertAllAdds(rows: Rows, updates: seq<Incoming>, processed: set<int>, now: int, id: int)
    returns (i: int)
    requires id !in rows && id in InsertAll(rows, updates, processed, now)
    ensures FirstWithId(updates, i) && updates[i].id == id
    ensures InsertAll(rows, updates, processed, now)[id] == NewRow(updates[i], processed, now)
  {
    var init := updates[..|updates| - 1];
    if id in InsertAll(rows, init, processed, now) {
      i := InsertAllAdds(rows, init, processed, now, id);
      assert updates[i] == init[i];
    } else {
      InsertAllKeeps(rows, init, processed, now);
      i := |init|;
    }
  }

  lemma DeliverMoves(cfg: Config, w: World, e: Event)
    requires e.Deliver? && RowsInv(cfg, w) && w.db.offset >= 0
    ensures Moves(cfg, w.db, Apply(cfg, w, e).db)
    ensures SameAttempts(w.db, Apply(cfg, w, e).db)
  {
    var db := Persist(w.db, e.updates, e.now);
    if db.Some? && Deliverable(w.db, e.updates) {
      NextOffsetGrows(e.updates, w.db.offset);
      InsertAllKeeps(w.db.rows, e.updates, w.db.processed, e.now);
      var rows := InsertAll(w.db.rows, e.updates, w.db.processed, e.now);
      forall id | id in rows && id !in w.db.rows
        ensures Fresh(cfg, w.db, db.value, id)
      {
        var i := InsertAllAdds(w.db.rows, e.updates, w.db.processed, e.now, id);
      }
    }
  }

  lemma ClaimMoves(cfg: Config, w: World, e: Event)
    requires e.Claim? && RowsInv(cfg, w)
    ensures Moves(cfg, w.db, Apply(cfg, w, e).db)
  {
    hide Persist, RowsAfter, RepliesAfter, CommitStep, RevokeStep, Lowest, RoutesOk;
    var batch := Batch(w.db.rows, e.lane, e.limit, cfg.maxAttempts, e.now, e.locked);
    assert batch <= Candidates(w.db.rows, e.lane, cfg.maxAttempts, e.now);
  }

  lemma ClaimCounts(cfg: Config, w: World, e: Event)
    requires e.Claim? && RowsInv(cfg, w)
    ensures ClaimsOk(cfg, Apply(cfg, w, e))
  {
    hide Persist, RowsAfter, RepliesAfter, CommitStep, RevokeStep, Lowest, RoutesOk, HeadOfRoute;
    var batch := Batch(w.db.rows, e.lane, e.limit, cfg.maxAttempts, e.now, e.locked);
    assert batch <= Candidates(w.db.rows, e.lane, cfg.maxAttempts, e.now);
  }

  lemma CommitMoves(cfg: Config, w: World, e: Event)
    requires e.CommitRead? && RowsInv(cfg, w)
    ensures Moves(cfg, w.db, Apply(cfg, w, e).db)
    ensures SameAttempts(w.db, Apply(cfg, w, e).db)
  {
    hide Persist, ClaimStep, RevokeStep, RowsAfter, RepliesAfter, Outcome, RoutesOk, ClaimsOk, StateJson, LogOf;
    assert Apply(cfg, w, e).db.offset == w.db.offset;
  }

  /** The rows move one by one, without a new claim, and none appears. */
  ghost predicate RowsMove(cfg: Config, rows: Rows, rows': Rows) {
    forall id :: id in rows' ==> id in rows && Moved(cfg, rows, id, rows'[id]) && rows'[id].attempts == rows[id].attempts
  }

  lemma FinishMoves(cfg: Config, rows: Rows, id: int, owner: string, now: int)
    requires forall i :: i in rows ==> RowOk(cfg, rows[i])
    ensures RowsMove(cfg, rows, Finish(rows, id, owner, now))
  {
  }

  lemma MarkMoves(cfg: Config, rows: Rows, id: int, owner: string, now: int)
    requires forall i :: i in rows ==> RowOk(cfg, rows[i])
    ensures RowsMove(cfg, rows, MarkHandled(rows, id, owner, now))
  {
  }

  lemma RenewMoves(cfg: Config, rows: Rows, id: int, owner: string, lease: int, now: int)
    requires forall i :: i in rows ==> RowOk(cfg, rows[i])
    ensures RowsMove(cfg, rows, Renew(rows, id, owner, lease, now))
  {
  }

  lemma RetryMoves(cfg: Config, rows: Rows, id: int, owner: string, retryAt: int, now: int)
    requires forall i :: i in rows ==> RowOk(cfg, rows[i])
    ensures RowsMove(cfg, rows, RetryLater(rows, id, owner, cfg.maxAttempts, retryAt, now))
  {
  }

  lemma RowsStay(cfg: Config, rows: Rows)
    requires forall i :: i in rows ==> RowOk(cfg, rows[i])
    ensures RowsMove(cfg, rows, rows)
  {
  }

  lemma OneRowAfter(cfg: Config, db: Db, e: Event)
    requires (e.HandledPublic? || e.RenewLease? || e.FinishUpdate? || e.FailUpdate?) && RowsOk(cfg, db)
    ensures RowsMove(cfg, db.rows, RowsAfter(cfg, db, e))
  {
    hide RowsMove, RowOk, MarkHandled, Renew, Finish, RetryLater;
    match e
    case HandledPublic(id, owner, now) => MarkMoves(cfg, db.rows, id, owner, now); RowsStay(cfg, db.rows);
    case RenewLease(id, owner, lease, now) => RenewMoves(cfg, db.rows, id, owner, lease, now);
    case FinishUpdate(id, owner, now) => FinishMoves(cfg, db.rows, id, owner, now);
    case FailUpdate(id, owner, retryAt, now) => RetryMoves(cfg, db.rows, id, owner, retryAt, now);
    case _ =>
  }

  lemma OneRowMoves(cfg: Config, w: World, e: Event)
    requires (e.HandledPublic? || e.RenewLease? || e.FinishUpdate? || e.FailUpdate?) && RowsInv(cfg, w)
    ensures Moves(cfg, w.db, Apply(cfg, w, e).db)
    ensures SameAttempts(w.db, Apply(cfg, w, e).db)
  {
    hide Persist, ClaimStep, CommitStep, RevokeStep, RepliesAfter, RowsAfter, Moved, RoutesOk, ClaimsOk;
    OneRowAfter(cfg, w.db, e);
  }

  lemma SweepMovesRows(cfg: Config, w: World, e: Event)
    requires (e.Expire? || e.Cleanup?) && RowsInv(cfg, w)
    ensures Moves(cfg, w.db, Apply(cfg, w, e).db)
    ensures SameAttempts(w.db, Apply(cfg, w, e).db)
  {
    hide Persist, ClaimStep, CommitStep, RevokeStep, RepliesAfter, RoutesOk, ClaimsOk;
  }

  lemma OtherMoves(cfg: Config, w: World, e: Event)
    requires !e.Deliver? && !e.Claim? && !e.CommitRead? && RowsInv(cfg, w)
    ensures Moves(cfg, w.db, Apply(cfg, w, e).db)
    ensures SameAttempts(w.db, Apply(cfg, w, e).db)
  {
    hide Persist, ClaimStep, CommitStep, RepliesAfter, RoutesOk, ClaimsOk;
    if e.HandledPublic? || e.RenewLease? || e.FinishUpdate? || e.FailUpdate? { OneRowMoves(cfg, w, e); }
    else if e.Expire? || e.Cleanup? { SweepMovesRows(cfg, w, e); }
    else { assert Apply(cfg, w, e).db.rows == w.db.rows; }
  }

  ghost predicate SameAttempts(db: Db, db': Db) {
    forall id :: id in db.rows && id in db'.rows ==> db'.rows[id].attempts == db.rows[id].attempts
  }

  lemma StepMoves(cfg: Config, w: World, e: Event)
    requires RowsInv(cfg, w) && w.db.offset >= 0
    ensures Moves(cfg, w.db, Apply(cfg, w, e).db)
    ensures !e.Claim? ==> SameAttempts(w.db, Apply(cfg, w, e).db)
  {
    if e.Deliver? { DeliverMoves(cfg, w, e); }
    else if e.Claim? { ClaimMoves(cfg, w, e); }
    else if e.CommitRead? { CommitMoves(cfg, w, e); }
    else { OtherMoves(cfg, w, e); }
  }

  lemma ClaimsKept(cfg: Config, w: World, e: Event)
    requires !e.Claim?
    ensures Apply(cfg, w, e).claims == w.claims
  {
    hide Persist, Outcome, CommitPrivateState, CancelReply, RowsAfter, RepliesAfter;
  }

  lemma StepKeepsRows(cfg: Config, w: World, e: Event)
    requires RowsInv(cfg, w) && w.db.offset >= 0
    ensures RowsInv(cfg, Apply(cfg, w, e)) && Apply(cfg, w, e).db.offset >= 0
  {
    hide Apply, RoutesOk;
    StepMoves(cfg, w, e);
    var w' := Apply(cfg, w, e);
    MovesKeepRoutes(cfg, w.db, w'.db);
    if e.Claim? {
      ClaimCounts(cfg, w, e);
    } else {
      ClaimsKept(cfg, w, e);
      forall id | id in w'.db.rows
        ensures w'.db.rows[id].attempts == ClaimsOf(w', id)
      {
        if e.Deliver? && id !in w.db.rows { assert id !in w.claims; }
      }
    }
  }

  lemma {:induction false} RunKeepsRows(cfg: Config, legacy: set<int>, events: seq<Event>)
    ensures RowsInv(cfg, Run(cfg, legacy, events)) && Run(cfg, legacy, events).db.offset >= 0
  {
    if events != [] {
      RunKeepsRows(cfg, legacy, events[..|events| - 1]);
      StepKeepsRows(cfg, Run(cfg, legacy, events[..|events| - 1]), events[|events| - 1]);
    }
  }

  /** At most one row of a ledger route is being processed, everything before
      it on the route is done or dead, and nothing after it was ever claimed. */
  lemma OneRunnerPerRoute(cfg: Config, legacy: set<int>, events: seq<Event>, w: World, i: int, j: int)
    requires w == Run(cfg, legacy, events)
    requires i in w.db.rows && j in w.db.rows && i != j && SameRoute(w.db.rows, i, j)
    requires w.db.rows[j].status == Processing
    ensures i < j ==> Terminal(w.db.rows[i].status)
    ensures i > j ==> w.db.rows[i].attempts == 0
    ensures w.db.rows[i].status != Processing
  {
    RunKeepsRows(cfg, legacy, events);
    var rows := w.db.rows;
    assert RowOk(cfg, rows[j]) && RowOk(cfg, rows[i]);
    assert SameRoute(rows, j, i);
  }

  /** No update is ever claimed more than `maxAttempts` times, in any run. */
  lemma ClaimsBounded(cfg: Config, legacy: set<int>, events: seq<Event>, id: int)
    ensures ClaimsOf(Run(cfg, legacy, events), id) <= cfg.maxAttempts
  {
    RunKeepsRows(cfg, legacy, events);
  }

  /** From when on a row that is still open can be claimed or killed. */
  function DueAt(r: Row): int {
    if r.status == Processing && r.leaseUntil.Some? then r.leaseUntil.value else r.nextAttemptAt
  }

  /** The tables' side of it: sweep, then claim. */
  lemma SweptThenClaimed(cfg: Config, db: Db, id: int, owner: string, limit: int, lease: int, now: int, locked: set<int>)
    requires ValidConfig(cfg) && RowsOk(cfg, db)
    requires id in db.rows && db.rows[id].lane == Ledger && !Terminal(db.rows[id].status) && HeadOfRoute(db.rows, id)
    requires DueAt(db.rows[id]) <= now && id !in locked
    requires var swept := ExpireExhausted(db.rows, Ledger, cfg.maxAttempts, now);
      |set c | c in Candidates(swept, Ledger, cfg.maxAttempts, now) - locked && c < id| < AtLeastOne(limit)
    ensures
      var swept := ExpireExhausted(db.rows, Ledger, cfg.maxAttempts, now);
      var batch := Batch(swept, Ledger, limit, cfg.maxAttempts, now, locked);
      if db.rows[id].attempts == cfg.maxAttempts then swept[id] == Kill(db.rows[id]) && id !in batch
      else swept[id] == db.rows[id] && id in batch
  {
    hide Lowest;
    assert RowOk(cfg, db.rows[id]);
    var swept := ExpireExhausted(db.rows, Ledger, cfg.maxAttempts, now);
    var open := Candidates(swept, Ledger, cfg.maxAttempts, now) - locked;
    if db.rows[id].attempts < cfg.maxAttempts {
      assert HeadOfRoute(swept, id);
      assert id in open;
      assert (set c | c in open && c < id) == set c | c in Candidates(swept, Ledger, cfg.maxAttempts, now) - locked && c < id;
      LowestIff(open, AtLeastOne(limit), id);
    } else {
      assert Exhausted(db.rows[id], Ledger, cfg.maxAttempts, now);
    }
  }

  /** The open head of a ledger route is never blocked for good: once it is due,
      sweeping and claiming either kills it or claims it once more, unless
      another claim has it locked or the limit went to smaller ids. */
  lemma HeadNeverBlocked(cfg: Config, legacy: set<int>, events: seq<Event>, w: World, id: int,
                         owner: string, limit: int, lease: int, now: int, locked: set<int>)
    requires ValidConfig(cfg) && w == Run(cfg, legacy, events)
    requires id in w.db.rows && w.db.rows[id].lane == Ledger && !Terminal(w.db.rows[id].status)
    requires HeadOfRoute(w.db.rows, id)
    requires DueAt(w.db.rows[id]) <= now && id !in locked
    requires var swept := ExpireExhausted(w.db.rows, Ledger, cfg.maxAttempts, now);
      |set c | c in Candidates(swept, Ledger, cfg.maxAttempts, now) - locked && c < id| < AtLeastOne(limit)
    ensures
      var w' := Run(cfg, legacy, events + [Expire(Ledger, now), Claim(Ledger, owner, limit, lease, now, locked)]);
      id in w'.db.rows &&
      if w.db.rows[id].attempts == cfg.maxAttempts then w'.db.rows[id].status == Dead
      else w'.db.rows[id].status == Processing && w'.db.rows[id].attempts == w.db.rows[id].attempts + 1
           && w'.db.rows[id].leaseOwner == owner
  {
    hide Run, Candidates, HeadOfRoute, RowOk, RoutesOk, ClaimsOk, Batch, DueAt, Persist, RepliesAfter;
    RunKeepsRows(cfg, legacy, events);
    RunTwo(cfg, legacy, events, Expire(Ledger, now), Claim(Ledger, owner, limit, lease, now, locked));
    SweptThenClaimed(cfg, w.db, id, owner, limit, lease, now, locked);
  }

  lemma RunTwo(cfg: Config, legacy: set<int>, events: seq<Event>, e: Event, f: Event)
    ensures Run(cfg, legacy, events + [e, f]) == Apply(cfg, Apply(cfg, Run(cfg, legacy, events), e), f)
  {
    var both := events + [e, f];
    assert both[..|both| - 1] == events + [e];
    assert (events + [e])[..|events|] == events;
  }

  /** Update `id` is over: cleaned up, or its row shows `was`'s final status. */
  ghost predicate Over(w: World, id: int, was: Row) {
    Terminal(was.status) && id < w.db.offset &&
    (id in w.db.rows ==> w.db.rows[id].status == was.status && w.db.rows[id].attempts == was.attempts)
  }

  lemma OverStays(cfg: Config, w: World, e: Event, id: int, was: Row)
    requires RowsInv(cfg, w) && w.db.offset >= 0 && Over(w, id, was)
    ensures Over(Apply(cfg, w, e), id, was)
  {
    StepMoves(cfg, w, e);
  }

  /** Done and dead are final: whatever happens next, the row keeps its status
      and its attempts, and once cleaned up it is never delivered again. */
  lemma {:induction false} TerminalIsFinal(cfg: Config, legacy: set<int>, events: seq<Event>, more: seq<Event>, id: int)
    requires id in Run(cfg, legacy, events).db.rows
    requires Terminal(Run(cfg, legacy, events).db.rows[id].status)
    ensures Over(Run(cfg, legacy, events + more), id, Run(cfg, legacy, events).db.rows[id])
    decreases |more|
  {
    hide Apply;
    if more == [] {
      RunKeepsRows(cfg, legacy, events);
      assert events + more == events;
    } else {
      var init, e := more[..|more| - 1], more[|more| - 1];
      var all := events + more;
      assert all[..|all| - 1] == events + init && all[|all| - 1] == e;
      TerminalIsFinal(cfg, legacy, events, init, id);
      var w := Run(cfg, legacy, events + init);
      RunKeepsRows(cfg, legacy, events + init);
      OverStays(cfg, w, e, id, Run(cfg, legacy, events).db.rows[id]);
    }
  }
}
