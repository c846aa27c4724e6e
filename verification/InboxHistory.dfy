/**
 * A user's stored private state is the handler folded over the user's handled
 * updates, whatever workers crash, lag or come back late.
 */
module InboxHistory {
  import opened Options
  import opened InboxTables
  import opened InboxProtocol
  import opened InboxRoutes

  ghost predicate SnapshotOk(cfg: Config, w: World, r: Read) {
    && r.user == cfg.userOf(r.payload) && r.user > 0
    && r.seen <= |LogOf(w, r.user)|
    && r.base == Replay(cfg, LogOf(w, r.user)[..r.seen])
    && 0 <= r.id < w.db.offset
    && (r.id in w.db.rows ==> w.db.rows[r.id].payload == r.payload)
  }

  /** A folded update's row, while it is kept, carries the handled mark. */
  ghost predicate ItemMarked(db: Db, it: Item)
    requires it.Folded?
  {
    0 <= it.id < db.offset &&
    (it.id in db.rows ==> db.rows[it.id].handledAt.Some? && db.rows[it.id].payload == it.payload)
  }

  ghost predicate LogsOk(cfg: Config, w: World) {
    forall u :: u in w.logs ==> LogOk(cfg, u, w.logs[u])
  }

  ghost predicate StateOk(cfg: Config, w: World, u: int) { Stored(w.db.states, u) == Replay(cfg, LogOf(w, u)) }

  ghost predicate StatesOk(cfg: Config, w: World) { forall u :: StateOk(cfg, w, u) }

  /** A private row's handled mark puts the update in its user's history. */
  ghost predicate RowLogged(cfg: Config, w: World, id: int)
    requires id in w.db.rows
  {
    (w.db.rows[id].handledAt.Some? && cfg.userOf(w.db.rows[id].payload) > 0)
      ==> InLog(LogOf(w, cfg.userOf(w.db.rows[id].payload)), id)
  }

  ghost predicate MarksOk(cfg: Config, w: World) {
    && (forall u, i :: u in w.logs && 0 <= i < |w.logs[u]| && w.logs[u][i].Folded? ==> ItemMarked(w.db, w.logs[u][i]))
    && (forall id :: id in w.db.rows ==> RowLogged(cfg, w, id))
  }

  ghost predicate SnapshotsOk(cfg: Config, w: World) {
    forall k :: 0 <= k < |w.snapshots| ==> SnapshotOk(cfg, w, w.snapshots[k])
  }

  ghost predicate HistoryInv(cfg: Config, w: World) {
    LogsOk(cfg, w) && StatesOk(cfg, w) && MarksOk(cfg, w) && SnapshotsOk(cfg, w)
  }

  // ------------------------------------------------------------ facts about logs

  /** A history's stored version is the last update folded into it. */
  lemma {:induction false} VersionIsLastId(cfg: Config, user: int, log: Log)
    requires LogOk(cfg, user, log)
    ensures VersionOf(Replay(cfg, log)) == LastId(log) >= -1
    ensures Replay(cfg, log).Some? <==> LastId(log) >= 0
    decreases |log|
  {
    if log != [] {
      VersionIsLastId(cfg, user, log[..|log| - 1]);
    }
  }

  lemma {:induction false} PrefixOk(cfg: Config, user: int, log: Log, k: nat)
    requires LogOk(cfg, user, log) && k <= |log|
    ensures LogOk(cfg, user, log[..k]) && LastId(log[..k]) <= LastId(log)
    decreases |log|
  {
    if k == |log| {
      assert log[..k] == log;
    } else {
      var before := log[..|log| - 1];
      assert before[..k] == log[..k];
      PrefixOk(cfg, user, before, k);
    }
  }

  /** If the last folded update has not changed since position `k`, nothing but
      revoke clears happened since. */
  lemma {:induction false} OnlyClearsSince(cfg: Config, user: int, log: Log, k: nat)
    requires LogOk(cfg, user, log) && k <= |log| && LastId(log[..k]) == LastId(log)
    ensures forall i :: k <= i < |log| ==> log[i].Cleared?
    decreases |log|
  {
    if k < |log| {
      var before := log[..|log| - 1];
      assert before[..k] == log[..k];
      PrefixOk(cfg, user, before, k);
      assert log[|log| - 1].Cleared?;
      OnlyClearsSince(cfg, user, before, k);
    }
  }

  /** Update ids strictly increase along a history. */
  lemma {:induction false} IdsIncrease(cfg: Config, user: int, log: Log, i: int, j: int)
    requires LogOk(cfg, user, log) && 0 <= i < j <= |log| && log[i].Folded?
    ensures log[i].id <= LastId(log)
    ensures j < |log| && log[j].Folded? ==> log[i].id < log[j].id
    decreases |log|
  {
    var before := log[..|log| - 1];
    if i < |before| {
      IdsIncrease(cfg, user, before, i, if j < |before| then j else |before|);
    }
  }

  // --------------------------------------------------------------- preservation

  /** Events that leave states, histories and reads alone, and the handled marks
      of private updates with them. */
  ghost predicate Quiet(cfg: Config, w: World, w': World) {
    && w'.db.states == w.db.states && w'.logs == w.logs && w'.snapshots == w.snapshots
    && (forall id :: id in w.db.rows && id in w'.db.rows && cfg.userOf(w.db.rows[id].payload) > 0
          ==> w'.db.rows[id].handledAt == w.db.rows[id].handledAt)
  }

  lemma QuietKeepsHistory(cfg: Config, w: World, w': World)
    requires HistoryInv(cfg, w) && Moves(cfg, w.db, w'.db) && Quiet(cfg, w, w')
    ensures HistoryInv(cfg, w')
  {
    forall u ensures LogOf(w', u) == LogOf(w, u) {}
    forall k | 0 <= k < |w'.snapshots| ensures SnapshotOk(cfg, w', w'.snapshots[k]) {
      assert SnapshotOk(cfg, w, w.snapshots[k]);
    }
    forall u, i | u in w'.logs && 0 <= i < |w'.logs[u]| && w'.logs[u][i].Folded?
      ensures ItemMarked(w'.db, w'.logs[u][i])
    {
      assert ItemMarked(w.db, w.logs[u][i]);
    }
    forall u ensures StateOk(cfg, w', u) {
      assert StateOk(cfg, w, u);
    }
  }

  lemma ReadKeepsHistory(cfg: Config, w: World, e: Event)
    requires HistoryInv(cfg, w) && RowsInv(cfg, w) && e.ReadState?
    ensures HistoryInv(cfg, Apply(cfg, w, e))
  {
    var w' := Apply(cfg, w, e);
    if w' != w {
      var r := w'.snapshots[|w.snapshots|];
      var log := LogOf(w, r.user);
      assert log[..|log|] == log;
      assert StateOk(cfg, w, r.user);
      forall k | 0 <= k < |w'.snapshots| ensures SnapshotOk(cfg, w', w'.snapshots[k]) {
        if k < |w.snapshots| { assert SnapshotOk(cfg, w, w.snapshots[k]); }
      }
      forall u ensures StateOk(cfg, w', u) {
        assert StateOk(cfg, w, u);
      }
    }
  }

  /** Appending one item to one history, together with its effect on the state. */
  ghost predicate Extends(cfg: Config, w: World, w': World, user: int, it: Item) {
    && w'.snapshots == w.snapshots
    && w'.logs == w.logs[user := LogOf(w, user) + [it]]
    && LogOk(cfg, user, LogOf(w, user) + [it])
    && (forall u :: u != user ==> Stored(w'.db.states, u) == Stored(w.db.states, u))
    && Stored(w'.db.states, user) == Replay(cfg, LogOf(w, user) + [it])
    && (it.Folded? ==> ItemMarked(w'.db, it))
    && (forall id :: id in w.db.rows && id in w'.db.rows && cfg.userOf(w.db.rows[id].payload) > 0
          ==> w'.db.rows[id].handledAt == w.db.rows[id].handledAt
              || (it.Folded? && it.id == id && it.payload == w.db.rows[id].payload && cfg.userOf(it.payload) == user))
  }

  lemma ExtendKeepsSnapshots(cfg: Config, w: World, w': World, user: int, it: Item)
    requires HistoryInv(cfg, w) && Moves(cfg, w.db, w'.db) && Extends(cfg, w, w', user, it)
    ensures SnapshotsOk(cfg, w')
  {
    hide LogsOk, StatesOk, MarksOk, LogOk, Replay;
    forall k | 0 <= k < |w'.snapshots| ensures SnapshotOk(cfg, w', w'.snapshots[k]) {
      var r := w.snapshots[k];
      assert SnapshotOk(cfg, w, r);
      assert (LogOf(w, user) + [it])[..|LogOf(w, user)|] == LogOf(w, user);
      assert LogOf(w', r.user)[..r.seen] == LogOf(w, r.user)[..r.seen];
    }
  }

  lemma ExtendKeepsStates(cfg: Config, w: World, w': World, user: int, it: Item)
    requires HistoryInv(cfg, w) && Extends(cfg, w, w', user, it)
    ensures LogsOk(cfg, w') && StatesOk(cfg, w')
  {
    forall u ensures StateOk(cfg, w', u) {
      assert StateOk(cfg, w, u);
      assert u != user ==> LogOf(w', u) == LogOf(w, u);
    }
  }

  lemma ExtendKeepsMarks(cfg: Config, w: World, w': World, user: int, it: Item)
    requires HistoryInv(cfg, w) && Moves(cfg, w.db, w'.db) && Extends(cfg, w, w', user, it)
    ensures MarksOk(cfg, w')
  {
    hide Replay, LogOk, Stored, RowOk, StatesOk, SnapshotsOk;
    var log := LogOf(w, user);
    forall u, i | u in w'.logs && 0 <= i < |w'.logs[u]| && w'.logs[u][i].Folded?
      ensures ItemMarked(w'.db, w'.logs[u][i])
    {
      if u != user || i < |log| {
        assert u in w.logs && w.logs[u][i] == w'.logs[u][i];
        assert ItemMarked(w.db, w.logs[u][i]);
      }
    }
    forall id | id in w'.db.rows && w'.db.rows[id].handledAt.Some? && cfg.userOf(w'.db.rows[id].payload) > 0
      ensures RowLogged(cfg, w', id)
    {
      var u := cfg.userOf(w'.db.rows[id].payload);
      assert id in w.db.rows && RowLogged(cfg, w, id);
      if w.db.rows[id].handledAt.Some? {
        assert InLog(LogOf(w, u), id);
        var i :| 0 <= i < |LogOf(w, u)| && LogOf(w, u)[i].Folded? && LogOf(w, u)[i].id == id;
        assert LogOf(w', u)[i] == LogOf(w, u)[i];
      } else {
        assert LogOf(w', u)[|log|] == it;
      }
    }
  }

  lemma ExtendKeepsHistory(cfg: Config, w: World, w': World, user: int, it: Item)
    requires HistoryInv(cfg, w) && Moves(cfg, w.db, w'.db) && Extends(cfg, w, w', user, it)
    ensures HistoryInv(cfg, w')
  {
    ExtendKeepsSnapshots(cfg, w, w', user, it);
    ExtendKeepsStates(cfg, w, w', user, it);
    ExtendKeepsMarks(cfg, w, w', user, it);
  }

  function FoldedItem(r: Read, now: int): Item {
    Folded(r.id, r.payload, r.seen, r.readAt, r.broadcast, r.observed, now)
  }

  /** The heart of the protocol: a commit that the version check lets through
      was computed from the latest folded state. */
  lemma VersionCheckIsEnough(cfg: Config, w: World, r: Read, now: int)
    requires HistoryInv(cfg, w) && SnapshotOk(cfg, w, r)
    requires Version(w.db.states, r.user) == VersionOf(r.base) < r.id
    requires Outcome(cfg, r.base, r.payload, r.broadcast, r.readAt, r.observed).Handled?
    ensures LogOk(cfg, r.user, LogOf(w, r.user) + [FoldedItem(r, now)])
    ensures Replay(cfg, LogOf(w, r.user) + [FoldedItem(r, now)]) == After(cfg, r.base, FoldedItem(r, now))
  {
    var log, it := LogOf(w, r.user), FoldedItem(r, now);
    LogIsOk(cfg, w, r.user);
    PrefixOk(cfg, r.user, log, r.seen);
    VersionIsLastId(cfg, r.user, log[..r.seen]);
    VersionIsLastId(cfg, r.user, log);
    assert StateOk(cfg, w, r.user);
    OnlyClearsSince(cfg, r.user, log, r.seen);
    assert (log + [it])[..|log|] == log;
  }

  /** What a commit that goes through has checked and done. */
  lemma CommitFacts(cfg: Config, w: World, e: Event)
    requires e.CommitRead? && Apply(cfg, w, e) != w
    ensures e.read < |w.snapshots|
    ensures
      var r, w' := w.snapshots[e.read], Apply(cfg, w, e);
      var outcome := Outcome(cfg, r.base, r.payload, r.broadcast, r.readAt, r.observed);
      && outcome.Handled?
      && Version(w.db.states, r.user) == VersionOf(r.base) < r.id
      && r.id in w.db.rows && w.db.rows[r.id].handledAt.None? && LeaseHeld(w.db.rows[r.id], e.owner, e.now)
      && w'.snapshots == w.snapshots && w'.claims == w.claims && w'.db.offset == w.db.offset
      && w'.logs == w.logs[r.user := LogOf(w, r.user) + [FoldedItem(r, e.now)]]
      && w'.db.states == w.db.states[r.user := StateRow(StateJson(outcome.state), outcome.state.Some?, r.id, e.now)]
      && w'.db.rows == w.db.rows[r.id := w.db.rows[r.id].(handledAt := Some(e.now))]
  {
  }

  lemma CommitExtends(cfg: Config, w: World, e: Event)
    requires HistoryInv(cfg, w) && RowsInv(cfg, w) && e.CommitRead? && Apply(cfg, w, e) != w
    ensures e.read < |w.snapshots|
    ensures Extends(cfg, w, Apply(cfg, w, e), w.snapshots[e.read].user, FoldedItem(w.snapshots[e.read], e.now))
  {
    CommitFacts(cfg, w, e);
    var r := w.snapshots[e.read];
    assert SnapshotOk(cfg, w, r);
    VersionCheckIsEnough(cfg, w, r, e.now);
  }

  lemma LogIsOk(cfg: Config, w: World, user: int)
    requires LogsOk(cfg, w)
    ensures LogOk(cfg, user, LogOf(w, user))
  {
  }

  lemma RevokeExtends(cfg: Config, w: World, e: Event)
    requires HistoryInv(cfg, w) && e.Revoke? && Clears(w.db, e.q, e.owner, e.now)
    ensures Extends(cfg, w, Apply(cfg, w, e), w.db.replies[e.q].input.actor, Cleared(e.now))
  {
    var actor := w.db.replies[e.q].input.actor;
    var log := LogOf(w, actor);
    LogIsOk(cfg, w, actor);
    assert (log + [Cleared(e.now)])[..|log|] == log;
    assert StateOk(cfg, w, actor);
  }

  lemma StepKeepsHistory(cfg: Config, w: World, e: Event)
    requires RowsInv(cfg, w) && w.db.offset >= 0 && HistoryInv(cfg, w)
    ensures HistoryInv(cfg, Apply(cfg, w, e))
  {
    var w' := Apply(cfg, w, e);
    StepMoves(cfg, w, e);
    if e.ReadState? {
      ReadKeepsHistory(cfg, w, e);
    } else if e.CommitRead? {
      if w' != w {
        CommitExtends(cfg, w, e);
        var r := w.snapshots[e.read];
        ExtendKeepsHistory(cfg, w, w', r.user, FoldedItem(r, e.now));
      }
    } else if e.Revoke? && Clears(w.db, e.q, e.owner, e.now) {
      RevokeExtends(cfg, w, e);
      ExtendKeepsHistory(cfg, w, w', w.db.replies[e.q].input.actor, Cleared(e.now));
    } else {
      StepIsQuiet(cfg, w, e);
      QuietKeepsHistory(cfg, w, w');
    }
  }

  lemma StepIsQuiet(cfg: Config, w: World, e: Event)
    requires RowsInv(cfg, w) && !e.ReadState? && !e.CommitRead?
    requires e.Revoke? ==> !Clears(w.db, e.q, e.owner, e.now)
    ensures Quiet(cfg, w, Apply(cfg, w, e))
  {
    hide Replay, CommitStep, RepliesAfter, RoutesOk, ClaimsOk;
    if e.Deliver? { InsertAllKeeps(w.db.rows, e.updates, w.db.processed, e.now); }
  }

  lemma {:induction false} RunKeepsHistory(cfg: Config, legacy: set<int>, events: seq<Event>)
    ensures HistoryInv(cfg, Run(cfg, legacy, events))
  {
    if events != [] {
      var init := events[..|events| - 1];
      RunKeepsHistory(cfg, legacy, init);
      RunKeepsRows(cfg, legacy, init);
      StepKeepsHistory(cfg, Run(cfg, legacy, init), events[|events| - 1]);
    }
  }

  // -------------------------------------------------------------- main theorems

  /** In every run, a user's stored row is the replay of the user's history, its
      version is the last update folded in, ids strictly increase, and between
      the read behind an update and its commit only revoke clears happened. */
  lemma StateIsReplayOfHistory(cfg: Config, legacy: set<int>, events: seq<Event>, w: World, user: int)
    requires w == Run(cfg, legacy, events)
    ensures Stored(w.db.states, user) == Replay(cfg, LogOf(w, user))
    ensures LogOk(cfg, user, LogOf(w, user))
    ensures Version(w.db.states, user) == LastId(LogOf(w, user))
    ensures forall i, j :: 0 <= i < j < |LogOf(w, user)| && LogOf(w, user)[i].Folded? && LogOf(w, user)[j].Folded?
              ==> LogOf(w, user)[i].id < LogOf(w, user)[j].id
  {
    RunKeepsHistory(cfg, legacy, events);
    var log := LogOf(w, user);
    LogIsOk(cfg, w, user);
    VersionIsLastId(cfg, user, log);
    assert StateOk(cfg, w, user);
    forall i, j | 0 <= i < j < |log| && log[i].Folded? && log[j].Folded? ensures log[i].id < log[j].id {
      IdsIncrease(cfg, user, log, i, j);
    }
  }

  lemma {:induction false} ReplayIsFold(cfg: Config, user: int, log: Log)
    requires LogOk(cfg, user, log) && forall i :: 0 <= i < |log| ==> log[i].Folded?
    ensures Replay(cfg, log) == Fold(cfg, log)
    decreases |log|
  {
    if log != [] {
      var before, it := log[..|log| - 1], log[|log| - 1];
      assert forall i :: 0 <= i < |before| ==> before[i] == log[i];
      assert it.seen == |before|;
      assert before[..it.seen] == before;
      ReplayIsFold(cfg, user, before);
    }
  }

  /** Without revocations the stored state is the plain left fold of the handler
      over the user's handled updates in increasing order, each exactly once. */
  lemma StateIsFoldOfHandledUpdates(cfg: Config, legacy: set<int>, events: seq<Event>, w: World, user: int)
    requires w == Run(cfg, legacy, events)
    requires forall i :: 0 <= i < |LogOf(w, user)| ==> LogOf(w, user)[i].Folded?
    ensures Stored(w.db.states, user) == Fold(cfg, LogOf(w, user))
  {
    StateIsReplayOfHistory(cfg, legacy, events, w, user);
    ReplayIsFold(cfg, user, LogOf(w, user));
  }

  /** The handled mark of a private update and its place in its user's history
      are one: a kept row is marked if and only if the update was folded in. */
  lemma HandledIffFolded(cfg: Config, legacy: set<int>, events: seq<Event>, w: World, id: int)
    requires w == Run(cfg, legacy, events) && id in w.db.rows && cfg.userOf(w.db.rows[id].payload) > 0
    ensures w.db.rows[id].handledAt.Some? <==> InLog(LogOf(w, cfg.userOf(w.db.rows[id].payload)), id)
    ensures w.db.rows[id].status == Done ==>
      w.db.rows[id].attempts == 0 || InLog(LogOf(w, cfg.userOf(w.db.rows[id].payload)), id)
  {
    RunKeepsRows(cfg, legacy, events);
    RunKeepsHistory(cfg, legacy, events);
    var u := cfg.userOf(w.db.rows[id].payload);
    if InLog(LogOf(w, u), id) {
      var i :| 0 <= i < |LogOf(w, u)| && LogOf(w, u)[i].Folded? && LogOf(w, u)[i].id == id;
      assert ItemMarked(w.db, w.logs[u][i]);
    }
    assert RowOk(cfg, w.db.rows[id]);
  }

  /** Clears at the end of a history keep the version and leave no state. */
  lemma {:induction false} ClearsLeaveNoState(cfg: Config, log: Log, k: nat)
    requires k <= |log| && forall i :: k <= i < |log| ==> log[i].Cleared?
    ensures Replay(cfg, log).None? <==> Replay(cfg, log[..k]).None?
    ensures k < |log| && Replay(cfg, log).Some? ==> !Replay(cfg, log).value.hasState
    decreases |log|
  {
    if k == |log| {
      assert log[..k] == log;
    } else {
      var before := log[..|log| - 1];
      assert before[..k] == log[..k];
      ClearsLeaveNoState(cfg, before, k);
    }
  }

  /** Exactly when a commit that passes the version check honours the clears since
      its read. It starts from the stored row if and only if there were none, or
      what it read held no state; and its handler is given what it would be given
      now in these cases, when the state it read was too old to be restored, and
      when the pending broadcast is that same state. */
  lemma ClearIsHonouredIff(cfg: Config, legacy: set<int>, events: seq<Event>, w: World, read: nat)
    requires w == Run(cfg, legacy, events) && read < |w.snapshots|
    requires Version(w.db.states, w.snapshots[read].user) == VersionOf(w.snapshots[read].base)
    ensures
      var r := w.snapshots[read];
      r.base.Some? && r.base.value.hasState ==>
        (r.base == Stored(w.db.states, r.user) <==> r.seen == |LogOf(w, r.user)|)
    ensures
      var r := w.snapshots[read];
      Restore(cfg, Stored(w.db.states, r.user), r.payload, r.broadcast, r.readAt)
        == Restore(cfg, r.base, r.payload, r.broadcast, r.readAt)
      <==>
      (r.seen == |LogOf(w, r.user)| || r.base.None? || !r.base.value.hasState ||
       r.readAt - r.base.value.updatedAt >= PRIVATE_STATE_TTL || r.broadcast == Some(r.base.value.json))
  {
    hide LogOk, MarksOk;
    RunKeepsHistory(cfg, legacy, events);
    var r := w.snapshots[read];
    var log := LogOf(w, r.user);
    assert SnapshotOk(cfg, w, r) && StateOk(cfg, w, r.user);
    LogIsOk(cfg, w, r.user);
    PrefixOk(cfg, r.user, log, r.seen);
    VersionIsLastId(cfg, r.user, log[..r.seen]);
    VersionIsLastId(cfg, r.user, log);
    OnlyClearsSince(cfg, r.user, log, r.seen);
    ClearsLeaveNoState(cfg, log, r.seen);
    if r.seen == |log| { assert log[..r.seen] == log; }
  }

  /** What the revoke clear does not guarantee: a worker that read the state
      before the clear and still holds its lease commits a state computed from
      what the clear erased, because the clear does not move the version. */
  lemma ClearIsLostToEarlierReader(cfg: Config, legacy: set<int>, events: seq<Event>, w: World,
                                   q: int, qOwner: string, at: int, read: nat, owner: string, now: int)
    requires w == Run(cfg, legacy, events)
    requires Clears(w.db, q, qOwner, at) && read < |w.snapshots| && owner != ""
    requires var r := w.snapshots[read];
      && r.user == w.db.replies[q].input.actor && VersionOf(r.base) == Version(w.db.states, r.user) < r.id
      && r.id in w.db.rows && w.db.rows[r.id].handledAt.None? && LeaseHeld(w.db.rows[r.id], owner, now)
      && Outcome(cfg, r.base, r.payload, r.broadcast, r.readAt, r.observed).Handled?
      && Outcome(cfg, r.base, r.payload, r.broadcast, r.readAt, r.observed).reply.None?
    ensures
      var r := w.snapshots[read];
      var cleared := Apply(cfg, w, Revoke(q, qOwner, at));
      var after := Apply(cfg, cleared, CommitRead(read, owner, now));
      && r.user in cleared.db.states && cleared.db.states[r.user] == ClearedState(w.db.states[r.user], at)
      && after.db.states == Apply(cfg, w, CommitRead(read, owner, now)).db.states
      && r.user in after.db.states && after.db.states[r.user].version == r.id
  {
    hide Replay, LogsOk, StatesOk, MarksOk, Run, Outcome, Persist, RowsAfter, RepliesAfter, ClaimStep;
    RunKeepsHistory(cfg, legacy, events);
    assert SnapshotOk(cfg, w, w.snapshots[read]);
  }
}
