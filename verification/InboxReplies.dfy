/**
 * The quick-reply outbox: a reply exists only together with the commit of the
 * update that staged it, replies of one actor go out in order, closed replies
 * stay closed, and a revocation never touches a later update's state.
 */
module InboxReplies {
  import opened Options
  import opened Sets
  import opened InboxTables
  import opened InboxProtocol
  import opened InboxHistory

  ghost predicate ReplyOk(cfg: Config, q: Reply) {
    && q.attempts <= cfg.maxSends
    && q.stateVersion == q.update >= 0
    && (q.status == Waiting ==> q.attempts == 0)
    && (q.status == Backoff ==> 0 < q.attempts < cfg.maxSends)
    && (q.status == Sending ==> 0 < q.attempts && q.leaseUntil.Some?)
    && (Closed(q.status) ==> 0 < q.attempts && q.completedAt.Some?)
  }

  /** Item `i` of the user's history is the update of `q`, and handling it staged
      exactly this reply. */
  ghost predicate StagedAt(cfg: Config, w: World, q: Reply, user: int, i: int) {
    var log := LogOf(w, user);
    0 <= i < |log| && log[i].Folded? && log[i].id == q.update && log[i].seen <= |log| &&
    ItemOutcome(cfg, Replay(cfg, log[..log[i].seen]), log[i]).Handled? &&
    ItemOutcome(cfg, Replay(cfg, log[..log[i].seen]), log[i]).reply == Some(q.input)
  }

  ghost predicate Staged(cfg: Config, w: World, q: Reply) {
    exists user, i :: StagedAt(cfg, w, q, user, i)
  }

  ghost predicate Distinct(replies: Replies) {
    forall p, q :: p in replies && q in replies && p != q ==>
      replies[p].update != replies[q].update && replies[p].input.dedupe != replies[q].input.dedupe
  }

  /** Once a reply was claimed, every earlier reply of its actor is closed. */
  ghost predicate ActorsOk(replies: Replies) {
    forall p, q :: p in replies && q in replies && p < q && replies[p].input.actor == replies[q].input.actor
                   && replies[q].attempts > 0
      ==> Closed(replies[p].status)
  }

  ghost predicate EachReplyOk(cfg: Config, w: World) {
    forall q :: q in w.db.replies ==>
      0 < q < w.db.nextReply && ReplyOk(cfg, w.db.replies[q]) && Staged(cfg, w, w.db.replies[q])
  }

  ghost predicate RepliesInv(cfg: Config, w: World) {
    w.db.nextReply > 0 && EachReplyOk(cfg, w) && Distinct(w.db.replies) && ActorsOk(w.db.replies)
  }

  ghost predicate ReplyMoved(cfg: Config, replies: Replies, q: int, after: Reply)
    requires q in replies
  {
    var r := replies[q];
    && after.input == r.input && after.update == r.update && after.stateVersion == r.stateVersion
    && (Closed(r.status) ==> after.status == r.status && after.attempts == r.attempts)
    && ReplyOk(cfg, after)
    && (after.attempts == r.attempts || HeadOfActor(replies, q))
  }

  /** Replies move one by one or are cleaned up; none appears. */
  ghost predicate RepliesMove(cfg: Config, db: Db, db': Db) {
    && db'.nextReply == db.nextReply
    && (forall q :: q in db'.replies ==> q in db.replies && ReplyMoved(cfg, db.replies, q, db'.replies[q]))
  }

  /** Histories only grow. */
  ghost predicate LogsGrow(w: World, w': World) { forall u :: LogOf(w, u) <= LogOf(w', u) }

  lemma StagedStays(cfg: Config, w: World, w': World, q: Reply, q': Reply)
    requires Staged(cfg, w, q) && LogsGrow(w, w') && q'.update == q.update && q'.input == q.input
    ensures Staged(cfg, w', q')
  {
    var user, i :| StagedAt(cfg, w, q, user, i);
    var log, log' := LogOf(w, user), LogOf(w', user);
    assert log <= log';
    assert log'[..log[i].seen] == log[..log[i].seen];
    assert StagedAt(cfg, w', q', user, i);
  }

  lemma MovesKeepReplies(cfg: Config, w: World, w': World)
    requires RepliesInv(cfg, w) && RepliesMove(cfg, w.db, w'.db) && LogsGrow(w, w')
    ensures RepliesInv(cfg, w')
  {
    forall q | q in w'.db.replies ensures Staged(cfg, w', w'.db.replies[q]) {
      StagedStays(cfg, w, w', w.db.replies[q], w'.db.replies[q]);
    }
    forall p, q | p in w'.db.replies && q in w'.db.replies && p < q
                  && w'.db.replies[p].input.actor == w'.db.replies[q].input.actor && w'.db.replies[q].attempts > 0
      ensures Closed(w'.db.replies[p].status)
    {
      assert ReplyMoved(cfg, w.db.replies, p, w'.db.replies[p]);
      assert ReplyMoved(cfg, w.db.replies, q, w'.db.replies[q]);
    }
  }

  lemma SweepMoves(cfg: Config, w: World, e: Event)
    requires RepliesInv(cfg, w) && (e.ExpireSends? || e.CleanupSends?)
    ensures RepliesMove(cfg, w.db, Apply(cfg, w, e).db)
  {
    hide Persist, ClaimStep, CommitStep, RevokeStep, RowsAfter, Staged, Distinct, ActorsOk;
  }

  lemma ClaimSendsMoves(cfg: Config, w: World, e: Event)
    requires RepliesInv(cfg, w) && e.ClaimSends?
    ensures RepliesMove(cfg, w.db, Apply(cfg, w, e).db)
  {
    hide Persist, ClaimStep, CommitStep, RevokeStep, RowsAfter, Staged, Distinct, ActorsOk, Lowest;
    var batch := Lowest(ReplyCandidates(w.db.replies, cfg.maxSends, e.now) - e.locked, AtLeastOne(e.limit));
    assert batch <= ReplyCandidates(w.db.replies, cfg.maxSends, e.now);
  }

  lemma RenewMoves(cfg: Config, db: Db, q: int, owner: string, lease: int, now: int)
    requires forall p :: p in db.replies ==> ReplyOk(cfg, db.replies[p])
    ensures RepliesMove(cfg, db, db.(replies := RenewReply(db.replies, q, owner, lease, now)))
  {
  }

  lemma EndMoves(cfg: Config, db: Db, db': Db, q: int, owner: string, status: Delivery, now: int)
    requires forall p :: p in db.replies ==> ReplyOk(cfg, db.replies[p])
    requires Closed(status) && db'.replies == EndReply(db.replies, q, owner, status, now) && db'.nextReply == db.nextReply
    ensures RepliesMove(cfg, db, db')
  {
  }

  lemma RetryMoves(cfg: Config, db: Db, q: int, owner: string, retryAt: int, now: int)
    requires forall p :: p in db.replies ==> ReplyOk(cfg, db.replies[p])
    ensures RepliesMove(cfg, db, db.(replies := RetryReply(db.replies, q, owner, cfg.maxSends, retryAt, now)))
  {
  }

  lemma OneReplyMoves(cfg: Config, w: World, e: Event)
    requires RepliesInv(cfg, w) && (e.RenewSend? || e.EndSend? || e.RetrySend? || e.Revoke?)
    ensures RepliesMove(cfg, w.db, Apply(cfg, w, e).db)
  {
    hide Persist, ClaimStep, CommitStep, Staged, Distinct, ActorsOk, RepliesMove, ReplyOk, EndReply, RenewReply, RetryReply;
    match e
    case RenewSend(q, owner, lease, now) => RenewMoves(cfg, w.db, q, owner, lease, now);
    case EndSend(q, owner, sent, now) =>
      EndMoves(cfg, w.db, Apply(cfg, w, e).db, q, owner, if sent then Sent else Dropped, now);
    case RetrySend(q, owner, retryAt, now) => RetryMoves(cfg, w.db, q, owner, retryAt, now);
    case Revoke(q, owner, now) => EndMoves(cfg, w.db, Apply(cfg, w, e).db, q, owner, Cancelled, now);
    case _ =>
  }

  lemma SendStepMoves(cfg: Config, w: World, e: Event)
    requires RepliesInv(cfg, w) && !e.CommitRead?
    ensures RepliesMove(cfg, w.db, Apply(cfg, w, e).db)
  {
    hide RowsAfter, ClaimStep, CommitStep, RevokeStep, Staged, Distinct, ActorsOk;
    if e.ExpireSends? || e.CleanupSends? { SweepMoves(cfg, w, e); }
    else if e.ClaimSends? { ClaimSendsMoves(cfg, w, e); }
    else if e.RenewSend? || e.EndSend? || e.RetrySend? || e.Revoke? { OneReplyMoves(cfg, w, e); }
    else { OutboxUntouched(cfg, w, e); }
  }

  lemma OutboxUntouched(cfg: Config, w: World, e: Event)
    requires !e.ExpireSends? && !e.CleanupSends? && !e.ClaimSends? && !e.RenewSend? && !e.EndSend? && !e.RetrySend?
    requires !e.Revoke? && !e.CommitRead?
    ensures Apply(cfg, w, e).db.replies == w.db.replies && Apply(cfg, w, e).db.nextReply == w.db.nextReply
  {
    hide RowsAfter, CommitStep, RevokeStep, Batch, ClaimBatch;
  }

  lemma LogsOnlyGrow(cfg: Config, w: World, e: Event)
    ensures LogsGrow(w, Apply(cfg, w, e))
  {
  }

  /** The row a staged reply conflicts with can only be its own, and then the
      update would already be handled: the "same delivery" branch of the insert
      is never taken by a commit. */
  lemma NoReplyYet(cfg: Config, w: World, update: int, input: ReplyInput)
    requires RepliesInv(cfg, w) && HistoryInv(cfg, w)
    requires update in w.db.rows && w.db.rows[update].handledAt.None?
    requires Conflicting(w.db.replies, update, input)
    ensures !SameDelivery(w.db.replies, update, input)
  {
    forall q | q in w.db.replies ensures w.db.replies[q].update != update {
      var user, i :| StagedAt(cfg, w, w.db.replies[q], user, i);
      assert user in w.logs && ItemMarked(w.db, w.logs[user][i]);
    }
  }

  /** A commit that goes through queues the reply its update staged, as a new
      row, or leaves the outbox alone when none was staged. */
  lemma CommitQueuesReply(cfg: Config, w: World, e: Event)
    requires RepliesInv(cfg, w) && HistoryInv(cfg, w) && e.CommitRead? && Apply(cfg, w, e) != w
    ensures e.read < |w.snapshots|
    ensures
      var r, db' := w.snapshots[e.read], Apply(cfg, w, e).db;
      var outcome := Outcome(cfg, r.base, r.payload, r.broadcast, r.readAt, r.observed);
      outcome.Handled? &&
      if outcome.reply.None? then db'.replies == w.db.replies && db'.nextReply == w.db.nextReply
      else !Conflicting(w.db.replies, r.id, outcome.reply.value) && db'.nextReply == w.db.nextReply + 1
           && db'.replies == w.db.replies[w.db.nextReply := NewReply(r.id, outcome.reply.value, e.now)]
  {
    hide Replay, LogsOk, StatesOk, SnapshotsOk;
    CommitFacts(cfg, w, e);
    var r := w.snapshots[e.read];
    var outcome := Outcome(cfg, r.base, r.payload, r.broadcast, r.readAt, r.observed);
    if outcome.reply.Some? && Conflicting(w.db.replies, r.id, outcome.reply.value) {
      NoReplyYet(cfg, w, r.id, outcome.reply.value);
    }
  }

  lemma NewReplyIsStaged(cfg: Config, w: World, e: Event)
    requires RepliesInv(cfg, w) && HistoryInv(cfg, w) && e.CommitRead? && Apply(cfg, w, e) != w
    requires w.db.nextReply in Apply(cfg, w, e).db.replies
    ensures Staged(cfg, Apply(cfg, w, e), Apply(cfg, w, e).db.replies[w.db.nextReply])
  {
    CommitFacts(cfg, w, e);
    CommitQueuesReply(cfg, w, e);
    var w', r := Apply(cfg, w, e), w.snapshots[e.read];
    assert SnapshotOk(cfg, w, r);
    var log := LogOf(w, r.user);
    assert LogOf(w', r.user) == log + [FoldedItem(r, e.now)];
    assert (log + [FoldedItem(r, e.now)])[..r.seen] == log[..r.seen];
    assert StagedAt(cfg, w', w'.db.replies[w.db.nextReply], r.user, |log|);
  }

  /** A new reply, with an update and a dedupe key of its own, comes last. */
  lemma NewReplyKeepsOrder(replies: Replies, next: int, reply: Reply)
    requires Distinct(replies) && ActorsOk(replies) && (forall q :: q in replies ==> 0 < q < next)
    requires !Conflicting(replies, reply.update, reply.input) && reply.attempts == 0
    ensures Distinct(replies[next := reply]) && ActorsOk(replies[next := reply])
  {
  }

  lemma CommitKeepsStaged(cfg: Config, w: World, e: Event)
    requires RepliesInv(cfg, w) && HistoryInv(cfg, w) && e.CommitRead? && Apply(cfg, w, e) != w
    ensures EachReplyOk(cfg, Apply(cfg, w, e)) && Apply(cfg, w, e).db.nextReply > 0
  {
    hide Apply, Replay, Outcome, Staged, HistoryInv, Distinct, ActorsOk;
    var w' := Apply(cfg, w, e);
    LogsOnlyGrow(cfg, w, e);
    CommitQueuesReply(cfg, w, e);
    NewReplyIsOk(cfg, w, e);
    forall q | q in w'.db.replies
      ensures 0 < q < w'.db.nextReply && ReplyOk(cfg, w'.db.replies[q]) && Staged(cfg, w', w'.db.replies[q])
    {
      if q in w.db.replies {
        StagedStays(cfg, w, w', w.db.replies[q], w'.db.replies[q]);
      } else {
        NewReplyIsStaged(cfg, w, e);
      }
    }
  }

  lemma NewReplyIsOk(cfg: Config, w: World, e: Event)
    requires HistoryInv(cfg, w) && e.CommitRead? && e.read < |w.snapshots|
    ensures forall input :: ReplyOk(cfg, NewReply(w.snapshots[e.read].id, input, e.now))
  {
    hide Replay, LogsOk, StatesOk, MarksOk;
    assert SnapshotOk(cfg, w, w.snapshots[e.read]);
  }

  lemma CommitKeepsReplies(cfg: Config, w: World, e: Event)
    requires RepliesInv(cfg, w) && HistoryInv(cfg, w) && e.CommitRead? && Apply(cfg, w, e) != w
    ensures RepliesInv(cfg, Apply(cfg, w, e))
  {
    hide Apply, Replay, Outcome, Staged, HistoryInv, Distinct, ActorsOk, Conflicting;
    CommitKeepsStaged(cfg, w, e);
    CommitQueuesReply(cfg, w, e);
    var r := w.snapshots[e.read];
    var outcome := Outcome(cfg, r.base, r.payload, r.broadcast, r.readAt, r.observed);
    if outcome.reply.Some? {
      NewReplyKeepsOrder(w.db.replies, w.db.nextReply, NewReply(r.id, outcome.reply.value, e.now));
    }
  }

  lemma {:induction false} RunKeepsReplies(cfg: Config, legacy: set<int>, events: seq<Event>)
    ensures RepliesInv(cfg, Run(cfg, legacy, events))
  {
    if events != [] {
      var init, e := events[..|events| - 1], events[|events| - 1];
      var w := Run(cfg, legacy, init);
      RunKeepsReplies(cfg, legacy, init);
      RunKeepsHistory(cfg, legacy, init);
      if e.CommitRead? {
        if Apply(cfg, w, e) != w { CommitKeepsReplies(cfg, w, e); }
      } else {
        SendStepMoves(cfg, w, e);
        LogsOnlyGrow(cfg, w, e);
        MovesKeepReplies(cfg, w, Apply(cfg, w, e));
      }
    }
  }

  // -------------------------------------------------------------- main theorems

  /** In every run: a reply row exists only for an update that was folded into a
      user's state, whose handling staged exactly this reply, and whose inbox row
      (while kept) is marked handled; and no update has two replies. */
  lemma ReplyOnlyWithItsCommit(cfg: Config, legacy: set<int>, events: seq<Event>, w: World, q: int)
    requires w == Run(cfg, legacy, events) && q in w.db.replies
    ensures Staged(cfg, w, w.db.replies[q])
    ensures w.db.replies[q].update in w.db.rows ==> w.db.rows[w.db.replies[q].update].handledAt.Some?
    ensures forall p :: p in w.db.replies && w.db.replies[p].update == w.db.replies[q].update ==> p == q
  {
    RunKeepsReplies(cfg, legacy, events);
    RunKeepsHistory(cfg, legacy, events);
    var user, i :| StagedAt(cfg, w, w.db.replies[q], user, i);
    assert ItemMarked(w.db, w.logs[user][i]);
  }

  /** Replies of one actor are claimed in id order: behind a claimed reply every
      earlier one is closed, and no later one was ever claimed while it is open. */
  lemma RepliesInActorOrder(cfg: Config, legacy: set<int>, events: seq<Event>, w: World, p: int, q: int)
    requires w == Run(cfg, legacy, events) && p in w.db.replies && q in w.db.replies && p < q
    requires w.db.replies[p].input.actor == w.db.replies[q].input.actor
    ensures w.db.replies[q].attempts > 0 ==> Closed(w.db.replies[p].status)
    ensures !Closed(w.db.replies[p].status) ==> w.db.replies[q].status == Waiting
    ensures w.db.replies[q].attempts <= cfg.maxSends
  {
    RunKeepsReplies(cfg, legacy, events);
    assert ReplyOk(cfg, w.db.replies[p]) && ReplyOk(cfg, w.db.replies[q]);
  }

  /** Reply `q` is closed for good: cleaned up, or still showing `was`. */
  ghost predicate ClosedAs(w: World, q: int, was: Reply) {
    Closed(was.status) && q < w.db.nextReply &&
    (q in w.db.replies ==>
       w.db.replies[q].status == was.status && w.db.replies[q].attempts == was.attempts && w.db.replies[q].input == was.input)
  }

  lemma ClosedStays(cfg: Config, w: World, e: Event, q: int, was: Reply)
    requires RepliesInv(cfg, w) && HistoryInv(cfg, w) && ClosedAs(w, q, was)
    ensures ClosedAs(Apply(cfg, w, e), q, was)
  {
    if e.CommitRead? {
      if Apply(cfg, w, e) != w { CommitQueuesReply(cfg, w, e); }
    } else {
      SendStepMoves(cfg, w, e);
    }
  }

  /** Sent, cancelled and dead are absorbing over any continuation of any run. */
  lemma {:induction false} ClosedIsFinal(cfg: Config, legacy: set<int>, events: seq<Event>, more: seq<Event>, q: int)
    requires q in Run(cfg, legacy, events).db.replies && Closed(Run(cfg, legacy, events).db.replies[q].status)
    ensures ClosedAs(Run(cfg, legacy, events + more), q, Run(cfg, legacy, events).db.replies[q])
    decreases |more|
  {
    hide Apply;
    if more == [] {
      RunKeepsReplies(cfg, legacy, events);
      assert events + more == events;
    } else {
      var init, e := more[..|more| - 1], more[|more| - 1];
      var all := events + more;
      assert all[..|all| - 1] == events + init && all[|all| - 1] == e;
      ClosedIsFinal(cfg, legacy, events, init, q);
      RunKeepsReplies(cfg, legacy, events + init);
      RunKeepsHistory(cfg, legacy, events + init);
      ClosedStays(cfg, Run(cfg, legacy, events + init), e, q, Run(cfg, legacy, events).db.replies[q]);
    }
  }

  /** A cancellation changes at most the stored state of the reply's actor, and
      only while that state is the one left by the very update that staged the
      reply: no state written by a later update is ever erased. */
  lemma CancelSparesLaterStates(cfg: Config, legacy: set<int>, events: seq<Event>, w: World, e: Event, user: int)
    requires w == Run(cfg, legacy, events) && e.Revoke?
    requires Stored(Apply(cfg, w, e).db.states, user) != Stored(w.db.states, user)
    ensures e.q in w.db.replies && user == w.db.replies[e.q].input.actor
    ensures LastId(LogOf(w, user)) == w.db.replies[e.q].update && InLog(LogOf(w, user), w.db.replies[e.q].update)
    ensures Version(Apply(cfg, w, e).db.states, user) == Version(w.db.states, user)
    ensures Apply(cfg, w, e).db.replies[e.q].status == Cancelled
  {
    RunKeepsReplies(cfg, legacy, events);
    StateIsReplayOfHistory(cfg, legacy, events, w, user);
    LastIsInLog(LogOf(w, user));
    assert ReplyOk(cfg, w.db.replies[e.q]);
  }

  lemma {:induction false} LastIsInLog(log: Log)
    ensures LastId(log) != -1 ==> InLog(log, LastId(log))
  {
    if log != [] {
      var before := log[..|log| - 1];
      if log[|log| - 1].Cleared? {
        LastIsInLog(before);
        if LastId(before) != -1 {
          var i :| 0 <= i < |before| && before[i].Folded? && before[i].id == LastId(before);
          assert log[i] == before[i];
        }
      } else {
        assert log[|log| - 1].id == LastId(log);
      }
    }
  }
}
