/**
 * The store as the bot uses it: one object whose tables are updated in place,
 * one method per exported operation. Each method is tied to the statement
 * functions of `InboxTables`; what a whole run of such calls keeps is proved
 * in `InboxProtocol`.
 */
module TelegramStore {
  import opened Options
  import opened Sets
  import opened InboxTables

  class Store {
    var offset: int
    var rows: Rows
    var processed: set<int>
    var states: map<int, StateRow>
    var replies: Replies
    var nextReply: int

    ghost function Tables(): Db
      reads this
    {
      Db(offset, rows, processed, states, replies, nextReply)
    }

    constructor (legacy: set<int>)
      ensures Tables() == EmptyDb.(processed := legacy)
    {
      offset, rows, processed := 0, map[], legacy;
      states, replies, nextReply := map[], map[], 1;
    }

    /** `PersistTelegramUpdateBatch`: one malformed update rejects the batch. */
    method PersistBatch(updates: seq<Incoming>, now: int) returns (next: Option<int>)
      modifies this
      ensures Persist(old(Tables()), updates, now) == if next.Some? then Some(Tables()) else None
      ensures next.None? ==> Tables() == old(Tables())
      ensures next.Some? ==> next.value == offset
    {
      next := CheckBatch(updates);
      if next.None? { return; }
      for i := 0 to |updates|
        invariant rows == InsertAll(old(rows), updates[..i], processed, now)
        invariant Tables() == old(Tables()).(rows := rows)
      {
        assert updates[..i + 1][..i] == updates[..i];
        var u := updates[i];
        if u.id !in rows { rows := rows[u.id := NewRow(u, processed, now)]; }
      }
      assert updates[..|updates|] == updates;
      offset := next.value;
    }

    /** The next offset, if every update of the batch is complete. */
    method CheckBatch(updates: seq<Incoming>) returns (next: Option<int>)
      ensures next == if forall i :: 0 <= i < |updates| ==> Complete(updates[i]) then Some(NextOffset(updates, offset)) else None
    {
      var nextOffset := offset;
      for i := 0 to |updates|
        invariant forall k :: 0 <= k < i ==> Complete(updates[k])
        invariant nextOffset == NextOffset(updates[..i], offset)
      {
        if !Complete(updates[i]) { return None; }
        assert updates[..i + 1][..i] == updates[..i];
        if updates[i].id + 1 > nextOffset { nextOffset := updates[i].id + 1; }
      }
      assert updates[..|updates|] == updates;
      next := Some(nextOffset);
    }

    /** `ClaimTelegramUpdates`: kill exhausted rows, then claim the lowest due
        heads that are not locked by another claim. */
    method Claim(lane: Lane, owner: string, limit: int, maxAttempts: int, lease: int, now: int, locked: set<int>)
      returns (claimed: Option<set<int>>)
      modifies this
      ensures claimed.None? <==> owner == "" || lane.Unknown?
      ensures claimed.None? ==> Tables() == old(Tables())
      ensures claimed.Some? ==>
        var swept := ExpireExhausted(old(rows), lane, AtLeastOne(maxAttempts), now);
        && claimed.value == Batch(swept, lane, limit, AtLeastOne(maxAttempts), now, locked)
        && Tables() == old(Tables()).(rows := ClaimBatch(swept, claimed.value, owner, LeaseOrMinute(lease), now))
    {
      if owner == "" || lane.Unknown? { return None; }
      var most := AtLeastOne(maxAttempts);
      rows := ExpireExhausted(rows, lane, most, now);
      var left := Candidates(rows, lane, most, now) - locked;
      var want := AtLeastOne(limit);
      var batch: set<int> := {};
      ghost var all, swept := left, rows;
      while want > 0 && left != {}
        invariant batch + Lowest(left, want) == Lowest(all, AtLeastOne(limit))
        invariant rows == swept && Tables() == old(Tables()).(rows := swept)
        decreases want
      {
        var id := FindLeast(left);
        assert id == Least(left);
        batch, left, want := batch + {id}, left - {id}, want - 1;
      }
      assert Lowest(left, want) == {};
      rows := ClaimBatch(rows, batch, owner, LeaseOrMinute(lease), now);
      claimed := Some(batch);
    }

    /** `MarkTelegramUpdateHandled` */
    method MarkUpdateHandled(id: int, owner: string, now: int) returns (ok: bool)
      modifies this
      ensures Tables() == old(Tables()).(rows := MarkHandled(old(rows), id, owner, now))
      ensures ok <==> id in old(rows) && LeaseHeld(old(rows)[id], owner, now)
    {
      ok := id in rows && LeaseHeld(rows[id], owner, now);
      if ok { rows := rows[id := rows[id].(handledAt := Some(now))]; }
    }

    /** `RenewTelegramUpdateLease` */
    method RenewLease(id: int, owner: string, lease: int, now: int) returns (ok: bool)
      modifies this
      ensures Tables() == old(Tables()).(rows := Renew(old(rows), id, owner, lease, now))
      ensures ok <==> id in old(rows) && LeaseHeld(old(rows)[id], owner, now)
    {
      var span := lease;
      if span <= 0 { span := MINUTE; }
      ok := id in rows && LeaseHeld(rows[id], owner, now);
      if ok { rows := rows[id := rows[id].(leaseUntil := Some(now + span))]; }
    }

    /** `CompleteTelegramUpdate` */
    method CompleteUpdate(id: int, owner: string, now: int) returns (ok: bool)
      modifies this
      ensures Tables() == old(Tables()).(rows := Finish(old(rows), id, owner, now))
      ensures ok <==> CanFinish(old(rows), id, owner, now)
    {
      ok := id in rows && LeaseHeld(rows[id], owner, now) && rows[id].handledAt.Some?;
      if ok {
        rows := rows[id := rows[id].(status := Done, leaseOwner := "", leaseUntil := None, doneAt := Some(now))];
      }
    }

    /** `RetryTelegramUpdate`; `None` when the lease is gone. */
    method RetryUpdate(id: int, owner: string, maxAttempts: int, retryAt: int, now: int) returns (status: Option<Status>)
      modifies this
      ensures Tables() == old(Tables()).(rows := RetryLater(old(rows), id, owner, maxAttempts, retryAt, now))
      ensures status.Some? <==> id in old(rows) && LeaseHeld(old(rows)[id], owner, now)
      ensures status.Some? ==> status.value == if old(rows)[id].attempts >= maxAttempts then Dead else Retry
    {
      if id !in rows || !LeaseHeld(rows[id], owner, now) { return None; }
      if rows[id].attempts >= maxAttempts {
        rows := rows[id := Kill(rows[id])];
        return Some(Dead);
      }
      rows := rows[id := rows[id].(status := Retry, nextAttemptAt := retryAt, leaseOwner := "", leaseUntil := None)];
      status := Some(Retry);
    }

    /** `insertQuickReplyOutboxTx` */
    method InsertQuickReply(update: int, input: ReplyInput, now: int) returns (ok: bool)
      modifies this
      ensures ok <==> InsertReply(old(Tables()), update, input, now).Some?
      ensures ok ==> Some(Tables()) == InsertReply(old(Tables()), update, input, now)
      ensures !ok ==> Tables() == old(Tables())
    {
      if !CompleteReply(input) { return false; }
      if !Conflicting(replies, update, input) {
        replies := replies[nextReply := NewReply(update, input, now)];
        nextReply := nextReply + 1;
        return true;
      }
      ok := SameDelivery(replies, update, input);
    }

    /** `CommitTelegramPrivateStateHandledAndQuickReply`: the state is written
        before the quick reply is inserted, and a failing insert rolls it back. */
    method CommitPrivateStateHandled(id: int, owner: string, user: int, expected: int,
                                     json: string, hasState: bool, reply: Option<ReplyInput>, now: int)
      returns (result: CommitResult)
      modifies this
      ensures (Tables(), result) == CommitPrivateState(old(Tables()), id, owner, user, expected, json, hasState, reply, now)
    {
      if id < 0 || owner == "" || user <= 0 || id <= expected { return Incomplete; }
      if id !in rows { return LeaseLost; }
      if rows[id].handledAt.Some? { return Refused; }
      if !LeaseHeld(rows[id], owner, now) { return LeaseLost; }
      var current := -1;
      if user in states { current := states[user].version; }
      if current != expected || id <= current { return Refused; }
      var saved := states;
      states := states[user := StateRow(if json == "" then "{}" else json, hasState, id, now)];
      if reply.Some? {
        var inserted := InsertQuickReply(id, reply.value, now);
        if !inserted {
          states := saved;
          return ReplyConflict;
        }
      }
      rows := rows[id := rows[id].(handledAt := Some(now))];
      result := Committed;
    }

    /** `ClaimQuickReplyOutbox` */
    method ClaimQuickReplies(owner: string, limit: int, maxAttempts: int, lease: int, now: int, locked: set<int>)
      returns (claimed: Option<set<int>>)
      modifies this
      ensures claimed.None? <==> owner == ""
      ensures claimed.None? ==> Tables() == old(Tables())
      ensures claimed.Some? ==>
        var swept := ExpireReplies(old(replies), AtLeastOne(maxAttempts), now);
        && claimed.value == Lowest(ReplyCandidates(swept, AtLeastOne(maxAttempts), now) - locked, AtLeastOne(limit))
        && Tables() == old(Tables()).(replies := ClaimReplies(swept, claimed.value, owner, LeaseOrMinute(lease), now))
    {
      if owner == "" { return None; }
      replies := ExpireReplies(replies, AtLeastOne(maxAttempts), now);
      var left := ReplyCandidates(replies, AtLeastOne(maxAttempts), now) - locked;
      var want := AtLeastOne(limit);
      var batch: set<int> := {};
      ghost var all, swept := left, replies;
      while want > 0 && left != {}
        invariant batch + Lowest(left, want) == Lowest(all, AtLeastOne(limit))
        invariant replies == swept && Tables() == old(Tables()).(replies := swept)
        decreases want
      {
        var id := FindLeast(left);
        assert id == Least(left);
        batch, left, want := batch + {id}, left - {id}, want - 1;
      }
      assert Lowest(left, want) == {};
      replies := ClaimReplies(replies, batch, owner, LeaseOrMinute(lease), now);
      claimed := Some(batch);
    }

    /** `MarkQuickReplyOutboxSent` and `MarkQuickReplyOutboxDead` */
    method EndQuickReply(q: int, owner: string, sent: bool, now: int) returns (ok: bool)
      modifies this
      ensures Tables() == old(Tables()).(replies := EndReply(old(replies), q, owner, if sent then Sent else Dropped, now))
      ensures ok <==> q in old(replies) && ReplyHeld(old(replies)[q], owner, now)
    {
      ok := q in replies && ReplyHeld(replies[q], owner, now);
      if ok { replies := replies[q := CloseReply(replies[q], if sent then Sent else Dropped, now)]; }
    }

    /** `RetryQuickReplyOutbox` */
    method RetryQuickReply(q: int, owner: string, maxAttempts: int, retryAt: int, now: int) returns (status: Option<Delivery>)
      modifies this
      ensures Tables() == old(Tables()).(replies := RetryReply(old(replies), q, owner, maxAttempts, retryAt, now))
      ensures status.Some? <==> q in old(replies) && ReplyHeld(old(replies)[q], owner, now)
      ensures status.Some? ==> q in replies && status.value == replies[q].status
    {
      if q !in replies || !ReplyHeld(replies[q], owner, now) { return None; }
      if replies[q].attempts >= AtLeastOne(maxAttempts) {
        replies := replies[q := CloseReply(replies[q], Dropped, now)];
      } else {
        replies := replies[q := replies[q].(status := Backoff, nextAttemptAt := retryAt, leaseOwner := "",
                                            leaseUntil := None, completedAt := None)];
      }
      status := Some(replies[q].status);
    }

    /** `CancelQuickReplyOutboxRevoked` */
    method CancelRevoked(q: int, owner: string, now: int) returns (cancelled: bool, cleared: bool)
      modifies this
      ensures Tables() == CancelReply(old(Tables()), q, owner, now)
      ensures cancelled <==> q in old(replies) && ReplyHeld(old(replies)[q], owner, now)
      ensures cleared <==> Clears(old(Tables()), q, owner, now)
    {
      if q !in replies || !ReplyHeld(replies[q], owner, now) { return false, false; }
      var actor := replies[q].input.actor;
      cleared := actor in states && states[actor].version == replies[q].stateVersion;
      if cleared { states := states[actor := states[actor].(json := "{}", hasState := false, updatedAt := now)]; }
      replies := replies[q := CloseReply(replies[q], Cancelled, now)];
      cancelled := true;
    }
  }
}
