/**
 * A run in which a revoked draft comes back. The first update leaves a draft and
 * stages a reply; the worker of the second one reads the draft; sending the reply
 * is refused as revoked, which clears the draft; then the second update commits.
 */
module InboxRevocation {
  import opened Options
  import opened Sets
  import opened InboxTables
  import opened InboxProtocol

  const USER := 7

  const STAGED := ReplyInput("reply", USER, 1, 1, 1, 1)

  /** The first update leaves a draft, every other one the state it found. */
  const CFG: Config := Config(
    _ => USER, _ => None,
    (state, payload, _) => if payload == "ask" then Handled(Some("draft"), Some(STAGED)) else Handled(state, None), 8, 8)

  const EVENTS := [
    Deliver([Incoming(1, "ask", Ledger, "7"), Incoming(2, "next", Ledger, "7")], 0),
    Claim(Ledger, "w", 1, 100, 0, {}),
    ReadState(1, None, "", 0),
    CommitRead(0, "w", 1),
    FinishUpdate(1, "w", 1),
    Claim(Ledger, "w", 1, 100, 2, {}),
    ReadState(2, None, "", 3),
    ClaimSends("s", 1, 100, 4, {}),
    Revoke(1, "s", 5),
    CommitRead(1, "w", 6)]

  const ASK := Row(Ledger, "7", "ask", Pending, 0, 0, "", None, 0, None, 0, None)
  const NEXT := Row(Ledger, "7", "next", Pending, 0, 0, "", None, 0, None, 0, None)
  const ASKED := ASK.(status := Processing, attempts := 1, leaseOwner := "w", leaseUntil := Some(100))
  const DONE := ASK.(status := Done, attempts := 1, handledAt := Some(1), doneAt := Some(1))
  const TAKEN := NEXT.(status := Processing, attempts := 1, leaseOwner := "w", leaseUntil := Some(102))
  const DRAFT := StateRow("draft", true, 1, 1)
  const QUEUED := Reply(1, STAGED, 1, Waiting, 0, 1, "", None, None)
  const SENDING := QUEUED.(status := Sending, attempts := 1, leaseOwner := "s", leaseUntil := Some(104))
  const FIRST := Folded(1, "ask", 0, 0, None, "", 1)
  const READ_ASK := Read(1, USER, "ask", None, 0, 0, None, "")
  const READ_NEXT := Read(2, USER, "next", Some(DRAFT), 1, 3, None, "")

  const MARKED := ASKED.(handledAt := Some(1))

  /** The tables before the first commit, after it, and after the clear. */
  function Tables(rows: Rows): Db { EmptyDb.(offset := 3, rows := rows) }

  function Drafted(rows: Rows, reply: Reply): Db { Db(3, rows, {}, map[USER := DRAFT], map[1 := reply], 2) }

  function Erased(): Db {
    Db(3, map[1 := DONE, 2 := TAKEN], {}, map[USER := ClearedState(DRAFT, 5)], map[1 := CloseReply(SENDING, Cancelled, 5)], 2)
  }

  ghost predicate Is(w: World, db: Db, snapshots: seq<Read>, logs: map<int, Log>) {
    w.db == db && w.snapshots == snapshots && w.logs == logs
  }

  lemma RunOne(n: nat)
    requires n < |EVENTS|
    ensures Run(CFG, {}, EVENTS[..n + 1]) == Apply(CFG, Run(CFG, {}, EVENTS[..n]), EVENTS[n])
  {
    assert EVENTS[..n + 1][..n] == EVENTS[..n];
  }

  lemma LowestOfOne(x: int)
    ensures Lowest({x}, 1) == {x}
  {
    assert {x} - {Least({x})} == {};
  }

  // ---------------------------------------------------------------- the ten steps

  lemma Delivered(w: World)
    requires w == Start({})
    ensures Is(Apply(CFG, w, EVENTS[0]), Tables(map[1 := ASK, 2 := NEXT]), [], map[])
  {
    var updates := [Incoming(1, "ask", Ledger, "7"), Incoming(2, "next", Ledger, "7")];
    assert updates[..1] == [updates[0]] && updates[..1][..0] == [];
    assert InsertAll(map[], updates[..1], {}, 0) == map[1 := ASK];
    assert NextOffset(updates[..1], 0) == 2;
  }

  /** The second update has to wait for the first. */
  lemma FirstClaimed(w: World)
    requires Is(w, Tables(map[1 := ASK, 2 := NEXT]), [], map[])
    ensures Is(Apply(CFG, w, EVENTS[1]), Tables(map[1 := ASKED, 2 := NEXT]), [], map[])
  {
    LowestOfOne(1);
    assert !HeadOfRoute(w.db.rows, 2) by { assert !Terminal(w.db.rows[1].status); }
    assert Candidates(w.db.rows, Ledger, 8, 0) - {} == {1};
    assert ClaimBatch(w.db.rows, {1}, "w", 100, 0) == map[1 := ASKED, 2 := NEXT];
  }

  lemma FirstRead(w: World)
    requires Is(w, Tables(map[1 := ASKED, 2 := NEXT]), [], map[])
    ensures Is(Apply(CFG, w, EVENTS[2]), Tables(map[1 := ASKED, 2 := NEXT]), [READ_ASK], map[])
  {
  }

  lemma FirstCommitted(w: World)
    requires Is(w, Tables(map[1 := ASKED, 2 := NEXT]), [READ_ASK], map[])
    ensures Is(Apply(CFG, w, EVENTS[3]), Drafted(map[1 := MARKED, 2 := NEXT], QUEUED), [READ_ASK], map[USER := [FIRST]])
  {
    var (db, result) := CommitPrivateState(w.db, 1, "w", USER, -1, "draft", true, Some(STAGED), 1);
    assert result == Committed && db.states == map[USER := DRAFT] && db.replies == map[1 := QUEUED];
    assert LogOf(w, USER) + [FIRST] == [FIRST];
  }

  lemma FirstFinished(w: World)
    requires Is(w, Drafted(map[1 := MARKED, 2 := NEXT], QUEUED), [READ_ASK], map[USER := [FIRST]])
    ensures Is(Apply(CFG, w, EVENTS[4]), Drafted(map[1 := DONE, 2 := NEXT], QUEUED), [READ_ASK], map[USER := [FIRST]])
  {
    assert Finish(w.db.rows, 1, "w", 1) == map[1 := DONE, 2 := NEXT];
  }

  lemma SecondClaimed(w: World)
    requires Is(w, Drafted(map[1 := DONE, 2 := NEXT], QUEUED), [READ_ASK], map[USER := [FIRST]])
    ensures Is(Apply(CFG, w, EVENTS[5]), Drafted(map[1 := DONE, 2 := TAKEN], QUEUED), [READ_ASK], map[USER := [FIRST]])
  {
    hide Candidates, ClaimBatch, Lowest;
    LowestOfOne(2);
    SecondIsNext();
    assert Candidates(w.db.rows, Ledger, 8, 2) - {} == {2};
  }

  lemma SecondIsNext()
    ensures Candidates(map[1 := DONE, 2 := NEXT], Ledger, 8, 2) == {2}
    ensures ClaimBatch(map[1 := DONE, 2 := NEXT], {2}, "w", 100, 2) == map[1 := DONE, 2 := TAKEN]
  {
  }

  lemma SecondRead(w: World)
    requires Is(w, Drafted(map[1 := DONE, 2 := TAKEN], QUEUED), [READ_ASK], map[USER := [FIRST]])
    ensures Is(Apply(CFG, w, EVENTS[6]),
      Drafted(map[1 := DONE, 2 := TAKEN], QUEUED), [READ_ASK, READ_NEXT], map[USER := [FIRST]])
  {
  }

  lemma ReplyClaimed(w: World)
    requires Is(w, Drafted(map[1 := DONE, 2 := TAKEN], QUEUED), [READ_ASK, READ_NEXT], map[USER := [FIRST]])
    ensures Is(Apply(CFG, w, EVENTS[7]),
      Drafted(map[1 := DONE, 2 := TAKEN], SENDING), [READ_ASK, READ_NEXT], map[USER := [FIRST]])
  {
    hide ReplyCandidates, ClaimReplies, Lowest;
    LowestOfOne(1);
    OneReplyToSend();
    assert ReplyCandidates(w.db.replies, 8, 4) - {} == {1};
  }

  lemma OneReplyToSend()
    ensures ReplyCandidates(map[1 := QUEUED], 8, 4) == {1}
    ensures ClaimReplies(map[1 := QUEUED], {1}, "s", 100, 4) == map[1 := SENDING]
  {
  }

  lemma Revoked(w: World)
    requires Is(w, Drafted(map[1 := DONE, 2 := TAKEN], SENDING), [READ_ASK, READ_NEXT], map[USER := [FIRST]])
    ensures Is(Apply(CFG, w, EVENTS[8]), Erased(), [READ_ASK, READ_NEXT], map[USER := [FIRST, Cleared(5)]])
  {
    assert Clears(w.db, 1, "s", 5);
    var db := CancelReply(w.db, 1, "s", 5);
    assert db.states == map[USER := ClearedState(DRAFT, 5)];
    assert db.replies == map[1 := CloseReply(SENDING, Cancelled, 5)];
    assert LogOf(w, USER) + [Cleared(5)] == [FIRST, Cleared(5)];
  }

  lemma SecondCommitted(w: World)
    requires Is(w, Erased(), [READ_ASK, READ_NEXT], map[USER := [FIRST, Cleared(5)]])
    ensures Apply(CFG, w, EVENTS[9]).db.states == map[USER := StateRow("draft", true, 2, 6)]
  {
    var (db, result) := CommitPrivateState(w.db, 2, "w", USER, 1, "draft", true, None, 6);
    assert result == Committed && db.states == map[USER := StateRow("draft", true, 2, 6)];
  }

  // ------------------------------------------------------------------- the whole run

  lemma FirstUpdate()
    ensures Is(Run(CFG, {}, EVENTS[..5]), Drafted(map[1 := DONE, 2 := NEXT], QUEUED), [READ_ASK], map[USER := [FIRST]])
  {
    assert Run(CFG, {}, EVENTS[..0]) == Start({});
    hide Run, Apply, Is;
    RunOne(0); Delivered(Run(CFG, {}, EVENTS[..0]));
    RunOne(1); FirstClaimed(Run(CFG, {}, EVENTS[..1]));
    RunOne(2); FirstRead(Run(CFG, {}, EVENTS[..2]));
    RunOne(3); FirstCommitted(Run(CFG, {}, EVENTS[..3]));
    RunOne(4); FirstFinished(Run(CFG, {}, EVENTS[..4]));
  }

  lemma UntilTheClear()
    ensures Is(Run(CFG, {}, EVENTS[..9]), Erased(), [READ_ASK, READ_NEXT], map[USER := [FIRST, Cleared(5)]])
  {
    hide Run, Apply, Is;
    FirstUpdate();
    RunOne(5); SecondClaimed(Run(CFG, {}, EVENTS[..5]));
    RunOne(6); SecondRead(Run(CFG, {}, EVENTS[..6]));
    RunOne(7); ReplyClaimed(Run(CFG, {}, EVENTS[..7]));
    RunOne(8); Revoked(Run(CFG, {}, EVENTS[..8]));
  }

  /** The clear erased the draft, and the next commit brings it back. */
  lemma ErasedDraftComesBack()
    ensures Run(CFG, {}, EVENTS[..9]).db.states == map[USER := StateRow("{}", false, 1, 5)]
    ensures Run(CFG, {}, EVENTS).db.states == map[USER := StateRow("draft", true, 2, 6)]
  {
    hide Run, Apply;
    UntilTheClear();
    RunOne(9);
    SecondCommitted(Run(CFG, {}, EVENTS[..9]));
    assert EVENTS[..10] == EVENTS;
  }
}
