/**
 * The fallback's copy of the gap worker. It differs in its page limit, in ending
 * expand tasks only by their anchor, and in enqueuing a window only if it really
 * completed the expand task. It loses nothing under the same condition.
 */
module FallbackGap {
  import opened Options
  import opened GapWorker
  import opened GapCoverage

  /** `fallbackGapPageLimit`: one page at least, and the safety limit for windows
      and for tasks without an end of their own. */
  function PageLimit(t: Task, safetyMax: int): (limit: int)
    ensures limit > t.startPage
    ensures t.kind != Window && t.endPage > t.startPage ==> limit == t.endPage
    ensures t.kind == Window && safetyMax > t.startPage ==> limit == safetyMax
  {
    var own := if t.kind == Window || t.endPage <= t.startPage then safetyMax else t.endPage;
    if own <= t.startPage then t.startPage + 1 else own
  }

  function FallbackWindow(t: Task, safetyMax: int): Task {
    Task(Window, t.from, t.to, 0, safetyMax, 0, None, Pending, 0)
  }

  /** What is stored after the page was recorded. */
  function FallbackFinish(tb: Table, safetyMax: int, id: int, held: Task, fetched: seq<Transfer>): Table {
    var full, next := |fetched| >= PAGE_ROWS, CurrentPage(held) + 1;
    if held.kind == Expand && AnchorHit(held, fetched) then Ended(tb, id, held, Completed)
    else if full && next < PageLimit(held, safetyMax) then Yielded(tb, id, held, next)
    else if held.kind == Expand then
      if Holds(tb, id, held) then Enqueued(Ended(tb, id, held, Completed), id, FallbackWindow(held, safetyMax)) else tb
    else if full && held.to - held.from > 1 then Split(tb, id, held, Middle(held))
    else if full then Ended(tb, id, held, Pending)
    else Ended(tb, id, held, Completed)
  }

  /** The transfers that are recorded before the step fails or goes on. */
  function Seen(chain: Chain, held: Task, outcome: Outcome): seq<Transfer> {
    var fetched := Fetched(chain, held);
    match outcome
    case FetchFails => []
    case RecordFails(after) => if after <= |fetched| then fetched[..after] else fetched
    case Succeeds => fetched
  }

  function FallbackWorked(tb: Table, chain: Chain, safetyMax: int, id: int, held: Task, outcome: Outcome): Table {
    var seen := tb.(recorded := tb.recorded + Ids(Seen(chain, held, outcome)));
    if outcome.Succeeds? then FallbackFinish(seen, safetyMax, id, held, Fetched(chain, held))
    else Ended(seen, id, held, Pending)
  }

  /** An expand task that has no page left and has not met its anchor. */
  predicate FallbackExhausted(safetyMax: int, held: Task, fetched: seq<Transfer>) {
    held.kind == Expand && !AnchorHit(held, fetched) &&
    !(|fetched| >= PAGE_ROWS && CurrentPage(held) + 1 < PageLimit(held, safetyMax))
  }

  /** `FallbackWorked` when the storage calls, the release among them, can fail. */
  function FallbackWorkedWith(
      tb: Table, chain: Chain, safetyMax: int, id: int, held: Task, outcome: Outcome, storing: Storing): Table
  {
    var seen := tb.(recorded := tb.recorded + Ids(Seen(chain, held, outcome)));
    if storing.NothingStored? then seen
    else if outcome.Succeeds? && storing.EnqueueLost? && FallbackExhausted(safetyMax, held, Fetched(chain, held))
    then Ended(seen, id, held, Completed)
    else FallbackWorked(tb, chain, safetyMax, id, held, outcome)
  }

  /** `processOneFallbackGap` after the claim. */
  method ProcessOneFallbackGap(s: Server, safetyMax: int, id: int, held: Task, outcome: Outcome, storing: Storing)
    modifies s
    ensures s.Model() == FallbackWorkedWith(old(s.Model()), s.chain, safetyMax, id, held, outcome, storing)
  {
    hide Unique, PageOf, Rows, AnchorHit, PageLimit;
    var page := held.nextPage;
    if page < held.startPage { page := held.startPage; }
    var ok, anchorFound, fetched := false, false, [];
    if !outcome.FetchFails? {
      fetched := s.FetchPage(held.from, held.to, page);
      ok, anchorFound := s.RecordTransfers(held, fetched, outcome);
    }
    if storing.NothingStored? { return; }
    if !ok {
      s.ReleaseGap(id, held);
      return;
    }
    MoveTask(s, safetyMax, id, held, fetched, anchorFound, storing);
  }

  /** What happens to the task once its page is recorded. */
  method MoveTask(s: Server, safetyMax: int, id: int, held: Task, fetched: seq<Transfer>, anchorFound: bool, storing: Storing)
    requires anchorFound <==> AnchorHit(held, fetched)
    modifies s`tasks, s`nextId
    ensures s.Model() ==
      if storing.EnqueueLost? && FallbackExhausted(safetyMax, held, fetched) then Ended(old(s.Model()), id, held, Completed)
      else FallbackFinish(old(s.Model()), safetyMax, id, held, fetched)
  {
    hide AnchorHit, PageLimit;
    var full, next := |fetched| >= PAGE_ROWS, CurrentPage(held) + 1;
    var done: bool;
    if held.kind == Expand && anchorFound {
      done := s.CompleteGap(id, held);
    } else if full && next < PageLimit(held, safetyMax) {
      done := s.YieldGap(id, held, next);
    } else if held.kind == Expand {
      done := s.CompleteGap(id, held);
      if done && !storing.EnqueueLost? { s.EnqueueGap(id, FallbackWindow(held, safetyMax)); }
    } else if full && held.to - held.from > 1 {
      done := s.SplitGap(id, held, held.from + (held.to - held.from) / 2);
    } else if full {
      s.ReleaseGap(id, held);
    } else {
      done := s.CompleteGap(id, held);
    }
  }

  function Apply(chain: Chain, safetyMax: int, w: World, e: Event): World {
    if e.Work? && e.claim < |w.held|
    then w.(tb := FallbackWorked(w.tb, chain, safetyMax, w.held[e.claim].0, w.held[e.claim].1, e.outcome))
    else if e.Work? then w
    else GapCoverage.Apply(chain, safetyMax, w, e)
  }

  function Run(chain: Chain, safetyMax: int, start: World, events: seq<Event>): World {
    if events == [] then start
    else Apply(chain, safetyMax, Run(chain, safetyMax, start, events[..|events| - 1]), events[|events| - 1])
  }

  // ----------------------------------------------------------------------- one step

  /** Fallback tasks are expand and window tasks. */
  ghost predicate NoPages(w: World) {
    (forall id :: id in w.tb.tasks ==> w.tb.tasks[id].kind != Page) &&
    (forall k :: 0 <= k < |w.held| ==> w.held[k].1.kind != Page)
  }

  lemma EndedMoves(chain: Chain, tb: Table, id: int, held: Task, status: Status)
    requires (forall o :: o in tb.tasks ==> TaskOk(chain, tb, o)) && status != Leased
    ensures Moves(chain, tb, Ended(tb, id, held, status), id)
  {
    hide Scanned;
    var tb' := Ended(tb, id, held, status);
    forall o | o in tb'.tasks ensures TaskOk(chain, tb', o) { assert TaskOk(chain, tb, o); }
  }

  lemma MovesTwice(chain: Chain, a: Table, b: Table, c: Table, id: int)
    requires id in a.tasks && Moves(chain, a, b, id) && Moves(chain, b, c, id) && b.tasks[id].status != Leased
    requires c.tasks.Keys >= b.tasks.Keys && (b.nextId == a.nextId && b.tasks.Keys == a.tasks.Keys)
    requires c.tasks[id].status != Leased
    ensures Moves(chain, a, c, id)
  {
    hide Scanned;
  }

  /** Completing an expand task and enqueuing its window. */
  lemma ExpandMoves(chain: Chain, tb: Table, safetyMax: int, id: int, held: Task)
    requires forall o :: o in tb.tasks ==> TaskOk(chain, tb, o)
    requires Holds(tb, id, held) && tb.tasks[id] == held && held.from < held.to
    ensures Moves(chain, tb, Enqueued(Ended(tb, id, held, Completed), id, FallbackWindow(held, safetyMax)), id)
  {
    hide Scanned;
    var mid := Ended(tb, id, held, Completed);
    EndedMoves(chain, tb, id, held, Completed);
    forall o | o in mid.tasks ensures TaskOk(chain, mid, o) { assert TaskOk(chain, tb, o); }
    EnqueueMoves(chain, mid, id, FallbackWindow(held, safetyMax));
    MovesTwice(chain, tb, mid, Enqueued(mid, id, FallbackWindow(held, safetyMax)), id);
  }

  lemma YieldMoves(chain: Chain, tb: Table, id: int, held: Task)
    requires forall o :: o in tb.tasks ==> TaskOk(chain, tb, o)
    requires Holds(tb, id, held) && tb.tasks[id] == held
    requires held.kind == Window ==> Ids(Fetched(chain, held)) <= tb.recorded
    ensures Moves(chain, tb, Yielded(tb, id, held, CurrentPage(held) + 1), id)
  {
    hide Unique, PageOf, Rows, Scanned;
    assert TaskOk(chain, tb, id);
    if held.kind == Window { PageScanned(chain, tb.recorded, held.from, held.to, CurrentPage(held)); }
  }

  lemma FallbackMoves(chain: Chain, tb: Table, safetyMax: int, id: int, held: Task)
    requires forall o :: o in tb.tasks ==> TaskOk(chain, tb, o)
    requires ClaimOk(tb, id, held) && held.kind != Page && Ids(Fetched(chain, held)) <= tb.recorded
    ensures Moves(chain, tb, FallbackFinish(tb, safetyMax, id, held, Fetched(chain, held)), id)
  {
    hide Fetched, TaskOk, Moves, PageLimit, AnchorHit, Enqueued, FallbackWindow, Ids;
    assert TaskOk(chain, tb, id);
    EndedMoves(chain, tb, id, held, Completed);
    EndedMoves(chain, tb, id, held, Pending);
    if Holds(tb, id, held) {
      YieldMoves(chain, tb, id, held);
      if held.kind == Expand {
        ExpandMoves(chain, tb, safetyMax, id, held);
      } else if held.to - held.from > 1 {
        SplitMoves(chain, tb, id, held);
      }
    }
  }

  lemma FallbackKeepsOwn(chain: Chain, tb: Table, safetyMax: int, id: int, held: Task, j: int)
    requires NothingHidden(chain) && 0 <= j < |chain|
    requires forall o :: o in tb.tasks ==> TaskOk(chain, tb, o)
    requires ClaimOk(tb, id, held) && held.kind != Page && Ids(Fetched(chain, held)) <= tb.recorded
    requires Answers(chain, tb.tasks[id], j)
    ensures Covered(chain, FallbackFinish(tb, safetyMax, id, held, Fetched(chain, held)), j)
  {
    hide Unique, PageOf, Rows, Scanned;
    var fetched := Fetched(chain, held);
    var tb' := FallbackFinish(tb, safetyMax, id, held, fetched);
    assert TaskOk(chain, tb, id);
    if !Holds(tb, id, held) {
      assert Answers(chain, tb'.tasks[id], j);
    } else {
      AnchorIsMissed(chain, held);
      if |fetched| >= PAGE_ROWS && CurrentPage(held) + 1 < PageLimit(held, safetyMax) {
        assert Answers(chain, tb'.tasks[id], j);
      } else if held.kind == Expand {
        EnqueuedAnswers(chain, Ended(tb, id, held, Completed), id, FallbackWindow(held, safetyMax), j);
      } else if |fetched| < PAGE_ROWS {
        PageScanned(chain, tb.recorded, held.from, held.to, CurrentPage(held));
        ShortPageEnds(chain, tb.recorded, held.from, held.to, CurrentPage(held), j);
      } else if held.to - held.from > 1 {
        SplitAnswers(chain, tb, id, held, j);
      } else {
        assert Answers(chain, tb'.tasks[id], j);
      }
    }
  }

  lemma WorkKeeps(chain: Chain, safetyMax: int, w: World, k: nat, outcome: Outcome)
    requires Inv(chain, w) && NoPages(w) && k < |w.held|
    ensures Inv(chain, Apply(chain, safetyMax, w, Work(k, outcome))) && NoPages(Apply(chain, safetyMax, w, Work(k, outcome)))
    ensures forall j :: NothingHidden(chain) && 0 <= j < |chain| && Covered(chain, w.tb, j) ==>
      Covered(chain, Apply(chain, safetyMax, w, Work(k, outcome)).tb, j)
  {
    hide Unique, PageOf, Rows, Scanned, NothingHidden;
    var (id, held) := w.held[k];
    assert ClaimOk(w.tb, id, held);
    var fetched := Fetched(chain, held);
    var mid := w.tb.(recorded := w.tb.recorded + Ids(Seen(chain, held, outcome)));
    RecordingMoves(chain, w.tb, mid, id);
    MovesKeepInv(chain, w, mid, id);
    var w1 := w.(tb := mid);
    assert TaskOk(chain, mid, id) && ClaimOk(mid, id, held);
    forall j | 0 <= j < |chain| && Covered(chain, w.tb, j) ensures Covered(chain, mid, j) {
      RecordingCovers(chain, w.tb, mid, j);
    }
    if outcome.Succeeds? {
      FallbackMoves(chain, mid, safetyMax, id, held);
      var tb' := FallbackFinish(mid, safetyMax, id, held, fetched);
      MovesKeepInv(chain, w1, tb', id);
      forall j | NothingHidden(chain) && 0 <= j < |chain| && Covered(chain, mid, j) ensures Covered(chain, tb', j) {
        if Answers(chain, mid.tasks[id], j) { FallbackKeepsOwn(chain, mid, safetyMax, id, held, j); }
        OthersStayCovered(chain, mid, tb', id, j);
      }
    } else {
      EndedMoves(chain, mid, id, held, Pending);
      var tb' := Ended(mid, id, held, Pending);
      MovesKeepInv(chain, w1, tb', id);
      forall j | 0 <= j < |chain| && Covered(chain, mid, j) ensures Covered(chain, tb', j) {
        if Answers(chain, mid.tasks[id], j) { assert Answers(chain, tb'.tasks[id], j); }
        OthersStayCovered(chain, mid, tb', id, j);
      }
    }
  }

  lemma RecordingCovers(chain: Chain, tb: Table, tb': Table, j: int)
    requires 0 <= j < |chain| && Covered(chain, tb, j) && tb' == tb.(recorded := tb'.recorded) && tb.recorded <= tb'.recorded
    ensures Covered(chain, tb', j)
  {
    if chain[j].id !in tb'.recorded {
      var o :| o in tb.tasks && Answers(chain, tb.tasks[o], j);
      assert Answers(chain, tb'.tasks[o], j);
    }
  }

  lemma {:induction false} CoverageIsKept(chain: Chain, safetyMax: int, start: World, events: seq<Event>, j: int)
    requires NothingHidden(chain) && Inv(chain, start) && NoPages(start) && 0 <= j < |chain| && Covered(chain, start.tb, j)
    ensures Inv(chain, Run(chain, safetyMax, start, events)) && NoPages(Run(chain, safetyMax, start, events))
    ensures Covered(chain, Run(chain, safetyMax, start, events).tb, j)
  {
    hide NothingHidden, Answers;
    if events != [] {
      var init, e := events[..|events| - 1], events[|events| - 1];
      CoverageIsKept(chain, safetyMax, start, init, j);
      var w := Run(chain, safetyMax, start, init);
      if e.Work? {
        if e.claim < |w.held| { WorkKeeps(chain, safetyMax, w, e.claim, e.outcome); }
      } else {
        StepKeepsInv(chain, safetyMax, w, e);
        StepKeepsCovered(chain, safetyMax, w, e, j);
      }
    }
  }

  /** Once a fallback's expand task with no anchor of its own in the window, its
      window and everything split from it are completed, every transfer of the
      window was recorded, whatever failed and whoever came late. */
  lemma CompletedExpandIsRecorded(chain: Chain, safetyMax: int, t: Task, events: seq<Event>, j: int)
    requires NothingHidden(chain) && t.kind == Expand && t.status == Pending && t.from < t.to && AnchorFree(chain, t)
    requires 0 <= j < |chain| && InWindow(chain[j], t.from, t.to)
    requires AllCompleted(Run(chain, safetyMax, World(Table(map[0 := t], 1, {}), []), events).tb)
    ensures chain[j].id in Run(chain, safetyMax, World(Table(map[0 := t], 1, {}), []), events).tb.recorded
  {
    var start := World(Table(map[0 := t], 1, {}), []);
    assert TaskOk(chain, start.tb, 0);
    assert Answers(chain, start.tb.tasks[0], j);
    CoverageIsKept(chain, safetyMax, start, events, j);
  }
}
