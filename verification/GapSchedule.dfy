/**
 * Whole runs that work off one window, by either worker: it can be completed
 * exactly if its windows fit, and then no schedule and no failure can keep it
 * from being completed for longer than the step bound allows.
 */
module GapSchedule {
  import opened MapSums
  import opened GapWorker
  import opened GapCoverage
  import opened GapTermination
  import opened GapLosses
  import opened GapProgress

  /** Some page below the limit is short. */
  ghost predicate SomeShort(chain: Chain, pages: nat, from: int, to: int) {
    exists p: nat :: p < pages && !Full(chain, from, to, p)
  }

  /** So it is, or both halves of the window fit. */
  ghost predicate Fits(chain: Chain, pages: nat, from: int, to: int)
    decreases (to - from)
  {
    || SomeShort(chain, pages, from, to)
    || (to - from > 1 && Fits(chain, pages, from, from + (to - from) / 2) && Fits(chain, pages, from + (to - from) / 2, to))
  }

  /** It is enough that the windows of width one fit. */
  lemma {:induction false} NarrowWindowsFit(chain: Chain, pages: nat, from: int, to: int)
    requires from < to
    requires forall a, b :: from <= a && b == a + 1 <= to ==> SomeShort(chain, pages, a, b)
    ensures Fits(chain, pages, from, to)
    decreases (to - from)
  {
    hide SomeShort;
    if to - from > 1 {
      NarrowWindowsFit(chain, pages, from, from + (to - from) / 2);
      NarrowWindowsFit(chain, pages, from + (to - from) / 2, to);
    }
  }

  // ------------------------------------------------------------------------- invariant

  /** The pages of an open task before its cursor were all full. */
  ghost predicate TileOk(chain: Chain, limit: int, tb: Table, id: int)
    requires id in tb.tasks
  {
    var t := tb.tasks[id];
    && Plain(t) && id < tb.nextId && t.nextPage < PagesPerWindow(limit)
    && (t.status != Completed ==> forall p: nat :: p < t.nextPage ==> Full(chain, t.from, t.to, p))
  }

  predicate Beside(a: Task, b: Task) { a.to <= b.from || b.to <= a.from }

  /** The tasks are windows side by side. */
  ghost predicate Tiled(chain: Chain, limit: int, tb: Table) {
    && (forall id :: id in tb.tasks ==> TileOk(chain, limit, tb, id))
    && (forall a, b :: a in tb.tasks && b in tb.tasks && a != b ==> Beside(tb.tasks[a], tb.tasks[b]))
  }

  ghost predicate PlainClaims(w: World) { forall k :: 0 <= k < |w.held| ==> Plain(w.held[k].1) }

  ghost predicate Sound(chain: Chain, worker: Worker, w: World) {
    Ready(chain, worker, w) && Tiled(chain, worker.limit, w.tb) && PlainClaims(w)
  }

  ghost predicate AllFit(chain: Chain, limit: int, tb: Table) {
    forall id :: id in tb.tasks && tb.tasks[id].status != Completed ==>
      Fits(chain, PagesPerWindow(limit), tb.tasks[id].from, tb.tasks[id].to)
  }

  /** The worker's current claim on task `id`. */
  ghost predicate Current(tb: Table, id: int, held: Task) { Holds(tb, id, held) && tb.tasks[id] == held && Plain(held) }

  /** A step that got something done on a claim: its table is that of a success. */
  ghost predicate Done(chain: Chain, limit: int, tb: Table, tb': Table, id: int, held: Task) {
    && Current(tb, id, held)
    && var (after, ok) := Finish(tb, limit, id, held, Fetched(chain, held));
       ok && tb'.tasks == after.tasks && tb'.nextId == after.nextId
  }

  // -------------------------------------------------------- steps that get nothing done

  lemma QuietTiles(chain: Chain, limit: int, a: Table, b: Table)
    requires Quiet(a, b) && Tiled(chain, limit, a)
    ensures Tiled(chain, limit, b) && Measure(limit, b) == Measure(limit, a)
    ensures AllFit(chain, limit, a) ==> AllFit(chain, limit, b)
    ensures AllCompleted(a) <==> AllCompleted(b)
  {
    hide Full, Fits;
    assert forall id :: id in a.tasks <==> id in b.tasks;
    forall id | id in b.tasks ensures TileOk(chain, limit, b, id) && QuietTask(a.tasks[id], b.tasks[id]) {
      assert TileOk(chain, limit, a, id);
    }
    TilesAreCursors(chain, limit, a);
    QuietKeeps(limit, a, b);
  }

  lemma TilesAreCursors(chain: Chain, limit: int, tb: Table)
    requires Tiled(chain, limit, tb)
    ensures CursorsOk(limit, tb)
  {
    hide Full;
    forall id | id in tb.tasks ensures CursorOk(limit, tb, id) { assert TileOk(chain, limit, tb, id); }
  }

  // --------------------------------------------------------- steps that get something done

  /** Other windows stand beside both halves. */
  lemma NobodyHasTheHalf(chain: Chain, limit: int, tb: Table, id: int, held: Task, from: int, to: int)
    requires Tiled(chain, limit, tb) && Current(tb, id, held) && held.from <= from < to <= held.to
    ensures !Taken(tb, id, held, from, to)
  {
    forall o | o in tb.tasks && o != id ensures tb.tasks[o].from != from || tb.tasks[o].to != to {
      assert Beside(tb.tasks[o], tb.tasks[id]);
    }
  }

  /** A full page at the limit: all pages below it are full. */
  lemma AllPagesFull(chain: Chain, limit: int, tb: Table, id: int, held: Task)
    requires Tiled(chain, limit, tb) && Current(tb, id, held) && held.nextPage + 1 >= limit
    requires Full(chain, held.from, held.to, held.nextPage)
    ensures forall p: nat :: p < PagesPerWindow(limit) ==> Full(chain, held.from, held.to, p)
  {
    hide Full;
    assert TileOk(chain, limit, tb, id);
  }

  /** A current claim on a window that fits never fails for anything but a call. */
  lemma FittingSucceeds(chain: Chain, limit: int, tb: Table, id: int, held: Task)
    requires Tiled(chain, limit, tb) && Current(tb, id, held)
    requires Fits(chain, PagesPerWindow(limit), held.from, held.to)
    ensures Finish(tb, limit, id, held, Fetched(chain, held)).1
  {
    hide Finish, Unique, PageOf, Rows, Tiled, Halved;
    WindowFinish(tb, limit, id, held, Fetched(chain, held));
    if Full(chain, held.from, held.to, held.nextPage) && held.nextPage + 1 >= limit {
      AllPagesFull(chain, limit, tb, id, held);
      NobodyHasTheHalf(chain, limit, tb, id, held, held.from, held.from + (held.to - held.from) / 2);
    }
  }

  /** What a success leaves: the task completed, moved on, or in halves. */
  lemma SuccessLeaves(chain: Chain, limit: int, tb: Table, tb': Table, id: int, held: Task)
    requires Tiled(chain, limit, tb) && Done(chain, limit, tb, tb', id, held)
    ensures
      var full, next, mid := Full(chain, held.from, held.to, held.nextPage), held.nextPage + 1, held.from + (held.to - held.from) / 2;
      if !full then tb'.tasks == tb.tasks[id := held.(status := Completed)] && tb'.nextId == tb.nextId
      else if next < limit then
        tb'.tasks == tb.tasks[id := held.(status := Pending, nextPage := next)] && tb'.nextId == tb.nextId
      else
        && held.to - held.from > 1
        && tb'.tasks == tb.tasks[id := held.(to := mid, nextPage := 0, status := Pending)][tb.nextId :=
                          held.(from := mid, nextPage := 0, status := Pending, generation := 0)]
        && tb'.nextId == tb.nextId + 1
  {
    hide Finish, Unique, PageOf, Rows, Tiled;
    WindowFinish(tb, limit, id, held, Fetched(chain, held));
    if held.to - held.from > 1 {
      NobodyHasTheHalf(chain, limit, tb, id, held, held.from + (held.to - held.from) / 2, held.to);
    }
  }

  lemma SuccessTiles(chain: Chain, limit: int, tb: Table, tb': Table, id: int, held: Task)
    requires Tiled(chain, limit, tb) && Done(chain, limit, tb, tb', id, held)
    ensures Tiled(chain, limit, tb')
  {
    SuccessLeaves(chain, limit, tb, tb', id, held);
    hide Full, Done;
    assert TileOk(chain, limit, tb, id);
    assert tb.nextId !in tb.tasks;
    forall o | o in tb'.tasks ensures TileOk(chain, limit, tb', o) {
      if o in tb.tasks { assert TileOk(chain, limit, tb, o); }
    }
    forall a, b | a in tb'.tasks && b in tb'.tasks && a != b ensures Beside(tb'.tasks[a], tb'.tasks[b]) {
      if a in tb.tasks && b in tb.tasks { assert Beside(tb.tasks[a], tb.tasks[b]); }
      if a in tb.tasks && a != id { assert Beside(tb.tasks[a], tb.tasks[id]); }
      if b in tb.tasks && b != id { assert Beside(tb.tasks[b], tb.tasks[id]); }
    }
  }

  lemma SuccessLowers(chain: Chain, limit: int, tb: Table, tb': Table, id: int, held: Task)
    requires Tiled(chain, limit, tb) && Done(chain, limit, tb, tb', id, held)
    ensures Measure(limit, tb') < Measure(limit, tb)
  {
    hide Finish;
    TilesAreCursors(chain, limit, tb);
    FinishLowers(limit, tb, id, held, Fetched(chain, held));
    assert Costs(limit, tb') == Costs(limit, Finish(tb, limit, id, held, Fetched(chain, held)).0);
  }

  lemma SuccessFits(chain: Chain, limit: int, tb: Table, tb': Table, id: int, held: Task)
    requires Tiled(chain, limit, tb) && Done(chain, limit, tb, tb', id, held) && AllFit(chain, limit, tb)
    ensures AllFit(chain, limit, tb')
  {
    SuccessLeaves(chain, limit, tb, tb', id, held);
    hide Full, Done;
    if Full(chain, held.from, held.to, held.nextPage) && held.nextPage + 1 >= limit {
      AllPagesFull(chain, limit, tb, id, held);
    }
  }

  ghost predicate Unfit(chain: Chain, limit: int, tb: Table, id: int) {
    id in tb.tasks && tb.tasks[id].status != Completed &&
    !Fits(chain, PagesPerWindow(limit), tb.tasks[id].from, tb.tasks[id].to)
  }

  /** A window that does not fit stays open, or one of its halves does. */
  lemma SuccessKeepsUnfit(chain: Chain, limit: int, tb: Table, tb': Table, id: int, held: Task, bad: int)
    requires Tiled(chain, limit, tb) && Done(chain, limit, tb, tb', id, held) && Unfit(chain, limit, tb, bad)
    ensures Unfit(chain, limit, tb', bad) || Unfit(chain, limit, tb', tb.nextId)
  {
    hide SomeShort, Finish, Fetched;
    SuccessLeaves(chain, limit, tb, tb', id, held);
    assert TileOk(chain, limit, tb, id) && TileOk(chain, limit, tb, bad);
    hide Tiled, TileOk, Done;
    if bad == id && !Full(chain, held.from, held.to, held.nextPage) {
      ShortFits(chain, PagesPerWindow(limit), held.from, held.to, held.nextPage);
    }
    hide Full;
  }

  lemma ShortFits(chain: Chain, pages: nat, from: int, to: int, page: nat)
    requires page < pages && !Full(chain, from, to, page)
    ensures Fits(chain, pages, from, to)
  {
    hide Full;
  }

  // ------------------------------------------------------------------------ one event

  /** What a worked claim makes of the tasks when it did not succeed. */
  lemma FailureIsQuiet(tb: Table, limit: int, id: int, held: Task, fetched: seq<Transfer>)
    requires ClaimOk(tb, id, held) && Plain(held)
    requires !(Holds(tb, id, held) && Finish(tb, limit, id, held, fetched).1)
    ensures Quiet(tb, Finish(tb, limit, id, held, fetched).0)
  {
  }

  lemma FinishIgnoresRecorded(tb: Table, recorded: set<int>, limit: int, id: int, held: Task, fetched: seq<Transfer>)
    requires Plain(held)
    ensures
      var (a, ok), (b, ok') := Finish(tb, limit, id, held, fetched), Finish(tb.(recorded := recorded), limit, id, held, fetched);
      a.tasks == b.tasks && a.nextId == b.nextId && ok == ok'
  {
  }

  /** The tasks after a worked claim: as they were, given back, or finished. */
  lemma WorkedTasks(chain: Chain, worker: Worker, tb: Table, id: int, held: Task, outcome: Outcome, storing: Storing)
    requires Plain(held)
    ensures
      var tb' := With(worker, tb, chain, id, held, outcome, storing);
      var back, after := Ended(tb, id, held, Pending), Finish(tb, worker.limit, id, held, Fetched(chain, held)).0;
      if outcome.Succeeds? && !storing.NothingStored? then tb'.tasks == after.tasks && tb'.nextId == after.nextId
      else tb'.nextId == tb.nextId && (tb'.tasks == tb.tasks || tb'.tasks == back.tasks)
  {
    hide Finish, FallbackGap.FallbackFinish, Unique, PageOf, Rows;
    var fetched := Fetched(chain, held);
    var seen := tb.(recorded := tb.recorded + Ids(fetched));
    FinishIgnoresRecorded(tb, seen.recorded, worker.limit, id, held, fetched);
    FallbackFinishIs(seen, worker.limit, id, held, fetched);
  }

  /** A claim, release or work either gets something done on a current claim or does
      not move the windows. */
  lemma StepIs(chain: Chain, worker: Worker, w: World, s: Step)
    requires Sound(chain, worker, w)
    ensures
      var tb' := GapLosses.Apply(chain, worker, w, s).tb;
      Quiet(w.tb, tb') ||
      (s.event.Work? && s.event.claim < |w.held| && Done(chain, worker.limit, w.tb, tb', w.held[s.event.claim].0, w.held[s.event.claim].1))
  {
    hide Tiled, Finish, Fetched, FallbackGap.NoPages, TaskOk;
    if s.event.Work? && s.event.claim < |w.held| {
      var (id, held) := w.held[s.event.claim];
      assert ClaimOk(w.tb, id, held) && Plain(held);
      WorkedTasks(chain, worker, w.tb, id, held, s.event.outcome, s.storing);
      hide With;
      if !(Holds(w.tb, id, held) && Finish(w.tb, worker.limit, id, held, Fetched(chain, held)).1) {
        FailureIsQuiet(w.tb, worker.limit, id, held, Fetched(chain, held));
      }
    }
  }

  lemma ReadyStays(chain: Chain, worker: Worker, w: World, s: Step)
    requires Ready(chain, worker, w) && PlainClaims(w)
    ensures Ready(chain, worker, GapLosses.Apply(chain, worker, w, s)) && PlainClaims(w)
  {
    hide Scanned, Unique, PageOf, Rows, ClaimOk, TaskOk;
    if s.event.Work? && s.event.claim < |w.held| {
      var (id, held) := w.held[s.event.claim];
      assert Plain(held);
      if s.storing.NothingStored? {
        var tb' := GapLosses.Apply(chain, worker, w, s).tb;
        RecordingMoves(chain, w.tb, tb', id);
        MovesKeepInv(chain, w, tb', id);
      } else if worker.Fallback? {
        FallbackGap.WorkKeeps(chain, worker.limit, w, s.event.claim, s.event.outcome);
      } else {
        StepKeepsInv(chain, worker.limit, w, s.event);
      }
    } else if !s.storing.NothingStored? && !s.event.Work? {
      StepKeepsInv(chain, worker.limit, w, s.event);
    }
  }

  /** Claims are made on tasks of the table. */
  lemma ClaimsStayPlain(chain: Chain, worker: Worker, w: World, s: Step)
    requires Tiled(chain, worker.limit, w.tb) && PlainClaims(w)
    ensures PlainClaims(GapLosses.Apply(chain, worker, w, s))
  {
    hide Full, With;
    if s.event.Claim? && s.event.id in w.tb.tasks { assert TileOk(chain, worker.limit, w.tb, s.event.id); }
  }

  /** One event keeps all that and never raises the measure. */
  lemma StepStaysSound(chain: Chain, worker: Worker, w: World, s: Step)
    requires Sound(chain, worker, w)
    ensures
      var w' := GapLosses.Apply(chain, worker, w, s);
      && Sound(chain, worker, w') && Measure(worker.limit, w'.tb) <= Measure(worker.limit, w.tb)
      && (AllFit(chain, worker.limit, w.tb) ==> AllFit(chain, worker.limit, w'.tb))
      && (AllCompleted(w.tb) ==> AllCompleted(w'.tb))
      && ((exists id :: Unfit(chain, worker.limit, w.tb, id)) ==> exists id :: Unfit(chain, worker.limit, w'.tb, id))
  {
    var w' := GapLosses.Apply(chain, worker, w, s);
    StepIs(chain, worker, w, s);
    ReadyStays(chain, worker, w, s);
    ClaimsStayPlain(chain, worker, w, s);
    hide GapLosses.Apply, Ready, PlainClaims, Tiled, Done, AllFit, Measure;
    if Quiet(w.tb, w'.tb) {
      QuietTiles(chain, worker.limit, w.tb, w'.tb);
      if bad :| Unfit(chain, worker.limit, w.tb, bad) {
        assert bad in w.tb.tasks.Keys && QuietTask(w.tb.tasks[bad], w'.tb.tasks[bad]);
        assert Unfit(chain, worker.limit, w'.tb, bad);
      }
    } else {
      var (id, held) := w.held[s.event.claim];
      DoneOnOpen(chain, worker.limit, w.tb, w'.tb, id, held);
      SuccessTiles(chain, worker.limit, w.tb, w'.tb, id, held);
      SuccessLowers(chain, worker.limit, w.tb, w'.tb, id, held);
      if AllFit(chain, worker.limit, w.tb) { SuccessFits(chain, worker.limit, w.tb, w'.tb, id, held); }
      if bad :| Unfit(chain, worker.limit, w.tb, bad) {
        SuccessKeepsUnfit(chain, worker.limit, w.tb, w'.tb, id, held, bad);
      }
    }
  }

  lemma DoneOnOpen(chain: Chain, limit: int, tb: Table, tb': Table, id: int, held: Task)
    requires Done(chain, limit, tb, tb', id, held)
    ensures !AllCompleted(tb)
  {
    hide Finish;
  }

  // ------------------------------------------------------------------------ whole runs

  lemma {:induction false} RunStaysSound(chain: Chain, worker: Worker, start: World, steps: seq<Step>)
    requires Sound(chain, worker, start)
    ensures
      var w := GapLosses.Run(chain, worker, start, steps);
      && Sound(chain, worker, w) && Measure(worker.limit, w.tb) <= Measure(worker.limit, start.tb)
      && (AllFit(chain, worker.limit, start.tb) ==> AllFit(chain, worker.limit, w.tb))
      && (AllCompleted(start.tb) ==> AllCompleted(w.tb))
      && ((exists id :: Unfit(chain, worker.limit, start.tb, id)) ==> exists id :: Unfit(chain, worker.limit, w.tb, id))
  {
    hide GapLosses.Apply, Sound, AllFit, Measure, Unfit, AllCompleted;
    if steps != [] {
      RunStaysSound(chain, worker, start, steps[..|steps| - 1]);
      StepStaysSound(chain, worker, GapLosses.Run(chain, worker, start, steps[..|steps| - 1]), steps[|steps| - 1]);
    }
  }

  lemma OneWindowIsSound(chain: Chain, worker: Worker, from: int, to: int)
    requires from < to
    ensures Sound(chain, worker, OneWindow(from, to))
    ensures Measure(worker.limit, OneWindow(from, to).tb) == WindowCost(PagesPerWindow(worker.limit), to - from)
    ensures Fits(chain, PagesPerWindow(worker.limit), from, to) ==> AllFit(chain, worker.limit, OneWindow(from, to).tb)
    ensures !Fits(chain, PagesPerWindow(worker.limit), from, to) ==> Unfit(chain, worker.limit, OneWindow(from, to).tb, 0)
  {
    hide Fits, WindowCost, Full;
    var start := OneWindow(from, to);
    assert TaskOk(chain, start.tb, 0);
    assert TileOk(chain, worker.limit, start.tb, 0);
    var none: map<int, nat> := map[];
    WindowCostAtLeast(PagesPerWindow(worker.limit), to - from);
    assert Costs(worker.limit, start.tb) == none[0 := WindowCost(PagesPerWindow(worker.limit), to - from)];
    SumWrite(none, 0, WindowCost(PagesPerWindow(worker.limit), to - from));
    assert Sum(none) == 0;
  }

  /** A worked current claim with every call going through. */
  ghost predicate Works(w: World, s: Step) {
    s.event.Work? && s.event.claim < |w.held| && s.event.outcome.Succeeds? && s.storing.AllStored? &&
    Holds(w.tb, w.held[s.event.claim].0, w.held[s.event.claim].1)
  }

  /** It always gets something done where the windows fit. */
  lemma WorkLowers(chain: Chain, worker: Worker, w: World, s: Step)
    requires Sound(chain, worker, w) && AllFit(chain, worker.limit, w.tb) && Works(w, s)
    ensures Measure(worker.limit, GapLosses.Apply(chain, worker, w, s).tb) < Measure(worker.limit, w.tb)
    ensures worker.Watcher? ==>
      WorkedWith(w.tb, chain, worker.limit, w.held[s.event.claim].0, w.held[s.event.claim].1, Succeeds, AllStored).1
  {
    hide Tiled, Finish, Fetched, FallbackGap.NoPages, TaskOk, Measure, Fits;
    var (id, held) := w.held[s.event.claim];
    var tb' := GapLosses.Apply(chain, worker, w, s).tb;
    assert ClaimOk(w.tb, id, held) && Plain(held);
    WorkedTasks(chain, worker, w.tb, id, held, Succeeds, AllStored);
    FittingSucceeds(chain, worker.limit, w.tb, id, held);
    SuccessLowers(chain, worker.limit, w.tb, tb', id, held);
    FinishIgnoresRecorded(w.tb, w.tb.recorded + Ids(Fetched(chain, held)), worker.limit, id, held, Fetched(chain, held));
  }

  /** The worked current claims of a run. */
  ghost function Efforts(chain: Chain, worker: Worker, start: World, steps: seq<Step>): nat {
    if steps == [] then 0
    else
      var before := steps[..|steps| - 1];
      Efforts(chain, worker, start, before) +
      if Works(GapLosses.Run(chain, worker, start, before), steps[|steps| - 1]) then 1 else 0
  }

  lemma {:induction false} EffortsCount(chain: Chain, worker: Worker, start: World, steps: seq<Step>)
    requires Sound(chain, worker, start) && AllFit(chain, worker.limit, start.tb)
    ensures Efforts(chain, worker, start, steps) + Measure(worker.limit, GapLosses.Run(chain, worker, start, steps).tb)
      <= Measure(worker.limit, start.tb)
  {
    hide GapLosses.Apply, Sound, AllFit, Measure, Works;
    if steps != [] {
      var n := |steps| - 1;
      EffortsCount(chain, worker, start, steps[..n]);
      RunStaysSound(chain, worker, start, steps[..n]);
      var w := GapLosses.Run(chain, worker, start, steps[..n]);
      StepStaysSound(chain, worker, w, steps[n]);
      if Works(w, steps[n]) { WorkLowers(chain, worker, w, steps[n]); }
    }
  }

  lemma OpenCosts(chain: Chain, limit: int, tb: Table, id: int)
    requires Tiled(chain, limit, tb) && id in tb.tasks && tb.tasks[id].status != Completed
    ensures Measure(limit, tb) > 0
  {
    hide Full, WindowCost;
    assert TileOk(chain, limit, tb, id);
    OpenWindowCost(limit, tb.tasks[id], tb.tasks[id].to - tb.tasks[id].from);
    SumTake(Costs(limit, tb), id);
  }

  // ------------------------------------------------------------------------- schedules

  /** One round: claim a task and work it, every call going through. */
  function Round(w: World, id: int): seq<Step> {
    [Step(Claim(id), AllStored), Step(Work(|w.held|, Succeeds), AllStored)]
  }

  predicate IsOpen(tb: Table, id: int) { id in tb.tasks && tb.tasks[id].status != Completed }

  lemma ClaimIsCurrent(chain: Chain, worker: Worker, w: World, id: int)
    requires IsOpen(w.tb, id)
    ensures Works(GapLosses.Apply(chain, worker, w, Step(Claim(id), AllStored)), Step(Work(|w.held|, Succeeds), AllStored))
  {
    hide With;
    var tb := Claimed(w.tb, id);
    assert tb.tasks[id].generation != w.tb.tasks[id].generation;
  }

  /** A round on an open task lowers the measure. */
  lemma RoundLowers(chain: Chain, worker: Worker, w: World, id: int)
    requires Sound(chain, worker, w) && AllFit(chain, worker.limit, w.tb) && IsOpen(w.tb, id)
    ensures Measure(worker.limit, GapLosses.Run(chain, worker, w, Round(w, id)).tb) < Measure(worker.limit, w.tb)
  {
    hide GapLosses.Apply, Sound, AllFit, Measure, Works;
    var claim, work := Step(Claim(id), AllStored), Step(Work(|w.held|, Succeeds), AllStored);
    TwoSteps(chain, worker, w, claim, work);
    StepStaysSound(chain, worker, w, claim);
    ClaimIsCurrent(chain, worker, w, id);
    WorkLowers(chain, worker, GapLosses.Apply(chain, worker, w, claim), work);
  }

  /** Rounds on whatever open task the schedule picks, with anything at all going on
      before each of them: other claims, failures of any kind, late workers. */
  ghost function Scheduled(chain: Chain, worker: Worker, start: World, pick: Table -> int, noise: seq<seq<Step>>): World {
    if noise == [] then start
    else
      var w := GapLosses.Run(chain, worker, Scheduled(chain, worker, start, pick, noise[..|noise| - 1]), noise[|noise| - 1]);
      GapLosses.Run(chain, worker, w, Round(w, pick(w.tb)))
  }

  ghost predicate PicksOpen(pick: Table -> int) {
    forall tb :: !AllCompleted(tb) ==> IsOpen(tb, pick(tb))
  }

  lemma {:induction false} RoundsCount(chain: Chain, worker: Worker, start: World, pick: Table -> int, noise: seq<seq<Step>>)
    requires Sound(chain, worker, start) && AllFit(chain, worker.limit, start.tb) && PicksOpen(pick)
    ensures
      var w := Scheduled(chain, worker, start, pick, noise);
      && Sound(chain, worker, w) && AllFit(chain, worker.limit, w.tb)
      && (AllCompleted(w.tb) || Measure(worker.limit, w.tb) + |noise| <= Measure(worker.limit, start.tb))
  {
    hide GapLosses.Run, Sound, AllFit, Measure, AllCompleted, IsOpen, Round;
    if noise != [] {
      RoundsCount(chain, worker, start, pick, noise[..|noise| - 1]);
      var v := Scheduled(chain, worker, start, pick, noise[..|noise| - 1]);
      var w := GapLosses.Run(chain, worker, v, noise[|noise| - 1]);
      RunStaysSound(chain, worker, v, noise[|noise| - 1]);
      RunStaysSound(chain, worker, w, Round(w, pick(w.tb)));
      if !AllCompleted(w.tb) {
        RoundLowers(chain, worker, w, pick(w.tb));
      }
    }
  }

  // -------------------------------------------------------------------------- theorems

  /** If the window fits, every schedule has completed it and all its pieces after as
      many rounds as the step bound, whatever happens between the rounds. */
  lemma EveryScheduleCompletes(
      chain: Chain, worker: Worker, from: int, to: int, pick: Table -> int, noise: seq<seq<Step>>)
    requires from < to && Fits(chain, PagesPerWindow(worker.limit), from, to) && PicksOpen(pick)
    requires |noise| >= WindowCost(PagesPerWindow(worker.limit), to - from)
    ensures AllCompleted(Scheduled(chain, worker, OneWindow(from, to), pick, noise).tb)
  {
    hide Fits, WindowCost, AllFit, Measure, Scheduled, Ready, PlainClaims;
    OneWindowIsSound(chain, worker, from, to);
    RoundsCount(chain, worker, OneWindow(from, to), pick, noise);
    var tb := Scheduled(chain, worker, OneWindow(from, to), pick, noise).tb;
    if !AllCompleted(tb) {
      var id :| id in tb.tasks && tb.tasks[id].status != Completed;
      OpenCosts(chain, worker.limit, tb, id);
    }
  }

  /** And in every run at all the current claims that are worked with every call going
      through are within the bound, each of them getting something done. */
  lemma EffortsNeverFail(chain: Chain, worker: Worker, from: int, to: int, steps: seq<Step>, s: Step)
    requires from < to && Fits(chain, PagesPerWindow(worker.limit), from, to)
    ensures
      var w := GapLosses.Run(chain, worker, OneWindow(from, to), steps);
      && Efforts(chain, worker, OneWindow(from, to), steps) + Measure(worker.limit, w.tb)
           <= WindowCost(PagesPerWindow(worker.limit), to - from)
      && (Works(w, s) ==> Measure(worker.limit, GapLosses.Apply(chain, worker, w, s).tb) < Measure(worker.limit, w.tb))
      && (Works(w, s) && worker.Watcher? ==>
           WorkedWith(w.tb, chain, worker.limit, w.held[s.event.claim].0, w.held[s.event.claim].1, Succeeds, AllStored).1)
  {
    hide Fits, WindowCost, AllFit, Measure, Sound, GapLosses.Run, GapLosses.Apply, WorkedWith;
    OneWindowIsSound(chain, worker, from, to);
    EffortsCount(chain, worker, OneWindow(from, to), steps);
    RunStaysSound(chain, worker, OneWindow(from, to), steps);
    var w := GapLosses.Run(chain, worker, OneWindow(from, to), steps);
    if Works(w, s) { WorkLowers(chain, worker, w, s); }
  }

  lemma {:induction false} RunOn(chain: Chain, worker: Worker, start: World, steps: seq<Step>, more: seq<Step>)
    ensures GapLosses.Run(chain, worker, start, steps + more) ==
      GapLosses.Run(chain, worker, GapLosses.Run(chain, worker, start, steps), more)
  {
    hide GapLosses.Apply;
    if more == [] {
      assert steps + more == steps;
    } else {
      var n := |more| - 1;
      RunOn(chain, worker, start, steps, more[..n]);
      assert (steps + more)[..|steps + more| - 1] == steps + more[..n];
    }
  }

  /** Only claims and work, all calls going through. */
  predicate Smooth(steps: seq<Step>) {
    forall i :: 0 <= i < |steps| ==>
      steps[i].storing == AllStored && (steps[i].event.Claim? || (steps[i].event.Work? && steps[i].event.outcome == Succeeds))
  }

  lemma SomeOpen(tb: Table) returns (id: int)
    requires !AllCompleted(tb)
    ensures IsOpen(tb, id)
  {
    id :| id in tb.tasks && tb.tasks[id].status != Completed;
  }

  lemma RoundIsSmooth(w: World, id: int, more: seq<Step>)
    requires Smooth(more)
    ensures Smooth(Round(w, id) + more)
  {
  }

  lemma {:induction false} Finishable(chain: Chain, worker: Worker, start: World) returns (steps: seq<Step>)
    requires Sound(chain, worker, start) && AllFit(chain, worker.limit, start.tb)
    ensures Smooth(steps) && |steps| <= 2 * Measure(worker.limit, start.tb)
    ensures AllCompleted(GapLosses.Run(chain, worker, start, steps).tb)
    decreases Measure(worker.limit, start.tb)
  {
    hide Sound, AllFit, Measure, AllCompleted, IsOpen, GapLosses.Apply;
    if AllCompleted(start.tb) {
      steps := [];
    } else {
      hide GapLosses.Run, Smooth;
      var id := SomeOpen(start.tb);
      var round := Round(start, id);
      RoundLowers(chain, worker, start, id);
      RunStaysSound(chain, worker, start, round);
      var more := Finishable(chain, worker, GapLosses.Run(chain, worker, start, round));
      steps := round + more;
      RoundIsSmooth(start, id, more);
      RunOn(chain, worker, start, round, more);
    }
  }

  /** A window and all its pieces can be completed at all exactly if it fits; then a
      run without failures of at most twice the step bound does it. */
  lemma CompletesIff(chain: Chain, worker: Worker, from: int, to: int)
    requires from < to
    ensures Fits(chain, PagesPerWindow(worker.limit), from, to) <==>
      exists steps :: AllCompleted(GapLosses.Run(chain, worker, OneWindow(from, to), steps).tb)
    ensures Fits(chain, PagesPerWindow(worker.limit), from, to) ==>
      exists steps :: Smooth(steps) && |steps| <= 2 * WindowCost(PagesPerWindow(worker.limit), to - from) &&
                      AllCompleted(GapLosses.Run(chain, worker, OneWindow(from, to), steps).tb)
  {
    hide Fits, WindowCost, AllFit, Measure, Sound, GapLosses.Run, Smooth;
    OneWindowIsSound(chain, worker, from, to);
    if Fits(chain, PagesPerWindow(worker.limit), from, to) {
      var steps := Finishable(chain, worker, OneWindow(from, to));
    } else {
      forall steps ensures !AllCompleted(GapLosses.Run(chain, worker, OneWindow(from, to), steps).tb) {
        RunStaysSound(chain, worker, OneWindow(from, to), steps);
      }
    }
  }
}
