/**
 * Working off gaps terminates: every effective successful step lowers a measure
 * on window widths and remaining pages, however claims, failures and late
 * workers interleave with it.
 */
module GapTermination {
  import opened MapSums
  import opened GapWorker
  import opened GapCoverage

  function PagesPerWindow(maxPages: int): nat { if maxPages < 1 then 1 else maxPages }

  /** Steps a new window of a given width can take, all its halves included: a
      window of width w is split w - 1 times at most and each piece is paged
      through once. */
  function WindowCost(pages: nat, width: int): nat {
    if width <= 1 then pages else pages * (2 * width - 1)
  }

  function Cost(maxPages: int, t: Task): nat {
    var pages := PagesPerWindow(maxPages);
    var whole := WindowCost(pages, t.to - t.from);
    if t.status == Completed then 0
    else match t.kind
      case Page => 1
      case Expand => 1 + (if t.endPage > CurrentPage(t) then t.endPage - CurrentPage(t) else 0) + whole
      case Window => if CurrentPage(t) < whole then whole - CurrentPage(t) else 0
  }

  ghost function Costs(maxPages: int, tb: Table): map<int, nat> {
    map id | id in tb.tasks :: Cost(maxPages, tb.tasks[id])
  }

  ghost function Measure(maxPages: int, tb: Table): nat { Sum(Costs(maxPages, tb)) }

  ghost predicate CursorOk(maxPages: int, tb: Table, id: int)
    requires id in tb.tasks
  {
    var t := tb.tasks[id];
    id < tb.nextId && t.from < t.to && (t.kind == Window ==> t.startPage == 0 && t.nextPage < PagesPerWindow(maxPages))
  }

  ghost predicate CursorsOk(maxPages: int, tb: Table) {
    forall id :: id in tb.tasks ==> CursorOk(maxPages, tb, id)
  }

  lemma WindowCostAtLeast(pages: nat, width: int)
    ensures WindowCost(pages, width) >= pages
  {
    if width > 1 { assert pages * (2 * width - 1) == pages + pages * (2 * width - 2); }
  }

  lemma WindowCostSplit(pages: nat, a: int, b: int)
    requires a >= 1 && b >= 1
    ensures WindowCost(pages, a + b) == pages + WindowCost(pages, a) + WindowCost(pages, b)
  {
    assert pages * (2 * (a + b) - 1) == pages + pages * (2 * a - 1) + pages * (2 * b - 1);
  }

  /** The cost of an open window task. */
  lemma OpenWindowCost(maxPages: int, t: Task, width: int)
    requires t.kind == Window && t.status != Completed && t.startPage == 0 && t.nextPage < PagesPerWindow(maxPages)
    requires width == t.to - t.from
    ensures Cost(maxPages, t) == WindowCost(PagesPerWindow(maxPages), width) - t.nextPage > 0
  {
    WindowCostAtLeast(PagesPerWindow(maxPages), width);
  }

  /** A split leaves less than the whole. */
  lemma SplitCost(maxPages: int, held: Task, left: Task, right: Task)
    requires held.kind == Window && held.startPage == 0 && held.status != Completed && held.to - held.from > 1
    requires held.nextPage + 1 >= maxPages && held.nextPage < PagesPerWindow(maxPages)
    requires left == held.(to := Middle(held), nextPage := 0, status := Pending)
    requires right == held.(from := Middle(held), nextPage := 0, status := Pending, generation := 0)
    ensures Cost(maxPages, left) + Cost(maxPages, right) < Cost(maxPages, held)
  {
    var pages, width := PagesPerWindow(maxPages), held.to - held.from;
    WindowCostSplit(pages, width / 2, width - width / 2);
    OpenWindowCost(maxPages, held, width);
    OpenWindowCost(maxPages, left, width / 2);
    OpenWindowCost(maxPages, right, width - width / 2);
  }

  lemma UpdateMeasure(maxPages: int, tb: Table, id: int, t: Task)
    ensures Measure(maxPages, Update(tb, id, t)) ==
      Measure(maxPages, tb) - (if id in tb.tasks then Cost(maxPages, tb.tasks[id]) else 0) + Cost(maxPages, t)
  {
    assert Costs(maxPages, Update(tb, id, t)) == Costs(maxPages, tb)[id := Cost(maxPages, t)];
    SumWrite(Costs(maxPages, tb), id, Cost(maxPages, t));
  }

  /** Enqueuing adds at most the cost of the new task. */
  lemma EnqueueMeasure(maxPages: int, tb: Table, id: int, t: Task)
    requires CursorsOk(maxPages, tb) && t.from < t.to && (t.kind == Window ==> t.startPage == 0)
    ensures CursorsOk(maxPages, Enqueued(tb, id, t))
    ensures Measure(maxPages, Enqueued(tb, id, t)) <=
      Measure(maxPages, tb) + Cost(maxPages, t.(status := Pending, nextPage := t.startPage, generation := 0))
  {
    assert tb.nextId !in tb.tasks;
    var added := t.(status := Pending, nextPage := t.startPage, generation := 0);
    if !HasOpen(tb, id, t) {
      UpdateMeasure(maxPages, tb, tb.nextId, added);
      assert Costs(maxPages, Enqueued(tb, id, t)) == Costs(maxPages, Update(tb, tb.nextId, added));
      forall o | o in Enqueued(tb, id, t).tasks ensures CursorOk(maxPages, Enqueued(tb, id, t), o) {
        if o in tb.tasks { assert CursorOk(maxPages, tb, o); }
      }
    }
  }

  lemma CompleteLowers(maxPages: int, tb: Table, id: int, held: Task)
    requires CursorsOk(maxPages, tb) && Holds(tb, id, held) && tb.tasks[id] == held
    ensures CursorsOk(maxPages, Ended(tb, id, held, Completed))
    ensures Measure(maxPages, Ended(tb, id, held, Completed)) == Measure(maxPages, tb) - Cost(maxPages, held)
    ensures Cost(maxPages, held) > 0
    ensures held.kind == Expand ==> Cost(maxPages, held) > Cost(maxPages, WindowTask(held.from, held.to))
  {
    assert CursorOk(maxPages, tb, id);
    UpdateMeasure(maxPages, tb, id, held.(status := Completed));
    if held.kind == Window { OpenWindowCost(maxPages, held, held.to - held.from); }
    if held.kind == Expand { OpenWindowCost(maxPages, WindowTask(held.from, held.to), held.to - held.from); }
    var mid := Ended(tb, id, held, Completed);
    forall o | o in mid.tasks ensures CursorOk(maxPages, mid, o) { assert CursorOk(maxPages, tb, o); }
  }

  /** A worker that holds its claim and succeeds lowers the measure. */
  lemma FinishLowers(maxPages: int, tb: Table, id: int, held: Task, fetched: seq<Transfer>)
    requires CursorsOk(maxPages, tb) && Holds(tb, id, held) && tb.tasks[id] == held
    requires Finish(tb, maxPages, id, held, fetched).1
    ensures CursorsOk(maxPages, Finish(tb, maxPages, id, held, fetched).0)
    ensures Measure(maxPages, Finish(tb, maxPages, id, held, fetched).0) < Measure(maxPages, tb)
  {
    var next := CurrentPage(held) + 1;
    CompleteLowers(maxPages, tb, id, held);
    if held.kind != Page && !AnchorHit(held, fetched) {
      if held.kind == Expand {
        if |fetched| >= PAGE_ROWS && next < held.endPage {
          YieldLowers(maxPages, tb, id, held, next);
        } else {
          EnqueueMeasure(maxPages, Ended(tb, id, held, Completed), id, WindowTask(held.from, held.to));
        }
      } else if |fetched| >= PAGE_ROWS {
        if next < maxPages {
          YieldLowers(maxPages, tb, id, held, next);
        } else {
          SplitLowers(maxPages, tb, id, held);
        }
      }
    }
  }

  lemma YieldLowers(maxPages: int, tb: Table, id: int, held: Task, next: nat)
    requires CursorsOk(maxPages, tb) && Holds(tb, id, held) && tb.tasks[id] == held && next == CurrentPage(held) + 1
    requires (held.kind == Expand && next < held.endPage) || (held.kind == Window && next < maxPages)
    ensures CursorsOk(maxPages, Yielded(tb, id, held, next))
    ensures Measure(maxPages, Yielded(tb, id, held, next)) < Measure(maxPages, tb)
  {
    assert CursorOk(maxPages, tb, id);
    var moved := held.(status := Pending, nextPage := next);
    if held.kind == Window {
      OpenWindowCost(maxPages, held, held.to - held.from);
      OpenWindowCost(maxPages, moved, held.to - held.from);
    }
    UpdateMeasure(maxPages, tb, id, moved);
    var tb' := Update(tb, id, moved);
    forall o | o in tb'.tasks ensures CursorOk(maxPages, tb', o) { assert CursorOk(maxPages, tb, o); }
  }

  lemma SplitLowers(maxPages: int, tb: Table, id: int, held: Task)
    requires CursorsOk(maxPages, tb) && Holds(tb, id, held) && tb.tasks[id] == held
    requires held.kind == Window && held.to - held.from > 1 && CurrentPage(held) + 1 >= maxPages
    requires !HasOpen(tb, id, held.(to := Middle(held)))
    ensures CursorsOk(maxPages, Split(tb, id, held, Middle(held)))
    ensures Measure(maxPages, Split(tb, id, held, Middle(held))) < Measure(maxPages, tb)
  {
    assert CursorOk(maxPages, tb, id);
    var left := held.(to := Middle(held), nextPage := 0, status := Pending);
    var mid := Update(tb, id, left);
    UpdateMeasure(maxPages, tb, id, left);
    forall o | o in mid.tasks ensures CursorOk(maxPages, mid, o) { assert CursorOk(maxPages, tb, o); }
    var right := held.(from := Middle(held));
    EnqueueMeasure(maxPages, mid, id, right);
    SplitCost(maxPages, held, left, right.(status := Pending, nextPage := 0, generation := 0));
  }

  // -------------------------------------------------------------------- whole runs

  /** Work on a claim that still holds, reported as a success. */
  ghost predicate Effective(chain: Chain, maxPages: int, w: World, e: Event) {
    e.Work? && e.outcome.Succeeds? && e.claim < |w.held| && Holds(w.tb, w.held[e.claim].0, w.held[e.claim].1) &&
    Worked(w.tb, chain, maxPages, w.held[e.claim].0, w.held[e.claim].1, e.outcome).1
  }

  ghost function Successes(chain: Chain, maxPages: int, start: World, events: seq<Event>): nat {
    if events == [] then 0
    else
      var init := events[..|events| - 1];
      Successes(chain, maxPages, start, init) +
      if Effective(chain, maxPages, Run(chain, maxPages, start, init), events[|events| - 1]) then 1 else 0
  }

  /** Window tasks only, as after a single window was enqueued. */
  ghost predicate WindowsOnly(w: World) {
    (forall id :: id in w.tb.tasks ==> w.tb.tasks[id].kind == Window) &&
    (forall k :: 0 <= k < |w.held| ==> w.held[k].1.kind == Window)
  }

  /** Nothing but who holds which task differs between the two tables. */
  ghost predicate Quiet(a: Table, b: Table) {
    && a.tasks.Keys == b.tasks.Keys && a.nextId == b.nextId
    && forall id :: id in a.tasks ==> QuietTask(a.tasks[id], b.tasks[id])
  }

  ghost predicate QuietTask(a: Task, b: Task) {
    b == a.(status := b.status, generation := b.generation) && (a.status == Completed <==> b.status == Completed)
  }

  lemma QuietKeeps(maxPages: int, a: Table, b: Table)
    requires Quiet(a, b) && CursorsOk(maxPages, a)
    ensures Measure(maxPages, b) == Measure(maxPages, a) && CursorsOk(maxPages, b)
  {
    forall id | id in b.tasks ensures Cost(maxPages, b.tasks[id]) == Cost(maxPages, a.tasks[id]) && CursorOk(maxPages, b, id) {
      assert id in a.tasks.Keys;
      assert CursorOk(maxPages, a, id) && QuietTask(a.tasks[id], b.tasks[id]);
    }
    var ca, cb := Costs(maxPages, a), Costs(maxPages, b);
    assert cb.Keys == b.tasks.Keys && ca.Keys == a.tasks.Keys;
    forall id | id in cb ensures id in ca && cb[id] == ca[id] {
      assert id in b.tasks.Keys;
    }
    assert cb == ca;
  }

  /** Work that is no effective success moves no task but its own, and that one
      only back to the queue. */
  lemma OtherWorkIsQuiet(chain: Chain, maxPages: int, tb: Table, id: int, held: Task, outcome: Outcome)
    requires ClaimOk(tb, id, held) && held.kind == Window
    requires !(outcome.Succeeds? && Holds(tb, id, held) && Worked(tb, chain, maxPages, id, held, outcome).1)
    ensures Quiet(tb, Worked(tb, chain, maxPages, id, held, outcome).0)
  {
    if outcome.Succeeds? {
      var fetched := Fetched(chain, held);
      var mid := tb.(recorded := tb.recorded + Ids(fetched));
      assert Holds(mid, id, held) == Holds(tb, id, held);
      if !Holds(mid, id, held) {
        assert Finish(mid, maxPages, id, held, fetched).0 == mid;
      }
    }
  }

  lemma OtherStepIsQuiet(chain: Chain, maxPages: int, w: World, e: Event)
    requires Inv(chain, w) && WindowsOnly(w) && !Effective(chain, maxPages, w, e)
    ensures Quiet(w.tb, Apply(chain, maxPages, w, e).tb)
  {
    if e.Work? && e.claim < |w.held| {
      assert ClaimOk(w.tb, w.held[e.claim].0, w.held[e.claim].1);
      OtherWorkIsQuiet(chain, maxPages, w.tb, w.held[e.claim].0, w.held[e.claim].1, e.outcome);
    }
  }

  lemma EffectiveLowers(chain: Chain, maxPages: int, w: World, e: Event)
    requires Inv(chain, w) && CursorsOk(maxPages, w.tb) && Effective(chain, maxPages, w, e)
    ensures
      var w' := Apply(chain, maxPages, w, e);
      CursorsOk(maxPages, w'.tb) && Measure(maxPages, w'.tb) < Measure(maxPages, w.tb)
  {
    var (id, held) := w.held[e.claim];
    assert ClaimOk(w.tb, id, held);
    var mid := w.tb.(recorded := w.tb.recorded + Ids(Fetched(chain, held)));
    assert QuietTask(w.tb.tasks[id], mid.tasks[id]);
    QuietKeeps(maxPages, w.tb, mid);
    FinishLowers(maxPages, mid, id, held, Fetched(chain, held));
  }

  /** No step ever makes anything but a window task out of window tasks. */
  lemma WorkKeepsWindows(chain: Chain, maxPages: int, tb: Table, id: int, held: Task, outcome: Outcome)
    requires held.kind == Window && forall o :: o in tb.tasks ==> tb.tasks[o].kind == Window
    ensures forall o :: o in Worked(tb, chain, maxPages, id, held, outcome).0.tasks ==>
      Worked(tb, chain, maxPages, id, held, outcome).0.tasks[o].kind == Window
  {
  }

  lemma StepKeepsWindows(chain: Chain, maxPages: int, w: World, e: Event)
    requires WindowsOnly(w)
    ensures WindowsOnly(Apply(chain, maxPages, w, e))
  {
    if e.Work? && e.claim < |w.held| {
      WorkKeepsWindows(chain, maxPages, w.tb, w.held[e.claim].0, w.held[e.claim].1, e.outcome);
    }
  }

  lemma StepLowersOrKeeps(chain: Chain, maxPages: int, w: World, e: Event)
    requires Inv(chain, w) && CursorsOk(maxPages, w.tb) && WindowsOnly(w)
    ensures
      var w' := Apply(chain, maxPages, w, e);
      && CursorsOk(maxPages, w'.tb) && WindowsOnly(w')
      && Measure(maxPages, w'.tb) + (if Effective(chain, maxPages, w, e) then 1 else 0) <= Measure(maxPages, w.tb)
  {
    StepKeepsWindows(chain, maxPages, w, e);
    if Effective(chain, maxPages, w, e) {
      EffectiveLowers(chain, maxPages, w, e);
    } else {
      OtherStepIsQuiet(chain, maxPages, w, e);
      QuietKeeps(maxPages, w.tb, Apply(chain, maxPages, w, e).tb);
    }
  }

  lemma {:induction false} SuccessesAreBounded(chain: Chain, maxPages: int, start: World, events: seq<Event>)
    requires Inv(chain, start) && CursorsOk(maxPages, start.tb) && WindowsOnly(start)
    ensures
      var w := Run(chain, maxPages, start, events);
      && Inv(chain, w) && CursorsOk(maxPages, w.tb) && WindowsOnly(w)
      && Successes(chain, maxPages, start, events) + Measure(maxPages, w.tb) <= Measure(maxPages, start.tb)
  {
    if events != [] {
      var init := events[..|events| - 1];
      SuccessesAreBounded(chain, maxPages, start, init);
      var w := Run(chain, maxPages, start, init);
      StepKeepsInv(chain, maxPages, w, events[|events| - 1]);
      StepLowersOrKeeps(chain, maxPages, w, events[|events| - 1]);
    }
  }

  /** One window task and all its descendants take at most `WindowCost` effective
      successful steps, in any run. */
  lemma WindowTakesBoundedSteps(chain: Chain, maxPages: int, from: int, to: int, events: seq<Event>)
    requires from < to
    ensures Successes(chain, maxPages, OneWindow(from, to), events) <= WindowCost(PagesPerWindow(maxPages), to - from)
  {
    var start := OneWindow(from, to);
    assert TaskOk(chain, start.tb, 0);
    var none: map<int, nat> := map[];
    assert Costs(maxPages, start.tb) == none[0 := WindowCost(PagesPerWindow(maxPages), to - from)];
    SumWrite(none, 0, WindowCost(PagesPerWindow(maxPages), to - from));
    SuccessesAreBounded(chain, maxPages, start, events);
  }
}
