/**
 * Working off gaps makes progress. What one step does to a window is spelled out,
 * and from it: the tasks of one window can all be completed exactly if every
 * window that cannot be halved any more fits into the page limit; and then every
 * schedule gets there, whatever fails or comes late in between.
 */
module GapProgress {
  import opened Options
  import opened GapWorker
  import opened GapCoverage
  import opened GapLosses

  /** A page of the window with fifty different transfers. */
  predicate Full(chain: Chain, from: int, to: int, page: nat) { |Unique(PageOf(Rows(chain, from, to), page))| >= PAGE_ROWS }

  /** A window without an anchor, as a gap becomes in the end. */
  predicate Plain(t: Task) { t.kind == Window && t.anchor.None? && t.startPage == 0 && t.from < t.to }

  /** Another open task stands for the same window. */
  predicate Taken(tb: Table, id: int, t: Task, from: int, to: int) {
    exists o :: o in tb.tasks && o != id && tb.tasks[o].status != Completed && tb.tasks[o].kind == Window &&
                tb.tasks[o].from == from && tb.tasks[o].to == to && tb.tasks[o].startPage == t.startPage &&
                tb.tasks[o].endPage == t.endPage && tb.tasks[o].anchor == t.anchor
  }

  // ------------------------------------------------------------------------ one step

  lemma TakenMeans(tb: Table, id: int, t: Task, from: int, to: int)
    requires t.kind == Window
    ensures Taken(tb, id, t, from, to) <==> HasOpen(tb, id, t.(from := from, to := to))
  {
  }

  lemma WindowFinish(tb: Table, limit: int, id: int, held: Task, fetched: seq<Transfer>)
    requires Holds(tb, id, held) && tb.tasks[id] == held && Plain(held)
    ensures
      var (tb', ok) := Finish(tb, limit, id, held, fetched);
      var next, mid := held.nextPage + 1, held.from + (held.to - held.from) / 2;
      && (|fetched| < PAGE_ROWS ==> ok && tb' == tb.(tasks := tb.tasks[id := held.(status := Completed)]))
      && (|fetched| >= PAGE_ROWS && next < limit ==>
           ok && tb' == tb.(tasks := tb.tasks[id := held.(status := Pending, nextPage := next)]))
      && (|fetched| >= PAGE_ROWS && next >= limit && held.to - held.from <= 1 ==>
           !ok && tb' == tb.(tasks := tb.tasks[id := held.(status := Pending)]))
      && (|fetched| >= PAGE_ROWS && next >= limit && held.to - held.from > 1 && Taken(tb, id, held, held.from, mid) ==>
           !ok && tb' == tb)
      && (|fetched| >= PAGE_ROWS && next >= limit && held.to - held.from > 1 && !Taken(tb, id, held, held.from, mid) ==>
           ok && Halved(tb, tb', id, held, mid))
  {
    var mid := held.from + (held.to - held.from) / 2;
    TakenMeans(tb, id, held, held.from, mid);
    if |fetched| >= PAGE_ROWS && held.nextPage + 1 >= limit && held.to - held.from > 1 && !Taken(tb, id, held, held.from, mid) {
      SplitHalves(tb, id, held);
    }
  }

  /** The left half takes the task's place and the right one is a new task, unless it
      stands already; both wait, to be read from their first page. */
  ghost predicate Halved(tb: Table, tb': Table, id: int, held: Task, mid: int) {
    var left := held.(to := mid, nextPage := 0, status := Pending);
    var right := held.(from := mid, nextPage := 0, status := Pending, generation := 0);
    tb' ==
      if Taken(tb, id, held, mid, held.to) then tb.(tasks := tb.tasks[id := left])
      else tb.(tasks := tb.tasks[id := left][tb.nextId := right], nextId := tb.nextId + 1)
  }

  lemma SplitHalves(tb: Table, id: int, held: Task)
    requires Holds(tb, id, held) && tb.tasks[id] == held && Plain(held)
    requires !Taken(tb, id, held, held.from, held.from + (held.to - held.from) / 2)
    ensures Halved(tb, Split(tb, id, held, Middle(held)), id, held, held.from + (held.to - held.from) / 2)
  {
    var mid := Middle(held);
    TakenMeans(tb, id, held, held.from, mid);
    var tb1 := Update(tb, id, held.(to := mid, nextPage := 0, status := Pending));
    TakenMeans(tb1, id, held, mid, held.to);
    TakenElsewhere(tb, tb1, id, held, mid, held.to);
  }

  /** What stands for a window elsewhere does not depend on the task itself. */
  lemma TakenElsewhere(tb: Table, tb': Table, id: int, t: Task, from: int, to: int)
    requires id in tb.tasks && id in tb'.tasks && tb'.tasks == tb.tasks[id := tb'.tasks[id]]
    ensures Taken(tb', id, t, from, to) <==> Taken(tb, id, t, from, to)
  {
    assert forall o :: o in tb.tasks && o != id ==> o in tb'.tasks && tb'.tasks[o] == tb.tasks[o];
    assert forall o :: o in tb'.tasks && o != id ==> o in tb.tasks && tb'.tasks[o] == tb.tasks[o];
  }

  /** On window tasks the fallback does what the watcher does. */
  lemma FallbackFinishIs(tb: Table, limit: int, id: int, held: Task, fetched: seq<Transfer>)
    requires Plain(held)
    ensures FallbackGap.FallbackFinish(tb, limit, id, held, fetched) == Finish(tb, limit, id, held, fetched).0
  {
    hide Split, Enqueued;
  }

  /** What a step of either worker does to a window it holds when every call goes
      through: complete it behind a short page, go on to the next page below the
      limit, halve it at the limit, and give it back only if it cannot be halved. */
  lemma StepOnWindow(worker: Worker, chain: Chain, tb: Table, id: int, held: Task)
    requires Holds(tb, id, held) && tb.tasks[id] == held && Plain(held)
    ensures
      var tb' := With(worker, tb, chain, id, held, Succeeds, AllStored);
      var seen := tb.(recorded := tb.recorded + Ids(Fetched(chain, held)));
      var full, next, mid := Full(chain, held.from, held.to, held.nextPage), held.nextPage + 1, held.from + (held.to - held.from) / 2;
      && (!full ==> tb' == seen.(tasks := tb.tasks[id := held.(status := Completed)]))
      && (full && next < worker.limit ==> tb' == seen.(tasks := tb.tasks[id := held.(status := Pending, nextPage := next)]))
      && (full && next >= worker.limit && held.to - held.from <= 1 ==> tb' == seen.(tasks := tb.tasks[id := held.(status := Pending)]))
      && (full && next >= worker.limit && held.to - held.from > 1 && !Taken(tb, id, held, held.from, mid) ==>
           Halved(seen, tb', id, held, mid))
      && (worker.Watcher? ==>
           (WorkedWith(tb, chain, worker.limit, id, held, Succeeds, AllStored).1 <==>
             !full || next < worker.limit || (held.to - held.from > 1 && !Taken(tb, id, held, held.from, mid))))
  {
    hide Unique, PageOf, Rows, Ids, Halved, Finish, FallbackGap.FallbackFinish;
    var seen := tb.(recorded := tb.recorded + Ids(Fetched(chain, held)));
    WindowFinish(seen, worker.limit, id, held, Fetched(chain, held));
    FallbackFinishIs(seen, worker.limit, id, held, Fetched(chain, held));
    var mid := held.from + (held.to - held.from) / 2;
    assert Taken(seen, id, held, held.from, mid) <==> Taken(tb, id, held, held.from, mid);
  }

  /** The page limit of an expand task: its own end, which the fallback replaces by
      its safety limit, and at least one page, when there is nothing to read before it. */
  function ExpandLimit(worker: Worker, t: Task): int {
    if worker.Watcher? || t.endPage > t.startPage then t.endPage
    else if worker.limit > t.startPage then worker.limit else t.startPage + 1
  }

  lemma ExpandFinish(worker: Worker, seen: Table, id: int, held: Task, fetched: seq<Transfer>)
    requires Holds(seen, id, held) && seen.tasks[id] == held && held.kind == Expand
    ensures
      var tb' := if worker.Watcher? then Finish(seen, worker.limit, id, held, fetched).0
                 else FallbackGap.FallbackFinish(seen, worker.limit, id, held, fetched);
      var page := if held.nextPage < held.startPage then held.startPage else held.nextPage;
      var window := Task(Window, held.from, held.to, 0, if worker.Watcher? then 0 else worker.limit, 0, None, Pending, 0);
      var done := seen.(tasks := seen.tasks[id := held.(status := Completed)]);
      tb' ==
        if held.anchor.Some? && held.anchor.value in Ids(fetched) then done
        else if |fetched| >= PAGE_ROWS && page + 1 < ExpandLimit(worker, held) then
          seen.(tasks := seen.tasks[id := held.(status := Pending, nextPage := page + 1)])
        else if Taken(seen, id, window, held.from, held.to) then done
        else done.(tasks := done.tasks[seen.nextId := window], nextId := seen.nextId + 1)
  {
    AnchorMeans(held, fetched);
    hide AnchorHit, Ids;
    var window := Task(Window, held.from, held.to, 0, if worker.Watcher? then 0 else worker.limit, 0, None, Pending, 0);
    var done := Ended(seen, id, held, Completed);
    TakenMeans(done, id, window, held.from, held.to);
    TakenElsewhere(seen, done, id, window, held.from, held.to);
    hide Taken, HasOpen;
  }

  lemma AnchorMeans(t: Task, fetched: seq<Transfer>)
    ensures AnchorHit(t, fetched) <==> t.anchor.Some? && t.anchor.value in Ids(fetched)
  {
    if AnchorHit(t, fetched) {
      var i :| 0 <= i < |fetched| && fetched[i].id == t.anchor.value;
      assert fetched[i] in fetched;
    }
  }

  /** What a step of either worker does to an expand task it holds when every call goes
      through: complete it at its anchor, go on to the next page below its end, and
      else complete it with its window enqueued, unless that stands already. */
  lemma StepOnExpand(worker: Worker, chain: Chain, tb: Table, id: int, held: Task)
    requires Holds(tb, id, held) && tb.tasks[id] == held && held.kind == Expand
    ensures
      var tb', fetched := With(worker, tb, chain, id, held, Succeeds, AllStored), Fetched(chain, held);
      var seen := tb.(recorded := tb.recorded + Ids(fetched));
      var page := if held.nextPage < held.startPage then held.startPage else held.nextPage;
      var window := Task(Window, held.from, held.to, 0, if worker.Watcher? then 0 else worker.limit, 0, None, Pending, 0);
      var done := seen.(tasks := tb.tasks[id := held.(status := Completed)]);
      tb' ==
        if held.anchor.Some? && held.anchor.value in Ids(fetched) then done
        else if |fetched| >= PAGE_ROWS && page + 1 < ExpandLimit(worker, held) then
          seen.(tasks := tb.tasks[id := held.(status := Pending, nextPage := page + 1)])
        else if Taken(seen, id, window, held.from, held.to) then done
        else done.(tasks := done.tasks[tb.nextId := window], nextId := tb.nextId + 1)
  {
    hide Unique, PageOf, Rows, Ids, Finish, FallbackGap.FallbackFinish;
    ExpandFinish(worker, tb.(recorded := tb.recorded + Ids(Fetched(chain, held))), id, held, Fetched(chain, held));
  }

  /** A page task is completed by one page, whatever is on it. */
  lemma StepOnPage(chain: Chain, limit: int, tb: Table, id: int, held: Task)
    requires Holds(tb, id, held) && tb.tasks[id] == held && held.kind == Page
    ensures Worked(tb, chain, limit, id, held, Succeeds).0 ==
      tb.(recorded := tb.recorded + Ids(Fetched(chain, held)), tasks := tb.tasks[id := held.(status := Completed)])
  {
    hide Unique, PageOf, Rows, Ids;
  }

  /** When the fetch or a recording fails, what was recorded before stays recorded; the
      fallback gives a task it holds back at once, and the watcher's task stays leased
      until its caller releases it or the lease ends. */
  lemma FailedStep(worker: Worker, chain: Chain, tb: Table, id: int, held: Task, outcome: Outcome)
    requires !outcome.Succeeds?
    ensures
      var tb', fetched := With(worker, tb, chain, id, held, outcome, AllStored), Fetched(chain, held);
      var seen := if outcome.FetchFails? then [] else if outcome.after <= |fetched| then fetched[..outcome.after] else fetched;
      && tb'.recorded == tb.recorded + Ids(seen) && tb'.nextId == tb.nextId
      && tb'.tasks ==
           if worker.Fallback? && id in tb.tasks && tb.tasks[id].generation == held.generation && tb.tasks[id].status == Leased
           then tb.tasks[id := tb.tasks[id].(status := Pending)] else tb.tasks
  {
    hide Unique, PageOf, Rows;
    assert Ids([]) == {};
  }

  /** A claim leases an open task under a new generation, so that no earlier claim on it
      counts any more. */
  lemma ClaimIs(chain: Chain, limit: int, w: World, id: int)
    requires id in w.tb.tasks && w.tb.tasks[id].status != Completed
    ensures
      var w', t := GapCoverage.Apply(chain, limit, w, Claim(id)), w.tb.tasks[id];
      var leased := t.(status := Leased, generation := t.generation + 1);
      && w'.tb == w.tb.(tasks := w.tb.tasks[id := leased]) && w'.held == w.held + [(id, leased)]
      && (forall k :: 0 <= k < |w.held| && w.held[k].0 == id && w.held[k].1.generation <= t.generation ==>
           !Holds(w'.tb, id, w.held[k].1))
  {
    assert Claimed(w.tb, id).tasks[id] != w.tb.tasks[id];
  }
}
