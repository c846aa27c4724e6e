/**
 * Gap tasks lose nothing: in any order of claims, yields, splits, failures and
 * late workers, a transfer that some open task answers for stays answered for
 * until it is recorded.
 */
module GapCoverage {
  import opened GapWorker

  /** The table and every claim a worker ever got, with the task as claimed. */
  datatype World = World(tb: Table, held: seq<(int, Task)>)

  datatype Event =
    | Claim(id: int)
    | Work(claim: nat, outcome: Outcome)
    | Release(claim: nat)

  function Apply(chain: Chain, maxPages: int, w: World, e: Event): World {
    match e
    case Claim(id) =>
      var tb := Claimed(w.tb, id);
      if id in tb.tasks && tb.tasks[id].status == Leased && tb != w.tb then World(tb, w.held + [(id, tb.tasks[id])]) else w
    case Work(k, outcome) =>
      if k < |w.held| then w.(tb := Worked(w.tb, chain, maxPages, w.held[k].0, w.held[k].1, outcome).0) else w
    case Release(k) =>
      if k < |w.held| then w.(tb := Ended(w.tb, w.held[k].0, w.held[k].1, Pending)) else w
  }

  function Run(chain: Chain, maxPages: int, start: World, events: seq<Event>): World {
    if events == [] then start
    else Apply(chain, maxPages, Run(chain, maxPages, start, events[..|events| - 1]), events[|events| - 1])
  }

  // ------------------------------------------------------------------ the source

  /** A page with fewer than fifty different transfers is taken for the last one.
      Nothing is hidden behind it if the rows after it only repeat earlier ones. */
  predicate NothingBehind(rows: seq<Transfer>, page: nat) {
    |Unique(PageOf(rows, page))| < PAGE_ROWS ==>
      forall i :: PAGE_ROWS * (page + 1) <= i < |rows| ==> rows[i].id in Ids(rows[..PAGE_ROWS * (page + 1)])
  }

  ghost predicate NothingHidden(chain: Chain) {
    forall from, to, p: nat :: from < to ==> NothingBehind(Rows(chain, from, to), p)
  }

  lemma {:induction false} UniqueKeeps(rows: seq<Transfer>)
    ensures Ids(Unique(rows)) == Ids(rows) && |Unique(rows)| <= |rows|
  {
    if rows != [] {
      UniqueKeeps(rows[..|rows| - 1]);
      assert rows == rows[..|rows| - 1] + [rows[|rows| - 1]];
      var init, last := Unique(rows[..|rows| - 1]), rows[|rows| - 1];
      assert Ids(rows) == Ids(rows[..|rows| - 1]) + {last.id};
      if exists i :: 0 <= i < |init| && init[i].id == last.id {
        var i :| 0 <= i < |init| && init[i].id == last.id;
        assert init[i] in init;
        assert last.id in Ids(init);
        assert Ids(init) == Ids(rows);
      } else {
        assert Ids(init + [last]) == Ids(init) + {last.id};
      }
    }
  }

  lemma {:induction false} RowsHave(chain: Chain, from: int, to: int, j: int)
    requires 0 <= j < |chain| && InWindow(chain[j], from, to)
    ensures chain[j] in Rows(chain, from, to)
  {
    if j > 0 { RowsHave(chain[1..], from, to, j - 1); }
  }

  lemma {:induction false} RowsFrom(chain: Chain, from: int, to: int)
    ensures forall x :: x in Rows(chain, from, to) ==> x in chain && InWindow(x, from, to)
  {
    if chain != [] { RowsFrom(chain[1..], from, to); }
  }

  /** If no two transfers of the chain share an identity, nothing is hidden. */
  lemma DistinctHidesNothing(chain: Chain)
    requires forall i, j :: 0 <= i < j < |chain| ==> chain[i].id != chain[j].id
    ensures NothingHidden(chain)
  {
    forall from, to, p: nat ensures NothingBehind(Rows(chain, from, to), p) {
      RowsDistinct(chain, from, to);
      UniqueOfDistinct(PageOf(Rows(chain, from, to), p));
    }
  }

  lemma {:induction false} RowsDistinct(chain: Chain, from: int, to: int)
    requires forall i, j :: 0 <= i < j < |chain| ==> chain[i].id != chain[j].id
    ensures forall i, j :: 0 <= i < j < |Rows(chain, from, to)| ==> Rows(chain, from, to)[i].id != Rows(chain, from, to)[j].id
  {
    if chain != [] {
      RowsDistinct(chain[1..], from, to);
      RowsFrom(chain[1..], from, to);
      var rest := Rows(chain[1..], from, to);
      forall i | 0 <= i < |rest| ensures rest[i].id != chain[0].id {
        assert rest[i] in rest;
        var k :| 0 <= k < |chain[1..]| && chain[1..][k] == rest[i];
        assert chain[k + 1] == rest[i];
      }
    }
  }

  lemma {:induction false} UniqueOfDistinct(rows: seq<Transfer>)
    requires forall i, j :: 0 <= i < j < |rows| ==> rows[i].id != rows[j].id
    ensures Unique(rows) == rows
  {
    if rows != [] {
      UniqueOfDistinct(rows[..|rows| - 1]);
      assert rows == rows[..|rows| - 1] + [rows[|rows| - 1]];
    }
  }

  // ------------------------------------------------------------------- invariant

  /** Every row before the cursor has been recorded. */
  ghost predicate Scanned(chain: Chain, recorded: set<int>, from: int, to: int, pages: nat) {
    forall i :: 0 <= i < |Rows(chain, from, to)| && i < PAGE_ROWS * pages ==> Rows(chain, from, to)[i].id in recorded
  }

  ghost predicate TaskOk(chain: Chain, tb: Table, id: int)
    requires id in tb.tasks
  {
    var t := tb.tasks[id];
    && id < tb.nextId && t.from < t.to
    && (t.kind == Window ==> t.startPage == 0 && Scanned(chain, tb.recorded, t.from, t.to, t.nextPage))
  }

  ghost predicate ClaimOk(tb: Table, id: int, held: Task) {
    && id in tb.tasks && held.generation <= tb.tasks[id].generation && held.status == Leased && held.from < held.to
    && (held.kind == Window ==> held.startPage == 0)
    && (Holds(tb, id, held) ==> tb.tasks[id] == held)
  }

  ghost predicate Inv(chain: Chain, w: World) {
    && (forall id :: id in w.tb.tasks ==> TaskOk(chain, w.tb, id))
    && (forall k :: 0 <= k < |w.held| ==> ClaimOk(w.tb, w.held[k].0, w.held[k].1))
  }

  ghost predicate AnchorFree(chain: Chain, t: Task) {
    t.anchor.None? || t.anchor.value !in Ids(Rows(chain, t.from, t.to))
  }

  /** Task `t` answers for transfer `j` of the chain: it is open, `j` is in its
      window (for a page task: on its page), and no anchor can end it early. */
  ghost predicate Answers(chain: Chain, t: Task, j: int)
    requires 0 <= j < |chain|
  {
    && t.status != Completed && InWindow(chain[j], t.from, t.to)
    && (if t.kind == Page then chain[j].id in Ids(PageOf(Rows(chain, t.from, t.to), CurrentPage(t))) else AnchorFree(chain, t))
  }

  ghost predicate Covered(chain: Chain, tb: Table, j: int)
    requires 0 <= j < |chain|
  {
    chain[j].id in tb.recorded || exists id :: id in tb.tasks && Answers(chain, tb.tasks[id], j)
  }

  // ------------------------------------------------------------ facts about pages

  /** Once a page is recorded, the rows up to its end are. */
  lemma PageScanned(chain: Chain, recorded: set<int>, from: int, to: int, page: nat)
    requires Scanned(chain, recorded, from, to, page)
    requires Ids(Unique(PageOf(Rows(chain, from, to), page))) <= recorded
    ensures Scanned(chain, recorded, from, to, page + 1)
  {
    var rows := Rows(chain, from, to);
    UniqueKeeps(PageOf(rows, page));
    forall i | 0 <= i < |rows| && i < PAGE_ROWS * (page + 1) ensures rows[i].id in recorded {
      if i >= PAGE_ROWS * page {
        assert PageOf(rows, page)[i - PAGE_ROWS * page] == rows[i];
        assert rows[i] in PageOf(rows, page);
      }
    }
  }

  /** Behind a page with fewer than fifty different rows everything is recorded
      once the page is. */
  lemma ShortPageEnds(chain: Chain, recorded: set<int>, from: int, to: int, page: nat, j: int)
    requires NothingHidden(chain) && from < to && |Unique(PageOf(Rows(chain, from, to), page))| < PAGE_ROWS
    requires Scanned(chain, recorded, from, to, page + 1)
    requires 0 <= j < |chain| && InWindow(chain[j], from, to)
    ensures chain[j].id in recorded
  {
    RowsHave(chain, from, to, j);
    var rows := Rows(chain, from, to);
    var i :| 0 <= i < |rows| && rows[i] == chain[j];
    if i >= PAGE_ROWS * (page + 1) {
      assert NothingBehind(rows, page);
      var x :| x in rows[..PAGE_ROWS * (page + 1)] && x.id == rows[i].id;
      var k :| 0 <= k < PAGE_ROWS * (page + 1) && rows[k] == x;
    }
  }

  lemma HalfAnchorFree(chain: Chain, t: Task, half: Task)
    requires AnchorFree(chain, t) && half.anchor == t.anchor && t.from <= half.from && half.to <= t.to
    ensures AnchorFree(chain, half)
  {
    if half.anchor.Some? && half.anchor.value in Ids(Rows(chain, half.from, half.to)) {
      var x :| x in Rows(chain, half.from, half.to) && x.id == half.anchor.value;
      RowsFrom(chain, half.from, half.to);
      var j :| 0 <= j < |chain| && chain[j] == x;
      RowsHave(chain, t.from, t.to, j);
    }
  }

  // ---------------------------------------------------------------- preservation

  /** How the table moves under a worker's step on task `id`: other tasks stay,
      at most one task is added, nothing recorded is forgotten. */
  ghost predicate Moves(chain: Chain, tb: Table, tb': Table, id: int) {
    && tb.recorded <= tb'.recorded && tb.nextId <= tb'.nextId
    && (forall o :: o in tb.tasks ==> o in tb'.tasks && (o != id ==> tb'.tasks[o] == tb.tasks[o]))
    && (forall o :: o in tb'.tasks && o !in tb.tasks ==> o >= tb.nextId && tb'.tasks[o].nextPage == tb'.tasks[o].startPage)
    && (forall o :: o in tb'.tasks && (o == id || o !in tb.tasks) ==> TaskOk(chain, tb', o))
    && (id in tb.tasks ==> tb'.tasks[id].generation == tb.tasks[id].generation)
    && (id in tb.tasks ==> tb'.tasks[id] == tb.tasks[id] || tb'.tasks[id].status != Leased)
  }

  lemma MovesKeepInv(chain: Chain, w: World, tb': Table, id: int)
    requires Inv(chain, w) && Moves(chain, w.tb, tb', id)
    ensures Inv(chain, w.(tb := tb'))
  {
    forall o | o in tb'.tasks ensures TaskOk(chain, tb', o) {
      if o in w.tb.tasks && o != id { assert TaskOk(chain, w.tb, o); }
    }
    forall k | 0 <= k < |w.held| ensures ClaimOk(tb', w.held[k].0, w.held[k].1) {
      assert ClaimOk(w.tb, w.held[k].0, w.held[k].1);
    }
  }

  lemma RecordingMoves(chain: Chain, tb: Table, tb': Table, id: int)
    requires tb' == tb.(recorded := tb'.recorded) && tb.recorded <= tb'.recorded
    requires forall o :: o in tb.tasks ==> TaskOk(chain, tb, o)
    ensures Moves(chain, tb, tb', id)
  {
    forall o | o in tb'.tasks ensures TaskOk(chain, tb', o) {
      assert TaskOk(chain, tb, o);
    }
  }

  lemma EnqueueMoves(chain: Chain, tb: Table, id: int, t: Task)
    requires forall o :: o in tb.tasks ==> TaskOk(chain, tb, o)
    requires t.from < t.to && (t.kind == Window ==> t.startPage == 0)
    ensures Moves(chain, tb, Enqueued(tb, id, t), id)
    ensures Enqueued(tb, id, t).recorded == tb.recorded
  {
    var tb' := Enqueued(tb, id, t);
    assert tb.nextId !in tb.tasks;
    forall o | o in tb'.tasks ensures TaskOk(chain, tb', o) {
      if o in tb.tasks { assert TaskOk(chain, tb, o); }
    }
  }

  /** Recording a page and then acting on the task, for a claim that still holds. */
  lemma FinishMoves(chain: Chain, tb: Table, maxPages: int, id: int, held: Task)
    requires forall o :: o in tb.tasks ==> TaskOk(chain, tb, o)
    requires ClaimOk(tb, id, held) && Ids(Fetched(chain, held)) <= tb.recorded
    ensures Moves(chain, tb, Finish(tb, maxPages, id, held, Fetched(chain, held)).0, id)
  {
    hide Unique, PageOf, Rows, Scanned;
    var fetched, next := Fetched(chain, held), CurrentPage(held) + 1;
    assert TaskOk(chain, tb, id);
    if held.kind == Page || AnchorHit(held, fetched) {
    } else if held.kind == Expand {
      if !(|fetched| >= PAGE_ROWS && next < held.endPage) {
        var mid := Ended(tb, id, held, Completed);
        forall o | o in mid.tasks ensures TaskOk(chain, mid, o) { assert TaskOk(chain, tb, o); }
        EnqueueMoves(chain, mid, id, WindowTask(held.from, held.to));
      }
    } else if |fetched| >= PAGE_ROWS {
      if Holds(tb, id, held) {
        PageScanned(chain, tb.recorded, held.from, held.to, CurrentPage(held));
      }
      if next >= maxPages && held.to - held.from > 1 {
        SplitMoves(chain, tb, id, held);
      }
    }
  }

  lemma SplitMoves(chain: Chain, tb: Table, id: int, held: Task)
    requires forall o :: o in tb.tasks ==> TaskOk(chain, tb, o)
    requires ClaimOk(tb, id, held) && held.kind == Window && held.to - held.from > 1
    ensures Moves(chain, tb, Split(tb, id, held, Middle(held)), id)
  {
    if Split(tb, id, held, Middle(held)) != tb {
      var left := tb.tasks[id].(to := Middle(held), nextPage := tb.tasks[id].startPage, status := Pending);
      var mid := Update(tb, id, left);
      assert TaskOk(chain, tb, id);
      forall o | o in mid.tasks ensures TaskOk(chain, mid, o) { if o != id { assert TaskOk(chain, tb, o); } }
      EnqueueMoves(chain, mid, id, held.(from := Middle(held)));
    }
  }

  lemma StepKeepsInv(chain: Chain, maxPages: int, w: World, e: Event)
    requires Inv(chain, w)
    ensures Inv(chain, Apply(chain, maxPages, w, e))
  {
    match e {
      case Claim(id) => ClaimKeepsInv(chain, maxPages, w, e);
      case Release(k) =>
        if k < |w.held| {
          assert ClaimOk(w.tb, w.held[k].0, w.held[k].1);
          assert TaskOk(chain, w.tb, w.held[k].0);
          MovesKeepInv(chain, w, Ended(w.tb, w.held[k].0, w.held[k].1, Pending), w.held[k].0);
        }
      case Work(k, outcome) =>
        if k < |w.held| {
          var (id, held) := w.held[k];
          assert ClaimOk(w.tb, id, held);
          var fetched := Fetched(chain, held);
          if outcome.RecordFails? {
            var tb' := Worked(w.tb, chain, maxPages, id, held, outcome).0;
            RecordingMoves(chain, w.tb, tb', id);
            MovesKeepInv(chain, w, tb', id);
          } else if outcome.Succeeds? {
            var mid := w.tb.(recorded := w.tb.recorded + Ids(fetched));
            RecordingMoves(chain, w.tb, mid, id);
            MovesKeepInv(chain, w, mid, id);
            FinishMoves(chain, mid, maxPages, id, held);
            MovesKeepInv(chain, w.(tb := mid), Finish(mid, maxPages, id, held, fetched).0, id);
          }
        }
    }
  }

  lemma ClaimKeepsInv(chain: Chain, maxPages: int, w: World, e: Event)
    requires Inv(chain, w) && e.Claim?
    ensures Inv(chain, Apply(chain, maxPages, w, e))
  {
    var w' := Apply(chain, maxPages, w, e);
    if w' != w {
      assert TaskOk(chain, w.tb, e.id);
      forall o | o in w'.tb.tasks ensures TaskOk(chain, w'.tb, o) { assert TaskOk(chain, w.tb, o); }
      forall k | 0 <= k < |w'.held| ensures ClaimOk(w'.tb, w'.held[k].0, w'.held[k].1) {
        if k < |w.held| { assert ClaimOk(w.tb, w.held[k].0, w.held[k].1); }
      }
    }
  }

  // -------------------------------------------------------------------- coverage

  lemma OthersStayCovered(chain: Chain, tb: Table, tb': Table, id: int, j: int)
    requires 0 <= j < |chain| && Covered(chain, tb, j) && Moves(chain, tb, tb', id)
    requires id in tb.tasks && Answers(chain, tb.tasks[id], j) ==> Covered(chain, tb', j)
    ensures Covered(chain, tb', j)
  {
    if chain[j].id !in tb'.recorded {
      var o :| o in tb.tasks && Answers(chain, tb.tasks[o], j);
      if o != id { assert tb'.tasks[o] == tb.tasks[o]; }
    }
  }

  /** A task that `Enqueued` was asked for is open afterwards, under some id. */
  lemma EnqueuedAnswers(chain: Chain, tb: Table, id: int, t: Task, j: int)
    requires 0 <= j < |chain| && t.kind == Window && InWindow(chain[j], t.from, t.to) && AnchorFree(chain, t)
    requires tb.nextId !in tb.tasks
    ensures Covered(chain, Enqueued(tb, id, t), j)
  {
    var tb' := Enqueued(tb, id, t);
    if HasOpen(tb, id, t) {
      var o :| o in tb.tasks && o != id && tb.tasks[o].status != Completed && SameKey(tb.tasks[o], t);
      assert Answers(chain, tb'.tasks[o], j);
    } else {
      assert Answers(chain, tb'.tasks[tb.nextId], j);
    }
  }

  /** What the worked task answered for is recorded or still answered for. */
  lemma FinishKeepsOwn(chain: Chain, tb: Table, maxPages: int, id: int, held: Task, j: int)
    requires NothingHidden(chain) && 0 <= j < |chain|
    requires forall o :: o in tb.tasks ==> TaskOk(chain, tb, o)
    requires ClaimOk(tb, id, held) && Ids(Fetched(chain, held)) <= tb.recorded
    requires Answers(chain, tb.tasks[id], j)
    ensures Covered(chain, Finish(tb, maxPages, id, held, Fetched(chain, held)).0, j)
  {
    var fetched := Fetched(chain, held);
    var tb' := Finish(tb, maxPages, id, held, fetched).0;
    FinishMoves(chain, tb, maxPages, id, held);
    assert TaskOk(chain, tb, id);
    UniqueKeeps(PageOf(Rows(chain, held.from, held.to), CurrentPage(held)));
    if !Holds(tb, id, held) {
      assert tb'.tasks[id] == tb.tasks[id];
      assert Answers(chain, tb'.tasks[id], j);
    } else if held.kind != Page {
      AnchorIsMissed(chain, held);
      FinishOpenTask(chain, tb, maxPages, id, held, j);
    }
  }

  lemma PageInRows(rows: seq<Transfer>, page: nat)
    ensures Ids(PageOf(rows, page)) <= Ids(rows)
  {
    forall x | x in PageOf(rows, page) ensures x in rows {
    }
  }

  lemma AnchorIsMissed(chain: Chain, t: Task)
    requires AnchorFree(chain, t)
    ensures !AnchorHit(t, Fetched(chain, t))
  {
    var rows, fetched := Rows(chain, t.from, t.to), Fetched(chain, t);
    UniqueKeeps(PageOf(rows, CurrentPage(t)));
    PageInRows(rows, CurrentPage(t));
    forall i | 0 <= i < |fetched| ensures fetched[i].id in Ids(rows) {
      assert fetched[i] in fetched;
    }
  }

  lemma FinishOpenTask(chain: Chain, tb: Table, maxPages: int, id: int, held: Task, j: int)
    requires NothingHidden(chain) && 0 <= j < |chain|
    requires forall o :: o in tb.tasks ==> TaskOk(chain, tb, o)
    requires ClaimOk(tb, id, held) && Ids(Fetched(chain, held)) <= tb.recorded
    requires Holds(tb, id, held) && held.kind != Page && Answers(chain, held, j) && !AnchorHit(held, Fetched(chain, held))
    ensures Covered(chain, Finish(tb, maxPages, id, held, Fetched(chain, held)).0, j)
  {
    var fetched := Fetched(chain, held);
    var tb' := Finish(tb, maxPages, id, held, fetched).0;
    assert TaskOk(chain, tb, id);
    assert tb.nextId !in tb.tasks;
    if held.kind == Expand {
      if |fetched| >= PAGE_ROWS && CurrentPage(held) + 1 < held.endPage {
        assert Answers(chain, tb'.tasks[id], j);
      } else {
        EnqueuedAnswers(chain, Ended(tb, id, held, Completed), id, WindowTask(held.from, held.to), j);
      }
    } else if |fetched| < PAGE_ROWS {
      PageScanned(chain, tb.recorded, held.from, held.to, CurrentPage(held));
      ShortPageEnds(chain, tb.recorded, held.from, held.to, CurrentPage(held), j);
    } else if CurrentPage(held) + 1 < maxPages || held.to - held.from <= 1 {
      assert Answers(chain, tb'.tasks[id], j);
    } else {
      SplitAnswers(chain, tb, id, held, j);
    }
  }

  lemma SplitAnswers(chain: Chain, tb: Table, id: int, held: Task, j: int)
    requires 0 <= j < |chain| && Holds(tb, id, held) && tb.tasks[id] == held
    requires held.kind == Window && held.startPage == 0 && held.to - held.from > 1 && Answers(chain, held, j)
    requires tb.nextId !in tb.tasks
    ensures Covered(chain, Split(tb, id, held, Middle(held)), j)
  {
    var tb' := Split(tb, id, held, Middle(held));
    if tb' == tb {
      assert Answers(chain, tb'.tasks[id], j);
    } else {
      var left := held.(to := Middle(held), nextPage := held.startPage, status := Pending);
      var mid := Update(tb, id, left);
      assert tb'.tasks[id] == left;
      if chain[j].at <= Middle(held) {
        HalfAnchorFree(chain, held, left);
        assert Answers(chain, tb'.tasks[id], j);
      } else {
        HalfAnchorFree(chain, held, held.(from := Middle(held)));
        EnqueuedAnswers(chain, mid, id, held.(from := Middle(held)), j);
      }
    }
  }

  lemma StepKeepsCovered(chain: Chain, maxPages: int, w: World, e: Event, j: int)
    requires NothingHidden(chain) && Inv(chain, w) && 0 <= j < |chain| && Covered(chain, w.tb, j)
    ensures Covered(chain, Apply(chain, maxPages, w, e).tb, j)
  {
    var w' := Apply(chain, maxPages, w, e);
    match e {
      case Claim(id) =>
        if chain[j].id !in w.tb.recorded {
          var o :| o in w.tb.tasks && Answers(chain, w.tb.tasks[o], j);
          assert Answers(chain, w'.tb.tasks[o], j);
        }
      case Release(k) =>
        if chain[j].id !in w.tb.recorded {
          var o :| o in w.tb.tasks && Answers(chain, w.tb.tasks[o], j);
          assert Answers(chain, w'.tb.tasks[o], j);
        }
      case Work(k, outcome) =>
        if k < |w.held| {
          WorkKeepsCovered(chain, maxPages, w, k, outcome, j);
        }
    }
  }

  lemma WorkKeepsCovered(chain: Chain, maxPages: int, w: World, k: nat, outcome: Outcome, j: int)
    requires NothingHidden(chain) && Inv(chain, w) && 0 <= j < |chain| && Covered(chain, w.tb, j) && k < |w.held|
    ensures Covered(chain, Worked(w.tb, chain, maxPages, w.held[k].0, w.held[k].1, outcome).0, j)
  {
    var (id, held) := w.held[k];
    assert ClaimOk(w.tb, id, held);
    var fetched := Fetched(chain, held);
    var tb' := Worked(w.tb, chain, maxPages, id, held, outcome).0;
    if !outcome.Succeeds? {
      if chain[j].id !in tb'.recorded {
        var o :| o in w.tb.tasks && Answers(chain, w.tb.tasks[o], j);
        assert Answers(chain, tb'.tasks[o], j);
      }
    } else {
      var mid := w.tb.(recorded := w.tb.recorded + Ids(fetched));
      RecordingMoves(chain, w.tb, mid, id);
      MovesKeepInv(chain, w, mid, id);
      assert Covered(chain, mid, j) by {
        if chain[j].id !in mid.recorded {
          var o :| o in w.tb.tasks && Answers(chain, w.tb.tasks[o], j);
          assert Answers(chain, mid.tasks[o], j);
        }
      }
      FinishMoves(chain, mid, maxPages, id, held);
      if Answers(chain, mid.tasks[id], j) { FinishKeepsOwn(chain, mid, maxPages, id, held, j); }
      OthersStayCovered(chain, mid, tb', id, j);
    }
  }

  // --------------------------------------------------------------- main theorems

  /** Over any run, a transfer that was recorded or answered for stays so. */
  lemma {:induction false} CoverageIsKept(chain: Chain, maxPages: int, start: World, events: seq<Event>, j: int)
    requires NothingHidden(chain) && Inv(chain, start) && 0 <= j < |chain| && Covered(chain, start.tb, j)
    ensures Inv(chain, Run(chain, maxPages, start, events))
    ensures Covered(chain, Run(chain, maxPages, start, events).tb, j)
  {
    if events != [] {
      var init := events[..|events| - 1];
      CoverageIsKept(chain, maxPages, start, init, j);
      var w := Run(chain, maxPages, start, init);
      StepKeepsInv(chain, maxPages, w, events[|events| - 1]);
      StepKeepsCovered(chain, maxPages, w, events[|events| - 1], j);
    }
  }

  function OneWindow(from: int, to: int): World { World(Table(map[0 := WindowTask(from, to)], 1, {}), []) }

  ghost predicate AllCompleted(tb: Table) {
    forall id :: id in tb.tasks ==> tb.tasks[id].status == Completed
  }

  /** Once a window task and all its descendants are completed, every transfer of
      the window has been recorded, whatever the order of yields and splits, the
      failures and the late workers in between. */
  lemma CompletedWindowIsRecorded(chain: Chain, maxPages: int, from: int, to: int, events: seq<Event>, j: int)
    requires NothingHidden(chain) && from < to && 0 <= j < |chain| && InWindow(chain[j], from, to)
    requires AllCompleted(Run(chain, maxPages, OneWindow(from, to), events).tb)
    ensures chain[j].id in Run(chain, maxPages, OneWindow(from, to), events).tb.recorded
  {
    var start := OneWindow(from, to);
    assert TaskOk(chain, start.tb, 0);
    assert Answers(chain, start.tb.tasks[0], j);
    CoverageIsKept(chain, maxPages, start, events, j);
  }
}
