/**
 * The chain watcher's gap worker: one step on a claimed task, and the task
 * table it moves.
 *
 * The chain is a fixed list of transfers; the rows of a time window are its
 * transfers in the window, and page p of a window is rows 50p to 50p+49. What
 * makes two rows the same transfer is their identity (`TransferIdentity`).
 */
module GapWorker {
  import opened Options

  datatype Transfer = Transfer(id: int, at: int)

  type Chain = seq<Transfer>

  const PAGE_ROWS := 50

  datatype Kind = Page | Expand | Window

  datatype Status = Pending | Leased | Completed

  datatype Task = Task(
    kind: Kind, from: int, to: int, startPage: nat, endPage: int, nextPage: nat,
    anchor: Option<int>, status: Status, generation: nat)

  datatype Table = Table(tasks: map<int, Task>, nextId: int, recorded: set<int>)

  // ------------------------------------------------------------------ the source

  predicate InWindow(x: Transfer, from: int, to: int) { from <= x.at <= to }

  function Rows(chain: Chain, from: int, to: int): seq<Transfer> {
    if chain == [] then []
    else (if InWindow(chain[0], from, to) then [chain[0]] else []) + Rows(chain[1..], from, to)
  }

  function PageOf(rows: seq<Transfer>, page: nat): seq<Transfer> {
    var low := PAGE_ROWS * page;
    if |rows| <= low then [] else if |rows| <= low + PAGE_ROWS then rows[low..] else rows[low..low + PAGE_ROWS]
  }

  function Ids(rows: seq<Transfer>): set<int> { set x | x in rows :: x.id }

  /** The rows of a page with repeated identities dropped. */
  function Unique(rows: seq<Transfer>): seq<Transfer> {
    if rows == [] then []
    else
      var init, last := Unique(rows[..|rows| - 1]), rows[|rows| - 1];
      if exists i :: 0 <= i < |init| && init[i].id == last.id then init else init + [last]
  }

  function Fetched(chain: Chain, t: Task): seq<Transfer> { Unique(PageOf(Rows(chain, t.from, t.to), CurrentPage(t))) }

  function CurrentPage(t: Task): nat { if t.nextPage < t.startPage then t.startPage else t.nextPage }

  // --------------------------------------------------------------- the task table

  /** The caller's claim on the task is still the current one. */
  predicate Holds(tb: Table, id: int, held: Task) {
    id in tb.tasks && tb.tasks[id].generation == held.generation && tb.tasks[id].status == Leased
  }

  function Claimed(tb: Table, id: int): Table {
    if id in tb.tasks && tb.tasks[id].status != Completed
    then tb.(tasks := tb.tasks[id := tb.tasks[id].(status := Leased, generation := tb.tasks[id].generation + 1)])
    else tb
  }

  function Update(tb: Table, id: int, t: Task): Table { tb.(tasks := tb.tasks[id := t]) }

  function Yielded(tb: Table, id: int, held: Task, next: nat): Table {
    if Holds(tb, id, held)
    then
      var page := tb.tasks[id].nextPage;
      Update(tb, id, tb.tasks[id].(status := Pending, nextPage := if page < next then next else page))
    else tb
  }

  function Ended(tb: Table, id: int, held: Task, status: Status): Table {
    if Holds(tb, id, held) then Update(tb, id, tb.tasks[id].(status := status)) else tb
  }

  /** An open task other than `id` with the same unique key. */
  predicate HasOpen(tb: Table, id: int, t: Task) {
    exists o :: o in tb.tasks && o != id && tb.tasks[o].status != Completed && SameKey(tb.tasks[o], t)
  }

  predicate SameKey(a: Task, b: Task) {
    a.kind == b.kind && a.from == b.from && a.to == b.to && a.startPage == b.startPage &&
    a.endPage == b.endPage && a.anchor == b.anchor
  }

  /** `INSERT … ON CONFLICT`: an open task with the same key takes the new one in. */
  function Enqueued(tb: Table, id: int, t: Task): Table {
    if HasOpen(tb, id, t) then tb
    else
      var added := t.(status := Pending, nextPage := t.startPage, generation := 0);
      tb.(tasks := tb.tasks[tb.nextId := added], nextId := tb.nextId + 1)
  }

  /** `SplitChainWatcherGapWindow`; an open left half under its own key makes the
      statement fail and roll back. */
  function Split(tb: Table, id: int, held: Task, middle: int): Table {
    if !Holds(tb, id, held) || HasOpen(tb, id, held.(to := middle)) then tb
    else
      var left := tb.tasks[id].(to := middle, nextPage := tb.tasks[id].startPage, status := Pending);
      Enqueued(Update(tb, id, left), id, held.(from := middle))
  }

  // ------------------------------------------------------------- one worker's step

  datatype Outcome = FetchFails | RecordFails(after: nat) | Succeeds

  function AnchorHit(t: Task, fetched: seq<Transfer>): bool {
    t.anchor.Some? && exists i :: 0 <= i < |fetched| && fetched[i].id == t.anchor.value
  }

  function Middle(t: Task): int { t.from + (t.to - t.from) / 2 }

  /** What is stored after the page was recorded, and whether that is a success. */
  function Finish(tb: Table, maxPages: int, id: int, held: Task, fetched: seq<Transfer>): (Table, bool) {
    var next := CurrentPage(held) + 1;
    if held.kind == Page || AnchorHit(held, fetched) then (Ended(tb, id, held, Completed), true)
    else if held.kind == Expand then
      if |fetched| >= PAGE_ROWS && next < held.endPage then (Yielded(tb, id, held, next), true)
      else (Enqueued(Ended(tb, id, held, Completed), id, WindowTask(held.from, held.to)), true)
    else if |fetched| < PAGE_ROWS then (Ended(tb, id, held, Completed), true)
    else if next < maxPages then (Yielded(tb, id, held, next), true)
    else if held.to - held.from > 1 then
      (Split(tb, id, held, Middle(held)), !Holds(tb, id, held) || !HasOpen(tb, id, held.(to := Middle(held))))
    else (Ended(tb, id, held, Pending), false)
  }

  function WindowTask(from: int, to: int): Task { Task(Window, from, to, 0, 0, 0, None, Pending, 0) }

  /** `processGapTask` on the task as it was claimed. */
  function Worked(tb: Table, chain: Chain, maxPages: int, id: int, held: Task, outcome: Outcome): (Table, bool) {
    var fetched := Fetched(chain, held);
    match outcome
    case FetchFails => (tb, false)
    case RecordFails(after) =>
      (tb.(recorded := tb.recorded + Ids(if after <= |fetched| then fetched[..after] else fetched)), false)
    case Succeeds => Finish(tb.(recorded := tb.recorded + Ids(fetched)), maxPages, id, held, fetched)
  }

  /** The storage calls after the recordings: they go through, fail without effect,
      or only the enqueue behind an exhausted expand task does not happen, because
      the call returns an error or the worker is gone. */
  datatype Storing = AllStored | NothingStored | EnqueueLost

  /** An expand task that has no page left and has not met its anchor. */
  predicate Exhausted(held: Task, fetched: seq<Transfer>) {
    held.kind == Expand && !AnchorHit(held, fetched) &&
    !(|fetched| >= PAGE_ROWS && CurrentPage(held) + 1 < held.endPage)
  }

  /** `Worked` when the storage calls can fail. */
  function WorkedWith(
      tb: Table, chain: Chain, maxPages: int, id: int, held: Task, outcome: Outcome, storing: Storing): (Table, bool)
  {
    var fetched := Fetched(chain, held);
    var seen := tb.(recorded := tb.recorded + Ids(fetched));
    if outcome.Succeeds? && storing.NothingStored? then (seen, false)
    else if outcome.Succeeds? && storing.EnqueueLost? && Exhausted(held, fetched) then (Ended(seen, id, held, Completed), false)
    else Worked(tb, chain, maxPages, id, held, outcome)
  }

  // ----------------------------------------------------------- the server, in place

  class Server {
    const chain: Chain
    const maxPages: int
    var tasks: map<int, Task>
    var nextId: int
    var recorded: set<int>

    ghost function Model(): Table
      reads this
    {
      Table(tasks, nextId, recorded)
    }

    constructor (chain: Chain, maxPages: int)
      ensures Model() == Table(map[], 1, {}) && this.chain == chain && this.maxPages == maxPages
    {
      this.chain, this.maxPages := chain, maxPages;
      tasks, nextId, recorded := map[], 1, {};
    }

    /** One page of a window, repeated identities dropped as they arrive. */
    method FetchPage(from: int, to: int, page: nat) returns (fetched: seq<Transfer>)
      ensures fetched == Unique(PageOf(Rows(chain, from, to), page))
    {
      var rows := PageOf(Rows(chain, from, to), page);
      fetched := [];
      var seen: set<int> := {};
      for i := 0 to |rows|
        invariant fetched == Unique(rows[..i])
        invariant seen == Ids(fetched)
      {
        assert rows[..i + 1][..i] == rows[..i];
        if rows[i].id !in seen {
          seen := seen + {rows[i].id};
          fetched := fetched + [rows[i]];
        }
      }
      assert rows[..|rows|] == rows;
    }

    method CompleteGap(id: int, held: Task) returns (ok: bool)
      modifies this`tasks
      ensures Model() == Ended(old(Model()), id, held, Completed) && ok == Holds(old(Model()), id, held)
    {
      ok := id in tasks && tasks[id].generation == held.generation && tasks[id].status == Leased;
      if ok { tasks := tasks[id := tasks[id].(status := Completed)]; }
    }

    method ReleaseGap(id: int, held: Task)
      modifies this`tasks
      ensures Model() == Ended(old(Model()), id, held, Pending)
    {
      if id in tasks && tasks[id].generation == held.generation && tasks[id].status == Leased {
        tasks := tasks[id := tasks[id].(status := Pending)];
      }
    }

    method YieldGap(id: int, held: Task, next: nat) returns (ok: bool)
      modifies this`tasks
      ensures Model() == Yielded(old(Model()), id, held, next) && ok == Holds(old(Model()), id, held)
    {
      ok := id in tasks && tasks[id].generation == held.generation && tasks[id].status == Leased;
      if ok {
        var page := tasks[id].nextPage;
        if page < next { page := next; }
        tasks := tasks[id := tasks[id].(status := Pending, nextPage := page)];
      }
    }

    method EnqueueGap(id: int, t: Task)
      modifies this`tasks, this`nextId
      ensures Model() == Enqueued(old(Model()), id, t)
    {
      if exists o :: o in tasks && o != id && tasks[o].status != Completed && SameKey(tasks[o], t) { return; }
      tasks := tasks[nextId := t.(status := Pending, nextPage := t.startPage, generation := 0)];
      nextId := nextId + 1;
    }

    method SplitGap(id: int, held: Task, middle: int) returns (ok: bool)
      modifies this`tasks, this`nextId
      ensures Model() == Split(old(Model()), id, held, middle)
      ensures !ok <==> Holds(old(Model()), id, held) && HasOpen(old(Model()), id, held.(to := middle))
    {
      if id !in tasks || tasks[id].generation != held.generation || tasks[id].status != Leased { return true; }
      if exists o :: o in tasks && o != id && tasks[o].status != Completed && SameKey(tasks[o], held.(to := middle)) {
        return false;
      }
      tasks := tasks[id := tasks[id].(to := middle, nextPage := tasks[id].startPage, status := Pending)];
      EnqueueGap(id, held.(from := middle));
      ok := true;
    }

    /** `processGapTask`; `outcome` says whether the fetch or one of the recordings
        fails, `storing` whether the calls that move the task do. */
    method ProcessGapTask(id: int, held: Task, outcome: Outcome, storing: Storing) returns (ok: bool)
      modifies this
      ensures (Model(), ok) == WorkedWith(old(Model()), chain, maxPages, id, held, outcome, storing)
    {
      hide Unique, PageOf, Rows;
      var page := held.nextPage;
      if page < held.startPage { page := held.startPage; }
      if outcome.FetchFails? { return false; }
      var fetched := FetchPage(held.from, held.to, page);
      var recordedAll, anchorFound := RecordTransfers(held, fetched, outcome);
      if !recordedAll || storing.NothingStored? { return false; }
      ok := MoveTask(id, held, fetched, anchorFound, storing);
    }

    /** Records the transfers in turn; whether all went through, and whether one was
        the anchor. */
    method RecordTransfers(held: Task, fetched: seq<Transfer>, outcome: Outcome) returns (ok: bool, anchorFound: bool)
      modifies this`recorded
      ensures ok == !outcome.RecordFails?
      ensures recorded == old(recorded) +
        Ids(if outcome.RecordFails? && outcome.after <= |fetched| then fetched[..outcome.after] else fetched)
      ensures ok ==> (anchorFound <==> AnchorHit(held, fetched))
    {
      anchorFound := false;
      for i := 0 to |fetched|
        invariant recorded == old(recorded) + Ids(fetched[..i])
        invariant outcome.RecordFails? ==> i <= outcome.after
        invariant anchorFound <==> AnchorHit(held, fetched[..i])
      {
        if outcome == RecordFails(i) { return false, false; }
        assert fetched[..i + 1] == fetched[..i] + [fetched[i]];
        recorded := recorded + {fetched[i].id};
        if held.anchor == Some(fetched[i].id) { anchorFound := true; assert fetched[..i + 1][i].id == held.anchor.value; }
      }
      assert fetched[..|fetched|] == fetched;
      ok := !outcome.RecordFails?;
    }

    /** What happens to the task once its page is recorded. */
    method MoveTask(id: int, held: Task, fetched: seq<Transfer>, anchorFound: bool, storing: Storing) returns (ok: bool)
      requires anchorFound <==> AnchorHit(held, fetched)
      modifies this`tasks, this`nextId
      ensures (Model(), ok) ==
        if storing.EnqueueLost? && Exhausted(held, fetched) then (Ended(old(Model()), id, held, Completed), false)
        else Finish(old(Model()), maxPages, id, held, fetched)
    {
      hide AnchorHit;
      var done: bool;
      if held.kind == Page || anchorFound {
        done := CompleteGap(id, held);
        return true;
      }
      var next := CurrentPage(held) + 1;
      if held.kind == Expand {
        if |fetched| >= PAGE_ROWS && next < held.endPage {
          done := YieldGap(id, held, next);
          return true;
        }
        done := CompleteGap(id, held);
        if storing.EnqueueLost? { return false; }
        EnqueueGap(id, WindowTask(held.from, held.to));
        return true;
      }
      if |fetched| >= PAGE_ROWS {
        if next >= maxPages && held.to - held.from > 1 {
          ok := SplitGap(id, held, held.from + (held.to - held.from) / 2);
          return;
        }
        if next >= maxPages {
          ReleaseGap(id, held);
          return false;
        }
        done := YieldGap(id, held, next);
        return true;
      }
      done := CompleteGap(id, held);
      ok := true;
    }
  }
}
