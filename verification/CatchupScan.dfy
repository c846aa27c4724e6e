/**
 * The catch-up scan of a time window: fetch what the request budget allows, and
 * when the pages do not reach the end of the window, scan its two halves. The
 * value returned is a frontier.
 */
module CatchupScan {
  import opened Numbers
  import opened GapWorker
  import opened GapCoverage

  /** What happens to the one fetch of a window: the API calls it used, and whether
      the fetch or the recording of its transfers fails. */
  datatype Outcome = FetchFails(calls: nat) | RecordFails(calls: nat, after: nat) | Succeeds(calls: nat)

  type Outcomes = (int, int) -> Outcome

  datatype Scanned = Scanned(advanced: int, budget: int, recorded: set<int>, failed: bool)

  const SMALLEST_SPLIT := 1000

  /** A bound of zero or less is left out of the query. */
  predicate Selected(x: Transfer, from: int, to: int) { (from > 0 ==> from <= x.at) && (to > 0 ==> x.at <= to) }

  function Listed(chain: Chain, from: int, to: int): seq<Transfer> {
    if chain == [] then []
    else (if Selected(chain[0], from, to) then [chain[0]] else []) + Listed(chain[1..], from, to)
  }

  function AtMost(rows: seq<Transfer>, n: nat): (m: nat)
    ensures m <= |rows|
  {
    if n < |rows| then n else |rows|
  }

  /** The rows of pages 0 to `pages - 1`; the client asks for one page at least. */
  function FirstPages(rows: seq<Transfer>, pages: int): seq<Transfer> {
    var n := PAGE_ROWS * if pages < 1 then 1 else pages;
    if |rows| <= n then rows else rows[..n]
  }

  /** Every page asked for came back full. */
  predicate LimitReached(rows: seq<Transfer>, pages: int) { pages >= 1 && |rows| >= PAGE_ROWS * pages }

  function Limit(pages: int, budget: int): int { if pages > budget then budget else pages }

  function Scan(chain: Chain, pages: int, o: Outcomes, from: int, to: int, budget: int, recorded: set<int>): Scanned
    decreases (to - from)
  {
    if from >= to then Scanned(to, budget, recorded, false)
    else if budget < 1 then Scanned(from, budget, recorded, false)
    else
      var limit, outcome, rows := Limit(pages, budget), o(from, to), Listed(chain, from, to);
      var left := budget - outcome.calls;
      if outcome.FetchFails? then Scanned(from, left, recorded, true)
      else if LimitReached(rows, limit) then
        if to - from > SMALLEST_SPLIT then
          var middle := from + (to - from) / 2;
          var first := Scan(chain, pages, o, from, middle, left, recorded);
          if first.failed || first.advanced < middle then first
          else Scan(chain, pages, o, middle, to, first.budget, first.recorded)
        else Scanned(from, left, recorded, false)
      else Settled(Unique(FirstPages(rows, limit)), outcome, from, to, left, recorded)
  }

  /** The transfers are recorded in turn until one cannot be. */
  function Settled(fetched: seq<Transfer>, outcome: Outcome, from: int, to: int, left: int, recorded: set<int>): Scanned {
    if outcome.RecordFails? && outcome.after < |fetched|
    then Scanned(from, left, recorded + Ids(fetched[..outcome.after]), true)
    else Scanned(to, left, recorded + Ids(fetched), false)
  }

  // ------------------------------------------------------------- the server, in place

  class Server {
    const chain: Chain
    const catchupPages: int
    const outcomes: Outcomes
    var recorded: set<int>

    constructor (chain: Chain, catchupPages: int, outcomes: Outcomes)
      ensures this.chain == chain && this.catchupPages == catchupPages && this.outcomes == outcomes && recorded == {}
    {
      this.chain, this.catchupPages, this.outcomes, recorded := chain, catchupPages, outcomes, {};
    }

    /** Adds a page to what was fetched so far; a transfer seen before is skipped. */
    method AddPage(rows: seq<Transfer>, low: nat, high: nat, before: seq<Transfer>, seenBefore: set<int>)
        returns (fetched: seq<Transfer>, seen: set<int>)
      requires low <= high <= |rows| && before == Unique(rows[..low]) && seenBefore == Ids(before)
      ensures fetched == Unique(rows[..high]) && seen == Ids(fetched)
    {
      fetched, seen := before, seenBefore;
      for i := low to high
        invariant fetched == Unique(rows[..i]) && seen == Ids(fetched)
      {
        assert rows[..i + 1][..i] == rows[..i];
        if rows[i].id !in seen {
          seen := seen + {rows[i].id};
          fetched := fetched + [rows[i]];
        }
      }
    }

    /** The pages of a window, repeated identities dropped, and how many rows the
        last page had. */
    method FetchWindow(from: int, to: int, pages: int) returns (fetched: seq<Transfer>, asked: int, lastRows: nat)
      ensures fetched == Unique(FirstPages(Listed(chain, from, to), pages))
      ensures asked == if pages < 1 then 1 else pages
      ensures lastRows == |PageOf(Listed(chain, from, to), asked - 1)|
    {
      asked := if pages < 1 then 1 else pages;
      var rows := Listed(chain, from, to);
      fetched, lastRows := [], 0;
      var seen: set<int> := {};
      for page := 0 to asked
        invariant fetched == Unique(rows[..AtMost(rows, PAGE_ROWS * page)]) && seen == Ids(fetched)
        invariant page > 0 ==> lastRows == |PageOf(rows, page - 1)|
      {
        lastRows := |PageOf(rows, page)|;
        fetched, seen := AddPage(rows, AtMost(rows, PAGE_ROWS * page), AtMost(rows, PAGE_ROWS * (page + 1)), fetched, seen);
      }
      assert rows[..|rows|] == rows;
    }

    method RecordTransfers(fetched: seq<Transfer>, outcome: Outcome, from: int, to: int, left: int)
        returns (advanced: int, failed: bool)
      modifies this
      ensures Scanned(advanced, left, recorded, failed) == Settled(fetched, outcome, from, to, left, old(recorded))
    {
      for i := 0 to |fetched|
        invariant recorded == old(recorded) + Ids(fetched[..i])
        invariant outcome.RecordFails? ==> i <= outcome.after
      {
        if outcome.RecordFails? && outcome.after == i { return from, true; }
        assert fetched[..i + 1] == fetched[..i] + [fetched[i]];
        recorded := recorded + {fetched[i].id};
      }
      assert fetched[..|fetched|] == fetched;
      return to, false;
    }

    method ScanCatchupWindow(from: int, to: int, budget: int) returns (advanced: int, left: int, failed: bool)
      modifies this
      ensures Scanned(advanced, left, recorded, failed) == Scan(chain, catchupPages, outcomes, from, to, budget, old(recorded))
      decreases (to - from)
    {
      hide Unique, FirstPages, Listed, Settled;
      if from >= to { return to, budget, false; }
      if budget < 1 { return from, budget, false; }
      var limit := catchupPages;
      if limit > budget { limit := budget; }
      var fetched, asked, lastRows := FetchWindow(from, to, limit);
      left := budget - outcomes(from, to).calls;
      if outcomes(from, to).FetchFails? { return from, left, true; }
      var reached := limit >= 1 && asked >= limit && lastRows >= PAGE_ROWS;
      assert reached == LimitReached(Listed(chain, from, to), limit);
      if reached && to - from > SMALLEST_SPLIT {
        var middle := from + (to - from) / 2;
        advanced, left, failed := ScanCatchupWindow(from, middle, left);
        if failed || advanced < middle { return; }
        advanced, left, failed := ScanCatchupWindow(middle, to, left);
        return;
      }
      if reached { return from, left, false; }
      advanced, failed := RecordTransfers(fetched, outcomes(from, to), from, to, left);
    }
  }

  // -------------------------------------------------------------------- the frontier

  /** Every transfer of the chain at or between two times is recorded. */
  ghost predicate Covers(chain: Chain, recorded: set<int>, from: int, upTo: int) {
    forall x :: x in chain && from <= x.at <= upTo ==> x.id in recorded
  }

  lemma {:induction false} ListedHas(chain: Chain, from: int, to: int, x: Transfer)
    requires x in chain && Selected(x, from, to)
    ensures x in Listed(chain, from, to)
  {
    if x != chain[0] { ListedHas(chain[1..], from, to, x); }
  }

  /** When the last page is short, the whole window was fetched. */
  lemma ShortWindowCovers(chain: Chain, from: int, to: int, pages: int, recorded: set<int>)
    requires pages >= 1 && !LimitReached(Listed(chain, from, to), pages)
    ensures Covers(chain, recorded + Ids(Unique(FirstPages(Listed(chain, from, to), pages))), from, to)
  {
    var rows := Listed(chain, from, to);
    UniqueKeeps(rows);
    forall x | x in chain && from <= x.at <= to ensures x.id in Ids(rows) {
      ListedHas(chain, from, to, x);
    }
  }

  lemma CoversJoin(chain: Chain, first: set<int>, second: set<int>, from: int, middle: int, upTo: int)
    requires Covers(chain, first, from, middle) && first <= second && (upTo > middle ==> Covers(chain, second, middle, upTo))
    ensures Covers(chain, second, from, if upTo > middle then upTo else middle)
  {
  }

  /** For any budget, page limit and failures: the scan forgets nothing and returns
      a point of the window. If that point is beyond the start, it has recorded every
      transfer from the start up to and including it. */
  lemma {:induction false} FrontierIsCovered(
      chain: Chain, pages: int, o: Outcomes, from: int, to: int, budget: int, recorded: set<int>)
    requires pages >= 1 && from <= to
    ensures
      var s := Scan(chain, pages, o, from, to, budget, recorded);
      (&& recorded <= s.recorded && from <= s.advanced <= to && (s.failed ==> s.advanced < to)
       && (s.advanced > from ==> Covers(chain, s.recorded, from, s.advanced)))
    decreases (to - from)
  {
    hide Listed, LimitReached, Unique, FirstPages, Covers;
    if from < to && budget >= 1 && !o(from, to).FetchFails? {
      var limit, left := Limit(pages, budget), budget - o(from, to).calls;
      if !LimitReached(Listed(chain, from, to), limit) {
        ShortWindowCovers(chain, from, to, limit, recorded);
      } else if to - from > SMALLEST_SPLIT {
        var middle := from + (to - from) / 2;
        FrontierIsCovered(chain, pages, o, from, middle, left, recorded);
        var first := Scan(chain, pages, o, from, middle, left, recorded);
        if !first.failed && first.advanced == middle {
          FrontierIsCovered(chain, pages, o, middle, to, first.budget, first.recorded);
          var second := Scan(chain, pages, o, middle, to, first.budget, first.recorded);
          CoversJoin(chain, first.recorded, second.recorded, from, middle, second.advanced);
        }
      }
    }
  }

  // -------------------------------------------------------------- how far it can get

  /** The window, or every window it is split into, fits into the page limit. */
  predicate Fits(chain: Chain, pages: int, from: int, to: int)
    decreases (to - from)
  {
    || from >= to
    || !LimitReached(Listed(chain, from, to), pages)
    || (to - from > SMALLEST_SPLIT &&
        Fits(chain, pages, from, from + (to - from) / 2) && Fits(chain, pages, from + (to - from) / 2, to))
  }

  /** Room for `calls` calls in every 250 ms of a window, and `pages` to spare. */
  predicate Affordable(calls: nat, pages: int, width: int, budget: int) {
    250 * (budget - pages) >= calls * Max(500, width)
  }

  /** What a scan may use of it. */
  predicate Within(calls: nat, width: int, spent: int) { 250 * spent <= calls * (Max(500, width) - 250) }

  lemma NothingSpent(calls: nat, width: int)
    ensures Within(calls, width, 0)
  {
    Product(calls, Max(500, width) - 250);
  }

  lemma Product(a: nat, b: nat)
    ensures a * b >= 0
  {
  }

  lemma OneFetch(calls: nat, pages: int, width: int, budget: int, spent: int)
    requires Affordable(calls, pages, width, budget) && spent <= calls
    ensures budget >= pages && Within(calls, width, spent)
  {
    var w := Max(500, width);
    assert calls * (w - 500) >= 0 && calls * (w - 250) == calls * (w - 500) + 250 * calls;
    assert calls * w == calls * (w - 500) + 500 * calls;
  }

  /** After the fetch that led to the split, and after the first half, there is
      still room for the rest. */
  lemma SplitIsAffordable(calls: nat, pages: int, a: int, b: int, budget: int, own: int, first: int)
    requires a >= 500 && b >= 500 && Affordable(calls, pages, a + b, budget)
    requires own <= calls && Within(calls, a, first)
    ensures Affordable(calls, pages, a, budget - own) && Affordable(calls, pages, b, budget - own - first)
    ensures forall second :: Within(calls, b, second) ==> Within(calls, a + b, own + first + second)
  {
    assert calls * (a + b) == calls * a + calls * b;
    assert calls * (a - 250) == calls * a - calls * 250;
    assert calls * (b - 250) == calls * b - calls * 250;
    assert calls * (a + b - 250) == calls * (a + b) - calls * 250;
    assert calls * b >= calls * 500 by { assert calls * (b - 500) >= 0; }
  }

  /** With fetches that never fail and take at most `calls` calls each, and room for
      them, the scan reaches the end exactly when no window of a second or less
      holds more than the page limit. */
  lemma {:induction false} ReachesTheEndIff(
      chain: Chain, pages: int, o: Outcomes, calls: nat, from: int, to: int, budget: int, recorded: set<int>)
    requires pages >= 1 && from < to && Affordable(calls, pages, to - from, budget)
    requires forall a, b :: o(a, b).Succeeds? && o(a, b).calls <= calls
    ensures
      var s := Scan(chain, pages, o, from, to, budget, recorded);
      !s.failed && Within(calls, to - from, budget - s.budget) && (s.advanced == to <==> Fits(chain, pages, from, to))
    decreases (to - from)
  {
    hide Affordable, Within, Listed, LimitReached, Unique, FirstPages;
    OneFetch(calls, pages, to - from, budget, o(from, to).calls);
    if LimitReached(Listed(chain, from, to), pages) && to - from > SMALLEST_SPLIT {
      var middle, own := from + (to - from) / 2, o(from, to).calls;
      NothingSpent(calls, middle - from);
      SplitIsAffordable(calls, pages, middle - from, to - middle, budget, own, 0);
      ReachesTheEndIff(chain, pages, o, calls, from, middle, budget - own, recorded);
      var first := Scan(chain, pages, o, from, middle, budget - own, recorded);
      FrontierIsCovered(chain, pages, o, from, middle, budget - own, recorded);
      SplitIsAffordable(calls, pages, middle - from, to - middle, budget, own, budget - own - first.budget);
      if first.advanced == middle {
        ReachesTheEndIff(chain, pages, o, calls, middle, to, first.budget, first.recorded);
      } else {
        NothingSpent(calls, to - middle);
      }
    }
  }

  // ------------------------------------------------------------------------ the budget

  /** The windows asked for, in order. What is left for a window is the budget less
      the calls of all the windows before it. */
  function Windows(chain: Chain, pages: int, o: Outcomes, from: int, to: int, budget: int, recorded: set<int>): seq<(int, int)>
    decreases (to - from)
  {
    if from >= to || budget < 1 then []
    else
      var left := budget - o(from, to).calls;
      [(from, to)] +
      if o(from, to).FetchFails? || to - from <= SMALLEST_SPLIT || !LimitReached(Listed(chain, from, to), Limit(pages, budget)) then []
      else
        var middle := from + (to - from) / 2;
        var first := Windows(chain, pages, o, from, middle, left, recorded);
        var scanned := Scan(chain, pages, o, from, middle, left, recorded);
        first +
        if scanned.failed || scanned.advanced < middle then []
        else Windows(chain, pages, o, middle, to, left - Calls(o, first), scanned.recorded)
  }

  function Calls(o: Outcomes, windows: seq<(int, int)>): nat {
    if windows == [] then 0
    else Calls(o, windows[..|windows| - 1]) + o(windows[|windows| - 1].0, windows[|windows| - 1].1).calls
  }

  lemma {:induction false} CallsJoin(o: Outcomes, a: seq<(int, int)>, b: seq<(int, int)>)
    ensures Calls(o, a + b) == Calls(o, a) + Calls(o, b)
  {
    if b == [] {
      assert a + b == a;
    } else {
      assert (a + b)[..|a + b| - 1] == a + b[..|b| - 1];
      CallsJoin(o, a, b[..|b| - 1]);
    }
  }

  lemma CallsOfOne(o: Outcomes, from: int, to: int)
    ensures Calls(o, [(from, to)]) == o(from, to).calls
  {
    assert [(from, to)][..0] == [];
    assert Calls(o, []) == 0;
  }

  /** The budget goes down by exactly the calls of the windows asked for. */
  lemma {:induction false} BudgetIsSpentOnWindows(
      chain: Chain, pages: int, o: Outcomes, from: int, to: int, budget: int, recorded: set<int>)
    ensures budget - Scan(chain, pages, o, from, to, budget, recorded).budget ==
      Calls(o, Windows(chain, pages, o, from, to, budget, recorded))
    decreases (to - from)
  {
    hide Listed, LimitReached, Unique, FirstPages;
    if from < to && budget >= 1 {
      var left := budget - o(from, to).calls;
      CallsOfOne(o, from, to);
      if !(o(from, to).FetchFails? || to - from <= SMALLEST_SPLIT || !LimitReached(Listed(chain, from, to), Limit(pages, budget))) {
        var middle := from + (to - from) / 2;
        var first := Windows(chain, pages, o, from, middle, left, recorded);
        var scanned := Scan(chain, pages, o, from, middle, left, recorded);
        BudgetIsSpentOnWindows(chain, pages, o, from, middle, left, recorded);
        BudgetIsSpentOnWindows(chain, pages, o, middle, to, scanned.budget, scanned.recorded);
        var second := if scanned.failed || scanned.advanced < middle then []
                      else Windows(chain, pages, o, middle, to, scanned.budget, scanned.recorded);
        CallsJoin(o, [(from, to)], first + second);
        CallsJoin(o, first, second);
      } else {
        CallsJoin(o, [(from, to)], []);
      }
    }
  }

  /** No window is asked for once the budget is used up, and every one is part of the
      whole. */
  ghost predicate Afforded(o: Outcomes, ws: seq<(int, int)>, budget: int, from: int, to: int) {
    forall i :: 0 <= i < |ws| ==> budget - Calls(o, ws[..i]) >= 1 && from <= ws[i].0 < ws[i].1 <= to
  }

  lemma AffordedOne(o: Outcomes, budget: int, from: int, to: int)
    requires budget >= 1 && from < to
    ensures Afforded(o, [(from, to)], budget, from, to)
  {
    assert [(from, to)][..0] == [];
  }

  lemma AffordedJoin(o: Outcomes, a: seq<(int, int)>, b: seq<(int, int)>, budget: int, from: int, to: int)
    requires Afforded(o, a, budget, from, to) && Afforded(o, b, budget - Calls(o, a), from, to)
    ensures Afforded(o, a + b, budget, from, to)
  {
    hide Calls;
    var ws := a + b;
    forall i | 0 <= i < |ws| ensures budget - Calls(o, ws[..i]) >= 1 && from <= ws[i].0 < ws[i].1 <= to {
      if i < |a| {
        assert ws[..i] == a[..i] && ws[i] == a[i];
      } else {
        var k := i - |a|;
        assert ws[..i] == a + b[..k] && ws[i] == b[k];
        CallsJoin(o, a, b[..k]);
      }
    }
  }

  lemma AffordedWider(o: Outcomes, ws: seq<(int, int)>, budget: int, a: int, b: int, from: int, to: int)
    requires Afforded(o, ws, budget, a, b) && from <= a && b <= to
    ensures Afforded(o, ws, budget, from, to)
  {
    hide Calls;
  }

  lemma {:induction false} WindowsAreAfforded(
      chain: Chain, pages: int, o: Outcomes, from: int, to: int, budget: int, recorded: set<int>)
    ensures Afforded(o, Windows(chain, pages, o, from, to, budget, recorded), budget, from, to)
    decreases (to - from)
  {
    if from < to && budget >= 1 {
      AffordedOne(o, budget, from, to);
      CallsOfOne(o, from, to);
      if !(o(from, to).FetchFails? || to - from <= SMALLEST_SPLIT || !LimitReached(Listed(chain, from, to), Limit(pages, budget))) {
        hide Listed, LimitReached, Scan, Calls, Afforded;
        var left, middle := budget - o(from, to).calls, from + (to - from) / 2;
        var first := Windows(chain, pages, o, from, middle, left, recorded);
        var scanned := Scan(chain, pages, o, from, middle, left, recorded);
        WindowsAreAfforded(chain, pages, o, from, middle, left, recorded);
        AffordedWider(o, first, left, from, middle, from, to);
        var all := Windows(chain, pages, o, from, to, budget, recorded);
        if scanned.failed || scanned.advanced < middle {
          assert all == [(from, to)] + first;
          AffordedJoin(o, [(from, to)], first, budget, from, to);
        } else {
          var second := Windows(chain, pages, o, middle, to, left - Calls(o, first), scanned.recorded);
          WindowsAreAfforded(chain, pages, o, middle, to, left - Calls(o, first), scanned.recorded);
          AffordedWider(o, second, left - Calls(o, first), middle, to, from, to);
          AffordedJoin(o, first, second, left, from, to);
          AffordedJoin(o, [(from, to)], first + second, budget, from, to);
          assert all == [(from, to)] + (first + second);
        }
      }
    }
  }
}
