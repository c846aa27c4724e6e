/**
 * Exactly when the gap worker is lossless. The worker compares the number of
 * different transfers on a page with fifty, not the number of rows, so a full
 * page with a repeated transfer is taken for the last page of its window.
 */
module GapExact {
  import opened GapWorker
  import opened GapCoverage

  /** Completing a window task and all its descendants always means that every
      transfer of the window was recorded. */
  ghost predicate Lossless(chain: Chain) {
    forall maxPages, from, to, events, j ::
      from < to && 0 <= j < |chain| && InWindow(chain[j], from, to) &&
      AllCompleted(Run(chain, maxPages, OneWindow(from, to), events).tb)
      ==> chain[j].id in Run(chain, maxPages, OneWindow(from, to), events).tb.recorded
  }

  /** `n` rounds of one worker claiming the task and working one page. */
  function Rounds(n: nat): seq<Event> {
    if n == 0 then [] else Rounds(n - 1) + [Claim(0), Work(n - 1, Succeeds)]
  }

  lemma RunTwo(chain: Chain, maxPages: int, start: World, events: seq<Event>, e: Event, f: Event)
    ensures Run(chain, maxPages, start, events + [e, f])
         == Apply(chain, maxPages, Apply(chain, maxPages, Run(chain, maxPages, start, events), e), f)
  {
    var all := events + [e, f];
    assert all[..|all| - 1] == events + [e];
    assert (events + [e])[..|events|] == events;
  }

  /** The table after `q` pages that all had fifty different rows. */
  ghost predicate AtPage(chain: Chain, w: World, from: int, to: int, q: nat) {
    && w.tb.tasks == map[0 := WindowTask(from, to).(nextPage := q, generation := q)]
    && |w.held| == q
    && PAGE_ROWS * q <= |Rows(chain, from, to)| && w.tb.recorded == Ids(Rows(chain, from, to)[..PAGE_ROWS * q])
  }

  lemma NextRows(rows: seq<Transfer>, q: nat)
    requires PAGE_ROWS * (q + 1) <= |rows|
    ensures Ids(rows[..PAGE_ROWS * q]) + Ids(Unique(PageOf(rows, q))) == Ids(rows[..PAGE_ROWS * (q + 1)])
  {
    UniqueKeeps(PageOf(rows, q));
    assert rows[..PAGE_ROWS * (q + 1)] == rows[..PAGE_ROWS * q] + PageOf(rows, q);
  }

  /** Task 0 as claimed in round `q`. */
  function HeldAt(from: int, to: int, q: nat): Task {
    WindowTask(from, to).(nextPage := q, generation := q + 1, status := Leased)
  }

  /** One round: claim the task, then work its page. */
  lemma OneRound(chain: Chain, maxPages: int, w: World, from: int, to: int, q: nat)
    requires from < to && AtPage(chain, w, from, to, q)
    ensures
      var held := HeldAt(from, to, q);
      var fetched := Fetched(chain, held);
      var tb := w.tb.(tasks := map[0 := held], recorded := w.tb.recorded + Ids(fetched));
      Apply(chain, maxPages, Apply(chain, maxPages, w, Claim(0)), Work(q, Succeeds))
        == World(Finish(tb, maxPages, 0, held, fetched).0, w.held + [(0, held)])
  {
    var held := HeldAt(from, to, q);
    var claimed := Claimed(w.tb, 0);
    assert claimed.tasks == map[0 := held];
    assert Apply(chain, maxPages, w, Claim(0)) == World(claimed, w.held + [(0, held)]);
  }

  lemma {:induction false} FullPagesAdvance(chain: Chain, from: int, to: int, maxPages: int, q: nat)
    requires from < to && q < maxPages && PAGE_ROWS * q <= |Rows(chain, from, to)|
    requires forall p: nat :: p < q ==> |Unique(PageOf(Rows(chain, from, to), p))| >= PAGE_ROWS
    ensures AtPage(chain, Run(chain, maxPages, OneWindow(from, to), Rounds(q)), from, to, q)
  {
    hide Unique, PageOf, Rows, Apply;
    var rows := Rows(chain, from, to);
    if q == 0 {
      assert rows[..0] == [];
    } else {
      FullPagesAdvance(chain, from, to, maxPages, q - 1);
      var w := Run(chain, maxPages, OneWindow(from, to), Rounds(q - 1));
      RunTwo(chain, maxPages, OneWindow(from, to), Rounds(q - 1), Claim(0), Work(q - 1, Succeeds));
      OneRound(chain, maxPages, w, from, to, q - 1);
      NextRows(rows, q - 1);
      FullRound(chain, maxPages, w, from, to, q - 1);
    }
  }

  /** What finishing a page does to the one open window task. */
  lemma FinishOne(tb: Table, maxPages: int, from: int, to: int, q: nat, fetched: seq<Transfer>)
    requires tb.tasks == map[0 := HeldAt(from, to, q)]
    ensures |fetched| >= PAGE_ROWS && q + 1 < maxPages ==>
      Finish(tb, maxPages, 0, HeldAt(from, to, q), fetched).0
        == tb.(tasks := map[0 := WindowTask(from, to).(nextPage := q + 1, generation := q + 1)])
    ensures |fetched| < PAGE_ROWS ==>
      Finish(tb, maxPages, 0, HeldAt(from, to, q), fetched).0 == tb.(tasks := map[0 := HeldAt(from, to, q).(status := Completed)])
  {
  }

  lemma FullRound(chain: Chain, maxPages: int, w: World, from: int, to: int, q: nat)
    requires from < to && AtPage(chain, w, from, to, q) && q + 1 < maxPages
    requires |Unique(PageOf(Rows(chain, from, to), q))| >= PAGE_ROWS && PAGE_ROWS * (q + 1) <= |Rows(chain, from, to)|
    requires w.tb.recorded + Ids(Unique(PageOf(Rows(chain, from, to), q))) == Ids(Rows(chain, from, to)[..PAGE_ROWS * (q + 1)])
    ensures AtPage(chain, Apply(chain, maxPages, Apply(chain, maxPages, w, Claim(0)), Work(q, Succeeds)), from, to, q + 1)
  {
    OneRound(chain, maxPages, w, from, to, q);
    var held := HeldAt(from, to, q);
    FinishOne(w.tb.(tasks := map[0 := held], recorded := w.tb.recorded + Ids(Fetched(chain, held))),
              maxPages, from, to, q, Fetched(chain, held));
  }

  lemma ShortRound(chain: Chain, w: World, from: int, to: int, q: nat)
    requires from < to && PAGE_ROWS * (q + 1) <= |Rows(chain, from, to)| && AtPage(chain, w, from, to, q)
    requires |Unique(PageOf(Rows(chain, from, to), q))| < PAGE_ROWS
    ensures
      var tb := Apply(chain, q + 1, Apply(chain, q + 1, w, Claim(0)), Work(q, Succeeds)).tb;
      AllCompleted(tb) && tb.recorded == Ids(Rows(chain, from, to)[..PAGE_ROWS * (q + 1)])
  {
    hide Unique, PageOf, Rows, Finish, Claimed;
    OneRound(chain, q + 1, w, from, to, q);
    NextRows(Rows(chain, from, to), q);
    var held := HeldAt(from, to, q);
    FinishOne(w.tb.(tasks := map[0 := held], recorded := w.tb.recorded + Ids(Fetched(chain, held))),
              q + 1, from, to, q, Fetched(chain, held));
  }

  /** The first page with fewer than fifty different rows ends the task. */
  lemma ShortPageCompletes(chain: Chain, from: int, to: int, q: nat)
    requires from < to && PAGE_ROWS * (q + 1) <= |Rows(chain, from, to)|
    requires forall p: nat :: p < q ==> |Unique(PageOf(Rows(chain, from, to), p))| >= PAGE_ROWS
    requires |Unique(PageOf(Rows(chain, from, to), q))| < PAGE_ROWS
    ensures var tb := Run(chain, q + 1, OneWindow(from, to), Rounds(q + 1)).tb;
      AllCompleted(tb) && tb.recorded == Ids(Rows(chain, from, to)[..PAGE_ROWS * (q + 1)])
  {
    hide Unique, PageOf, Rows, Run, Apply, AtPage, AllCompleted;
    FullPagesAdvance(chain, from, to, q + 1, q);
    var w := Run(chain, q + 1, OneWindow(from, to), Rounds(q));
    RunTwo(chain, q + 1, OneWindow(from, to), Rounds(q), Claim(0), Work(q, Succeeds));
    ShortRound(chain, w, from, to, q);
  }

  lemma {:induction false} FirstShortPage(rows: seq<Transfer>, p: nat) returns (q: nat)
    requires |Unique(PageOf(rows, p))| < PAGE_ROWS
    ensures q <= p && |Unique(PageOf(rows, q))| < PAGE_ROWS
    ensures forall k: nat :: k < q ==> |Unique(PageOf(rows, k))| >= PAGE_ROWS
  {
    hide Unique, PageOf;
    q := 0;
    while |Unique(PageOf(rows, q))| >= PAGE_ROWS
      invariant q <= p && forall k: nat :: k < q ==> |Unique(PageOf(rows, k))| >= PAGE_ROWS
      decreases p - q
    {
      q := q + 1;
    }
  }

  lemma IdsOfPrefix(rows: seq<Transfer>, a: nat, b: nat)
    requires a <= b <= |rows|
    ensures Ids(rows[..a]) <= Ids(rows[..b])
  {
    forall x | x in rows[..a] ensures x in rows[..b] {
      var k :| 0 <= k < a && rows[k] == x;
      assert rows[..b][k] == x;
    }
  }

  /** A row behind a short page that repeats nothing before it is lost. */
  lemma HiddenRowIsLost(chain: Chain, from: int, to: int, p: nat)
    requires from < to && !NothingBehind(Rows(chain, from, to), p)
    ensures !Lossless(chain)
  {
    var rows := Rows(chain, from, to);
    var i :| PAGE_ROWS * (p + 1) <= i < |rows| && rows[i].id !in Ids(rows[..PAGE_ROWS * (p + 1)]);
    var q := FirstShortPage(rows, p);
    RowsFrom(chain, from, to);
    assert rows[i] in rows;
    var j :| 0 <= j < |chain| && chain[j] == rows[i];
    IdsOfPrefix(rows, PAGE_ROWS * (q + 1), PAGE_ROWS * (p + 1));
    ShortPageCompletes(chain, from, to, q);
  }

  /** The worker is lossless if and only if no window has a row that a page with
      repeated transfers hides. */
  lemma LosslessIffNothingHidden(chain: Chain)
    ensures Lossless(chain) <==> NothingHidden(chain)
  {
    if NothingHidden(chain) {
      forall maxPages, from, to, events, j |
        from < to && 0 <= j < |chain| && InWindow(chain[j], from, to) &&
        AllCompleted(Run(chain, maxPages, OneWindow(from, to), events).tb)
        ensures chain[j].id in Run(chain, maxPages, OneWindow(from, to), events).tb.recorded
      {
        CompletedWindowIsRecorded(chain, maxPages, from, to, events, j);
      }
    } else {
      var from, to, p: nat :| from < to && !NothingBehind(Rows(chain, from, to), p);
      HiddenRowIsLost(chain, from, to, p);
    }
  }

  // ------------------------------------------------------------- a chain that loses

  /** Transfers 1 to `n`, all at one time. */
  function Ones(n: nat): Chain { seq(n, i => Transfer(i + 1, 5)) }

  lemma {:induction false} RowsOfWhole(chain: Chain, from: int, to: int)
    requires forall i :: 0 <= i < |chain| ==> InWindow(chain[i], from, to)
    ensures Rows(chain, from, to) == chain
  {
    if chain != [] { RowsOfWhole(chain[1..], from, to); }
  }

  lemma {:induction false} RepeatShrinks(rows: seq<Transfer>)
    requires |rows| >= 2 && rows[0].id == rows[1].id
    ensures |Unique(rows)| < |rows|
  {
    if |rows| == 2 {
      assert rows[..1][..0] == [];
      assert Unique(rows[..1]) == [rows[0]];
      assert Unique(rows[..1])[0].id == rows[1].id;
    } else {
      RepeatShrinks(rows[..|rows| - 1]);
    }
  }

  lemma FirstPage(rows: seq<Transfer>)
    requires |rows| > PAGE_ROWS
    ensures PageOf(rows, 0) == rows[..PAGE_ROWS]
  {
  }

  /** Fifty-one transfers of one window, the first two of them the same: the worker
      takes the first page for the last one and never sees transfer 50. */
  lemma RepeatedTransferHidesTheLast()
    ensures var chain := [Transfer(1, 5)] + Ones(50); !NothingHidden(chain) && !Lossless(chain)
  {
    hide Unique, PageOf, Rows, NothingHidden, Lossless;
    var chain := [Transfer(1, 5)] + Ones(50);
    RowsOfWhole(chain, 0, 10);
    FirstPage(chain);
    RepeatShrinks(chain[..50]);
    assert forall x :: x in chain[..50] ==> x.id < 50;
    HiddenBehind(chain, 50);
    HiddenRowIsLost(chain, 0, 10, 0);
    LosslessIffNothingHidden(chain);
  }

  lemma HiddenBehind(rows: seq<Transfer>, i: nat)
    requires PAGE_ROWS <= i < |rows| && |Unique(PageOf(rows, 0))| < PAGE_ROWS && rows[i].id !in Ids(rows[..PAGE_ROWS])
    ensures !NothingBehind(rows, 0)
  {
  }
}
