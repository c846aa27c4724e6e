/**
 * What the gap workers lose when storage fails. An exhausted expand task is
 * completed first and its window enqueued in a second call, so the window is gone
 * if that call does not happen. Over runs in which any storage call may fail, a
 * transfer is dropped exactly when that call is lost for the only task that
 * answered for it.
 */
module GapLosses {
  import opened Options
  import opened GapWorker
  import opened GapCoverage
  import FallbackGap
  import opened GapExact

  /** Which of the two programs works the tasks, with its page limit. */
  datatype Worker = Watcher(limit: int) | Fallback(limit: int)

  /** One event, and which of its storage calls go through. */
  datatype Step = Step(event: Event, storing: Storing)

  function With(worker: Worker, tb: Table, chain: Chain, id: int, held: Task, outcome: Outcome, storing: Storing): Table {
    if worker.Watcher? then WorkedWith(tb, chain, worker.limit, id, held, outcome, storing).0
    else FallbackGap.FallbackWorkedWith(tb, chain, worker.limit, id, held, outcome, storing)
  }

  function Apply(chain: Chain, worker: Worker, w: World, s: Step): World {
    match s.event
    case Work(k, outcome) =>
      if k < |w.held| then w.(tb := With(worker, w.tb, chain, w.held[k].0, w.held[k].1, outcome, s.storing)) else w
    case _ => if s.storing.NothingStored? then w else GapCoverage.Apply(chain, worker.limit, w, s.event)
  }

  function Run(chain: Chain, worker: Worker, start: World, steps: seq<Step>): World {
    if steps == [] then start
    else Apply(chain, worker, Run(chain, worker, start, steps[..|steps| - 1]), steps[|steps| - 1])
  }

  predicate RunsOut(worker: Worker, held: Task, fetched: seq<Transfer>) {
    if worker.Watcher? then Exhausted(held, fetched) else FallbackGap.FallbackExhausted(worker.limit, held, fetched)
  }

  /** The step completes the expand task of a current claim without enqueuing its
      window, `j` was never recorded, and no other task answers for it. */
  ghost predicate Loses(chain: Chain, worker: Worker, w: World, s: Step, j: int)
    requires 0 <= j < |chain|
  {
    && s.event.Work? && s.event.claim < |w.held| && s.event.outcome.Succeeds? && s.storing.EnqueueLost?
    && var (id, held) := w.held[s.event.claim];
    && Holds(w.tb, id, held) && RunsOut(worker, held, Fetched(chain, held))
    && chain[j].id !in w.tb.recorded + Ids(Fetched(chain, held))
    && forall o :: o in w.tb.tasks && o != id ==> !Answers(chain, w.tb.tasks[o], j)
  }

  ghost predicate Ready(chain: Chain, worker: Worker, w: World) {
    Inv(chain, w) && (worker.Fallback? ==> FallbackGap.NoPages(w))
  }

  // ----------------------------------------------------------------------- one step

  lemma RecordedOnly(chain: Chain, worker: Worker, w: World, tb: Table, j: int)
    requires Ready(chain, worker, w) && 0 <= j < |chain| && Covered(chain, w.tb, j)
    requires tb == w.tb.(recorded := tb.recorded) && w.tb.recorded <= tb.recorded
    ensures Ready(chain, worker, w.(tb := tb)) && Covered(chain, tb, j)
  {
    hide Scanned, Answers;
    if |w.held| > 0 { RecordingMoves(chain, w.tb, tb, w.held[0].0); MovesKeepInv(chain, w, tb, w.held[0].0); }
    RecordingMoves(chain, w.tb, tb, 0);
    MovesKeepInv(chain, w, tb, 0);
    FallbackGap.RecordingCovers(chain, w.tb, tb, j);
  }

  /** The completion alone: the transfer is dropped exactly if it was not recorded
      and nothing else answers for it. */
  lemma CompletionAlone(chain: Chain, worker: Worker, w: World, k: nat, j: int)
    requires Ready(chain, worker, w) && 0 <= j < |chain| && Covered(chain, w.tb, j) && k < |w.held|
    ensures
      var (id, held) := w.held[k];
      var tb := Ended(w.tb, id, held, Completed);
      && Ready(chain, worker, w.(tb := tb))
      && (!Covered(chain, tb, j) <==>
           Holds(w.tb, id, held) && chain[j].id !in w.tb.recorded &&
           forall o :: o in w.tb.tasks && o != id ==> !Answers(chain, w.tb.tasks[o], j))
  {
    hide Scanned, Unique, PageOf, Rows;
    var (id, held) := w.held[k];
    var tb := Ended(w.tb, id, held, Completed);
    assert ClaimOk(w.tb, id, held);
    FallbackGap.EndedMoves(chain, w.tb, id, held, Completed);
    MovesKeepInv(chain, w, tb, id);
    if o :| o in w.tb.tasks && o != id && Answers(chain, w.tb.tasks[o], j) {
      assert Answers(chain, tb.tasks[o], j);
    }
    if !Holds(w.tb, id, held) { assert tb == w.tb; }
  }

  lemma EnqueueLostStep(chain: Chain, worker: Worker, w: World, s: Step, j: int)
    requires Ready(chain, worker, w) && 0 <= j < |chain| && Covered(chain, w.tb, j)
    requires s.event.Work? && s.event.claim < |w.held| && s.event.outcome.Succeeds? && s.storing.EnqueueLost?
    requires RunsOut(worker, w.held[s.event.claim].1, Fetched(chain, w.held[s.event.claim].1))
    ensures Ready(chain, worker, Apply(chain, worker, w, s))
    ensures Covered(chain, Apply(chain, worker, w, s).tb, j) <==> !Loses(chain, worker, w, s, j)
  {
    hide Scanned, Unique, PageOf, Rows, Answers, Inv, FallbackGap.NoPages, Covered;
    var (id, held) := w.held[s.event.claim];
    var seen := w.tb.(recorded := w.tb.recorded + Ids(Fetched(chain, held)));
    RecordedOnly(chain, worker, w, seen, j);
    CompletionAlone(chain, worker, w.(tb := seen), s.event.claim, j);
  }

  lemma SoundStep(chain: Chain, worker: Worker, w: World, e: Event, j: int)
    requires NothingHidden(chain) && Ready(chain, worker, w) && 0 <= j < |chain| && Covered(chain, w.tb, j)
    ensures
      var w' := Apply(chain, worker, w, Step(e, AllStored));
      Ready(chain, worker, w') && Covered(chain, w'.tb, j)
  {
    hide NothingHidden, Answers, Covered, Inv;
    if worker.Fallback? && e.Work? {
      if e.claim < |w.held| { FallbackGap.WorkKeeps(chain, worker.limit, w, e.claim, e.outcome); }
    } else {
      StepKeepsInv(chain, worker.limit, w, e);
      StepKeepsCovered(chain, worker.limit, w, e, j);
    }
  }

  /** One step keeps what it is relied on and keeps the transfer exactly if it does
      not lose it. */
  lemma StepLosesIff(chain: Chain, worker: Worker, w: World, s: Step, j: int)
    requires NothingHidden(chain) && Ready(chain, worker, w) && 0 <= j < |chain| && Covered(chain, w.tb, j)
    ensures Ready(chain, worker, Apply(chain, worker, w, s))
    ensures Covered(chain, Apply(chain, worker, w, s).tb, j) <==> !Loses(chain, worker, w, s, j)
  {
    hide NothingHidden, Ready, Covered, Answers;
    if s.event.Work? && s.event.claim < |w.held| {
      var (id, held) := w.held[s.event.claim];
      if s.storing.NothingStored? {
        RecordedOnly(chain, worker, w, Apply(chain, worker, w, s).tb, j);
      } else if s.storing.EnqueueLost? && s.event.outcome.Succeeds? && RunsOut(worker, held, Fetched(chain, held)) {
        EnqueueLostStep(chain, worker, w, s, j);
      } else {
        SoundStep(chain, worker, w, s.event, j);
      }
    } else if !s.storing.NothingStored? {
      SoundStep(chain, worker, w, s.event, j);
    }
  }

  // ------------------------------------------------------------------------ all runs

  ghost predicate StaysCovered(chain: Chain, worker: Worker, start: World, steps: seq<Step>, j: int)
    requires 0 <= j < |chain|
  {
    forall i :: 0 <= i <= |steps| ==> Covered(chain, Run(chain, worker, start, steps[..i]).tb, j)
  }

  ghost predicate NeverLoses(chain: Chain, worker: Worker, start: World, steps: seq<Step>, j: int)
    requires 0 <= j < |chain|
  {
    forall i :: 0 <= i < |steps| ==> !Loses(chain, worker, Run(chain, worker, start, steps[..i]), steps[i], j)
  }

  lemma LastCovered(chain: Chain, worker: Worker, start: World, steps: seq<Step>, j: int)
    requires 0 <= j < |chain| && steps != []
    ensures StaysCovered(chain, worker, start, steps, j) <==>
      StaysCovered(chain, worker, start, steps[..|steps| - 1], j) && Covered(chain, Run(chain, worker, start, steps).tb, j)
  {
    hide Run, Covered;
    var n := |steps| - 1;
    assert steps[..n + 1] == steps;
    if StaysCovered(chain, worker, start, steps, j) {
      assert Covered(chain, Run(chain, worker, start, steps[..n + 1]).tb, j);
      forall i | 0 <= i <= n ensures Covered(chain, Run(chain, worker, start, steps[..n][..i]).tb, j) {
        assert steps[..n][..i] == steps[..i];
      }
    }
    if StaysCovered(chain, worker, start, steps[..n], j) && Covered(chain, Run(chain, worker, start, steps).tb, j) {
      forall i | 0 <= i <= n + 1 ensures Covered(chain, Run(chain, worker, start, steps[..i]).tb, j) {
        if i <= n { assert steps[..n][..i] == steps[..i]; }
      }
    }
  }

  lemma LastLost(chain: Chain, worker: Worker, start: World, steps: seq<Step>, j: int)
    requires 0 <= j < |chain| && steps != []
    ensures
      var n := |steps| - 1;
      NeverLoses(chain, worker, start, steps, j) <==>
        NeverLoses(chain, worker, start, steps[..n], j) &&
        !Loses(chain, worker, Run(chain, worker, start, steps[..n]), steps[n], j)
  {
    hide Run, Loses;
    var n := |steps| - 1;
    if NeverLoses(chain, worker, start, steps, j) {
      forall i | 0 <= i < n ensures !Loses(chain, worker, Run(chain, worker, start, steps[..n][..i]), steps[..n][i], j) {
        assert steps[..n][..i] == steps[..i];
      }
    }
    if NeverLoses(chain, worker, start, steps[..n], j) && !Loses(chain, worker, Run(chain, worker, start, steps[..n]), steps[n], j) {
      forall i | 0 <= i <= n ensures !Loses(chain, worker, Run(chain, worker, start, steps[..i]), steps[i], j) {
        if i < n { assert steps[..n][..i] == steps[..i]; }
      }
    }
  }

  /** In any run in which storage calls fail at will, a transfer stays recorded or
      answered for throughout if and only if no step loses it. */
  lemma {:induction false} KeptIffNeverLost(chain: Chain, worker: Worker, start: World, steps: seq<Step>, j: int)
    requires NothingHidden(chain) && Ready(chain, worker, start) && 0 <= j < |chain| && Covered(chain, start.tb, j)
    ensures StaysCovered(chain, worker, start, steps, j) <==> NeverLoses(chain, worker, start, steps, j)
    ensures StaysCovered(chain, worker, start, steps, j) ==>
      Ready(chain, worker, Run(chain, worker, start, steps)) && Covered(chain, Run(chain, worker, start, steps).tb, j)
  {
    hide NothingHidden, Ready, Covered, Loses, Apply;
    if steps == [] {
      assert steps[..0] == [];
    } else {
      hide StaysCovered, NeverLoses;
      var n := |steps| - 1;
      KeptIffNeverLost(chain, worker, start, steps[..n], j);
      LastCovered(chain, worker, start, steps, j);
      LastLost(chain, worker, start, steps, j);
      if StaysCovered(chain, worker, start, steps[..n], j) {
        StepLosesIff(chain, worker, Run(chain, worker, start, steps[..n]), steps[n], j);
      }
    }
  }

  /** If no step of the run loses it and every task is completed in the end, the
      transfer was recorded. */
  lemma CompletedIsRecordedUnlessLost(chain: Chain, worker: Worker, start: World, steps: seq<Step>, j: int)
    requires NothingHidden(chain) && Ready(chain, worker, start) && 0 <= j < |chain| && Covered(chain, start.tb, j)
    requires NeverLoses(chain, worker, start, steps, j) && AllCompleted(Run(chain, worker, start, steps).tb)
    ensures chain[j].id in Run(chain, worker, start, steps).tb.recorded
  {
    KeptIffNeverLost(chain, worker, start, steps, j);
  }

  // ------------------------------------------------------------------- a losing run

  /** An expand task that may read one page, and the same as claimed. */
  function OneExpand(status: Status, generation: nat): Task { Task(Expand, 0, 10, 0, 1, 0, None, status, generation) }

  function Start(): World { World(Table(map[0 := OneExpand(Pending, 0)], 1, {}), []) }

  lemma FirstFifty()
    ensures Fetched(Ones(51), OneExpand(Leased, 1)) == Ones(51)[..PAGE_ROWS]
  {
    hide Unique, PageOf, Rows;
    RowsOfWhole(Ones(51), 0, 10);
    FirstPage(Ones(51));
    UniqueOfDistinct(Ones(51)[..PAGE_ROWS]);
  }

  lemma TwoSteps(chain: Chain, worker: Worker, start: World, a: Step, b: Step)
    ensures Run(chain, worker, start, [a, b]) == Apply(chain, worker, Apply(chain, worker, start, a), b)
  {
    hide Apply;
    assert [a, b][..1] == [a];
    assert [a][..0] == [];
    assert Run(chain, worker, start, [a]) == Apply(chain, worker, start, a);
  }

  /** The task as claimed, and its completion without the enqueue. */
  lemma ClaimedThenLost(worker: Worker)
    ensures
      var chain, held := Ones(51), OneExpand(Leased, 1);
      var claimed := World(Table(map[0 := held], 1, {}), [(0, held)]);
      && Apply(chain, worker, Start(), Step(Claim(0), AllStored)) == claimed
      && Apply(chain, worker, claimed, Step(Work(0, Succeeds), EnqueueLost)).tb
           == Table(map[0 := OneExpand(Completed, 1)], 1, Ids(chain[..PAGE_ROWS]))
  {
    hide Unique, PageOf, Rows, Ids;
    FirstFifty();
    var chain, held := Ones(51), OneExpand(Leased, 1);
    assert Claimed(Start().tb, 0).tasks == map[0 := held];
    assert RunsOut(worker, held, chain[..PAGE_ROWS]);
    var seen := Table(map[0 := held], 1, {} + Ids(chain[..PAGE_ROWS]));
    assert Ended(seen, 0, held, Completed).tasks == map[0 := OneExpand(Completed, 1)];
  }

  /** A window of fifty-one transfers whose task may read one page: both workers
      complete it, and without the enqueue nobody will ever read transfer 51. */
  lemma LostEnqueueLosesTheLast(worker: Worker)
    ensures
      var chain, steps := Ones(51), [Step(Claim(0), AllStored), Step(Work(0, Succeeds), EnqueueLost)];
      var tb := Run(chain, worker, Start(), steps).tb;
      && NothingHidden(chain) && Ready(chain, worker, Start()) && Covered(chain, Start().tb, 50)
      && AllCompleted(tb) && 51 !in tb.recorded && !Covered(chain, tb, 50)
  {
    hide Unique, PageOf, Rows, NothingHidden, Apply, Run, Scanned;
    var chain := Ones(51);
    DistinctHidesNothing(chain);
    assert Answers(chain, Start().tb.tasks[0], 50);
    TwoSteps(chain, worker, Start(), Step(Claim(0), AllStored), Step(Work(0, Succeeds), EnqueueLost));
    ClaimedThenLost(worker);
    assert forall x :: x in chain[..PAGE_ROWS] ==> x.id <= 50;
    assert chain[50].id == 51;
  }
}
