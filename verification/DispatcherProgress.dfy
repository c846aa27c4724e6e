/**
 * What the dispatcher does get done: who is let in, who is accepted, and that a
 * runner left alone runs everything that was accepted for its key, in order.
 */
module DispatcherProgress {
  import opened Options
  import opened Dispatcher
  import opened DispatcherRuns

  /** In every run a slot is given out exactly while waiting jobs and slots in hand
      leave room, and a caller that gives up is counted exactly if there is none. */
  lemma AcquiresIff(capacity: nat, events: seq<Event>, giveUp: bool)
    ensures
      var w := Run(Some(capacity), events);
      var w', room := Apply(w, Acquire(giveUp)), Queued(w.tb) + w.holders < capacity;
      && w'.holders == w.holders + (if room then 1 else 0)
      && w'.tb.rejected == w.tb.rejected + (if !room && giveUp then 1 else 0)
      && w'.books == w.books && w'.threads == w.threads && w'.tb.queues == w.tb.queues
  {
    ReceivesNeverBlock(capacity, events, "");
    CapacityStays(Some(capacity), events);
  }

  /** With a slot in hand `Submit` is always accepted, and `TrySubmit` exactly if the key
      has a runner or the executor takes one; the accepted job comes last. */
  lemma AcceptsIff(w: World, name: string, job: Job, taken: bool)
    ensures
      var key := if name == "" then "global" else name;
      var before := BookOf(w, key).accepted;
      var tried, submitted := Apply(w, TrySubmit(name, job, taken)), Apply(w, Submit(name, job));
      && BookOf(submitted, key).accepted == (if w.holders > 0 then before + [job] else before)
      && BookOf(tried, key).accepted == (if w.holders > 0 && (key in w.tb.active || taken) then before + [job] else before)
      && (w.holders > 0 && key !in w.tb.active && !taken ==> tried.holders == w.holders && tried.threads == w.threads)
      && (w.holders > 0 && key !in w.tb.active ==> submitted.threads == w.threads[w.nextThread := Starting(key)])
  {
  }

  /** The critical sections of the dispatcher are the steps of these runs. */
  lemma SectionsAreSteps(w: World, name: string, job: Job, taken: bool)
    requires w.holders > 0
    ensures
      var key := KeyOf(name);
      var tried := TryAppended(w.tb, key, job, taken);
      && Apply(w, TrySubmit(name, job, taken)).tb == tried.0
      && (tried.1 <==> key in w.tb.active || taken)
      && Apply(w, Submit(name, job)).tb == Appended(w.tb, key, job)
  {
    assert KeyOf(name) in w.tb.active ==> w.tb.active + {KeyOf(name)} == w.tb.active;
  }

  function Continue(w: World, events: seq<Event>): World
    decreases |events|
  {
    if events == [] then w else Continue(Apply(w, events[0]), events[1..])
  }

  /** The runner's own steps for `n` jobs: take and finish each, then retire. */
  function Work(t: nat, n: nat): seq<Event> {
    if n == 0 then [Next(t)] else [Next(t), Finish(t)] + Work(t, n - 1)
  }

  function AllDone(jobs: seq<Job>): seq<Fate> { if jobs == [] then [] else [Ran(jobs[0])] + AllDone(jobs[1..]) }

  lemma OneJob(w: World, t: nat, key: string)
    requires t in w.threads && w.threads[t] == Looping(key) && Queue(w.tb, key) != []
    ensures
      var w' := Apply(Apply(w, Next(t)), Finish(t));
      && t in w'.threads && w'.threads[t] == Looping(key)
      && Queue(w'.tb, key) == Queue(w.tb, key)[1..]
      && BookOf(w', key).ended == BookOf(w, key).ended + [Ran(Queue(w.tb, key)[0])]
      && BookOf(w', key).accepted == BookOf(w, key).accepted
  {
  }

  lemma Retires(w: World, t: nat, key: string)
    requires t in w.threads && w.threads[t] == Looping(key) && Queue(w.tb, key) == []
    ensures
      var w' := Apply(w, Next(t));
      BookOf(w', key) == BookOf(w, key) && Queue(w'.tb, key) == [] && key !in w'.tb.active && t !in w'.threads
  {
  }

  lemma TwoMore(w: World, t: nat, rest: seq<Event>)
    ensures Continue(w, [Next(t), Finish(t)] + rest) == Continue(Apply(Apply(w, Next(t)), Finish(t)), rest)
  {
    hide Apply;
    var all := [Next(t), Finish(t)] + rest;
    assert all[1..] == [Finish(t)] + rest && all[1..][1..] == rest;
  }

  /** Left alone, a runner runs all the jobs that wait for its key, in the order they
      were accepted, and then retires. */
  lemma {:induction false} RunnerDrains(w: World, t: nat, key: string)
    requires t in w.threads && w.threads[t] == Looping(key)
    ensures
      var after := Continue(w, Work(t, |Queue(w.tb, key)|));
      && BookOf(after, key).ended == BookOf(w, key).ended + AllDone(Queue(w.tb, key))
      && BookOf(after, key).accepted == BookOf(w, key).accepted
      && Queue(after.tb, key) == [] && key !in after.tb.active && t !in after.threads
    decreases |Queue(w.tb, key)|
  {
    var q := Queue(w.tb, key);
    hide Apply, BookOf;
    if q == [] {
      Retires(w, t, key);
      assert [Next(t)][1..] == [];
      assert Continue(w, [Next(t)]) == Apply(w, Next(t));
      assert BookOf(w, key).ended + AllDone(q) == BookOf(w, key).ended;
    } else {
      OneJob(w, t, key);
      var w' := Apply(Apply(w, Next(t)), Finish(t));
      TwoMore(w, t, Work(t, |q| - 1));
      RunnerDrains(w', t, key);
      assert BookOf(w, key).ended + [Ran(q[0])] + AllDone(q[1..]) == BookOf(w, key).ended + AllDone(q);
    }
  }

  /** In every run: a key's runner that is left alone between two jobs leaves nothing of
      what was accepted for the key behind. */
  lemma AcceptedGetsRun(capacity: Option<nat>, events: seq<Event>, t: nat, key: string)
    requires
      var w := Run(capacity, events);
      t in w.threads && w.threads[t] == Looping(key)
    ensures
      var w := Run(capacity, events);
      var after := Continue(w, Work(t, |Queue(w.tb, key)|));
      && BookOf(after, key).accepted == Jobs(BookOf(after, key).ended)
      && (AllRan(BookOf(w, key).ended) ==> AllRan(BookOf(after, key).ended))
  {
    hide Run, Apply, Work, Continue, HasThread;
    var w := Run(capacity, events);
    RunnerDrains(w, t, key);
    AcceptedInOrder(capacity, events, key);
    JobsOfMore(BookOf(w, key).ended, AllDone(Queue(w.tb, key)));
    JobsOfDone(Queue(w.tb, key));
    assert BookOf(w, key).accepted == Jobs(BookOf(w, key).ended) + InHand(w.threads[t]) + Queue(w.tb, key);
  }

  lemma {:induction false} JobsOfDone(jobs: seq<Job>)
    ensures Jobs(AllDone(jobs)) == jobs && AllRan(AllDone(jobs))
  {
    if jobs != [] {
      JobsOfDone(jobs[1..]);
      JobsOfMore([Ran(jobs[0])], AllDone(jobs[1..]));
      assert Jobs([Ran(jobs[0])]) == [jobs[0]] by { assert [Ran(jobs[0])][..0] == []; }
    }
  }
}
