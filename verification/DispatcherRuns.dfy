/**
 * Any interleaving of submitters, executors, runners and cancellations: every
 * critical section is one step. For each key the accepted jobs are, in order,
 * the jobs that ran or were dropped, the job in a runner's hands, and the queue.
 */
module DispatcherRuns {
  import opened Options
  import opened Dispatcher

  /** A thread at work for a key: a submitter waiting for the executor to take the
      runner, a runner between jobs, or a runner inside a job. */
  datatype Thread = Starting(key: string) | Looping(key: string) | Running(key: string, job: Job)

  datatype Fate = Ran(job: Job) | Lost(job: Job)

  datatype World = World(
    tb: Tables, holders: nat, threads: map<nat, Thread>, nextThread: nat,
    books: map<string, Book>)

  /** What was accepted for a key, and what became of the jobs no longer waiting. */
  datatype Book = Book(accepted: seq<Job>, ended: seq<Fate>)

  datatype Event =
    | Acquire(giveUp: bool)
    | GiveBack
    | Submit(key: string, job: Job)
    | TrySubmit(key: string, job: Job, taken: bool)
    | Taken(thread: nat)
    | Refused(thread: nat)
    | Next(thread: nat)
    | Finish(thread: nat)
    | Cancel(thread: nat)

  function BookOf(w: World, key: string): Book { if key in w.books then w.books[key] else Book([], []) }

  function Accept(w: World, key: string, job: Job): map<string, Book> {
    w.books[key := BookOf(w, key).(accepted := BookOf(w, key).accepted + [job])]
  }

  function End(w: World, key: string, fates: seq<Fate>): map<string, Book> {
    w.books[key := BookOf(w, key).(ended := BookOf(w, key).ended + fates)]
  }

  function AllLost(jobs: seq<Job>): seq<Fate> {
    if jobs == [] then [] else AllLost(jobs[..|jobs| - 1]) + [Lost(jobs[|jobs| - 1])]
  }

  function Jobs(fates: seq<Fate>): seq<Job> { if fates == [] then [] else Jobs(fates[..|fates| - 1]) + [fates[|fates| - 1].job] }

  /** A job joins the queue of a key that has a thread. */
  function Join(w: World, key: string, job: Job): World
    requires w.holders > 0
  {
    w.(tb := Pushed(w.tb, key, job), holders := w.holders - 1, books := Accept(w, key, job))
  }

  /** A job opens a key, with the thread that is to serve it. */
  function Open(w: World, t: Thread, job: Job): World
    requires w.holders > 0
  {
    w.(tb := Appended(w.tb, t.key, job), holders := w.holders - 1, books := Accept(w, t.key, job),
       threads := w.threads[w.nextThread := t], nextThread := w.nextThread + 1)
  }

  /** The thread drops its key's queue and is gone. */
  function Drop(w: World, t: nat, key: string): World {
    w.(tb := Dropped(w.tb, key), threads := w.threads - {t}, books := End(w, key, AllLost(Queue(w.tb, key))))
  }

  /** The runner takes the next job, or retires when there is none. */
  function Advance(w: World, t: nat, key: string): World {
    if Queue(w.tb, key) == [] then w.(tb := Popped(w.tb, key), threads := w.threads - {t})
    else w.(tb := Popped(w.tb, key), threads := w.threads[t := Running(key, Queue(w.tb, key)[0])])
  }

  function Done(w: World, t: nat, key: string, job: Job): World {
    w.(threads := w.threads[t := Looping(key)], books := End(w, key, [Ran(job)]))
  }

  function Apply(w: World, e: Event): World {
    match e
    case Acquire(giveUp) =>
      if HasRoom(w.tb) then w.(tb := Acquired(w.tb), holders := w.holders + 1)
      else w.(tb := w.tb.(rejected := w.tb.rejected + if giveUp then 1 else 0))
    case GiveBack => if w.holders == 0 then w else w.(tb := Received(w.tb, 1), holders := w.holders - 1)
    case Submit(name, job) =>
      if w.holders == 0 then w
      else if KeyOf(name) in w.tb.active then Join(w, KeyOf(name), job)
      else Open(w, Starting(KeyOf(name)), job)
    case TrySubmit(name, job, taken) =>
      if w.holders == 0 then w
      else if KeyOf(name) in w.tb.active then Join(w, KeyOf(name), job)
      else if taken then Open(w, Looping(KeyOf(name)), job)
      else w.(tb := TryAppended(w.tb, KeyOf(name), job, taken).0)
    case Taken(t) =>
      if t in w.threads && w.threads[t].Starting? then w.(threads := w.threads[t := Looping(w.threads[t].key)]) else w
    case Refused(t) => if t in w.threads && w.threads[t].Starting? then Drop(w, t, w.threads[t].key) else w
    case Next(t) => if t in w.threads && w.threads[t].Looping? then Advance(w, t, w.threads[t].key) else w
    case Finish(t) =>
      if t in w.threads && w.threads[t].Running? then Done(w, t, w.threads[t].key, w.threads[t].job) else w
    case Cancel(t) => if t in w.threads && w.threads[t].Looping? then Drop(w, t, w.threads[t].key) else w
  }

  function Start(capacity: Option<nat>): World { World(Tables(map[], {}, capacity, 0, 0), 0, map[], 0, map[]) }

  function Run(capacity: Option<nat>, events: seq<Event>): World {
    if events == [] then Start(capacity)
    else Apply(Run(capacity, events[..|events| - 1]), events[|events| - 1])
  }

  // --------------------------------------------------------------------- invariant

  function InHand(t: Thread): seq<Job> { if t.Running? then [t.job] else [] }

  /** The keys with a thread are the active ones, and no two threads share one. */
  ghost predicate ThreadsOk(w: World) {
    && (forall t :: t in w.threads ==> t < w.nextThread && w.threads[t].key in w.tb.active)
    && (forall a, b :: a in w.threads && b in w.threads && a != b ==> w.threads[a].key != w.threads[b].key)
    && (forall key :: key in w.tb.active ==> HasThread(w, key))
  }

  ghost predicate HasThread(w: World, key: string) { exists t :: t in w.threads && w.threads[t].key == key }

  ghost predicate SlotsOk(w: World) {
    && (w.tb.capacity.Some? ==> w.tb.slots == Queued(w.tb) + w.holders && w.tb.slots <= w.tb.capacity.value)
    && (w.tb.capacity.None? ==> w.tb.slots == 0)
    && (forall key :: key in w.tb.queues ==> key in w.tb.active)
  }

  ghost predicate LogOk(w: World, key: string, hand: seq<Job>) {
    BookOf(w, key).accepted == Jobs(BookOf(w, key).ended) + hand + Queue(w.tb, key)
  }

  ghost predicate LogsOk(w: World) {
    && (forall t :: t in w.threads ==> LogOk(w, w.threads[t].key, InHand(w.threads[t])))
    && (forall key :: key !in w.tb.active ==> LogOk(w, key, []))
  }

  ghost predicate Inv(w: World) { ThreadsOk(w) && SlotsOk(w) && LogsOk(w) }

  lemma {:induction false} JobsOfMore(fates: seq<Fate>, more: seq<Fate>)
    ensures Jobs(fates + more) == Jobs(fates) + Jobs(more)
  {
    if more == [] {
      assert fates + more == fates;
    } else {
      assert (fates + more)[..|fates + more| - 1] == fates + more[..|more| - 1];
      JobsOfMore(fates, more[..|more| - 1]);
    }
  }

  lemma {:induction false} JobsOfLost(jobs: seq<Job>)
    ensures Jobs(AllLost(jobs)) == jobs
  {
    if jobs != [] {
      JobsOfLost(jobs[..|jobs| - 1]);
      JobsOfMore(AllLost(jobs[..|jobs| - 1]), [Lost(jobs[|jobs| - 1])]);
    }
  }

  // -------------------------------------------------------------- each step keeps it

  /** Only the entries of one key are written. */
  ghost predicate WritesKey(w: World, w': World, key: string) {
    && (w'.books == w.books || w'.books == w.books[key := BookOf(w', key)])
    && (w'.tb.queues == w.tb.queues || w'.tb.queues == w.tb.queues - {key} ||
        w'.tb.queues == w.tb.queues[key := Queue(w'.tb, key)])
    && (w'.tb.active == w.tb.active || w'.tb.active == w.tb.active + {key} || w'.tb.active == w.tb.active - {key})
    && (forall t :: t in w'.threads && w'.threads[t].key != key ==> t in w.threads && w.threads[t] == w'.threads[t])
  }

  lemma OtherBooks(w: World, w': World, key: string, k: string)
    requires WritesKey(w, w', key) && k != key
    ensures BookOf(w', k) == BookOf(w, k) && Queue(w'.tb, k) == Queue(w.tb, k)
    ensures k in w'.tb.active <==> k in w.tb.active
  {
  }

  /** A step on one key keeps the logs if it keeps that key's. */
  lemma LogsKept(w: World, w': World, key: string)
    requires LogsOk(w) && WritesKey(w, w', key)
    requires forall t :: t in w'.threads && w'.threads[t].key == key ==> LogOk(w', key, InHand(w'.threads[t]))
    requires key in w'.tb.active || LogOk(w', key, [])
    ensures LogsOk(w')
  {
    hide Jobs;
    forall t | t in w'.threads ensures LogOk(w', w'.threads[t].key, InHand(w'.threads[t])) {
      if w'.threads[t].key != key {
        assert LogOk(w, w.threads[t].key, InHand(w.threads[t]));
        OtherBooks(w, w', key, w'.threads[t].key);
      }
    }
    forall k | k !in w'.tb.active ensures LogOk(w', k, []) {
      if k != key {
        OtherBooks(w, w', key, k);
        assert LogOk(w, k, []);
      }
    }
  }

  lemma KeysKept(w: World, w': World)
    requires ThreadsOk(w) && w'.tb.active == w.tb.active
    requires forall t :: t in w.threads ==> t in w'.threads && w'.threads[t].key == w.threads[t].key
    ensures forall key :: key in w'.tb.active ==> HasThread(w', key)
  {
    forall key | key in w'.tb.active ensures HasThread(w', key) {
      var t :| t in w.threads && w.threads[t].key == key;
      assert t in w'.threads && w'.threads[t].key == key;
    }
  }

  // A job joins a served key.

  lemma JoinKeepsSlots(w: World, key: string, job: Job)
    requires SlotsOk(w) && w.holders > 0 && key in w.tb.active
    ensures SlotsOk(Join(w, key, job))
  {
    LengthsWrite(w.tb, key, Queue(w.tb, key) + [job]);
  }

  lemma JoinKeepsLogs(w: World, key: string, job: Job)
    requires LogsOk(w) && w.holders > 0 && key in w.tb.active
    ensures LogsOk(Join(w, key, job))
  {
    hide Jobs;
    var w' := Join(w, key, job);
    forall t | t in w'.threads && w'.threads[t].key == key ensures LogOk(w', key, InHand(w'.threads[t])) {
      assert LogOk(w, key, InHand(w.threads[t]));
    }
    LogsKept(w, w', key);
  }

  lemma JoinKeeps(w: World, key: string, job: Job)
    requires Inv(w) && w.holders > 0 && key in w.tb.active
    ensures Inv(Join(w, key, job))
  {
    hide Jobs, Queued;
    KeysKept(w, Join(w, key, job));
    JoinKeepsSlots(w, key, job);
    JoinKeepsLogs(w, key, job);
  }

  // A job opens a key.

  lemma OpenKeepsSlots(w: World, t: Thread, job: Job)
    requires SlotsOk(w) && w.holders > 0 && t.key !in w.tb.active
    ensures SlotsOk(Open(w, t, job))
  {
    LengthsWrite(w.tb, t.key, Queue(w.tb, t.key) + [job]);
  }

  lemma OpenKeepsThreads(w: World, t: Thread, job: Job)
    requires ThreadsOk(w) && w.holders > 0 && t.key !in w.tb.active
    ensures ThreadsOk(Open(w, t, job))
  {
    var w' := Open(w, t, job);
    forall key | key in w'.tb.active ensures HasThread(w', key) {
      if key == t.key {
        assert w'.threads[w.nextThread].key == key;
      } else {
        var o :| o in w.threads && w.threads[o].key == key;
        assert w'.threads[o].key == key;
      }
    }
  }

  lemma OpenKeepsLogs(w: World, t: Thread, job: Job)
    requires LogsOk(w) && ThreadsOk(w) && w.holders > 0 && t.key !in w.tb.active && !t.Running?
    ensures LogsOk(Open(w, t, job))
  {
    hide Jobs;
    assert LogOk(w, t.key, []);
    assert LogOk(Open(w, t, job), t.key, []);
    LogsKept(w, Open(w, t, job), t.key);
  }

  lemma OpenKeeps(w: World, t: Thread, job: Job)
    requires Inv(w) && w.holders > 0 && t.key !in w.tb.active && !t.Running?
    ensures Inv(Open(w, t, job))
  {
    hide Jobs, Queued;
    OpenKeepsSlots(w, t, job);
    OpenKeepsThreads(w, t, job);
    OpenKeepsLogs(w, t, job);
  }

  // A thread goes, with its key.

  lemma GoneKeeps(w: World, t: nat, w': World)
    requires ThreadsOk(w) && t in w.threads && w'.tb.active == w.tb.active - {w.threads[t].key}
    requires w'.threads == w.threads - {t} && w'.nextThread == w.nextThread
    ensures ThreadsOk(w')
    ensures forall o :: o in w'.threads ==> w'.threads[o].key != w.threads[t].key
  {
    forall key | key in w'.tb.active ensures HasThread(w', key) {
      var o :| o in w.threads && w.threads[o].key == key;
      assert o in w'.threads && w'.threads[o].key == key;
    }
  }

  lemma DropKeepsSlots(w: World, t: nat, key: string)
    requires SlotsOk(w)
    ensures SlotsOk(Drop(w, t, key))
  {
    LengthsDelete(w.tb, key);
  }

  lemma DroppedLog(w: World, t: nat, key: string)
    requires LogOk(w, key, [])
    ensures LogOk(Drop(w, t, key), key, [])
  {
    JobsOfMore(BookOf(w, key).ended, AllLost(Queue(w.tb, key)));
    JobsOfLost(Queue(w.tb, key));
    hide Jobs, AllLost;
    assert Queue(Drop(w, t, key).tb, key) == [];
  }

  lemma DropKeepsLogs(w: World, t: nat, key: string)
    requires LogsOk(w) && t in w.threads && !w.threads[t].Running? && w.threads[t].key == key
    requires forall o :: o in w.threads && o != t ==> w.threads[o].key != key
    ensures LogsOk(Drop(w, t, key))
  {
    assert LogOk(w, key, InHand(w.threads[t]));
    DroppedLog(w, t, key);
    hide Jobs, AllLost, LogOk;
    LogsKept(w, Drop(w, t, key), key);
  }

  lemma DropKeeps(w: World, t: nat)
    requires Inv(w) && t in w.threads && !w.threads[t].Running?
    ensures Inv(Drop(w, t, w.threads[t].key))
  {
    hide Jobs, Queued;
    DropKeepsSlots(w, t, w.threads[t].key);
    GoneKeeps(w, t, Drop(w, t, w.threads[t].key));
    DropKeepsLogs(w, t, w.threads[t].key);
  }

  // A runner takes the next job or retires.

  lemma AdvanceKeepsSlots(w: World, t: nat, key: string)
    requires SlotsOk(w)
    ensures SlotsOk(Advance(w, t, key))
  {
    var q := Queue(w.tb, key);
    if q == [] { LengthsDelete(w.tb, key); } else { LengthsWrite(w.tb, key, q[1..]); }
  }

  lemma AdvanceKeepsLogs(w: World, t: nat, key: string)
    requires LogsOk(w) && t in w.threads && w.threads[t] == Looping(key) && key in w.tb.active
    requires forall o :: o in w.threads && o != t ==> w.threads[o].key != key
    ensures LogsOk(Advance(w, t, key))
  {
    hide Jobs;
    var w', q := Advance(w, t, key), Queue(w.tb, key);
    assert LogOk(w, key, InHand(w.threads[t]));
    if q != [] {
      assert q == [q[0]] + q[1..];
      assert LogOk(w', key, [q[0]]);
    } else {
      assert LogOk(w', key, []);
    }
    LogsKept(w, w', key);
  }

  lemma AdvanceKeepsThreads(w: World, t: nat, key: string)
    requires ThreadsOk(w) && t in w.threads && w.threads[t].key == key
    ensures ThreadsOk(Advance(w, t, key))
  {
    if Queue(w.tb, key) == [] {
      GoneKeeps(w, t, Advance(w, t, key));
    } else {
      KeysKept(w, Advance(w, t, key));
    }
  }

  lemma AdvanceKeeps(w: World, t: nat)
    requires Inv(w) && t in w.threads && w.threads[t].Looping?
    ensures Inv(Advance(w, t, w.threads[t].key))
  {
    hide Jobs, Queued, LogsOk, SlotsOk, Advance;
    AdvanceKeepsSlots(w, t, w.threads[t].key);
    AdvanceKeepsThreads(w, t, w.threads[t].key);
    AdvanceKeepsLogs(w, t, w.threads[t].key);
  }

  // A runner ends its job; the executor takes a runner.

  lemma TurnKeeps(w: World, w': World, t: nat)
    requires Inv(w) && t in w.threads && w'.tb == w.tb && w'.holders == w.holders && w'.nextThread == w.nextThread
    requires w'.threads == w.threads[t := Looping(w.threads[t].key)]
    requires w'.books == w.books || w'.books == w.books[w.threads[t].key := BookOf(w', w.threads[t].key)]
    requires LogOk(w', w.threads[t].key, [])
    ensures Inv(w')
  {
    TurnKeepsThreads(w, w', t);
    TurnKeepsLogs(w, w', t, w.threads[t].key);
    hide LogsOk, ThreadsOk, Queued;
  }

  lemma TurnKeepsThreads(w: World, w': World, t: nat)
    requires ThreadsOk(w) && t in w.threads && w'.tb == w.tb && w'.nextThread == w.nextThread
    requires w'.threads == w.threads[t := Looping(w.threads[t].key)]
    ensures ThreadsOk(w')
  {
    KeysKept(w, w');
    hide HasThread;
  }

  lemma TurnKeepsLogs(w: World, w': World, t: nat, key: string)
    requires LogsOk(w) && t in w.threads && w.threads[t].key == key && w'.tb == w.tb && LogOk(w', key, [])
    requires forall o :: o in w.threads && o != t ==> w.threads[o].key != key
    requires w'.threads == w.threads[t := Looping(key)] && (w'.books == w.books || w'.books == w.books[key := BookOf(w', key)])
    ensures LogsOk(w')
  {
    hide LogOk;
    LogsKept(w, w', key);
  }

  lemma DoneKeeps(w: World, t: nat)
    requires Inv(w) && t in w.threads && w.threads[t].Running?
    ensures Inv(Done(w, t, w.threads[t].key, w.threads[t].job))
  {
    var key, job := w.threads[t].key, w.threads[t].job;
    assert LogOk(w, key, InHand(w.threads[t]));
    JobsOfMore(BookOf(w, key).ended, [Ran(job)]);
    assert Jobs([Ran(job)]) == [job] by { assert [Ran(job)][..0] == []; }
    hide Jobs, Queued;
    TurnKeeps(w, Done(w, t, key, job), t);
  }

  lemma TakenKeeps(w: World, t: nat)
    requires Inv(w) && t in w.threads && w.threads[t].Starting?
    ensures Inv(w.(threads := w.threads[t := Looping(w.threads[t].key)]))
  {
    hide Jobs, Queued;
    assert LogOk(w, w.threads[t].key, InHand(w.threads[t]));
    TurnKeeps(w, w.(threads := w.threads[t := Looping(w.threads[t].key)]), t);
  }

  // A slot changes hands.

  lemma RestKept(w: World, w': World)
    requires ThreadsOk(w) && LogsOk(w) && w'.threads == w.threads && w'.nextThread == w.nextThread
    requires w'.books == w.books && w'.tb.queues == w.tb.queues && w'.tb.active == w.tb.active
    ensures ThreadsOk(w') && LogsOk(w')
  {
    hide Jobs;
    KeysKept(w, w');
    forall t | t in w'.threads ensures LogOk(w', w'.threads[t].key, InHand(w'.threads[t])) {
      assert LogOk(w, w.threads[t].key, InHand(w.threads[t]));
    }
    forall key | key !in w'.tb.active ensures LogOk(w', key, []) { assert LogOk(w, key, []); }
  }

  /** Taking a refused job back leaves the tables as they were. */
  lemma RollbackTakesOnlyItsOwnJob(w: World, key: string, job: Job)
    requires SlotsOk(w) && key !in w.tb.active
    ensures TryAppended(w.tb, key, job, false) == (w.tb, false)
  {
    assert w.tb.queues - {key} == w.tb.queues;
  }

  lemma SubmitterKeepsInv(w: World, e: Event)
    requires Inv(w) && (e.Submit? || e.TrySubmit?) && w.holders > 0
    ensures Inv(Apply(w, e))
  {
    hide Jobs, Queued;
    var key := KeyOf(e.key);
    if key in w.tb.active { JoinKeeps(w, key, e.job); }
    else if e.Submit? { OpenKeeps(w, Starting(key), e.job); }
    else if e.taken { OpenKeeps(w, Looping(key), e.job); }
    else { RollbackTakesOnlyItsOwnJob(w, key, e.job); }
  }

  lemma QueuedIs(a: Tables, b: Tables)
    requires a.queues == b.queues
    ensures Queued(a) == Queued(b)
  {
  }

  lemma HolderKeepsSlots(w: World, e: Event)
    requires SlotsOk(w) && (e.Acquire? || e.GiveBack?)
    ensures SlotsOk(Apply(w, e))
  {
    hide Join, Open, Drop, Advance, Done, TryAppended, Accept, End, BookOf, Queue;
    QueuedIs(w.tb, Apply(w, e).tb);
    hide Queued;
  }

  lemma HolderKeepsInv(w: World, e: Event)
    requires Inv(w) && (e.Acquire? || e.GiveBack?)
    ensures Inv(Apply(w, e))
  {
    hide SlotsOk, ThreadsOk, LogsOk, Join, Open, Drop, Advance, Done, TryAppended, Accept, End, BookOf, Queue;
    HolderKeepsSlots(w, e);
    RestKept(w, Apply(w, e));
  }

  lemma ThreadKeepsInv(w: World, e: Event)
    requires Inv(w) && (e.Taken? || e.Refused? || e.Next? || e.Finish? || e.Cancel?) && e.thread in w.threads
    ensures Inv(Apply(w, e))
  {
    hide Jobs, Queued, LogsOk, SlotsOk, Drop, Advance, Done;
    var t := e.thread;
    if e.Taken? && w.threads[t].Starting? { TakenKeeps(w, t); }
    else if e.Refused? && w.threads[t].Starting? { DropKeeps(w, t); }
    else if e.Next? && w.threads[t].Looping? { AdvanceKeeps(w, t); }
    else if e.Finish? && w.threads[t].Running? { DoneKeeps(w, t); }
    else if e.Cancel? && w.threads[t].Looping? { DropKeeps(w, t); }
  }

  lemma StepKeepsInv(w: World, e: Event)
    requires Inv(w)
    ensures Inv(Apply(w, e))
  {
    hide Jobs, Queued;
    if e.Submit? || e.TrySubmit? {
      if w.holders > 0 { SubmitterKeepsInv(w, e); }
    } else if e.Acquire? || e.GiveBack? {
      HolderKeepsInv(w, e);
    } else if e.thread in w.threads {
      ThreadKeepsInv(w, e);
    }
  }

  lemma {:induction false} RunKeepsInv(capacity: Option<nat>, events: seq<Event>)
    ensures Inv(Run(capacity, events))
  {
    if events == [] {
      assert Lengths(map[]) == map[];
    } else {
      RunKeepsInv(capacity, events[..|events| - 1]);
      StepKeepsInv(Run(capacity, events[..|events| - 1]), events[|events| - 1]);
    }
  }

  // ---------------------------------------------------------------------- theorems

  /** Never two runners for a key: two threads at work serve different keys, and a
      key is marked active exactly when a thread serves it. */
  lemma OneRunnerPerKey(capacity: Option<nat>, events: seq<Event>, a: nat, b: nat, key: string)
    ensures
      var w := Run(capacity, events);
      && (a in w.threads && b in w.threads && w.threads[a].key == w.threads[b].key ==> a == b)
      && (key in w.tb.active <==> HasThread(w, key))
  {
    RunKeepsInv(capacity, events);
  }

  /** For every key the accepted jobs are, in order, those that ran or were
      dropped, the one in the runner's hands if any, and the queue. With no thread
      left for the key nothing is left over. */
  lemma AcceptedInOrder(capacity: Option<nat>, events: seq<Event>, key: string)
    ensures
      var w := Run(capacity, events);
      && (forall t :: t in w.threads && w.threads[t].key == key ==>
           BookOf(w, key).accepted == Jobs(BookOf(w, key).ended) + InHand(w.threads[t]) + Queue(w.tb, key))
      && (!HasThread(w, key) ==> BookOf(w, key).accepted == Jobs(BookOf(w, key).ended) && Queue(w.tb, key) == [])
  {
    RunKeepsInv(capacity, events);
    var w := Run(capacity, events);
    forall t | t in w.threads && w.threads[t].key == key
      ensures BookOf(w, key).accepted == Jobs(BookOf(w, key).ended) + InHand(w.threads[t]) + Queue(w.tb, key)
    {
      assert LogOk(w, w.threads[t].key, InHand(w.threads[t]));
    }
    if !HasThread(w, key) {
      assert key !in w.tb.active;
      assert LogOk(w, key, []);
    }
  }

  /** Tokens in the slot channel are waiting jobs plus holders, never more than the
      bound, so whoever empties a queue, takes a job or gives a slot back finds a
      token for every receive. */
  lemma ReceivesNeverBlock(capacity: nat, events: seq<Event>, key: string)
    ensures
      var w := Run(Some(capacity), events);
      && w.tb.slots == Queued(w.tb) + w.holders <= capacity
      && w.tb.slots >= |Queue(w.tb, key)| + w.holders
  {
    var w := Run(Some(capacity), events);
    RunKeepsInv(Some(capacity), events);
    CapacityStays(Some(capacity), events);
    LengthsDelete(w.tb, key);
  }

  lemma {:induction false} CapacityStays(capacity: Option<nat>, events: seq<Event>)
    ensures Run(capacity, events).tb.capacity == capacity
  {
    if events != [] { CapacityStays(capacity, events[..|events| - 1]); }
  }

  ghost predicate AllRan(fates: seq<Fate>) { forall i :: 0 <= i < |fates| ==> fates[i].Ran? }

  /** A refused start or a cancelled runner meets a queue that is not empty. */
  predicate Drops(w: World, e: Event, key: string) {
    && (e.Refused? || e.Cancel?) && e.thread in w.threads
    && w.threads[e.thread] == (if e.Refused? then Starting(key) else Looping(key))
    && Queue(w.tb, key) != []
  }

  lemma LostIsNotRan(fates: seq<Fate>, jobs: seq<Job>)
    ensures AllRan(fates + AllLost(jobs)) <==> AllRan(fates) && jobs == []
  {
    if jobs == [] {
      assert fates + AllLost(jobs) == fates;
    } else {
      var all := fates + AllLost(jobs);
      assert all[|all| - 1].Lost?;
    }
  }

  lemma RanIsRan(fates: seq<Fate>, job: Job)
    ensures AllRan(fates + [Ran(job)]) <==> AllRan(fates)
  {
    var all := fates + [Ran(job)];
    assert forall i :: 0 <= i < |fates| ==> all[i] == fates[i];
  }

  lemma StepDropsIff(w: World, e: Event, key: string)
    ensures AllRan(BookOf(Apply(w, e), key).ended) <==> AllRan(BookOf(w, key).ended) && !Drops(w, e, key)
  {
    hide AllRan, AllLost;
    if (e.Refused? || e.Cancel?) && e.thread in w.threads {
      LostIsNotRan(BookOf(w, key).ended, Queue(w.tb, key));
    } else if e.Finish? && e.thread in w.threads && w.threads[e.thread].Running? {
      RanIsRan(BookOf(w, key).ended, w.threads[e.thread].job);
    }
  }

  ghost predicate NeverDrops(capacity: Option<nat>, events: seq<Event>, key: string) {
    forall i :: 0 <= i < |events| ==> !Drops(Run(capacity, events[..i]), events[i], key)
  }

  lemma DropsLast(capacity: Option<nat>, events: seq<Event>, key: string)
    requires events != []
    ensures
      var n := |events| - 1;
      NeverDrops(capacity, events, key) <==>
        NeverDrops(capacity, events[..n], key) && !Drops(Run(capacity, events[..n]), events[n], key)
  {
    hide Run, Drops;
    var n := |events| - 1;
    if NeverDrops(capacity, events, key) {
      forall i | 0 <= i < n ensures !Drops(Run(capacity, events[..n][..i]), events[..n][i], key) {
        assert events[..n][..i] == events[..i];
      }
    }
    if NeverDrops(capacity, events[..n], key) && !Drops(Run(capacity, events[..n]), events[n], key) {
      forall i | 0 <= i <= n ensures !Drops(Run(capacity, events[..i]), events[i], key) {
        if i < n { assert events[..n][..i] == events[..i]; }
      }
    }
  }

  /** Every accepted job of a key that left the queue ran, if and only if no refused
      start or cancelled runner of that key ever met a queue that was not empty. */
  lemma {:induction false} NothingDroppedIff(capacity: Option<nat>, events: seq<Event>, key: string)
    ensures AllRan(BookOf(Run(capacity, events), key).ended) <==> NeverDrops(capacity, events, key)
  {
    if events == [] {
      assert BookOf(Start(capacity), key).ended == [];
    } else {
      hide Apply, AllRan, Drops, NeverDrops;
      var n := |events| - 1;
      NothingDroppedIff(capacity, events[..n], key);
      DropsLast(capacity, events, key);
      StepDropsIff(Run(capacity, events[..n]), events[n], key);
    }
  }

  /** So without a refused start or a cancelled runner nothing is dropped: the jobs
      of each key that ran are the first of those accepted. */
  lemma WithoutCancellationNothingIsDropped(capacity: Option<nat>, events: seq<Event>, key: string)
    requires forall i :: 0 <= i < |events| ==> !events[i].Refused? && !events[i].Cancel?
    ensures
      var book := BookOf(Run(capacity, events), key);
      AllRan(book.ended) && Jobs(book.ended) <= book.accepted
  {
    hide Run, Queue;
    assert NeverDrops(capacity, events, key);
    NothingDroppedIff(capacity, events, key);
    AcceptedInOrder(capacity, events, key);
  }

  /** A submitter whose start is refused drops the jobs others queued behind it,
      although `TrySubmit` told them that their job was accepted. */
  lemma RefusedStartDropsOthers(key: string, own: Job, other: Job)
    requires key != ""
    ensures
      var before := Run(None, [Acquire(false), Submit(key, own), Acquire(true), TrySubmit(key, other, false)]);
      var after := Apply(before, Refused(0));
      BookOf(before, key).accepted == [own, other] && BookOf(after, key).ended == [Lost(own), Lost(other)]
  {
    var e := [Acquire(false), Submit(key, own), Acquire(true), TrySubmit(key, other, false)];
    assert e[..3][..2][..1][..0] == [] && e[..3][..2][..1] == [Acquire(false)];
    assert e[..3][..2] == [Acquire(false), Submit(key, own)] && e[..3] == [Acquire(false), Submit(key, own), Acquire(true)];
    assert Run(None, []) == Start(None);
    var w1 := Run(None, e[..3][..2][..1]);
    assert w1 == Start(None).(holders := 1);
    var w2 := Run(None, e[..3][..2]);
    assert w2 == Open(w1, Starting(key), own);
    var w3 := Run(None, e[..3]);
    assert w3 == w2.(holders := 1);
    var w4 := Run(None, e);
    assert w4 == Join(w3, key, other);
    assert AllLost([own]) == [Lost(own)];
    assert AllLost([own, other]) == AllLost([own, other][..1]) + [Lost(other)];
    assert [own, other][..1] == [own];
  }
}
