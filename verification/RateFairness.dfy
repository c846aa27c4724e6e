/**
 * What every run of the send limiter guarantees: spacing between grants, and a
 * bound on how long bulk and normal traffic can be passed over.
 */
module RateFairness {
  import opened RateLimiter

  /** A grant, with which kinds of waiters were eligible when it was made. */
  datatype Grant = Grant(at: nat, waiter: Waiter, bulkEligible: bool, normalEligible: bool, otherEligible: bool)

  datatype Event =
    | Arrive(priority: Priority, chat: int)
    | Try(waiter: Waiter, now: nat, canceled: set<nat>)
    | Cancel(waiter: Waiter)

  datatype World = World(s: State, log: seq<Grant>)

  predicate SomeEligible(s: State, now: nat, ws: seq<Waiter>, kinds: set<Priority>) {
    exists i :: 0 <= i < |ws| && Eligible(s, ws[i], GlobalReady(s, now)) && ws[i].priority in kinds
  }

  function Apply(iv: Intervals, w: World, e: Event): World {
    match e
    case Arrive(p, chat) => w.(s := Enqueued(w.s, p, chat))
    case Cancel(waiter) => w.(s := w.s.(waiters := Without(w.s.waiters, waiter)))
    case Try(waiter, now, canceled) =>
      var s := Pruned(w.s, canceled);
      if Grants(s, waiter, now) then
        World(Granted(s, iv, waiter, now),
              w.log + [Grant(now, waiter, SomeEligible(s, now, s.waiters, {Bulk}), SomeEligible(s, now, s.waiters, {Normal}),
                             SomeEligible(s, now, s.waiters, {Normal, Bulk}))])
      else World(s, w.log)
  }

  function Run(iv: Intervals, events: seq<Event>): World {
    if events == [] then World(INITIAL, [])
    else Apply(iv, Run(iv, events[..|events| - 1]), events[|events| - 1])
  }

  // ------------------------------------------------------ what selection means

  /** The eligible waiters are exactly the ready ones, in queue order. */
  lemma {:induction false} EligibleMeans(s: State, ws: seq<Waiter>, ready: nat, w: Waiter)
    ensures w in EligibleOf(s, ws, ready) <==> w in ws && Eligible(s, w, ready)
  {
    if ws != [] {
      EligibleMeans(s, ws[..|ws| - 1], ready, w);
      assert ws == ws[..|ws| - 1] + [ws[|ws| - 1]];
    }
  }

  /** `Oldest` is the waiter of a priority with the smallest sequence number. */
  lemma {:induction false} OldestMeans(ws: seq<Waiter>, p: Priority)
    ensures Oldest(ws, p).None? <==> forall w :: w in ws ==> w.priority != p
    ensures Oldest(ws, p).Some? ==> Oldest(ws, p).value in ws && Oldest(ws, p).value.priority == p
    ensures Oldest(ws, p).Some? ==> forall w :: w in ws && w.priority == p ==> Oldest(ws, p).value.sequence <= w.sequence
  {
    if ws != [] {
      OldestMeans(ws[..|ws| - 1], p);
      assert ws == ws[..|ws| - 1] + [ws[|ws| - 1]];
    }
  }

  /** `First` is the best waiter by priority, then by age. */
  lemma {:induction false} FirstMeans(ws: seq<Waiter>)
    requires ws != []
    ensures First(ws) in ws && forall w :: w in ws ==> !Before(w, First(ws))
  {
    if |ws| > 1 {
      FirstMeans(ws[..|ws| - 1]);
      assert ws == ws[..|ws| - 1] + [ws[|ws| - 1]];
    }
  }

  /** With nobody eligible, the waiter that is ready first is picked, ties going
      to the better one. */
  lemma {:induction false} SoonestMeans(s: State, ws: seq<Waiter>, ready: nat)
    requires ws != []
    ensures Soonest(s, ws, ready) in ws && forall w :: w in ws ==> !Sooner(s, w, Soonest(s, ws, ready), ready)
  {
    if |ws| > 1 {
      SoonestMeans(s, ws[..|ws| - 1], ready);
      assert ws == ws[..|ws| - 1] + [ws[|ws| - 1]];
    }
  }

  /** A granted waiter is queued and ready, and it is the fair choice among all
      the waiters that are ready. */
  lemma GrantMeans(s: State, w: Waiter, now: nat)
    requires Grants(s, w, now)
    ensures now >= s.nextGlobal && w in s.waiters && Eligible(s, w, now) && GlobalReady(s, now) == now
    ensures EligibleOf(s, s.waiters, now) != [] && w == Fair(s, EligibleOf(s, s.waiters, now))
  {
    var ready := GlobalReady(s, now);
    var eligible := EligibleOf(s, s.waiters, ready);
    SoonestMeans(s, s.waiters, ready);
    EligibleMeans(s, s.waiters, ready, w);
    if eligible != [] { FairInList(s, eligible); }
  }

  lemma FairInList(s: State, ws: seq<Waiter>)
    requires ws != []
    ensures Fair(s, ws) in ws
  {
    OldestMeans(ws, Bulk);
    OldestMeans(ws, Normal);
    FirstMeans(ws);
  }

  /** The choice when some waiter that is not critical is eligible: after a full
      burst of critical grants it is not critical, and after a full burst of
      normal ones an eligible bulk waiter gets its turn. */
  lemma FairToOthers(s: State, ws: seq<Waiter>, other: Waiter)
    requires other in ws && other.priority != Critical
    ensures Fair(s, ws).priority == Critical ==> s.criticalBurst < FAIRNESS_BURST
    ensures other.priority == Bulk && s.normalBurst >= NORMAL_FAIRNESS_BURST ==> Fair(s, ws).priority == Bulk
  {
    OldestMeans(ws, Bulk);
    OldestMeans(ws, Normal);
    FirstMeans(ws);
  }

  // -------------------------------------------------------------------- spacing

  function Gap(n: nat, interval: nat): nat { n * interval }

  ghost predicate SpacingInv(iv: Intervals, w: World) {
    && (forall i :: 0 <= i < |w.log| ==> w.log[i].at + Gap(|w.log| - i, iv.global) <= w.s.nextGlobal)
    && (forall i :: 0 <= i < |w.log| ==> w.log[i].at + iv.chat <= ChatReady(w.s, w.log[i].waiter.chat))
    && (forall i :: 0 <= i < |w.log| && w.log[i].waiter.priority == Bulk ==> w.log[i].at + iv.bulk <= w.s.nextBulk)
  }

  /** Grants are spaced: `n` grants apart means `n` global intervals apart, one
      chat's grants a chat interval, bulk grants a bulk interval. */
  ghost predicate Spaced(iv: Intervals, log: seq<Grant>) {
    forall i, j :: 0 <= i < j < |log| ==>
      && log[i].at + Gap(j - i, iv.global) <= log[j].at
      && (log[i].waiter.chat == log[j].waiter.chat ==> log[i].at + iv.chat <= log[j].at)
      && (log[i].waiter.priority == Bulk && log[j].waiter.priority == Bulk ==> log[i].at + iv.bulk <= log[j].at)
  }

  lemma GapNext(n: nat, interval: nat)
    ensures Gap(n + 1, interval) == Gap(n, interval) + interval && Gap(1, interval) == interval
  {
  }

  /** One grant at a time every limit allows. */
  lemma GrantKeepsSpacing(iv: Intervals, w: World, g: Grant, s': State)
    requires SpacingInv(iv, w) && Spaced(iv, w.log)
    requires g.at >= w.s.nextGlobal && g.at >= ChatReady(w.s, g.waiter.chat)
    requires g.waiter.priority == Bulk ==> g.at >= w.s.nextBulk
    requires s'.nextGlobal == g.at + iv.global && s'.nextByChat == w.s.nextByChat[g.waiter.chat := g.at + iv.chat]
    requires s'.nextBulk == if g.waiter.priority == Bulk then g.at + iv.bulk else w.s.nextBulk
    ensures SpacingInv(iv, World(s', w.log + [g])) && Spaced(iv, w.log + [g])
  {
    hide Gap;
    var log, n := w.log + [g], |w.log|;
    GrantsAdvance(iv, w, g);
    forall i, j | 0 <= i < j < n + 1 ensures log[i].at + Gap(j - i, iv.global) <= log[j].at {
      assert log[i] == w.log[i];
      if j < n { assert log[j] == w.log[j]; }
    }
  }

  lemma GrantsAdvance(iv: Intervals, w: World, g: Grant)
    requires SpacingInv(iv, w) && g.at >= w.s.nextGlobal
    ensures
      var log := w.log + [g];
      forall i :: 0 <= i < |log| ==> log[i].at + Gap(|log| - i, iv.global) <= g.at + iv.global
  {
    hide Gap;
    var log, n := w.log + [g], |w.log|;
    forall i | 0 <= i < n ensures log[i].at + Gap(n + 1 - i, iv.global) <= g.at + iv.global {
      GapNext(n - i, iv.global);
      assert log[i] == w.log[i];
    }
    GapNext(0, iv.global);
  }

  lemma StepKeepsSpacing(iv: Intervals, w: World, e: Event)
    requires SpacingInv(iv, w) && Spaced(iv, w.log)
    ensures SpacingInv(iv, Apply(iv, w, e)) && Spaced(iv, Apply(iv, w, e).log)
  {
    hide Select, Kept, Without, Gap;
    if e.Try? && Grants(Pruned(w.s, e.canceled), e.waiter, e.now) {
      GrantMeans(Pruned(w.s, e.canceled), e.waiter, e.now);
      var w' := Apply(iv, w, e);
      GrantKeepsSpacing(iv, w, w'.log[|w.log|], w'.s);
    }
  }

  lemma {:induction false} GrantsAreSpaced(iv: Intervals, events: seq<Event>)
    ensures SpacingInv(iv, Run(iv, events)) && Spaced(iv, Run(iv, events).log)
  {
    if events != [] {
      GrantsAreSpaced(iv, events[..|events| - 1]);
      StepKeepsSpacing(iv, Run(iv, events[..|events| - 1]), events[|events| - 1]);
    }
  }

  // ------------------------------------------------------------------- fairness

  function Min(a: nat, b: nat): nat { if a < b then a else b }

  /** How many more grants can pass over an eligible bulk waiter. */
  function BulkBudget(s: State): nat {
    if s.normalBurst >= NORMAL_FAIRNESS_BURST then 0
    else 17 * (NORMAL_FAIRNESS_BURST - s.normalBurst) - Min(s.criticalBurst, FAIRNESS_BURST)
  }

  /** Grants since the last bulk one at which a bulk waiter was eligible. */
  function BulkPassedOver(log: seq<Grant>): nat {
    if log == [] || log[|log| - 1].waiter.priority == Bulk then 0
    else BulkPassedOver(log[..|log| - 1]) + if log[|log| - 1].bulkEligible then 1 else 0
  }

  /** Critical grants in a row at which some other waiter was eligible. */
  function OthersPassedOver(log: seq<Grant>): nat {
    if log == [] || log[|log| - 1].waiter.priority != Critical then 0
    else OthersPassedOver(log[..|log| - 1]) + if log[|log| - 1].otherEligible then 1 else 0
  }

  ghost predicate FairnessInv(w: World) {
    && BulkPassedOver(w.log) + BulkBudget(w.s) <= 68
    && OthersPassedOver(w.log) <= Min(w.s.criticalBurst, FAIRNESS_BURST)
  }

  /** The budget is a ranking function: no grant but a bulk one raises it, and a
      grant that passes over an eligible bulk waiter lowers it. */
  lemma BudgetRanks(iv: Intervals, s: State, w: Waiter, now: nat)
    requires Grants(s, w, now) && w.priority != Bulk
    ensures BulkBudget(Granted(s, iv, w, now)) <= BulkBudget(s)
    ensures SomeEligible(s, now, s.waiters, {Bulk}) ==> BulkBudget(Granted(s, iv, w, now)) < BulkBudget(s)
  {
    GrantMeans(s, w, now);
    if SomeEligible(s, now, s.waiters, {Bulk}) {
      var i :| 0 <= i < |s.waiters| && Eligible(s, s.waiters[i], now) && s.waiters[i].priority == Bulk;
      EligibleMeans(s, s.waiters, now, s.waiters[i]);
      FairToOthers(s, EligibleOf(s, s.waiters, now), s.waiters[i]);
    }
  }

  lemma CriticalPassesOver(iv: Intervals, s: State, w: Waiter, now: nat)
    requires Grants(s, w, now) && w.priority == Critical && SomeEligible(s, now, s.waiters, {Normal, Bulk})
    ensures s.criticalBurst < FAIRNESS_BURST
  {
    GrantMeans(s, w, now);
    var i :| 0 <= i < |s.waiters| && Eligible(s, s.waiters[i], now) && s.waiters[i].priority != Critical;
    EligibleMeans(s, s.waiters, now, s.waiters[i]);
    FairToOthers(s, EligibleOf(s, s.waiters, now), s.waiters[i]);
  }

  lemma StepKeepsFairness(iv: Intervals, w: World, e: Event)
    requires FairnessInv(w)
    ensures FairnessInv(Apply(iv, w, e))
  {
    hide Grants, Kept, Without, SomeEligible;
    var s, w' := if e.Try? then Pruned(w.s, e.canceled) else w.s, Apply(iv, w, e);
    if e.Try? && Grants(s, e.waiter, e.now) {
      assert w'.log[..|w.log|] == w.log;
      if e.waiter.priority != Bulk { BudgetRanks(iv, s, e.waiter, e.now); }
      if e.waiter.priority == Critical && SomeEligible(s, e.now, s.waiters, {Normal, Bulk}) {
        CriticalPassesOver(iv, s, e.waiter, e.now);
      }
    }
  }

  lemma {:induction false} RunKeepsFairness(iv: Intervals, events: seq<Event>)
    ensures FairnessInv(Run(iv, events))
  {
    if events != [] {
      RunKeepsFairness(iv, events[..|events| - 1]);
      StepKeepsFairness(iv, Run(iv, events[..|events| - 1]), events[|events| - 1]);
    }
  }

  /** Whatever traffic arrives, between two bulk grants at most 68 grants are made
      while a bulk waiter is eligible. */
  lemma BulkWaitsAtMost68Grants(iv: Intervals, events: seq<Event>)
    ensures BulkPassedOver(Run(iv, events).log) <= 68
  {
    RunKeepsFairness(iv, events);
  }

  /** At most 16 critical grants in a row pass over another eligible waiter. */
  lemma CriticalBurstIsBounded(iv: Intervals, events: seq<Event>)
    ensures OthersPassedOver(Run(iv, events).log) <= FAIRNESS_BURST
  {
    RunKeepsFairness(iv, events);
  }
}
