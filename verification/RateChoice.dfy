/**
 * Exactly who may send, on the queue's own terms: priorities, sequence numbers,
 * the three limits and the two bursts. And how often a normal waiter can be
 * passed over.
 */
module RateChoice {
  import opened RateLimiter
  import opened RateFairness

  /** All limits of the waiter have passed at `t`. */
  predicate ReadyBy(s: State, w: Waiter, t: nat) {
    && s.nextGlobal <= t && (w.chat in s.nextByChat ==> s.nextByChat[w.chat] <= t)
    && (w.priority == Bulk ==> s.nextBulk <= t)
  }

  predicate Waits(s: State, w: Waiter, p: Priority, t: nat) { w in s.waiters && w.priority == p && ReadyBy(s, w, t) }

  predicate Any(s: State, p: Priority, t: nat) { exists w :: w in s.waiters && Waits(s, w, p, t) }

  /** Nobody of the waiter's own priority that is ready came before it. */
  predicate Longest(s: State, w: Waiter, t: nat) {
    Waits(s, w, w.priority, t) && forall v :: v in s.waiters && Waits(s, v, w.priority, t) ==> w.sequence <= v.sequence
  }

  /** Sixteen critical grants in a row give way to the others, four normal ones
      to a bulk waiter; apart from that critical goes before normal before bulk. */
  predicate Turn(s: State, p: Priority, t: nat) {
    var critical, normal, bulk := Any(s, Critical, t), Any(s, Normal, t), Any(s, Bulk, t);
    match p
    case Critical => !(s.criticalBurst >= 16 && (normal || bulk)) && !(s.normalBurst >= 4 && bulk)
    case Normal => !(s.normalBurst >= 4 && bulk) && (critical ==> s.criticalBurst >= 16)
    case Bulk => s.normalBurst >= 4 || (!normal && (critical ==> s.criticalBurst >= 16))
  }

  // ------------------------------------------------------------------- who is granted

  lemma ReadyMeans(s: State, w: Waiter, now: nat)
    requires s.nextGlobal <= now
    ensures Eligible(s, w, now) <==> ReadyBy(s, w, now)
  {
  }

  lemma EligibleWaits(s: State, w: Waiter, p: Priority, now: nat)
    requires s.nextGlobal <= now
    ensures w in EligibleOf(s, s.waiters, now) && w.priority == p <==> Waits(s, w, p, now)
  {
    EligibleMeans(s, s.waiters, now, w);
    ReadyMeans(s, w, now);
  }

  lemma OldestIsLongest(s: State, p: Priority, now: nat)
    requires s.nextGlobal <= now
    ensures
      var o := Oldest(EligibleOf(s, s.waiters, now), p);
      (o.Some? <==> Any(s, p, now)) && (o.Some? ==> o.value.priority == p && Longest(s, o.value, now))
  {
    hide EligibleOf, Oldest;
    var ws := EligibleOf(s, s.waiters, now);
    OldestMeans(ws, p);
    forall w ensures w in ws && w.priority == p <==> Waits(s, w, p, now) { EligibleWaits(s, w, p, now); }
    if Oldest(ws, p).Some? {
      assert Waits(s, Oldest(ws, p).value, p, now);
    }
  }

  /** `Before`, spelled out. */
  predicate Precedes(a: Waiter, b: Waiter) {
    match a.priority
    case Critical => b.priority != Critical || a.sequence < b.sequence
    case Normal => b.priority == Bulk || (b.priority == Normal && a.sequence < b.sequence)
    case Bulk => b.priority == Bulk && a.sequence < b.sequence
  }

  lemma BeforeMeans(a: Waiter, b: Waiter)
    ensures Before(a, b) <==> Precedes(a, b)
  {
  }

  lemma FirstIsLongest(s: State, now: nat)
    requires s.nextGlobal <= now && EligibleOf(s, s.waiters, now) != []
    ensures
      var f := First(EligibleOf(s, s.waiters, now));
      Longest(s, f, now) && (f.priority != Critical ==> !Any(s, Critical, now)) && (f.priority == Bulk ==> !Any(s, Normal, now))
  {
    hide EligibleOf, First;
    var ws := EligibleOf(s, s.waiters, now);
    FirstMeans(ws);
    EligibleWaits(s, First(ws), First(ws).priority, now);
    forall v | v in s.waiters && Waits(s, v, v.priority, now) ensures !Precedes(v, First(ws)) {
      EligibleWaits(s, v, v.priority, now);
      BeforeMeans(v, First(ws));
    }
  }

  /** The fair choice is the longest waiting one of the priority whose turn it is. */
  lemma FairIsTheTurn(s: State, now: nat)
    requires s.nextGlobal <= now && EligibleOf(s, s.waiters, now) != []
    ensures
      var f := Fair(s, EligibleOf(s, s.waiters, now));
      Longest(s, f, now) && Turn(s, f.priority, now)
  {
    hide EligibleOf, First, Oldest, Any, Longest;
    OldestIsLongest(s, Bulk, now);
    OldestIsLongest(s, Normal, now);
    FirstIsLongest(s, now);
    LongestWaits(s, First(EligibleOf(s, s.waiters, now)), now);
  }

  lemma LongestWaits(s: State, w: Waiter, now: nat)
    ensures Longest(s, w, now) ==> Any(s, w.priority, now) && w in s.waiters && s.nextGlobal <= now
  {
  }

  /** It is one priority's turn at a time. */
  lemma OneTurn(s: State, p: Priority, q: Priority, now: nat)
    requires Any(s, p, now) && Any(s, q, now) && Turn(s, p, now) && Turn(s, q, now)
    ensures p == q
  {
    hide Any;
  }

  ghost predicate Numbered(s: State) {
    && (forall i, j :: 0 <= i < j < |s.waiters| ==> s.waiters[i].sequence < s.waiters[j].sequence)
    && (forall i :: 0 <= i < |s.waiters| ==> s.waiters[i].sequence <= s.nextSequence)
  }

  lemma OneLongest(s: State, v: Waiter, w: Waiter, now: nat)
    requires Numbered(s) && Longest(s, v, now) && Longest(s, w, now) && v.priority == w.priority
    ensures v == w
  {
    var i :| 0 <= i < |s.waiters| && s.waiters[i] == v;
    var j :| 0 <= j < |s.waiters| && s.waiters[j] == w;
  }

  lemma NobodyEligible(s: State, w: Waiter, now: nat)
    requires s.waiters != [] && EligibleOf(s, s.waiters, GlobalReady(s, now)) == []
    ensures !Grants(s, w, now) && !Longest(s, w, now)
  {
    hide EligibleOf, Soonest;
    var ready := GlobalReady(s, now);
    var soonest := Soonest(s, s.waiters, ready);
    SoonestMeans(s, s.waiters, ready);
    EligibleMeans(s, s.waiters, ready, soonest);
    if Longest(s, w, now) { EligibleWaits(s, w, w.priority, now); }
  }

  /** A waiter may send exactly if it is ready, it is its priority's turn, and nobody
      of its priority that is ready has waited longer. */
  lemma GrantsIff(s: State, w: Waiter, now: nat)
    requires Numbered(s)
    ensures Grants(s, w, now) <==> Longest(s, w, now) && Turn(s, w.priority, now)
  {
    hide EligibleOf, Soonest, Fair, Turn, Any, Numbered;
    var ready := GlobalReady(s, now);
    var ws := EligibleOf(s, s.waiters, ready);
    LongestWaits(s, w, now);
    if s.waiters == [] || s.nextGlobal > now {
    } else if ws == [] {
      NobodyEligible(s, w, now);
    } else {
      FairIsTheTurn(s, now);
      var f := Fair(s, ws);
      LongestWaits(s, f, now);
      hide Longest;
      if Longest(s, w, now) && Turn(s, w.priority, now) {
        OneTurn(s, w.priority, f.priority, now);
        OneLongest(s, f, w, now);
      }
    }
  }

  // ---------------------------------------------------------------------- in every run

  lemma {:induction false} KeptIs(ws: seq<Waiter>, canceled: set<nat>) returns (at: seq<nat>)
    ensures |at| == |Kept(ws, canceled)|
    ensures forall k :: 0 <= k < |at| ==> at[k] < |ws| && Kept(ws, canceled)[k] == ws[at[k]]
    ensures forall k, l :: 0 <= k < l < |at| ==> at[k] < at[l]
  {
    at := [];
    if ws != [] {
      var init := KeptIs(ws[..|ws| - 1], canceled);
      at := if ws[|ws| - 1].sequence in canceled then init else init + [|ws| - 1];
    }
  }

  lemma {:induction false} KeptMeans(ws: seq<Waiter>, canceled: set<nat>, w: Waiter)
    ensures w in Kept(ws, canceled) <==> w in ws && w.sequence !in canceled
  {
    if ws != [] {
      KeptMeans(ws[..|ws| - 1], canceled, w);
      assert ws == ws[..|ws| - 1] + [ws[|ws| - 1]];
    }
  }

  lemma PrunedIsNumbered(s: State, canceled: set<nat>)
    requires Numbered(s)
    ensures Numbered(Pruned(s, canceled))
  {
    var at := KeptIs(s.waiters, canceled);
  }

  lemma {:induction false} WithoutIs(ws: seq<Waiter>, w: Waiter) returns (k: nat)
    ensures k <= |ws| && Without(ws, w) == ws[..k] + (if k < |ws| then ws[k + 1..] else [])
  {
    if ws == [] || ws[0] == w { k := 0; } else {
      k := WithoutIs(ws[1..], w);
      k := k + 1;
      assert [ws[0]] + ws[1..][..k - 1] == ws[..k];
      assert k < |ws| ==> ws[1..][k..] == ws[k + 1..];
    }
  }

  lemma WithoutIsNumbered(s: State, w: Waiter)
    requires Numbered(s)
    ensures Numbered(s.(waiters := Without(s.waiters, w)))
  {
    var k := WithoutIs(s.waiters, w);
  }

  lemma {:induction false} RunIsNumbered(iv: Intervals, events: seq<Event>)
    ensures Numbered(Run(iv, events).s)
  {
    if events != [] {
      hide Grants, Kept, Without, SomeEligible;
      var w, e := Run(iv, events[..|events| - 1]), events[|events| - 1];
      RunIsNumbered(iv, events[..|events| - 1]);
      match e
      case Arrive(_, _) =>
      case Cancel(waiter) => WithoutIsNumbered(w.s, waiter);
      case Try(waiter, now, canceled) =>
        PrunedIsNumbered(w.s, canceled);
        WithoutIsNumbered(Pruned(w.s, canceled), waiter);
    }
  }

  /** In every run: once the cancelled waiters are gone, a try is granted exactly to
      the longest waiting ready one of the priority whose turn it is. */
  lemma GrantIsExactly(iv: Intervals, events: seq<Event>, w: Waiter, now: nat, canceled: set<nat>)
    ensures
      var s := Pruned(Run(iv, events).s, canceled);
      && (forall v :: v in s.waiters <==> v in Run(iv, events).s.waiters && v.sequence !in canceled)
      && (Grants(s, w, now) <==> Longest(s, w, now) && Turn(s, w.priority, now))
  {
    hide Grants, Longest, Turn, Numbered;
    var s := Run(iv, events).s;
    forall v ensures v in Kept(s.waiters, canceled) <==> v in s.waiters && v.sequence !in canceled {
      KeptMeans(s.waiters, canceled, v);
    }
    RunIsNumbered(iv, events);
    PrunedIsNumbered(s, canceled);
    GrantsIff(Pruned(s, canceled), w, now);
  }

  // ---------------------------------------------------------------- how long to sleep

  lemma ReadyAtMeans(s: State, w: Waiter, ready: nat, t: nat)
    requires s.nextGlobal <= ready
    ensures ReadyAt(s, w, ready) <= t <==> ready <= t && ReadyBy(s, w, t)
  {
  }

  /** The waiter whose time is awaited is queued, and that time is the
      first one from now on at which anybody is ready; of several it is the first
      by priority and age, unless the global limit alone is waited for. */
  lemma WokenMeans(s: State, now: nat)
    requires Select(s, now).Some?
    ensures
      var (w, at) := Select(s, now).value;
      && w in s.waiters && at >= now && ReadyBy(s, w, at)
      && (forall v, t :: v in s.waiters && now <= t < at ==> !ReadyBy(s, v, t))
      && (at > now && at > s.nextGlobal ==> forall v :: v in s.waiters && ReadyBy(s, v, at) ==> !Precedes(v, w))
  {
    hide EligibleOf, Soonest, Fair, ReadyBy, ReadyAt, Precedes;
    var ready := GlobalReady(s, now);
    var ws := EligibleOf(s, s.waiters, ready);
    var (w, at) := Select(s, now).value;
    forall v, t | v in s.waiters && t < ready && now <= t ensures !ReadyBy(s, v, t) { GlobalFirst(s, v, t); }
    if ws != [] {
      FairInList(s, ws);
      EligibleMeans(s, s.waiters, ready, w);
      ReadyAtMeans(s, w, ready, ready);
    } else {
      SoonestMeans(s, s.waiters, ready);
      EligibleMeans(s, s.waiters, ready, w);
      ReadyAtMeans(s, w, ready, at);
      forall v, t | v in s.waiters && ready <= t < at ensures !ReadyBy(s, v, t) { ReadyAtMeans(s, v, ready, t); }
      forall v | v in s.waiters && ReadyBy(s, v, at) ensures !Precedes(v, w) {
        ReadyAtMeans(s, v, ready, at);
        BeforeMeans(v, w);
      }
    }
  }

  lemma GlobalFirst(s: State, v: Waiter, t: nat)
    ensures ReadyBy(s, v, t) ==> s.nextGlobal <= t
  {
  }

  // ------------------------------------------------------------------- normal waiters

  /** Grants in a row that passed over a normal waiter that was ready. */
  function NormalPassedOver(log: seq<Grant>): nat {
    if log == [] || log[|log| - 1].waiter.priority == Normal || !log[|log| - 1].normalEligible then 0
    else NormalPassedOver(log[..|log| - 1]) + 1
  }

  /** How many more can: the rest of the critical burst, and once more a whole one
      behind the bulk grant that four normal grants have earned. */
  function NormalBudget(s: State): nat {
    (if s.normalBurst >= 4 then 17 else 0) + 16 - Min(s.criticalBurst, 16)
  }

  lemma NormalBudgetRanks(iv: Intervals, s: State, w: Waiter, now: nat)
    requires Numbered(s) && Grants(s, w, now) && w.priority != Normal && SomeEligible(s, now, s.waiters, {Normal})
    ensures NormalBudget(Granted(s, iv, w, now)) < NormalBudget(s)
  {
    hide Grants, Numbered;
    GrantMeans(s, w, now);
    GrantsIff(s, w, now);
    var i :| 0 <= i < |s.waiters| && Eligible(s, s.waiters[i], now) && s.waiters[i].priority == Normal;
    ReadyMeans(s, s.waiters[i], now);
    assert Waits(s, s.waiters[i], Normal, now);
    LongestWaits(s, w, now);
    hide Any, Longest, EligibleOf, Fair, Without;
  }

  lemma StepKeepsNormal(iv: Intervals, w: World, e: Event)
    requires Numbered(w.s) && NormalPassedOver(w.log) + NormalBudget(w.s) <= 33
    ensures NormalPassedOver(Apply(iv, w, e).log) + NormalBudget(Apply(iv, w, e).s) <= 33
  {
    hide Grants, Kept, Without, SomeEligible, Numbered;
    var s, w' := if e.Try? then Pruned(w.s, e.canceled) else w.s, Apply(iv, w, e);
    if e.Try? && Grants(s, e.waiter, e.now) {
      assert w'.log[..|w.log|] == w.log;
      PrunedIsNumbered(w.s, e.canceled);
      if e.waiter.priority != Normal && SomeEligible(s, e.now, s.waiters, {Normal}) {
        NormalBudgetRanks(iv, s, e.waiter, e.now);
      }
    }
  }

  lemma {:induction false} RunKeepsNormal(iv: Intervals, events: seq<Event>)
    ensures NormalPassedOver(Run(iv, events).log) + NormalBudget(Run(iv, events).s) <= 33
  {
    if events != [] {
      RunKeepsNormal(iv, events[..|events| - 1]);
      RunIsNumbered(iv, events[..|events| - 1]);
      StepKeepsNormal(iv, Run(iv, events[..|events| - 1]), events[|events| - 1]);
    }
  }

  /** Whatever traffic arrives, at most 33 grants in a row pass over normal waiters
      that are ready. */
  lemma NormalWaitsAtMost33Grants(iv: Intervals, events: seq<Event>)
    ensures NormalPassedOver(Run(iv, events).log) <= 33
  {
    RunKeepsNormal(iv, events);
  }
}
