/**
 * The Telegram send limiter: who may send next, and when.
 *
 * Waiters queue up; each evaluation of the queue prunes waiters whose context
 * is done, picks one waiter and grants it if it is ready. Times are
 * milliseconds from a moment before the limiter existed, so a time that was
 * never set is 0.
 */
module RateLimiter {
  import opened Numbers
  import opened Options

  datatype Priority = Critical | Normal | Bulk

  const FAIRNESS_BURST := 16
  const NORMAL_FAIRNESS_BURST := 4

  datatype Waiter = Waiter(priority: Priority, chat: int, sequence: nat)

  datatype State = State(
    nextGlobal: nat, nextBulk: nat, nextByChat: map<int, nat>,
    waiters: seq<Waiter>, nextSequence: nat, criticalBurst: nat, normalBurst: nat)

  datatype Intervals = Intervals(global: nat, chat: nat, bulk: nat)

  const INTERVALS := Intervals(35, 300, 100)

  const INITIAL := State(0, 0, map[], [], 0, 0, 0)

  function Rank(p: Priority): nat {
    match p
    case Critical => 0
    case Normal => 1
    case Bulk => 2
  }

  // ------------------------------------------------------------------ selection

  function GlobalReady(s: State, now: nat): nat { Max(now, s.nextGlobal) }

  function ChatReady(s: State, chat: int): nat { if chat in s.nextByChat then s.nextByChat[chat] else 0 }

  function ReadyAt(s: State, w: Waiter, globalReady: nat): nat {
    var readyAt := Max(globalReady, ChatReady(s, w.chat));
    if w.priority == Bulk then Max(readyAt, s.nextBulk) else readyAt
  }

  predicate Eligible(s: State, w: Waiter, globalReady: nat) { ReadyAt(s, w, globalReady) <= globalReady }

  predicate Before(a: Waiter, b: Waiter) {
    if a.priority != b.priority then Rank(a.priority) < Rank(b.priority) else a.sequence < b.sequence
  }

  function EligibleOf(s: State, ws: seq<Waiter>, globalReady: nat): seq<Waiter> {
    if ws == [] then []
    else
      var init := EligibleOf(s, ws[..|ws| - 1], globalReady);
      if Eligible(s, ws[|ws| - 1], globalReady) then init + [ws[|ws| - 1]] else init
  }

  function Oldest(ws: seq<Waiter>, p: Priority): Option<Waiter> {
    if ws == [] then None
    else
      var o, last := Oldest(ws[..|ws| - 1], p), ws[|ws| - 1];
      if last.priority == p && (o.None? || last.sequence < o.value.sequence) then Some(last) else o
  }

  function First(ws: seq<Waiter>): Waiter
    requires ws != []
  {
    if |ws| == 1 then ws[0]
    else
      var f, last := First(ws[..|ws| - 1]), ws[|ws| - 1];
      if Before(last, f) then last else f
  }

  /** The waiter that becomes ready first, when nobody is eligible. */
  function Soonest(s: State, ws: seq<Waiter>, globalReady: nat): Waiter
    requires ws != []
  {
    if |ws| == 1 then ws[0]
    else
      var f, last := Soonest(s, ws[..|ws| - 1], globalReady), ws[|ws| - 1];
      if Sooner(s, last, f, globalReady) then last else f
  }

  predicate Sooner(s: State, a: Waiter, b: Waiter, globalReady: nat) {
    ReadyAt(s, a, globalReady) < ReadyAt(s, b, globalReady) ||
    (ReadyAt(s, a, globalReady) == ReadyAt(s, b, globalReady) && Before(a, b))
  }

  function NonCritical(s: State, ws: seq<Waiter>): Option<Waiter> {
    if s.normalBurst >= NORMAL_FAIRNESS_BURST && Oldest(ws, Bulk).Some? then Oldest(ws, Bulk)
    else if Oldest(ws, Normal).Some? then Oldest(ws, Normal)
    else Oldest(ws, Bulk)
  }

  function Fair(s: State, ws: seq<Waiter>): Waiter
    requires ws != []
  {
    if s.criticalBurst >= FAIRNESS_BURST && NonCritical(s, ws).Some? then NonCritical(s, ws).value
    else if s.normalBurst >= NORMAL_FAIRNESS_BURST && Oldest(ws, Bulk).Some? then Oldest(ws, Bulk).value
    else First(ws)
  }

  function Select(s: State, now: nat): Option<(Waiter, nat)> {
    var ready := GlobalReady(s, now);
    var eligible := EligibleOf(s, s.waiters, ready);
    if s.waiters == [] then None
    else if eligible != [] then Some((Fair(s, eligible), ready))
    else
      var w := Soonest(s, s.waiters, ready);
      Some((w, ReadyAt(s, w, ready)))
  }

  // ---------------------------------------------------------------------- steps

  function Kept(ws: seq<Waiter>, canceled: set<nat>): seq<Waiter> {
    if ws == [] then []
    else
      var init := Kept(ws[..|ws| - 1], canceled);
      if ws[|ws| - 1].sequence in canceled then init else init + [ws[|ws| - 1]]
  }

  function Without(ws: seq<Waiter>, w: Waiter): seq<Waiter> {
    if ws == [] then [] else if ws[0] == w then ws[1..] else [ws[0]] + Without(ws[1..], w)
  }

  function Enqueued(s: State, p: Priority, chat: int): State {
    s.(nextSequence := s.nextSequence + 1, waiters := s.waiters + [Waiter(p, chat, s.nextSequence + 1)])
  }

  function Pruned(s: State, canceled: set<nat>): State { s.(waiters := Kept(s.waiters, canceled)) }

  /** Whether evaluating the queue at `now` lets waiter `w` send. */
  predicate Grants(s: State, w: Waiter, now: nat) {
    Select(s, now).Some? && Select(s, now).value.0 == w && Select(s, now).value.1 <= now
  }

  function Granted(s: State, iv: Intervals, w: Waiter, now: nat): State {
    State(now + iv.global,
          if w.priority == Bulk then now + iv.bulk else s.nextBulk,
          s.nextByChat[w.chat := now + iv.chat],
          Without(s.waiters, w),
          s.nextSequence,
          if w.priority == Critical then s.criticalBurst + 1 else 0,
          if w.priority == Normal then s.normalBurst + 1 else if w.priority == Bulk then 0 else s.normalBurst)
  }

  // ----------------------------------------------------- the limiter, in place

  class Limiter {
    const intervals: Intervals
    var nextGlobal: nat
    var nextBulk: nat
    var nextByChat: map<int, nat>
    var waiters: seq<Waiter>
    var nextSequence: nat
    var criticalBurst: nat
    var normalBurst: nat

    ghost function Model(): State
      reads this
    {
      State(nextGlobal, nextBulk, nextByChat, waiters, nextSequence, criticalBurst, normalBurst)
    }

    constructor ()
      ensures Model() == INITIAL && intervals == INTERVALS
    {
      intervals := INTERVALS;
      nextGlobal, nextBulk, nextByChat := 0, 0, map[];
      waiters, nextSequence, criticalBurst, normalBurst := [], 0, 0, 0;
    }

    method Enqueue(p: Priority, chat: int) returns (w: Waiter)
      modifies this
      ensures Model() == Enqueued(old(Model()), p, chat)
      ensures waiters == old(waiters) + [w]
    {
      nextSequence := nextSequence + 1;
      w := Waiter(p, chat, nextSequence);
      waiters := waiters + [w];
    }

    method WaiterReadyAt(w: Waiter, globalReady: nat) returns (readyAt: nat)
      ensures readyAt == ReadyAt(Model(), w, globalReady)
    {
      readyAt := globalReady;
      if w.chat in nextByChat && nextByChat[w.chat] > readyAt { readyAt := nextByChat[w.chat]; }
      if w.priority == Bulk && nextBulk > readyAt { readyAt := nextBulk; }
    }

    static method OldestWaiter(ws: seq<Waiter>, p: Priority) returns (oldest: Option<Waiter>)
      ensures oldest == Oldest(ws, p)
    {
      oldest := None;
      for i := 0 to |ws|
        invariant oldest == Oldest(ws[..i], p)
      {
        assert ws[..i + 1][..i] == ws[..i];
        if ws[i].priority == p && (oldest.None? || ws[i].sequence < oldest.value.sequence) { oldest := Some(ws[i]); }
      }
      assert ws[..|ws|] == ws;
    }

    method SelectNonCritical(ws: seq<Waiter>) returns (w: Option<Waiter>)
      ensures w == NonCritical(Model(), ws)
    {
      if normalBurst >= NORMAL_FAIRNESS_BURST {
        w := OldestWaiter(ws, Bulk);
        if w.Some? { return; }
      }
      w := OldestWaiter(ws, Normal);
      if w.Some? { return; }
      w := OldestWaiter(ws, Bulk);
    }

    method SelectEligible(ws: seq<Waiter>) returns (w: Waiter)
      requires ws != []
      ensures w == Fair(Model(), ws)
    {
      if criticalBurst >= FAIRNESS_BURST {
        var fair := SelectNonCritical(ws);
        if fair.Some? { return fair.value; }
      }
      if normalBurst >= NORMAL_FAIRNESS_BURST {
        var bulk := OldestWaiter(ws, Bulk);
        if bulk.Some? { return bulk.value; }
      }
      w := ws[0];
      for i := 1 to |ws|
        invariant w == First(ws[..i])
      {
        assert ws[..i + 1][..i] == ws[..i];
        if Before(ws[i], w) { w := ws[i]; }
      }
      assert ws[..|ws|] == ws;
    }

    method EligibleWaiters(ready: nat) returns (eligible: seq<Waiter>)
      ensures eligible == EligibleOf(Model(), waiters, ready)
    {
      eligible := [];
      for i := 0 to |waiters|
        invariant eligible == EligibleOf(Model(), waiters[..i], ready)
      {
        assert waiters[..i + 1][..i] == waiters[..i];
        var at := WaiterReadyAt(waiters[i], ready);
        if at <= ready { eligible := eligible + [waiters[i]]; }
      }
      assert waiters[..|waiters|] == waiters;
    }

    method SoonestWaiter(ready: nat) returns (w: Waiter, at: nat)
      requires waiters != []
      ensures w == Soonest(Model(), waiters, ready) && at == ReadyAt(Model(), w, ready)
    {
      w := waiters[0];
      at := WaiterReadyAt(w, ready);
      for i := 1 to |waiters|
        invariant w == Soonest(Model(), waiters[..i], ready) && at == ReadyAt(Model(), w, ready)
      {
        assert waiters[..i + 1][..i] == waiters[..i];
        var readyAt := WaiterReadyAt(waiters[i], ready);
        if readyAt < at || (readyAt == at && Before(waiters[i], w)) { w, at := waiters[i], readyAt; }
      }
      assert waiters[..|waiters|] == waiters;
    }

    method SelectWaiter(now: nat) returns (selected: Option<(Waiter, nat)>)
      ensures selected == Select(Model(), now)
    {
      hide Fair, Kept, Without, Oldest, First, NonCritical, EligibleOf, Soonest;
      if waiters == [] { return None; }
      var ready := now;
      if nextGlobal > ready { ready := nextGlobal; }
      var eligible := EligibleWaiters(ready);
      if eligible != [] {
        var w := SelectEligible(eligible);
        return Some((w, ready));
      }
      var w, at := SoonestWaiter(ready);
      selected := Some((w, at));
    }

    method PruneCanceled(canceled: set<nat>)
      modifies this`waiters
      ensures Model() == Pruned(old(Model()), canceled)
    {
      var kept: seq<Waiter> := [];
      for i := 0 to |waiters|
        invariant waiters == old(waiters) && kept == Kept(waiters[..i], canceled)
      {
        assert waiters[..i + 1][..i] == waiters[..i];
        if waiters[i].sequence !in canceled { kept := kept + [waiters[i]]; }
      }
      assert waiters[..|waiters|] == waiters;
      waiters := kept;
    }

    method RemoveWaiter(w: Waiter)
      modifies this`waiters
      ensures Model() == old(Model()).(waiters := Without(old(waiters), w))
    {
      for i := 0 to |waiters|
        invariant waiters == old(waiters) && Without(waiters, w) == waiters[..i] + Without(waiters[i..], w)
      {
        if waiters[i] == w {
          waiters := waiters[..i] + waiters[i + 1..];
          return;
        }
      }
    }

    method Grant(w: Waiter, now: nat)
      modifies this
      ensures Model() == Granted(old(Model()), intervals, w, now)
    {
      hide Without;
      RemoveWaiter(w);
      nextGlobal := now + intervals.global;
      nextByChat := nextByChat[w.chat := now + intervals.chat];
      if w.priority == Bulk { nextBulk := now + intervals.bulk; }
      if w.priority == Critical { criticalBurst := criticalBurst + 1; } else { criticalBurst := 0; }
      if w.priority == Normal { normalBurst := normalBurst + 1; } else if w.priority == Bulk { normalBurst := 0; }
    }

    /** One round of `Wait`: prune, select, and grant if it is this waiter's turn.
        Otherwise `wait` is how long to sleep, if this waiter is the next one. */
    method TryGrant(w: Waiter, now: nat, canceled: set<nat>) returns (granted: bool, wait: Option<nat>)
      modifies this
      ensures var s := Pruned(old(Model()), canceled);
        granted == Grants(s, w, now) && Model() == if granted then Granted(s, intervals, w, now) else s
      ensures wait.Some? ==> !granted && Select(Model(), now) == Some((w, now + wait.value))
    {
      hide Select, Granted, Kept;
      PruneCanceled(canceled);
      var selected := SelectWaiter(now);
      wait := None;
      granted := selected.Some? && selected.value.0 == w && selected.value.1 <= now;
      if granted {
        Grant(w, now);
      } else if selected.Some? && selected.value.0 == w {
        wait := Some(selected.value.1 - now);
      }
    }
  }
}
