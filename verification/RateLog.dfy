/**
 * The limits and the bursts are what the grants so far make them: a waiter is
 * ready exactly if no grant is too recent for it, and the bursts count grants.
 */
module RateLog {
  import opened RateLimiter
  import opened RateFairness
  import opened RateChoice

  /** No grant of the log is too recent for the waiter to send at `t`. */
  predicate Clear(iv: Intervals, log: seq<Grant>, w: Waiter, t: nat) {
    forall i :: 0 <= i < |log| ==>
      && log[i].at + iv.global <= t
      && (log[i].waiter.chat == w.chat ==> log[i].at + iv.chat <= t)
      && (log[i].waiter.priority == Bulk && w.priority == Bulk ==> log[i].at + iv.bulk <= t)
  }

  /** Critical grants in a row at the end of the log. */
  function Criticals(log: seq<Grant>): nat {
    if log == [] || log[|log| - 1].waiter.priority != Critical then 0 else Criticals(log[..|log| - 1]) + 1
  }

  /** Normal grants since the last bulk one. */
  function Normals(log: seq<Grant>): nat {
    if log == [] || log[|log| - 1].waiter.priority == Bulk then 0
    else Normals(log[..|log| - 1]) + if log[|log| - 1].waiter.priority == Normal then 1 else 0
  }

  /** Every limit that was ever set comes from a grant. */
  ghost predicate LimitsFrom(iv: Intervals, w: World) {
    && (w.s.nextGlobal == 0 || exists i :: 0 <= i < |w.log| && w.log[i].at + iv.global == w.s.nextGlobal)
    && (w.s.nextBulk == 0 ||
        exists i :: 0 <= i < |w.log| && w.log[i].waiter.priority == Bulk && w.log[i].at + iv.bulk == w.s.nextBulk)
    && (forall chat :: chat in w.s.nextByChat ==>
          exists i :: 0 <= i < |w.log| && w.log[i].waiter.chat == chat && w.log[i].at + iv.chat == w.s.nextByChat[chat])
  }

  lemma GrantSetsLimits(iv: Intervals, w: World, g: Grant)
    requires LimitsFrom(iv, w)
    ensures LimitsFrom(iv, World(Granted(w.s, iv, g.waiter, g.at), w.log + [g]))
  {
    hide Without;
    var w' := World(Granted(w.s, iv, g.waiter, g.at), w.log + [g]);
    assert w'.log[|w.log|] == g;
    assert forall i :: 0 <= i < |w.log| ==> w'.log[i] == w.log[i];
    forall chat | chat in w'.s.nextByChat
      ensures exists i :: 0 <= i < |w'.log| && w'.log[i].waiter.chat == chat && w'.log[i].at + iv.chat == w'.s.nextByChat[chat]
    {
      if chat != g.waiter.chat {
        var i :| 0 <= i < |w.log| && w.log[i].waiter.chat == chat && w.log[i].at + iv.chat == w.s.nextByChat[chat];
        assert w'.log[i] == w.log[i];
      }
    }
    if w'.s.nextBulk != 0 && g.waiter.priority != Bulk {
      var i :| 0 <= i < |w.log| && w.log[i].waiter.priority == Bulk && w.log[i].at + iv.bulk == w.s.nextBulk;
      assert w'.log[i] == w.log[i];
    }
  }

  lemma BurstsCountGrant(iv: Intervals, s: State, log: seq<Grant>, g: Grant)
    requires s.criticalBurst == Criticals(log) && s.normalBurst == Normals(log)
    ensures
      var s' := Granted(s, iv, g.waiter, g.at);
      s'.criticalBurst == Criticals(log + [g]) && s'.normalBurst == Normals(log + [g])
  {
    hide Without;
    assert (log + [g])[..|log|] == log;
  }

  lemma {:induction false} RunFromLog(iv: Intervals, events: seq<Event>)
    ensures
      var w := Run(iv, events);
      LimitsFrom(iv, w) && w.s.criticalBurst == Criticals(w.log) && w.s.normalBurst == Normals(w.log)
  {
    if events != [] {
      hide Grants, Kept, Without, SomeEligible, Granted, LimitsFrom, Criticals, Normals;
      var w, e, w' := Run(iv, events[..|events| - 1]), events[|events| - 1], Run(iv, events);
      RunFromLog(iv, events[..|events| - 1]);
      var s := if e.Try? then Pruned(w.s, e.canceled) else w.s;
      SameLimits(iv, w, s);
      SameLimits(iv, w, w'.s);
      if e.Try? && Grants(s, e.waiter, e.now) {
        var g := w'.log[|w.log|];
        GrantSetsLimits(iv, World(s, w.log), g);
        BurstsCountGrant(iv, s, w.log, g);
      }
    } else {
      assert Criticals([]) == 0 && Normals([]) == 0;
    }
  }

  lemma SameLimits(iv: Intervals, w: World, s: State)
    requires LimitsFrom(iv, w)
    ensures s == w.s.(waiters := s.waiters, nextSequence := s.nextSequence) ==> LimitsFrom(iv, World(s, w.log))
  {
  }

  /** In every run a queued waiter is ready exactly if no grant is too recent for it:
      the limits are neither shorter nor longer than promised. */
  lemma ReadyIffClear(iv: Intervals, events: seq<Event>, w: Waiter, t: nat)
    ensures ReadyBy(Run(iv, events).s, w, t) <==> Clear(iv, Run(iv, events).log, w, t)
  {
    hide Run, Criticals, Normals, Gap;
    var r := Run(iv, events);
    RunFromLog(iv, events);
    GrantsAreSpaced(iv, events);
    forall i | 0 <= i < |r.log| ensures r.log[i].at + iv.global <= r.s.nextGlobal {
      GapAtLeast(|r.log| - i, iv.global);
    }
  }

  lemma GapAtLeast(n: nat, interval: nat)
    requires n >= 1
    ensures Gap(n, interval) >= interval
  {
    assert (n - 1) * interval >= 0;
    assert n * interval == (n - 1) * interval + interval;
  }

  /** And the bursts that decide whose turn it is are counted off the same log. */
  lemma BurstsAreCounted(iv: Intervals, events: seq<Event>)
    ensures Run(iv, events).s.criticalBurst == Criticals(Run(iv, events).log)
    ensures Run(iv, events).s.normalBurst == Normals(Run(iv, events).log)
  {
    RunFromLog(iv, events);
  }
}
