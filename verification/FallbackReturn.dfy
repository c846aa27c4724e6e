/**
 * When the primary comes back, read off the log of the probes alone, and what the
 * notices say about it.
 */
module FallbackReturn {
  import opened Options
  import opened FallbackController
  import opened FallbackHistory

  /** The fallback serves, or has been given up. */
  predicate Away(mode: Mode) { mode == Active || mode == Recovery || mode == Degraded }

  /** The event starts the count of successes anew. A lease does so only for a
      controller that waits for it; to any other it means nothing. */
  ghost predicate Restarts(cfg: Settings, before: seq<Event>, e: Event) {
    e.Failure? || e.Degrade? || (e.Lease? && Run(cfg, INITIAL, before).mode == Pending)
  }

  /** The events since then. */
  ghost function Since(cfg: Settings, log: seq<Event>): seq<Event> {
    if log == [] then []
    else
      var before, e := log[..|log| - 1], log[|log| - 1];
      if Restarts(cfg, before, e) then [] else Since(cfg, before) + [e]
  }

  /** The required successes of both probes, the last reported lag small enough. */
  predicate Enough(cfg: Settings, events: seq<Event>) {
    && Successes(events, Ready) >= cfg.recoveryThreshold && Successes(events, Claim) >= cfg.recoveryThreshold
    && LastLag(events) <= cfg.lagThreshold
  }

  predicate AnySuccess(events: seq<Event>) { exists i :: 0 <= i < |events| && events[i].Success? }

  /** The controller has counted the successes since then, and there are not enough. */
  ghost predicate Counts(cfg: Settings, c: Controller, since: seq<Event>) {
    && (c.mode == Recovery <==> AnySuccess(since))
    && (c.mode == Recovery ==>
         && c.readySuccesses == Successes(since, Ready) && c.claimSuccesses == Successes(since, Claim)
         && (c.readySuccesses > 0 ==> c.watcherLag == LastLag(since)))
  }

  lemma {:induction false} NoneCounted(events: seq<Event>)
    requires !AnySuccess(events)
    ensures Successes(events, Ready) == 0 && Successes(events, Claim) == 0
  {
    if events != [] {
      var init := events[..|events| - 1];
      assert forall i :: 0 <= i < |init| ==> init[i] == events[i];
      NoneCounted(init);
      assert !events[|events| - 1].Success?;
    }
  }

  lemma AnyMore(events: seq<Event>, e: Event)
    ensures AnySuccess(events + [e]) <==> AnySuccess(events) || e.Success?
  {
    if AnySuccess(events) {
      var i :| 0 <= i < |events| && events[i].Success?;
      assert (events + [e])[i].Success?;
    }
    assert (events + [e])[|events|] == e;
  }

  /** One success more: the primary is back exactly if that makes enough. */
  lemma SuccessStep(cfg: Settings, c: Controller, since: seq<Event>, e: Event)
    requires Sane(cfg) && Away(c.mode) && Counts(cfg, c, since) && e.Success?
    ensures Apply(cfg, c, e).mode == (if Enough(cfg, since + [e]) then Primary else Recovery)
    ensures !Enough(cfg, since + [e]) ==> Counts(cfg, Apply(cfg, c, e), since + [e])
  {
    hide Successes, LastLag, AnySuccess;
    SuccessesStep(since, e);
    AnyMore(since, e);
    if !AnySuccess(since) { NoneCounted(since); }
  }

  lemma OtherStep(cfg: Settings, c: Controller, log: seq<Event>, e: Event)
    requires Sane(cfg) && c == Run(cfg, INITIAL, log) && Away(c.mode) && Counts(cfg, c, Since(cfg, log)) && !e.Success?
    ensures Away(Apply(cfg, c, e).mode)
    ensures Counts(cfg, Apply(cfg, c, e), if Restarts(cfg, log, e) then [] else Since(cfg, log) + [e])
    ensures Restarts(cfg, log, e) <==> !e.Lease?
  {
    hide Run, Successes, LastLag, AnySuccess, Since, Longer, Failed;
    SuccessesStep(Since(cfg, log), e);
    AnyMore(Since(cfg, log), e);
    NothingYet();
  }

  lemma NothingYet()
    ensures !AnySuccess([])
  {
  }

  lemma SinceStep(cfg: Settings, log: seq<Event>, e: Event)
    ensures Since(cfg, log + [e]) == if Restarts(cfg, log, e) then [] else Since(cfg, log) + [e]
    ensures Run(cfg, INITIAL, log + [e]) == Apply(cfg, Run(cfg, INITIAL, log), e)
  {
    assert (log + [e])[..|log|] == log;
  }

  /** Away is reached from PRIMARY and PENDING only by being degraded or given the
      lease, with the count at nothing. */
  lemma AwayFromHome(cfg: Settings, log: seq<Event>, e: Event)
    requires Sane(cfg) && !Away(Run(cfg, INITIAL, log).mode) && Away(Apply(cfg, Run(cfg, INITIAL, log), e).mode)
    ensures Restarts(cfg, log, e) && Apply(cfg, Run(cfg, INITIAL, log), e).mode != Recovery
  {
    hide Run, Longer, Failed;
  }

  lemma {:induction false} RunCounts(cfg: Settings, log: seq<Event>)
    requires Sane(cfg) && Away(Run(cfg, INITIAL, log).mode)
    ensures Counts(cfg, Run(cfg, INITIAL, log), Since(cfg, log))
    decreases |log|
  {
    if log != [] {
      var init, e := log[..|log| - 1], log[|log| - 1];
      assert init + [e] == log;
      var c := Run(cfg, INITIAL, init);
      SinceStep(cfg, init, e);
      NothingYet();
      hide Run, Apply, Since, Restarts, Successes, LastLag, AnySuccess, Enough;
      if !Away(c.mode) {
        AwayFromHome(cfg, init, e);
      } else {
        RunCounts(cfg, init);
        if e.Success? {
          NoRestart(cfg, init, e);
          SuccessStep(cfg, c, Since(cfg, init), e);
        } else {
          OtherStep(cfg, c, init, e);
        }
      }
    }
  }

  lemma NoRestart(cfg: Settings, log: seq<Event>, e: Event)
    requires e.Success?
    ensures !Restarts(cfg, log, e)
  {
  }

  // -------------------------------------------------------------------------- theorems

  /** While the fallback serves or has been given up, the primary is back exactly at
      the success by which the events since the last failure, degradation or effective
      lease hold enough successes; any other success means RECOVERING. */
  lemma BackExactlyWhenEnough(cfg: Settings, log: seq<Event>, e: Event)
    requires Sane(cfg) && Away(Run(cfg, INITIAL, log).mode)
    ensures
      var after := Run(cfg, INITIAL, log + [e]);
      && (after.mode == Primary <==> e.Success? && Enough(cfg, Since(cfg, log) + [e]))
      && (after.mode == Recovery && e.Success? <==> e.Success? && !Enough(cfg, Since(cfg, log) + [e]))
      && after.mode != Pending
  {
    hide Run, Apply, Since, Restarts, Successes, LastLag, AnySuccess, Enough;
    RunCounts(cfg, log);
    SinceStep(cfg, log, e);
    if e.Success? {
      SuccessStep(cfg, Run(cfg, INITIAL, log), Since(cfg, log), e);
    } else {
      OtherStep(cfg, Run(cfg, INITIAL, log), log, e);
    }
  }

  /** Which of the three modes it is: RECOVERING exactly if there was a success since;
      the first one always leads there, and a failure leads back to ACTIVE. */
  lemma RecoveringIff(cfg: Settings, log: seq<Event>, e: Event)
    requires Sane(cfg) && Away(Run(cfg, INITIAL, log).mode)
    ensures Run(cfg, INITIAL, log).mode == Recovery <==> AnySuccess(Since(cfg, log))
    ensures
      var c, after := Run(cfg, INITIAL, log), Run(cfg, INITIAL, log + [e]);
      && (e.Success? && c.mode != Recovery ==> after.mode == Recovery)
      && (e.Failure? ==> after.mode == if c.mode == Degraded then Degraded else Active)
      && (e.Degrade? ==> after.mode == Degraded)
      && (e.Lease? ==> after == c)
  {
    RunCounts(cfg, log);
    SinceStep(cfg, log, e);
    var since := Since(cfg, log);
    if e.Success? && Run(cfg, INITIAL, log).mode != Recovery {
      SuccessStep(cfg, Run(cfg, INITIAL, log), since, e);
      SuccessesStep(since, e);
      NoneCounted(since);
    }
  }

  /** So a healthy watcher always gets the primary back: any stretch of successes that
      is enough in itself brings it back, at its end if not before. */
  lemma {:induction false} EnoughBringsBack(cfg: Settings, log: seq<Event>, more: seq<Event>)
    requires Sane(cfg) && Away(Run(cfg, INITIAL, log).mode)
    requires (forall i :: 0 <= i < |more| ==> more[i].Success?) && Enough(cfg, more)
    ensures exists i :: 0 < i <= |more| && Run(cfg, INITIAL, log + more[..i]).mode == Primary
  {
    var n := |more| - 1;
    assert more[..n] + [more[n]] == more;
    if forall i :: 0 < i <= n ==> Run(cfg, INITIAL, log + more[..i]).mode != Primary {
      StillAway(cfg, log, more, n);
      assert log + more[..n] + [more[n]] == log + more[..|more|];
      BackExactlyWhenEnough(cfg, log + more[..n], more[n]);
      assert Since(cfg, log + more[..n]) + [more[n]] == Since(cfg, log) + more;
      EnoughBehind(cfg, Since(cfg, log), more);
    }
  }

  lemma {:induction false} StillAway(cfg: Settings, log: seq<Event>, more: seq<Event>, n: nat)
    requires Sane(cfg) && Away(Run(cfg, INITIAL, log).mode) && n <= |more|
    requires forall i :: 0 <= i < |more| ==> more[i].Success?
    requires forall i :: 0 < i <= n ==> Run(cfg, INITIAL, log + more[..i]).mode != Primary
    ensures Away(Run(cfg, INITIAL, log + more[..n]).mode)
    ensures Since(cfg, log + more[..n]) == Since(cfg, log) + more[..n]
  {
    hide Run, Since, Restarts, Successes, LastLag, Enough;
    if n == 0 {
      assert log + more[..0] == log;
    } else {
      NoRestart(cfg, log + more[..n - 1], more[n - 1]);
      StillAway(cfg, log, more, n - 1);
      assert log + more[..n - 1] + [more[n - 1]] == log + more[..n];
      BackExactlyWhenEnough(cfg, log + more[..n - 1], more[n - 1]);
      SinceStep(cfg, log + more[..n - 1], more[n - 1]);
    }
  }

  lemma {:induction false} EnoughBehind(cfg: Settings, since: seq<Event>, more: seq<Event>)
    requires Sane(cfg) && Enough(cfg, more)
    ensures Enough(cfg, since + more)
  {
    MoreSuccesses(since, more);
  }

  lemma {:induction false} MoreSuccesses(since: seq<Event>, more: seq<Event>)
    ensures Successes(since + more, Ready) >= Successes(more, Ready) && Successes(since + more, Claim) >= Successes(more, Claim)
    ensures Successes(more, Ready) > 0 ==> LastLag(since + more) == LastLag(more)
  {
    if more != [] {
      var init, e := more[..|more| - 1], more[|more| - 1];
      MoreSuccesses(since, init);
      assert since + init + [e] == since + more && init + [e] == more;
      SuccessesStep(since + init, e);
      SuccessesStep(init, e);
    }
  }

  /** A notice tells what happened: the mode before and after, whether it changed, and
      whether the lease was asked for just now. */
  lemma NoticesAreTrue(cfg: Settings, c: Controller, source: Source, at: int)
    ensures
      var (after, notice) := OnFailure(cfg, c, source, at);
      && notice.previous == c.mode && notice.mode == after.mode && (notice.changed <==> after.mode != c.mode)
      && (notice.leaseRequested ==> after.leaseRequested && after.lastSummary == Some(at) && after.suppressed == 0)
      && (after.leaseRequested && !c.leaseRequested ==> notice.leaseRequested)
  {
  }

  /** A success says that the primary is back exactly if it is back by it. */
  lemma ReturnIsTold(cfg: Settings, c: Controller, source: Source, at: int, lag: int)
    ensures
      var (after, back) := OnSuccess(cfg, c, source, at, lag);
      && (back <==> after.mode == Primary && c.mode != Primary)
      && (back ==> !after.leaseRequested && after.suppressed == 0)
  {
  }

  /** A failure that is only summed up is told in a notice of its own exactly if the
      last one is a minute old, and then with all that were kept back. */
  lemma SummedUpIff(cfg: Settings, c: Controller, source: Source, at: int)
    requires c.mode == Active || c.mode == Degraded
    ensures
      var (after, notice) := OnFailure(cfg, c, source, at);
      var due := c.lastSummary.Some? && at - c.lastSummary.value >= 60_000;
      && notice.suppressed == (if due then c.suppressed + 1 else 0)
      && after.suppressed == (if due then 0 else c.suppressed + 1)
      && after.lastSummary == (if due || c.lastSummary.None? then Some(at) else c.lastSummary)
  {
  }

  /** The fallback's start is noted when it is given the lease, and forgotten when the
      primary comes back from it. */
  lemma StartedIs(cfg: Settings, c: Controller, e: Event)
    ensures Apply(cfg, c, e).startedAt ==
      if e.Lease? && c.mode == Pending && c.leaseRequested then Some(e.at)
      else if Away(c.mode) && Apply(cfg, c, e).mode == Primary then None
      else c.startedAt
  {
  }
}
