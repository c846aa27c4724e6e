/**
 * What the controller's mode says about the probes' history: when the primary is
 * left, when it comes back, and what a lease request means.
 */
module FallbackHistory {
  import opened Options
  import opened FallbackController

  datatype Event =
    | Failure(source: Source, at: int)
    | Success(source: Source, at: int, lag: int)
    | Lease(at: int)
    | Degrade

  function Apply(cfg: Settings, c: Controller, e: Event): Controller {
    match e
    case Failure(source, at) => OnFailure(cfg, c, source, at).0
    case Success(source, at, lag) => OnSuccess(cfg, c, source, at, lag).0
    case Lease(at) => OnLease(c, at)
    case Degrade => c.(mode := Degraded)
  }

  function Run(cfg: Settings, c: Controller, events: seq<Event>): Controller {
    if events == [] then c
    else Apply(cfg, Run(cfg, c, events[..|events| - 1]), events[|events| - 1])
  }

  // ----------------------------------------------------------------- the history

  predicate OfReady(e: Event) { (e.Failure? || e.Success?) && e.source == Ready }

  predicate OfClaim(e: Event) { (e.Failure? || e.Success?) && e.source != Ready }

  /** The failures of one probe that no success of it followed, oldest first. */
  function Unanswered(log: seq<Event>, ready: bool): seq<int> {
    if log == [] then []
    else
      var init, e := Unanswered(log[..|log| - 1], ready), log[|log| - 1];
      if !(if ready then OfReady(e) else OfClaim(e)) then init
      else if e.Success? then []
      else init + [e.at]
  }

  /** What the streak should be. */
  function StreakOf(failures: seq<int>): Streak {
    if failures == [] then NO_FAILURES else Streak(|failures|, Some(failures[0]))
  }

  /** At least the threshold of unanswered failures, the oldest 3 s ago or more. */
  predicate LongFailing(cfg: Settings, log: seq<Event>, ready: bool, now: int) {
    var failures := Unanswered(log, ready);
    |failures| >= cfg.failThreshold && failures != [] && now - failures[0] >= FAILURE_MIN_DURATION
  }

  // ------------------------------------------------------------------- invariant

  /** In PRIMARY and PENDING both streaks are those of the history; in RECOVERING a
      probe that has succeeded again has none. */
  ghost predicate Inv(c: Controller, log: seq<Event>) {
    && (c.mode == Pending ==> c.leaseRequested)
    && (c.mode == Primary ==> !c.leaseRequested)
    && (c.mode == Primary || c.mode == Pending ==>
         c.ready == StreakOf(Unanswered(log, true)) && c.claim == StreakOf(Unanswered(log, false)))
    && (c.mode == Recovery && c.readySuccesses > 0 ==> Unanswered(log, true) == [] && c.ready == NO_FAILURES)
    && (c.mode == Recovery && c.claimSuccesses > 0 ==> Unanswered(log, false) == [] && c.claim == NO_FAILURES)
  }

  lemma UnansweredStep(log: seq<Event>, e: Event, ready: bool)
    ensures
      Unanswered(log + [e], ready) ==
        if !(if ready then OfReady(e) else OfClaim(e)) then Unanswered(log, ready)
        else if e.Success? then []
        else Unanswered(log, ready) + [e.at]
  {
    assert (log + [e])[..|log|] == log;
  }

  lemma StepKeepsInv(cfg: Settings, c: Controller, log: seq<Event>, e: Event)
    requires Inv(c, log) && Sane(cfg)
    ensures Inv(Apply(cfg, c, e), log + [e])
  {
    hide Unanswered;
    UnansweredStep(log, e, true);
    UnansweredStep(log, e, false);
  }

  lemma {:induction false} RunKeepsInv(cfg: Settings, log: seq<Event>)
    requires Sane(cfg)
    ensures Inv(Run(cfg, INITIAL, log), log)
  {
    if log != [] {
      RunKeepsInv(cfg, log[..|log| - 1]);
      StepKeepsInv(cfg, Run(cfg, INITIAL, log[..|log| - 1]), log[..|log| - 1], log[|log| - 1]);
      assert log[..|log| - 1] + [log[|log| - 1]] == log;
    }
  }

  // -------------------------------------------------------------------- theorems

  /** A waiting fallback has asked for its lease and a healthy primary has not;
      the lease is asked for when the primary is left and never again. */
  lemma {:induction false} LeaseFollowsMode(cfg: Settings, log: seq<Event>, source: Source, at: int)
    requires Sane(cfg)
    ensures
      var c := Run(cfg, INITIAL, log);
      && (c.mode == Pending ==> c.leaseRequested) && (c.mode == Primary ==> !c.leaseRequested)
      && (OnFailure(cfg, c, source, at).1.leaseRequested ==> c.mode == Primary && OnFailure(cfg, c, source, at).0.mode == Pending)
  {
    RunKeepsInv(cfg, log);
  }

  /** The primary is left for the fallback exactly at a failure after which one
      probe has failed often enough in a row, and for 3 s, in the whole history. */
  lemma LeavesPrimaryIff(cfg: Settings, log: seq<Event>, e: Event)
    requires Sane(cfg) && Run(cfg, INITIAL, log).mode == Primary
    ensures
      var after := Apply(cfg, Run(cfg, INITIAL, log), e);
      && (after.mode == Pending <==>
           e.Failure? && (LongFailing(cfg, log + [e], true, e.at) || LongFailing(cfg, log + [e], false, e.at)))
      && (after.mode == Degraded <==> e.Degrade?)
      && after.mode in {Primary, Pending, Degraded}
  {
    var c := Run(cfg, INITIAL, log);
    RunKeepsInv(cfg, log);
    StepKeepsInv(cfg, c, log, e);
    UnansweredStep(log, e, true);
    UnansweredStep(log, e, false);
    if e.Failure? {
      var d := Counted(c, e.source, e.at);
      assert d.ready == StreakOf(Unanswered(log + [e], true));
      assert d.claim == StreakOf(Unanswered(log + [e], false));
    }
  }

  /** A pending fallback stands down exactly when neither probe has an unanswered
      failure left, and starts exactly when it is given the lease. */
  lemma LeavesPendingIff(cfg: Settings, log: seq<Event>, e: Event)
    requires Sane(cfg) && Run(cfg, INITIAL, log).mode == Pending
    ensures
      var after := Apply(cfg, Run(cfg, INITIAL, log), e);
      && (after.mode == Primary <==>
           e.Success? && Unanswered(log + [e], true) == [] && Unanswered(log + [e], false) == [])
      && (after.mode == Active <==> e.Lease?)
      && (after.mode == Degraded <==> e.Degrade?)
      && after.mode != Recovery
  {
    RunKeepsInv(cfg, log);
    UnansweredStep(log, e, true);
    UnansweredStep(log, e, false);
  }

  // ------------------------------------------------------------------- recovering

  /** The events since the controller was last in another mode than RECOVERING. */
  function Stretch(cfg: Settings, log: seq<Event>): seq<Event> {
    if log == [] || Run(cfg, INITIAL, log).mode != Recovery then []
    else Stretch(cfg, log[..|log| - 1]) + [log[|log| - 1]]
  }

  function Successes(events: seq<Event>, source: Source): nat {
    if events == [] then 0
    else
      var e := events[|events| - 1];
      Successes(events[..|events| - 1], source) + if e.Success? && e.source == source then 1 else 0
  }

  /** The lag the last "ready" success reported. */
  function LastLag(events: seq<Event>): int {
    if events == [] then 0
    else
      var e := events[|events| - 1];
      if e.Success? && e.source == Ready then e.lag else LastLag(events[..|events| - 1])
  }

  predicate Quiet(events: seq<Event>) { forall i :: 0 <= i < |events| ==> !events[i].Failure? && !events[i].Degrade? }

  /** The counters are those of the stretch. */
  ghost predicate StretchOk(cfg: Settings, c: Controller, stretch: seq<Event>) {
    && Quiet(stretch)
    && c.readySuccesses == Successes(stretch, Ready) && c.claimSuccesses == Successes(stretch, Claim)
    && (c.readySuccesses > 0 ==> c.watcherLag == LastLag(stretch))
    && (c.readySuccesses < cfg.recoveryThreshold || c.claimSuccesses < cfg.recoveryThreshold || c.watcherLag > cfg.lagThreshold)
  }

  lemma SuccessesStep(events: seq<Event>, e: Event)
    ensures Successes(events + [e], Ready) == Successes(events, Ready) + if e.Success? && e.source == Ready then 1 else 0
    ensures Successes(events + [e], Claim) == Successes(events, Claim) + if e.Success? && e.source == Claim then 1 else 0
    ensures LastLag(events + [e]) == if e.Success? && e.source == Ready then e.lag else LastLag(events)
  {
    assert (events + [e])[..|events|] == events;
  }

  lemma NoSuccesses()
    ensures Successes([], Ready) == 0 && Successes([], Claim) == 0
  {
  }

  lemma StretchStep(cfg: Settings, c: Controller, stretch: seq<Event>, e: Event)
    requires Sane(cfg)
    requires if c.mode == Recovery then StretchOk(cfg, c, stretch) else stretch == []
    requires Apply(cfg, c, e).mode == Recovery
    ensures StretchOk(cfg, Apply(cfg, c, e), stretch + [e])
  {
    hide Successes, LastLag, Longer, Failed;
    SuccessesStep(stretch, e);
    NoSuccesses();
  }

  lemma {:induction false} StretchIsCounted(cfg: Settings, log: seq<Event>)
    requires Sane(cfg) && Run(cfg, INITIAL, log).mode == Recovery
    ensures StretchOk(cfg, Run(cfg, INITIAL, log), Stretch(cfg, log))
  {
    if log != [] {
      var init, e := log[..|log| - 1], log[|log| - 1];
      if Run(cfg, INITIAL, init).mode == Recovery { StretchIsCounted(cfg, init); }
      StretchStep(cfg, Run(cfg, INITIAL, init), Stretch(cfg, init), e);
    }
  }

  /** The primary is back exactly at the success that completes, within one stretch
      free of failures, the required successes of both probes, with the lag last
      reported in the stretch small enough. */
  lemma ReturnsToPrimaryIff(cfg: Settings, log: seq<Event>, e: Event)
    requires Sane(cfg) && Run(cfg, INITIAL, log).mode in {Active, Recovery, Degraded}
    ensures
      var stretch := Stretch(cfg, log) + [e];
      && Quiet(Stretch(cfg, log))
      && (Apply(cfg, Run(cfg, INITIAL, log), e).mode == Primary <==>
           e.Success? && Successes(stretch, Ready) >= cfg.recoveryThreshold &&
           Successes(stretch, Claim) >= cfg.recoveryThreshold && LastLag(stretch) <= cfg.lagThreshold)
  {
    hide Run, Successes, LastLag, Longer, Failed;
    var c := Run(cfg, INITIAL, log);
    if c.mode == Recovery { StretchIsCounted(cfg, log); } else { NoStretch(cfg, log); }
    SuccessesStep(Stretch(cfg, log), e);
    NoSuccesses();
  }

  lemma NoStretch(cfg: Settings, log: seq<Event>)
    requires Run(cfg, INITIAL, log).mode != Recovery
    ensures Stretch(cfg, log) == []
  {
  }

  /** However the primary comes back, no failure of either probe is outstanding, so
      it takes a full run of new failures to leave it again. */
  lemma ReturnsClean(cfg: Settings, log: seq<Event>, e: Event)
    requires Sane(cfg) && Run(cfg, INITIAL, log).mode != Primary && Apply(cfg, Run(cfg, INITIAL, log), e).mode == Primary
    ensures Unanswered(log + [e], true) == [] && Unanswered(log + [e], false) == []
  {
    hide Run, Unanswered, Successes, LastLag, Stretch, Longer, Failed;
    var c := Run(cfg, INITIAL, log);
    RunKeepsInv(cfg, log);
    UnansweredStep(log, e, true);
    UnansweredStep(log, e, false);
    if c.mode != Pending {
      ReturnsToPrimaryIff(cfg, log, e);
      SuccessesStep(Stretch(cfg, log), e);
    }
  }

  // ------------------------------------------------------- what is said of failures

  /** The failures told in the notices of a run of failures. */
  function Told(cfg: Settings, c: Controller, failures: seq<Event>): nat
    requires forall i :: 0 <= i < |failures| ==> failures[i].Failure?
  {
    if failures == [] then 0
    else
      var init, e := failures[..|failures| - 1], failures[|failures| - 1];
      Told(cfg, c, init) + OnFailure(cfg, Run(cfg, c, init), e.source, e.at).1.suppressed
  }

  /** The fallback is on, asked for, or given up: failures are only summed up. */
  predicate SumsUp(c: Controller) { c.mode == Active || c.mode == Degraded || (c.mode == Pending && c.leaseRequested) }

  /** While failures are only summed up, every one of them is told in some notice or
      still waiting to be, and none twice. */
  lemma {:induction false} FailuresAreTold(cfg: Settings, c: Controller, failures: seq<Event>)
    requires SumsUp(c) && forall i :: 0 <= i < |failures| ==> failures[i].Failure?
    ensures SumsUp(Run(cfg, c, failures)) && Run(cfg, c, failures).mode == c.mode
    ensures Told(cfg, c, failures) + Run(cfg, c, failures).suppressed == c.suppressed + |failures|
  {
    if failures != [] {
      FailuresAreTold(cfg, c, failures[..|failures| - 1]);
    }
  }
}
