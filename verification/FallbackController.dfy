/**
 * The watcher fallback controller: counts failures and successes of the watcher's
 * two probes and decides when the shared fallback takes over and hands back.
 * Times are milliseconds.
 */
module FallbackController {
  import opened Options

  datatype Mode = Primary | Pending | Active | Recovery | Degraded

  /** Failures of anything but "ready" count with the claims; only "claim" itself
      counts as a claim success. */
  datatype Source = Ready | Claim | Other

  const FAILURE_MIN_DURATION := 3000
  const SUMMARY_INTERVAL := 60000

  datatype Settings = Settings(failThreshold: int, recoveryThreshold: int, lagThreshold: int)

  /** Consecutive failures of one probe, and the time of the first. */
  datatype Streak = Streak(count: nat, first: Option<int>)

  datatype Controller = Controller(
    mode: Mode, ready: Streak, claim: Streak, readySuccesses: nat, claimSuccesses: nat,
    watcherLag: int, startedAt: Option<int>, lastSuccess: Option<int>, leaseRequested: bool,
    lastSummary: Option<int>, suppressed: nat)

  datatype Notice = Notice(previous: Mode, mode: Mode, changed: bool, leaseRequested: bool, suppressed: nat)

  /** What the constructor makes sure of. */
  predicate Sane(cfg: Settings) { cfg.failThreshold >= 1 && cfg.recoveryThreshold >= 2 && cfg.lagThreshold > 0 }

  function Clamped(failThreshold: int, recoveryThreshold: int, lagThreshold: int): (cfg: Settings)
    ensures Sane(cfg)
    ensures failThreshold >= 1 ==> cfg.failThreshold == failThreshold
    ensures recoveryThreshold >= 2 ==> cfg.recoveryThreshold == recoveryThreshold
    ensures lagThreshold > 0 ==> cfg.lagThreshold == lagThreshold
  {
    Settings(if failThreshold < 1 then 1 else failThreshold,
             if recoveryThreshold < 2 then 2 else recoveryThreshold,
             if lagThreshold <= 0 then 5000 else lagThreshold)
  }

  const NO_FAILURES := Streak(0, None)

  const INITIAL := Controller(Primary, NO_FAILURES, NO_FAILURES, 0, 0, 0, None, None, false, None, 0)

  // --------------------------------------------------------------- the transitions

  function Longer(s: Streak, now: int): Streak { Streak(s.count + 1, if s.first.None? then Some(now) else s.first) }

  /** Enough failures in a row, the first of them long enough ago. */
  predicate Failed(cfg: Settings, s: Streak, now: int) {
    s.count >= cfg.failThreshold && s.first.Some? && now - s.first.value >= FAILURE_MIN_DURATION
  }

  function Counted(c: Controller, source: Source, now: int): Controller {
    if source == Ready then c.(ready := Longer(c.ready, now), readySuccesses := 0)
    else c.(claim := Longer(c.claim, now), claimSuccesses := 0)
  }

  function Summarized(c: Controller, now: int, n: Notice): (Controller, Notice) {
    var since := if c.lastSummary.None? then now else c.lastSummary.value;
    if now - since >= SUMMARY_INTERVAL
    then (c.(suppressed := 0, lastSummary := Some(now)), n.(suppressed := c.suppressed + 1))
    else (c.(suppressed := c.suppressed + 1, lastSummary := Some(since)), n)
  }

  function Request(c: Controller, now: int): Controller {
    c.(leaseRequested := true, lastSummary := Some(now), suppressed := 0)
  }

  function OnFailure(cfg: Settings, c: Controller, source: Source, now: int): (Controller, Notice) {
    var n := Notice(c.mode, c.mode, false, false, 0);
    if c.mode == Degraded then Summarized(c, now, n)
    else
      var d := Counted(c, source, now);
      var failed := Failed(cfg, d.ready, now) || Failed(cfg, d.claim, now);
      if c.mode == Recovery then (d.(mode := Active), n.(mode := Active, changed := true))
      else if c.mode == Primary then
        if !failed then (d, n)
        else (Request(d, now).(mode := Pending), n.(mode := Pending, changed := true, leaseRequested := true))
      else if c.mode == Active || !failed then Summarized(d, now, n)
      else if !c.leaseRequested then (Request(d, now), n.(leaseRequested := true))
      else Summarized(d, now, n)
  }

  function Cleared(c: Controller, source: Source, now: int): Controller {
    if source == Ready then c.(ready := NO_FAILURES, lastSuccess := Some(now)) else c.(claim := NO_FAILURES)
  }

  function Progressed(c: Controller, source: Source, lag: int): Controller {
    if source == Ready then c.(readySuccesses := c.readySuccesses + 1, watcherLag := lag)
    else if source == Claim then c.(claimSuccesses := c.claimSuccesses + 1)
    else c
  }

  predicate Recovered(cfg: Settings, c: Controller) {
    c.readySuccesses >= cfg.recoveryThreshold && c.claimSuccesses >= cfg.recoveryThreshold && c.watcherLag <= cfg.lagThreshold
  }

  function OnSuccess(cfg: Settings, c: Controller, source: Source, now: int, lag: int): (Controller, bool) {
    var d := Cleared(c, source, now);
    if c.mode == Pending && d.ready.count == 0 && d.claim.count == 0 then
      (d.(mode := Primary, leaseRequested := false, suppressed := 0), true)
    else if c.mode == Primary || c.mode == Pending then (d, false)
    else Recovering(cfg, d, source, lag)
  }

  /** A success while the fallback serves. */
  function Recovering(cfg: Settings, c: Controller, source: Source, lag: int): (Controller, bool) {
    var d := if c.mode == Recovery then c else c.(mode := Recovery, readySuccesses := 0, claimSuccesses := 0);
    var e := Progressed(d, source, lag);
    if Recovered(cfg, e) then (e.(mode := Primary, startedAt := None, leaseRequested := false, suppressed := 0), true)
    else (e, false)
  }

  function OnLease(c: Controller, now: int): Controller {
    if c.mode == Pending && c.leaseRequested then c.(mode := Active, startedAt := Some(now)) else c
  }

  // -------------------------------------------------------- the controller, in place

  class WatcherFallback {
    const settings: Settings
    var mode: Mode
    var readyFailures: nat
    var claimFailures: nat
    var firstReadyFailure: Option<int>
    var firstClaimFailure: Option<int>
    var readySuccesses: nat
    var claimSuccesses: nat
    var watcherLag: int
    var startedAt: Option<int>
    var lastWatcherSuccess: Option<int>
    var leaseRequested: bool
    var lastFailureSummary: Option<int>
    var suppressedFailures: nat

    ghost function Model(): Controller
      reads this
    {
      Controller(
        mode, Streak(readyFailures, firstReadyFailure), Streak(claimFailures, firstClaimFailure),
        readySuccesses, claimSuccesses, watcherLag, startedAt, lastWatcherSuccess, leaseRequested,
        lastFailureSummary, suppressedFailures)
    }

    constructor (failThreshold: int, recoveryThreshold: int, lagThreshold: int)
      ensures settings == Clamped(failThreshold, recoveryThreshold, lagThreshold) && Model() == INITIAL
    {
      var fail, recovery, lag := failThreshold, recoveryThreshold, lagThreshold;
      if fail < 1 { fail := 1; }
      if recovery < 2 { recovery := 2; }
      if lag <= 0 { lag := 5000; }
      settings := Settings(fail, recovery, lag);
      mode, leaseRequested := Primary, false;
      readyFailures, claimFailures, readySuccesses, claimSuccesses, suppressedFailures, watcherLag := 0, 0, 0, 0, 0, 0;
      firstReadyFailure, firstClaimFailure, startedAt, lastWatcherSuccess, lastFailureSummary := None, None, None, None, None;
    }

    method SummarizeFailure(now: int, notice: Notice) returns (n: Notice)
      modifies this`suppressedFailures, this`lastFailureSummary
      ensures (Model(), n) == Summarized(old(Model()), now, notice)
    {
      n := notice;
      suppressedFailures := suppressedFailures + 1;
      if lastFailureSummary.None? { lastFailureSummary := Some(now); }
      if now - lastFailureSummary.value >= SUMMARY_INTERVAL {
        n := n.(suppressed := suppressedFailures);
        suppressedFailures := 0;
        lastFailureSummary := Some(now);
      }
    }

    method CountFailure(source: Source, now: int)
      modifies this`readyFailures, this`readySuccesses, this`firstReadyFailure
      modifies this`claimFailures, this`claimSuccesses, this`firstClaimFailure
      ensures Model() == Counted(old(Model()), source, now)
    {
      if source == Ready {
        readyFailures := readyFailures + 1;
        readySuccesses := 0;
        if firstReadyFailure.None? { firstReadyFailure := Some(now); }
      } else {
        claimFailures := claimFailures + 1;
        claimSuccesses := 0;
        if firstClaimFailure.None? { firstClaimFailure := Some(now); }
      }
    }

    method RequestLease(now: int)
      modifies this`leaseRequested, this`lastFailureSummary, this`suppressedFailures
      ensures Model() == Request(old(Model()), now)
    {
      leaseRequested, lastFailureSummary, suppressedFailures := true, Some(now), 0;
    }

    method RecordFailure(source: Source, now: int) returns (notice: Notice)
      modifies this
      ensures (Model(), notice) == OnFailure(settings, old(Model()), source, now)
    {
      notice := Notice(mode, mode, false, false, 0);
      if mode == Degraded {
        notice := SummarizeFailure(now, notice);
        return;
      }
      CountFailure(source, now);
      ghost var d := Model();
      var readyFailed := readyFailures >= settings.failThreshold && firstReadyFailure.Some? &&
        now - firstReadyFailure.value >= FAILURE_MIN_DURATION;
      var claimFailed := claimFailures >= settings.failThreshold && firstClaimFailure.Some? &&
        now - firstClaimFailure.value >= FAILURE_MIN_DURATION;
      assert readyFailed == Failed(settings, d.ready, now) && claimFailed == Failed(settings, d.claim, now);
      if mode == Recovery {
        mode := Active;
        notice := notice.(mode := Active, changed := true);
      } else if mode == Primary {
        if !readyFailed && !claimFailed { return; }
        RequestLease(now);
        mode := Pending;
        notice := notice.(mode := Pending, changed := true, leaseRequested := true);
      } else if mode == Active || (!readyFailed && !claimFailed) || leaseRequested {
        notice := SummarizeFailure(now, notice);
      } else {
        RequestLease(now);
        notice := notice.(leaseRequested := true);
      }
    }

    method ClearFailures(source: Source, now: int)
      modifies this`lastWatcherSuccess, this`readyFailures, this`firstReadyFailure, this`claimFailures, this`firstClaimFailure
      ensures Model() == Cleared(old(Model()), source, now)
    {
      if source == Ready {
        lastWatcherSuccess, readyFailures, firstReadyFailure := Some(now), 0, None;
      } else {
        claimFailures, firstClaimFailure := 0, None;
      }
    }

    method Progress(source: Source, lag: int)
      modifies this`readySuccesses, this`watcherLag, this`claimSuccesses
      ensures Model() == Progressed(old(Model()), source, lag)
    {
      if source == Ready { readySuccesses, watcherLag := readySuccesses + 1, lag; }
      if source == Claim { claimSuccesses := claimSuccesses + 1; }
    }

    /** The primary serves again. */
    method StandDown()
      modifies this`mode, this`leaseRequested, this`suppressedFailures
      ensures Model() == old(Model()).(mode := Primary, leaseRequested := false, suppressed := 0)
    {
      mode, leaseRequested, suppressedFailures := Primary, false, 0;
    }

    /** A success while the fallback serves. */
    method Recover(source: Source, lag: int) returns (changed: bool)
      requires mode != Primary && mode != Pending
      modifies this`mode, this`readySuccesses, this`claimSuccesses, this`watcherLag
      modifies this`startedAt, this`leaseRequested, this`suppressedFailures
      ensures (Model(), changed) == Recovering(settings, old(Model()), source, lag)
    {
      if mode == Active || mode == Degraded {
        mode, readySuccesses, claimSuccesses := Recovery, 0, 0;
      }
      Progress(source, lag);
      if readySuccesses < settings.recoveryThreshold || claimSuccesses < settings.recoveryThreshold ||
         watcherLag > settings.lagThreshold {
        return false;
      }
      StandDown();
      startedAt := None;
      changed := true;
    }

    method RecordSuccess(source: Source, now: int, lag: int) returns (changed: bool)
      modifies this
      ensures (Model(), changed) == OnSuccess(settings, old(Model()), source, now, lag)
    {
      hide Recovering;
      ClearFailures(source, now);
      if mode == Pending && readyFailures == 0 && claimFailures == 0 {
        StandDown();
        return true;
      }
      if mode == Primary || mode == Pending { return false; }
      changed := Recover(source, lag);
    }

    method ActivateLease(now: int)
      modifies this`mode, this`startedAt
      ensures Model() == OnLease(old(Model()), now)
    {
      if mode != Pending || !leaseRequested { return; }
      mode, startedAt := Active, Some(now);
    }

    method SetDegraded()
      modifies this`mode
      ensures Model() == old(Model()).(mode := Degraded)
    {
      mode := Degraded;
    }
  }
}
