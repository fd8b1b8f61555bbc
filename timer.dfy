/**
 * The round countdown and the match clock of engine/timer.py.
 *
 * Qt's QElapsedTimer is modelled by the pair (clockValid, clockOrigin): starting or
 * restarting it records the current reading `now`, and reading it at `now` gives
 * `now - clockOrigin`. Every operation that reads the clock takes `now` as an argument.
 * The periodic QTimer is the flag `tickerActive`; the environment calls OnTick only while
 * it is set. Signals are appended to a ghost log.
 */
module Timers {
  import opened Common

  const RoundDurationMs := 60000
  const PauseLimitMs := 10000
  /** WARNING_THRESHOLDS, in seconds, in the order the tick checks them. */
  const WarningThresholds: seq<int> := [30, 10, 5]

  /** The signals of RoundTimer. */
  datatype TimerEvent = Tick(remainingMs: int) | WarningThreshold(seconds: int)
                      | PauseViolation(playerId: int) | RoundExpired

  /** `duration_ms or ROUND_DURATION_MS`: no duration, or zero, means the default. */
  function InitialDuration(durationMs: Option<int>): (d: int)
    ensures durationMs == None || durationMs == Some(0) ==> d == RoundDurationMs
    ensures durationMs.Some? && durationMs.value != 0 ==> d == durationMs.value
    ensures d != 0
  {
    match durationMs
    case None => RoundDurationMs
    case Some(v) => if v == 0 then RoundDurationMs else v
  }

  /** The live countdown: the duration less the time already used, never below zero. */
  function LiveRemaining(durationMs: int, startElapsedMs: int, elapsedMs: int): (r: int)
    ensures r >= 0
    ensures r == 0 || r == durationMs - (startElapsedMs + elapsedMs)
    ensures r >= durationMs - (startElapsedMs + elapsedMs)
  {
    Max(0, durationMs - (startElapsedMs + elapsedMs))
  }

  /** Resuming from a stored remaining time continues from exactly that time (clamped at zero). */
  lemma ResumeIsContinuous(durationMs: int, remainingMs: int)
    ensures LiveRemaining(durationMs, durationMs - remainingMs, 0) == Max(0, remainingMs)
  {
  }

  /** The live countdown never goes up as time passes. */
  lemma LiveRemainingMonotone(durationMs: int, startElapsedMs: int, e1: int, e2: int)
    requires e1 <= e2
    ensures LiveRemaining(durationMs, startElapsedMs, e2) <= LiveRemaining(durationMs, startElapsedMs, e1)
  {
  }

  // ---------------- warning thresholds ----------------

  predicate Distinct(s: seq<int>) {
    forall i, j :: 0 <= i < j < |s| ==> s[i] != s[j]
  }

  /** The thresholds of `ts` that a tick at `seconds` remaining fires, in order, given those already sent. */
  function NewWarnings(sent: set<int>, seconds: int, ts: seq<int>): seq<int> {
    if ts == [] then []
    else
      var t := ts[|ts| - 1];
      NewWarnings(sent, seconds, ts[..|ts| - 1]) + (if seconds <= t && t !in sent then [t] else [])
  }

  /** A threshold fires exactly when it is listed, due and not yet sent; each fires once at most. */
  lemma {:induction false} NewWarningsSpec(sent: set<int>, seconds: int, ts: seq<int>)
    requires Distinct(ts)
    ensures forall t :: t in NewWarnings(sent, seconds, ts) <==> t in ts && seconds <= t && t !in sent
    ensures Distinct(NewWarnings(sent, seconds, ts))
  {
    if ts != [] {
      var init := ts[..|ts| - 1];
      assert Distinct(init) by {
        forall i, j | 0 <= i < j < |init| ensures init[i] != init[j] {
          assert init[i] == ts[i] && init[j] == ts[j];
        }
      }
      NewWarningsSpec(sent, seconds, init);
      assert ts == init + [ts[|ts| - 1]];
      forall t | t in init ensures t != ts[|ts| - 1] {
        var i :| 0 <= i < |init| && init[i] == t;
        assert ts[i] == t;
      }
    }
  }

  /** The thresholds of `ts` due at a given number of whole seconds remaining. */
  function DueAmong(seconds: int, ts: seq<int>): (d: set<int>)
    ensures forall t :: t in d <==> t in ts && seconds <= t
  {
    set t | t in ts && seconds <= t
  }

  /** Which warning thresholds are due at a given number of whole seconds remaining. */
  function DueThresholds(seconds: int): (d: set<int>)
    ensures forall t :: t in d <==> t in WarningThresholds && seconds <= t
  {
    DueAmong(seconds, WarningThresholds)
  }

  /** The later the tick, the more thresholds are due: 30 s first, then 10 s, then 5 s. */
  lemma DueThresholdsNested(seconds: int)
    ensures seconds > 30 ==> DueThresholds(seconds) == {}
    ensures 10 < seconds <= 30 ==> DueThresholds(seconds) == {30}
    ensures 5 < seconds <= 10 ==> DueThresholds(seconds) == {30, 10}
    ensures seconds <= 5 ==> DueThresholds(seconds) == {30, 10, 5}
  {
  }

  /**
   * The threshold loop of _on_tick: every threshold due at `seconds` and not yet sent is
   * added to the sent set and fired, in the listed order.
   */
  method FireWarnings(sent: set<int>, seconds: int) returns (sent': set<int>, fired: seq<int>)
    ensures sent' == sent + DueThresholds(seconds)
    ensures fired == NewWarnings(sent, seconds, WarningThresholds)
    ensures Distinct(fired) && forall t :: t in fired <==> t in DueThresholds(seconds) && t !in sent
  {
    sent', fired := sent, [];
    for i := 0 to |WarningThresholds|
      invariant sent' == sent + DueAmong(seconds, WarningThresholds[..i])
      invariant fired == NewWarnings(sent, seconds, WarningThresholds[..i])
    {
      var t := WarningThresholds[i];
      assert WarningThresholds[..i + 1] == WarningThresholds[..i] + [t];
      assert WarningThresholds[..i + 1][..i] == WarningThresholds[..i];
      assert t !in sent' <==> t !in sent by {
        assert t !in WarningThresholds[..i];
      }
      if seconds <= t && t !in sent' {
        sent' := sent' + {t};
        fired := fired + [t];
      }
    }
    assert WarningThresholds[..|WarningThresholds|] == WarningThresholds;
    NewWarningsSpec(sent, seconds, WarningThresholds);
  }

  // ---------------- RoundTimer ----------------

  class RoundTimer {
    var durationMs: int
    /** The stored remaining time, as of the last stop, pause, tick or correction. */
    var remainingMs: int
    var isRunningFlag: bool
    var isPausedFlag: bool
    /** Whether the 100 ms QTimer is active. */
    var tickerActive: bool
    var clockValid: bool
    var clockOrigin: int
    var startElapsedMs: int
    var lastBoutTimeMs: int
    var pauseWarningSent: bool
    var warningsSent: set<int>
    ghost var events: seq<TimerEvent>
    /** The warnings fired since the last start or reset, in order. */
    ghost var warningsFired: seq<int>
    /** Pause violations fired since the last start, reset or bout activity. */
    ghost var violationsFired: nat
    /** Expiries fired since the last start or reset. */
    ghost var expiriesFired: nat

    /**
     * The ticker runs exactly while running and not paused; a running timer has a
     * started clock; each warning threshold has fired at most once since the last start
     * or reset, a pause violation at most once since the last bout activity, and the
     * round has expired at most once, and not at all while still running.
     */
    ghost predicate Valid()
      reads this
    {
      (tickerActive <==> isRunningFlag && !isPausedFlag) &&
      (isRunningFlag ==> clockValid) &&
      Distinct(warningsFired) &&
      (forall t :: t in warningsSent <==> t in warningsFired) &&
      (forall t :: t in warningsSent ==> t in WarningThresholds) &&
      violationsFired == (if pauseWarningSent then 1 else 0) &&
      expiriesFired <= 1 && (isRunningFlag ==> expiriesFired == 0)
    }

    /** The is_running property. */
    function IsRunning(): (b: bool)
      reads this
      ensures b <==> isRunningFlag && !isPausedFlag
    {
      isRunningFlag && !isPausedFlag
    }

    /** The remaining_ms property: live from the clock while running, the stored value otherwise. */
    function RemainingAt(now: int): (r: int)
      reads this
      ensures IsRunning() ==> r == LiveRemaining(durationMs, startElapsedMs, now - clockOrigin) && r >= 0
      ensures !IsRunning() ==> r == remainingMs
    {
      if isRunningFlag && !isPausedFlag then LiveRemaining(durationMs, startElapsedMs, now - clockOrigin)
      else remainingMs
    }

    /** The elapsed_ms property. */
    function ElapsedAt(now: int): (e: int)
      reads this
      ensures e + RemainingAt(now) == durationMs
    {
      durationMs - RemainingAt(now)
    }

    /** _calc_remaining: it reads the clock whenever the clock was ever started, even while paused. */
    function CalcRemaining(now: int): (r: int)
      reads this
      ensures clockValid ==> r == LiveRemaining(durationMs, startElapsedMs, now - clockOrigin)
      ensures !clockValid ==> r == remainingMs
    {
      if !clockValid then remainingMs else LiveRemaining(durationMs, startElapsedMs, now - clockOrigin)
    }

    constructor (durationMs: Option<int>)
      ensures Valid()
      ensures this.durationMs == InitialDuration(durationMs) && remainingMs == this.durationMs
      ensures !isRunningFlag && !isPausedFlag && !tickerActive && !clockValid
      ensures startElapsedMs == 0 && lastBoutTimeMs == 0 && !pauseWarningSent && warningsSent == {}
      ensures events == []
    {
      this.durationMs := InitialDuration(durationMs);
      remainingMs := InitialDuration(durationMs);
      isRunningFlag, isPausedFlag, tickerActive := false, false, false;
      clockValid, clockOrigin := false, 0;
      startElapsedMs, lastBoutTimeMs := 0, 0;
      pauseWarningSent, warningsSent := false, {};
      events, warningsFired, violationsFired, expiriesFired := [], [], 0, 0;
    }

    /** What start and reset both re-arm: the full duration stored, the pause rule and every warning. */
    method Rearm()
      requires Valid()
      modifies this
      ensures Valid()
      ensures remainingMs == durationMs && startElapsedMs == 0 && lastBoutTimeMs == 0
      ensures !pauseWarningSent && warningsSent == {}
      ensures warningsFired == [] && violationsFired == 0 && expiriesFired == 0
      ensures unchanged(this`durationMs, this`isRunningFlag, this`isPausedFlag, this`tickerActive)
      ensures unchanged(this`clockValid, this`clockOrigin, this`events)
    {
      remainingMs, startElapsedMs, lastBoutTimeMs := durationMs, 0, 0;
      pauseWarningSent, warningsSent := false, {};
      warningsFired, violationsFired, expiriesFired := [], 0, 0;
    }

    /** start: a full countdown from `now`, every warning re-armed; emits the initial tick. */
    method Start(now: int)
      requires Valid()
      modifies this
      ensures Valid()
      ensures remainingMs == durationMs == old(durationMs) && startElapsedMs == 0 && lastBoutTimeMs == 0
      ensures !pauseWarningSent && warningsSent == {} && IsRunning() && tickerActive
      ensures clockValid && clockOrigin == now
      ensures RemainingAt(now) == Max(0, durationMs)
      ensures events == old(events) + [Tick(durationMs)]
    {
      Rearm();
      isRunningFlag, isPausedFlag := true, false;
      clockValid, clockOrigin := true, now;
      tickerActive := true;
      events := events + [Tick(remainingMs)];
    }

    /** stop: not running, not paused, the remaining time as _calc_remaining gives it. */
    method Stop(now: int)
      requires Valid()
      modifies this
      ensures Valid()
      ensures !isRunningFlag && !isPausedFlag && !tickerActive
      ensures remainingMs == old(CalcRemaining(now))
      ensures durationMs == old(durationMs) && startElapsedMs == old(startElapsedMs)
      ensures clockValid == old(clockValid) && clockOrigin == old(clockOrigin)
      ensures lastBoutTimeMs == old(lastBoutTimeMs) && pauseWarningSent == old(pauseWarningSent)
      ensures warningsSent == old(warningsSent) && events == old(events)
    {
      tickerActive := false;
      isRunningFlag, isPausedFlag := false, false;
      remainingMs := CalcRemaining(now);
    }

    /** pause: only when running and not paused; freezes the remaining time it showed. */
    method Pause(now: int)
      requires Valid()
      modifies this
      ensures Valid()
      ensures old(IsRunning()) ==> isPausedFlag && isRunningFlag && !tickerActive &&
                                   remainingMs == old(RemainingAt(now))
      ensures old(IsRunning()) ==> forall t :: RemainingAt(t) == old(RemainingAt(now))
      ensures !old(IsRunning()) ==> remainingMs == old(remainingMs) && isPausedFlag == old(isPausedFlag) &&
                                    tickerActive == old(tickerActive)
      ensures isRunningFlag == old(isRunningFlag) && durationMs == old(durationMs)
      ensures startElapsedMs == old(startElapsedMs) && clockOrigin == old(clockOrigin) && clockValid == old(clockValid)
      ensures lastBoutTimeMs == old(lastBoutTimeMs) && pauseWarningSent == old(pauseWarningSent)
      ensures warningsSent == old(warningsSent) && events == old(events)
    {
      if isRunningFlag && !isPausedFlag {
        tickerActive := false;
        remainingMs := CalcRemaining(now);
        isPausedFlag := true;
      }
    }

    /** resume: only when running and paused; the countdown restarts from the frozen time. */
    method Resume(now: int)
      requires Valid()
      modifies this
      ensures Valid()
      ensures old(isRunningFlag && isPausedFlag) ==>
        IsRunning() && tickerActive && startElapsedMs == durationMs - remainingMs && clockOrigin == now &&
        RemainingAt(now) == Max(0, old(remainingMs))
      ensures !old(isRunningFlag && isPausedFlag) ==>
        isPausedFlag == old(isPausedFlag) && tickerActive == old(tickerActive) &&
        startElapsedMs == old(startElapsedMs) && clockOrigin == old(clockOrigin)
      ensures isRunningFlag == old(isRunningFlag) && remainingMs == old(remainingMs) && durationMs == old(durationMs)
      ensures clockValid == old(clockValid) && lastBoutTimeMs == old(lastBoutTimeMs)
      ensures pauseWarningSent == old(pauseWarningSent) && warningsSent == old(warningsSent) && events == old(events)
    {
      if isRunningFlag && isPausedFlag {
        startElapsedMs := durationMs - remainingMs;
        clockOrigin := now;
        isPausedFlag := false;
        tickerActive := true;
      }
    }

    /** reset: stop, optionally a new duration (zero included), the full time stored, warnings re-armed. */
    method Reset(durationMs: Option<int>, now: int)
      requires Valid()
      modifies this
      ensures Valid()
      ensures !isRunningFlag && !isPausedFlag && !tickerActive
      ensures this.durationMs == (if durationMs.Some? then durationMs.value else old(this.durationMs))
      ensures remainingMs == this.durationMs && startElapsedMs == 0 && lastBoutTimeMs == 0
      ensures !pauseWarningSent && warningsSent == {} && events == old(events)
      ensures clockValid == old(clockValid) && clockOrigin == old(clockOrigin)
    {
      Stop(now);
      if durationMs.Some? {
        this.durationMs := durationMs.value;
      }
      Rearm();
    }

    /** notify_bout_activity: the pause rule restarts from the current elapsed time. */
    method NotifyBoutActivity(now: int)
      requires Valid()
      modifies this
      ensures Valid()
      ensures lastBoutTimeMs == old(ElapsedAt(now)) && !pauseWarningSent
      ensures remainingMs == old(remainingMs) && durationMs == old(durationMs) && startElapsedMs == old(startElapsedMs)
      ensures isRunningFlag == old(isRunningFlag) && isPausedFlag == old(isPausedFlag) && tickerActive == old(tickerActive)
      ensures clockValid == old(clockValid) && clockOrigin == old(clockOrigin)
      ensures warningsSent == old(warningsSent) && events == old(events)
    {
      lastBoutTimeMs := ElapsedAt(now);
      pauseWarningSent := false;
      violationsFired := 0;
    }

    /** _on_tick: store the clock's remaining time, fire due warnings, the pause rule, then expiry. */
    method OnTick(now: int)
      requires Valid() && tickerActive
      modifies this
      ensures Valid()
      ensures remainingMs == old(CalcRemaining(now)) && remainingMs >= 0
      ensures warningsSent == old(warningsSent) + DueThresholds(remainingMs / 1000)
      ensures pauseWarningSent <==>
        old(pauseWarningSent) || (durationMs - remainingMs) - lastBoutTimeMs >= PauseLimitMs
      ensures (isRunningFlag <==> remainingMs > 0) && (tickerActive <==> remainingMs > 0)
      ensures durationMs == old(durationMs) && startElapsedMs == old(startElapsedMs) && lastBoutTimeMs == old(lastBoutTimeMs)
      ensures isPausedFlag == old(isPausedFlag) && clockValid == old(clockValid) && clockOrigin == old(clockOrigin)
      ensures events == old(events) + [Tick(remainingMs)]
                      + WarningEvents(NewWarnings(old(warningsSent), remainingMs / 1000, WarningThresholds))
                      + (if old(pauseWarningSent) || (durationMs - remainingMs) - lastBoutTimeMs < PauseLimitMs
                         then [] else [PauseViolation(-1)])
                      + (if remainingMs <= 0 then [RoundExpired] else [])
    {
      var remaining := CalcRemaining(now);
      remainingMs := remaining;
      var sent, fired := FireWarnings(warningsSent, remaining / 1000);
      FiredStaysDistinct(warningsFired, fired, warningsSent);
      warningsSent := sent;
      warningsFired := warningsFired + fired;
      events := events + [Tick(remaining)] + WarningEvents(fired);
      CheckPauseRule(now);
      if remaining <= 0 {
        Expire();
      }
    }

    /** The pause-rule part of _on_tick: fire once when no bout activity for PAUSE_LIMIT_MS. */
    method CheckPauseRule(now: int)
      requires Valid() && IsRunning()
      modifies this
      ensures Valid()
      ensures var since := old(ElapsedAt(now)) - lastBoutTimeMs;
        pauseWarningSent == (old(pauseWarningSent) || since >= PauseLimitMs) &&
        events == old(events) + (if !old(pauseWarningSent) && since >= PauseLimitMs then [PauseViolation(-1)] else [])
      ensures remainingMs == old(remainingMs) && durationMs == old(durationMs) && startElapsedMs == old(startElapsedMs)
      ensures isRunningFlag == old(isRunningFlag) && isPausedFlag == old(isPausedFlag) && tickerActive == old(tickerActive)
      ensures clockValid == old(clockValid) && clockOrigin == old(clockOrigin)
      ensures lastBoutTimeMs == old(lastBoutTimeMs) && warningsSent == old(warningsSent)
    {
      var sinceLastBout := ElapsedAt(now) - lastBoutTimeMs;
      if sinceLastBout >= PauseLimitMs && !pauseWarningSent {
        pauseWarningSent := true;
        violationsFired := 1;
        events := events + [PauseViolation(-1)];
      }
    }

    /** The expiry of _on_tick and subtract_time: ticker and running stopped, round_expired fired. */
    method Expire()
      requires Valid() && isRunningFlag
      modifies this
      ensures Valid()
      ensures !isRunningFlag && !tickerActive && events == old(events) + [RoundExpired]
      ensures remainingMs == old(remainingMs) && durationMs == old(durationMs) && startElapsedMs == old(startElapsedMs)
      ensures isPausedFlag == old(isPausedFlag) && clockValid == old(clockValid) && clockOrigin == old(clockOrigin)
      ensures lastBoutTimeMs == old(lastBoutTimeMs) && pauseWarningSent == old(pauseWarningSent)
      ensures warningsSent == old(warningsSent)
    {
      tickerActive := false;
      isRunningFlag := false;
      expiriesFired := expiriesFired + 1;
      events := events + [RoundExpired];
    }

    /** add_time: the stored time grows, capped at twice the duration; a running countdown gains too. */
    method AddTime(ms: int)
      requires Valid()
      modifies this
      ensures Valid()
      ensures remainingMs == Min(old(remainingMs) + ms, old(durationMs) * 2)
      ensures old(IsRunning()) ==> startElapsedMs == Max(0, old(startElapsedMs) - ms)
      ensures !old(IsRunning()) ==> startElapsedMs == old(startElapsedMs)
      ensures durationMs == old(durationMs) && isRunningFlag == old(isRunningFlag) && isPausedFlag == old(isPausedFlag)
      ensures tickerActive == old(tickerActive) && clockValid == old(clockValid) && clockOrigin == old(clockOrigin)
      ensures lastBoutTimeMs == old(lastBoutTimeMs) && pauseWarningSent == old(pauseWarningSent)
      ensures warningsSent == old(warningsSent) && events == old(events)
    {
      remainingMs := Min(remainingMs + ms, durationMs * 2);
      if isRunningFlag && !isPausedFlag {
        startElapsedMs := Max(0, startElapsedMs - ms);
      }
    }

    /**
     * subtract_time: the stored time shrinks, floored at zero; reaching zero while running
     * (paused or not) expires the round. The clock offset is untouched, so a live
     * countdown that does not expire reads as before.
     */
    method SubtractTime(ms: int)
      requires Valid()
      modifies this
      ensures Valid()
      ensures remainingMs == Max(0, old(remainingMs) - ms)
      ensures old(isRunningFlag) && remainingMs == 0 ==>
        !isRunningFlag && !tickerActive && events == old(events) + [RoundExpired]
      ensures !(old(isRunningFlag) && remainingMs == 0) ==>
        isRunningFlag == old(isRunningFlag) && tickerActive == old(tickerActive) && events == old(events)
      ensures old(IsRunning()) && remainingMs != 0 ==> forall t :: RemainingAt(t) == old(RemainingAt(t))
      ensures durationMs == old(durationMs) && startElapsedMs == old(startElapsedMs) && isPausedFlag == old(isPausedFlag)
      ensures clockValid == old(clockValid) && clockOrigin == old(clockOrigin)
      ensures lastBoutTimeMs == old(lastBoutTimeMs) && pauseWarningSent == old(pauseWarningSent)
      ensures warningsSent == old(warningsSent)
    {
      remainingMs := Max(0, remainingMs - ms);
      if remainingMs == 0 && isRunningFlag {
        Expire();
      }
    }
  }

  /** The warning_threshold signals for a list of thresholds. */
  function WarningEvents(ts: seq<int>): (evs: seq<TimerEvent>)
    ensures |evs| == |ts|
    ensures forall i :: 0 <= i < |ts| ==> evs[i] == WarningThreshold(ts[i])
  {
    if ts == [] then [] else [WarningThreshold(ts[0])] + WarningEvents(ts[1..])
  }

  lemma {:induction false} WarningEventsAppend(a: seq<int>, b: seq<int>)
    ensures WarningEvents(a + b) == WarningEvents(a) + WarningEvents(b)
  {
    var l, r := WarningEvents(a + b), WarningEvents(a) + WarningEvents(b);
    assert |l| == |r|;
    forall i | 0 <= i < |l| ensures l[i] == r[i] {
      if i < |a| { assert (a + b)[i] == a[i]; } else { assert (a + b)[i] == b[i - |a|]; }
    }
  }

  /** Appending only unsent thresholds, each once, keeps the fired list free of repeats. */
  lemma FiredStaysDistinct(fired: seq<int>, extra: seq<int>, sent: set<int>)
    requires Distinct(fired) && Distinct(extra)
    requires forall t :: t in sent <==> t in fired
    requires forall t :: t in extra ==> t !in sent
    ensures Distinct(fired + extra)
  {
    var s := fired + extra;
    forall i, j | 0 <= i < j < |s| ensures s[i] != s[j] {
      if j < |fired| {
        assert s[i] == fired[i] && s[j] == fired[j];
      } else if i >= |fired| {
        assert s[i] == extra[i - |fired|] && s[j] == extra[j - |fired|];
      } else {
        assert s[i] == fired[i] && s[j] == extra[j - |fired|];
        assert s[i] in fired;
      }
    }
  }

  /**
   * stop on a paused timer reads the clock, which ran on during the pause. A round of
   * `durationMs` is started at `startAt`, paused at `pausedAt` and stopped at `stoppedAt`:
   * the pause froze `frozen` on the display, yet stop stores `stored`, which is the frozen
   * time less the whole paused interval. Paused after 10 s of a 60 s round and stopped 20 s
   * later, the timer stores 30 s rather than the 50 s it showed.
   */
  method StopWhilePausedCountsThePause(durationMs: int, startAt: int, pausedAt: int, stoppedAt: int)
    returns (frozen: int, stored: int)
    requires durationMs != 0 && startAt <= pausedAt <= stoppedAt
    ensures frozen == Max(0, durationMs - (pausedAt - startAt))
    ensures stored == Max(0, frozen - (stoppedAt - pausedAt))
    ensures stoppedAt > pausedAt && frozen > 0 ==> stored < frozen
  {
    var t := new RoundTimer(Some(durationMs));
    t.Start(startAt);
    t.Pause(pausedAt);
    frozen := t.RemainingAt(stoppedAt);
    t.Stop(stoppedAt);
    stored := t.remainingMs;
  }

  // ---------------- MatchClock ----------------

  class MatchClock {
    var clockValid: bool
    var clockOrigin: int
    var totalPausedMs: int
    var pauseStartMs: int
    var isPaused: bool
    var tickerActive: bool

    /** The elapsed_ms property: the clock reading less all paused time (the current pause included). */
    function ElapsedAt(now: int): (e: int)
      reads this
      ensures !clockValid ==> e == 0
      ensures clockValid && !isPaused ==> e == (now - clockOrigin) - totalPausedMs
      ensures clockValid && isPaused ==> e == pauseStartMs - totalPausedMs
    {
      if !clockValid then 0
      else
        var pausedTime := totalPausedMs + (if isPaused then (now - clockOrigin) - pauseStartMs else 0);
        (now - clockOrigin) - pausedTime
    }

    constructor ()
      ensures !clockValid && !isPaused && !tickerActive && totalPausedMs == 0 && pauseStartMs == 0
      ensures forall now :: ElapsedAt(now) == 0
    {
      clockValid, clockOrigin := false, 0;
      totalPausedMs, pauseStartMs := 0, 0;
      isPaused, tickerActive := false, false;
    }

    /** start: the clock restarts at `now` with nothing paused. */
    method Start(now: int)
      modifies this
      ensures clockValid && clockOrigin == now && totalPausedMs == 0 && !isPaused && tickerActive
      ensures pauseStartMs == old(pauseStartMs)
      ensures ElapsedAt(now) == 0
    {
      clockValid, clockOrigin := true, now;
      totalPausedMs := 0;
      isPaused := false;
      tickerActive := true;
    }

    /** stop: only the once-a-second ticker stops; the clock itself keeps counting. */
    method Stop()
      modifies this
      ensures !tickerActive
      ensures clockValid == old(clockValid) && clockOrigin == old(clockOrigin) && totalPausedMs == old(totalPausedMs)
      ensures pauseStartMs == old(pauseStartMs) && isPaused == old(isPaused)
      ensures forall now :: ElapsedAt(now) == old(ElapsedAt(now))
    {
      tickerActive := false;
    }

    /** pause: a second pause is a no-op; the elapsed time is frozen at its value at `now`. */
    method Pause(now: int)
      modifies this
      ensures isPaused
      ensures !old(isPaused) ==> pauseStartMs == now - clockOrigin
      ensures old(isPaused) ==> pauseStartMs == old(pauseStartMs)
      ensures clockValid == old(clockValid) && clockOrigin == old(clockOrigin) && totalPausedMs == old(totalPausedMs)
      ensures tickerActive == old(tickerActive)
      ensures ElapsedAt(now) == old(ElapsedAt(now))
      ensures forall t :: ElapsedAt(t) == ElapsedAt(now)
    {
      if !isPaused {
        pauseStartMs := now - clockOrigin;
        isPaused := true;
      }
    }

    /** resume: a resume when not paused is a no-op; the paused interval joins the total, continuously. */
    method Resume(now: int)
      modifies this
      ensures !isPaused
      ensures old(isPaused) ==> totalPausedMs == old(totalPausedMs) + (now - clockOrigin) - pauseStartMs
      ensures !old(isPaused) ==> totalPausedMs == old(totalPausedMs)
      ensures clockValid == old(clockValid) && clockOrigin == old(clockOrigin) && pauseStartMs == old(pauseStartMs)
      ensures tickerActive == old(tickerActive)
      ensures ElapsedAt(now) == old(ElapsedAt(now))
    {
      if isPaused {
        totalPausedMs := totalPausedMs + (now - clockOrigin) - pauseStartMs;
        isPaused := false;
      }
    }
  }
}
