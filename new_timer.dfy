/**
 * The `NewTimer` screen. Its whole state is one `TimerState` record that the
 * handlers replace through functional updaters; here each updater is a pure
 * function, and the `NewTimer` class applies them and performs the
 * analytics dispatches that go with them. The interval is not modelled:
 * each firing of it is one call of `Tick`, which does nothing unless an
 * interval would be armed (running and not paused).
 *
 * The durations are parameters: the completion updater reads the settings
 * captured when the interval was armed, and reset reads those of the
 * current render.
 */
module NewTimerEngine {
  import opened Strings
  import Utils
  import AnalyticsSlice

  datatype TimerState = TimerState(
    timeLeft: int,
    isRunning: bool,
    isPaused: bool,
    isBreak: bool,
    sessionCount: int,
    totalSessions: int)

  /** The record the screen starts with: a full work phase, stopped, nothing counted. */
  function Initial(workMinutes: int): (r: TimerState)
    ensures r.timeLeft == workMinutes * 60 && !r.isBreak && !Ticking(r) && !r.isRunning && !r.isPaused
    ensures r.sessionCount == 0 && r.totalSessions == 0
    ensures workMinutes >= 0 ==> Valid(r)
  {
    TimerState(workMinutes * 60, false, false, false, 0, 0)
  }

  /** The full length in seconds of the work phase or the break phase. */
  function PhaseLength(isBreak: bool, workMinutes: int, breakMinutes: int): int {
    if isBreak then breakMinutes * 60 else workMinutes * 60
  }

  /** An interval is armed, so ticks reach the updater. */
  predicate Ticking(s: TimerState) {
    s.isRunning && !s.isPaused
  }

  /** The counters agree with each other and the countdown is not negative. */
  predicate Valid(s: TimerState) {
    0 <= s.sessionCount <= s.totalSessions && s.timeLeft >= 0
  }

  /** `handleSessionComplete`'s updater: switch phase, load its duration, stop. */
  function Completed(prev: TimerState, workMinutes: int, breakMinutes: int): (r: TimerState)
    ensures r.isBreak == !prev.isBreak && r.timeLeft == PhaseLength(!prev.isBreak, workMinutes, breakMinutes)
    ensures !r.isRunning && !r.isPaused && !Ticking(r)
    ensures r.sessionCount == prev.sessionCount + (if prev.isBreak then 0 else 1)
    ensures r.totalSessions == prev.totalSessions + 1
  {
    prev.(isBreak := !prev.isBreak,
          timeLeft := PhaseLength(!prev.isBreak, workMinutes, breakMinutes),
          isRunning := false,
          isPaused := false,
          sessionCount := if !prev.isBreak then prev.sessionCount + 1 else prev.sessionCount,
          totalSessions := prev.totalSessions + 1)
  }

  /**
   * One firing of the interval: at or below zero it completes the session
   * (one tick after the countdown shows 0), otherwise it counts down by one.
   */
  function AfterTick(prev: TimerState, workMinutes: int, breakMinutes: int): (r: TimerState)
    ensures prev.timeLeft >= 0 && workMinutes >= 0 && breakMinutes >= 0 ==> r.timeLeft >= 0
    ensures Valid(prev) && workMinutes >= 0 && breakMinutes >= 0 ==> Valid(r)
    ensures r.isBreak != prev.isBreak <==> Ticking(prev) && prev.timeLeft <= 0
    ensures r.isBreak == prev.isBreak ==> r.timeLeft <= prev.timeLeft && r.isRunning == prev.isRunning
    ensures Ticking(prev) && prev.timeLeft <= 0 ==> r == Completed(prev, workMinutes, breakMinutes)
    ensures Ticking(prev) && prev.timeLeft > 0 ==> r == prev.(timeLeft := prev.timeLeft - 1)
    ensures !Ticking(prev) ==> r == prev
  {
    if !Ticking(prev) then prev
    else if prev.timeLeft <= 0 then Completed(prev, workMinutes, breakMinutes)
    else prev.(timeLeft := prev.timeLeft - 1)
  }

  function AfterStart(prev: TimerState): TimerState {
    prev.(isRunning := true, isPaused := false)
  }

  function AfterPause(prev: TimerState): TimerState {
    prev.(isPaused := true)
  }

  function AfterResume(prev: TimerState): TimerState {
    prev.(isPaused := false)
  }

  function AfterReset(prev: TimerState, workMinutes: int, breakMinutes: int): TimerState {
    prev.(timeLeft := PhaseLength(prev.isBreak, workMinutes, breakMinutes), isRunning := false, isPaused := false)
  }

  function AfterStop(prev: TimerState): TimerState {
    prev.(isRunning := false, isPaused := false, sessionCount := 0, totalSessions := 0)
  }

  /** `n` firings of the interval in a row. */
  function Ticks(s: TimerState, n: nat, workMinutes: int, breakMinutes: int): TimerState
    decreases n
  {
    if n == 0 then s else Ticks(AfterTick(s, workMinutes, breakMinutes), n - 1, workMinutes, breakMinutes)
  }

  /** While the countdown has not reached zero, each tick takes exactly one second off and nothing else. */
  lemma {:induction false} TicksCountDown(s: TimerState, k: nat, workMinutes: int, breakMinutes: int)
    requires Ticking(s) && k <= s.timeLeft
    ensures Ticks(s, k, workMinutes, breakMinutes) == s.(timeLeft := s.timeLeft - k)
    decreases k
  {
    if k > 0 {
      var next := AfterTick(s, workMinutes, breakMinutes);
      assert next == s.(timeLeft := s.timeLeft - 1);
      TicksCountDown(next, k - 1, workMinutes, breakMinutes);
    }
  }

  /**
   * From `d >= 0` seconds left, `d` ticks show 0 and the next one completes
   * the session; after that the timer is stopped and further ticks change nothing.
   */
  lemma CompletionAfterCountdown(s: TimerState, extra: nat, workMinutes: int, breakMinutes: int)
    requires Ticking(s) && s.timeLeft >= 0
    ensures Ticks(s, s.timeLeft + 1, workMinutes, breakMinutes) == Completed(s.(timeLeft := 0), workMinutes, breakMinutes)
    ensures Ticks(s, s.timeLeft + 1 + extra, workMinutes, breakMinutes) == Completed(s.(timeLeft := 0), workMinutes, breakMinutes)
  {
    var zero := s.(timeLeft := 0);
    TicksCountDown(s, s.timeLeft, workMinutes, breakMinutes);
    TicksAppend(s, s.timeLeft, 1, workMinutes, breakMinutes);
    TicksAppend(s, s.timeLeft + 1, extra, workMinutes, breakMinutes);
    TicksIdle(Completed(zero, workMinutes, breakMinutes), extra, workMinutes, breakMinutes);
  }

  lemma {:induction false} TicksAppend(s: TimerState, m: nat, n: nat, workMinutes: int, breakMinutes: int)
    ensures Ticks(s, m + n, workMinutes, breakMinutes)
         == Ticks(Ticks(s, m, workMinutes, breakMinutes), n, workMinutes, breakMinutes)
    decreases m
  {
    if m > 0 {
      TicksAppend(AfterTick(s, workMinutes, breakMinutes), m - 1, n, workMinutes, breakMinutes);
    }
  }

  /** Without an armed interval, ticks change nothing. */
  lemma {:induction false} TicksIdle(s: TimerState, n: nat, workMinutes: int, breakMinutes: int)
    requires !Ticking(s)
    ensures Ticks(s, n, workMinutes, breakMinutes) == s
    decreases n
  {
    if n > 0 {
      TicksIdle(AfterTick(s, workMinutes, breakMinutes), n - 1, workMinutes, breakMinutes);
    }
  }

  /**
   * A work phase followed by a break (or the other way round) comes back to
   * the first phase at its full length, counts two phases and one work session.
   */
  lemma CompletedTwice(s: TimerState, workMinutes: int, breakMinutes: int)
    ensures var r := Completed(Completed(s, workMinutes, breakMinutes), workMinutes, breakMinutes);
            r.isBreak == s.isBreak && r.timeLeft == PhaseLength(s.isBreak, workMinutes, breakMinutes)
            && r.totalSessions == s.totalSessions + 2 && r.sessionCount == s.sessionCount + 1
            && !r.isRunning && !r.isPaused
  {
  }

  /** Reset keeps the phase and the counters and restarts the phase; stop keeps the countdown and the phase. */
  lemma ResetAndStopFrames(s: TimerState, workMinutes: int, breakMinutes: int)
    ensures var r := AfterReset(s, workMinutes, breakMinutes);
            r.isBreak == s.isBreak && r.sessionCount == s.sessionCount && r.totalSessions == s.totalSessions
            && r.timeLeft == PhaseLength(s.isBreak, workMinutes, breakMinutes) && !r.isRunning && !r.isPaused
    ensures var r := AfterStop(s);
            r.timeLeft == s.timeLeft && r.isBreak == s.isBreak && r.sessionCount == 0 && r.totalSessions == 0
            && !r.isRunning && !r.isPaused
  {
  }

  /** Pause and resume touch only the paused flag, and each is idempotent. */
  lemma PauseResume(s: TimerState)
    ensures AfterPause(AfterPause(s)) == AfterPause(s)
    ensures AfterResume(AfterResume(s)) == AfterResume(s)
    ensures AfterResume(AfterPause(s)) == s.(isPaused := false)
    ensures AfterPause(s).(isPaused := s.isPaused) == s
  {
  }

  /** Every updater keeps a valid record valid, given non-negative durations. */
  lemma ValidPreserved(s: TimerState, workMinutes: int, breakMinutes: int)
    requires Valid(s) && workMinutes >= 0 && breakMinutes >= 0
    ensures Valid(AfterTick(s, workMinutes, breakMinutes))
    ensures Valid(AfterStart(s)) && Valid(AfterPause(s)) && Valid(AfterResume(s))
    ensures Valid(AfterReset(s, workMinutes, breakMinutes)) && Valid(AfterStop(s))
  {
  }

  /** `padStart(2, '0')`: a string shorter than two characters gets zeros in front. */
  function PadStart2(s: string): (r: string)
    ensures |r| == if |s| < 2 then 2 else |s|
    ensures r[|r| - |s|..] == s
    ensures forall i :: 0 <= i < |r| - |s| ==> r[i] == '0'
  {
    if |s| == 0 then "00" else if |s| == 1 then "0" + s else s
  }

  /** The screen's own `formatTime`: minutes, a colon, and the remainder padded to two characters. */
  function FormatTime(seconds: int): string {
    IntToString(seconds / 60) + ":" + PadStart2(IntToString(Utils.JsRem(seconds, 60)))
  }

  /** On every count the timer can show, it agrees with the shared `formatTime`. */
  lemma FormatTimeAgrees(seconds: int)
    requires seconds >= 0
    ensures FormatTime(seconds) == Utils.FormatTime(seconds)
  {
    var rest := seconds % 60;
    if rest >= 10 {
      assert |IntToString(rest)| >= 2;
    }
  }

  /** The remainders padStart leaves alone and `'0'` prefixing does not: `-1` is printed two ways. */
  lemma FormatTimeNegative()
    ensures FormatTime(-1) == "-1:-1"
    ensures Utils.FormatTime(-1) == "-1:0-1"
  {
    assert NatToString(1) == "1";
    assert IntToString(-1) == "-1";
    assert Utils.JsRem(-1, 60) == -1 && -1 / 60 == -1;
    assert PadStart2("-1") == "-1";
  }

  class NewTimer {
    var timer: TimerState
    const analytics: AnalyticsSlice.AnalyticsStore

    constructor (workMinutes: int, analytics: AnalyticsSlice.AnalyticsStore)
      ensures timer == Initial(workMinutes) && this.analytics == analytics
    {
      timer := Initial(workMinutes);
      this.analytics := analytics;
    }

    /**
     * One firing of the interval. A countdown tick credits one second, as
     * 1/60 minute, to focus time in work and to break time in a break; the
     * completing tick counts a completed session after a work phase only.
     */
    method Tick(workMinutes: int, breakMinutes: int)
      modifies this, analytics
      ensures timer == AfterTick(old(timer), workMinutes, breakMinutes)
      ensures var counting := Ticking(old(timer)) && old(timer).timeLeft > 0;
              analytics.totalFocusTime
                == old(analytics.totalFocusTime) + (if counting && !old(timer).isBreak then 1.0 / 60.0 else 0.0)
              && analytics.breakTime
                == old(analytics.breakTime) + (if counting && old(timer).isBreak then 1.0 / 60.0 else 0.0)
      ensures analytics.completedSessions == old(analytics.completedSessions)
                + (if Ticking(old(timer)) && old(timer).timeLeft <= 0 && !old(timer).isBreak then 1 else 0)
      ensures analytics.incompleteSessions == old(analytics.incompleteSessions)
      ensures old(analytics.Valid()) ==> analytics.Valid()
    {
      if !Ticking(timer) {
        return;
      }
      if timer.timeLeft <= 0 {
        if !timer.isBreak {
          analytics.IncrementCompletedSessions(1);
        }
        timer := Completed(timer, workMinutes, breakMinutes);
      } else {
        if !timer.isBreak {
          analytics.IncrementFocusTime(1.0 / 60.0);
        } else {
          analytics.IncrementBreakTime(1.0 / 60.0);
        }
        timer := timer.(timeLeft := timer.timeLeft - 1);
      }
    }

    method Start()
      modifies this
      ensures timer == AfterStart(old(timer))
    {
      timer := AfterStart(timer);
    }

    method Pause()
      modifies this
      ensures timer == AfterPause(old(timer))
    {
      timer := AfterPause(timer);
    }

    method Resume()
      modifies this
      ensures timer == AfterResume(old(timer))
    {
      timer := AfterResume(timer);
    }

    /** Reloads the current phase; a running session counts as incomplete. */
    method Reset(workMinutes: int, breakMinutes: int)
      modifies this, analytics
      ensures timer == AfterReset(old(timer), workMinutes, breakMinutes)
      ensures analytics.incompleteSessions == old(analytics.incompleteSessions) + (if old(timer).isRunning then 1 else 0)
      ensures analytics.completedSessions == old(analytics.completedSessions)
      ensures analytics.totalFocusTime == old(analytics.totalFocusTime) && analytics.breakTime == old(analytics.breakTime)
      ensures old(analytics.Valid()) ==> analytics.Valid()
    {
      if timer.isRunning {
        analytics.IncrementIncompleteSessions();
      }
      timer := AfterReset(timer, workMinutes, breakMinutes);
    }

    /** Stops and clears both session counters; a running session counts as incomplete. */
    method Stop()
      modifies this, analytics
      ensures timer == AfterStop(old(timer))
      ensures analytics.incompleteSessions == old(analytics.incompleteSessions) + (if old(timer).isRunning then 1 else 0)
      ensures analytics.completedSessions == old(analytics.completedSessions)
      ensures analytics.totalFocusTime == old(analytics.totalFocusTime) && analytics.breakTime == old(analytics.breakTime)
      ensures old(analytics.Valid()) ==> analytics.Valid()
    {
      if timer.isRunning {
        analytics.IncrementIncompleteSessions();
      }
      timer := AfterStop(timer);
    }
  }
}
