/**
 * The original `Timer` component: fixed 25-minute work and 5-minute break
 * phases in whole seconds, with its own counters. Its effect re-runs on
 * every change of the count; a tick counts down and credits one second,
 * and the run of the effect that sees the count at 0 switches phase at
 * once and keeps the timer active, so work and breaks follow each other
 * until the user pauses. Each `Tick` here is one firing of the interval
 * together with the effect run that follows it.
 */
module ClassicTimer {

  const WorkSeconds := 1500
  const BreakSeconds := 300

  function FullPhase(isBreak: bool): int {
    if isBreak then BreakSeconds else WorkSeconds
  }

  class Timer {
    var seconds: int
    var isActive: bool
    var isBreak: bool
    var completedSessions: int
    var totalFocusTime: int
    var breakTime: int

    /**
     * The count is within the current phase and never 0 between ticks, and
     * every completed session was paid for with a full work phase of focus
     * seconds, plus whatever the current work phase has used so far.
     */
    predicate Valid()
      reads this
    {
      0 < seconds <= FullPhase(isBreak)
      && completedSessions >= 0 && breakTime >= 0
      && totalFocusTime >= WorkSeconds * completedSessions + (if isBreak then 0 else WorkSeconds - seconds)
    }

    constructor ()
      ensures seconds == WorkSeconds && !isActive && !isBreak
      ensures completedSessions == 0 && totalFocusTime == 0 && breakTime == 0
      ensures Valid()
    {
      seconds, isActive, isBreak := WorkSeconds, false, false;
      completedSessions, totalFocusTime, breakTime := 0, 0, 0;
    }

    /**
     * One second while active: the count drops by one and the second is
     * credited to focus or break time by phase; reaching 0 switches phase,
     * loads its full length and counts a completed session after work.
     */
    method Tick()
      modifies this
      ensures old(Valid()) ==> Valid()
      ensures !old(isActive) ==>
                seconds == old(seconds) && isBreak == old(isBreak)
                && completedSessions == old(completedSessions)
                && totalFocusTime == old(totalFocusTime) && breakTime == old(breakTime)
      ensures isActive == old(isActive)
      ensures old(isActive) ==>
                totalFocusTime == old(totalFocusTime) + (if old(isBreak) then 0 else 1)
                && breakTime == old(breakTime) + (if old(isBreak) then 1 else 0)
      ensures old(isActive) && old(seconds) != 1 ==>
                seconds == old(seconds) - 1 && isBreak == old(isBreak)
                && completedSessions == old(completedSessions)
      ensures old(isActive) && old(seconds) == 1 ==>
                isBreak == !old(isBreak) && seconds == FullPhase(isBreak)
                && completedSessions == old(completedSessions) + (if old(isBreak) then 0 else 1)
    {
      if !isActive {
        return;
      }
      seconds := seconds - 1;
      if !isBreak {
        totalFocusTime := totalFocusTime + 1;
      } else {
        breakTime := breakTime + 1;
      }
      if seconds == 0 {
        if isBreak {
          seconds := WorkSeconds;
        } else {
          seconds := BreakSeconds;
          completedSessions := completedSessions + 1;
        }
        isBreak := !isBreak;
      }
    }

    /** The start/pause button; pressing it twice restores the state. */
    method ToggleActive()
      modifies this
      ensures isActive == !old(isActive)
      ensures seconds == old(seconds) && isBreak == old(isBreak) && completedSessions == old(completedSessions)
      ensures totalFocusTime == old(totalFocusTime) && breakTime == old(breakTime)
      ensures old(Valid()) ==> Valid()
    {
      isActive := !isActive;
    }

    /** Reloads the current phase's full length and leaves everything else alone. */
    method Reset()
      modifies this
      ensures seconds == FullPhase(isBreak)
      ensures isActive == old(isActive) && isBreak == old(isBreak) && completedSessions == old(completedSessions)
      ensures totalFocusTime == old(totalFocusTime) && breakTime == old(breakTime)
      ensures old(Valid()) ==> Valid()
    {
      seconds := FullPhase(isBreak);
    }
  }
}
