/**
 * The analytics store: four counters that the timers add to and that only
 * `resetAnalytics` sets back. Focus and break time are in minutes and grow
 * by 1/60 per counted second, so they are kept as exact reals.
 */
module AnalyticsSlice {

  class AnalyticsStore {
    var completedSessions: int
    var totalFocusTime: real
    var breakTime: real
    var incompleteSessions: int

    /** Every counter is non-negative. */
    predicate Valid()
      reads this
    {
      completedSessions >= 0 && totalFocusTime >= 0.0 && breakTime >= 0.0 && incompleteSessions >= 0
    }

    /** The initial state: all four counters are zero. */
    constructor ()
      ensures completedSessions == 0 && totalFocusTime == 0.0
      ensures breakTime == 0.0 && incompleteSessions == 0
      ensures Valid()
    {
      completedSessions, totalFocusTime, breakTime, incompleteSessions := 0, 0.0, 0.0, 0;
    }

    method IncrementCompletedSessions(amount: int)
      modifies this
      ensures completedSessions == old(completedSessions) + amount
      ensures totalFocusTime == old(totalFocusTime) && breakTime == old(breakTime)
      ensures incompleteSessions == old(incompleteSessions)
      ensures old(Valid()) && amount >= 0 ==> Valid()
    {
      completedSessions := completedSessions + amount;
    }

    method IncrementFocusTime(minutes: real)
      modifies this
      ensures totalFocusTime == old(totalFocusTime) + minutes
      ensures completedSessions == old(completedSessions) && breakTime == old(breakTime)
      ensures incompleteSessions == old(incompleteSessions)
      ensures old(Valid()) && minutes >= 0.0 ==> Valid()
    {
      totalFocusTime := totalFocusTime + minutes;
    }

    method IncrementBreakTime(minutes: real)
      modifies this
      ensures breakTime == old(breakTime) + minutes
      ensures completedSessions == old(completedSessions) && totalFocusTime == old(totalFocusTime)
      ensures incompleteSessions == old(incompleteSessions)
      ensures old(Valid()) && minutes >= 0.0 ==> Valid()
    {
      breakTime := breakTime + minutes;
    }

    method IncrementIncompleteSessions()
      modifies this
      ensures incompleteSessions == old(incompleteSessions) + 1
      ensures completedSessions == old(completedSessions)
      ensures totalFocusTime == old(totalFocusTime) && breakTime == old(breakTime)
      ensures old(Valid()) ==> Valid()
    {
      incompleteSessions := incompleteSessions + 1;
    }

    /** Sets every counter to zero; the result does not depend on the old state, so it is idempotent. */
    method ResetAnalytics()
      modifies this
      ensures completedSessions == 0 && totalFocusTime == 0.0
      ensures breakTime == 0.0 && incompleteSessions == 0
      ensures Valid()
    {
      completedSessions, totalFocusTime, breakTime, incompleteSessions := 0, 0.0, 0.0, 0;
    }
  }
}
