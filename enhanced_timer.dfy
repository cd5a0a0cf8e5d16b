/**
 * The `EnhancedTimer` screen: the countdown lives in separate state
 * variables, each tick credits the analytics store, and a completed work
 * phase also counts a pomodoro on the current task. The durations, the
 * current task and the completion timestamp are parameters (the tick uses
 * the values captured when the interval was armed). There is no stop
 * button on this screen, only reset.
 */
module EnhancedTimerEngine {
  import opened Wrappers
  import AnalyticsSlice
  import TasksSlice
  import NotificationsSlice

  /** The full length in seconds of the current phase. */
  function PhaseSeconds(isBreak: bool, workMinutes: int, breakMinutes: int): int {
    if isBreak then breakMinutes * 60 else workMinutes * 60
  }

  /** The patch `handleStart` sends when the browser has not been asked for permission yet. */
  function StartPatch(permission: NotificationsSlice.Permission, settings: NotificationsSlice.NotificationSettings)
    : (p: NotificationsSlice.Patch)
    ensures p.Keys <= {NotificationsSlice.Desktop} && forall k :: k in p ==> !p[k]
    ensures NotificationsSlice.Desktop in p <==> permission == NotificationsSlice.Default && settings.desktop
  {
    if permission == NotificationsSlice.Default && settings.desktop
    then map[NotificationsSlice.Desktop := false] else map[]
  }

  /** After `handleStart` desktop alerts are on only if they were on and permission had been decided. */
  lemma StartDesktopOff(permission: NotificationsSlice.Permission, settings: NotificationsSlice.NotificationSettings)
    ensures var after := NotificationsSlice.Merge(settings, StartPatch(permission, settings));
            after.desktop == (settings.desktop && permission != NotificationsSlice.Default)
            && after.(desktop := settings.desktop) == settings
  {
    var after := NotificationsSlice.Merge(settings, StartPatch(permission, settings));
    assert NotificationsSlice.Get(after, NotificationsSlice.Desktop) == after.desktop;
    NotificationsSlice.SettingsExtensional(after.(desktop := settings.desktop), settings);
  }

  class EnhancedTimer {
    var seconds: int
    var isActive: bool
    var isPaused: bool
    var isBreak: bool
    var sessionCount: int
    const analytics: AnalyticsSlice.AnalyticsStore
    const tasks: TasksSlice.TasksStore

    /** An interval is armed, so ticks reach the updater. */
    predicate Ticking()
      reads this
    {
      isActive && !isPaused
    }

    /** The countdown and the session count are never negative. */
    predicate Valid()
      reads this
    {
      seconds >= 0 && sessionCount >= 0
    }

    constructor (workMinutes: int, analytics: AnalyticsSlice.AnalyticsStore, tasks: TasksSlice.TasksStore)
      ensures seconds == workMinutes * 60 && !isActive && !isPaused && !isBreak && sessionCount == 0
      ensures this.analytics == analytics && this.tasks == tasks
      ensures workMinutes >= 0 ==> Valid()
    {
      seconds, isActive, isPaused, isBreak, sessionCount := workMinutes * 60, false, false, false, 0;
      this.analytics := analytics;
      this.tasks := tasks;
    }

    /**
     * The effect that runs whenever the durations or the phase change: the
     * countdown is reloaded to the full phase, even while a session runs.
     */
    method OnSettingsOrPhaseChange(workMinutes: int, breakMinutes: int)
      modifies this
      ensures seconds == PhaseSeconds(isBreak, workMinutes, breakMinutes)
      ensures isActive == old(isActive) && isPaused == old(isPaused) && isBreak == old(isBreak)
      ensures sessionCount == old(sessionCount)
      ensures old(Valid()) && workMinutes >= 0 && breakMinutes >= 0 ==> Valid()
    {
      seconds := PhaseSeconds(isBreak, workMinutes, breakMinutes);
    }

    /**
     * `handleSessionComplete`. After a work phase it counts a completed
     * session, a pomodoro on `currentTask` when one is set, and a session
     * of this screen; then it switches phase, loads the next phase's
     * length and stops.
     */
    method CompleteSession(workMinutes: int, breakMinutes: int, currentTask: Option<string>, now: string)
      modifies this, analytics, tasks
      ensures isBreak == !old(isBreak) && seconds == PhaseSeconds(!old(isBreak), workMinutes, breakMinutes)
      ensures !isActive && !isPaused
      ensures sessionCount == old(sessionCount) + (if old(isBreak) then 0 else 1)
      ensures analytics.completedSessions == old(analytics.completedSessions) + (if old(isBreak) then 0 else 1)
      ensures analytics.totalFocusTime == old(analytics.totalFocusTime) && analytics.breakTime == old(analytics.breakTime)
      ensures analytics.incompleteSessions == old(analytics.incompleteSessions)
      ensures tasks.tasks == if !old(isBreak) && currentTask.Some?
                             then TasksSlice.CountPomodoro(old(tasks.tasks), currentTask.value, now)
                             else old(tasks.tasks)
      ensures tasks.currentTask == old(tasks.currentTask) && tasks.filter == old(tasks.filter)
      ensures tasks.searchQuery == old(tasks.searchQuery)
      ensures old(analytics.Valid()) ==> analytics.Valid()
      ensures old(Valid()) && workMinutes >= 0 && breakMinutes >= 0 ==> Valid()
    {
      if !isBreak {
        analytics.IncrementCompletedSessions(1);
        if currentTask.Some? {
          tasks.CompletePomodoro(currentTask.value, now);
        }
        sessionCount := sessionCount + 1;
      }
      seconds := PhaseSeconds(!isBreak, workMinutes, breakMinutes);
      isBreak := !isBreak;
      isActive := false;
      isPaused := false;
    }

    /**
     * One firing of the interval: at or below zero it completes the session,
     * otherwise it takes one second off and credits 1/60 minute to focus
     * time in work and to break time in a break.
     */
    method Tick(workMinutes: int, breakMinutes: int, currentTask: Option<string>, now: string)
      modifies this, analytics, tasks
      ensures !old(Ticking()) ==>
                seconds == old(seconds) && isActive == old(isActive) && isPaused == old(isPaused)
                && isBreak == old(isBreak) && sessionCount == old(sessionCount)
                && analytics.totalFocusTime == old(analytics.totalFocusTime)
                && analytics.breakTime == old(analytics.breakTime)
                && analytics.completedSessions == old(analytics.completedSessions)
                && tasks.tasks == old(tasks.tasks)
      ensures old(Ticking()) && old(seconds) > 0 ==>
                seconds == old(seconds) - 1 && isActive && !isPaused
                && isBreak == old(isBreak) && sessionCount == old(sessionCount)
                && analytics.totalFocusTime == old(analytics.totalFocusTime) + (if isBreak then 0.0 else 1.0 / 60.0)
                && analytics.breakTime == old(analytics.breakTime) + (if isBreak then 1.0 / 60.0 else 0.0)
                && analytics.completedSessions == old(analytics.completedSessions)
                && tasks.tasks == old(tasks.tasks)
      ensures old(Ticking()) && old(seconds) <= 0 ==>
                isBreak == !old(isBreak) && seconds == PhaseSeconds(isBreak, workMinutes, breakMinutes)
                && !isActive && !isPaused
                && sessionCount == old(sessionCount) + (if old(isBreak) then 0 else 1)
                && analytics.completedSessions == old(analytics.completedSessions) + (if old(isBreak) then 0 else 1)
                && analytics.totalFocusTime == old(analytics.totalFocusTime)
                && analytics.breakTime == old(analytics.breakTime)
                && tasks.tasks == if !old(isBreak) && currentTask.Some?
                                  then TasksSlice.CountPomodoro(old(tasks.tasks), currentTask.value, now)
                                  else old(tasks.tasks)
      ensures analytics.incompleteSessions == old(analytics.incompleteSessions)
      ensures tasks.currentTask == old(tasks.currentTask) && tasks.filter == old(tasks.filter)
      ensures tasks.searchQuery == old(tasks.searchQuery)
      ensures old(analytics.Valid()) ==> analytics.Valid()
      ensures old(Valid()) && workMinutes >= 0 && breakMinutes >= 0 ==> Valid()
    {
      if !Ticking() {
        return;
      }
      if seconds <= 0 {
        CompleteSession(workMinutes, breakMinutes, currentTask, now);
      } else {
        if !isBreak {
          analytics.IncrementFocusTime(1.0 / 60.0);
        } else {
          analytics.IncrementBreakTime(1.0 / 60.0);
        }
        seconds := seconds - 1;
      }
    }

    /** Starts; desktop alerts are switched off when permission has not been asked for. */
    method Start(notifications: NotificationsSlice.NotificationsStore)
      modifies this, notifications
      ensures isActive && !isPaused
      ensures seconds == old(seconds) && isBreak == old(isBreak) && sessionCount == old(sessionCount)
      ensures notifications.settings
           == NotificationsSlice.Merge(old(notifications.settings),
                                       StartPatch(old(notifications.permission), old(notifications.settings)))
      ensures notifications.permission == old(notifications.permission)
    {
      isActive := true;
      isPaused := false;
      if notifications.permission == NotificationsSlice.Default && notifications.settings.desktop {
        notifications.UpdateNotificationSettings(map[NotificationsSlice.Desktop := false]);
      } else {
        NotificationsSlice.MergeEmpty(notifications.settings);
      }
    }

    method Pause()
      modifies this
      ensures isPaused
      ensures seconds == old(seconds) && isActive == old(isActive) && isBreak == old(isBreak)
      ensures sessionCount == old(sessionCount)
    {
      isPaused := true;
    }

    method Resume()
      modifies this
      ensures !isPaused
      ensures seconds == old(seconds) && isActive == old(isActive) && isBreak == old(isBreak)
      ensures sessionCount == old(sessionCount)
    {
      isPaused := false;
    }

    /**
     * Reloads the current phase, stops and clears the session count. Only a
     * session that is active with time left counts as incomplete.
     */
    method Reset(workMinutes: int, breakMinutes: int)
      modifies this, analytics
      ensures seconds == PhaseSeconds(isBreak, workMinutes, breakMinutes) && isBreak == old(isBreak)
      ensures !isActive && !isPaused && sessionCount == 0
      ensures analytics.incompleteSessions
           == old(analytics.incompleteSessions) + (if old(seconds) > 0 && old(isActive) then 1 else 0)
      ensures analytics.completedSessions == old(analytics.completedSessions)
      ensures analytics.totalFocusTime == old(analytics.totalFocusTime) && analytics.breakTime == old(analytics.breakTime)
      ensures old(analytics.Valid()) ==> analytics.Valid()
      ensures workMinutes >= 0 && breakMinutes >= 0 ==> Valid()
    {
      if seconds > 0 && isActive {
        analytics.IncrementIncompleteSessions();
      }
      seconds := PhaseSeconds(isBreak, workMinutes, breakMinutes);
      isActive := false;
      isPaused := false;
      sessionCount := 0;
    }
  }
}
