# Pomodoro timer: a verified model of its state logic

This project models the state logic of a React/Redux Pomodoro timer and proves properties of it in Dafny.

**Timer engines.** The three work/break countdown engines of the app are classes:
- `NewTimerEngine.NewTimer` keeps one `TimerState` record and replaces it through functional updaters. Here each updater is a pure function.
- `EnhancedTimerEngine.EnhancedTimer` keeps separate state variables. It also credits a pomodoro to the current task.
- `ClassicTimer.Timer` is the original hard-coded 25/5-minute timer.

Each firing of the one-second interval is one call of the engine's `Tick` method. A tick does nothing unless an interval would be armed. The engines write to the Redux stores through store objects that they hold.

**Redux slices.** Each slice is a class whose methods are its reducers:
- analytics counters;
- settings;
- theme;
- notification preferences;
- the task list;
- the leftover to-do style `timer` slice.

Every reducer states its whole new state: what one reducer changes and what it leaves alone.

**Pure derivations.** These are functions with lemmas on top:
- the `m:ss` clock format and the theme and colour-scheme lookups of the shared utilities;
- the clamps, the dirty check and the save of the settings screen;
- the filter, search, completion rate and pomodoro total of the two task screens;
- the percentage, level, insight and duration figures of the analytics screen.

**Supporting modules.**
- `Strings` models what the template literals and the string methods need: number printing and parsing, lower-casing of `A`–`Z`, `includes` and `trim`.
- `Seqs` models `Array.prototype.find` by key and `Array.prototype.filter`.
- `JsMath` models `Math.round` and `Math.floor`, computed exactly on rationals.

**Inputs the code cannot see are parameters.** These are:
- the durations in settings, which the timer handlers read from the store or from a stale closure;
- the current task;
- task ids and timestamps, which come from the clock.

Ids are not assumed to be unique.

**Focus and break time are exact.** The analytics store keeps focus and break minutes as `real`. Each counting tick credits exactly 1/60 minute.

**Identical formatters share one model.** These `formatTime` functions have the same text as `src/lib/utils.ts:8-12`, so `Utils.FormatTime` and its lemmas model them too:
- `src/components/EnhancedTimer.tsx:133-137`;
- `src/components/Timer.tsx:37-41`.

**Shared screen logic.** `src/components/TaskManager.tsx` has the same filter and add-task guard as `NewTaskManager`, so `TaskScreens` models both.

**Quirks of the code that the model keeps:**
- `NewTimer` and `EnhancedTimer` complete a phase on the tick that *observes* a count of 0. That is one tick after the display reaches `0:00`. From `d` seconds left, the phase switches on tick `d + 1`, not on tick `d`. See `NewTimerEngine.CompletionAfterCountdown`.
- `EnhancedTimer` reloads the countdown whenever the durations or the phase change, even in the middle of a running session (`OnSettingsOrPhaseChange`). So editing a duration restarts a running countdown.
- `Timer.tsx` does not stop after a phase ends. When its count reaches 0 it switches phase and stays active, so work and breaks chain until the user pauses.

## Model

| member | source | states |
|---|---|---|
| Strings.NatToString | src/lib/utils.ts:11 | The decimal text of a natural number is non-empty and all digits. It is one digit exactly below 10, and it starts with `0` only for 0. |
| Strings.IntToStringInjective | src/lib/utils.ts:11 | The printed sign and digits determine the integer: distinct integers, negative ones included, print differently. |
| Strings.ParseNatToString | src/lib/utils.ts:11 | Reading the printed digits back gives the number. |
| Strings.NatToStringInjective | src/lib/utils.ts:11 | Different numbers print differently. |
| Strings.ToLower | src/components/NewTaskManager.tsx:97 | Lower-casing keeps the length and maps each character through `LowerChar`, which lowers `A`–`Z` and keeps every other character. |
| Strings.ToLowerIdempotent | src/components/NewTaskManager.tsx:97-98 | Lower-casing twice is lower-casing once. |
| Strings.ContainsIff | src/components/NewTaskManager.tsx:97-98 | `includes` holds exactly when the pattern occurs at some index. |
| Strings.ContainsEmpty | src/components/NewTaskManager.tsx:97-98 | Every string includes the empty string. |
| Strings.TrimStartBlank | src/components/NewTaskManager.tsx:103 | Trimming the front leaves nothing exactly when the text is all white space. Otherwise it stops at a non-white-space character. |
| Strings.TrimEndKeepsFirst | src/components/NewTaskManager.tsx:103 | Trimming the end of a text that starts with a non-white-space character keeps that character. |
| Strings.TrimNonEmptyIff | src/components/NewTaskManager.tsx:103 | `trim()` is non-empty exactly when the text has a non-white-space character. |
| Seqs.FindIndex | src/features/tasks/tasksSlice.ts:44 | `find` by id returns the first element with that id. It finds nothing exactly when no element has it. `TasksSlice.FirstIndexOf` and `TimerSlice.FirstTodoIndex` (for `src/features/timer/timerSlice.ts:15`) are this search on their id fields. |
| Seqs.Filter | src/features/tasks/tasksSlice.ts:78 | `filter` keeps only elements that pass. It keeps only elements of the input, and keeps every element that passes. |
| Seqs.FilterIsSubsequence | src/features/tasks/tasksSlice.ts:78 | The filtered list is a subsequence of the input, so order is kept. |
| Seqs.FilterCount | src/features/tasks/tasksSlice.ts:78 | A passing element keeps its multiplicity, and a failing one disappears. |
| Seqs.FilterAllPass | src/components/TaskManager.tsx:21-28 | When every element passes, the list is unchanged. |
| Seqs.FilterNonePass | src/components/NewTaskManager.tsx:152 | When no element passes, the result is empty. |
| JsMath.Round | src/components/NewAnalytics.tsx:73 | `Math.round` gives the integer within one half of its argument, rounding halves up. |
| JsMath.RoundUnique | src/components/NewAnalytics.tsx:73 | That integer is unique. |
| JsMath.RoundMonotone | src/components/NewAnalytics.tsx:73 | Rounding is monotone. |
| JsMath.RoundRatio | src/components/NewTaskManager.tsx:154 | The integer form of `Math.round(n / d)` satisfies `(2r-1)d <= 2n < (2r+1)d`. |
| JsMath.RoundRatioIsRound | src/components/NewTaskManager.tsx:154 | The integer form equals `Math.round` of the exact quotient. |
| JsMath.RoundRatioBounds | src/components/NewTaskManager.tsx:154 | A ratio between 0 and `k` rounds to an integer between 0 and `k`. |
| JsMath.RoundRatioExact | src/components/NewTaskManager.tsx:154 | A whole ratio is returned unchanged. |
| JsMath.FloorUnique | src/components/NewAnalytics.tsx:81 | `Math.floor(x)` is the unique integer `k` with `k <= x < k + 1`. |
| JsMath.FloorOfQuotient | src/lib/utils.ts:9 | `Math.floor(a / b)` on whole numbers with `b > 0` is Euclidean division. |
| AnalyticsSlice.AnalyticsStore.constructor | src/features/analytics/analyticsSlice.ts:10-15 | All four counters start at 0. |
| AnalyticsSlice.AnalyticsStore.IncrementCompletedSessions | src/features/analytics/analyticsSlice.ts:21-23 | Adds the payload to completed sessions, and no other field changes. A non-negative payload keeps every field non-negative. |
| AnalyticsSlice.AnalyticsStore.IncrementFocusTime | src/features/analytics/analyticsSlice.ts:24-26 | Adds the payload to focus time only. |
| AnalyticsSlice.AnalyticsStore.IncrementBreakTime | src/features/analytics/analyticsSlice.ts:27-29 | Adds the payload to break time only. |
| AnalyticsSlice.AnalyticsStore.IncrementIncompleteSessions | src/features/analytics/analyticsSlice.ts:30-32 | Adds 1 to incomplete sessions only. |
| AnalyticsSlice.AnalyticsStore.ResetAnalytics | src/features/analytics/analyticsSlice.ts:33-38 | Every field becomes 0, so a second reset changes nothing. |
| SettingsSlice.SettingsStore.constructor | src/features/settings/settingsSlice.ts:8-11 | The store starts at 25 work minutes and 5 break minutes. |
| SettingsSlice.SettingsStore.SetWorkMinutes | src/features/settings/settingsSlice.ts:17-19 | Stores the payload as given, without clamping. Break minutes are kept. |
| SettingsSlice.SettingsStore.SetBreakMinutes | src/features/settings/settingsSlice.ts:20-22 | Stores the payload as given. Work minutes are kept. |
| ThemeSlice.ThemeStore.constructor | src/features/theme/themeSlice.ts:12-16 | The store starts at theme `System` and scheme `purple`. The system theme follows the dark-mode media query. |
| ThemeSlice.ThemeStore.SetTheme | src/features/theme/themeSlice.ts:22-24 | Changes the theme only. |
| ThemeSlice.ThemeStore.SetColorScheme | src/features/theme/themeSlice.ts:25-27 | Changes the colour scheme only. |
| ThemeSlice.ThemeStore.SetSystemTheme | src/features/theme/themeSlice.ts:28-30 | Changes the system theme only. |
| NotificationsSlice.SettingsExtensional | src/features/notifications/notificationsSlice.ts:3-11 | Two preference records are equal exactly when they agree on every key. |
| NotificationsSlice.Merge | src/features/notifications/notificationsSlice.ts:37-39 | The spread merge gives each key in the payload the payload's value. Every other key keeps its value. |
| NotificationsSlice.FullPatch | src/features/notifications/notificationsSlice.ts:38 | A full record as payload names every key with the record's value. |
| NotificationsSlice.MergeEmpty | src/features/notifications/notificationsSlice.ts:37-39 | An empty payload changes nothing. |
| NotificationsSlice.MergeIdempotent | src/features/notifications/notificationsSlice.ts:37-39 | Merging the same payload twice is merging it once. |
| NotificationsSlice.MergeFull | src/features/notifications/notificationsSlice.ts:37-39 | Merging a full record replaces the preferences by that record. |
| NotificationsSlice.MergeCompose | src/features/notifications/notificationsSlice.ts:37-39 | Two merges are one merge in which the later payload wins. |
| NotificationsSlice.NotificationsStore.constructor | src/features/notifications/notificationsSlice.ts:19-31 | Every preference starts on except session start. Permission is `default`, and support is whatever the browser reports. |
| NotificationsSlice.NotificationsStore.UpdateNotificationSettings | src/features/notifications/notificationsSlice.ts:37-39 | The preferences become the merge of the payload, and permission is kept. |
| NotificationsSlice.NotificationsStore.SetPermission | src/features/notifications/notificationsSlice.ts:40-42 | Replaces the permission only. |
| TasksSlice.NewTaskRecord | src/features/tasks/tasksSlice.ts:33-40 | A new task has the payload's fields and the given id and creation time. It is not completed, with no pomodoros done. |
| TasksSlice.ApplyPatch | src/features/tasks/tasksSlice.ts:46-49 | Each of the nine fields present in the update overrides the task's value, and each absent one is kept. `completed: true` also stamps the completion time. |
| TasksSlice.ApplyEmptyPatch | src/features/tasks/tasksSlice.ts:43-51 | An update with no fields leaves the task as it was. |
| TasksSlice.AddPomodoro | src/features/tasks/tasksSlice.ts:63-68 | One more pomodoro stays within the target. Reaching the target completes the task at `now`. Every other field is kept. |
| TasksSlice.CountPomodoro | src/features/tasks/tasksSlice.ts:61-70 | Only the first task with the id changes, and only if it is below its target. An unknown id changes nothing. The bound of done pomodoros by the target is preserved for every task. |
| TasksSlice.WithoutIdSpec | src/features/tasks/tasksSlice.ts:53 | Deleting keeps, in order and with their multiplicities, exactly the tasks with another id. |
| TasksSlice.UncompletedSpec | src/features/tasks/tasksSlice.ts:78 | Clearing keeps, in order and with their multiplicities, exactly the tasks not completed. |
| TasksSlice.TasksStore.constructor | src/features/tasks/tasksSlice.ts:22-27 | The store starts with no tasks, no current task, the `all` filter and an empty search. |
| TasksSlice.TasksStore.AddTask | src/features/tasks/tasksSlice.ts:33-42 | Appends exactly the new task record. Every other field is kept. |
| TasksSlice.TasksStore.UpdateTask | src/features/tasks/tasksSlice.ts:43-51 | Patches the first task with the id only. An unknown id changes nothing. |
| TasksSlice.TasksStore.DeleteTask | src/features/tasks/tasksSlice.ts:52-57 | Removes every task with the id. Clears the current task exactly when it is that id. |
| TasksSlice.TasksStore.SetCurrentTask | src/features/tasks/tasksSlice.ts:58-60 | Stores the id without checking that a task has it. |
| TasksSlice.TasksStore.CompletePomodoro | src/features/tasks/tasksSlice.ts:61-70 | The list becomes `CountPomodoro` of the old list. The other fields are kept. |
| TasksSlice.TasksStore.SetFilter | src/features/tasks/tasksSlice.ts:71-73 | Replaces the filter only. |
| TasksSlice.TasksStore.SetSearchQuery | src/features/tasks/tasksSlice.ts:74-76 | Replaces the search text only. |
| TasksSlice.TasksStore.ClearCompletedTasks | src/features/tasks/tasksSlice.ts:77-79 | Keeps exactly the open tasks. The current task is kept even if it was completed. |
| TimerSlice.ToggleFirst | src/features/timer/timerSlice.ts:14-17 | The reducer fails exactly when no item has the id. Otherwise it keeps the length and every id and text. |
| TimerSlice.ToggleTwice | src/features/timer/timerSlice.ts:14-17 | Toggling the same id twice restores the list. |
| TimerSlice.ToggleOnlyFirst | src/features/timer/timerSlice.ts:14-17 | Only the first item with the id has its flag flipped. |
| TimerSlice.TodoStore.constructor | src/features/timer/timerSlice.ts:5 | The list starts empty. |
| TimerSlice.TodoStore.IncrementCompletedSessions | src/features/timer/timerSlice.ts:7-13 | Appends exactly one open item with the given id and text. |
| TimerSlice.TodoStore.IncrementTotalFocus | src/features/timer/timerSlice.ts:14-17 | Toggles the first item with the id. It reports failure, with the list unchanged, when the id is missing. |
| Utils.TwoDigits | src/lib/utils.ts:11 | The padded seconds field is exactly two digits. |
| Utils.PaddedIsTwoDigits | src/lib/utils.ts:11 | The optional `0` followed by a number below 60 is its two-digit form. |
| Utils.FormatTimeShape | src/lib/utils.ts:8-12 | For `s >= 0` the clock is `s div 60`, a colon and the two digits of `s mod 60`. |
| Utils.FormatTimeLeadingZero | src/lib/utils.ts:11 | A `0` is inserted exactly when `s mod 60 < 10`. |
| Utils.IndexOfColon | src/lib/utils.ts:11 | Locates the first colon of a clock text. |
| Utils.ParseTwoDigits | src/lib/utils.ts:11 | Reading two digits back gives the number. |
| Utils.FormatTimeRoundTrip | src/lib/utils.ts:8-12 | Parsing the clock as `m:ss` gives back the number of seconds. |
| Utils.GetThemeClass | src/lib/utils.ts:54-59 | `system` resolves to the system theme. Any other theme is returned itself, so the result is never `system`. |
| Utils.GetThemeClassStable | src/lib/utils.ts:54-59 | Resolving an already resolved theme changes nothing. |
| Utils.ResolvedScheme | src/lib/utils.ts:100 | A known scheme is looked up as itself, and any other name as `purple`. |
| Utils.ColorSchemeTable | src/lib/utils.ts:61-101 | Each scheme gets the entry named after that scheme. Any other name gets the purple entry. |
| Utils.BlueEntry | src/lib/utils.ts:63-69 | The blue entry uses blue class names. |
| Utils.PurpleEntry | src/lib/utils.ts:70-76 | The purple entry uses purple class names. |
| Utils.GreenEntry | src/lib/utils.ts:77-83 | The green entry uses green class names. |
| Utils.OrangeEntry | src/lib/utils.ts:84-90 | The orange entry uses orange class names. |
| Utils.RedEntry | src/lib/utils.ts:91-97 | The red entry uses red class names. |
| NewTimerEngine.Initial | src/components/NewTimer.tsx:24-31 | The timer starts with a full work phase, neither running nor paused, with both counters at 0. |
| NewTimerEngine.Completed | src/components/NewTimer.tsx:144-157 | A completion switches phase and loads the next phase's full length. It clears both `isRunning` and `isPaused`, adds 1 to `sessionCount` after a work phase only, and adds 1 to `totalSessions` every time. |
| NewTimerEngine.AfterTick | src/components/NewTimer.tsx:95-111 | An armed tick with no time left is exactly one completion. An armed tick with time left takes one second off, and an unarmed tick changes nothing. The phase switches exactly on the completing tick. The count never goes below 0, and the invariant is kept. |
| NewTimerEngine.TicksCountDown | src/components/NewTimer.tsx:100-111 | While time is left, `k` ticks take exactly `k` seconds off and change nothing else. |
| NewTimerEngine.CompletionAfterCountdown | src/components/NewTimer.tsx:96-99 | From `d` seconds left, tick `d + 1` completes the phase, and later ticks change nothing. |
| NewTimerEngine.TicksAppend | src/components/NewTimer.tsx:94-113 | `m + n` ticks are `m` ticks followed by `n`. |
| NewTimerEngine.TicksIdle | src/components/NewTimer.tsx:93 | Without an armed interval, ticks change nothing. |
| NewTimerEngine.CompletedTwice | src/components/NewTimer.tsx:149-157 | Two completions return to the same phase at its full length. They count two phases and one work session, and leave the timer stopped. |
| NewTimerEngine.ResetAndStopFrames | src/components/NewTimer.tsx:180-203 | Reset reloads the phase and keeps the phase and the counters. Stop keeps the count and the phase and zeroes both counters. Both clear `isRunning` and `isPaused`. |
| NewTimerEngine.PauseResume | src/components/NewTimer.tsx:172-178 | Pause and resume touch only the paused flag, and each is idempotent. |
| NewTimerEngine.ValidPreserved | src/components/NewTimer.tsx:95-203 | Every updater keeps the counters ordered and the count non-negative. |
| NewTimerEngine.PadStart2 | src/components/NewTimer.tsx:163 | `padStart(2, '0')` gives at least two characters. The text is kept at the end, with zeros in front. |
| NewTimerEngine.FormatTimeAgrees | src/components/NewTimer.tsx:160-164 | For counts `>= 0` the screen's clock equals the shared `formatTime`. |
| NewTimerEngine.FormatTimeNegative | src/components/NewTimer.tsx:160-164 | At `-1` the two formatters differ: `-1:-1` against `-1:0-1`. |
| NewTimerEngine.NewTimer.constructor | src/components/NewTimer.tsx:24-31 | The record starts at its initial value. |
| NewTimerEngine.NewTimer.Tick | src/components/NewTimer.tsx:95-157 | The record becomes `AfterTick`. A counting tick credits 1/60 minute to focus or break time by phase. Completing a work phase counts one completed session, and completing a break counts none. |
| NewTimerEngine.NewTimer.Start | src/components/NewTimer.tsx:168-170 | Sets running and clears paused. |
| NewTimerEngine.NewTimer.Pause | src/components/NewTimer.tsx:172-174 | Sets paused. |
| NewTimerEngine.NewTimer.Resume | src/components/NewTimer.tsx:176-178 | Clears paused. |
| NewTimerEngine.NewTimer.Reset | src/components/NewTimer.tsx:180-190 | Records one incomplete session exactly when running, then reloads the phase. |
| NewTimerEngine.NewTimer.Stop | src/components/NewTimer.tsx:192-203 | Records one incomplete session exactly when running, then stops and zeroes both counters. |
| EnhancedTimerEngine.StartPatch | src/components/EnhancedTimer.tsx:146-149 | The start patch sets only `desktop`, and only to false. It does so exactly when permission is `default` and desktop alerts are on. |
| EnhancedTimerEngine.StartDesktopOff | src/components/EnhancedTimer.tsx:141-150 | After start, desktop alerts stay on only if permission has been decided. The other preferences are kept. |
| EnhancedTimerEngine.EnhancedTimer.constructor | src/components/EnhancedTimer.tsx:25-30 | The timer starts with a full work phase, inactive, unpaused and a zero session count. |
| EnhancedTimerEngine.EnhancedTimer.OnSettingsOrPhaseChange | src/components/EnhancedTimer.tsx:42-44 | The count is reloaded to the full phase even while active. Every other field is kept. |
| EnhancedTimerEngine.EnhancedTimer.CompleteSession | src/components/EnhancedTimer.tsx:81-131 | After work, it counts a completed session and a screen session. It counts a pomodoro exactly when a current task is set. Then it flips the phase, loads the next length and stops. |
| EnhancedTimerEngine.EnhancedTimer.Tick | src/components/EnhancedTimer.tsx:48-61 | With time left, it takes one second off and credits 1/60 minute by phase. At or below 0 it completes the session. Unarmed, it changes nothing. |
| EnhancedTimerEngine.EnhancedTimer.Start | src/components/EnhancedTimer.tsx:141-150 | Sets active and unpaused, and applies the start patch to the preferences. |
| EnhancedTimerEngine.EnhancedTimer.Pause | src/components/EnhancedTimer.tsx:152-154 | Sets paused only. |
| EnhancedTimerEngine.EnhancedTimer.Resume | src/components/EnhancedTimer.tsx:156-158 | Clears paused only. |
| EnhancedTimerEngine.EnhancedTimer.Reset | src/components/EnhancedTimer.tsx:160-168 | Counts an incomplete session exactly when active with time left. Reloads the phase, stops and zeroes the session count. |
| ClassicTimer.Timer.constructor | src/components/Timer.tsx:4-9 | The timer starts at 1500 seconds, in work, inactive, with all counters at 0. |
| ClassicTimer.Timer.Tick | src/components/Timer.tsx:11-35 | An active tick takes one second off and credits it by phase. At 0 it switches phase and loads its length, counting a session after work. It keeps the invariant relating focus seconds to completed sessions. |
| ClassicTimer.Timer.ToggleActive | src/components/Timer.tsx:47 | Flips active only, so pressing twice restores the state. |
| ClassicTimer.Timer.Reset | src/components/Timer.tsx:50 | Loads 300 in a break and 1500 in work. Active and the phase are kept. |
| SettingsScreen.Clamp | src/components/NewSettings.tsx:103 | `max(lo, min(hi, v))` lies in `[lo, hi]`. It is `v` when `v` is in range and the nearer bound otherwise. |
| SettingsScreen.ClampWork | src/components/NewSettings.tsx:102-105 | Work minutes land in `[1, 60]`, unchanged when already in range. |
| SettingsScreen.ClampBreak | src/components/NewSettings.tsx:107-110 | Break minutes land in `[1, 30]`, unchanged when already in range. |
| SettingsScreen.ClampIdempotent | src/components/NewSettings.tsx:102-110 | Clamping twice is clamping once. |
| SettingsScreen.ClampMonotone | src/components/NewSettings.tsx:102-110 | Clamping is monotone. |
| SettingsScreen.DurationClamps | src/components/NewSettings.tsx:102-110 | Both duration clamps are idempotent and monotone. |
| SettingsScreen.DefaultsMatchStores | src/components/NewSettings.tsx:152-167 | The reset defaults equal the stores' initial values. |
| SettingsScreen.Differs | src/components/NewSettings.tsx:78-87 | The dirty check holds exactly when some field of the form differs from the stores. |
| SettingsScreen.GetColorClasses | src/components/NewSettings.tsx:194-203 | Each of the five schemes gets its own `from-…-500 to-…-700` gradient, and an unknown scheme gets purple's. |
| SettingsScreen.SettingsScreen.constructor | src/components/NewSettings.tsx:42-48 | The form starts as a copy of the stores, so there is nothing to save. |
| SettingsScreen.SettingsScreen.ChangeWorkMinutes | src/components/NewSettings.tsx:102-105 | Stores the clamped work minutes in the form only. |
| SettingsScreen.SettingsScreen.ChangeBreakMinutes | src/components/NewSettings.tsx:107-110 | Stores the clamped break minutes in the form only. |
| SettingsScreen.SettingsScreen.ChangeTheme | src/components/NewSettings.tsx:112-114 | Stores the theme in the form only. |
| SettingsScreen.SettingsScreen.ChangeColorScheme | src/components/NewSettings.tsx:116-118 | Stores the scheme in the form only. |
| SettingsScreen.SettingsScreen.ChangeNotification | src/components/NewSettings.tsx:120-125 | Sets one preference key in the form. |
| SettingsScreen.SettingsScreen.ResetSettings | src/components/NewSettings.tsx:152-169 | Loads the defaults into the form and writes nothing to the stores. |
| SettingsScreen.SettingsScreen.SaveSettings | src/components/NewSettings.tsx:127-146 | Writes every field to its store, keeping permission and the system theme. Afterwards nothing is left to save. |
| TaskScreens.FilteredTasksSpec | src/components/NewTaskManager.tsx:93-100 | The list shows, in order and with their multiplicities, exactly the tasks that match both the filter and the search. |
| TaskScreens.EmptyQueryMatches | src/components/NewTaskManager.tsx:97-98 | The empty query matches every task. |
| TaskScreens.ShowAll | src/components/TaskManager.tsx:21-28 | With `all` and no query the whole list is shown. |
| TaskScreens.SearchIgnoresQueryCase | src/components/NewTaskManager.tsx:97-98 | The search ignores the case of the query. |
| TaskScreens.SearchIsOccurrence | src/components/NewTaskManager.tsx:97-98 | A task matches exactly when the lower-cased query occurs in its lower-cased title or description. |
| TaskScreens.CompletedCount | src/components/NewTaskManager.tsx:152 | The completed count is at most the number of tasks. |
| TaskScreens.CompletionRate | src/components/NewTaskManager.tsx:152-154 | The rate is 0 for an empty list. Otherwise it is the rounded percentage of completed tasks, in `[0, 100]`. |
| TaskScreens.CompletionRateAllDone | src/components/NewTaskManager.tsx:152-154 | A list of finished tasks has rate 100. |
| TaskScreens.CompletionRateNoneDone | src/components/NewTaskManager.tsx:152-154 | A list without finished tasks has rate 0. |
| TaskScreens.ReduceIsSum | src/components/NewTaskManager.tsx:219 | The left fold adds up the sum of the pomodoro targets. |
| TaskScreens.SumAppend | src/components/NewTaskManager.tsx:219 | Appending a task adds its target to the sum. |
| TaskScreens.AddTaskRaisesTotal | src/components/NewTaskManager.tsx:219 | Adding a task raises the displayed total by its target. |
| TaskScreens.PriorityColor | src/components/NewTaskManager.tsx:134-141 | Anything other than the three priorities gets the grey badge. |
| TaskScreens.PriorityColorsDistinct | src/components/NewTaskManager.tsx:134-141 | The three priorities get three different colours, none of them grey. |
| TaskScreens.BadgeVariant | src/components/TaskManager.tsx:54-61 | `high` and `low` map to `destructive` and `secondary`. Everything else maps to `default`. |
| TaskScreens.TaskForm.constructor | src/components/NewTaskManager.tsx:41-46 | The form starts empty, with one pomodoro at medium priority. |
| TaskScreens.TaskForm.Edit | src/components/NewTaskManager.tsx:41 | The form holds what the user typed. |
| TaskScreens.TaskForm.HandleAddTask | src/components/NewTaskManager.tsx:102-110 | A title with a non-white-space character is added, and the form is cleared. A blank title changes nothing. |
| AnalyticsScreen.PerformancePercentage | src/components/NewAnalytics.tsx:71-73 | The percentage is 0 without sessions. Otherwise it is the rounded share of completed sessions, in `[0, 100]`. |
| AnalyticsScreen.PerformanceExtremes | src/components/NewAnalytics.tsx:71-73 | With every session completed the percentage is 100, and with none completed it is 0. |
| AnalyticsScreen.NearlyAllCompletedRoundsToHundred | src/components/NewAnalytics.tsx:71-73 | Rounding also gives 100 with an interruption: 199 completed and 1 incomplete session show 100. |
| AnalyticsScreen.AverageSessionLength | src/components/NewAnalytics.tsx:77 | The average times the completed count gives back the focus time. It is 0 before the first completed session and never above the focus time. |
| AnalyticsScreen.GetProductivityLevel | src/components/NewAnalytics.tsx:89-94 | Each level holds exactly on its band: `>= 80`, `60..79`, `40..59` and `< 40`. |
| AnalyticsScreen.LevelMonotone | src/components/NewAnalytics.tsx:89-94 | A higher score never gets a lower level. |
| AnalyticsScreen.LevelPresentationDistinct | src/components/NewAnalytics.tsx:89-94 | Every level has its own label and colour. |
| AnalyticsScreen.InterruptionsCapPerformance | src/components/NewAnalytics.tsx:397-401 | More interruptions than completions keep the percentage at most 50, so "Excellent Performance!" is not shown. |
| AnalyticsScreen.InterruptionsWithoutFocusCard | src/components/NewAnalytics.tsx:385-401 | At 99 completed and 100 incomplete, "Reduce Interruptions" shows without "Focus on Completion", because 99/199 rounds to 50. |
| AnalyticsScreen.ExcellentAndFocusExclusive | src/components/NewAnalytics.tsx:373-389 | "Excellent Performance!" and "Focus on Completion" are never shown together. |
| AnalyticsScreen.AsWrittenShowsSixtyMinutes | src/components/NewAnalytics.tsx:80-87 | As written, 119.75 minutes print as `1h 60m`. |
| AnalyticsScreen.PartsRounded | src/components/NewAnalytics.tsx:80-87 | Rounding to whole minutes first gives minutes in `0..59` and `60h + m` equal to the rounded total. |
| AnalyticsScreen.RoundedShowsTwoHours | src/components/NewAnalytics.tsx:80-87 | The duration that prints as `1h 60m` as written prints as `2h 0m` when the minutes are rounded first. |
| AnalyticsScreen.PartsAgreeOnWholeMinutes | src/components/NewAnalytics.tsx:80-87 | On whole minutes `k`, both versions split into `k div 60` hours and `k mod 60` minutes. |
| AnalyticsScreen.FormatWholeMinutes | src/components/NewAnalytics.tsx:80-87 | For whole minutes the text is `Hh Mm` from an hour on and `Mm` below it, in both versions. |
| AnalyticsScreen.ShowDashboard | src/components/NewAnalytics.tsx:71-417 | The screen's total is the sum of the sessions, and the percentage lies in `[0, 100]`, 0 when there are no sessions. Its percentage is `PerformancePercentage` of the counters. "Excellent Performance!" shows exactly at 80 or more, "Focus on Completion" exactly below 50, "Reduce Interruptions" exactly when incomplete exceeds completed, and "Consistent Progress" exactly when focus time is positive. The two exclusive cards never show together, and "Reduce Interruptions" excludes "Excellent Performance!". The four durations are printed with `formatTime` as written. |
| AnalyticsScreen.DashboardShowsSixtyMinutes | src/components/NewAnalytics.tsx:111 | The screen itself shows 119.75 focus minutes as `1h 60m`. |

## Left out

- Rendering is not modelled: JSX, animation, icons, toasts, the layout files and the navigation between screens.
- Scheduling is not modelled: `setInterval`, effect re-arming and StrictMode double calls of updaters. Each interval firing is one explicit `Tick` call.
- Browser side effects are not modelled: audio, vibration, desktop `Notification` objects and the async `requestPermission` reducer.
- The helpers in `src/lib/utils.ts` that only wrap browser APIs are not modelled: `playNotificationSound`, `vibrateDevice`, `requestNotificationPermission` and `showNotification`.
- `cn`, `debounce` and `throttle` are not modelled. The first wraps libraries that are not part of this model, and the others are timer-driven.
- `localStorage` is not modelled: the load effect of the settings screen, the saved copy, and the export and import of data. This is I/O.
- `Date.now()` and ISO timestamps are parameters.
- Floating point is not modelled:
  - minutes are exact rationals;
  - `Math.round` and `Math.floor` are computed on exact values, so results that a double would round differently are not captured;
  - `NaN` from a non-numeric settings field is not modelled;
  - the progress ratios, the circle geometry and `productivityScore` are left out; the score enters `ShowDashboard` as an input.
- `getColors` and `getThemeColors` are not modelled. They are render-only styling tables in the timer, task and analytics screens.
- Table lookups with keys such as `constructor` or `__proto__`, which JavaScript resolves through the object prototype, are not modelled. Only the five scheme names and other plain strings are.
- The settings dirty check compares the notification records as JSON text. The model compares them as records, because both are built with their keys in the same order.
- `EnhancedTimer` has no stop button, so `EnhancedTimerEngine.EnhancedTimer` has no `Stop`.
- `Timer.tsx` has no stop button, and its start and pause are one toggle, so `ClassicTimer.Timer` has `ToggleActive` in place of `Start`, `Pause`, `Resume` and `Stop`.
- The stale closures of the timer screens are parameters:
  - `NewTimer` completes a phase with the durations captured when the interval was armed;
  - `EnhancedTimer` reads the current task and the durations captured the same way.
- TaskScreens.PriorityColor: states only the grey default; the three named colours are covered by `PriorityColorsDistinct`.
- Strings.ToLower: lowers only the ASCII letters `A`–`Z`. JavaScript's `toLowerCase` lowers every cased Unicode letter ("É" becomes "é") and can change the length ("İ" becomes two code units). So the task search does not model a case-insensitive match on non-ASCII text. Unicode case tables are out of reach without a library.
- Fractional durations are not modelled: the settings fields pass `Number(e.target.value)`, so a value such as 2.5 minutes can be stored, and the timers then count a non-integer number of seconds. The model keeps durations as `int`.
- A patch key present with the value `undefined` is not modelled: `Object.assign` would copy `undefined` into the task, while `TaskPatch` only says whether a key is present. `handleUpdateTask` has no caller in the screens.

## Findings

| source | as written | input that shows it | evidently intended | confidence | as-written member | corrected member |
|---|---|---|---|---|---|---|
| src/components/NewAnalytics.tsx:80-87 | `formatTime` takes `Math.floor(minutes / 60)` hours and `Math.round(minutes % 60)` minutes. A remainder of 59.5 or more rounds up to 60 without carrying into the hours. | 119.75 minutes print as `1h 60m` | `2h 0m`: round to whole minutes first, then split, so the minutes part is always in `0..59` | not executed | AnalyticsScreen.AsWrittenShowsSixtyMinutes | AnalyticsScreen.PartsRounded |

The screen model `AnalyticsScreen.ShowDashboard` keeps the code as written, so it shows the bug (`DashboardShowsSixtyMinutes`). `PartsRounded`, `FormatMinutes` and `RoundedShowsTwoHours` are the corrected reference.
