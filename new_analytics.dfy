/**
 * The figures of the `NewAnalytics` screen, derived from the four counters
 * of the analytics store: the completion percentage, the session totals,
 * the average session length, the minutes-to-text format, the
 * productivity bands and the conditions of the four insight cards.
 */
module AnalyticsScreen {
  import opened Strings
  import JsMath

  /** `performancePercentage`: completed sessions as a rounded percentage of all sessions, 0 when there are none. */
  function PerformancePercentage(completed: int, incomplete: int): (r: int)
    ensures completed + incomplete == 0 ==> r == 0
    ensures completed >= 0 && incomplete >= 0 && completed + incomplete > 0 ==>
              0 <= r <= 100
              && (2 * r - 1) * (completed + incomplete) <= 200 * completed < (2 * r + 1) * (completed + incomplete)
  {
    var total := completed + incomplete;
    if total == 0 then 0
    else if total > 0 && completed >= 0 && incomplete >= 0 then
      JsMath.RoundRatioBounds(100 * completed, total, 100);
      JsMath.RoundRatio(100 * completed, total)
    else if total > 0 then JsMath.RoundRatio(100 * completed, total)
    else JsMath.RoundRatio(-100 * completed, -total)
  }

  /** With every session completed the percentage is 100; with none completed it is 0. */
  lemma PerformanceExtremes(completed: nat, incomplete: nat)
    ensures completed > 0 && incomplete == 0 ==> PerformancePercentage(completed, incomplete) == 100
    ensures completed == 0 ==> PerformancePercentage(completed, incomplete) == 0
  {
    if completed > 0 && incomplete == 0 {
      JsMath.RoundRatioExact(100, completed);
    }
    if completed == 0 && incomplete > 0 {
      JsMath.RoundRatioExact(0, incomplete);
    }
  }

  /** 100 does not mean no interruptions: 199 of 200 sessions round to 100. */
  lemma NearlyAllCompletedRoundsToHundred()
    ensures PerformancePercentage(199, 1) == 100
  {
  }

  /** `totalSessions`. */
  function TotalSessions(completed: int, incomplete: int): int {
    completed + incomplete
  }

  /** `averageSessionLength`: focus minutes per completed session, 0 before the first one. */
  function AverageSessionLength(focusMinutes: real, completed: int): (r: real)
    ensures completed > 0 ==> r * completed as real == focusMinutes
    ensures completed <= 0 ==> r == 0.0
    ensures completed > 0 && focusMinutes >= 0.0 ==> 0.0 <= r <= focusMinutes
  {
    if completed > 0 then focusMinutes / completed as real else 0.0
  }

  datatype Level = Excellent | Good | Fair | NeedsImprovement

  /** `getProductivityLevel`: the band a score falls in. */
  function GetProductivityLevel(score: int): (l: Level)
    ensures l == Excellent <==> score >= 80
    ensures l == Good <==> 60 <= score < 80
    ensures l == Fair <==> 40 <= score < 60
    ensures l == NeedsImprovement <==> score < 40
  {
    if score >= 80 then Excellent
    else if score >= 60 then Good
    else if score >= 40 then Fair
    else NeedsImprovement
  }

  function LevelLabel(l: Level): string {
    match l
    case Excellent => "Excellent"
    case Good => "Good"
    case Fair => "Fair"
    case NeedsImprovement => "Needs Improvement"
  }

  function LevelColor(l: Level): string {
    match l
    case Excellent => "text-green-400"
    case Good => "text-blue-400"
    case Fair => "text-yellow-400"
    case NeedsImprovement => "text-red-400"
  }

  /** The bands from worst (0) to best (3). */
  function Rank(l: Level): nat {
    match l
    case NeedsImprovement => 0
    case Fair => 1
    case Good => 2
    case Excellent => 3
  }

  /** A higher score never falls in a lower band. */
  lemma LevelMonotone(a: int, b: int)
    requires a <= b
    ensures Rank(GetProductivityLevel(a)) <= Rank(GetProductivityLevel(b))
  {
  }

  /** Every band has its own label and colour. */
  lemma LevelPresentationDistinct(l: Level, m: Level)
    requires l != m
    ensures LevelLabel(l) != LevelLabel(m) && LevelColor(l) != LevelColor(m)
  {
  }

  /** The "Excellent Performance!" card. */
  predicate ShowsExcellent(completed: int, incomplete: int) {
    PerformancePercentage(completed, incomplete) >= 80
  }

  /** The "Focus on Completion" card. */
  predicate ShowsFocusOnCompletion(completed: int, incomplete: int) {
    PerformancePercentage(completed, incomplete) < 50
  }

  /** The "Consistent Progress" card. */
  predicate ShowsConsistentProgress(focusMinutes: real) {
    focusMinutes > 0.0
  }

  /** The "Reduce Interruptions" card. */
  predicate ShowsReduceInterruptions(completed: int, incomplete: int) {
    incomplete > completed
  }

  /** More interruptions than completions keep the percentage at 50 or below, so never "Excellent". */
  lemma InterruptionsCapPerformance(completed: nat, incomplete: nat)
    requires ShowsReduceInterruptions(completed, incomplete)
    ensures PerformancePercentage(completed, incomplete) <= 50
    ensures !ShowsExcellent(completed, incomplete)
  {
    var d := completed + incomplete;
    var r := PerformancePercentage(completed, incomplete);
    assert (2 * r - 1) * d <= 200 * completed < 100 * d;
    assert (101 - 2 * r) * d == 100 * d - (2 * r - 1) * d;
    JsMath.PositiveFactor(101 - 2 * r, d);
  }

  /** Rounding lets "Reduce Interruptions" appear without "Focus on Completion": 99 of 199 rounds to 50. */
  lemma InterruptionsWithoutFocusCard()
    ensures ShowsReduceInterruptions(99, 100) && !ShowsFocusOnCompletion(99, 100)
  {
    assert PerformancePercentage(99, 100) == 50;
  }

  /** The cards "Excellent Performance!" and "Focus on Completion" are never shown together. */
  lemma ExcellentAndFocusExclusive(completed: int, incomplete: int)
    ensures !(ShowsExcellent(completed, incomplete) && ShowsFocusOnCompletion(completed, incomplete))
  {
  }

  /** JavaScript's `%` on numbers: the remainder has the sign of the dividend. */
  function RealRem(a: real, b: real): real
    requires b > 0.0
  {
    if a >= 0.0 then a - b * (a / b).Floor as real else a + b * ((-a) / b).Floor as real
  }

  /** The text of a duration split into hours and minutes: `"Hh Mm"` with hours, `"Mm"` without. */
  function Render(hours: int, mins: int): string {
    if hours > 0 then IntToString(hours) + "h " + IntToString(mins) + "m" else IntToString(mins) + "m"
  }

  /** The hours and minutes `formatTime` prints: the floor of the hours, then the rounded remainder. */
  function PartsAsWritten(minutes: real): (int, int) {
    ((minutes / 60.0).Floor, JsMath.Round(RealRem(minutes, 60.0)))
  }

  /** `formatTime(minutes)` as written. */
  function FormatMinutesAsWritten(minutes: real): string {
    var (h, m) := PartsAsWritten(minutes);
    Render(h, m)
  }

  /** Rounding the remainder by itself can carry into 60: 119.75 minutes print as "1h 60m". */
  lemma AsWrittenShowsSixtyMinutes()
    ensures PartsAsWritten(119.75) == (1, 60)
    ensures FormatMinutesAsWritten(119.75) == "1h 60m"
  {
    JsMath.FloorUnique(119.75 / 60.0, 1);
    assert RealRem(119.75, 60.0) == 59.75;
    JsMath.RoundUnique(59.75, 60);
    assert NatToString(1) == "1";
    assert NatToString(60) == NatToString(6) + ['0'];
  }

  /** The hours and minutes of the duration rounded to whole minutes first. */
  function PartsRounded(minutes: real): (p: (int, int))
    ensures 0 <= p.1 < 60
    ensures 60 * p.0 + p.1 == JsMath.Round(minutes)
  {
    var total := JsMath.Round(minutes);
    (total / 60, total % 60)
  }

  /** The evidently intended minutes-to-text format: round first, so the minutes part always lies in 0..59. */
  function FormatMinutes(minutes: real): string {
    var (h, m) := PartsRounded(minutes);
    Render(h, m)
  }

  /** The duration that printed as "1h 60m" prints as "2h 0m" here. */
  lemma RoundedShowsTwoHours()
    ensures PartsRounded(119.75) == (2, 0)
    ensures FormatMinutes(119.75) == "2h 0m"
  {
    JsMath.RoundUnique(119.75, 120);
    assert NatToString(2) == "2";
    assert NatToString(0) == "0";
  }

  /** On whole minutes both versions split the count into `k div 60` hours and `k mod 60` minutes. */
  lemma PartsAgreeOnWholeMinutes(k: nat)
    ensures PartsAsWritten(k as real) == (k / 60, k % 60)
    ensures PartsRounded(k as real) == (k / 60, k % 60)
  {
    JsMath.FloorOfQuotient(k, 60);
    assert (k as real / 60.0).Floor == k / 60;
    JsMath.CastMul(60, k / 60);
    assert RealRem(k as real, 60.0) == (k % 60) as real;
    JsMath.RoundUnique((k % 60) as real, k % 60);
    JsMath.RoundUnique(k as real, k);
  }

  /** For whole minutes the text is `"Hh Mm"` from an hour on and `"Mm"` below it, in both versions. */
  lemma FormatWholeMinutes(k: nat)
    ensures FormatMinutes(k as real) == FormatMinutesAsWritten(k as real)
    ensures FormatMinutes(k as real)
         == if k >= 60 then NatToString(k / 60) + "h " + NatToString(k % 60) + "m" else NatToString(k) + "m"
  {
    PartsAgreeOnWholeMinutes(k);
  }

  /** What the screen shows for the four counters of the analytics store. */
  datatype Dashboard = Dashboard(
    focusTime: string,
    breakTime: string,
    totalTime: string,
    averageSession: string,
    performance: int,
    totalSessions: int,
    level: Level,
    excellent: bool,
    focusOnCompletion: bool,
    reduceInterruptions: bool,
    consistentProgress: bool)

  /**
   * The screen's figures. The productivity score that picks the level is
   * computed in floating point from the focus time, so it is an input here.
   */
  function ShowDashboard(completed: int, focusMinutes: real, breakMinutes: real, incomplete: int, score: int)
    : (d: Dashboard)
    ensures d.totalSessions == completed + incomplete
    ensures completed >= 0 && incomplete >= 0 ==> 0 <= d.performance <= 100
    ensures !(d.excellent && d.focusOnCompletion)
    ensures completed >= 0 && d.reduceInterruptions ==> !d.excellent
    ensures d.level == GetProductivityLevel(score)
    ensures completed >= 0 && incomplete >= 0 && d.totalSessions == 0 ==> d.performance == 0
    ensures d.performance == PerformancePercentage(completed, incomplete)
    ensures d.excellent <==> d.performance >= 80
    ensures d.focusOnCompletion <==> d.performance < 50
    ensures d.reduceInterruptions <==> incomplete > completed
    ensures d.consistentProgress <==> focusMinutes > 0.0
    ensures d.focusTime == FormatMinutesAsWritten(focusMinutes) && d.breakTime == FormatMinutesAsWritten(breakMinutes)
    ensures d.totalTime == FormatMinutesAsWritten(focusMinutes + breakMinutes)
    ensures d.averageSession == FormatMinutesAsWritten(AverageSessionLength(focusMinutes, completed))
  {
    if completed >= 0 && incomplete > completed then
      InterruptionsCapPerformance(completed, incomplete);
      Build(completed, focusMinutes, breakMinutes, incomplete, score)
    else Build(completed, focusMinutes, breakMinutes, incomplete, score)
  }

  /** The screen prints its four durations with `formatTime` as written. */
  function Build(completed: int, focusMinutes: real, breakMinutes: real, incomplete: int, score: int): Dashboard {
    Dashboard(
      FormatMinutesAsWritten(focusMinutes),
      FormatMinutesAsWritten(breakMinutes),
      FormatMinutesAsWritten(focusMinutes + breakMinutes),
      FormatMinutesAsWritten(AverageSessionLength(focusMinutes, completed)),
      PerformancePercentage(completed, incomplete),
      TotalSessions(completed, incomplete),
      GetProductivityLevel(score),
      ShowsExcellent(completed, incomplete),
      ShowsFocusOnCompletion(completed, incomplete),
      ShowsReduceInterruptions(completed, incomplete),
      ShowsConsistentProgress(focusMinutes))
  }

  /** The screen itself shows the carry bug: 119.75 focus minutes appear as "1h 60m". */
  lemma DashboardShowsSixtyMinutes(completed: int, breakMinutes: real, incomplete: int, score: int)
    ensures ShowDashboard(completed, 119.75, breakMinutes, incomplete, score).focusTime == "1h 60m"
  {
    AsWrittenShowsSixtyMinutes();
  }
}
