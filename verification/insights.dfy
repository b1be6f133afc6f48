/**
 * The insights generator: the optimal session length, the three peak hours,
 * the weekly trend, the focus and consistency scores and up to four
 * recommendations, computed over the COMPLETED sessions of the last thirty
 * days. Durations are summed in milliseconds and ratios are exact; the hour
 * and the day of an instant are the parameters `hourOf` and `dayOf`, the
 * clock is `now`, and the daily-focus variance is the parameter `variance`.
 */
module Insights {
  import opened Common
  import opened Entities
  import opened StatisticsCalc
  import opened StatisticsScreen

  datatype ProductivityInsights = ProductivityInsights(
    optimalSessionLength: int,
    peakProductivityHours: seq<int>,
    weeklyTrend: string,
    recommendations: seq<string>,
    focusScore: int,
    consistencyScore: real)

  /** `getDefaultInsights`. */
  const DEFAULT_INSIGHTS: ProductivityInsights := ProductivityInsights(
    25, [9, 14, 16], "stable",
    ["Start with 25-minute focus sessions (Pomodoro technique)",
     "Take 5-minute breaks between sessions to maintain focus",
     "Schedule sessions during your most alert hours of the day"],
    50, 0.5)

  // ---- calculateOptimalSessionLength ----

  const SUCCESSFUL_MILLIS: int := 300_000

  predicate Successful(s: Session)
  {
    s.workDuration > SUCCESSFUL_MILLIS
  }

  /** Sum of the whole minutes of each session (`workDuration / 60000`, truncated). */
  function MinutesSum(sessions: seq<Session>): int
  {
    if sessions == [] then 0
    else MinutesSum(sessions[..|sessions| - 1]) + TruncDiv(sessions[|sessions| - 1].workDuration, 60_000)
  }

  /** Every session of more than five minutes counts at least five whole minutes. */
  lemma {:induction false} MinutesSumAtLeast(sessions: seq<Session>)
    requires forall s :: s in sessions ==> Successful(s)
    ensures MinutesSum(sessions) >= 5 * |sessions|
    decreases |sessions|
  {
    if sessions != [] {
      var init, last := sessions[..|sessions| - 1], sessions[|sessions| - 1];
      assert forall s :: s in init ==> s in sessions;
      MinutesSumAtLeast(init);
      assert last in sessions;
    }
  }

  /** The average whole minutes of the sessions of more than five minutes. */
  function AverageMinutes(successful: seq<Session>): real
    requires successful != []
  {
    (MinutesSum(successful) as real) / (|successful| as real)
  }

  /**
   * `calculateOptimalSessionLength`: 25 without a completed session of more
   * than five minutes; otherwise the average whole minutes of those
   * sessions, rounded down to a multiple of five.
   */
  function OptimalSessionLength(sessions: seq<Session>): (r: int)
    ensures r % 5 == 0 && r >= 5
    ensures Filter(Filter(sessions, IsCompleted), Successful) == [] ==> r == 25
    ensures var successful := Filter(Filter(sessions, IsCompleted), Successful);
      successful != [] ==> (r as real) <= AverageMinutes(successful) < (r as real) + 5.0
  {
    var completed := Filter(sessions, IsCompleted);
    if completed == [] then 25
    else
      var successful := Filter(completed, Successful);
      if successful == [] then 25
      else
        MinutesSumAtLeast(successful);
        RoundDownToFive(AverageMinutes(successful));
        (AverageMinutes(successful) / 5.0).Floor * 5
  }

  /** `(average / 5).toInt() * 5` of an average of at least five: a multiple of five, at least five, within five below. */
  lemma RoundDownToFive(average: real)
    requires average >= 5.0
    ensures var r := (average / 5.0).Floor * 5;
      r % 5 == 0 && r >= 5 && (r as real) <= average < (r as real) + 5.0
  {
    var q := average / 5.0;
    assert q >= 1.0;
    assert (q.Floor as real) <= q < (q.Floor as real) + 1.0;
    assert average == 5.0 * q;
  }

  // ---- calculatePeakProductivityHours ----

  /**
   * Hour `h` ranks before hour `k`: more focus time, or as much and earlier
   * (the hours are seeded 0..23 in order and the sort is stable).
   */
  predicate Beats(t: seq<int>, h: int, k: int)
  {
    0 <= h < |t| && 0 <= k < |t| && (t[h] > t[k] || (t[h] == t[k] && h < k))
  }

  /** Three hours, ascending, each ranking before every hour left out. */
  predicate IsTopThree(t: seq<int>, r: seq<int>)
  {
    |t| == 24 && |r| == 3 && 0 <= r[0] < r[1] < r[2] < 24
    && forall i, k :: 0 <= i < 3 && 0 <= k < 24 && k !in r ==> Beats(t, r[i], k)
  }

  /** An hour not yet taken. */
  function FirstFree(chosen: seq<int>): (h: int)
    requires |chosen| <= 2
    ensures 0 <= h < 3 && h !in chosen
  {
    if 0 !in chosen then 0 else if 1 !in chosen then 1 else 2
  }

  /** The first hour from `k` on that ranks before every other free hour, starting from `best`. */
  function ScanBest(t: seq<int>, chosen: seq<int>, k: nat, best: int): (b: int)
    requires |t| == 24 && k <= 24 && 0 <= best < 24 && best !in chosen
    requires forall j :: 0 <= j < k && j !in chosen && j != best ==> Beats(t, best, j)
    ensures 0 <= b < 24 && b !in chosen
    ensures forall j :: 0 <= j < 24 && j !in chosen && j != b ==> Beats(t, b, j)
    decreases 24 - k
  {
    if k == 24 then best
    else if k !in chosen && k != best && Beats(t, k, best) then
      BeatsTransitive(t, chosen, k, best);
      ScanBest(t, chosen, k + 1, k)
    else ScanBest(t, chosen, k + 1, best)
  }

  /** A free hour that ranks before the best so far ranks before every free hour it ranked before. */
  lemma BeatsTransitive(t: seq<int>, chosen: seq<int>, k: int, best: int)
    requires Beats(t, k, best)
    requires forall j :: 0 <= j < k && j !in chosen && j != best ==> Beats(t, best, j)
    ensures forall j :: 0 <= j < k + 1 && j !in chosen && j != k ==> Beats(t, k, j)
  {
    forall j | 0 <= j < k + 1 && j !in chosen && j != k
      ensures Beats(t, k, j)
    {
      if j != best {
        assert Beats(t, best, j);
      }
    }
  }

  /** The highest-ranked hour not in `chosen`. */
  function BestOf(t: seq<int>, chosen: seq<int>): (b: int)
    requires |t| == 24 && |chosen| <= 2
    ensures 0 <= b < 24 && b !in chosen
    ensures forall j :: 0 <= j < 24 && j !in chosen && j != b ==> Beats(t, b, j)
  {
    ScanBest(t, chosen, 0, FirstFree(chosen))
  }

  /** `sorted()` of three numbers. */
  function Sort3(a: int, b: int, c: int): (r: seq<int>)
    ensures |r| == 3 && r[0] <= r[1] <= r[2]
    ensures multiset{r[0], r[1], r[2]} == multiset{a, b, c}
  {
    var lo, hi := if a <= b then a else b, if a <= b then b else a;
    if c <= lo then [c, lo, hi] else if c <= hi then [lo, c, hi] else [lo, hi, c]
  }

  /** `sortedByDescending { value }.take(3).map { key }.sorted()` over the 24 hour totals. */
  function TopThree(t: seq<int>): (r: seq<int>)
    requires |t| == 24
    ensures IsTopThree(t, r)
  {
    var b0 := BestOf(t, []);
    var b1 := BestOf(t, [b0]);
    var b2 := BestOf(t, [b0, b1]);
    PicksRankFirst(t, b0, b1, b2);
    Sort3(b0, b1, b2)
  }

  /**
   * Three hours, each ranking before every hour not picked before it, sort
   * into the top three.
   */
  lemma PicksRankFirst(t: seq<int>, b0: int, b1: int, b2: int)
    requires |t| == 24 && 0 <= b0 < 24 && 0 <= b1 < 24 && 0 <= b2 < 24
    requires b1 !in [b0] && b2 !in [b0, b1]
    requires forall j :: 0 <= j < 24 && j !in [] && j != b0 ==> Beats(t, b0, j)
    requires forall j :: 0 <= j < 24 && j !in [b0] && j != b1 ==> Beats(t, b1, j)
    requires forall j :: 0 <= j < 24 && j !in [b0, b1] && j != b2 ==> Beats(t, b2, j)
    ensures IsTopThree(t, Sort3(b0, b1, b2))
  {
    Sort3Distinct(b0, b1, b2);
    var r := Sort3(b0, b1, b2);
    forall i, k | 0 <= i < 3 && 0 <= k < 24 && k !in r
      ensures Beats(t, r[i], k)
    {
      assert k != b0 && k != b1 && k != b2;
      assert r[i] in r;
      assert k !in [] && k !in [b0] && k !in [b0, b1];
    }
  }

  /** Three different hours sort strictly ascending, and the result holds exactly them. */
  lemma Sort3Distinct(a: int, b: int, c: int)
    requires a != b && a != c && b != c
    ensures var r := Sort3(a, b, c);
      r[0] < r[1] < r[2] && forall x :: x in r <==> x == a || x == b || x == c
  {
    var r := Sort3(a, b, c);
    assert forall x :: x in r <==> x in multiset{r[0], r[1], r[2]};
  }

  /** Only one answer fits: two lists that both rank as the top three are the same list. */
  lemma {:induction false} TopThreeUnique(t: seq<int>, r1: seq<int>, r2: seq<int>)
    requires IsTopThree(t, r1) && IsTopThree(t, r2)
    ensures r1 == r2
  {
    forall i, j | 0 <= i < 3 && 0 <= j < 3
      ensures r1[i] in r2 || r2[j] in r1
    {
      CrossedHours(t, r1, r2, i, j);
    }
    if r1[0] in r2 && r1[1] in r2 && r1[2] in r2 {
      ThreeInThree(r1, r2);
    } else {
      assert r2[0] in r1 && r2[1] in r1 && r2[2] in r1;
      ThreeInThree(r2, r1);
    }
    AscendingSameElements(r1, r2);
  }

  /** An hour of each list missing from the other would rank both before and after the other one. */
  lemma CrossedHours(t: seq<int>, r1: seq<int>, r2: seq<int>, i: int, j: int)
    requires IsTopThree(t, r1) && IsTopThree(t, r2) && 0 <= i < 3 && 0 <= j < 3
    ensures r1[i] in r2 || r2[j] in r1
  {
    var x, y := r1[i], r2[j];
    assert x !in r2 && y !in r1 ==> Beats(t, x, y) && Beats(t, y, x);
  }

  /** Three different hours that all lie among three hours are those three hours. */
  lemma ThreeInThree(r1: seq<int>, r2: seq<int>)
    requires |r1| == 3 && r1[0] < r1[1] < r1[2] && |r2| == 3 && r2[0] < r2[1] < r2[2]
    requires r1[0] in r2 && r1[1] in r2 && r1[2] in r2
    ensures forall x :: x in r1 <==> x in r2
  {
  }

  lemma AscendingSameElements(r1: seq<int>, r2: seq<int>)
    requires |r1| == 3 && r1[0] < r1[1] < r1[2] && |r2| == 3 && r2[0] < r2[1] < r2[2]
    requires forall x :: x in r1 <==> x in r2
    ensures r1 == r2
  {
    assert r1[0] in r2 && r1[1] in r2 && r1[2] in r2;
    assert r2[0] in r1 && r2[1] in r1 && r2[2] in r1;
  }

  /** The focus time per hour of the day. */
  function HourTotals(sessions: seq<Session>, hourOf: int -> Hour): (t: seq<int>)
    ensures |t| == 24
  {
    seq(24, h requires 0 <= h < 24 => SlotTotal(sessions, HourSlot(hourOf), h))
  }

  /**
   * `calculatePeakProductivityHours`: sum each session into its hour, then
   * take the three top-ranked hours in ascending order.
   */
  method CalculatePeakProductivityHours(sessions: seq<Session>, hourOf: int -> Hour) returns (peak: seq<int>)
    ensures IsTopThree(HourTotals(sessions, hourOf), peak)
  {
    var hourProductivity := FillBuckets(sessions, 24, HourSlot(hourOf));
    assert hourProductivity[..] == HourTotals(sessions, hourOf);
    peak := TopThree(hourProductivity[..]);
  }

  // ---- analyzeWeeklyTrend ----

  /** `7 * 24 * 60 * 60 * 1000`, which fits a 32-bit Int. */
  const WEEK_MILLIS: int := 7 * 24 * 60 * 60 * 1000

  const TREND_CODES: seq<string> := ["improving_rapidly", "improving", "stable", "declining", "insufficient_data"]

  /** Focus time of the sessions completed in `lo..hi`. */
  function WindowFocus(sessions: seq<Session>, lo: int, hi: int): int
  {
    TotalDuration(Filter(sessions, (s: Session) => lo <= s.completionTimestamp <= hi))
  }

  /**
   * `analyzeWeeklyTrend`: fewer than 14 sessions is "insufficient_data";
   * otherwise the last seven days against the seven before, where no focus
   * the week before counts as "improving" and the thresholds are 120%,
   * 110% and 80%.
   */
  function WeeklyTrend(sessions: seq<Session>, now: int): (r: string)
    ensures r in TREND_CODES
    ensures |sessions| < 14 <==> r == "insufficient_data"
    ensures |sessions| >= 14 && WindowFocus(sessions, now - 2 * WEEK_MILLIS, now - WEEK_MILLIS - 1) == 0 ==> r == "improving"
  {
    if |sessions| < 14 then "insufficient_data"
    else
      var lastWeekStart := now - WEEK_MILLIS;
      var lastWeekFocus := WindowFocus(sessions, lastWeekStart, now);
      var previousWeekFocus := WindowFocus(sessions, lastWeekStart - WEEK_MILLIS, lastWeekStart - 1);
      if previousWeekFocus == 0 then "improving"
      else if 5 * lastWeekFocus > 6 * previousWeekFocus then "improving_rapidly"
      else if 10 * lastWeekFocus > 11 * previousWeekFocus then "improving"
      else if 5 * lastWeekFocus < 4 * previousWeekFocus then "declining"
      else "stable"
  }

  // ---- the scores ----

  function Clamp(x: real, lo: real, hi: real): (r: real)
    requires lo <= hi
    ensures lo <= r <= hi
    ensures lo <= x <= hi ==> r == x
  {
    if x < lo then lo else if x > hi then hi else x
  }

  /**
   * `calculateConsistencyScore`: 0.5 below seven sessions, 0.3 with fewer
   * than three distinct days, 0 when there is no focus time at all, else
   * one minus the variance clamped to 0..1.
   */
  function ConsistencyScore(sessions: seq<Session>, dayOf: int -> int, variance: real): (r: real)
    ensures 0.0 <= r <= 1.0
    ensures |sessions| < 7 ==> r == 0.5
    ensures |sessions| >= 7 && |set s | s in sessions :: dayOf(s.completionTimestamp)| < 3 ==> r == 0.3
    ensures |sessions| >= 7 && |set s | s in sessions :: dayOf(s.completionTimestamp)| >= 3 && TotalDuration(sessions) == 0 ==> r == 0.0
    ensures |sessions| >= 7 && |set s | s in sessions :: dayOf(s.completionTimestamp)| >= 3 && TotalDuration(sessions) != 0 ==>
      (0.0 <= variance <= 1.0 ==> r == 1.0 - variance) && (variance > 1.0 ==> r == 0.0) && (variance < 0.0 ==> r == 1.0)
  {
    if |sessions| < 7 then 0.5
    else
      var days := set s | s in sessions :: dayOf(s.completionTimestamp);
      if |days| < 3 then 0.3
      else if TotalDuration(sessions) == 0 then 0.0
      else 1.0 - Clamp(variance, 0.0, 1.0)
  }

  /** Kotlin `Double.toInt()` on a value that fits: truncation toward zero. */
  function TruncReal(x: real): int
  {
    if x >= 0.0 then x.Floor else -((-x).Floor)
  }

  /** The weighted score before truncation: completion 40%, duration up to an hour 30%, consistency 30%. */
  function RawFocusScore(sessions: seq<Session>, dayOf: int -> int, variance: real): real
    requires sessions != []
  {
    var completed := Filter(sessions, IsCompleted);
    var completionRate := (|completed| as real) / (|sessions| as real);
    var averageMinutes := if completed != [] then (TotalDuration(completed) as real) / (|completed| as real) / 60000.0 else 0.0;
    completionRate * 40.0 + Clamp(averageMinutes / 60.0, 0.0, 1.0) * 30.0 + ConsistencyScore(sessions, dayOf, variance) * 30.0
  }

  /** `calculateFocusScore`: 0 without sessions, else the weighted score truncated and clamped to 0..100. */
  function FocusScore(sessions: seq<Session>, dayOf: int -> int, variance: real): (r: int)
    ensures 0 <= r <= 100
    ensures sessions == [] ==> r == 0
  {
    if |sessions| == 0 then 0
    else
      var score := TruncReal(RawFocusScore(sessions, dayOf, variance));
      if score < 0 then 0 else if score > 100 then 100 else score
  }

  /** The weights add up to 100, so the clamp of the score never bites and the truncated score is the score. */
  lemma {:induction false} FocusScoreWithinWeights(sessions: seq<Session>, dayOf: int -> int, variance: real)
    requires sessions != []
    ensures 0.0 <= RawFocusScore(sessions, dayOf, variance) <= 100.0
    ensures FocusScore(sessions, dayOf, variance) == RawFocusScore(sessions, dayOf, variance).Floor
  {
    var completed := Filter(sessions, IsCompleted);
    var rate := (|completed| as real) / (|sessions| as real);
    assert 0.0 <= rate <= 1.0;
  }

  // ---- generateRecommendations ----

  predicate NoDuplicates<T(==)>(s: seq<T>)
  {
    forall i, j :: 0 <= i < j < |s| ==> s[i] != s[j]
  }

  /** `distinct()`: the first occurrence of each item, in order. */
  function Distinct(s: seq<string>): (r: seq<string>)
    ensures NoDuplicates(r)
    ensures forall x :: x in r <==> x in s
    ensures |r| <= |s|
    ensures s != [] ==> r != [] && r[0] == s[0]
  {
    if s == [] then []
    else
      var d := Distinct(s[..|s| - 1]);
      var x := s[|s| - 1];
      assert forall y :: y in s <==> y in s[..|s| - 1] || y == x;
      if x in d then d else d + [x]
  }

  /** A list without duplicates is its own `distinct()`. */
  lemma {:induction false} DistinctOfDistinct(s: seq<string>)
    requires NoDuplicates(s)
    ensures Distinct(s) == s
    decreases |s|
  {
    if s != [] {
      var init := s[..|s| - 1];
      DistinctOfDistinct(init);
      assert s[|s| - 1] !in init;
      assert init + [s[|s| - 1]] == s;
    }
  }

  /** `take(n)`. */
  function Take<T>(s: seq<T>, n: nat): (r: seq<T>)
    ensures |r| <= n && |r| <= |s| && r == s[..|r|]
    ensures |s| <= n ==> r == s
  {
    if |s| <= n then s else s[..n]
  }

  /** The fixed texts of each `when` block, in the order of its branches. */
  const LENGTH_TEXTS: seq<string> := [
    "Try gradually increasing session length to build focus stamina",
    "Consider breaking long sessions into focused chunks with breaks"]
  const TREND_TEXTS: seq<string> := [
    "Excellent progress! Consider setting more ambitious goals",
    "You're building great momentum - keep your current routine",
    "Try reducing session length to rebuild consistency",
    "Consistency is key. Try adding one extra session per week"]
  const FOCUS_TEXTS: seq<string> := [
    "Start with shorter, more frequent sessions to build habit",
    "You're a focus master! Challenge yourself with complex tasks",
    "Good foundation. Try eliminating one distraction at a time"]
  const CONSISTENCY_TEXTS: seq<string> := [
    "Focus on building daily habit rather than long sessions",
    "Great consistency! Your routine is working well"]

  function LengthRecommendation(optimalLength: int): string
  {
    if optimalLength < 15 then LENGTH_TEXTS[0]
    else if optimalLength > 90 then LENGTH_TEXTS[1]
    else "Your " + IntToString(optimalLength) + "-minute sessions are working well - maintain this duration"
  }

  /** The part of the day an hour falls in. */
  function BestTime(hour: int): (w: string)
    ensures w in ["morning", "midday", "afternoon", "evening"]
  {
    if 5 <= hour <= 10 then "morning"
    else if 11 <= hour <= 15 then "midday"
    else if 16 <= hour <= 20 then "afternoon"
    else "evening"
  }

  /** Hours that share a word form one of the four consecutive ranges 5..10, 11..15, 16..20 and the rest. */
  lemma {:induction false} BestTimeRanges(a: int, b: int)
    requires 0 <= a <= b < 24 && BestTime(a) == BestTime(b) && BestTime(a) != "evening"
    ensures forall h :: a <= h <= b ==> BestTime(h) == BestTime(a)
  {
  }

  function TrendRecommendation(trend: string): seq<string>
  {
    if trend == "improving_rapidly" then [TREND_TEXTS[0]]
    else if trend == "improving" then [TREND_TEXTS[1]]
    else if trend == "declining" then [TREND_TEXTS[2]]
    else if trend == "stable" then [TREND_TEXTS[3]]
    else []
  }

  function FocusRecommendation(focusScore: int): string
  {
    if focusScore < 30 then FOCUS_TEXTS[0]
    else if focusScore > 80 then FOCUS_TEXTS[1]
    else FOCUS_TEXTS[2]
  }

  function ConsistencyRecommendation(consistencyScore: real): seq<string>
  {
    if consistencyScore < 0.3 then [CONSISTENCY_TEXTS[0]]
    else if consistencyScore > 0.8 then [CONSISTENCY_TEXTS[1]]
    else []
  }

  function TimeRecommendation(peakHours: seq<int>): seq<string>
  {
    if peakHours == [] then []
    else ["You're most productive in the " + BestTime(peakHours[0]) + ". Schedule important work then."]
  }

  /** The list the recommendations are appended to, before `distinct().take(4)`. */
  function Candidates(optimalLength: int, peakHours: seq<int>, trend: string, focusScore: int, consistencyScore: real): seq<string>
  {
    [LengthRecommendation(optimalLength)] + TimeRecommendation(peakHours) + TrendRecommendation(trend)
      + [FocusRecommendation(focusScore)] + ConsistencyRecommendation(consistencyScore)
  }

  /**
   * `generateRecommendations`: one text on the session length, one on the
   * best time of day when there are peak hours, one per known trend, one on
   * the focus score and one on a low or high consistency; then at most four
   * different texts, in the order they were added.
   */
  method GenerateRecommendations(optimalLength: int, peakHours: seq<int>, trend: string, focusScore: int, consistencyScore: real)
    returns (recommendations: seq<string>)
    ensures recommendations == Take(Distinct(Candidates(optimalLength, peakHours, trend, focusScore, consistencyScore)), 4)
    ensures 1 <= |recommendations| <= 4 && NoDuplicates(recommendations)
    ensures recommendations[0] == LengthRecommendation(optimalLength)
  {
    var added: seq<string> := [LengthRecommendation(optimalLength)];
    added := added + TimeRecommendation(peakHours);
    added := added + TrendRecommendation(trend);
    added := added + [FocusRecommendation(focusScore)];
    added := added + ConsistencyRecommendation(consistencyScore);
    var unique := Distinct(added);
    NoDuplicatesPrefix(unique, 4);
    recommendations := Take(unique, 4);
  }

  lemma NoDuplicatesPrefix<T>(s: seq<T>, n: nat)
    requires NoDuplicates(s)
    ensures NoDuplicates(Take(s, n))
  {
  }

  /** The texts that can be added are all different, so `distinct()` drops nothing and the first four are kept. */
  lemma {:induction false} RecommendationsArePrefix(optimalLength: int, peakHours: seq<int>, trend: string, focusScore: int, consistencyScore: real)
    ensures var c := Candidates(optimalLength, peakHours, trend, focusScore, consistencyScore);
      NoDuplicates(c) && Take(Distinct(c), 4) == Take(c, 4)
  {
    var c := Candidates(optimalLength, peakHours, trend, focusScore, consistencyScore);
    CandidatesDistinct(optimalLength, peakHours, trend, focusScore, consistencyScore);
    DistinctOfDistinct(c);
  }

  /** No fixed text is longer than 63 characters. */
  lemma FixedTextsShort()
    ensures forall x :: x in LENGTH_TEXTS + TREND_TEXTS + FOCUS_TEXTS + CONSISTENCY_TEXTS ==> |x| <= 63
  {
  }

  /** The fixed texts of different blocks all differ. */
  lemma FixedTextsDiffer()
    ensures forall x, y :: x in LENGTH_TEXTS && y in TREND_TEXTS ==> x != y
    ensures forall x, y :: x in LENGTH_TEXTS + TREND_TEXTS && y in FOCUS_TEXTS ==> x != y
    ensures forall x, y :: x in LENGTH_TEXTS + TREND_TEXTS + FOCUS_TEXTS && y in CONSISTENCY_TEXTS ==> x != y
  {
  }

  /** The length text is a fixed one, or 65 characters long with its two-digit minute count. */
  lemma LengthTextOrigin(optimalLength: int)
    ensures LengthRecommendation(optimalLength) in LENGTH_TEXTS || |LengthRecommendation(optimalLength)| == 65
  {
    if 15 <= optimalLength <= 90 {
      assert |NatToString(optimalLength / 10)| == 1;
    }
  }

  /** The time-of-day text is 67 to 70 characters long. */
  lemma TimeTextLength(peakHours: seq<int>)
    ensures |TimeRecommendation(peakHours)| <= 1
    ensures forall x :: x in TimeRecommendation(peakHours) ==> 67 <= |x| <= 70
  {
  }

  lemma FixedTextOrigins(trend: string, focusScore: int, consistencyScore: real)
    ensures |TrendRecommendation(trend)| <= 1 && |ConsistencyRecommendation(consistencyScore)| <= 1
    ensures forall x :: x in TrendRecommendation(trend) ==> x in TREND_TEXTS
    ensures FocusRecommendation(focusScore) in FOCUS_TEXTS
    ensures forall x :: x in ConsistencyRecommendation(consistencyScore) ==> x in CONSISTENCY_TEXTS
  {
  }

  /** Appending texts not yet present to a list without duplicates keeps it without duplicates. */
  lemma AppendNew(a: seq<string>, b: seq<string>)
    requires NoDuplicates(a) && |b| <= 1
    requires forall x, y :: x in a && y in b ==> x != y
    ensures NoDuplicates(a + b)
  {
    var c := a + b;
    forall i, j | 0 <= i < j < |c| ensures c[i] != c[j] {
      if j >= |a| {
        assert c[i] in a && c[j] in b;
      }
    }
  }

  /** What the list holds after each block: fixed texts of the blocks so far, or texts longer than any fixed one. */
  predicate BlockTexts(a: seq<string>, fixed: seq<string>)
  {
    forall x :: x in a ==> x in fixed || |x| >= 64
  }

  /** Adding a text of a block whose fixed texts differ from those so far adds a text not yet present. */
  lemma AddBlock(a: seq<string>, fixed: seq<string>, b: seq<string>, block: seq<string>)
    requires NoDuplicates(a) && BlockTexts(a, fixed)
    requires |b| <= 1 && forall y :: y in b ==> y in block
    requires forall x, y :: x in fixed && y in block ==> x != y
    requires forall y :: y in block ==> |y| <= 63
    ensures NoDuplicates(a + b) && BlockTexts(a + b, fixed + block)
  {
    AppendNew(a, b);
  }

  /**
   * One text from each block never repeats, given blocks of fixed texts `L`,
   * `T`, `F`, `C` that differ from each other and are shorter than the
   * computed texts.
   */
  lemma {:induction false} BlocksDistinctOver(l: string, t: seq<string>, r: seq<string>, f: string, k: seq<string>,
                                              L: seq<string>, T: seq<string>, F: seq<string>, C: seq<string>)
    requires forall x :: x in L + T + F + C ==> |x| <= 63
    requires forall x, y :: x in L && y in T ==> x != y
    requires forall x, y :: x in L + T && y in F ==> x != y
    requires forall x, y :: x in L + T + F && y in C ==> x != y
    requires l in L || |l| == 65
    requires |t| <= 1 && forall x :: x in t ==> 67 <= |x| <= 70
    requires |r| <= 1 && forall x :: x in r ==> x in T
    requires f in F
    requires |k| <= 1 && forall x :: x in k ==> x in C
    ensures NoDuplicates([l] + t + r + [f] + k)
  {
    assert BlockTexts([l], L);
    AppendNew([l], t);
    assert BlockTexts([l] + t, L);
    AddBlock([l] + t, L, r, T);
    AddBlock([l] + t + r, L + T, [f], F);
    AddBlock([l] + t + r + [f], L + T + F, k, C);
  }

  /** One text from each block, of the origins the lemmas above give, never repeats. */
  lemma BlocksDistinct(l: string, t: seq<string>, r: seq<string>, f: string, k: seq<string>)
    requires l in LENGTH_TEXTS || |l| == 65
    requires |t| <= 1 && forall x :: x in t ==> 67 <= |x| <= 70
    requires |r| <= 1 && forall x :: x in r ==> x in TREND_TEXTS
    requires f in FOCUS_TEXTS
    requires |k| <= 1 && forall x :: x in k ==> x in CONSISTENCY_TEXTS
    ensures NoDuplicates([l] + t + r + [f] + k)
  {
    FixedTextsShort();
    FixedTextsDiffer();
    BlocksDistinctOver(l, t, r, f, k, LENGTH_TEXTS, TREND_TEXTS, FOCUS_TEXTS, CONSISTENCY_TEXTS);
  }

  /** The texts that can be added all differ from each other. */
  lemma {:induction false} CandidatesDistinct(optimalLength: int, peakHours: seq<int>, trend: string, focusScore: int, consistencyScore: real)
    ensures NoDuplicates(Candidates(optimalLength, peakHours, trend, focusScore, consistencyScore))
  {
    LengthTextOrigin(optimalLength);
    TimeTextLength(peakHours);
    FixedTextOrigins(trend, focusScore, consistencyScore);
    BlocksDistinct(LengthRecommendation(optimalLength), TimeRecommendation(peakHours), TrendRecommendation(trend),
      FocusRecommendation(focusScore), ConsistencyRecommendation(consistencyScore));
  }

  // ---- generateInsights ----

  /**
   * `generateInsights` over the sessions read for the last thirty days:
   * the fixed defaults when none of them is COMPLETED, else every figure
   * computed over the COMPLETED ones.
   */
  method GenerateInsights(sessions: seq<Session>, hourOf: int -> Hour, dayOf: int -> int, variance: real, now: int)
    returns (r: ProductivityInsights)
    ensures Filter(sessions, IsCompleted) == [] ==> r == DEFAULT_INSIGHTS
    ensures var completed := Filter(sessions, IsCompleted);
      completed != [] ==>
        && r.optimalSessionLength == OptimalSessionLength(completed)
        && IsTopThree(HourTotals(completed, hourOf), r.peakProductivityHours)
        && r.weeklyTrend == WeeklyTrend(completed, now)
        && r.focusScore == FocusScore(completed, dayOf, variance)
        && r.consistencyScore == ConsistencyScore(completed, dayOf, variance)
        && r.recommendations == Take(Distinct(Candidates(r.optimalSessionLength, r.peakProductivityHours,
                                                         r.weeklyTrend, r.focusScore, r.consistencyScore)), 4)
    ensures |r.peakProductivityHours| == 3 && 1 <= |r.recommendations| <= 4 && 0 <= r.focusScore <= 100
  {
    var completedSessions := Filter(sessions, IsCompleted);
    if completedSessions == [] {
      return DEFAULT_INSIGHTS;
    }
    var optimalLength := OptimalSessionLength(completedSessions);
    var peakHours := CalculatePeakProductivityHours(completedSessions, hourOf);
    var weeklyTrend := WeeklyTrend(completedSessions, now);
    var focusScore := FocusScore(completedSessions, dayOf, variance);
    var consistencyScore := ConsistencyScore(completedSessions, dayOf, variance);
    var recommendations := GenerateRecommendations(optimalLength, peakHours, weeklyTrend, focusScore, consistencyScore);
    r := ProductivityInsights(optimalLength, peakHours, weeklyTrend, recommendations, focusScore, consistencyScore);
  }

  /** `getOptimalSessionTime`: "<h>:00" of the first peak hour, "14:00" without one. */
  function OptimalSessionTime(insights: ProductivityInsights): (r: string)
    ensures insights.peakProductivityHours == [] ==> r == "14:00"
  {
    if insights.peakProductivityHours != [] then IntToString(insights.peakProductivityHours[0]) + ":00" else "14:00"
  }

  /** Peak hours are never empty, so the suggested time is always the first peak hour. */
  lemma {:induction false} OptimalSessionTimeIsPeak(sessions: seq<Session>, hourOf: int -> Hour, dayOf: int -> int,
                                                    variance: real, now: int, r: ProductivityInsights)
    requires r == DEFAULT_INSIGHTS || IsTopThree(HourTotals(sessions, hourOf), r.peakProductivityHours)
    ensures OptimalSessionTime(r) == IntToString(r.peakProductivityHours[0]) + ":00"
    ensures 0 <= r.peakProductivityHours[0] < 24
  {
  }
}
