/**
 * The statistics formulas of UserRepository.calculateStatistics (repeated
 * inline in UserDataManager.calculateAndSaveStatistics): over the COMPLETED
 * sessions of a list, their number, summed focus time, truncated average,
 * longest duration, the completion rate over the whole list, and the weekday
 * with the largest summed focus time. The weekday of an instant comes from
 * the calendar and time zone and is the parameter `weekdayOf`.
 */
module StatisticsCalc {
  import opened Common
  import opened Entities

  function CompletedRow(): Session -> bool
  {
    (s: Session) => s.status == COMPLETED
  }

  /** `filter { it.status == "COMPLETED" }`. */
  function CompletedOf(sessions: seq<Session>): (r: seq<Session>)
    ensures forall s :: s in r <==> s in sessions && s.status == COMPLETED
  {
    Filter(sessions, CompletedRow())
  }

  /** `sumOf { it.workDuration }`. */
  function TotalDuration(sessions: seq<Session>): int
    decreases |sessions|
  {
    if sessions == [] then 0 else TotalDuration(sessions[..|sessions| - 1]) + sessions[|sessions| - 1].workDuration
  }

  lemma {:induction false} TotalDurationAppend(a: seq<Session>, b: seq<Session>)
    ensures TotalDuration(a + b) == TotalDuration(a) + TotalDuration(b)
    decreases |b|
  {
    if b != [] {
      var ab := a + b;
      assert ab[..|ab| - 1] == a + b[..|b| - 1];
      assert ab[|ab| - 1] == b[|b| - 1];
      TotalDurationAppend(a, b[..|b| - 1]);
      assert TotalDuration(ab) == TotalDuration(ab[..|ab| - 1]) + ab[|ab| - 1].workDuration;
      assert TotalDuration(b) == TotalDuration(b[..|b| - 1]) + b[|b| - 1].workDuration;
    } else {
      assert a + b == a;
    }
  }

  /** With no negative durations the total is at least every single duration. */
  lemma {:induction false} TotalDurationBounds(sessions: seq<Session>)
    requires forall s :: s in sessions ==> s.workDuration >= 0
    ensures TotalDuration(sessions) >= 0
    ensures forall s :: s in sessions ==> s.workDuration <= TotalDuration(sessions)
    decreases |sessions|
  {
    if sessions != [] {
      var init := sessions[..|sessions| - 1];
      assert forall s :: s in init ==> s in sessions;
      TotalDurationBounds(init);
    }
  }

  /** `maxByOrNull { it.workDuration }?.workDuration ?: 0`. */
  function Longest(sessions: seq<Session>): (r: int)
    ensures sessions == [] ==> r == 0
    ensures sessions != [] ==> exists s :: s in sessions && s.workDuration == r
    ensures forall s :: s in sessions ==> s.workDuration <= r
    decreases |sessions|
  {
    if sessions == [] then 0
    else if |sessions| == 1 then sessions[0].workDuration
    else
      var m := Longest(sessions[..|sessions| - 1]);
      assert sessions[..|sessions| - 1][0] in sessions[..|sessions| - 1];
      if sessions[|sessions| - 1].workDuration > m then sessions[|sessions| - 1].workDuration else m
  }

  /** `totalFocusTime / completedSessions.size`, or 0 for none (Long division truncates). */
  function Average(sessions: seq<Session>): int
  {
    if sessions == [] then 0 else TruncDiv(TotalDuration(sessions), |sessions|)
  }

  /**
   * For sessions of non-negative duration the average lies between 0 and the
   * longest session, and is the floor of the exact mean.
   */
  lemma {:induction false} AverageBounds(sessions: seq<Session>)
    requires sessions != []
    requires forall s :: s in sessions ==> s.workDuration >= 0
    ensures 0 <= Average(sessions) <= Longest(sessions)
    ensures Average(sessions) * |sessions| <= TotalDuration(sessions) < (Average(sessions) + 1) * |sessions|
  {
    var t, n, l, q := TotalDuration(sessions), |sessions|, Longest(sessions), Average(sessions);
    assert 0 <= t by { TotalDurationBounds(sessions); }
    assert t <= n * l by { LongestBoundsTotal(sessions); }
    assert q == t / n by { AverageIsFloor(sessions); }
    DivBounds(t, n, l, q);
  }

  lemma {:induction false} AverageIsFloor(sessions: seq<Session>)
    requires sessions != [] && TotalDuration(sessions) >= 0
    ensures Average(sessions) == TotalDuration(sessions) / |sessions|
  {
  }

  lemma {:induction false} DivBounds(t: int, n: int, bound: int, q: int)
    requires 0 <= t <= n * bound && n > 0 && q == t / n
    ensures 0 <= q <= bound
    ensures q * n <= t < (q + 1) * n
  {
    assert t == q * n + t % n;
    if q > bound {
      MulLe(n, bound + 1, q);
    }
  }

  lemma {:induction false} MulLe(n: nat, a: int, b: int)
    requires a <= b
    ensures n * a <= n * b
  {
  }

  lemma {:induction false} LongestBoundsTotal(sessions: seq<Session>)
    ensures TotalDuration(sessions) <= |sessions| * Longest(sessions)
    decreases |sessions|
  {
    if sessions != [] {
      var init := sessions[..|sessions| - 1];
      var last := sessions[|sessions| - 1];
      var n, li, l := |init|, Longest(init), Longest(sessions);
      LongestBoundsTotal(init);
      assert last in sessions;
      assert last.workDuration <= l;
      if init != [] {
        assert init[0] in init;
        var s :| s in init && s.workDuration == li;
        assert s in sessions;
        MulLe(n, li, l);
      }
      MulSucc(n, l);
    }
  }

  lemma {:induction false} MulSucc(n: int, l: int)
    ensures (n + 1) * l == n * l + l
  {
  }

  /** `completedSessions.size / totalAttempts * 100` as an exact ratio, or 0 for no attempts. */
  function CompletionRate(completed: nat, total: nat): (r: real)
    ensures total == 0 ==> r == 0.0
    ensures completed <= total ==> 0.0 <= r <= 100.0
    ensures total > 0 ==> (r == 100.0 <==> completed == total)
  {
    if total > 0 then (completed as real) / (total as real) * 100.0 else 0.0
  }

  // ---- most productive day ----

  /** The weekdays of `sessions` in the order `groupBy` first meets them. */
  function FirstSeenDays(sessions: seq<Session>, weekdayOf: int -> Weekday): (r: seq<Weekday>)
    ensures forall d :: d in r <==> exists s :: s in sessions && weekdayOf(s.completionTimestamp) == d
    ensures sessions != [] ==> r != []
    ensures forall i, j :: 0 <= i < j < |r| ==> r[i] != r[j]
    decreases |sessions|
  {
    if sessions == [] then []
    else
      var init := sessions[..|sessions| - 1];
      var last := sessions[|sessions| - 1];
      var r := FirstSeenDays(init, weekdayOf);
      assert sessions == init + [last];
      if weekdayOf(last.completionTimestamp) in r then r else r + [weekdayOf(last.completionTimestamp)]
  }

  /** Summed focus time of the sessions that fall on weekday `d`. */
  function DaySum(sessions: seq<Session>, weekdayOf: int -> Weekday, d: Weekday): int
    decreases |sessions|
  {
    if sessions == [] then 0
    else
      var last := sessions[|sessions| - 1];
      DaySum(sessions[..|sessions| - 1], weekdayOf, d) + (if weekdayOf(last.completionTimestamp) == d then last.workDuration else 0)
  }

  function DayScore(sessions: seq<Session>, weekdayOf: int -> Weekday): Weekday -> int
  {
    (d: Weekday) => DaySum(sessions, weekdayOf, d)
  }

  /**
   * `maxByOrNull`: the position of the first entry whose score is maximal (a
   * later entry must be strictly larger to win).
   */
  function FirstMax(days: seq<Weekday>, score: Weekday -> int): (k: nat)
    requires days != []
    ensures k < |days|
    ensures forall j :: 0 <= j < |days| ==> score(days[j]) <= score(days[k])
    ensures forall j :: 0 <= j < k ==> score(days[j]) < score(days[k])
    decreases |days|
  {
    if |days| == 1 then 0
    else
      var k := FirstMax(days[..|days| - 1], score);
      if score(days[|days| - 1]) > score(days[k]) then |days| - 1 else k
  }

  /** `calculateMostProductiveDay`: "N/A" for no sessions, otherwise the label of the best weekday. */
  function MostProductiveDay(sessions: seq<Session>, weekdayOf: int -> Weekday): (r: string)
  {
    if sessions == [] then "N/A"
    else
      var days := FirstSeenDays(sessions, weekdayOf);
      DayLabel(days[FirstMax(days, DayScore(sessions, weekdayOf))])
  }

  /**
   * The result is "N/A" exactly for an empty list; otherwise it names a
   * weekday some session falls on, whose summed focus time no other
   * session's weekday exceeds.
   */
  lemma {:induction false} MostProductiveDaySpec(sessions: seq<Session>, weekdayOf: int -> Weekday)
    ensures MostProductiveDay(sessions, weekdayOf) == "N/A" <==> sessions == []
    ensures sessions != [] ==> exists d ::
      && MostProductiveDay(sessions, weekdayOf) == DayLabel(d)
      && (exists s :: s in sessions && weekdayOf(s.completionTimestamp) == d)
      && forall s :: s in sessions ==> DaySum(sessions, weekdayOf, weekdayOf(s.completionTimestamp)) <= DaySum(sessions, weekdayOf, d)
  {
    if sessions != [] {
      var days := FirstSeenDays(sessions, weekdayOf);
      var score := DayScore(sessions, weekdayOf);
      var k := FirstMax(days, score);
      var d := days[k];
      assert MostProductiveDay(sessions, weekdayOf) == DayLabel(d);
      assert DayLabel(d) != "N/A" by {
        assert DayLabel(d)[1] != '/';
      }
      assert d in days;
      var w :| w in sessions && weekdayOf(w.completionTimestamp) == d;
      forall s | s in sessions
        ensures DaySum(sessions, weekdayOf, weekdayOf(s.completionTimestamp)) <= DaySum(sessions, weekdayOf, d)
      {
        assert weekdayOf(s.completionTimestamp) in days;
        var j :| 0 <= j < |days| && days[j] == weekdayOf(s.completionTimestamp);
        assert score(days[j]) <= score(d);
      }
    }
  }

  /**
   * Among the weekdays with the largest sum, the one `groupBy` met first wins:
   * every weekday met before it has a strictly smaller sum.
   */
  lemma {:induction false} MostProductiveDayTieBreak(sessions: seq<Session>, weekdayOf: int -> Weekday)
    requires sessions != []
    ensures var days := FirstSeenDays(sessions, weekdayOf);
      forall i :: 0 <= i < |days| && MostProductiveDay(sessions, weekdayOf) == DayLabel(days[i]) ==>
        forall j :: 0 <= j < i ==> DaySum(sessions, weekdayOf, days[j]) < DaySum(sessions, weekdayOf, days[i])
  {
    var days := FirstSeenDays(sessions, weekdayOf);
    var score := DayScore(sessions, weekdayOf);
    var k := FirstMax(days, score);
    var d := days[k];
    forall i, j | 0 <= i < |days| && MostProductiveDay(sessions, weekdayOf) == DayLabel(days[i]) && 0 <= j < i
      ensures DaySum(sessions, weekdayOf, days[j]) < DaySum(sessions, weekdayOf, days[i])
    {
      DayLabelInjective(d, days[i]);
      assert i == k;
      assert score(days[j]) < score(d);
    }
  }

  // ---- the statistics row ----

  /**
   * `calculateStatistics`: a new row (statId 0, to be generated) for the
   * given user and period. `now` stands for the `lastUpdated` default.
   */
  function CalculateStatistics(userId: string, firebaseUid: Option<string>, periodType: string, startDate: int, endDate: int,
                               sessions: seq<Session>, weekdayOf: int -> Weekday, now: int): (st: Statistics)
    ensures st.statId == 0 && st.userId == userId && st.firebaseUid == firebaseUid && st.periodType == periodType
    ensures st.periodStart == startDate && st.periodEnd == endDate && st.lastUpdated == now
    ensures 0 <= st.noOfSessions <= |sessions|
  {
    var completed := CompletedOf(sessions);
    Statistics(0, userId, firebaseUid, periodType, startDate, endDate,
      |completed|, TotalDuration(completed), Average(completed), Longest(completed),
      CompletionRate(|completed|, |sessions|), MostProductiveDay(completed, weekdayOf), now)
  }

  /** The completed count never exceeds the list, so the rate lies in [0, 100]. */
  lemma {:induction false} CompletionRateInRange(userId: string, firebaseUid: Option<string>, periodType: string, startDate: int, endDate: int,
                                                 sessions: seq<Session>, weekdayOf: int -> Weekday, now: int)
    ensures var st := CalculateStatistics(userId, firebaseUid, periodType, startDate, endDate, sessions, weekdayOf, now);
      0.0 <= st.completionRate <= 100.0
  {
  }

  /**
   * Over a list with no COMPLETED session every figure is zero and the day
   * is "N/A"; the rate is 0 only for an empty list (CANCELLED sessions alone
   * also give 0).
   */
  lemma {:induction false} NoCompletedSessions(userId: string, firebaseUid: Option<string>, periodType: string, startDate: int, endDate: int,
                            sessions: seq<Session>, weekdayOf: int -> Weekday, now: int)
    requires forall s :: s in sessions ==> s.status != COMPLETED
    ensures var st := CalculateStatistics(userId, firebaseUid, periodType, startDate, endDate, sessions, weekdayOf, now);
      && st.noOfSessions == 0 && st.focusTime == 0 && st.averageSessionTime == 0 && st.longestSession == 0
      && st.completionRate == 0.0 && st.mostProductiveDay == "N/A"
  {
  }

  /**
   * When every input row is COMPLETED (the rows `getCompletedSessionsInRange`
   * returns), the count is the list length, the focus time its total, and a
   * non-empty list has rate 100.
   */
  lemma {:induction false} AllCompletedSessions(userId: string, firebaseUid: Option<string>, periodType: string, startDate: int, endDate: int,
                             sessions: seq<Session>, weekdayOf: int -> Weekday, now: int)
    requires forall s :: s in sessions ==> s.status == COMPLETED
    ensures var st := CalculateStatistics(userId, firebaseUid, periodType, startDate, endDate, sessions, weekdayOf, now);
      && st.noOfSessions == |sessions| && st.focusTime == TotalDuration(sessions)
      && st.completionRate == (if sessions == [] then 0.0 else 100.0)
  {
    FilterAll(sessions, CompletedRow());
  }
}
