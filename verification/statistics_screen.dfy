/**
 * The Statistics screen: the duration text, the figures shown for a list of
 * sessions or for a stored row, and the day and week bar charts. Chart bars
 * are summed in milliseconds (the screen divides each duration by 60000 in
 * floating point); the hour and weekday of an instant are the parameters
 * `hourOf` and `weekdayOf`.
 */
module StatisticsScreen {
  import opened Common
  import opened Entities
  import opened StatisticsCalc

  const MILLIS_PER_MINUTE: int := 60_000
  const MILLIS_PER_HOUR: int := 3_600_000

  // ---- formatDuration ----

  /** The whole minutes a duration shows; none for a duration that is not positive. */
  function WholeMinutes(millis: int): nat
  {
    if millis <= 0 then 0 else millis / MILLIS_PER_MINUTE
  }

  /** "<h>h <m>m" with hours, "<m>m" without. */
  function DurationText(hours: nat, minutes: nat): string
  {
    if hours > 0 then NatToString(hours) + "h " + NatToString(minutes) + "m" else NatToString(minutes) + "m"
  }

  /**
   * `formatDuration`: "0m" for a duration that is not positive; otherwise
   * the whole hours and the minutes left over, which lie in 0..59.
   */
  function FormatDuration(millis: int): (r: string)
    ensures r == DurationText(WholeMinutes(millis) / 60, WholeMinutes(millis) % 60)
    ensures millis <= 0 ==> r == "0m"
  {
    if millis <= 0 then "0m"
    else
      var hours := millis / MILLIS_PER_HOUR;
      var minutes := millis / MILLIS_PER_MINUTE - hours * 60;
      assert hours == (millis / MILLIS_PER_MINUTE) / 60;
      DurationText(hours, minutes)
  }

  /** Two durations read the same exactly when they hold the same number of whole minutes. */
  lemma {:induction false} FormatDurationInjective(a: int, b: int)
    ensures FormatDuration(a) == FormatDuration(b) <==> WholeMinutes(a) == WholeMinutes(b)
  {
    if FormatDuration(a) == FormatDuration(b) {
      var ma, mb := WholeMinutes(a), WholeMinutes(b);
      DurationTextInjective(ma / 60, ma % 60, mb / 60, mb % 60);
    }
  }

  /** The character after the leading number is 'h' exactly when hours are shown. */
  lemma {:induction false} HoursMarker(h: nat, m: nat)
    ensures DigitRun(DurationText(h, m)) < |DurationText(h, m)|
    ensures DurationText(h, m)[DigitRun(DurationText(h, m))] == 'h' <==> h > 0
  {
    var a, b := NatToString(h), NatToString(m);
    if h > 0 {
      assert DurationText(h, m) == a + ("h " + b + "m");
      DigitRunOf(a, "h " + b + "m");
    } else {
      assert DurationText(h, m) == b + "m";
      DigitRunOf(b, "m");
    }
  }

  /** Different hours or minutes never read the same. */
  lemma DurationTextInjective(h1: nat, m1: nat, h2: nat, m2: nat)
    requires DurationText(h1, m1) == DurationText(h2, m2)
    ensures h1 == h2 && m1 == m2
  {
    HoursMarker(h1, m1);
    HoursMarker(h2, m2);
    if h1 > 0 {
      HoursTextInjective(h1, m1, h2, m2);
    } else {
      DigitPrefix(NatToString(m1), "m", NatToString(m2), "m");
      NatToStringInjective(m1, m2);
    }
  }

  /** With hours shown on both sides, equal texts have equal hours and equal minutes. */
  lemma HoursTextInjective(h1: nat, m1: nat, h2: nat, m2: nat)
    requires h1 > 0 && h2 > 0 && DurationText(h1, m1) == DurationText(h2, m2)
    ensures h1 == h2 && m1 == m2
  {
    var a1, b1, a2, b2 := NatToString(h1), NatToString(m1), NatToString(h2), NatToString(m2);
    var y1, y2 := b1 + "m", b2 + "m";
    var x1, x2 := "h " + y1, "h " + y2;
    assert DurationText(h1, m1) == a1 + x1;
    assert DurationText(h2, m2) == a2 + x2;
    DigitPrefix(a1, x1, a2, x2);
    NatToStringInjective(h1, h2);
    assert y1 == x1[2..] && y2 == x2[2..];
    DigitPrefix(b1, "m", b2, "m");
    NatToStringInjective(m1, m2);
  }

  // ---- the figures ----

  /** The texts of the six statistics cards. */
  datatype StatsDisplay = StatsDisplay(noOfSessions: string, focusTime: string, sessionTime: string,
                                       longestSession: string, completionRate: string, mostProductiveTime: string)

  /** `"%.0f%%"`: the rate rounded half up, then a percent sign. */
  function PercentText(rate: real): (r: string)
    ensures exists p: int :: r == IntToString(p) + "%" && (p as real) - 0.5 <= rate < (p as real) + 0.5
  {
    var p := (rate + 0.5).Floor;
    IntToString(p) + "%"
  }

  /**
   * `calculateAndDisplayStats`: the figures over the COMPLETED sessions of
   * the list, the rate over the whole list (CANCELLED rows included).
   */
  function DisplayStats(sessions: seq<Session>, weekdayOf: int -> Weekday): (d: StatsDisplay)
    ensures d.completionRate == PercentText(CompletionRate(|CompletedOf(sessions)|, |sessions|))
    ensures sessions == [] ==> d == StatsDisplay("0", "0m", "0m", "0m", "0%", "N/A")
  {
    var completed := CompletedOf(sessions);
    StatsDisplay(NatToString(|completed|), FormatDuration(TotalDuration(completed)), FormatDuration(Average(completed)),
      if completed == [] then "0m" else FormatDuration(Longest(completed)),
      PercentText(CompletionRate(|completed|, |sessions|)), MostProductiveDay(completed, weekdayOf))
  }

  /** `displayStatistics`: the texts of a stored row. */
  function DisplayRow(st: Statistics): StatsDisplay
  {
    StatsDisplay(IntToString(st.noOfSessions), FormatDuration(st.focusTime), FormatDuration(st.averageSessionTime),
      FormatDuration(st.longestSession), PercentText(st.completionRate), st.mostProductiveDay)
  }

  /**
   * Both ways to fill the cards agree: the figures computed on screen from
   * a list are the figures of the row `calculateStatistics` makes of it.
   */
  lemma {:induction false} DisplaysAgree(userId: string, firebaseUid: Option<string>, periodType: string, startDate: int, endDate: int,
                                         sessions: seq<Session>, weekdayOf: int -> Weekday, now: int)
    ensures DisplayStats(sessions, weekdayOf)
      == DisplayRow(CalculateStatistics(userId, firebaseUid, periodType, startDate, endDate, sessions, weekdayOf, now))
  {
    var completed := CompletedOf(sessions);
    assert IntToString(|completed|) == NatToString(|completed|);
    if completed == [] {
      assert FormatDuration(Longest(completed)) == "0m";
    }
  }

  /** The rate shown lies between "0%" and "100%", and is "0%" with no sessions at all. */
  lemma {:induction false} RateTextBounds(sessions: seq<Session>, weekdayOf: int -> Weekday)
    ensures exists p: int :: 0 <= p <= 100 && DisplayStats(sessions, weekdayOf).completionRate == IntToString(p) + "%"
  {
    var rate := CompletionRate(|CompletedOf(sessions)|, |sessions|);
    var p := (rate + 0.5).Floor;
    assert 0 <= p <= 100;
    assert PercentText(rate) == IntToString(p) + "%";
  }

  // ---- the bar charts ----

  /** Summed duration of the sessions that fall in bar `k`. */
  function SlotTotal(sessions: seq<Session>, slotOf: Session -> int, k: int): int
    decreases |sessions|
  {
    if sessions == [] then 0
    else
      var last := sessions[|sessions| - 1];
      SlotTotal(sessions[..|sessions| - 1], slotOf, k) + (if slotOf(last) == k then last.workDuration else 0)
  }

  /** Sum of the first `n` bars. */
  function SlotsSum(sessions: seq<Session>, slotOf: Session -> int, n: nat): int
  {
    if n == 0 then 0 else SlotsSum(sessions, slotOf, n - 1) + SlotTotal(sessions, slotOf, n - 1)
  }

  /**
   * The chart loops: each session adds its duration to its bar, when its bar
   * is one of the `slots` bars (`if (index in data.indices)`).
   */
  method FillBuckets(sessions: seq<Session>, slots: nat, slotOf: Session -> int) returns (data: array<int>)
    ensures fresh(data) && data.Length == slots
    ensures forall k :: 0 <= k < slots ==> data[k] == SlotTotal(sessions, slotOf, k)
  {
    data := new int[slots](_ => 0);
    var i := 0;
    while i < |sessions|
      invariant i <= |sessions|
      invariant forall k :: 0 <= k < slots ==> data[k] == SlotTotal(sessions[..i], slotOf, k)
    {
      var slot := slotOf(sessions[i]);
      assert sessions[..i + 1][..i] == sessions[..i];
      if 0 <= slot < slots {
        data[slot] := data[slot] + sessions[i].workDuration;
      }
      i := i + 1;
    }
    assert sessions[..|sessions|] == sessions;
  }

  /** One more session adds its duration to the bars' sum when its bar is among them. */
  lemma {:induction false} SlotsSumSnoc(sessions: seq<Session>, x: Session, slotOf: Session -> int, n: nat)
    ensures SlotsSum(sessions + [x], slotOf, n)
      == SlotsSum(sessions, slotOf, n) + (if 0 <= slotOf(x) < n then x.workDuration else 0)
  {
    var s := sessions + [x];
    assert s[..|s| - 1] == sessions;
    if n > 0 {
      SlotsSumSnoc(sessions, x, slotOf, n - 1);
    }
  }

  /** When every session falls in one of the bars, the bars add up to the total focus time. */
  lemma {:induction false} BarsAddUpToTotal(sessions: seq<Session>, slotOf: Session -> int, n: nat)
    requires forall s :: s in sessions ==> 0 <= slotOf(s) < n
    ensures SlotsSum(sessions, slotOf, n) == TotalDuration(sessions)
    decreases |sessions|
  {
    if sessions == [] {
      if n > 0 {
        BarsOfNothing(slotOf, n);
      }
    } else {
      var init, last := sessions[..|sessions| - 1], sessions[|sessions| - 1];
      assert forall s :: s in init ==> s in sessions;
      BarsAddUpToTotal(init, slotOf, n);
      assert sessions == init + [last];
      SlotsSumSnoc(init, last, slotOf, n);
    }
  }

  lemma {:induction false} BarsOfNothing(slotOf: Session -> int, n: nat)
    ensures SlotsSum([], slotOf, n) == 0
  {
    if n > 0 {
      BarsOfNothing(slotOf, n - 1);
    }
  }

  /** Calendar.DAY_OF_WEEK: SUNDAY is 1, SATURDAY 7. */
  function DayOfWeekNumber(d: Weekday): int
  {
    match d
    case Sun => 1
    case Mon => 2
    case Tue => 3
    case Wed => 4
    case Thu => 5
    case Fri => 6
    case Sat => 7
  }

  const WEEK_LABELS: seq<string> := ["Mon", "Tue", "Wed", "Thu", "Fri", "Sat", "Sun"]
  const WEEK_DAYS: seq<Weekday> := [Mon, Tue, Wed, Thu, Fri, Sat, Sun]

  /** The week chart's bar: Sunday last, the other days from Monday at 0. */
  function WeekIndex(d: Weekday): (i: int)
    ensures 0 <= i < 7 && WEEK_LABELS[i] == DayLabel(d)
  {
    var dayOfWeek := DayOfWeekNumber(d);
    if dayOfWeek == 1 then 6 else dayOfWeek - 2
  }

  /** The week mapping is a bijection of the seven days onto the bars 0..6, Monday first. */
  lemma {:induction false} WeekIndexBijective()
    ensures forall a: Weekday, b: Weekday :: WeekIndex(a) == WeekIndex(b) ==> a == b
    ensures forall i :: 0 <= i < 7 ==> WeekIndex(WEEK_DAYS[i]) == i
  {
    forall a: Weekday, b: Weekday | WeekIndex(a) == WeekIndex(b) ensures a == b {
      DayLabelInjective(a, b);
    }
  }

  /** The day chart's label for hour `i`: "<i>:00" every fourth hour, blank otherwise. */
  function DayChartLabel(i: nat): string
  {
    if i % 4 == 0 then NatToString(i) + ":00" else ""
  }

  function DayChartLabels(): (labels: seq<string>)
    ensures |labels| == 24
    ensures forall i :: 0 <= i < 24 ==> labels[i] == DayChartLabel(i)
  {
    seq(24, i requires 0 <= i < 24 => DayChartLabel(i))
  }

  /** Exactly the hours 0, 4, ..., 20 are labelled, each with a different label. */
  lemma {:induction false} DayChartLabelsDistinct()
    ensures forall i :: 0 <= i < 24 ==> (DayChartLabels()[i] != "" <==> i % 4 == 0)
    ensures forall i, j :: 0 <= i < j < 24 && DayChartLabels()[i] != "" ==> DayChartLabels()[i] != DayChartLabels()[j]
  {
    forall i, j | 0 <= i < j < 24 && DayChartLabels()[i] != "" && DayChartLabels()[j] != ""
      ensures DayChartLabels()[i] != DayChartLabels()[j]
    {
      if DayChartLabels()[i] == DayChartLabels()[j] {
        var si, sj := NatToString(i), NatToString(j);
        DigitPrefix(si, ":00", sj, ":00");
        NatToStringInjective(i, j);
      }
    }
  }

  function HourSlot(hourOf: int -> Hour): Session -> int
  {
    (s: Session) => hourOf(s.completionTimestamp) as int
  }

  function WeekSlot(weekdayOf: int -> Weekday): Session -> int
  {
    (s: Session) => WeekIndex(weekdayOf(s.completionTimestamp))
  }

  /**
   * The screen's state: the selected range ("day" or "week"), the sessions
   * the chart was last drawn from, the bars and axis labels drawn, and the
   * card texts.
   */
  class StatisticsActivity {
    var currentRange: string
    var currentChartSessions: seq<Session>
    var bars: seq<int>
    var axisLabels: seq<string>
    var cards: StatsDisplay

    constructor ()
      ensures currentRange == "day" && currentChartSessions == [] && bars == [] && axisLabels == []
    {
      currentRange := "day";
      currentChartSessions := [];
      bars, axisLabels := [], [];
      cards := StatsDisplay("0", "0m", "0m", "0m", "0%", "N/A");
    }

    /**
     * The observer of `loadSessionsForChart`: keep the sessions, draw the
     * chart of the current range (an hour chart for "day", a Monday-first
     * week chart for "week", none otherwise), then fill the cards.
     */
    method OnSessionsLoaded(sessions: seq<Session>, hourOf: int -> Hour, weekdayOf: int -> Weekday)
      modifies this`currentChartSessions, this`bars, this`axisLabels, this`cards
      ensures currentChartSessions == sessions
      ensures currentRange == "day" ==>
        |bars| == 24 && axisLabels == DayChartLabels() && forall h :: 0 <= h < 24 ==> bars[h] == SlotTotal(sessions, HourSlot(hourOf), h)
      ensures currentRange == "week" ==>
        |bars| == 7 && axisLabels == WEEK_LABELS && forall k :: 0 <= k < 7 ==> bars[k] == SlotTotal(sessions, WeekSlot(weekdayOf), k)
      ensures currentRange != "day" && currentRange != "week" ==> bars == old(bars) && axisLabels == old(axisLabels)
      ensures cards == DisplayStats(sessions, weekdayOf)
    {
      currentChartSessions := sessions;
      DrawChart(sessions, hourOf, weekdayOf);
      cards := DisplayStats(sessions, weekdayOf);
    }

    /** The chart of the current range: hour bars for "day", Monday-first weekday bars for "week", none otherwise. */
    method DrawChart(sessions: seq<Session>, hourOf: int -> Hour, weekdayOf: int -> Weekday)
      modifies this`bars, this`axisLabels
      ensures currentRange == "day" ==>
        |bars| == 24 && axisLabels == DayChartLabels() && forall h :: 0 <= h < 24 ==> bars[h] == SlotTotal(sessions, HourSlot(hourOf), h)
      ensures currentRange == "week" ==>
        |bars| == 7 && axisLabels == WEEK_LABELS && forall k :: 0 <= k < 7 ==> bars[k] == SlotTotal(sessions, WeekSlot(weekdayOf), k)
      ensures currentRange != "day" && currentRange != "week" ==> bars == old(bars) && axisLabels == old(axisLabels)
    {
      if currentRange == "day" {
        var data := FillBuckets(sessions, 24, HourSlot(hourOf));
        bars, axisLabels := data[..], DayChartLabels();
      } else if currentRange == "week" {
        var data := FillBuckets(sessions, 7, WeekSlot(weekdayOf));
        bars, axisLabels := data[..], WEEK_LABELS;
      }
    }
  }

  /** Every session lands on a bar of either chart, so each chart adds up to the sessions' total focus time. */
  lemma {:induction false} ChartsAddUp(sessions: seq<Session>, hourOf: int -> Hour, weekdayOf: int -> Weekday)
    ensures SlotsSum(sessions, HourSlot(hourOf), 24) == TotalDuration(sessions)
    ensures SlotsSum(sessions, WeekSlot(weekdayOf), 7) == TotalDuration(sessions)
  {
    BarsAddUpToTotal(sessions, HourSlot(hourOf), 24);
    forall s | s in sessions ensures 0 <= WeekSlot(weekdayOf)(s) < 7 {
      assert WeekSlot(weekdayOf)(s) == WeekIndex(weekdayOf(s.completionTimestamp));
    }
    BarsAddUpToTotal(sessions, WeekSlot(weekdayOf), 7);
  }
}
