/**
 * The texts the insights screen shows for a `ProductivityInsights`: the
 * label of the weekly trend, the list of peak hours, and the bulleted
 * recommendations.
 */
module InsightsFormat {
  import opened Common
  import opened Entities
  import opened Insights

  const ANALYZING: string := "Analyzing..."

  /** `formatTrendText`: a fixed label per trend code, "Analyzing..." for anything else. */
  function TrendLabel(trend: string): (r: string)
    ensures r == ANALYZING <==> trend !in TREND_CODES
  {
    if trend == "improving_rapidly" then "Rapidly Improving \U{1F4C8}"
    else if trend == "improving" then "Improving \U{2197}\U{FE0F}"
    else if trend == "declining" then "Needs Attention \U{1F4C9}"
    else if trend == "stable" then "Stable \U{2192}"
    else if trend == "insufficient_data" then "More Data Needed \U{1F4CA}"
    else ANALYZING
  }

  /** The five codes get five different labels. */
  lemma TrendLabelsDistinct(a: string, b: string)
    requires a in TREND_CODES && b in TREND_CODES && a != b
    ensures TrendLabel(a) != TrendLabel(b)
  {
  }

  /** Whatever the weekly trend comes out as, the screen shows a real label for it. */
  lemma EveryTrendHasLabel(sessions: seq<Session>, now: int)
    ensures TrendLabel(WeeklyTrend(sessions, now)) != ANALYZING
  {
  }

  // ---- formatPeakHours ----

  /**
   * The label `formatPeakHours` gives one hour as written: 5..11 in the AM
   * branch; the 12..16 branch and the fallback both print the hour (less
   * twelve past noon) with "PM".
   */
  function HourLabel(hour: int): (r: string)
    ensures 5 <= hour <= 11 ==> r == NatToString(hour) + "AM"
    ensures 12 <= hour <= 23 ==> r == NatToString(hour - 12) + "PM" || r == "12PM"
    ensures 0 <= hour <= 4 ==> r == NatToString(hour) + "PM"
  {
    if 5 <= hour <= 11 then IntToString(hour) + "AM"
    else if 12 <= hour <= 16 then IntToString(if hour > 12 then hour - 12 else hour) + "PM"
    else IntToString(if hour > 12 then hour - 12 else hour) + "PM"
  }

  /** As written, an hour after midnight and the same hour after noon print alike, and midnight prints "0PM". */
  lemma HourLabelsCollide(h: nat)
    requires 1 <= h <= 4
    ensures HourLabel(h) == HourLabel(h + 12)
    ensures HourLabel(0) == "0PM"
  {
    assert NatToString(0) == "0";
  }

  /**
   * The twelve-hour clock reading of an hour of the day: 12AM, 1AM .. 11AM,
   * 12PM, 1PM .. 11PM; a number outside the day keeps the text above.
   */
  function ClockHourLabel(hour: int): (r: string)
  {
    if hour == 0 then "12AM"
    else if 1 <= hour <= 11 then NatToString(hour) + "AM"
    else if hour == 12 then "12PM"
    else if 13 <= hour <= 23 then NatToString(hour - 12) + "PM"
    else HourLabel(hour)
  }

  /** The clock reading differs from the written labels only in the small hours 0..4. */
  lemma ClockAgreesFromFive(hour: int)
    requires 5 <= hour <= 23
    ensures ClockHourLabel(hour) == HourLabel(hour)
  {
    if hour == 12 {
      assert NatToString(12) == "12";
    }
  }

  /** The number and the AM/PM half of a clock reading of an hour of the day. */
  function ClockParts(hour: int): (p: (nat, string))
    requires 0 <= hour < 24
    ensures 1 <= p.0 <= 12 && (p.1 == "AM" || p.1 == "PM")
    ensures ClockHourLabel(hour) == NatToString(p.0) + p.1
    ensures p.1 == "AM" <==> hour < 12
    ensures hour == (if p.0 == 12 then 0 else p.0) + (if p.1 == "AM" then 0 else 12)
  {
    assert NatToString(12) == "12";
    if hour == 0 then (12, "AM")
    else if hour < 12 then (hour, "AM")
    else if hour == 12 then (12, "PM")
    else (hour - 12, "PM")
  }

  /** The clock reading names every hour of the day differently. */
  lemma ClockHourLabelInjective(a: int, b: int)
    requires 0 <= a < 24 && 0 <= b < 24
    ensures ClockHourLabel(a) == ClockHourLabel(b) <==> a == b
  {
    if ClockHourLabel(a) == ClockHourLabel(b) {
      var pa, pb := ClockParts(a), ClockParts(b);
      DigitPrefix(NatToString(pa.0), pa.1, NatToString(pb.0), pb.1);
      NatToStringInjective(pa.0, pb.0);
    }
  }

  const NOT_ENOUGH_DATA: string := "Not enough data"

  /** The written label of each hour, in order. */
  function HourLabels(hours: seq<int>): (r: seq<string>)
    ensures |r| == |hours|
    ensures forall i :: 0 <= i < |hours| ==> r[i] == HourLabel(hours[i])
  {
    if hours == [] then [] else [HourLabel(hours[0])] + HourLabels(hours[1..])
  }

  /** The clock label of each hour, in order. */
  function ClockHourLabels(hours: seq<int>): (r: seq<string>)
    ensures |r| == |hours|
    ensures forall i :: 0 <= i < |hours| ==> r[i] == ClockHourLabel(hours[i])
  {
    if hours == [] then [] else [ClockHourLabel(hours[0])] + ClockHourLabels(hours[1..])
  }

  /** `formatPeakHours` as written: the written labels joined by ", ", or "Not enough data". */
  function FormatPeakHours(hours: seq<int>): (r: string)
    ensures hours == [] ==> r == NOT_ENOUGH_DATA
    ensures |hours| == 1 ==> r == HourLabel(hours[0])
  {
    if hours == [] then NOT_ENOUGH_DATA else Join(HourLabels(hours), ", ")
  }

  /** `formatPeakHours` with each hour read on the twelve-hour clock. */
  function FormatPeakHoursOnTheClock(hours: seq<int>): (r: string)
    ensures hours == [] ==> r == NOT_ENOUGH_DATA
    ensures |hours| == 1 ==> r == ClockHourLabel(hours[0])
  {
    if hours == [] then NOT_ENOUGH_DATA else Join(ClockHourLabels(hours), ", ")
  }

  /** The last character of a join is the last character of its last item. */
  lemma {:induction false} JoinEndsLikeLast(items: seq<string>, sep: string)
    requires items != [] && items[|items| - 1] != []
    ensures var r, last := Join(items, sep), items[|items| - 1];
      r != [] && r[|r| - 1] == last[|last| - 1]
  {
    if |items| > 1 {
      JoinEndsLikeLast(items[1..], sep);
    }
  }

  /**
   * "Not enough data" shows exactly when there are no hours, with either
   * labelling; otherwise the text ends with the last label's "M".
   */
  lemma NotEnoughDataIffEmpty(hours: seq<int>)
    ensures FormatPeakHours(hours) == NOT_ENOUGH_DATA <==> hours == []
    ensures FormatPeakHoursOnTheClock(hours) == NOT_ENOUGH_DATA <==> hours == []
  {
    if hours != [] {
      var labels := HourLabels(hours);
      JoinEndsLikeLast(labels, ", ");
      var last := labels[|labels| - 1];
      assert last[|last| - 1] == 'M';
      var clock := ClockHourLabels(hours);
      JoinEndsLikeLast(clock, ", ");
      var lastClock := clock[|clock| - 1];
      assert lastClock[|lastClock| - 1] == 'M';
    }
  }

  /** The labels come in input order: the first hour's label, then ", " and the rest, with either labelling. */
  lemma {:induction false} PeakHoursInOrder(hours: seq<int>)
    requires |hours| >= 2
    ensures FormatPeakHours(hours) == HourLabel(hours[0]) + ", " + FormatPeakHours(hours[1..])
    ensures FormatPeakHoursOnTheClock(hours) == ClockHourLabel(hours[0]) + ", " + FormatPeakHoursOnTheClock(hours[1..])
  {
    assert HourLabels(hours)[1..] == HourLabels(hours[1..]);
    assert ClockHourLabels(hours)[1..] == ClockHourLabels(hours[1..]);
  }

  /** Hour totals that are zero except in the 9 o'clock hour rank hours 0, 1 and 9 as the peak. */
  lemma {:induction false} LonePeakHours(t: seq<int>)
    requires |t| == 24 && t[9] > 0
    requires forall k :: 0 <= k < 24 && k != 9 ==> t[k] == 0
    ensures TopThree(t) == [0, 1, 9]
  {
    assert IsTopThree(t, [0, 1, 9]);
    TopThreeUnique(t, TopThree(t), [0, 1, 9]);
  }

  /**
   * Sessions in the 9 o'clock hour alone: the peak hours are 0, 1 and 9,
   * which the code as written shows as "0PM, 1PM, 9AM", and the clock
   * reading as "12AM, 1AM, 9AM".
   */
  lemma PeakHoursPastMidnight(t: seq<int>)
    requires |t| == 24 && t[9] > 0
    requires forall k :: 0 <= k < 24 && k != 9 ==> t[k] == 0
    ensures HourLabel(TopThree(t)[0]) == "0PM" && HourLabel(TopThree(t)[1]) == "1PM" && HourLabel(TopThree(t)[2]) == "9AM"
    ensures FormatPeakHours(TopThree(t)) == "0PM, 1PM, 9AM"
    ensures FormatPeakHoursOnTheClock(TopThree(t)) == "12AM, 1AM, 9AM"
  {
    LonePeakHours(t);
    SmallHoursAsWritten();
    SmallHoursOnTheClock();
  }

  /** The written labels of the hours 0, 1 and 9, and their join. */
  lemma SmallHoursAsWritten()
    ensures HourLabel(0) == "0PM" && HourLabel(1) == "1PM" && HourLabel(9) == "9AM"
    ensures FormatPeakHours([0, 1, 9]) == "0PM, 1PM, 9AM"
  {
    assert NatToString(0) == "0" && NatToString(1) == "1" && NatToString(9) == "9";
    var labels := HourLabels([0, 1, 9]);
    assert labels[0] == HourLabel(0) == "0PM" && labels[1] == HourLabel(1) == "1PM" && labels[2] == HourLabel(9) == "9AM";
    assert labels == ["0PM", "1PM", "9AM"];
    JoinThree(labels, ", ");
  }

  /** The clock readings of the hours 0, 1 and 9, joined. */
  lemma SmallHoursOnTheClock()
    ensures FormatPeakHoursOnTheClock([0, 1, 9]) == "12AM, 1AM, 9AM"
  {
    assert NatToString(1) == "1" && NatToString(9) == "9";
    var labels := ClockHourLabels([0, 1, 9]);
    assert labels[0] == ClockHourLabel(0) == "12AM" && labels[1] == ClockHourLabel(1) == "1AM" && labels[2] == ClockHourLabel(9) == "9AM";
    assert labels == ["12AM", "1AM", "9AM"];
    JoinThree(labels, ", ");
  }

  /** Three items joined. */
  lemma JoinThree(items: seq<string>, sep: string)
    requires |items| == 3
    ensures Join(items, sep) == items[0] + sep + items[1] + sep + items[2]
  {
    assert items[1..][1..] == [items[2]];
  }

  // ---- formatRecommendations ----

  const BULLET: string := "• "

  const DEFAULT_RECOMMENDATIONS_TEXT: string :=
    BULLET + "Continue your current routine\n" + BULLET + "Stay consistent with your sessions\n" + BULLET + "Track your progress weekly"

  /** Each recommendation with a bullet in front. */
  function Bulleted(recs: seq<string>): (r: seq<string>)
    ensures |r| == |recs|
    ensures forall i :: 0 <= i < |recs| ==> r[i] == BULLET + recs[i]
  {
    if recs == [] then [] else [BULLET + recs[0]] + Bulleted(recs[1..])
  }

  /** `formatRecommendations`: bulleted items separated by a blank line, or a fixed three-item default. */
  function FormatRecommendations(recs: seq<string>): (r: string)
    ensures |r| >= 2 && r[..2] == BULLET
  {
    if recs == [] then DEFAULT_RECOMMENDATIONS_TEXT
    else
      var items := Bulleted(recs);
      JoinStartsLikeFirst(items, "\n\n");
      assert items[0][..2] == BULLET;
      Join(items, "\n\n")
  }

  /** A join begins with its first item. */
  lemma {:induction false} JoinStartsLikeFirst(items: seq<string>, sep: string)
    requires items != []
    ensures var r := Join(items, sep); |items[0]| <= |r| && r[..|items[0]|] == items[0]
  {
    var r := Join(items, sep);
    if |items| > 1 {
      assert r == items[0] + (sep + Join(items[1..], sep));
    }
  }

  /** The recommendations appear in order: the first one bulleted, a blank line, then the rest. */
  lemma {:induction false} RecommendationsInOrder(recs: seq<string>)
    requires |recs| >= 2
    ensures FormatRecommendations(recs) == BULLET + recs[0] + "\n\n" + FormatRecommendations(recs[1..])
  {
    assert Bulleted(recs)[1..] == Bulleted(recs[1..]);
  }

  /** A single recommendation is shown alone behind its bullet. */
  lemma SingleRecommendation(rec: string)
    ensures FormatRecommendations([rec]) == BULLET + rec
  {
  }
}
