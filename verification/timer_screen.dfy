/**
 * The countdown screen: a timer of a whole number of minutes that can be
 * paused, resumed and cancelled, the hh:mm:ss text it shows, and the session
 * row it hands to the view model when it finishes or is cancelled. The
 * signed-in user's id and the clock are parameters of the calls that save.
 */
module TimerScreen {
  import opened Common
  import opened Entities

  const MILLIS_PER_MINUTE: int := 60 * 1000

  /** `%02d`: at least two digits, zero-padded. */
  function Pad2(n: nat): (r: string)
    ensures IsDecimal(r) && |r| >= 2
    ensures n < 100 ==> |r| == 2
  {
    if n < 10 then "0" + NatToString(n) else NatToString(n)
  }

  /** A positive number prints without a leading zero. */
  lemma {:induction false} NoLeadingZero(n: nat)
    requires n > 0
    ensures NatToString(n)[0] != '0'
    decreases n
  {
    if n >= 10 {
      NoLeadingZero(n / 10);
      assert NatToString(n)[0] == NatToString(n / 10)[0];
    }
  }

  /** A padded number starts with '0' exactly when it is a single digit. */
  lemma {:induction false} Pad2LeadingZero(n: nat)
    ensures Pad2(n)[0] == '0' <==> n < 10
  {
    if n >= 10 {
      NoLeadingZero(n);
    }
  }

  /** `%02d` loses nothing: different numbers pad to different texts. */
  lemma {:induction false} Pad2Injective(a: nat, b: nat)
    requires Pad2(a) == Pad2(b)
    ensures a == b
  {
    Pad2LeadingZero(a);
    Pad2LeadingZero(b);
    var ta, tb := NatToString(a), NatToString(b);
    if a < 10 {
      assert ta == Pad2(a)[1..] == Pad2(b)[1..] == tb;
    }
    NatToStringInjective(a, b);
  }

  /** The hours, minutes and seconds of a remaining time, as `updateTimerText` splits it. */
  function ClockFields(millis: nat): (f: (nat, nat, nat))
    ensures f.1 < 60 && f.2 < 60
    ensures 3600 * f.0 + 60 * f.1 + f.2 == millis / 1000
  {
    var s := millis / 1000;
    (s / 3600, (s % 3600) / 60, s % 60)
  }

  /** ":mm:ss" of two fields below 60. */
  function MinutesSeconds(m: nat, sec: nat): string
  {
    ":" + Pad2(m) + ":" + Pad2(sec)
  }

  /** `updateTimerText`: "hh:mm:ss" of the whole seconds left. */
  function ClockText(millis: nat): string
  {
    var f := ClockFields(millis);
    Pad2(f.0) + MinutesSeconds(f.1, f.2)
  }

  lemma {:induction false} MinutesSecondsInjective(m1: nat, s1: nat, m2: nat, s2: nat)
    requires m1 < 60 && s1 < 60 && m2 < 60 && s2 < 60
    requires MinutesSeconds(m1, s1) == MinutesSeconds(m2, s2)
    ensures m1 == m2 && s1 == s2
  {
    ColonFieldsSplit(Pad2(m1), Pad2(s1), Pad2(m2), Pad2(s2));
    Pad2Injective(m1, m2);
    Pad2Injective(s1, s2);
  }

  /** ":aa:b" texts with two-character `aa` split back into their fields. */
  lemma ColonFieldsSplit(a1: string, b1: string, a2: string, b2: string)
    requires |a1| == 2 && |a2| == 2
    requires ":" + a1 + ":" + b1 == ":" + a2 + ":" + b2
    ensures a1 == a2 && b1 == b2
  {
    var t1, t2 := ":" + a1 + ":" + b1, ":" + a2 + ":" + b2;
    assert a1 == t1[1..3] && a2 == t2[1..3];
    assert b1 == t1[4..] && b2 == t2[4..];
  }

  /** The text tells two remaining times apart exactly when they differ in whole seconds. */
  lemma {:induction false} ClockTextInjective(a: nat, b: nat)
    ensures ClockText(a) == ClockText(b) <==> a / 1000 == b / 1000
  {
    if ClockText(a) == ClockText(b) {
      var fa, fb := ClockFields(a), ClockFields(b);
      DigitPrefix(Pad2(fa.0), MinutesSeconds(fa.1, fa.2), Pad2(fb.0), MinutesSeconds(fb.1, fb.2));
      Pad2Injective(fa.0, fb.0);
      MinutesSecondsInjective(fa.1, fa.2, fb.1, fb.2);
    }
  }

  /** The text `onFinish` writes is the clock text of nothing left. */
  lemma FinishedText()
    ensures ClockText(0) == "00:00:00"
  {
    assert ClockFields(0) == (0, 0, 0);
    assert NatToString(0) == "0";
  }

  /**
   * `saveMeditationSession`: nothing without a signed-in user id (null or
   * empty); otherwise one row with id 0 (generate one), the user as owner,
   * the current time, the duration and the status.
   */
  function SavedRow(userId: Option<string>, now: int, durationMillis: int, status: string): (rows: seq<Session>)
    ensures |rows| <= 1
    ensures rows == [] <==> userId == None || userId == Some("")
    ensures forall r :: r in rows ==>
      r.sessionId == 0 && Some(r.sessionOwnerId) == userId && r.workDuration == durationMillis && r.status == status
  {
    if userId.None? || userId.value == "" then []
    else [Session(0, userId.value, now, durationMillis, status)]
  }

  /** A row a countdown of `total` milliseconds may hand over: all of it, or the part that ran before a cancel. */
  predicate RecordedRow(r: Session, total: int)
  {
    r.sessionId == 0 && r.sessionOwnerId != ""
    && ((r.status == COMPLETED && r.workDuration == total)
        || (r.status == CANCELLED && 0 <= r.workDuration <= total))
  }

  predicate AllRecordedRows(rows: seq<Session>, total: int)
  {
    forall r :: r in rows ==> RecordedRow(r, total)
  }

  /** Handing over a whole run, or the elapsed part of a cancelled one, keeps every row valid. */
  lemma {:induction false} SavedRowRecorded(rows: seq<Session>, userId: Option<string>, now: int, d: int, status: string, total: int)
    requires AllRecordedRows(rows, total)
    requires (status == COMPLETED && d == total) || (status == CANCELLED && 0 <= d <= total)
    ensures AllRecordedRows(rows + SavedRow(userId, now, d, status), total)
  {
  }

  /**
   * The screen's state. `countingDown` says a CountDownTimer is started and
   * not cancelled; `recorded` holds the rows handed to the view model.
   */
  class TimerActivity {
    var isCancelled: bool
    var totalTimeMillis: int
    var timeLeftMillis: int
    var timerRunning: bool
    var countingDown: bool
    var text: string
    var recorded: seq<Session>

    /**
     * What every event keeps: the time left lies between none and all of
     * it, the text shows it, and every row handed over is a completed run
     * of the whole duration or a cancelled run of the part that elapsed.
     */
    predicate Valid()
      reads this
    {
      0 <= timeLeftMillis <= totalTimeMillis
      && text == ClockText(timeLeftMillis)
      && AllRecordedRows(recorded, totalTimeMillis)
    }

    /** `onCreate`: a countdown of the chosen minutes, shown and started at once. */
    constructor (durationInMinutes: nat)
      ensures Valid()
      ensures totalTimeMillis == durationInMinutes * MILLIS_PER_MINUTE && timeLeftMillis == totalTimeMillis
      ensures timerRunning && countingDown && !isCancelled && recorded == []
    {
      isCancelled := false;
      var total := durationInMinutes * MILLIS_PER_MINUTE;
      totalTimeMillis, timeLeftMillis := total, total;
      text := ClockText(total);
      recorded := [];
      timerRunning := true;
      countingDown := true;
    }

    /** `startTimer`: a new countdown from the time left. */
    method StartTimer()
      modifies this`timerRunning, this`countingDown
      ensures timerRunning && countingDown
    {
      countingDown := true;
      timerRunning := true;
    }

    /** `pauseTimer`: the countdown stops; the time left is kept for a resume. */
    method PauseTimer()
      modifies this`timerRunning, this`countingDown
      ensures !timerRunning && !countingDown
    {
      countingDown := false;
      timerRunning := false;
    }

    /** The pause/resume button. */
    method Toggle()
      modifies this`timerRunning, this`countingDown
      ensures timerRunning == !old(timerRunning) && countingDown == timerRunning
    {
      if timerRunning {
        PauseTimer();
      } else {
        StartTimer();
      }
    }

    /** `saveMeditationSession`. */
    method SaveMeditationSession(userId: Option<string>, now: int, durationMillis: int, status: string)
      modifies this`recorded
      ensures recorded == old(recorded) + SavedRow(userId, now, durationMillis, status)
    {
      if userId.None? || userId.value == "" {
        return;
      }
      recorded := recorded + [Session(0, userId.value, now, durationMillis, status)];
    }

    /**
     * `cancelTimer`: marks the run cancelled, hands over the elapsed part
     * (total minus the time left, never negative and never more than the
     * total) as CANCELLED, and stops the countdown.
     */
    method CancelTimer(userId: Option<string>, now: int)
      requires Valid()
      modifies this`isCancelled, this`recorded, this`countingDown, this`timerRunning
      ensures Valid()
      ensures isCancelled && !timerRunning && !countingDown
      ensures recorded == old(recorded) + SavedRow(userId, now, totalTimeMillis - timeLeftMillis, CANCELLED)
      ensures 0 <= totalTimeMillis - timeLeftMillis <= totalTimeMillis
    {
      var elapsed := totalTimeMillis - timeLeftMillis;
      SavedRowRecorded(recorded, userId, now, elapsed, CANCELLED, totalTimeMillis);
      SaveMeditationSession(userId, now, elapsed, CANCELLED);
      isCancelled, countingDown, timerRunning := true, false, false;
    }

    /**
     * `onTick`: the countdown reports the time left, which never exceeds
     * what it started from.
     */
    method OnTick(millisUntilFinished: int)
      requires Valid() && countingDown && 0 <= millisUntilFinished <= timeLeftMillis
      modifies this`timeLeftMillis, this`text
      ensures Valid()
      ensures timeLeftMillis == millisUntilFinished
    {
      timeLeftMillis := millisUntilFinished;
      text := ClockText(timeLeftMillis);
    }

    /**
     * `onFinish`: a run that was not cancelled is handed over as COMPLETED
     * with the whole duration; then nothing is left and "00:00:00" shows
     * (`FinishedText`).
     */
    method OnFinish(userId: Option<string>, now: int)
      requires Valid() && countingDown
      modifies this`recorded, this`timerRunning, this`timeLeftMillis, this`text, this`countingDown
      ensures Valid()
      ensures recorded == old(recorded) + (if old(isCancelled) then [] else SavedRow(userId, now, totalTimeMillis, COMPLETED))
      ensures timeLeftMillis == 0 && text == ClockText(0) && !timerRunning && !countingDown
    {
      if !isCancelled {
        SavedRowRecorded(recorded, userId, now, totalTimeMillis, COMPLETED, totalTimeMillis);
        SaveMeditationSession(userId, now, totalTimeMillis, COMPLETED);
      }
      timerRunning, timeLeftMillis, countingDown := false, 0, false;
      text := ClockText(0);
    }
  }
}
