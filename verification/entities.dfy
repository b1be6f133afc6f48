/**
 * The records of the app: the three Room tables (users, focus_sessions,
 * user_statistics) and the Firestore documents that mirror them. Long and Int
 * columns are unbounded integers here; `completionRate` (a Float column) is an
 * exact rational.
 */
module Entities {
  import opened Common

  const COMPLETED: string := "COMPLETED"
  const CANCELLED: string := "CANCELLED"

  /** A row of focus_sessions. `sessionId` 0 asks the table for a fresh id. */
  datatype Session = Session(
    sessionId: int,
    sessionOwnerId: string,
    completionTimestamp: int,
    workDuration: int,
    status: string)

  /** A row of users; `firebaseUid` carries a unique index that ignores nulls. */
  datatype User = User(
    userId: string,
    firebaseUid: Option<string>,
    displayName: Option<string>,
    email: Option<string>,
    photoUrl: Option<string>,
    createdAt: int,
    lastLogin: int)

  /** A row of user_statistics. `statId` 0 asks the table for a fresh id. */
  datatype Statistics = Statistics(
    statId: int,
    userId: string,
    firebaseUid: Option<string>,
    periodType: string,
    periodStart: int,
    periodEnd: int,
    noOfSessions: int,
    focusTime: int,
    averageSessionTime: int,
    longestSession: int,
    completionRate: real,
    mostProductiveDay: string,
    lastUpdated: int)

  /** A Firebase timestamp: whole seconds since the epoch plus nanoseconds. */
  datatype Timestamp = Timestamp(seconds: int, nanoseconds: int)

  /** A document of the Firestore `users` collection (the fields the app writes). */
  datatype RemoteUser = RemoteUser(
    userId: string,
    firebaseUid: string,
    displayName: Option<string>,
    email: Option<string>,
    photoUrl: Option<string>,
    lastLogin: int)

  /** A document of the Firestore `sessions` collection. */
  datatype RemoteSession = RemoteSession(
    sessionId: string,
    userId: string,
    completionTimestamp: Timestamp,
    workDuration: int,
    status: string,
    goalName: string,
    syncStatus: string)

  /** A document of the Firestore `statistics` collection. */
  datatype RemoteStatistics = RemoteStatistics(
    statId: string,
    userId: string,
    periodType: string,
    periodStart: Timestamp,
    periodEnd: Timestamp,
    noOfSessions: int,
    focusTime: int,
    averageSessionTime: int,
    longestSession: int,
    completionRate: real,
    mostProductiveDay: string)

  /** A document of the Firestore `sync_status` collection, one per user. */
  datatype SyncStatusDoc = SyncStatusDoc(
    userId: string,
    lastSyncTime: int,
    pendingSyncs: int,
    lastSyncStatus: string,
    syncVersion: int)

  /** Calendar.DAY_OF_WEEK, in the calendar's own order (Sunday first). */
  datatype Weekday = Sun | Mon | Tue | Wed | Thu | Fri | Sat

  /** Calendar.HOUR_OF_DAY. */
  type Hour = h: int | 0 <= h < 24

  /** The label the statistics code gives a weekday (`days[DAY_OF_WEEK - 1]`). */
  function DayLabel(d: Weekday): (s: string)
    ensures |s| == 3
  {
    match d
    case Sun => "Sun"
    case Mon => "Mon"
    case Tue => "Tue"
    case Wed => "Wed"
    case Thu => "Thu"
    case Fri => "Fri"
    case Sat => "Sat"
  }

  lemma {:induction false} DayLabelInjective(a: Weekday, b: Weekday)
    requires DayLabel(a) == DayLabel(b)
    ensures a == b
  {
    assert DayLabel(a)[..2] == DayLabel(b)[..2];
    assert DayLabel(a)[2] == DayLabel(b)[2];
  }

  predicate IsCompleted(s: Session)
  {
    s.status == COMPLETED
  }
}

/**
 * Conversion between epoch milliseconds (the Room columns) and Firebase
 * timestamps. The Timestamp constructor throws unless the nanoseconds lie in
 * [0, 10^9) and the seconds lie between years 1 and 9999.
 */
module Timestamps {
  import opened Common
  import opened Entities

  const MIN_SECONDS: int := -62135596800
  const MAX_SECONDS: int := 253402300799

  /** What the Timestamp constructor accepts. */
  predicate IsValid(t: Timestamp)
  {
    0 <= t.nanoseconds < 1_000_000_000 && MIN_SECONDS <= t.seconds <= MAX_SECONDS
  }

  /** `Timestamp.toDate().time`: the instant in milliseconds. */
  function TimestampMillis(t: Timestamp): int
  {
    t.seconds * 1000 + t.nanoseconds / 1_000_000
  }

  /** `completionTimestamp.seconds * 1000`: the key the sync code compares; sub-second digits are dropped. */
  function KeyMillis(t: Timestamp): int
  {
    t.seconds * 1000
  }

  /**
   * `Timestamp(ms / 1000, ((ms % 1000) * 1000000).toInt())` with Kotlin's
   * truncating operators; None where the constructor throws.
   */
  function MillisToTimestamp(ms: int): (r: Option<Timestamp>)
    ensures r.Some? ==> IsValid(r.value)
    ensures r.Some? <==> (ms >= 0 || TruncRem(ms, 1000) == 0) && MIN_SECONDS <= TruncDiv(ms, 1000) <= MAX_SECONDS
  {
    var t := Timestamp(TruncDiv(ms, 1000), Int32(TruncRem(ms, 1000) * 1_000_000));
    if IsValid(t) then Some(t) else None
  }

  /**
   * For any instant from the epoch up to the end of year 9999 the conversion
   * succeeds and loses nothing: reading the instant back gives `ms`, and the
   * sync key is `ms` with its sub-second part dropped.
   */
  lemma {:induction false} MillisRoundTrip(ms: int)
    requires 0 <= ms <= MAX_SECONDS * 1000 + 999
    ensures MillisToTimestamp(ms).Some?
    ensures TimestampMillis(MillisToTimestamp(ms).value) == ms
    ensures KeyMillis(MillisToTimestamp(ms).value) == ms - ms % 1000
  {
    var t := MillisToTimestamp(ms).value;
    assert t.seconds == ms / 1000 && t.nanoseconds == (ms % 1000) * 1_000_000;
    assert t.nanoseconds / 1_000_000 == ms % 1000;
  }

  /** Whenever the conversion succeeds, the timestamp reads back as the same instant. */
  lemma {:induction false} MillisReadsBack(ms: int)
    ensures MillisToTimestamp(ms).Some? ==> TimestampMillis(MillisToTimestamp(ms).value) == ms
  {
    if MillisToTimestamp(ms).Some? {
      var t := MillisToTimestamp(ms).value;
      var rem := TruncRem(ms, 1000);
      assert t.nanoseconds == rem * 1_000_000;
      assert t.nanoseconds / 1_000_000 == rem;
    }
  }

  /** A negative instant that is not a whole second makes the constructor throw. */
  lemma {:induction false} NegativeFractionRejected(ms: int)
    requires ms < 0 && ms % 1000 != 0
    ensures MillisToTimestamp(ms).None?
  {
    assert TruncRem(ms, 1000) < 0;
  }

  /** The conversion performMultiDeviceSync uses: the nanosecond field is `(ms % 1000) * 1000`. */
  function MillisToTimestampAsWritten(ms: int): (r: Option<Timestamp>)
    ensures r.Some? ==> IsValid(r.value)
    ensures r.Some? ==> r.value.seconds == TruncDiv(ms, 1000)
  {
    var t := Timestamp(TruncDiv(ms, 1000), Int32(TruncRem(ms, 1000) * 1000));
    if IsValid(t) then Some(t) else None
  }

  /**
   * With that factor the sub-second part never survives: for every instant
   * from the epoch on, reading the document back yields the whole second.
   */
  lemma {:induction false} AsWrittenDropsMillis(ms: int)
    requires 0 <= ms <= MAX_SECONDS * 1000 + 999
    ensures MillisToTimestampAsWritten(ms).Some?
    ensures TimestampMillis(MillisToTimestampAsWritten(ms).value) == ms - ms % 1000
  {
    var t := MillisToTimestampAsWritten(ms).value;
    assert t.nanoseconds == (ms % 1000) * 1000 < 1_000_000;
  }

  /** Whenever the conversion as written succeeds, the timestamp reads back as a whole second. */
  lemma {:induction false} AsWrittenReadsBackWhole(ms: int)
    ensures MillisToTimestampAsWritten(ms).Some? ==>
      TimestampMillis(MillisToTimestampAsWritten(ms).value) == TruncDiv(ms, 1000) * 1000
  {
    if MillisToTimestampAsWritten(ms).Some? {
      var t := MillisToTimestampAsWritten(ms).value;
      assert t.nanoseconds == TruncRem(ms, 1000) * 1000;
      assert 0 <= t.nanoseconds < 1_000_000;
    }
  }

  /** The concrete instance: 1500 ms is stored as 1 s + 500 000 ns and read back as 1000 ms. */
  lemma {:induction false} AsWrittenCounterexample()
    ensures MillisToTimestampAsWritten(1500) == Some(Timestamp(1, 500_000))
    ensures TimestampMillis(MillisToTimestampAsWritten(1500).value) == 1000
    ensures TimestampMillis(MillisToTimestamp(1500).value) == 1500
  {
  }
}
