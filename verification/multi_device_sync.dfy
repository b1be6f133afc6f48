/**
 * EnhancedSyncManager.performMultiDeviceSync and getSyncStatus: the user's
 * recent local sessions are merged with the user's remote documents, the
 * merged list is pushed back as one batch, and the outcome is reported as a
 * SyncResult. The clock is the parameter `now`.
 */
module MultiDeviceSync {
  import opened Common
  import opened Entities
  import opened Timestamps
  import opened Reconciliation
  import opened LocalStore
  import opened RemoteStore

  /** Thirty days in milliseconds: the width the "recent" window is meant to have. */
  const THIRTY_DAYS_MS: int := 30 * 24 * 60 * 60 * 1000

  /** The same product evaluated as the source types it, in 32-bit `Int` arithmetic. */
  const THIRTY_DAYS_INT: int := Int32(30 * 24 * 60 * 60 * 1000)

  function CompletedAfter(cutoff: int): Session -> bool
  {
    (s: Session) => s.completionTimestamp > cutoff
  }

  lemma {:induction false} ThirtyDaysWraps()
    ensures THIRTY_DAYS_MS == 2_592_000_000
    ensures THIRTY_DAYS_INT == -1_702_967_296
  {
  }

  /**
   * The window filter as written: the cut-off is `now` minus the wrapped
   * product. Whatever it keeps, the intended window keeps too.
   */
  function RecentAsWritten(sessions: seq<Session>, now: int): (r: seq<Session>)
    ensures forall s :: s in r ==> s in Recent(sessions, now)
  {
    ThirtyDaysWraps();
    Filter(sessions, CompletedAfter(now - THIRTY_DAYS_INT))
  }

  /**
   * As written, the window keeps only sessions completed more than
   * 1,702,967,296 ms (about 19.7 days) AFTER `now`: no session completed up
   * to now survives it.
   */
  lemma {:induction false} AsWrittenKeepsOnlyFutureSessions(sessions: seq<Session>, now: int)
    ensures forall s :: s in RecentAsWritten(sessions, now) <==>
      s in sessions && s.completionTimestamp > now + 1_702_967_296
    ensures forall s :: s in sessions && s.completionTimestamp <= now ==> s !in RecentAsWritten(sessions, now)
  {
    ThirtyDaysWraps();
  }

  /** The window the code means: sessions completed within the last thirty days (or later). */
  function Recent(sessions: seq<Session>, now: int): (r: seq<Session>)
    ensures forall s :: s in r <==> s in sessions && s.completionTimestamp > now - 2_592_000_000
  {
    Filter(sessions, CompletedAfter(now - THIRTY_DAYS_MS))
  }

  /** A session finished one second ago is kept by the intended window and dropped by the written one. */
  lemma {:induction false} WindowCounterexample(s: Session, now: int)
    requires s.completionTimestamp == now - 1000
    ensures s in Recent([s], now)
    ensures s !in RecentAsWritten([s], now)
  {
    AsWrittenKeepsOnlyFutureSessions([s], now);
  }

  // ---- the push mapping ----

  /** The goal name every document pushed by the multi-device sync carries. */
  const MERGE_GOAL := "Focus Session"


  /**
   * The push as written: nanoseconds are `(ms % 1000) * 1000`. Every pushed
   * document reads back as the whole second of its session.
   */
  function PushDocsAsWritten(merged: seq<Session>, userId: string): (r: Option<seq<RemoteSession>>)
    ensures r.Some? ==> |r.value| == |merged|
    ensures r.Some? ==> forall i :: 0 <= i < |merged| ==>
      TimestampMillis(r.value[i].completionTimestamp) == TruncDiv(merged[i].completionTimestamp, 1000) * 1000
  {
    AsWrittenPushReadsBackWhole(merged);
    PushDocsWith(merged, userId, MERGE_GOAL, MillisToTimestampAsWritten)
  }

  lemma {:induction false} AsWrittenPushReadsBackWhole(merged: seq<Session>)
    ensures forall i :: 0 <= i < |merged| && MillisToTimestampAsWritten(merged[i].completionTimestamp).Some? ==>
      TimestampMillis(MillisToTimestampAsWritten(merged[i].completionTimestamp).value) == TruncDiv(merged[i].completionTimestamp, 1000) * 1000
  {
    forall i | 0 <= i < |merged|
      ensures MillisToTimestampAsWritten(merged[i].completionTimestamp).Some? ==>
        TimestampMillis(MillisToTimestampAsWritten(merged[i].completionTimestamp).value) == TruncDiv(merged[i].completionTimestamp, 1000) * 1000
    {
      AsWrittenReadsBackWhole(merged[i].completionTimestamp);
    }
  }

  /**
   * The push as meant: nanoseconds are `(ms % 1000) * 1000000`, as
   * UserDataManager does. It fails only where some conversion throws, and
   * every pushed document reads back as the instant of its session.
   */
  function PushDocs(merged: seq<Session>, userId: string): (r: Option<seq<RemoteSession>>)
    ensures r.Some? <==> forall i :: 0 <= i < |merged| ==> MillisToTimestamp(merged[i].completionTimestamp).Some?
    ensures r.Some? ==> |r.value| == |merged|
    ensures r.Some? ==> forall i :: 0 <= i < |merged| ==>
      TimestampMillis(r.value[i].completionTimestamp) == merged[i].completionTimestamp
  {
    PushReadsBack(merged);
    PushDocsWith(merged, userId, MERGE_GOAL, MillisToTimestamp)
  }

  lemma {:induction false} PushReadsBack(merged: seq<Session>)
    ensures forall i :: 0 <= i < |merged| && MillisToTimestamp(merged[i].completionTimestamp).Some? ==>
      TimestampMillis(MillisToTimestamp(merged[i].completionTimestamp).value) == merged[i].completionTimestamp
  {
    forall i | 0 <= i < |merged|
      ensures MillisToTimestamp(merged[i].completionTimestamp).Some? ==>
        TimestampMillis(MillisToTimestamp(merged[i].completionTimestamp).value) == merged[i].completionTimestamp
    {
      MillisReadsBack(merged[i].completionTimestamp);
    }
  }

  /**
   * With the intended conversion every session completed between the epoch
   * and the end of year 9999 is pushed, and its document reads back as the
   * same instant.
   */
  lemma {:induction false} PushPreservesInstants(merged: seq<Session>, userId: string)
    requires forall i :: 0 <= i < |merged| ==> 0 <= merged[i].completionTimestamp <= MAX_SECONDS * 1000 + 999
    ensures PushDocs(merged, userId).Some?
    ensures forall i :: 0 <= i < |merged| ==>
      TimestampMillis(PushDocs(merged, userId).value[i].completionTimestamp) == merged[i].completionTimestamp
  {
    forall i | 0 <= i < |merged| ensures MillisToTimestamp(merged[i].completionTimestamp).Some?
      && TimestampMillis(MillisToTimestamp(merged[i].completionTimestamp).value) == merged[i].completionTimestamp
    {
      MillisRoundTrip(merged[i].completionTimestamp);
    }
  }

  /** As written, a session completed at 1500 ms is pushed as 1 s + 500000 ns and reads back as 1000 ms. */
  lemma {:induction false} PushAsWrittenCounterexample(s: Session, userId: string)
    requires s.completionTimestamp == 1500
    ensures PushDocsAsWritten([s], userId).Some?
    ensures PushDocsAsWritten([s], userId).value[0].completionTimestamp == Timestamp(1, 500_000)
    ensures TimestampMillis(PushDocsAsWritten([s], userId).value[0].completionTimestamp) == 1000
  {
    AsWrittenCounterexample();
  }

  // ---- the sync ----

  datatype SyncError = ConversionFailed | BatchFailed

  /** `SyncResult`; the error message is reduced to which step failed. */
  datatype SyncResult = SyncResult(success: bool, syncedSessions: int, syncedStats: int, conflictsResolved: int, error: Option<SyncError>)

  const FAILED_CONVERSION := SyncResult(false, 0, 0, 0, Some(ConversionFailed))
  const FAILED_BATCH := SyncResult(false, 0, 0, 0, Some(BatchFailed))

  /**
   * `performMultiDeviceSync` with the intended window and conversion. The
   * remote read comes back in an unspecified order, returned as
   * `remoteRead`; a failed read counts as no documents.
   */
  method PerformMultiDeviceSync(store: RecordStore, remote: FirestoreStore, userId: string, now: int)
    returns (result: SyncResult, ghost remoteRead: seq<RemoteSession>)
    modifies remote`sessions
    ensures remote.online ==> forall d :: d in remoteRead <==> d in old(remote.sessions).Values && d.userId == userId
    ensures !remote.online ==> remoteRead == []
    ensures var merged := MergedSessions(Recent(store.SessionsOf(userId), now), remoteRead, userId);
      var docs := PushDocs(merged, userId);
      if docs.None? then
        result == FAILED_CONVERSION && remote.sessions == old(remote.sessions)
      else if remote.online then
        result == SyncResult(true, |merged|, 0, |SharedKeys(Recent(store.SessionsOf(userId), now), remoteRead)|, None)
        && remote.sessions == ApplyWrites(old(remote.sessions), BatchWrites(docs.value, now))
      else
        result == FAILED_BATCH && remote.sessions == old(remote.sessions)
  {
    var recent := Recent(store.SessionsOf(userId), now);
    var read := remote.GetUserSessions(userId);
    var remoteSessions := if read.Some? then read.value else [];
    remoteRead := remoteSessions;
    var merged, conflictsResolved := MergeSessionsWithConflictResolution(recent, remoteSessions, userId);
    var docs := PushDocs(merged, userId);
    if docs.None? {
      return FAILED_CONVERSION, remoteRead;
    }
    var ok := remote.SaveSessions(docs.value, now);
    if ok {
      result := SyncResult(true, |merged|, 0, conflictsResolved, None);
    } else {
      result := FAILED_BATCH;
    }
  }

  /**
   * `getSyncStatus` over the user's sessions: NO_RECENT_DATA without a
   * session in the last day, SYNCED with one in the last two hours,
   * NEEDS_SYNC otherwise.
   */
  function SyncStatusOf(sessions: seq<Session>, now: int): (r: string)
    ensures r == "NO_RECENT_DATA" <==> forall s :: s in sessions ==> s.completionTimestamp <= now - 86_400_000
    ensures r == "SYNCED" <==> exists s :: s in sessions && s.completionTimestamp > now - 7_200_000
    ensures r == "NEEDS_SYNC" <==>
      (exists s :: s in sessions && s.completionTimestamp > now - 86_400_000)
      && forall s :: s in sessions ==> s.completionTimestamp <= now - 7_200_000
  {
    var recent := Filter(sessions, CompletedAfter(now - 24 * 60 * 60 * 1000));
    if recent == [] then "NO_RECENT_DATA"
    else
      assert recent[0] in recent;
      if Find(recent, CompletedAfter(now - 2 * 60 * 60 * 1000)).Some? then "SYNCED" else "NEEDS_SYNC"
  }
}
