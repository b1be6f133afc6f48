/**
 * The Firestore collections the app writes, as maps from document id to
 * document. Whether a call reaches the server is the store's `online` flag:
 * a call that does not returns a failed Result and changes nothing. Every
 * write sets all of a document's fields, so `set(..., merge)` replaces the
 * stored document; a batch applies its writes in order and commits all or
 * nothing.
 */
module RemoteStore {
  import opened Common
  import opened Entities

  /** One call of `updateSyncStatus`, successful or not. */
  datatype StatusWrite = StatusWrite(userId: string, status: string)

  /** Document id of a statistics document without an explicit id. */
  function StatDocId(userId: string, periodType: string, periodStartSeconds: int): string
  {
    "stat_" + userId + "_" + periodType + "_" + IntToString(periodStartSeconds)
  }

  /**
   * Document id a batch gives a session: its own id, or for an empty id
   * "session_<time>_<n>" (the source appends the object's hash code, which
   * is stood in for by the position `n` in the batch).
   */
  function BatchDocId(d: RemoteSession, now: int, n: nat): (id: string)
    ensures d.sessionId != "" ==> id == d.sessionId
  {
    if d.sessionId != "" then d.sessionId else "session_" + IntToString(now) + "_" + NatToString(n)
  }

  /** The (document id, document) writes of a session batch, in order. */
  function BatchWrites(docs: seq<RemoteSession>, now: int): (w: seq<(string, RemoteSession)>)
    ensures |w| == |docs|
    ensures forall i :: 0 <= i < |docs| ==> w[i].0 == BatchDocId(docs[i], now, i) && w[i].1 == docs[i].(sessionId := w[i].0)
  {
    seq(|docs|, i requires 0 <= i < |docs| => (BatchDocId(docs[i], now, i), docs[i].(sessionId := BatchDocId(docs[i], now, i))))
  }

  /** A collection after a sequence of `set` calls, applied in order. */
  function ApplyWrites<V>(m: map<string, V>, writes: seq<(string, V)>): map<string, V>
    decreases |writes|
  {
    if writes == [] then m else ApplyWrites(m[writes[0].0 := writes[0].1], writes[1..])
  }

  lemma {:induction false} ApplyWritesKeys<V>(m: map<string, V>, writes: seq<(string, V)>, k: string)
    ensures k in ApplyWrites(m, writes) <==> k in m || exists i :: 0 <= i < |writes| && writes[i].0 == k
    decreases |writes|
  {
    if writes != [] {
      ApplyWritesKeys(m[writes[0].0 := writes[0].1], writes[1..], k);
      if exists i :: 0 <= i < |writes| - 1 && writes[1..][i].0 == k {
        var i :| 0 <= i < |writes| - 1 && writes[1..][i].0 == k;
        assert writes[i + 1].0 == k;
      }
      if exists i :: 0 <= i < |writes| && writes[i].0 == k {
        var i :| 0 <= i < |writes| && writes[i].0 == k;
        if i > 0 { assert writes[1..][i - 1].0 == k; }
      }
    }
  }

  /** A key no write touches keeps its value. */
  lemma {:induction false} ApplyWritesUntouched<V>(m: map<string, V>, writes: seq<(string, V)>, k: string)
    requires k in m
    requires forall j :: 0 <= j < |writes| ==> writes[j].0 != k
    ensures k in ApplyWrites(m, writes) && ApplyWrites(m, writes)[k] == m[k]
    decreases |writes|
  {
    if writes != [] {
      assert forall j :: 0 <= j < |writes| - 1 ==> writes[1..][j] == writes[j + 1];
      ApplyWritesUntouched(m[writes[0].0 := writes[0].1], writes[1..], k);
    }
  }

  /** One more write at the end is one more map update. */
  lemma {:induction false} ApplyWritesAppend<V>(m: map<string, V>, writes: seq<(string, V)>, w: (string, V))
    ensures ApplyWrites(m, writes + [w]) == ApplyWrites(m, writes)[w.0 := w.1]
    decreases |writes|
  {
    if writes == [] {
      assert writes + [w] == [w];
      assert [w][1..] == [];
    } else {
      assert (writes + [w])[1..] == writes[1..] + [w];
      ApplyWritesAppend(m[writes[0].0 := writes[0].1], writes[1..], w);
    }
  }

  /** Last write wins: a key's final value is the value of its last write. */
  lemma {:induction false} LastWriteWins<V>(m: map<string, V>, writes: seq<(string, V)>, i: nat)
    requires i < |writes|
    requires forall j :: i < j < |writes| ==> writes[j].0 != writes[i].0
    ensures writes[i].0 in ApplyWrites(m, writes) && ApplyWrites(m, writes)[writes[i].0] == writes[i].1
    decreases |writes|
  {
    var m' := m[writes[0].0 := writes[0].1];
    assert forall j :: 0 <= j < |writes| - 1 ==> writes[1..][j] == writes[j + 1];
    if i == 0 {
      ApplyWritesUntouched(m', writes[1..], writes[0].0);
    } else {
      LastWriteWins(m', writes[1..], i - 1);
    }
  }

  // ---- documents pushed for local sessions ----

  /** Document id of a pushed session: "local_<sessionId>". */
  function PushDocId(s: Session): string
  {
    "local_" + IntToString(s.sessionId)
  }

  /** The document pushed for a merged session, given its converted completion time. */
  function PushDoc(s: Session, userId: string, goalName: string, t: Timestamp): RemoteSession
  {
    RemoteSession(PushDocId(s), userId, t, s.workDuration, s.status, goalName, "SYNCED")
  }

  /**
   * The documents for the merged list, each time converted by `conv`; None
   * where some conversion throws (which aborts the whole sync).
   */
  function PushDocsWith(merged: seq<Session>, userId: string, goalName: string, conv: int -> Option<Timestamp>): (r: Option<seq<RemoteSession>>)
    ensures r.Some? <==> forall i :: 0 <= i < |merged| ==> conv(merged[i].completionTimestamp).Some?
    ensures r.Some? ==> |r.value| == |merged|
    ensures r.Some? ==> forall i :: 0 <= i < |merged| ==>
      r.value[i] == PushDoc(merged[i], userId, goalName, conv(merged[i].completionTimestamp).value)
    decreases |merged|
  {
    if merged == [] then Some([])
    else
      var t := conv(merged[0].completionTimestamp);
      var rest := PushDocsWith(merged[1..], userId, goalName, conv);
      if t.None? || rest.None? then
        assert t.None? ==> !conv(merged[0].completionTimestamp).Some?;
        assert rest.None? ==> exists i :: 0 <= i < |merged| - 1 && !conv(merged[1..][i].completionTimestamp).Some?;
        None
      else Some([PushDoc(merged[0], userId, goalName, t.value)] + rest.value)
  }

  /**
   * Two pushed sessions go to the same document exactly when their ids
   * agree; in particular every merged entry taken from the remote side
   * (id 0) lands on "local_0", and a batch keeps only the last of them.
   */
  lemma {:induction false} PushDocIdsCollideOnlyOnEqualIds(a: Session, b: Session)
    ensures PushDocId(a) == PushDocId(b) <==> a.sessionId == b.sessionId
    ensures a.sessionId == 0 ==> PushDocId(a) == "local_0"
  {
    if PushDocId(a) == PushDocId(b) {
      assert IntToString(a.sessionId) == PushDocId(a)[6..] == PushDocId(b)[6..] == IntToString(b.sessionId);
      IntToStringInjective(a.sessionId, b.sessionId);
    }
  }

  class FirestoreStore {
    var users: map<string, RemoteUser>
    var sessions: map<string, RemoteSession>
    var statistics: map<string, RemoteStatistics>
    var syncStatus: map<string, SyncStatusDoc>
    /** Every `updateSyncStatus` call so far, in order. */
    var statusWrites: seq<StatusWrite>
    /** Whether calls reach the server. */
    var online: bool

    constructor (online: bool)
      ensures this.online == online
      ensures users == map[] && sessions == map[] && statistics == map[] && syncStatus == map[] && statusWrites == []
    {
      users, sessions, statistics, syncStatus, statusWrites := map[], map[], map[], map[], [];
      this.online := online;
    }

    /** `saveUserToFirestore`: the document keyed by the user id. */
    method SaveUser(u: RemoteUser) returns (ok: bool)
      modifies this`users
      ensures ok == online
      ensures users == if ok then old(users)[u.userId := u] else old(users)
    {
      ok := online;
      if ok {
        users := users[u.userId := u];
      }
    }

    /** `saveMultipleSessions`: one batch, committed whole or not at all. */
    method SaveSessions(docs: seq<RemoteSession>, now: int) returns (ok: bool)
      modifies this`sessions
      ensures ok == online
      ensures sessions == if ok then ApplyWrites(old(sessions), BatchWrites(docs, now)) else old(sessions)
    {
      ok := online;
      if ok {
        sessions := ApplyWrites(sessions, BatchWrites(docs, now));
      }
    }

    /**
     * `getUserSessionsFromFirestore`: the documents whose user id matches,
     * one entry per document; the order (timestamp descending in the source)
     * is left unspecified.
     */
    method GetUserSessions(userId: string) returns (r: Option<seq<RemoteSession>>)
      ensures r.Some? <==> online
      ensures r.Some? ==> forall d :: d in r.value <==> d in sessions.Values && d.userId == userId
    {
      if !online {
        return None;
      }
      var keys := sessions.Keys;
      var found: seq<RemoteSession> := [];
      ghost var seen: set<string> := {};
      while keys != {}
        invariant keys + seen == sessions.Keys && keys !! seen
        invariant forall d :: d in found <==> exists k :: k in seen && sessions[k] == d && d.userId == userId
        decreases |keys|
      {
        var k :| k in keys;
        if sessions[k].userId == userId {
          found := found + [sessions[k]];
        }
        keys := keys - {k};
        seen := seen + {k};
      }
      r := Some(found);
    }

    /** `saveStatisticsToFirestore`: keyed by its own id, or by "stat_<user>_<type>_<start seconds>". */
    method SaveStatistics(st: RemoteStatistics) returns (ok: bool)
      modifies this`statistics
      ensures ok == online
      ensures var id := if st.statId != "" then st.statId else StatDocId(st.userId, st.periodType, st.periodStart.seconds);
        statistics == if ok then old(statistics)[id := st.(statId := id)] else old(statistics)
    {
      ok := online;
      if ok {
        var id := if st.statId != "" then st.statId else StatDocId(st.userId, st.periodType, st.periodStart.seconds);
        statistics := statistics[id := st.(statId := id)];
      }
    }

    /** `updateSyncStatus`: the user's status document gets the new status, time and zero pending syncs. */
    method UpdateSyncStatus(userId: string, status: string, now: int) returns (ok: bool)
      modifies this`syncStatus, this`statusWrites
      ensures ok == online
      ensures statusWrites == old(statusWrites) + [StatusWrite(userId, status)]
      ensures syncStatus == if ok then old(syncStatus)[userId := SyncStatusDoc(userId, now, 0, status, 1)] else old(syncStatus)
    {
      statusWrites := statusWrites + [StatusWrite(userId, status)];
      ok := online;
      if ok {
        syncStatus := syncStatus[userId := SyncStatusDoc(userId, now, 0, status, 1)];
      }
    }

    /** `getSyncStatus`: None for a failed read, Some(None) when no document exists. */
    method GetSyncStatus(userId: string) returns (r: Option<Option<SyncStatusDoc>>)
      ensures r.Some? <==> online
      ensures r.Some? ==> r.value == if userId in syncStatus then Some(syncStatus[userId]) else None
    {
      if !online {
        return None;
      }
      r := Some(if userId in syncStatus then Some(syncStatus[userId]) else None);
    }
  }
}
