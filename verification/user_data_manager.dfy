/**
 * UserDataManager: login, the two-way session sync, the statistics save and
 * logout, over the local tables, the Firestore collections and the session
 * preferences. The clock is the parameter `now`; the weekday of an instant
 * is the parameter `weekdayOf`.
 */
module UserData {
  import opened Common
  import opened Entities
  import opened Timestamps
  import opened LocalStore
  import opened RemoteStore
  import opened Preferences
  import opened SessionPrefs
  import opened StatisticsCalc

  /** The goal name of the documents this sync pushes. */
  const SYNC_GOAL := "Focus Time"
  const DEFAULT_NAME := "User"
  const DEFAULT_PHOTO := "R.drawable._4"
  /** The photo the remote user document gets on first login when none is given. */
  const DEFAULT_REMOTE_PHOTO := "DEFAULT_PROFILE_IMAGE"

  const SUCCESS := "SUCCESS"
  const FAILED := "FAILED"
  const LOGOUT_SYNC_IN_PROGRESS := "LOGOUT_SYNC_IN_PROGRESS"
  const LOGOUT_COMPLETE := "LOGOUT_COMPLETE"

  /** The completion times of some rows, in order. */
  function TimesOf(rows: seq<Session>): (r: seq<int>)
    ensures |r| == |rows|
    decreases |rows|
  {
    if rows == [] then [] else [rows[0].completionTimestamp] + TimesOf(rows[1..])
  }

  lemma {:induction false} TimesOfIndex(rows: seq<Session>, k: int)
    requires 0 <= k < |rows|
    ensures TimesOf(rows)[k] == rows[k].completionTimestamp
    decreases |rows|
  {
    if k > 0 {
      TimesOfIndex(rows[1..], k - 1);
    }
  }

  lemma {:induction false} TimesOfAppend(a: seq<Session>, b: seq<Session>)
    ensures TimesOf(a + b) == TimesOf(a) + TimesOf(b)
    decreases |a|
  {
    if a == [] {
      assert a + b == b;
    } else {
      assert (a + b)[1..] == a[1..] + b;
      TimesOfAppend(a[1..], b);
    }
  }

  // ---- pull: which remote documents become local rows ----

  /**
   * The existence check as written: a local row "is" the document when its
   * time equals the document's whole seconds times 1000. It never passes a
   * time with a sub-second part, and on whole-second times it agrees with
   * the intended check.
   */
  function MatchesAsWritten(localTime: int, t: Timestamp): (r: bool)
    ensures localTime % 1000 != 0 ==> !r
    ensures localTime % 1000 == 0 ==> (r <==> Matches(localTime, t))
  {
    localTime == KeyMillis(t)
  }

  /**
   * The check as meant: the local time lies in the document's second
   * (Kotlin's `/` truncates, so a negative time belongs to the second
   * nearer zero).
   */
  function Matches(localTime: int, t: Timestamp): (r: bool)
    ensures localTime >= 0 ==> (r <==> t.seconds * 1000 <= localTime < t.seconds * 1000 + 1000)
    ensures localTime < 0 ==> (r <==> t.seconds * 1000 - 1000 < localTime <= t.seconds * 1000)
  {
    TruncDiv(localTime, 1000) == t.seconds
  }

  /** The row a pulled document becomes: a fresh id, the document's whole seconds, duration and status. */
  function PulledRow(d: RemoteSession, userId: string): Session
  {
    Session(0, userId, KeyMillis(d.completionTimestamp), d.workDuration, d.status)
  }

  /** Some time in `have` matches the instant `t`. */
  function AnyMatches(have: seq<int>, t: Timestamp, matches: (int, Timestamp) -> bool): bool
    decreases |have|
  {
    have != [] && (matches(have[0], t) || AnyMatches(have[1..], t, matches))
  }

  lemma {:induction false} AnyMatchesIff(have: seq<int>, t: Timestamp, matches: (int, Timestamp) -> bool)
    ensures AnyMatches(have, t, matches) <==> exists x :: x in have && matches(x, t)
    decreases |have|
  {
    if have != [] {
      AnyMatchesIff(have[1..], t, matches);
      assert forall x :: x in have[1..] ==> x in have;
      if exists x :: x in have && matches(x, t) {
        var x :| x in have && matches(x, t);
        if x != have[0] {
          assert x in have[1..];
        }
      }
    }
  }

  /**
   * The rows the pull inserts, before ids are given: the documents, in
   * order, that no row of the user matches, where rows inserted earlier in
   * the same pull count (`have` holds the times of the user's rows so far).
   */
  function PullRows(have: seq<int>, docs: seq<RemoteSession>, userId: string, matches: (int, Timestamp) -> bool): seq<Session>
    decreases |docs|
  {
    if docs == [] then []
    else if AnyMatches(have, docs[0].completionTimestamp, matches) then PullRows(have, docs[1..], userId, matches)
    else [PulledRow(docs[0], userId)] + PullRows(have + [KeyMillis(docs[0].completionTimestamp)], docs[1..], userId, matches)
  }

  /** What one document adds: its row, unless a row so far matches it. */
  function PullStep(have: seq<int>, d: RemoteSession, userId: string, matches: (int, Timestamp) -> bool): seq<Session>
  {
    if AnyMatches(have, d.completionTimestamp, matches) then [] else [PulledRow(d, userId)]
  }

  lemma {:induction false} PullRowsUnfold(have: seq<int>, docs: seq<RemoteSession>, userId: string, matches: (int, Timestamp) -> bool)
    requires docs != []
    ensures var step := PullStep(have, docs[0], userId, matches);
      PullRows(have, docs, userId, matches) == step + PullRows(have + TimesOf(step), docs[1..], userId, matches)
  {
    var step := PullStep(have, docs[0], userId, matches);
    if step == [] {
      assert have + TimesOf(step) == have;
    } else {
      assert TimesOf(step) == [KeyMillis(docs[0].completionTimestamp)];
    }
  }

  /**
   * After the pull every document is matched by a row of the user, old or
   * inserted, provided a pulled row matches its own document; and every
   * inserted row comes from a document no earlier row matched.
   */
  lemma {:induction false} PullRowsComplete(have: seq<int>, docs: seq<RemoteSession>, userId: string, matches: (int, Timestamp) -> bool)
    requires forall t: Timestamp :: matches(KeyMillis(t), t)
    ensures forall d :: d in docs ==> exists t :: t in have + TimesOf(PullRows(have, docs, userId, matches)) && matches(t, d.completionTimestamp)
    ensures forall r :: r in PullRows(have, docs, userId, matches) ==>
      exists d :: d in docs && r == PulledRow(d, userId) && forall t :: t in have ==> !matches(t, d.completionTimestamp)
    decreases |docs|
  {
    if docs != [] {
      var d0 := docs[0];
      var rows := PullRows(have, docs, userId, matches);
      assert forall d :: d in docs[1..] ==> d in docs;
      AnyMatchesIff(have, d0.completionTimestamp, matches);
      if exists t :: t in have && matches(t, d0.completionTimestamp) {
        PullRowsComplete(have, docs[1..], userId, matches);
        forall d | d in docs
          ensures exists t :: t in have + TimesOf(rows) && matches(t, d.completionTimestamp)
        {
          if d == d0 {
            var t :| t in have && matches(t, d0.completionTimestamp);
            assert t in have + TimesOf(rows);
          } else {
            assert d in docs[1..];
          }
        }
      } else {
        var have' := have + [KeyMillis(d0.completionTimestamp)];
        var rest := PullRows(have', docs[1..], userId, matches);
        PullRowsComplete(have', docs[1..], userId, matches);
        assert rows == [PulledRow(d0, userId)] + rest;
        TimesOfAppend([PulledRow(d0, userId)], rest);
        assert have + TimesOf(rows) == have' + TimesOf(rest);
        forall d | d in docs
          ensures exists t :: t in have + TimesOf(rows) && matches(t, d.completionTimestamp)
        {
          if d == d0 {
            assert KeyMillis(d0.completionTimestamp) in have';
          } else {
            assert d in docs[1..];
          }
        }
        forall r | r in rows
          ensures exists d :: d in docs && r == PulledRow(d, userId) && forall t :: t in have ==> !matches(t, d.completionTimestamp)
        {
          if r != PulledRow(d0, userId) {
            assert r in rest;
            var d :| d in docs[1..] && r == PulledRow(d, userId) && forall t :: t in have' ==> !matches(t, d.completionTimestamp);
            assert forall t :: t in have ==> t in have';
          }
        }
      }
    }
  }

  /** When every document is already matched, the pull inserts nothing. */
  lemma {:induction false} PullRowsNothingWhenMatched(have: seq<int>, docs: seq<RemoteSession>, userId: string, matches: (int, Timestamp) -> bool)
    requires forall d :: d in docs ==> exists t :: t in have && matches(t, d.completionTimestamp)
    ensures PullRows(have, docs, userId, matches) == []
    decreases |docs|
  {
    if docs != [] {
      assert docs[0] in docs;
      AnyMatchesIff(have, docs[0].completionTimestamp, matches);
      assert forall d :: d in docs[1..] ==> d in docs;
      PullRowsNothingWhenMatched(have, docs[1..], userId, matches);
    }
  }

  /**
   * With the intended check, a sync pulls nothing back for the sessions it
   * has just pushed: each pushed document is matched by its own session.
   */
  lemma {:induction false} PushedSessionsPullNothing(local: seq<Session>, userId: string)
    requires forall i :: 0 <= i < |local| ==> 0 <= local[i].completionTimestamp <= MAX_SECONDS * 1000 + 999
    ensures PushDocsWith(local, userId, SYNC_GOAL, MillisToTimestamp).Some?
    ensures PullRows(TimesOf(local), PushDocsWith(local, userId, SYNC_GOAL, MillisToTimestamp).value, userId, Matches) == []
  {
    forall i | 0 <= i < |local|
      ensures MillisToTimestamp(local[i].completionTimestamp).Some?
      ensures Matches(local[i].completionTimestamp, MillisToTimestamp(local[i].completionTimestamp).value)
    {
      PushedTimeMatches(local[i].completionTimestamp);
    }
    var docs := PushDocsWith(local, userId, SYNC_GOAL, MillisToTimestamp).value;
    var times := TimesOf(local);
    forall d | d in docs
      ensures exists t :: t in times && Matches(t, d.completionTimestamp)
    {
      var i :| 0 <= i < |docs| && docs[i] == d;
      TimesOfIndex(local, i);
      assert times[i] in times;
    }
    PullRowsNothingWhenMatched(times, docs, userId, Matches);
  }

  /** A time that converts is matched, under the intended check, by the document it converts to. */
  lemma {:induction false} PushedTimeMatches(ms: int)
    requires 0 <= ms <= MAX_SECONDS * 1000 + 999
    ensures MillisToTimestamp(ms).Some?
    ensures Matches(ms, MillisToTimestamp(ms).value)
  {
    MillisRoundTrip(ms);
  }

  /**
   * As written, a session completed at 1500 ms is pushed as 1 s + 500 ms,
   * and the pull that follows finds no local row at exactly 1000 ms, so it
   * inserts a second row for the same session.
   */
  lemma {:induction false} PullDuplicatesAsWritten(s: Session, userId: string)
    requires s.completionTimestamp == 1500
    ensures PushDocsWith([s], userId, SYNC_GOAL, MillisToTimestamp)
      == Some([PushDoc(s, userId, SYNC_GOAL, Timestamp(1, 500_000_000))])
    ensures PullRows(TimesOf([s]), [PushDoc(s, userId, SYNC_GOAL, Timestamp(1, 500_000_000))], userId, MatchesAsWritten)
      == [Session(0, userId, 1000, s.workDuration, s.status)]
    ensures PullRows(TimesOf([s]), [PushDoc(s, userId, SYNC_GOAL, Timestamp(1, 500_000_000))], userId, Matches) == []
  {
    var d := PushDoc(s, userId, SYNC_GOAL, Timestamp(1, 500_000_000));
    assert MillisToTimestamp(1500) == Some(Timestamp(1, 500_000_000));
    var pushed := PushDocsWith([s], userId, SYNC_GOAL, MillisToTimestamp);
    assert pushed.Some? && |pushed.value| == 1 && pushed.value[0] == d;
    assert pushed.value == [d];
    assert TimesOf([s]) == [1500];
    assert !AnyMatches([1500], d.completionTimestamp, MatchesAsWritten);
    assert AnyMatches([1500], d.completionTimestamp, Matches);
  }

  /** Ids given by AUTOINCREMENT to rows inserted one after another after id `base`. */
  function Numbered(rows: seq<Session>, base: int): (r: seq<Session>)
    ensures |r| == |rows|
    decreases |rows|
  {
    if rows == [] then [] else [rows[0].(sessionId := base + 1)] + Numbered(rows[1..], base + 1)
  }

  /** The i-th inserted row gets id base + i + 1 and keeps everything else. */
  lemma {:induction false} NumberedIds(rows: seq<Session>, base: int, i: int)
    requires 0 <= i < |rows|
    ensures Numbered(rows, base)[i] == rows[i].(sessionId := base + i + 1)
    decreases |rows|
  {
    if i > 0 {
      NumberedIds(rows[1..], base + 1, i - 1);
    }
  }

  // ---- statistics documents ----

  /** Both period bounds of a row convert to Timestamps. */
  predicate Converts(st: Statistics)
  {
    MillisToTimestamp(st.periodStart).Some? && MillisToTimestamp(st.periodEnd).Some?
  }

  /**
   * The statistics document `syncStatistics` builds for a local row (no id
   * of its own). It is only built for rows that convert; the epoch stands in
   * for a bound that does not.
   */
  function StatDoc(st: Statistics, userId: string): (d: RemoteStatistics)
    ensures Converts(st) ==>
      Some(d.periodStart) == MillisToTimestamp(st.periodStart) && Some(d.periodEnd) == MillisToTimestamp(st.periodEnd)
  {
    RemoteStatistics("", userId, st.periodType,
      OrElse(MillisToTimestamp(st.periodStart), Timestamp(0, 0)), OrElse(MillisToTimestamp(st.periodEnd), Timestamp(0, 0)),
      st.noOfSessions, st.focusTime, st.averageSessionTime, st.longestSession, st.completionRate, st.mostProductiveDay)
  }

  /** The write `saveStatisticsToFirestore` makes for a document without an id. */
  function StatWrite(d: RemoteStatistics): (w: (string, RemoteStatistics))
    ensures w.0 == StatDocId(d.userId, d.periodType, d.periodStart.seconds)
    ensures w.1 == d.(statId := w.0)
  {
    var id := StatDocId(d.userId, d.periodType, d.periodStart.seconds);
    (id, d.(statId := id))
  }

  /** The writes for some rows, in order. */
  function StatWrites(stats: seq<Statistics>, userId: string): (w: seq<(string, RemoteStatistics)>)
    ensures |w| == |stats|
    decreases |stats|
  {
    if stats == [] then []
    else StatWrites(stats[..|stats| - 1], userId) + [StatWrite(StatDoc(stats[|stats| - 1], userId))]
  }

  /**
   * How many rows `syncStatistics` pushes: the loop stops at the first row
   * whose period does not convert (the exception is caught around the loop).
   */
  function ConvertedPrefix(stats: seq<Statistics>): (n: nat)
    ensures n <= |stats|
    ensures forall j :: 0 <= j < n ==> Converts(stats[j])
    ensures n < |stats| ==> !Converts(stats[n])
  {
    ConvertedFrom(stats, 0)
  }

  /** Row `i` of a loop still inside the converted prefix either extends it or ends it there. */
  lemma {:induction false} ConvertedPrefixStep(stats: seq<Statistics>, i: nat)
    requires i < |stats| && i <= ConvertedPrefix(stats)
    ensures Converts(stats[i]) ==> i + 1 <= ConvertedPrefix(stats)
    ensures !Converts(stats[i]) ==> ConvertedPrefix(stats) == i
  {
  }

  /** The first row at or after `i` that does not convert, or the end. */
  function ConvertedFrom(stats: seq<Statistics>, i: nat): (n: nat)
    requires i <= |stats|
    ensures i <= n <= |stats|
    ensures forall j :: i <= j < n ==> Converts(stats[j])
    ensures n < |stats| ==> !Converts(stats[n])
    decreases |stats| - i
  {
    if i == |stats| || !Converts(stats[i]) then i else ConvertedFrom(stats, i + 1)
  }

  /** A row matches a document under a check (the one as written or the intended one). */
  function MatchesDoc(d: RemoteSession, matches: (int, Timestamp) -> bool): Session -> bool
  {
    (s: Session) => matches(s.completionTimestamp, d.completionTimestamp)
  }

  /** The step, computed as the loop does: `find` among the user's rows, under either check. */
  lemma {:induction false} PullStepIsFind(have: seq<Session>, d: RemoteSession, userId: string, matches: (int, Timestamp) -> bool)
    ensures PullStep(TimesOf(have), d, userId, matches)
      == if Find(have, MatchesDoc(d, matches)).Some? then [] else [PulledRow(d, userId)]
    decreases |have|
  {
    if have != [] {
      PullStepIsFind(have[1..], d, userId, matches);
    }
  }

  /** Without a users row a user owns no session (the foreign key guarantees it). */
  lemma {:induction false} NoSessionsWithoutUser(store: RecordStore, userId: string)
    requires store.Valid() && userId !in store.UserIds()
    ensures store.SessionsOf(userId) == []
  {
    FilterNone(store.sessions, OwnedBy(userId));
  }

  /** Appending a row of the user appends it to the user's query. */
  lemma {:induction false} OwnedAppend(sessions: seq<Session>, row: Session, userId: string)
    requires row.sessionOwnerId == userId
    ensures Filter(sessions + [row], OwnedBy(userId)) == Filter(sessions, OwnedBy(userId)) + [row]
  {
    FilterAppend(sessions, [row], OwnedBy(userId));
    assert [row][1..] == [];
  }

  /** Rows given ids after `sessions0`, all of the user, extend the user's query by themselves. */
  lemma {:induction false} OwnedNumbered(sessions0: seq<Session>, done: seq<Session>, base: int, userId: string)
    requires forall j :: 0 <= j < |done| ==> done[j].sessionOwnerId == userId
    ensures Filter(sessions0 + Numbered(done, base), OwnedBy(userId))
      == Filter(sessions0, OwnedBy(userId)) + Numbered(done, base)
  {
    FilterAppend(sessions0, Numbered(done, base), OwnedBy(userId));
    forall x | x in Numbered(done, base)
      ensures OwnedBy(userId)(x)
    {
      var i :| 0 <= i < |done| && Numbered(done, base)[i] == x;
      NumberedIds(done, base, i);
    }
    FilterAll(Numbered(done, base), OwnedBy(userId));
  }

  /** One turn of the pull loop, on values: the rows still to come after one more document. */
  lemma {:induction false} PullAdvance(start: seq<Session>, done: seq<Session>, docs: seq<RemoteSession>, i: nat, userId: string, rows: seq<Session>)
    requires i < |docs|
    requires done + PullRows(TimesOf(start) + TimesOf(done), docs[i..], userId, Matches) == rows
    ensures var step := PullStep(TimesOf(start) + TimesOf(done), docs[i], userId, Matches);
      (done + step) + PullRows(TimesOf(start) + TimesOf(done + step), docs[i + 1..], userId, Matches) == rows
  {
    var have := TimesOf(start) + TimesOf(done);
    var step := PullStep(have, docs[i], userId, Matches);
    PullRowsUnfold(have, docs[i..], userId, Matches);
    assert docs[i..][1..] == docs[i + 1..];
    var have' := have + TimesOf(step);
    TimesOfAppend(done, step);
    assert have' == TimesOf(start) + TimesOf(done + step);
    var rest := PullRows(have', docs[i + 1..], userId, Matches);
    assert PullRows(have, docs[i..], userId, Matches) == step + rest;
    assert done + (step + rest) == (done + step) + rest;
  }

  lemma {:induction false} NumberedAppend(done: seq<Session>, step: seq<Session>, base: int)
    ensures Numbered(done + step, base) == Numbered(done, base) + Numbered(step, base + |done|)
    decreases |done|
  {
    if done == [] {
      assert done + step == step;
    } else {
      assert (done + step)[1..] == done[1..] + step;
      NumberedAppend(done[1..], step, base + 1);
      assert Numbered(done, base) == [done[0].(sessionId := base + 1)] + Numbered(done[1..], base + 1);
    }
  }

  /** The table after one more turn of the pull loop. */
  lemma {:induction false} SessionsAfterStep(sessions0: seq<Session>, done: seq<Session>, step: seq<Session>, base: int, seqNo: int, before: seq<Session>, after: seq<Session>)
    requires before == sessions0 + Numbered(done, base)
    requires seqNo == base + |done|
    requires after == before + Numbered(step, seqNo)
    ensures after == sessions0 + Numbered(done + step, base)
  {
    NumberedAppend(done, step, base);
  }

  /** Giving ids keeps the times. */
  lemma {:induction false} TimesOfNumbered(start: seq<Session>, done: seq<Session>, base: int)
    ensures TimesOf(start + Numbered(done, base)) == TimesOf(start) + TimesOf(done)
  {
    TimesOfAppend(start, Numbered(done, base));
    forall i | 0 <= i < |done|
      ensures TimesOf(Numbered(done, base))[i] == TimesOf(done)[i]
    {
      NumberedIds(done, base, i);
      TimesOfIndex(Numbered(done, base), i);
      TimesOfIndex(done, i);
    }
  }

  /** Every row given an id after `base` has an id above it. */
  lemma {:induction false} NumberedAbove(rows: seq<Session>, base: int)
    ensures forall x :: x in Numbered(rows, base) ==> x.sessionId > base
  {
    forall x | x in Numbered(rows, base)
      ensures x.sessionId > base
    {
      var i :| 0 <= i < |rows| && Numbered(rows, base)[i] == x;
      NumberedIds(rows, base, i);
    }
  }

  /** A document's own whole seconds match it under both checks. */
  lemma {:induction false} KeyMillisMatches(t: Timestamp)
    ensures MatchesAsWritten(KeyMillis(t), t)
    ensures Matches(KeyMillis(t), t)
  {
    if t.seconds >= 0 {
      assert KeyMillis(t) == t.seconds * 1000;
    } else {
      assert -KeyMillis(t) == (-t.seconds) * 1000;
    }
  }

  /** A time among the times of some rows is the time of one of them. */
  lemma {:induction false} TimesOfMember(rows: seq<Session>, t: int)
    requires t in TimesOf(rows)
    ensures exists s :: s in rows && s.completionTimestamp == t
  {
    var k :| 0 <= k < |TimesOf(rows)| && TimesOf(rows)[k] == t;
    TimesOfIndex(rows, k);
    assert rows[k] in rows;
  }

  /**
   * After the pull every document read is matched by a row of the user:
   * one the user had, or one the pull inserted. This holds for any check
   * that a document's own whole seconds pass, so for the check as written
   * and for the intended one alike (`KeyMillisMatches`).
   */
  lemma {:induction false} PullMatchesEveryDoc(sessions0: seq<Session>, docs: seq<RemoteSession>, base: int, userId: string,
                                               matches: (int, Timestamp) -> bool)
    requires forall t: Timestamp :: matches(KeyMillis(t), t)
    ensures var after := sessions0 + Numbered(PullRows(TimesOf(Filter(sessions0, OwnedBy(userId))), docs, userId, matches), base);
      forall d :: d in docs ==>
        exists s :: s in Filter(after, OwnedBy(userId)) && matches(s.completionTimestamp, d.completionTimestamp)
  {
    var start := Filter(sessions0, OwnedBy(userId));
    var rows := PullRows(TimesOf(start), docs, userId, matches);
    var after := sessions0 + Numbered(rows, base);
    PullRowsComplete(TimesOf(start), docs, userId, matches);
    forall j | 0 <= j < |rows|
      ensures rows[j].sessionOwnerId == userId
    {
      assert rows[j] in rows;
    }
    OwnedNumbered(sessions0, rows, base, userId);
    TimesOfNumbered(start, rows, base);
    forall d | d in docs
      ensures exists s :: s in Filter(after, OwnedBy(userId)) && matches(s.completionTimestamp, d.completionTimestamp)
    {
      var t :| t in TimesOf(start) + TimesOf(rows) && matches(t, d.completionTimestamp);
      TimesOfMember(start + Numbered(rows, base), t);
    }
  }

  // ---- login ----

  /** Kotlin's `a ?: b` on nullable strings. */
  function OrKeep(a: Option<string>, b: Option<string>): Option<string>
  {
    if a.Some? then a else b
  }

  /**
   * The users row `handleUserAuthentication` writes: for a new user a row
   * keyed by the uid with the defaults "User", "" and "R.drawable._4"; for
   * a known user the stored row with each given value replacing the stored
   * one and the login time renewed.
   */
  function LoginRow(existing: Option<User>, firebaseUid: string, email: Option<string>, displayName: Option<string>,
                    photoUrl: Option<string>, now: int): (u: User)
    ensures u.lastLogin == now
    ensures existing.Some? ==>
      u.userId == existing.value.userId && u.firebaseUid == existing.value.firebaseUid && u.createdAt == existing.value.createdAt
    ensures existing.None? ==> u.userId == firebaseUid && u.firebaseUid == Some(firebaseUid) && u.createdAt == now
    ensures existing.None? ==> u.displayName.Some? && u.email.Some? && u.photoUrl.Some?
  {
    match existing
    case None =>
      User(firebaseUid, Some(firebaseUid), Some(OrElse(displayName, DEFAULT_NAME)), Some(OrElse(email, "")),
           Some(OrElse(photoUrl, DEFAULT_PHOTO)), now, now)
    case Some(e) =>
      e.(displayName := OrKeep(displayName, e.displayName), email := OrKeep(email, e.email),
         photoUrl := OrKeep(photoUrl, e.photoUrl), lastLogin := now)
  }

  /** The users document `handleUserAuthentication` saves, keyed by the uid. */
  function LoginDoc(existing: Option<User>, firebaseUid: string, email: Option<string>, displayName: Option<string>,
                    photoUrl: Option<string>, now: int): RemoteUser
  {
    match existing
    case None =>
      RemoteUser(firebaseUid, firebaseUid, Some(OrElse(displayName, DEFAULT_NAME)), Some(OrElse(email, "")),
                 Some(OrElse(photoUrl, DEFAULT_REMOTE_PHOTO)), now)
    case Some(e) =>
      RemoteUser(firebaseUid, firebaseUid, OrKeep(displayName, e.displayName), OrKeep(email, e.email),
                 OrKeep(photoUrl, e.photoUrl), now)
  }

  /**
   * The preferences after the six writes login starts with, each its own
   * `edit { }`: they read back the uid, the email or "", the name or "User",
   * the photo or "R.drawable._4", logged in, and the login time; every other
   * key is as it was.
   */
  function LoginPrefs(prefs: map<string, PrefValue>, firebaseUid: string, email: Option<string>, displayName: Option<string>,
                      photoUrl: Option<string>, now: int): (r: map<string, PrefValue>)
    ensures GetString(r, FIREBASE_UID) == Some(firebaseUid)
    ensures GetString(r, USER_EMAIL) == Some(OrElse(email, ""))
    ensures GetString(r, KEY_USER_NAME) == Some(OrElse(displayName, DEFAULT_NAME))
    ensures GetString(r, KEY_PROFILE_IMAGE_URI) == Some(OrElse(photoUrl, DEFAULT_PHOTO))
    ensures GetBoolean(r, IS_LOGGED_IN, false)
    ensures GetLong(r, LAST_LOGIN_TIME, 0) == now
    ensures forall k :: k !in {FIREBASE_UID, USER_EMAIL, KEY_USER_NAME, KEY_PROFILE_IMAGE_URI, IS_LOGGED_IN, LAST_LOGIN_TIME} ==>
      (k in r <==> k in prefs) && (k in r ==> r[k] == prefs[k])
  {
    prefs[FIREBASE_UID := StrV(firebaseUid)][USER_EMAIL := StrV(OrElse(email, ""))]
         [KEY_USER_NAME := StrV(OrElse(displayName, DEFAULT_NAME))][KEY_PROFILE_IMAGE_URI := StrV(OrElse(photoUrl, DEFAULT_PHOTO))]
         [IS_LOGGED_IN := BoolV(true)][LAST_LOGIN_TIME := LongV(now)]
  }

  /** A login that brings no new name, email or photo keeps the stored profile and only renews the login time. */
  lemma {:induction false} LoginWithoutValuesKeepsProfile(e: User, firebaseUid: string, now: int)
    ensures LoginRow(Some(e), firebaseUid, None, None, None, now) == e.(lastLogin := now)
  {
  }

  /** Logging in again with the same values changes nothing but the login time. */
  lemma {:induction false} LoginTwice(existing: Option<User>, firebaseUid: string, email: Option<string>, displayName: Option<string>,
                                      photoUrl: Option<string>, t1: int, t2: int)
    ensures var first := LoginRow(existing, firebaseUid, email, displayName, photoUrl, t1);
      LoginRow(Some(first), firebaseUid, email, displayName, photoUrl, t2) == first.(lastLogin := t2)
  {
  }

  /**
   * The document and the row agree on name and email, and on the photo
   * except for a new user without one: the row gets "R.drawable._4", the
   * document "DEFAULT_PROFILE_IMAGE".
   */
  lemma {:induction false} LoginDocAgreesWithRow(existing: Option<User>, firebaseUid: string, email: Option<string>, displayName: Option<string>,
                                                 photoUrl: Option<string>, now: int)
    ensures var u := LoginRow(existing, firebaseUid, email, displayName, photoUrl, now);
      var d := LoginDoc(existing, firebaseUid, email, displayName, photoUrl, now);
      && d.userId == firebaseUid && d.firebaseUid == firebaseUid && d.lastLogin == u.lastLogin
      && d.displayName == u.displayName && d.email == u.email
      && (existing.Some? || photoUrl.Some? <==> d.photoUrl == u.photoUrl)
  {
  }

  /** The session table after a pull that inserted `rows` after id `base`, or after no pull. */
  function SessionsAfterPull(sessions0: seq<Session>, base: int, rows: seq<Session>, pulled: bool): seq<Session>
  {
    if pulled then sessions0 + Numbered(rows, base) else sessions0
  }

  /** The statistics collection after one row's document was saved (online) or not (offline). */
  function SavedStatistic(statistics0: map<string, RemoteStatistics>, st: Statistics, userId: string, online: bool)
    : map<string, RemoteStatistics>
  {
    if online then statistics0[StatWrite(StatDoc(st, userId)).0 := StatWrite(StatDoc(st, userId)).1] else statistics0
  }

  /** The statistics collection after the documents of the first `n` rows were saved in order (unchanged offline). */
  function PushedStatistics(statistics0: map<string, RemoteStatistics>, stats: seq<Statistics>, n: nat, userId: string, online: bool)
    : map<string, RemoteStatistics>
    requires n <= |stats|
    decreases n
  {
    if n == 0 || !online then statistics0
    else SavedStatistic(PushedStatistics(statistics0, stats, n - 1, userId, online), stats[n - 1], userId, online)
  }

  /**
   * Saving rows one by one is applying their writes in order: online, the
   * collection is the old one with the writes of the first `n` rows applied
   * (so the last row written under a key wins); offline, nothing changes.
   */
  lemma {:induction false} PushedStatisticsAreWrites(statistics0: map<string, RemoteStatistics>, stats: seq<Statistics>, n: nat,
                                                     userId: string, online: bool)
    requires n <= |stats|
    ensures PushedStatistics(statistics0, stats, n, userId, online)
      == if online then ApplyWrites(statistics0, StatWrites(stats[..n], userId)) else statistics0
    decreases n
  {
    if n > 0 {
      PushedStatisticsAreWrites(statistics0, stats, n - 1, userId, online);
      assert stats[..n][..n - 1] == stats[..n - 1];
      if online {
        ApplyWritesAppend(statistics0, StatWrites(stats[..n - 1], userId), StatWrite(StatDoc(stats[n - 1], userId)));
      }
    }
  }

  /** The statistics collection after `syncStatistics` pushed the user's rows, or after no push. */
  function StatisticsAfterPush(statistics0: map<string, RemoteStatistics>, stats: seq<Statistics>, userId: string, pushed: bool)
    : map<string, RemoteStatistics>
  {
    PushedStatistics(statistics0, stats, ConvertedPrefix(stats), userId, pushed)
  }

  /** The tables and collections the sync after the push writes. */
  datatype SyncState = SyncState(sessions: seq<Session>, sessionSeq: int, statistics: map<string, RemoteStatistics>,
                                 statusWrites: seq<StatusWrite>, syncStatus: map<string, SyncStatusDoc>)

  /**
   * What the read and the pull leave. When the push did not convert,
   * nothing is read. Otherwise `remoteRead` is every document of the user
   * (none when offline), and the unmatched ones are inserted unless the user
   * has no users row; `pulled` is true exactly when the pull went through.
   * After a complete pull every document of the user is matched by a row of
   * the user. `matches` is the check the pull runs.
   */
  ghost predicate PullOutcome(matches: (int, Timestamp) -> bool, userId: string, converted: bool, local: seq<Session>, userIds: set<string>,
                              remoteSessions: map<string, RemoteSession>, online: bool,
                              sessions0: seq<Session>, seq0: int, sessions: seq<Session>, sessionSeq: int,
                              remoteRead: seq<RemoteSession>, pulled: bool)
  {
    var rows := PullRows(TimesOf(local), remoteRead, userId, matches);
    && (converted && online ==> forall d :: d in remoteRead <==> d in remoteSessions.Values && d.userId == userId)
    && (!converted || !online ==> remoteRead == [])
    && (pulled <==> converted && (remoteRead == [] || userId in userIds))
    && sessions == SessionsAfterPull(sessions0, seq0, rows, pulled)
    && sessionSeq == seq0 + (if pulled then |rows| else 0)
    && (converted && online && userId in userIds ==>
          forall d :: d in remoteSessions.Values && d.userId == userId ==>
            exists s :: s in Filter(sessions, OwnedBy(userId)) && matches(s.completionTimestamp, d.completionTimestamp))
  }

  /**
   * What the sync leaves once the push is done: the pull above, then, when
   * it went through, the statistics pushed; SUCCESS recorded after a pull
   * that went through, FAILED otherwise.
   */
  ghost predicate SyncOutcome(matches: (int, Timestamp) -> bool, userId: string, now: int, converted: bool, local: seq<Session>, userIds: set<string>,
                              stats: seq<Statistics>, remoteSessions: map<string, RemoteSession>, online: bool,
                              before: SyncState, after: SyncState, remoteRead: seq<RemoteSession>, pulled: bool)
  {
    var status := if pulled then SUCCESS else FAILED;
    && PullOutcome(matches, userId, converted, local, userIds, remoteSessions, online,
                   before.sessions, before.sessionSeq, after.sessions, after.sessionSeq, remoteRead, pulled)
    && after.statistics == StatisticsAfterPush(before.statistics, stats, userId, pulled && online)
    && after.statusWrites == before.statusWrites + [StatusWrite(userId, status)]
    && after.syncStatus == (if online then before.syncStatus[userId := SyncStatusDoc(userId, now, 0, status, 1)] else before.syncStatus)
  }

  /** The sync only appends rows, each with an id above the counter it started from, whichever check the pull runs. */
  lemma {:induction false} SyncAppendsFreshRows(matches: (int, Timestamp) -> bool, userId: string, now: int, converted: bool, local: seq<Session>, userIds: set<string>,
                                                stats: seq<Statistics>, remoteSessions: map<string, RemoteSession>, online: bool,
                                                before: SyncState, after: SyncState, remoteRead: seq<RemoteSession>, pulled: bool)
    requires SyncOutcome(matches, userId, now, converted, local, userIds, stats, remoteSessions, online, before, after, remoteRead, pulled)
    ensures after.sessionSeq >= before.sessionSeq
    ensures forall s :: s in after.sessions ==> s in before.sessions || s.sessionId > before.sessionSeq
  {
    NumberedAbove(PullRows(TimesOf(local), remoteRead, userId, matches), before.sessionSeq);
  }

  class UserDataManager {
    const store: RecordStore
    const remote: FirestoreStore
    const session: SessionManager

    constructor (store: RecordStore, remote: FirestoreStore, session: SessionManager)
      ensures this.store == store && this.remote == remote && this.session == session
    {
      this.store := store;
      this.remote := remote;
      this.session := session;
    }

    /**
     * One turn of the pull loop, with the intended check: the document is
     * inserted as a fresh row unless a row of the user matches it. The insert
     * throws (false) when the user has no users row.
     */
    method PullOne(d: RemoteSession, userId: string) returns (ok: bool, ghost step: seq<Session>)
      requires store.Valid()
      modifies store`sessions, store`sessionSeq
      ensures step == PullStep(TimesOf(old(store.SessionsOf(userId))), d, userId, Matches)
      ensures store.Valid()
      ensures ok <==> step == [] || userId in old(store.UserIds())
      ensures store.sessions == old(store.sessions) + (if ok then Numbered(step, old(store.sessionSeq)) else [])
      ensures store.sessionSeq == old(store.sessionSeq) + (if ok then |step| else 0)
    {
      var have := store.SessionsOf(userId);
      PullStepIsFind(have, d, userId, Matches);
      step := PullStep(TimesOf(have), d, userId, Matches);
      var existing := Find(have, MatchesDoc(d, Matches));
      if existing.Some? {
        return true, step;
      }
      var row := PulledRow(d, userId);
      ghost var sessions0, seq0 := store.sessions, store.sessionSeq;
      FreshSessionAppends(store, row);
      var stored := AssignSessionId(row, store.sessionSeq);
      OwnedAppend(store.sessions, stored, userId);
      assert Numbered([row], store.sessionSeq) == [stored];
      ok := store.InsertMeditationSession(row);
      assert ok ==> store.sessions == sessions0 + [stored];
    }

    /** `PullOne` inside the pull loop: the same turn, stated against the rows inserted so far. */
    method PullTurn(docs: seq<RemoteSession>, i: nat, userId: string, ghost sessions0: seq<Session>, ghost start: seq<Session>,
                    ghost done: seq<Session>, ghost base: int, ghost rows: seq<Session>) returns (ok: bool, ghost done': seq<Session>)
      requires i < |docs|
      requires done + PullRows(TimesOf(start) + TimesOf(done), docs[i..], userId, Matches) == rows
      requires store.Valid()
      requires store.sessions == sessions0 + Numbered(done, base)
      requires store.sessionSeq == base + |done|
      requires Filter(sessions0, OwnedBy(userId)) == start
      requires forall j :: 0 <= j < |done| ==> done[j].sessionOwnerId == userId
      requires userId !in store.UserIds() ==> done == [] && start == []
      modifies store`sessions, store`sessionSeq
      ensures store.Valid()
      ensures ok ==> done' + PullRows(TimesOf(start) + TimesOf(done'), docs[i + 1..], userId, Matches) == rows
      ensures ok <==> userId in old(store.UserIds())
      ensures !ok ==> store.sessions == sessions0 && done == []
      ensures !ok ==> store.sessionSeq == old(store.sessionSeq)
      ensures ok ==> store.sessions == sessions0 + Numbered(done', base)
      ensures ok ==> store.sessionSeq == base + |done'|
      ensures ok ==> forall j :: 0 <= j < |done'| ==> done'[j].sessionOwnerId == userId
    {
      ghost var have := TimesOf(start) + TimesOf(done);
      assert TimesOf(store.SessionsOf(userId)) == have by {
        TimesOfNumbered(start, done, base);
        OwnedNumbered(sessions0, done, base, userId);
      }
      var d := docs[i];
      assert userId !in store.UserIds() ==> PullStep(have, d, userId, Matches) != [] by {
        if userId !in store.UserIds() {
          assert have == [];
        }
      }
      ghost var before, seqBefore := store.sessions, store.sessionSeq;
      ghost var step;
      ok, step := PullOne(d, userId);
      if !ok {
        assert done == [] && Numbered(done, base) == [];
        return ok, done;
      }
      ghost var after := store.sessions;
      SessionsAfterStep(sessions0, done, step, base, seqBefore, before, after);
      PullAdvance(start, done, docs, i, userId, rows);
      done' := done + step;
    }

    /**
     * The pull loop of `syncUserDataWithFirestore`, with the intended check:
     * each document that no row of the user matches (rows inserted earlier
     * in the loop included) is inserted with a fresh id. Without a users row
     * the first insert throws, before anything is inserted, and the sync ends.
     */
    method PullRemoteSessions(docs: seq<RemoteSession>, userId: string) returns (ok: bool)
      requires store.Valid()
      modifies store`sessions, store`sessionSeq
      ensures store.Valid()
      ensures ok <==> docs == [] || userId in old(store.UserIds())
      ensures store.sessions == old(store.sessions)
        + (if ok then Numbered(PullRows(TimesOf(old(store.SessionsOf(userId))), docs, userId, Matches), old(store.sessionSeq)) else [])
      ensures store.sessionSeq == old(store.sessionSeq)
        + (if ok then |PullRows(TimesOf(old(store.SessionsOf(userId))), docs, userId, Matches)| else 0)
      ensures store.users == old(store.users) && store.stats == old(store.stats) && store.statSeq == old(store.statSeq)
    {
      ghost var start := store.SessionsOf(userId);
      ghost var rows := PullRows(TimesOf(start), docs, userId, Matches);
      if userId !in store.UserIds() {
        NoSessionsWithoutUser(store, userId);
      }
      ok := PullLoop(docs, userId, store.sessions, start, store.sessionSeq, rows);
    }

    /** The loop of `PullRemoteSessions`, stated against the rows and counter it starts from. */
    method PullLoop(docs: seq<RemoteSession>, userId: string, ghost sessions0: seq<Session>, ghost start: seq<Session>,
                    ghost base: int, ghost rows: seq<Session>) returns (ok: bool)
      requires store.Valid()
      requires store.sessions == sessions0 && store.sessionSeq == base
      requires Filter(sessions0, OwnedBy(userId)) == start
      requires rows == PullRows(TimesOf(start), docs, userId, Matches)
      requires userId !in store.UserIds() ==> start == []
      modifies store`sessions, store`sessionSeq
      ensures store.Valid()
      ensures ok <==> docs == [] || userId in old(store.UserIds())
      ensures store.sessions == sessions0 + (if ok then Numbered(rows, base) else [])
      ensures store.sessionSeq == base + (if ok then |rows| else 0)
    {
      ghost var done: seq<Session> := [];
      assert TimesOf(start) + TimesOf(done) == TimesOf(start) && docs[0..] == docs;
      assert Numbered(done, base) == [];
      var i := 0;
      while i < |docs|
        invariant 0 <= i <= |docs|
        invariant store.Valid()
        invariant store.sessions == sessions0 + Numbered(done, base)
        invariant forall j :: 0 <= j < |done| ==> done[j].sessionOwnerId == userId
        invariant store.sessionSeq == base + |done|
        invariant done + PullRows(TimesOf(start) + TimesOf(done), docs[i..], userId, Matches) == rows
        invariant userId !in store.UserIds() ==> i == 0 && done == [] && start == []
      {
        ok, done := PullTurn(docs, i, userId, sessions0, start, done, base, rows);
        if !ok {
          return;
        }
        i := i + 1;
      }
      assert docs[i..] == [];
      assert done == rows;
      return true;
    }

    /**
     * The push half of `syncUserDataWithFirestore`: every session of the
     * user, without a time window, as "local_<id>" documents in one batch,
     * sent only when the user has sessions. False when some completion time
     * does not convert (the Timestamp constructor throws and the sync ends).
     */
    method PushLocalSessions(userId: string, now: int) returns (converted: bool)
      modifies remote`sessions
      ensures var docs := PushDocsWith(store.SessionsOf(userId), userId, SYNC_GOAL, MillisToTimestamp);
        && converted == docs.Some?
        && remote.sessions == if converted && remote.online then ApplyWrites(old(remote.sessions), BatchWrites(docs.value, now))
                              else old(remote.sessions)
    {
      var localSessions := store.SessionsOf(userId);
      var docs := PushDocsWith(localSessions, userId, SYNC_GOAL, MillisToTimestamp);
      if docs.None? {
        return false;
      }
      if localSessions != [] {
        var _ := remote.SaveSessions(docs.value, now);
      } else {
        assert BatchWrites(docs.value, now) == [];
      }
      return true;
    }

    /**
     * `syncUserDataWithFirestore`, with the intended pull check: push the
     * user's sessions, read the user's documents back (in an unspecified
     * order, returned as `remoteRead`; a failed read is no documents), pull
     * the unmatched ones, push the statistics, and record SUCCESS. A
     * conversion that throws, or an insert refused for want of a users row,
     * ends it with FAILED.
     */
    method SyncUserDataWithFirestore(userId: string, now: int) returns (ghost remoteRead: seq<RemoteSession>, ghost pulled: bool)
      requires store.Valid()
      modifies store`sessions, store`sessionSeq, remote`sessions, remote`statistics, remote`syncStatus, remote`statusWrites
      ensures store.Valid()
      ensures var docs := PushDocsWith(old(store.SessionsOf(userId)), userId, SYNC_GOAL, MillisToTimestamp);
        remote.sessions == if docs.Some? && remote.online then ApplyWrites(old(remote.sessions), BatchWrites(docs.value, now))
                           else old(remote.sessions)
      ensures SyncOutcome(Matches, userId, now, PushDocsWith(old(store.SessionsOf(userId)), userId, SYNC_GOAL, MillisToTimestamp).Some?,
                          old(store.SessionsOf(userId)), old(store.UserIds()), store.StatisticsOf(userId), remote.sessions, remote.online,
                          old(SyncState(store.sessions, store.sessionSeq, remote.statistics, remote.statusWrites, remote.syncStatus)),
                          SyncState(store.sessions, store.sessionSeq, remote.statistics, remote.statusWrites, remote.syncStatus), remoteRead, pulled)
      ensures forall s :: s in store.sessions ==> s in old(store.sessions) || s.sessionId > old(store.sessionSeq)
      ensures remote.statusWrites == old(remote.statusWrites) + [StatusWrite(userId, if pulled then SUCCESS else FAILED)]
    {
      ghost var local, userIds, before := store.SessionsOf(userId), store.UserIds(),
        SyncState(store.sessions, store.sessionSeq, remote.statistics, remote.statusWrites, remote.syncStatus);
      var converted := PushLocalSessions(userId, now);
      pulled, remoteRead := FinishSync(userId, now, converted);
      SyncAppendsFreshRows(Matches, userId, now, converted, local, userIds, store.StatisticsOf(userId), remote.sessions, remote.online, before,
                           SyncState(store.sessions, store.sessionSeq, remote.statistics, remote.statusWrites, remote.syncStatus), remoteRead, pulled);
    }

    /** The sync after the push: FAILED at once when the push did not convert. */
    method FinishSync(userId: string, now: int, converted: bool) returns (ok: bool, ghost remoteRead: seq<RemoteSession>)
      requires store.Valid()
      modifies store`sessions, store`sessionSeq, remote`statistics, remote`syncStatus, remote`statusWrites
      ensures store.Valid()
      ensures SyncOutcome(Matches, userId, now, converted, old(store.SessionsOf(userId)), old(store.UserIds()), store.StatisticsOf(userId), remote.sessions, remote.online,
                          old(SyncState(store.sessions, store.sessionSeq, remote.statistics, remote.statusWrites, remote.syncStatus)),
                          SyncState(store.sessions, store.sessionSeq, remote.statistics, remote.statusWrites, remote.syncStatus), remoteRead, ok)
    {
      ok, remoteRead := PullPhase(userId, converted);
      var _ := remote.UpdateSyncStatus(userId, if ok then SUCCESS else FAILED, now);
    }

    /** The read, the pull and (when the pull went through) the statistics push; nothing when the push did not convert. */
    method PullPhase(userId: string, converted: bool) returns (ok: bool, ghost remoteRead: seq<RemoteSession>)
      requires store.Valid()
      modifies store`sessions, store`sessionSeq, remote`statistics
      ensures store.Valid()
      ensures PullOutcome(Matches, userId, converted, old(store.SessionsOf(userId)), old(store.UserIds()), remote.sessions, remote.online,
                          old(store.sessions), old(store.sessionSeq), store.sessions, store.sessionSeq, remoteRead, ok)
      ensures remote.statistics == StatisticsAfterPush(old(remote.statistics), store.StatisticsOf(userId), userId, ok && remote.online)
    {
      ok := false;
      remoteRead := [];
      if converted {
        ok, remoteRead := ReadAndPull(userId);
        if ok {
          SyncStatistics(userId);
        }
      }
    }

    /** The read and the pull loop; false when an insert was refused. */
    method ReadAndPull(userId: string) returns (ok: bool, ghost remoteRead: seq<RemoteSession>)
      requires store.Valid()
      modifies store`sessions, store`sessionSeq
      ensures store.Valid()
      ensures remote.online ==> forall d :: d in remoteRead <==> d in remote.sessions.Values && d.userId == userId
      ensures !remote.online ==> remoteRead == []
      ensures ok <==> remoteRead == [] || userId in old(store.UserIds())
      ensures var rows := PullRows(TimesOf(old(store.SessionsOf(userId))), remoteRead, userId, Matches);
        && store.sessions == SessionsAfterPull(old(store.sessions), old(store.sessionSeq), rows, ok)
        && store.sessionSeq == old(store.sessionSeq) + (if ok then |rows| else 0)
      ensures remote.online && ok ==>
        forall d :: d in remoteRead ==> exists s :: s in store.SessionsOf(userId) && Matches(s.completionTimestamp, d.completionTimestamp)
    {
      ghost var sessions0, base := store.sessions, store.sessionSeq;
      var read := remote.GetUserSessions(userId);
      if read.None? {
        return true, [];
      }
      remoteRead := read.value;
      ok := PullRemoteSessions(read.value, userId);
      forall t: Timestamp
        ensures Matches(KeyMillis(t), t)
      {
        KeyMillisMatches(t);
      }
      PullMatchesEveryDoc(sessions0, remoteRead, base, userId, Matches);
    }

    // ---- login ----

    /** The preference writes login starts with: uid, email, name, photo, logged in, login time. */
    method SaveLoginPrefs(firebaseUid: string, email: Option<string>, displayName: Option<string>, photoUrl: Option<string>, now: int)
      modifies session
      ensures session.prefs == LoginPrefs(old(session.prefs), firebaseUid, email, displayName, photoUrl, now)
    {
      PutOneIsUpdate(session.prefs, FIREBASE_UID, StrV(firebaseUid));
      session.SaveFirebaseUid(firebaseUid);
      PutOneIsUpdate(session.prefs, USER_EMAIL, StrV(OrElse(email, "")));
      session.SaveUserEmail(Some(OrElse(email, "")));
      PutOneIsUpdate(session.prefs, KEY_USER_NAME, StrV(OrElse(displayName, DEFAULT_NAME)));
      session.SaveUserName(Some(OrElse(displayName, DEFAULT_NAME)));
      PutOneIsUpdate(session.prefs, KEY_PROFILE_IMAGE_URI, StrV(OrElse(photoUrl, DEFAULT_PHOTO)));
      session.SaveProfileImageUri(Some(OrElse(photoUrl, DEFAULT_PHOTO)));
      PutOneIsUpdate(session.prefs, IS_LOGGED_IN, BoolV(true));
      session.SetIsLoggedIn(true);
      PutOneIsUpdate(session.prefs, LAST_LOGIN_TIME, LongV(now));
      session.UpdateLastLoginTime(now);
    }

    /**
     * The table and document writes of login: look the user up by uid,
     * write the login row with REPLACE (which evicts the old row and, by
     * cascade, its sessions and statistics) and save the users document.
     */
    method RecordLogin(firebaseUid: string, email: Option<string>, displayName: Option<string>, photoUrl: Option<string>, now: int)
      returns (existing: Option<User>)
      requires store.Valid()
      modifies store, remote`users
      ensures store.Valid()
      ensures existing == old(store.GetUserByFirebaseUid(firebaseUid))
      ensures var row := LoginRow(existing, firebaseUid, email, displayName, photoUrl, now);
        && store.users == UsersAfterReplace(old(store.users), row)
        && store.sessions == Filter(old(store.sessions), OwnerNotIn(ReplacedIds(old(store.users), row)))
        && store.stats == Filter(old(store.stats), StatOwnerNotIn(ReplacedIds(old(store.users), row)))
        && store.sessionSeq == old(store.sessionSeq) && store.statSeq == old(store.statSeq)
        && store.GetUserByFirebaseUid(firebaseUid) == Some(row)
      ensures remote.users == if remote.online then old(remote.users)[firebaseUid := LoginDoc(existing, firebaseUid, email, displayName, photoUrl, now)]
                              else old(remote.users)
      ensures existing.Some? ==>
        && (forall s :: s in store.sessions ==> s.sessionOwnerId != existing.value.userId)
        && (forall st :: st in store.stats ==> st.userId != existing.value.userId)
    {
      existing := store.GetUserByFirebaseUid(firebaseUid);
      var row := LoginRow(existing, firebaseUid, email, displayName, photoUrl, now);
      WriteLoginRow(firebaseUid, existing, row);
      var _ := remote.SaveUser(LoginDoc(existing, firebaseUid, email, displayName, photoUrl, now));
    }

    /**
     * The REPLACE of the login row: a known user's row keeps its id, so the
     * cascade takes that user's sessions and statistics with the old row.
     */
    method WriteLoginRow(firebaseUid: string, existing: Option<User>, row: User)
      requires store.Valid()
      requires existing == store.GetUserByFirebaseUid(firebaseUid) && row.firebaseUid == Some(firebaseUid)
      requires existing.Some? ==> row.userId == existing.value.userId
      modifies store
      ensures store.Valid()
      ensures store.users == UsersAfterReplace(old(store.users), row)
        && store.sessions == Filter(old(store.sessions), OwnerNotIn(ReplacedIds(old(store.users), row)))
        && store.stats == Filter(old(store.stats), StatOwnerNotIn(ReplacedIds(old(store.users), row)))
        && store.sessionSeq == old(store.sessionSeq) && store.statSeq == old(store.statSeq)
        && store.GetUserByFirebaseUid(firebaseUid) == Some(row)
      ensures existing.Some? ==>
        && (forall s :: s in store.sessions ==> s.sessionOwnerId != existing.value.userId)
        && (forall st :: st in store.stats ==> st.userId != existing.value.userId)
    {
      if existing.Some? {
        ReplaceDropsOwnRows(store, row);
      }
      store.InsertOrUpdateUser(row);
      FirebaseUidLookupUnique(store, firebaseUid, row);
    }

    /** `verifyDataPersistence`: the uid has a users row and is the uid in the preferences. */
    function VerifyDataPersistence(firebaseUid: string): (r: bool)
      reads store`users, session
      ensures r <==> (exists u :: u in store.users && u.firebaseUid == Some(firebaseUid))
                     && session.GetFirebaseUid() == Some(firebaseUid)
    {
      store.GetUserByFirebaseUid(firebaseUid).Some? && session.GetFirebaseUid() == Some(firebaseUid)
    }

    /**
     * The store half of login: the row and document, then, for a known
     * user, a full sync. For a known user the REPLACE drops the user's
     * statistics and every session the user had; the only sessions of the
     * user left are those the sync pulls back, with fresh ids.
     */
    method LoginAndSync(firebaseUid: string, email: Option<string>, displayName: Option<string>, photoUrl: Option<string>, now: int)
      returns (existing: Option<User>)
      requires store.Valid()
      modifies store, remote`users, remote`sessions, remote`statistics, remote`syncStatus, remote`statusWrites
      ensures store.Valid()
      ensures existing == old(store.GetUserByFirebaseUid(firebaseUid))
      ensures store.GetUserByFirebaseUid(firebaseUid) == Some(LoginRow(existing, firebaseUid, email, displayName, photoUrl, now))
      ensures old(remote.statusWrites) <= remote.statusWrites
      ensures existing.None? ==> remote.statusWrites == old(remote.statusWrites)
      ensures existing.Some? ==>
        && store.StatisticsOf(existing.value.userId) == []
        && forall s :: s in store.sessions && s.sessionOwnerId == existing.value.userId ==> s.sessionId > old(store.sessionSeq)
    {
      existing := RecordLogin(firebaseUid, email, displayName, photoUrl, now);
      if existing.Some? {
        SyncKnownUser(firebaseUid, existing.value.userId, now);
      }
    }

    /**
     * The sync login runs for a known user, seen from login: the user's
     * rows are gone before it starts, so every row of the user afterwards
     * is one the sync pulled, with a fresh id.
     */
    method SyncKnownUser(firebaseUid: string, userId: string, now: int)
      requires store.Valid()
      requires forall s :: s in store.sessions ==> s.sessionOwnerId != userId
      requires forall st :: st in store.stats ==> st.userId != userId
      modifies store`sessions, store`sessionSeq, remote`sessions, remote`statistics, remote`syncStatus, remote`statusWrites
      ensures store.Valid()
      ensures old(remote.statusWrites) <= remote.statusWrites
      ensures store.StatisticsOf(userId) == []
      ensures forall s :: s in store.sessions && s.sessionOwnerId == userId ==> s.sessionId > old(store.sessionSeq)
    {
      var _, _ := SyncUserDataWithFirestore(firebaseUid, now);
      FilterNone(store.stats, StatOwnedBy(userId));
    }

    /**
     * `handleUserAuthentication`: preferences first, then the row, the
     * document and (for a known user) the sync, then SUCCESS and the
     * persistence check, which always passes.
     */
    method HandleUserAuthentication(firebaseUid: string, email: Option<string>, displayName: Option<string>, photoUrl: Option<string>, now: int)
      returns (verified: bool)
      requires store.Valid()
      modifies store, remote`users, remote`sessions, remote`statistics, remote`syncStatus, remote`statusWrites, session
      ensures store.Valid()
      ensures verified
      ensures session.prefs == LoginPrefs(old(session.prefs), firebaseUid, email, displayName, photoUrl, now)
      ensures store.GetUserByFirebaseUid(firebaseUid) == Some(LoginRow(old(store.GetUserByFirebaseUid(firebaseUid)), firebaseUid, email, displayName, photoUrl, now))
      ensures |remote.statusWrites| > |old(remote.statusWrites)|
      ensures remote.statusWrites[|remote.statusWrites| - 1] == StatusWrite(firebaseUid, SUCCESS)
      ensures old(store.GetUserByFirebaseUid(firebaseUid)).None? ==> remote.statusWrites == old(remote.statusWrites) + [StatusWrite(firebaseUid, SUCCESS)]
    {
      SaveLoginPrefs(firebaseUid, email, displayName, photoUrl, now);
      assert session.GetFirebaseUid() == Some(firebaseUid);
      LoginAndRecordSuccess(firebaseUid, email, displayName, photoUrl, now);
      verified := VerifyDataPersistence(firebaseUid);
    }

    /** The store half of login followed by the SUCCESS status. */
    method LoginAndRecordSuccess(firebaseUid: string, email: Option<string>, displayName: Option<string>, photoUrl: Option<string>, now: int)
      requires store.Valid()
      modifies store, remote`users, remote`sessions, remote`statistics, remote`syncStatus, remote`statusWrites
      ensures store.Valid()
      ensures store.GetUserByFirebaseUid(firebaseUid) == Some(LoginRow(old(store.GetUserByFirebaseUid(firebaseUid)), firebaseUid, email, displayName, photoUrl, now))
      ensures |remote.statusWrites| > |old(remote.statusWrites)|
      ensures remote.statusWrites[|remote.statusWrites| - 1] == StatusWrite(firebaseUid, SUCCESS)
      ensures old(store.GetUserByFirebaseUid(firebaseUid)).None? ==> remote.statusWrites == old(remote.statusWrites) + [StatusWrite(firebaseUid, SUCCESS)]
    {
      var existing := LoginAndSync(firebaseUid, email, displayName, photoUrl, now);
      var _ := remote.UpdateSyncStatus(firebaseUid, SUCCESS, now);
    }

    // ---- logout ----

    /**
     * The final sync of logout: LOGOUT_SYNC_IN_PROGRESS, the full sync
     * (which records its own SUCCESS or FAILED), then LOGOUT_COMPLETE. The
     * users table is not touched.
     */
    method LogoutSync(uid: string, now: int) returns (ghost synced: bool)
      requires store.Valid()
      modifies store`sessions, store`sessionSeq, remote`sessions, remote`statistics, remote`syncStatus, remote`statusWrites
      ensures store.Valid()
      ensures remote.statusWrites == old(remote.statusWrites)
        + [StatusWrite(uid, LOGOUT_SYNC_IN_PROGRESS), StatusWrite(uid, if synced then SUCCESS else FAILED), StatusWrite(uid, LOGOUT_COMPLETE)]
    {
      var _ := remote.UpdateSyncStatus(uid, LOGOUT_SYNC_IN_PROGRESS, now);
      synced := SyncForLogout(uid, now);
      var _ := remote.UpdateSyncStatus(uid, LOGOUT_COMPLETE, now);
    }

    /** The full sync as logout sees it: only the status it records matters. */
    method SyncForLogout(uid: string, now: int) returns (ghost pulled: bool)
      requires store.Valid()
      modifies store`sessions, store`sessionSeq, remote`sessions, remote`statistics, remote`syncStatus, remote`statusWrites
      ensures store.Valid()
      ensures remote.statusWrites == old(remote.statusWrites) + [StatusWrite(uid, if pulled then SUCCESS else FAILED)]
    {
      var _, p := SyncUserDataWithFirestore(uid, now);
      pulled := p;
    }

    /**
     * `handleUserLogout`: with a uid in the preferences, the final sync;
     * then the authentication state is cleared with the identity kept. The
     * result is the check `verifyDataPersistenceAfterLogout` makes on the
     * uid read.
     */
    method HandleUserLogout(now: int) returns (verified: bool)
      requires store.Valid()
      modifies store`sessions, store`sessionSeq, remote`sessions, remote`statistics, remote`syncStatus, remote`statusWrites, session
      ensures store.Valid()
      ensures session.prefs == Commit(old(session.prefs), ClearAuthEditor())
      ensures !session.IsLoggedIn()
      ensures session.GetFirebaseUid() == old(session.GetFirebaseUid()) && session.GetUserName() == old(session.GetUserName())
        && session.GetUserEmail() == old(session.GetUserEmail()) && session.GetProfileImageUri() == old(session.GetProfileImageUri())
      ensures verified <==> (old(session.GetFirebaseUid()).Some? && old(session.GetUserName()).Some? && old(session.GetUserEmail()).Some?
                             && old(store.GetUserByFirebaseUid(session.GetFirebaseUid().value)).Some?)
      ensures old(session.GetFirebaseUid()).None? ==> remote.statusWrites == old(remote.statusWrites)
      ensures old(session.GetFirebaseUid()).Some? ==>
        var uid := old(session.GetFirebaseUid()).value;
        && |remote.statusWrites| == |old(remote.statusWrites)| + 3
        && remote.statusWrites[|old(remote.statusWrites)|] == StatusWrite(uid, LOGOUT_SYNC_IN_PROGRESS)
        && remote.statusWrites[|remote.statusWrites| - 1] == StatusWrite(uid, LOGOUT_COMPLETE)
    {
      var currentUid := session.GetFirebaseUid();
      if currentUid.Some? {
        var _ := LogoutSync(currentUid.value, now);
      }
      var preservedUid := ClearAuthKeepingIdentity();
      LogoutKeepsIdentity(old(session.prefs));
      verified := VerifyDataPersistenceAfterLogout(preservedUid);
    }

    /**
     * Steps 2 to 4 of logout: read uid, name, email and photo, clear the
     * authentication state, and write back each one that was present.
     * Writing back a value the key still holds changes nothing, so the
     * result is the clear alone.
     */
    method ClearAuthKeepingIdentity() returns (preservedUid: Option<string>)
      modifies session
      ensures preservedUid == old(session.GetFirebaseUid())
      ensures session.prefs == Commit(old(session.prefs), ClearAuthEditor())
    {
      var preservedName, preservedEmail, preservedPhoto;
      preservedUid, preservedName := session.GetFirebaseUid(), session.GetUserName();
      preservedEmail, preservedPhoto := session.GetUserEmail(), session.GetProfileImageUri();
      ghost var prefs0 := session.prefs;
      session.ClearOnlyAuthenticationState();
      LogoutKeepsIdentity(prefs0);
      if preservedUid.Some? {
        PutSameIsNoop(session.prefs, FIREBASE_UID, preservedUid.value);
        session.SaveFirebaseUid(preservedUid.value);
      }
      if preservedName.Some? {
        PutSameIsNoop(session.prefs, KEY_USER_NAME, preservedName.value);
        session.SaveUserName(preservedName);
      }
      if preservedEmail.Some? {
        PutSameIsNoop(session.prefs, USER_EMAIL, preservedEmail.value);
        session.SaveUserEmail(preservedEmail);
      }
      if preservedPhoto.Some? {
        PutSameIsNoop(session.prefs, KEY_PROFILE_IMAGE_URI, preservedPhoto.value);
        session.SaveProfileImageUri(preservedPhoto);
      }
    }

    /** `verifyDataPersistenceAfterLogout`: uid as given, a name and an email in the preferences, and a users row. */
    function VerifyDataPersistenceAfterLogout(firebaseUid: Option<string>): (r: bool)
      reads store`users, session
      ensures r ==> firebaseUid.Some? && exists u :: u in store.users && u.firebaseUid == firebaseUid
      ensures r <==> firebaseUid.Some? && session.GetFirebaseUid() == firebaseUid && session.GetUserName().Some?
                     && session.GetUserEmail().Some? && VerifyDataPersistence(firebaseUid.value)
    {
      && firebaseUid.Some?
      && session.GetFirebaseUid() == firebaseUid
      && session.GetUserName().Some?
      && session.GetUserEmail().Some?
      && store.GetUserByFirebaseUid(firebaseUid.value).Some?
    }

    // ---- statistics ----

    /**
     * `calculateAndSaveStatistics`: the figures over the user's COMPLETED
     * sessions in the period, inserted as a new row and then saved as a
     * document. A missing users row makes the insert throw, and a bound that
     * does not convert makes the Timestamp constructor throw; either ends the
     * call. Every row it reads is COMPLETED, so the count is the number of
     * rows read and the rate is 0 or 100.
     */
    method CalculateAndSaveStatistics(userId: string, firebaseUid: Option<string>, periodType: string, startDate: int, endDate: int,
                                      weekdayOf: int -> Weekday, now: int) returns (row: Statistics)
      requires store.Valid()
      modifies store`stats, store`statSeq, remote`statistics
      ensures store.Valid()
      ensures var sessions := old(store.CompletedSessionsInRange(userId, startDate, endDate));
        && row == CalculateStatistics(userId, firebaseUid, periodType, startDate, endDate, sessions, weekdayOf, now)
        && row.noOfSessions == |sessions| && row.focusTime == TotalDuration(sessions)
        && row.completionRate == if sessions == [] then 0.0 else 100.0
      ensures store.stats == if userId in old(store.UserIds()) then old(store.stats) + [AssignStatId(row, old(store.statSeq))]
                             else old(store.stats)
      ensures remote.statistics == if userId in old(store.UserIds()) && Converts(row) then SavedStatistic(old(remote.statistics), row, userId, remote.online)
                                   else old(remote.statistics)
    {
      var sessions := store.CompletedSessionsInRange(userId, startDate, endDate);
      row := CalculateStatistics(userId, firebaseUid, periodType, startDate, endDate, sessions, weekdayOf, now);
      AllCompletedSessions(userId, firebaseUid, periodType, startDate, endDate, sessions, weekdayOf, now);
      FreshStatAppends(store, row);
      var inserted := store.InsertOrUpdateStatistics(row);
      if !inserted || !Converts(row) {
        return;
      }
      var _ := remote.SaveStatistics(StatDoc(row, userId));
    }

    /** One turn of the `syncStatistics` loop: convert the row's period and save its document. */
    method SyncOneStatistic(st: Statistics, userId: string) returns (converted: bool)
      modifies remote`statistics
      ensures converted == Converts(st)
      ensures remote.statistics == if converted then SavedStatistic(old(remote.statistics), st, userId, remote.online)
                                   else old(remote.statistics)
    {
      var periodStart := MillisToTimestamp(st.periodStart);
      var periodEnd := MillisToTimestamp(st.periodEnd);
      if periodStart.None? || periodEnd.None? {
        return false;
      }
      var doc := RemoteStatistics("", userId, st.periodType, periodStart.value, periodEnd.value,
        st.noOfSessions, st.focusTime, st.averageSessionTime, st.longestSession, st.completionRate, st.mostProductiveDay);
      assert doc == StatDoc(st, userId);
      var _ := remote.SaveStatistics(doc);
      return true;
    }

    /**
     * `syncStatistics`: every statistics row of the user is saved as a
     * document keyed "stat_<user>_<type>_<start seconds>", in order, until a
     * row whose period does not convert stops the loop.
     */
    method SyncStatistics(userId: string)
      modifies remote`statistics
      ensures remote.statistics == StatisticsAfterPush(old(remote.statistics), store.StatisticsOf(userId), userId, remote.online)
    {
      var localStats := store.StatisticsOf(userId);
      PushStatistics(localStats, userId);
    }

    /** The loop of `syncStatistics` over the rows read. */
    method PushStatistics(stats: seq<Statistics>, userId: string)
      modifies remote`statistics
      ensures remote.statistics == StatisticsAfterPush(old(remote.statistics), stats, userId, remote.online)
    {
      ghost var statistics0, online := remote.statistics, remote.online;
      var i: nat := 0;
      while i < |stats|
        invariant i <= ConvertedPrefix(stats)
        invariant remote.statistics == PushedStatistics(statistics0, stats, i, userId, online)
      {
        ConvertedPrefixStep(stats, i);
        var converted := SyncOneStatistic(stats[i], userId);
        if !converted {
          return;
        }
        i := i + 1;
      }
    }
  }
}
