/**
 * UserRepository: the statistics save and the ownership migration, both
 * written on top of the DAO. A DAO call that throws (a row whose owner has
 * no users row) ends the operation; `migrateUserData` catches it and
 * answers false, `calculateAndSaveStatistics` lets it through, modelled as
 * a false result.
 */
module Repository {
  import opened Common
  import opened Entities
  import opened LocalStore
  import opened StatisticsCalc

  /** A session re-owned by `to` when `from` owned it. */
  function Reowned(s: Session, from: string, to: string): Session
  {
    if s.sessionOwnerId == from then s.(sessionOwnerId := to) else s
  }

  /** A statistics row re-owned by `to` (with `to`'s uid) when `from` owned it. */
  function StatReowned(st: Statistics, from: string, to: string, toFirebaseUid: string): Statistics
  {
    if st.userId == from then st.(userId := to, firebaseUid := Some(toFirebaseUid)) else st
  }

  /** The session table with every row of `from` re-owned, each in its place. */
  function MovedSessions(sessions: seq<Session>, from: string, to: string): (r: seq<Session>)
    ensures |r| == |sessions|
    ensures forall k :: 0 <= k < |r| ==> r[k] == Reowned(sessions[k], from, to)
  {
    seq(|sessions|, k requires 0 <= k < |sessions| => Reowned(sessions[k], from, to))
  }

  /** The statistics table with every row of `from` re-owned, each in its place. */
  function MovedStats(stats: seq<Statistics>, from: string, to: string, toFirebaseUid: string): (r: seq<Statistics>)
    ensures |r| == |stats|
    ensures forall k :: 0 <= k < |r| ==> r[k] == StatReowned(stats[k], from, to, toFirebaseUid)
  {
    seq(|stats|, k requires 0 <= k < |stats| => StatReowned(stats[k], from, to, toFirebaseUid))
  }

  /** The session table part way through the loop: the rows of `from` whose id is in `ids` are re-owned. */
  function MovedSessionsIn(sessions: seq<Session>, from: string, to: string, ids: set<int>): (r: seq<Session>)
    ensures |r| == |sessions|
    ensures forall k :: 0 <= k < |r| ==>
      r[k] == if sessions[k].sessionId in ids then Reowned(sessions[k], from, to) else sessions[k]
  {
    seq(|sessions|, k requires 0 <= k < |sessions| =>
      if sessions[k].sessionId in ids then Reowned(sessions[k], from, to) else sessions[k])
  }

  /** The statistics table part way through the loop. */
  function MovedStatsIn(stats: seq<Statistics>, from: string, to: string, toFirebaseUid: string, ids: set<int>): (r: seq<Statistics>)
    ensures |r| == |stats|
    ensures forall k :: 0 <= k < |r| ==>
      r[k] == if stats[k].statId in ids then StatReowned(stats[k], from, to, toFirebaseUid) else stats[k]
  {
    seq(|stats|, k requires 0 <= k < |stats| =>
      if stats[k].statId in ids then StatReowned(stats[k], from, to, toFirebaseUid) else stats[k])
  }

  /** The ids of the first `n` rows of a query result. */
  function SessionIdsOf(rows: seq<Session>, n: nat): set<int>
    requires n <= |rows|
  {
    set j | 0 <= j < n :: rows[j].sessionId
  }

  function StatIdsOf(rows: seq<Statistics>, n: nat): set<int>
    requires n <= |rows|
  {
    set j | 0 <= j < n :: rows[j].statId
  }

  /** The sessions left after the migration: re-owned rows kept, whatever `from` still owns deleted. */
  function SessionsAfterMigration(sessions: seq<Session>, from: string, to: string): seq<Session>
  {
    Filter(MovedSessions(sessions, from, to), NotOwnedBy(from))
  }

  function StatsAfterMigration(stats: seq<Statistics>, from: string, to: string, toFirebaseUid: string): seq<Statistics>
  {
    Filter(MovedStats(stats, from, to, toFirebaseUid), StatNotOwnedBy(from))
  }

  class UserRepository {
    const dao: RecordStore

    constructor (dao: RecordStore)
      ensures this.dao == dao
    {
      this.dao := dao;
    }

    /**
     * `calculateAndSaveStatistics`: the figures over the user's COMPLETED
     * sessions in the range, saved as a new row. A missing users row makes
     * the insert throw.
     */
    method CalculateAndSaveStatistics(userId: string, firebaseUid: Option<string>, periodType: string, startDate: int, endDate: int,
                                      weekdayOf: int -> Weekday, now: int) returns (ok: bool, row: Statistics)
      requires dao.Valid()
      modifies dao`stats, dao`statSeq
      ensures dao.Valid()
      ensures var sessions := old(dao.CompletedSessionsInRange(userId, startDate, endDate));
        && row == CalculateStatistics(userId, firebaseUid, periodType, startDate, endDate, sessions, weekdayOf, now)
        && row.noOfSessions == |sessions| && row.focusTime == TotalDuration(sessions)
        && row.completionRate == if sessions == [] then 0.0 else 100.0
      ensures ok <==> userId in old(dao.UserIds())
      ensures dao.stats == if ok then old(dao.stats) + [AssignStatId(row, old(dao.statSeq))] else old(dao.stats)
    {
      var sessions := dao.CompletedSessionsInRange(userId, startDate, endDate);
      row := CalculateStatistics(userId, firebaseUid, periodType, startDate, endDate, sessions, weekdayOf, now);
      AllCompletedSessions(userId, firebaseUid, periodType, startDate, endDate, sessions, weekdayOf, now);
      FreshStatAppends(dao, row);
      ok := dao.InsertOrUpdateStatistics(row);
    }

    /**
     * `migrateUserData`: every session and then every statistics row of
     * `from` is re-inserted (REPLACE, same id) owned by `to`, then whatever
     * `from` still owns is deleted. A missing users row for `to` makes the
     * first insert throw, before anything changed.
     */
    method MigrateUserData(from: string, toFirebaseUid: string, to: string) returns (ok: bool)
      requires dao.Valid() && dao.IdsAssigned()
      modifies dao`sessions, dao`sessionSeq, dao`stats, dao`statSeq
      ensures dao.Valid() && dao.IdsAssigned()
      ensures ok <==> to in old(dao.UserIds()) || (old(dao.SessionsOf(from)) == [] && old(dao.StatisticsOf(from)) == [])
      ensures ok ==> dao.sessions == SessionsAfterMigration(old(dao.sessions), from, to)
      ensures ok ==> dao.stats == StatsAfterMigration(old(dao.stats), from, to, toFirebaseUid)
      ensures !ok ==> dao.sessions == old(dao.sessions) && dao.stats == old(dao.stats)
      ensures dao.users == old(dao.users) && dao.sessionSeq == old(dao.sessionSeq) && dao.statSeq == old(dao.statSeq)
    {
      ok := MoveSessions(from, to);
      if ok {
        ok := MoveStatsAndDelete(from, to, toFirebaseUid);
      }
    }

    /** Steps 3 to 5, once the sessions are moved: the statistics, then the rows `from` still owns. */
    method MoveStatsAndDelete(from: string, to: string, toFirebaseUid: string) returns (ok: bool)
      requires dao.Valid() && dao.IdsAssigned()
      modifies dao`sessions, dao`stats, dao`statSeq
      ensures dao.Valid() && dao.IdsAssigned()
      ensures ok <==> to in old(dao.UserIds()) || old(dao.StatisticsOf(from)) == []
      ensures ok ==> dao.sessions == Filter(old(dao.sessions), NotOwnedBy(from))
      ensures ok ==> dao.stats == StatsAfterMigration(old(dao.stats), from, to, toFirebaseUid)
      ensures !ok ==> dao.sessions == old(dao.sessions) && dao.stats == old(dao.stats)
      ensures dao.users == old(dao.users) && dao.statSeq == old(dao.statSeq)
    {
      ok := MoveStats(from, to, toFirebaseUid);
      if ok {
        DeleteLeftovers(from);
      }
    }

    /** Steps 1 and 2: re-insert each session of `from` owned by `to`. */
    method MoveSessions(from: string, to: string) returns (ok: bool)
      requires dao.Valid() && dao.IdsAssigned()
      modifies dao`sessions, dao`sessionSeq
      ensures dao.Valid() && dao.IdsAssigned()
      ensures ok <==> to in dao.UserIds() || old(dao.SessionsOf(from)) == []
      ensures dao.sessions == if ok then MovedSessions(old(dao.sessions), from, to) else old(dao.sessions)
      ensures dao.sessionSeq == old(dao.sessionSeq)
    {
      ghost var sessions0 := dao.sessions;
      var oldSessions := dao.SessionsOf(from);
      FilterAscending(sessions0, OwnedBy(from), SessionIdOf);
      var i := 0;
      while i < |oldSessions|
        invariant i <= |oldSessions|
        invariant dao.Valid() && dao.IdsAssigned()
        invariant dao.sessionSeq == old(dao.sessionSeq)
        invariant i > 0 ==> to in dao.UserIds()
        invariant dao.sessions == MovedSessionsIn(sessions0, from, to, SessionIdsOf(oldSessions, i))
      {
        var s := oldSessions[i];
        ghost var k :| 0 <= k < |sessions0| && sessions0[k] == s;
        MoveOneSession(sessions0, oldSessions, i, k, from, to);
        assert dao.sessions[k] == s;
        PlaceReplacesInPlace(dao.sessions, s.(sessionOwnerId := to), SessionIdOf, k);
        ok := dao.InsertMeditationSession(s.(sessionOwnerId := to));
        if !ok {
          return;
        }
        i := i + 1;
      }
      ok := true;
      AllSessionsMoved(sessions0, oldSessions, from, to);
    }

    /** Steps 3 and 4: re-insert each statistics row of `from` owned by `to`, with `to`'s uid. */
    method MoveStats(from: string, to: string, toFirebaseUid: string) returns (ok: bool)
      requires dao.Valid() && dao.IdsAssigned()
      modifies dao`stats, dao`statSeq
      ensures dao.Valid() && dao.IdsAssigned()
      ensures ok <==> to in dao.UserIds() || old(dao.StatisticsOf(from)) == []
      ensures dao.stats == if ok then MovedStats(old(dao.stats), from, to, toFirebaseUid) else old(dao.stats)
      ensures dao.statSeq == old(dao.statSeq)
    {
      ghost var stats0 := dao.stats;
      var oldStats := dao.StatisticsOf(from);
      FilterAscending(stats0, StatOwnedBy(from), StatIdOf);
      var i := 0;
      while i < |oldStats|
        invariant i <= |oldStats|
        invariant dao.Valid() && dao.IdsAssigned()
        invariant dao.statSeq == old(dao.statSeq)
        invariant i > 0 ==> to in dao.UserIds()
        invariant dao.stats == MovedStatsIn(stats0, from, to, toFirebaseUid, StatIdsOf(oldStats, i))
      {
        var st := oldStats[i];
        var moved := st.(userId := to, firebaseUid := Some(toFirebaseUid));
        ghost var k :| 0 <= k < |stats0| && stats0[k] == st;
        MoveOneStat(stats0, oldStats, i, k, from, to, toFirebaseUid);
        assert dao.stats[k] == st;
        PlaceReplacesInPlace(dao.stats, moved, StatIdOf, k);
        ok := dao.InsertOrUpdateStatistics(moved);
        if !ok {
          return;
        }
        i := i + 1;
      }
      ok := true;
      AllStatsMoved(stats0, oldStats, from, to, toFirebaseUid);
    }

    /** Step 5: delete whatever `from` still owns. */
    method DeleteLeftovers(from: string)
      requires dao.Valid() && dao.IdsAssigned()
      modifies dao`sessions, dao`stats
      ensures dao.Valid() && dao.IdsAssigned()
      ensures dao.sessions == Filter(old(dao.sessions), NotOwnedBy(from))
      ensures dao.stats == Filter(old(dao.stats), StatNotOwnedBy(from))
      ensures dao.users == old(dao.users)
    {
      dao.DeleteSessionsByUserId(from);
      dao.DeleteStatisticsByUserId(from);
    }
  }

  // ---- the loop steps ----

  /**
   * Row `i` of the query result sits at index `k` of the table, not yet
   * moved, and moving it there gives the table with one more id moved.
   */
  lemma {:induction false} MoveOneSession(sessions0: seq<Session>, rows: seq<Session>, i: nat, k: nat, from: string, to: string)
    requires Ascending(sessions0, SessionIdOf)
    requires rows == Filter(sessions0, OwnedBy(from)) && Ascending(rows, SessionIdOf)
    requires i < |rows| && k < |sessions0| && sessions0[k] == rows[i]
    ensures MovedSessionsIn(sessions0, from, to, SessionIdsOf(rows, i))[k] == rows[i]
    ensures MovedSessionsIn(sessions0, from, to, SessionIdsOf(rows, i))[k := rows[i].(sessionOwnerId := to)]
      == MovedSessionsIn(sessions0, from, to, SessionIdsOf(rows, i + 1))
  {
    var before, after := SessionIdsOf(rows, i), SessionIdsOf(rows, i + 1);
    assert rows[i] in rows;
    assert rows[i].sessionId !in before;
    assert after == before + {rows[i].sessionId};
    var a := MovedSessionsIn(sessions0, from, to, before)[k := rows[i].(sessionOwnerId := to)];
    var b := MovedSessionsIn(sessions0, from, to, after);
    forall j | 0 <= j < |sessions0|
      ensures a[j] == b[j]
    {
      if j != k {
        assert sessions0[j].sessionId != rows[i].sessionId;
      }
    }
  }

  /** Once every row of the query is moved, the table is the fully migrated one. */
  lemma {:induction false} AllSessionsMoved(sessions0: seq<Session>, rows: seq<Session>, from: string, to: string)
    requires rows == Filter(sessions0, OwnedBy(from))
    ensures MovedSessionsIn(sessions0, from, to, SessionIdsOf(rows, |rows|)) == MovedSessions(sessions0, from, to)
  {
    var ids := SessionIdsOf(rows, |rows|);
    forall j | 0 <= j < |sessions0| && sessions0[j].sessionOwnerId == from
      ensures sessions0[j].sessionId in ids
    {
      assert sessions0[j] in rows;
      var m :| 0 <= m < |rows| && rows[m] == sessions0[j];
    }
  }

  lemma {:induction false} MoveOneStat(stats0: seq<Statistics>, rows: seq<Statistics>, i: nat, k: nat,
                                       from: string, to: string, toFirebaseUid: string)
    requires Ascending(stats0, StatIdOf)
    requires rows == Filter(stats0, StatOwnedBy(from)) && Ascending(rows, StatIdOf)
    requires i < |rows| && k < |stats0| && stats0[k] == rows[i]
    ensures MovedStatsIn(stats0, from, to, toFirebaseUid, StatIdsOf(rows, i))[k] == rows[i]
    ensures MovedStatsIn(stats0, from, to, toFirebaseUid, StatIdsOf(rows, i))[k := rows[i].(userId := to, firebaseUid := Some(toFirebaseUid))]
      == MovedStatsIn(stats0, from, to, toFirebaseUid, StatIdsOf(rows, i + 1))
  {
    var before, after := StatIdsOf(rows, i), StatIdsOf(rows, i + 1);
    assert rows[i] in rows;
    assert rows[i].statId !in before;
    assert after == before + {rows[i].statId};
    var a := MovedStatsIn(stats0, from, to, toFirebaseUid, before)[k := rows[i].(userId := to, firebaseUid := Some(toFirebaseUid))];
    var b := MovedStatsIn(stats0, from, to, toFirebaseUid, after);
    forall j | 0 <= j < |stats0|
      ensures a[j] == b[j]
    {
      if j != k {
        assert stats0[j].statId != rows[i].statId;
      }
    }
  }

  lemma {:induction false} AllStatsMoved(stats0: seq<Statistics>, rows: seq<Statistics>, from: string, to: string, toFirebaseUid: string)
    requires rows == Filter(stats0, StatOwnedBy(from))
    ensures MovedStatsIn(stats0, from, to, toFirebaseUid, StatIdsOf(rows, |rows|)) == MovedStats(stats0, from, to, toFirebaseUid)
  {
    var ids := StatIdsOf(rows, |rows|);
    forall j | 0 <= j < |stats0| && stats0[j].userId == from
      ensures stats0[j].statId in ids
    {
      assert stats0[j] in rows;
      var m :| 0 <= m < |rows| && rows[m] == stats0[j];
    }
  }

  // ---- what the migration promises ----

  /**
   * With `from` distinct from `to` no row is lost: the final delete finds
   * nothing, every row of `from` now belongs to `to` and keeps its id,
   * timestamp, duration and status, and nothing is left owned by `from`.
   */
  lemma {:induction false} MigrationKeepsEverySession(sessions: seq<Session>, from: string, to: string)
    requires from != to
    ensures SessionsAfterMigration(sessions, from, to) == MovedSessions(sessions, from, to)
    ensures forall s :: s in SessionsAfterMigration(sessions, from, to) ==> s.sessionOwnerId != from
  {
    var moved := MovedSessions(sessions, from, to);
    forall s | s in moved
      ensures NotOwnedBy(from)(s)
    {
      var k :| 0 <= k < |moved| && moved[k] == s;
    }
    FilterAll(moved, NotOwnedBy(from));
  }

  /** The statistics counterpart: every row of `from` now carries `to` and `to`'s uid, and none is lost. */
  lemma {:induction false} MigrationKeepsEveryStat(stats: seq<Statistics>, from: string, to: string, toFirebaseUid: string)
    requires from != to
    ensures StatsAfterMigration(stats, from, to, toFirebaseUid) == MovedStats(stats, from, to, toFirebaseUid)
    ensures forall st :: st in StatsAfterMigration(stats, from, to, toFirebaseUid) ==> st.userId != from
  {
    var moved := MovedStats(stats, from, to, toFirebaseUid);
    forall st | st in moved
      ensures StatNotOwnedBy(from)(st)
    {
      var k :| 0 <= k < |moved| && moved[k] == st;
    }
    FilterAll(moved, StatNotOwnedBy(from));
  }

  /** Migrating a user onto itself re-inserts its sessions unchanged, then deletes all of them. */
  lemma {:induction false} MigrationToSelfDropsSessions(sessions: seq<Session>, userId: string)
    ensures SessionsAfterMigration(sessions, userId, userId) == Filter(sessions, NotOwnedBy(userId))
  {
    var moved := MovedSessions(sessions, userId, userId);
    forall k | 0 <= k < |sessions|
      ensures moved[k] == sessions[k]
    {
      assert sessions[k].(sessionOwnerId := sessions[k].sessionOwnerId) == sessions[k];
    }
    assert moved == sessions;
  }

  /** The same for statistics: every row of the user is deleted. */
  lemma {:induction false} MigrationToSelfDropsStats(stats: seq<Statistics>, userId: string, toFirebaseUid: string)
    ensures forall st :: st in StatsAfterMigration(stats, userId, userId, toFirebaseUid) <==> st in stats && st.userId != userId
  {
    var moved := MovedStats(stats, userId, userId, toFirebaseUid);
    forall st | st in moved
      ensures st.userId != userId ==> st in stats
    {
      var k :| 0 <= k < |moved| && moved[k] == st;
    }
    forall st | st in stats && st.userId != userId
      ensures st in moved
    {
      var k :| 0 <= k < |stats| && stats[k] == st;
      assert moved[k] == st;
    }
  }

  /** Rows of users other than `from` and `to` come out of the migration exactly as they were, in order. */
  lemma {:induction false} MigrationLeavesOtherSessions(sessions: seq<Session>, from: string, to: string)
    ensures Filter(SessionsAfterMigration(sessions, from, to), OwnerNotIn({from, to}))
      == Filter(sessions, OwnerNotIn({from, to}))
    decreases |sessions|
  {
    if sessions != [] {
      var others := OwnerNotIn({from, to});
      var moved, rest := MovedSessions(sessions, from, to), MovedSessions(sessions[1..], from, to);
      assert moved == [moved[0]] + rest;
      var head := if NotOwnedBy(from)(moved[0]) then [moved[0]] else [];
      assert SessionsAfterMigration(sessions, from, to) == head + SessionsAfterMigration(sessions[1..], from, to);
      FilterAppend(head, SessionsAfterMigration(sessions[1..], from, to), others);
      MigrationLeavesOtherSessions(sessions[1..], from, to);
      assert Filter(head, others) == if others(sessions[0]) then [sessions[0]] else [];
    }
  }

  /** Statistics rows of users other than `from` and `to` come out exactly as they were, in order. */
  lemma {:induction false} MigrationLeavesOtherStats(stats: seq<Statistics>, from: string, to: string, toFirebaseUid: string)
    ensures Filter(StatsAfterMigration(stats, from, to, toFirebaseUid), StatOwnerNotIn({from, to}))
      == Filter(stats, StatOwnerNotIn({from, to}))
    decreases |stats|
  {
    if stats != [] {
      var others := StatOwnerNotIn({from, to});
      var moved, rest := MovedStats(stats, from, to, toFirebaseUid), MovedStats(stats[1..], from, to, toFirebaseUid);
      assert moved == [moved[0]] + rest;
      var head := if StatNotOwnedBy(from)(moved[0]) then [moved[0]] else [];
      assert StatsAfterMigration(stats, from, to, toFirebaseUid) == head + StatsAfterMigration(stats[1..], from, to, toFirebaseUid);
      FilterAppend(head, StatsAfterMigration(stats[1..], from, to, toFirebaseUid), others);
      MigrationLeavesOtherStats(stats[1..], from, to, toFirebaseUid);
      assert Filter(head, others) == if others(stats[0]) then [stats[0]] else [];
    }
  }
}
