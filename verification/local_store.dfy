/**
 * The Room database behind UserDao: three tables held in rowid order.
 *
 * Modelling choices, following SQLite as Room configures it:
 * - `INSERT OR REPLACE` deletes every row that clashes with the new one on
 *   the primary key or a unique index, then inserts. Deleting a user fires
 *   `ON DELETE CASCADE`, so the user's sessions and statistics go with it.
 * - Room turns foreign keys on: a session or statistics row whose owner has
 *   no users row is refused (the DAO call throws); the insert methods return
 *   false and change nothing.
 * - The id columns are `AUTOINCREMENT`: an id of 0 is stored as the largest
 *   id the table has ever used plus one.
 * - A query without ORDER BY returns rows in rowid order, which is the order
 *   of the sequences here.
 */
module LocalStore {
  import opened Common
  import opened Entities

  function SessionIdOf(s: Session): int { s.sessionId }
  function StatIdOf(s: Statistics): int { s.statId }

  /** Rows in strictly ascending key order; in particular no two rows share a key. */
  predicate Ascending<T>(rows: seq<T>, key: T -> int)
  {
    forall i, j :: 0 <= i < j < |rows| ==> key(rows[i]) < key(rows[j])
  }

  lemma {:induction false} AscendingTail<T(!new)>(rows: seq<T>, key: T -> int)
    requires Ascending(rows, key) && rows != []
    ensures Ascending(rows[1..], key)
    ensures forall x :: x in rows[1..] ==> key(rows[0]) < key(x)
  {
    forall x | x in rows[1..]
      ensures key(rows[0]) < key(x)
    {
      var k :| 0 <= k < |rows| - 1 && rows[1..][k] == x;
      assert rows[k + 1] == x;
    }
  }

  lemma {:induction false} FilterAscending<T(!new)>(rows: seq<T>, p: T -> bool, key: T -> int)
    requires Ascending(rows, key)
    ensures Ascending(Filter(rows, p), key)
  {
    if rows != [] {
      AscendingTail(rows, key);
      FilterAscending(rows[1..], p, key);
      var t := Filter(rows[1..], p);
      assert forall j :: 0 <= j < |t| ==> t[j] in rows[1..];
    }
  }

  /**
   * `INSERT OR REPLACE` of one row into a table ordered by its integer
   * primary key: the row takes its key's place and evicts the row that had
   * the same key.
   */
  function Place<T>(rows: seq<T>, row: T, key: T -> int): seq<T>
  {
    if rows == [] then [row]
    else if key(rows[0]) == key(row) then [row] + rows[1..]
    else if key(row) < key(rows[0]) then [row] + rows
    else [rows[0]] + Place(rows[1..], row, key)
  }

  lemma {:induction false} PlaceMembers<T(!new)>(rows: seq<T>, row: T, key: T -> int)
    requires Ascending(rows, key)
    ensures forall x :: x in Place(rows, row, key) <==> x == row || (x in rows && key(x) != key(row))
  {
    if rows != [] {
      AscendingTail(rows, key);
      if key(rows[0]) == key(row) {
        assert forall x :: x in rows[1..] ==> key(x) != key(row);
      } else if key(row) >= key(rows[0]) {
        PlaceMembers(rows[1..], row, key);
      }
    }
  }

  lemma {:induction false} PlaceSpec<T(!new)>(rows: seq<T>, row: T, key: T -> int)
    requires Ascending(rows, key)
    ensures Ascending(Place(rows, row, key), key)
    ensures forall x :: x in Place(rows, row, key) <==> x == row || (x in rows && key(x) != key(row))
  {
    PlaceMembers(rows, row, key);
    if rows != [] {
      AscendingTail(rows, key);
      if key(rows[0]) == key(row) {
        ConsAscending(row, rows[1..], key);
      } else if key(row) < key(rows[0]) {
        assert forall x :: x in rows ==> x == rows[0] || x in rows[1..];
        ConsAscending(row, rows, key);
      } else {
        PlaceSpec(rows[1..], row, key);
        ConsAscending(rows[0], Place(rows[1..], row, key), key);
      }
    }
  }

  /** A row whose key lies below every key of an ascending table may go in front of it. */
  lemma ConsAscending<T>(head: T, rows: seq<T>, key: T -> int)
    requires Ascending(rows, key)
    requires forall x :: x in rows ==> key(head) < key(x)
    ensures Ascending([head] + rows, key)
  {
    var c := [head] + rows;
    forall i, j | 0 <= i < j < |c|
      ensures key(c[i]) < key(c[j])
    {
      assert c[j] == rows[j - 1] && rows[j - 1] in rows;
    }
  }

  /** A row whose key lies above every key goes to the end. */
  lemma {:induction false} PlaceAbove<T>(rows: seq<T>, row: T, key: T -> int)
    requires forall i :: 0 <= i < |rows| ==> key(rows[i]) < key(row)
    ensures Place(rows, row, key) == rows + [row]
  {
    if rows != [] {
      PlaceAbove(rows[1..], row, key);
      assert [rows[0]] + (rows[1..] + [row]) == rows + [row];
    }
  }

  /** Distinct primary keys in the users table. */
  predicate UniqueUserIds(users: seq<User>)
  {
    forall i, j :: 0 <= i < j < |users| ==> users[i].userId != users[j].userId
  }

  /** The unique index on firebaseUid: distinct non-null values (nulls never clash). */
  predicate UniqueFirebaseUids(users: seq<User>)
  {
    forall i, j :: 0 <= i < |users| && 0 <= j < |users| && i != j && users[i].firebaseUid.Some? ==>
      users[i].firebaseUid != users[j].firebaseUid
  }

  lemma {:induction false} UniqueTail(users: seq<User>)
    requires users != [] && UniqueUserIds(users) && UniqueFirebaseUids(users)
    ensures UniqueUserIds(users[1..]) && UniqueFirebaseUids(users[1..])
    ensures forall x :: x in users[1..] ==> x.userId != users[0].userId
    ensures forall x :: x in users[1..] && users[0].firebaseUid.Some? ==> x.firebaseUid != users[0].firebaseUid
  {
    var rest := users[1..];
    forall i, j | 0 <= i < |rest| && 0 <= j < |rest| && i != j
      ensures rest[i].userId != rest[j].userId
      ensures rest[i].firebaseUid.Some? ==> rest[i].firebaseUid != rest[j].firebaseUid
    {
      assert rest[i] == users[i + 1] && rest[j] == users[j + 1];
    }
    forall x | x in rest
      ensures x.userId != users[0].userId
      ensures users[0].firebaseUid.Some? ==> x.firebaseUid != users[0].firebaseUid
    {
      var k :| 0 <= k < |rest| && rest[k] == x;
      assert users[k + 1] == x;
    }
  }

  lemma {:induction false} UniqueCons(h: User, t: seq<User>)
    requires UniqueUserIds(t) && UniqueFirebaseUids(t)
    requires forall x :: x in t ==> x.userId != h.userId
    requires forall x :: x in t && h.firebaseUid.Some? ==> x.firebaseUid != h.firebaseUid
    ensures UniqueUserIds([h] + t) && UniqueFirebaseUids([h] + t)
  {
    var u := [h] + t;
    forall i, j | 0 <= i < |u| && 0 <= j < |u| && i != j
      ensures u[i].userId != u[j].userId
      ensures u[i].firebaseUid.Some? ==> u[i].firebaseUid != u[j].firebaseUid
    {
      if i > 0 && j > 0 {
        assert u[i] == t[i - 1] && u[j] == t[j - 1];
      } else if i == 0 {
        assert u[j] == t[j - 1] && u[j] in t;
      } else {
        assert u[i] == t[i - 1] && u[i] in t;
      }
    }
  }

  lemma {:induction false} FilterKeepsUnique(users: seq<User>, p: User -> bool)
    requires UniqueUserIds(users) && UniqueFirebaseUids(users)
    ensures UniqueUserIds(Filter(users, p)) && UniqueFirebaseUids(Filter(users, p))
  {
    if users != [] {
      var h, rest := users[0], users[1..];
      UniqueTail(users);
      FilterKeepsUnique(rest, p);
      var t := Filter(rest, p);
      if p(h) {
        UniqueCons(h, t);
      }
    }
  }

  /** The new row clashes with `x` on the primary key or on the unique firebaseUid index. */
  predicate ClashesWith(x: User, u: User)
  {
    x.userId == u.userId || (u.firebaseUid.Some? && x.firebaseUid == u.firebaseUid)
  }

  /** The ids of the users rows that REPLACE deletes before inserting `u`. */
  function ReplacedIds(users: seq<User>, u: User): set<string>
  {
    set x | x in users && ClashesWith(x, u) :: x.userId
  }

  // Row selectors, named so that a query and the contracts about it share one predicate.
  function NoClash(u: User): User -> bool { (x: User) => !ClashesWith(x, u) }
  function OwnedBy(userId: string): Session -> bool { (s: Session) => s.sessionOwnerId == userId }
  function NotOwnedBy(userId: string): Session -> bool { (s: Session) => s.sessionOwnerId != userId }
  function OwnerNotIn(ids: set<string>): Session -> bool { (s: Session) => s.sessionOwnerId !in ids }
  function InRange(userId: string, startDate: int, endDate: int): Session -> bool
  {
    (s: Session) => s.sessionOwnerId == userId && startDate <= s.completionTimestamp <= endDate
  }
  function CompletedInRange(userId: string, startDate: int, endDate: int): Session -> bool
  {
    (s: Session) => s.sessionOwnerId == userId && s.status == COMPLETED && startDate <= s.completionTimestamp <= endDate
  }
  function StatOwnedBy(userId: string): Statistics -> bool { (s: Statistics) => s.userId == userId }
  function StatNotOwnedBy(userId: string): Statistics -> bool { (s: Statistics) => s.userId != userId }
  function StatOwnerNotIn(ids: set<string>): Statistics -> bool { (s: Statistics) => s.userId !in ids }
  function StatPeriodIs(userId: string, periodType: string, periodStart: int, periodEnd: int): Statistics -> bool
  {
    (s: Statistics) => s.userId == userId && s.periodType == periodType && s.periodStart == periodStart && s.periodEnd == periodEnd
  }
  function StatPeriodIsNot(userId: string, periodType: string, periodStart: int, periodEnd: int): Statistics -> bool
  {
    (s: Statistics) => !(s.userId == userId && s.periodType == periodType && s.periodStart == periodStart && s.periodEnd == periodEnd)
  }
  function StatUidPeriodIs(firebaseUid: string, periodType: string, periodStart: int, periodEnd: int): Statistics -> bool
  {
    (s: Statistics) => s.firebaseUid == Some(firebaseUid) && s.periodType == periodType && s.periodStart == periodStart && s.periodEnd == periodEnd
  }

  function UsersAfterReplace(users: seq<User>, u: User): seq<User>
  {
    Filter(users, NoClash(u)) + [u]
  }

  /** The stored form of a session: id 0 takes the next AUTOINCREMENT value. */
  function AssignSessionId(s: Session, sequence: int): Session
  {
    if s.sessionId == 0 then s.(sessionId := sequence + 1) else s
  }

  function AssignStatId(s: Statistics, sequence: int): Statistics
  {
    if s.statId == 0 then s.(statId := sequence + 1) else s
  }

  function IdsOf(users: seq<User>): set<string>
  {
    set u | u in users :: u.userId
  }

  /** Keys unique, ids within the AUTOINCREMENT counters, and every child row's owner present. */
  ghost predicate TablesValid(users: seq<User>, sessions: seq<Session>, stats: seq<Statistics>, sessionSeq: int, statSeq: int)
  {
    && UniqueUserIds(users)
    && UniqueFirebaseUids(users)
    && Ascending(sessions, SessionIdOf)
    && Ascending(stats, StatIdOf)
    && (forall s :: s in sessions ==> s.sessionId <= sessionSeq && s.sessionOwnerId in IdsOf(users))
    && (forall s :: s in stats ==> s.statId <= statSeq && s.userId in IdsOf(users))
  }

  /** Rows left after a delete keep the ids they were given. */
  lemma FilterKeepsIdsSet(sessions: seq<Session>, stats: seq<Statistics>, p: Session -> bool, q: Statistics -> bool)
    requires forall s :: s in sessions ==> s.sessionId != 0
    requires forall s :: s in stats ==> s.statId != 0
    ensures forall s :: s in Filter(sessions, p) ==> s.sessionId != 0
    ensures forall s :: s in Filter(stats, q) ==> s.statId != 0
  {
  }

  lemma {:induction false} ReplaceKeepsValid(users: seq<User>, sessions: seq<Session>, stats: seq<Statistics>, sessionSeq: int, statSeq: int, u: User)
    requires TablesValid(users, sessions, stats, sessionSeq, statSeq)
    ensures TablesValid(UsersAfterReplace(users, u),
                        Filter(sessions, OwnerNotIn(ReplacedIds(users, u))),
                        Filter(stats, StatOwnerNotIn(ReplacedIds(users, u))), sessionSeq, statSeq)
  {
    var gone := ReplacedIds(users, u);
    var kept := Filter(users, NoClash(u));
    var nu := UsersAfterReplace(users, u);
    FilterKeepsUnique(users, NoClash(u));
    FilterAscending(sessions, OwnerNotIn(gone), SessionIdOf);
    FilterAscending(stats, StatOwnerNotIn(gone), StatIdOf);
    forall o | o in IdsOf(users) && o !in gone
      ensures o in IdsOf(nu)
    {
      var x :| x in users && x.userId == o;
      assert !ClashesWith(x, u);
      assert x in kept;
      assert x in nu;
    }
    assert UniqueUserIds(nu) && UniqueFirebaseUids(nu) by {
      assert forall x :: x in kept ==> !ClashesWith(x, u);
      forall i | 0 <= i < |kept| ensures kept[i] in kept { }
      assert nu == kept + [u];
    }
  }

  function Max(a: int, b: int): int { if a < b then b else a }

  function CountOwned(sessions: seq<Session>, userId: string): nat
  {
    if sessions == [] then 0
    else (if sessions[0].sessionOwnerId == userId then 1 else 0) + CountOwned(sessions[1..], userId)
  }

  class RecordStore {
    var users: seq<User>
    var sessions: seq<Session>
    var stats: seq<Statistics>
    /** sqlite_sequence: the largest id each AUTOINCREMENT table has used. */
    var sessionSeq: int
    var statSeq: int

    function UserIds(): set<string>
      reads this`users
    {
      IdsOf(users)
    }

    ghost predicate Valid()
      reads this
    {
      TablesValid(users, sessions, stats, sessionSeq, statSeq)
    }

    /**
     * Room stores an id of 0 as a generated one, so no stored row has id 0
     * and the counters start at 0.
     */
    ghost predicate IdsAssigned()
      reads this`sessions, this`stats, this`sessionSeq, this`statSeq
    {
      && 0 <= sessionSeq && 0 <= statSeq
      && (forall s :: s in sessions ==> s.sessionId != 0)
      && (forall s :: s in stats ==> s.statId != 0)
    }

    constructor ()
      ensures Valid() && IdsAssigned()
      ensures users == [] && sessions == [] && stats == []
    {
      users, sessions, stats := [], [], [];
      sessionSeq, statSeq := 0, 0;
    }

    // ---- users ----

    /** `insertOrUpdateUser` (REPLACE): evict the clashing users and, by cascade, their rows. */
    method InsertOrUpdateUser(u: User)
      requires Valid()
      modifies this
      ensures Valid()
      ensures old(IdsAssigned()) ==> IdsAssigned()
      ensures users == UsersAfterReplace(old(users), u)
      ensures sessions == Filter(old(sessions), OwnerNotIn(ReplacedIds(old(users), u)))
      ensures stats == Filter(old(stats), StatOwnerNotIn(ReplacedIds(old(users), u)))
      ensures sessionSeq == old(sessionSeq) && statSeq == old(statSeq)
    {
      ReplaceKeepsValid(users, sessions, stats, sessionSeq, statSeq, u);
      var gone := ReplacedIds(users, u);
      if IdsAssigned() {
        FilterKeepsIdsSet(sessions, stats, OwnerNotIn(gone), StatOwnerNotIn(gone));
      }
      users := UsersAfterReplace(users, u);
      sessions := Filter(sessions, OwnerNotIn(gone));
      stats := Filter(stats, StatOwnerNotIn(gone));
    }

    /** `getUserById`: the row with that primary key. */
    function GetUserById(userId: string): (r: Option<User>)
      reads this`users
      ensures r.None? <==> userId !in UserIds()
      ensures r.Some? ==> r.value in users && r.value.userId == userId
    {
      Find(users, (x: User) => x.userId == userId)
    }

    /** `getUserByFirebaseUid`: the row carrying that uid, if any. */
    function GetUserByFirebaseUid(firebaseUid: string): (r: Option<User>)
      reads this`users
      ensures r.None? <==> forall x :: x in users ==> x.firebaseUid != Some(firebaseUid)
      ensures r.Some? ==> r.value in users && r.value.firebaseUid == Some(firebaseUid)
    {
      Find(users, (x: User) => x.firebaseUid == Some(firebaseUid))
    }

    // ---- focus_sessions ----

    /** `insertMeditationSession` (REPLACE); false where the owner row is missing. */
    method InsertMeditationSession(s: Session) returns (ok: bool)
      requires Valid()
      modifies this`sessions, this`sessionSeq
      ensures Valid()
      ensures old(IdsAssigned()) ==> IdsAssigned()
      ensures ok <==> s.sessionOwnerId in old(UserIds())
      ensures ok ==> sessions == Place(old(sessions), AssignSessionId(s, old(sessionSeq)), SessionIdOf)
      ensures ok ==> sessionSeq == Max(old(sessionSeq), AssignSessionId(s, old(sessionSeq)).sessionId)
      ensures !ok ==> sessions == old(sessions) && sessionSeq == old(sessionSeq)
      ensures users == old(users) && stats == old(stats) && statSeq == old(statSeq)
    {
      ok := s.sessionOwnerId in UserIds();
      if ok {
        var row := AssignSessionId(s, sessionSeq);
        PlaceSpec(sessions, row, SessionIdOf);
        sessions := Place(sessions, row, SessionIdOf);
        sessionSeq := Max(sessionSeq, row.sessionId);
      }
    }

    /** `getAllSessionsForUserImmediate` / `getAllSessionsForUser`. */
    function SessionsOf(userId: string): (r: seq<Session>)
      reads this`sessions
      ensures forall s :: s in r <==> s in sessions && s.sessionOwnerId == userId
    {
      Filter(sessions, OwnedBy(userId))
    }

    /** `getSessionsForUserInRangeImmediate`: BETWEEN is inclusive at both ends. */
    function SessionsInRange(userId: string, startDate: int, endDate: int): (r: seq<Session>)
      reads this`sessions
      ensures forall s :: s in r <==>
        s in sessions && s.sessionOwnerId == userId && startDate <= s.completionTimestamp <= endDate
    {
      Filter(sessions, InRange(userId, startDate, endDate))
    }

    /** `getCompletedSessionsInRange`. */
    function CompletedSessionsInRange(userId: string, startDate: int, endDate: int): (r: seq<Session>)
      reads this`sessions
      ensures forall s :: s in r <==>
        s in sessions && s.sessionOwnerId == userId && s.status == COMPLETED
        && startDate <= s.completionTimestamp <= endDate
    {
      Filter(sessions, CompletedInRange(userId, startDate, endDate))
    }

    /** `getSessionCount`: SELECT COUNT(*). */
    function SessionCount(userId: string): nat
      reads this`sessions
    {
      CountOwned(sessions, userId)
    }

    /** `deleteSessionsByUserId`. */
    method DeleteSessionsByUserId(userId: string)
      requires Valid()
      modifies this`sessions
      ensures Valid()
      ensures old(IdsAssigned()) ==> IdsAssigned()
      ensures sessions == Filter(old(sessions), NotOwnedBy(userId))
      ensures users == old(users) && stats == old(stats)
      ensures sessionSeq == old(sessionSeq) && statSeq == old(statSeq)
    {
      FilterAscending(sessions, NotOwnedBy(userId), SessionIdOf);
      sessions := Filter(sessions, NotOwnedBy(userId));
    }

    // ---- user_statistics ----

    /** `insertOrUpdateStatistics` (REPLACE); false where the owner row is missing. */
    method InsertOrUpdateStatistics(st: Statistics) returns (ok: bool)
      requires Valid()
      modifies this`stats, this`statSeq
      ensures Valid()
      ensures old(IdsAssigned()) ==> IdsAssigned()
      ensures ok <==> st.userId in old(UserIds())
      ensures ok ==> stats == Place(old(stats), AssignStatId(st, old(statSeq)), StatIdOf)
      ensures ok ==> statSeq == Max(old(statSeq), AssignStatId(st, old(statSeq)).statId)
      ensures !ok ==> stats == old(stats) && statSeq == old(statSeq)
      ensures users == old(users) && sessions == old(sessions) && sessionSeq == old(sessionSeq)
    {
      ok := st.userId in UserIds();
      if ok {
        var row := AssignStatId(st, statSeq);
        PlaceSpec(stats, row, StatIdOf);
        stats := Place(stats, row, StatIdOf);
        statSeq := Max(statSeq, row.statId);
      }
    }

    /** `getStatistics`: the first row matching all four of user, period type, start and end. */
    function GetStatistics(userId: string, periodType: string, periodStart: int, periodEnd: int): (r: Option<Statistics>)
      reads this`stats
      ensures r.Some? ==> (r.value in stats && r.value.userId == userId && r.value.periodType == periodType
        && r.value.periodStart == periodStart && r.value.periodEnd == periodEnd)
      ensures r.None? <==> forall s :: s in stats ==>
        !(s.userId == userId && s.periodType == periodType && s.periodStart == periodStart && s.periodEnd == periodEnd)
    {
      Find(stats, StatPeriodIs(userId, periodType, periodStart, periodEnd))
    }

    /** `getStatisticsByFirebaseUid`. */
    function GetStatisticsByFirebaseUid(firebaseUid: string, periodType: string, periodStart: int, periodEnd: int): (r: Option<Statistics>)
      reads this`stats
      ensures r.Some? ==> (r.value in stats && r.value.firebaseUid == Some(firebaseUid) && r.value.periodType == periodType
        && r.value.periodStart == periodStart && r.value.periodEnd == periodEnd)
      ensures r.None? <==> forall s :: s in stats ==>
        !(s.firebaseUid == Some(firebaseUid) && s.periodType == periodType && s.periodStart == periodStart && s.periodEnd == periodEnd)
    {
      Find(stats, StatUidPeriodIs(firebaseUid, periodType, periodStart, periodEnd))
    }

    /** `getAllStatisticsForUserImmediate`. */
    function StatisticsOf(userId: string): (r: seq<Statistics>)
      reads this`stats
      ensures forall s :: s in r <==> s in stats && s.userId == userId
    {
      Filter(stats, StatOwnedBy(userId))
    }

    /** `deleteStatisticsByUserId`. */
    method DeleteStatisticsByUserId(userId: string)
      requires Valid()
      modifies this`stats
      ensures Valid()
      ensures old(IdsAssigned()) ==> IdsAssigned()
      ensures stats == Filter(old(stats), StatNotOwnedBy(userId))
      ensures users == old(users) && sessions == old(sessions)
      ensures sessionSeq == old(sessionSeq) && statSeq == old(statSeq)
    {
      FilterAscending(stats, StatNotOwnedBy(userId), StatIdOf);
      stats := Filter(stats, StatNotOwnedBy(userId));
    }

    /** `deleteStatistics`: removes only the rows matching all four keys. */
    method DeleteStatistics(userId: string, periodType: string, periodStart: int, periodEnd: int)
      requires Valid()
      modifies this`stats
      ensures Valid()
      ensures old(IdsAssigned()) ==> IdsAssigned()
      ensures stats == Filter(old(stats), StatPeriodIsNot(userId, periodType, periodStart, periodEnd))
      ensures users == old(users) && sessions == old(sessions)
      ensures sessionSeq == old(sessionSeq) && statSeq == old(statSeq)
    {
      var keep := StatPeriodIsNot(userId, periodType, periodStart, periodEnd);
      FilterAscending(stats, keep, StatIdOf);
      stats := Filter(stats, keep);
    }
  }

  // ---- properties of the tables ----

  /** A row with a key already in the table takes that row's place; nothing else moves. */
  lemma {:induction false} PlaceReplacesInPlace<T>(rows: seq<T>, row: T, key: T -> int, i: nat)
    requires Ascending(rows, key)
    requires i < |rows| && key(rows[i]) == key(row)
    ensures Place(rows, row, key) == rows[i := row]
  {
    if i > 0 {
      assert key(rows[0]) < key(rows[i]);
      assert Ascending(rows[1..], key) by {
        forall a, b | 0 <= a < b < |rows| - 1 ensures key(rows[1..][a]) < key(rows[1..][b]) {
          assert rows[1..][a] == rows[a + 1] && rows[1..][b] == rows[b + 1];
        }
      }
      PlaceReplacesInPlace(rows[1..], row, key, i - 1);
      assert [rows[0]] + rows[1..][i - 1 := row] == rows[i := row];
    } else {
      assert [row] + rows[1..] == rows[0 := row];
    }
  }

  /** A session saved with id 0 is appended with an id above every id in the table. */
  lemma {:induction false} FreshSessionAppends(store: RecordStore, s: Session)
    requires store.Valid() && s.sessionId == 0
    ensures AssignSessionId(s, store.sessionSeq).sessionId > store.sessionSeq
    ensures Place(store.sessions, AssignSessionId(s, store.sessionSeq), SessionIdOf)
      == store.sessions + [AssignSessionId(s, store.sessionSeq)]
  {
    var row := AssignSessionId(s, store.sessionSeq);
    assert forall i :: 0 <= i < |store.sessions| ==> store.sessions[i] in store.sessions;
    PlaceAbove(store.sessions, row, SessionIdOf);
  }

  /** A statistics row saved with id 0 is appended with an id above every id in the table. */
  lemma {:induction false} FreshStatAppends(store: RecordStore, st: Statistics)
    requires store.Valid() && st.statId == 0
    ensures AssignStatId(st, store.statSeq).statId > store.statSeq
    ensures Place(store.stats, AssignStatId(st, store.statSeq), StatIdOf)
      == store.stats + [AssignStatId(st, store.statSeq)]
  {
    var row := AssignStatId(st, store.statSeq);
    assert forall i :: 0 <= i < |store.stats| ==> store.stats[i] in store.stats;
    PlaceAbove(store.stats, row, StatIdOf);
  }

  lemma {:induction false} CountOwnedIsQueryLength(sessions: seq<Session>, userId: string)
    ensures CountOwned(sessions, userId) == |Filter(sessions, OwnedBy(userId))|
  {
    if sessions != [] {
      CountOwnedIsQueryLength(sessions[1..], userId);
    }
  }

  /** `getSessionCount(u)` is the length of `getAllSessionsForUserImmediate(u)`. */
  lemma {:induction false} SessionCountMatchesQuery(store: RecordStore, userId: string)
    ensures store.SessionCount(userId) == |store.SessionsOf(userId)|
  {
    CountOwnedIsQueryLength(store.sessions, userId);
  }

  lemma {:induction false} CompletedQueryIsFilteredRange(sessions: seq<Session>, userId: string, startDate: int, endDate: int)
    ensures Filter(sessions, CompletedInRange(userId, startDate, endDate))
      == Filter(Filter(sessions, InRange(userId, startDate, endDate)), IsCompleted)
  {
    if sessions != [] {
      CompletedQueryIsFilteredRange(sessions[1..], userId, startDate, endDate);
      var h, rest := sessions[0], sessions[1..];
      var inRange, completed := InRange(userId, startDate, endDate), CompletedInRange(userId, startDate, endDate);
      var head := if inRange(h) then [h] else [];
      assert Filter(sessions, completed) == (if completed(h) then [h] else []) + Filter(rest, completed);
      assert Filter(sessions, inRange) == head + Filter(rest, inRange);
      FilterAppend(head, Filter(rest, inRange), IsCompleted);
      assert [h][1..] == [];
      assert Filter(head, IsCompleted) == if completed(h) then [h] else [];
    }
  }

  /** `getCompletedSessionsInRange` returns exactly the COMPLETED rows of the range query, in the same order. */
  lemma {:induction false} CompletedInRangeIsRangeFiltered(store: RecordStore, userId: string, startDate: int, endDate: int)
    ensures store.CompletedSessionsInRange(userId, startDate, endDate)
      == Filter(store.SessionsInRange(userId, startDate, endDate), IsCompleted)
  {
    CompletedQueryIsFilteredRange(store.sessions, userId, startDate, endDate);
  }

  /** With the unique index, the uid lookup finds the one row that carries the uid. */
  lemma {:induction false} FirebaseUidLookupUnique(store: RecordStore, firebaseUid: string, x: User)
    requires store.Valid()
    requires x in store.users && x.firebaseUid == Some(firebaseUid)
    ensures store.GetUserByFirebaseUid(firebaseUid) == Some(x)
  {
    var r := store.GetUserByFirebaseUid(firebaseUid).value;
    var i :| 0 <= i < |store.users| && store.users[i] == r;
    var j :| 0 <= j < |store.users| && store.users[j] == x;
    assert i == j;
  }

  /** Re-inserting a user that exists deletes, by cascade, every session and statistics row it owned. */
  lemma {:induction false} ReplaceDropsOwnRows(store: RecordStore, u: User)
    requires u.userId in store.UserIds()
    ensures forall s :: s in Filter(store.sessions, OwnerNotIn(ReplacedIds(store.users, u))) ==> s.sessionOwnerId != u.userId
    ensures forall s :: s in Filter(store.stats, StatOwnerNotIn(ReplacedIds(store.users, u))) ==> s.userId != u.userId
  {
    var x :| x in store.users && x.userId == u.userId;
    assert ClashesWith(x, u);
    assert u.userId in ReplacedIds(store.users, u);
  }
}
