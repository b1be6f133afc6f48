/**
 * EnhancedSyncManager.mergeSessionsWithConflictResolution: local rows and
 * remote documents are indexed by completion time (a remote document by its
 * whole seconds times 1000), the union of the keys is walked newest first,
 * and each key yields one session: the local one, a copy of the remote one,
 * or, where both exist, the one with the longer duration (the local one on a
 * tie). Every key present on both sides counts as a resolved conflict.
 */
module Reconciliation {
  import opened Common
  import opened Entities
  import opened Timestamps

  function LocalKey(s: Session): int { s.completionTimestamp }
  function RemoteKey(r: RemoteSession): int { KeyMillis(r.completionTimestamp) }

  /** Kotlin `associateBy`: each key maps to the LAST element carrying it. */
  function AssociateBy<T>(xs: seq<T>, key: T -> int): map<int, T>
    decreases |xs|
  {
    if xs == [] then map[]
    else AssociateBy(xs[..|xs| - 1], key)[key(xs[|xs| - 1]) := xs[|xs| - 1]]
  }

  lemma {:induction false} AssociateBySpec<T>(xs: seq<T>, key: T -> int)
    ensures forall k :: k in AssociateBy(xs, key) <==> exists i :: 0 <= i < |xs| && key(xs[i]) == k
    ensures forall k :: k in AssociateBy(xs, key) ==> key(AssociateBy(xs, key)[k]) == k && AssociateBy(xs, key)[k] in xs
    ensures forall i :: 0 <= i < |xs| && (forall j :: i < j < |xs| ==> key(xs[j]) != key(xs[i])) ==>
      AssociateBy(xs, key)[key(xs[i])] == xs[i]
    decreases |xs|
  {
    if xs != [] {
      var init := xs[..|xs| - 1];
      AssociateBySpec(init, key);
      assert forall i :: 0 <= i < |init| ==> init[i] == xs[i];
      forall k | exists i :: 0 <= i < |xs| && key(xs[i]) == k
        ensures k in AssociateBy(xs, key)
      {
        var i :| 0 <= i < |xs| && key(xs[i]) == k;
        if i < |init| { assert key(init[i]) == k; }
      }
    }
  }

  function LocalMap(local: seq<Session>): map<int, Session> { AssociateBy(local, LocalKey) }
  function RemoteMap(remote: seq<RemoteSession>): map<int, RemoteSession> { AssociateBy(remote, RemoteKey) }

  predicate StrictlyDescending(s: seq<int>)
  {
    forall i, j :: 0 <= i < j < |s| ==> s[i] > s[j]
  }

  /** Insert `x` into a strictly descending list unless it is already there. */
  function InsertDesc(s: seq<int>, x: int): seq<int>
  {
    if s == [] then [x]
    else if x == s[0] then s
    else if x > s[0] then [x] + s
    else [s[0]] + InsertDesc(s[1..], x)
  }

  lemma {:induction false} DescTail(s: seq<int>)
    requires s != [] && StrictlyDescending(s)
    ensures StrictlyDescending(s[1..])
    ensures forall y :: y in s[1..] ==> y < s[0]
  {
    forall i, j | 0 <= i < j < |s| - 1 ensures s[1..][i] > s[1..][j] {
      assert s[1..][i] == s[i + 1] && s[1..][j] == s[j + 1];
    }
    forall y | y in s[1..] ensures y < s[0] {
      var k :| 0 <= k < |s| - 1 && s[1..][k] == y;
      assert s[k + 1] == y;
    }
  }

  lemma {:induction false} DescCons(h: int, t: seq<int>)
    requires StrictlyDescending(t)
    requires forall y :: y in t ==> y < h
    ensures StrictlyDescending([h] + t)
  {
    var u := [h] + t;
    forall i, j | 0 <= i < j < |u| ensures u[i] > u[j] {
      assert u[j] == t[j - 1] && u[j] in t;
      if i > 0 {
        assert u[i] == t[i - 1];
      }
    }
  }

  lemma {:induction false} InsertDescSpec(s: seq<int>, x: int)
    requires StrictlyDescending(s)
    ensures StrictlyDescending(InsertDesc(s, x))
    ensures forall y :: y in InsertDesc(s, x) <==> y == x || y in s
  {
    if s == [] {
    } else if x == s[0] {
    } else if x > s[0] {
      DescTail(s);
      assert forall y :: y in s ==> y == s[0] || y in s[1..];
      DescCons(x, s);
    } else {
      DescTail(s);
      InsertDescSpec(s[1..], x);
      assert forall y :: y in s ==> y == s[0] || y in s[1..];
      DescCons(s[0], InsertDesc(s[1..], x));
    }
  }

  /** `toSortedSet().reversed()`: the distinct values, largest first. */
  function SortDescDistinct(xs: seq<int>): seq<int>
    decreases |xs|
  {
    if xs == [] then [] else InsertDesc(SortDescDistinct(xs[..|xs| - 1]), xs[|xs| - 1])
  }

  lemma {:induction false} SortDescDistinctSpec(xs: seq<int>)
    ensures StrictlyDescending(SortDescDistinct(xs))
    ensures forall y :: y in SortDescDistinct(xs) <==> y in xs
    decreases |xs|
  {
    if xs != [] {
      var init := xs[..|xs| - 1];
      SortDescDistinctSpec(init);
      InsertDescSpec(SortDescDistinct(init), xs[|xs| - 1]);
      assert xs == init + [xs[|xs| - 1]];
    }
  }

  /** Every key of either side, newest first, each once. */
  function AllTimestamps(local: seq<Session>, remote: seq<RemoteSession>): seq<int>
  {
    SortDescDistinct(BothKeys(local, remote))
  }

  /** The keys of both sides, local first, with repeats. */
  function BothKeys(local: seq<Session>, remote: seq<RemoteSession>): seq<int>
  {
    seq(|local|, i requires 0 <= i < |local| => LocalKey(local[i]))
    + seq(|remote|, i requires 0 <= i < |remote| => RemoteKey(remote[i]))
  }

  lemma {:induction false} BothKeysCover(local: seq<Session>, remote: seq<RemoteSession>)
    ensures forall k :: k in LocalMap(local) || k in RemoteMap(remote) ==> k in BothKeys(local, remote)
  {
    var ab := BothKeys(local, remote);
    AssociateBySpec(local, LocalKey);
    AssociateBySpec(remote, RemoteKey);
    forall k | k in LocalMap(local) ensures k in ab {
      var i :| 0 <= i < |local| && LocalKey(local[i]) == k;
      assert ab[i] == k;
    }
    forall k | k in RemoteMap(remote) ensures k in ab {
      var i :| 0 <= i < |remote| && RemoteKey(remote[i]) == k;
      assert ab[|local| + i] == k;
    }
  }

  lemma {:induction false} BothKeysWithin(local: seq<Session>, remote: seq<RemoteSession>)
    ensures forall k :: k in BothKeys(local, remote) ==> k in LocalMap(local) || k in RemoteMap(remote)
  {
    var ab := BothKeys(local, remote);
    AssociateBySpec(local, LocalKey);
    AssociateBySpec(remote, RemoteKey);
    forall k | k in ab ensures k in LocalMap(local) || k in RemoteMap(remote) {
      var i :| 0 <= i < |ab| && ab[i] == k;
      if i < |local| { assert LocalKey(local[i]) == k; } else { assert RemoteKey(remote[i - |local|]) == k; }
    }
  }

  lemma {:induction false} AllTimestampsSpec(local: seq<Session>, remote: seq<RemoteSession>)
    ensures StrictlyDescending(AllTimestamps(local, remote))
    ensures forall k :: k in AllTimestamps(local, remote) <==> k in LocalMap(local) || k in RemoteMap(remote)
  {
    assert AllTimestamps(local, remote) == SortDescDistinct(BothKeys(local, remote));
    SortDescDistinctSpec(BothKeys(local, remote));
    BothKeysCover(local, remote);
    BothKeysWithin(local, remote);
  }

  /** The session a remote document becomes locally: a fresh row owned by `userId`. */
  function FromRemote(r: RemoteSession, userId: string): Session
  {
    Session(0, userId, RemoteKey(r), r.workDuration, r.status)
  }

  /** The one session a key contributes. */
  function Resolve(k: int, lm: map<int, Session>, rm: map<int, RemoteSession>, userId: string): Session
    requires k in lm || k in rm
  {
    if k in lm && k in rm then
      (if lm[k].workDuration >= rm[k].workDuration then lm[k] else FromRemote(rm[k], userId))
    else if k in lm then lm[k]
    else FromRemote(rm[k], userId)
  }

  /** The merge of the keys `ks`, in order. */
  function ResolveAll(ks: seq<int>, lm: map<int, Session>, rm: map<int, RemoteSession>, userId: string): (r: seq<Session>)
    requires forall k :: k in ks ==> k in lm || k in rm
    ensures |r| == |ks|
    ensures forall i :: 0 <= i < |ks| ==> r[i] == Resolve(ks[i], lm, rm, userId)
    decreases |ks|
  {
    if ks == [] then []
    else ResolveAll(ks[..|ks| - 1], lm, rm, userId) + [Resolve(ks[|ks| - 1], lm, rm, userId)]
  }

  /** The number of entries of `ks` that lie in `shared`. */
  function CountIn(ks: seq<int>, shared: set<int>): nat
    decreases |ks|
  {
    if ks == [] then 0
    else CountIn(ks[..|ks| - 1], shared) + (if ks[|ks| - 1] in shared then 1 else 0)
  }

  /** The merged list the source builds. */
  function MergedSessions(local: seq<Session>, remote: seq<RemoteSession>, userId: string): seq<Session>
  {
    AllTimestampsSpec(local, remote);
    ResolveAll(AllTimestamps(local, remote), LocalMap(local), RemoteMap(remote), userId)
  }

  /** The keys present on both sides. */
  function SharedKeys(local: seq<Session>, remote: seq<RemoteSession>): set<int>
  {
    LocalMap(local).Keys * RemoteMap(remote).Keys
  }

  lemma {:induction false} DescendingInit(ks: seq<int>)
    requires StrictlyDescending(ks) && ks != []
    ensures StrictlyDescending(ks[..|ks| - 1])
    ensures ks[|ks| - 1] !in ks[..|ks| - 1]
    ensures ks == ks[..|ks| - 1] + [ks[|ks| - 1]]
  {
    var init := ks[..|ks| - 1];
    forall i | 0 <= i < |init| ensures init[i] == ks[i] && init[i] > ks[|ks| - 1] { }
  }

  lemma {:induction false} CountInIsCardinality(ks: seq<int>, shared: set<int>)
    requires StrictlyDescending(ks)
    ensures CountIn(ks, shared) == |set k | k in ks && k in shared|
    decreases |ks|
  {
    if ks == [] {
      assert (set k | k in ks && k in shared) == {};
    } else {
      var init, last := ks[..|ks| - 1], ks[|ks| - 1];
      DescendingInit(ks);
      CountInIsCardinality(init, shared);
      SharedStep(init, last, shared);
    }
  }

  lemma {:induction false} SharedStep(init: seq<int>, last: int, shared: set<int>)
    requires last !in init
    ensures |set k | k in init + [last] && k in shared| == |set k | k in init && k in shared| + (if last in shared then 1 else 0)
  {
    var before := set k | k in init && k in shared;
    var after := set k | k in init + [last] && k in shared;
    if last in shared {
      assert after == before + {last};
    } else {
      assert after == before;
    }
  }

  /** `mergeSessionsWithConflictResolution`: the loop over the keys, newest first. */
  method MergeSessionsWithConflictResolution(local: seq<Session>, remote: seq<RemoteSession>, userId: string)
    returns (merged: seq<Session>, conflictsResolved: nat)
    ensures merged == MergedSessions(local, remote, userId)
    ensures conflictsResolved == |SharedKeys(local, remote)|
  {
    var localMap := LocalMap(local);
    var remoteMap := RemoteMap(remote);
    var allTimestamps := AllTimestamps(local, remote);
    AllTimestampsSpec(local, remote);
    merged, conflictsResolved := [], 0;
    for i := 0 to |allTimestamps|
      invariant forall k :: k in allTimestamps[..i] ==> k in localMap || k in remoteMap
      invariant merged == ResolveAll(allTimestamps[..i], localMap, remoteMap, userId)
      invariant conflictsResolved == CountIn(allTimestamps[..i], localMap.Keys * remoteMap.Keys)
    {
      var timestamp := allTimestamps[i];
      assert allTimestamps[..i + 1][..i] == allTimestamps[..i];
      if timestamp in localMap && timestamp in remoteMap {
        var localSession, remoteSession := localMap[timestamp], remoteMap[timestamp];
        var resolved := if localSession.workDuration >= remoteSession.workDuration then localSession
                        else FromRemote(remoteSession, userId);
        merged := merged + [resolved];
        conflictsResolved := conflictsResolved + 1;
      } else if timestamp in localMap {
        merged := merged + [localMap[timestamp]];
      } else {
        merged := merged + [FromRemote(remoteMap[timestamp], userId)];
      }
    }
    assert allTimestamps[..|allTimestamps|] == allTimestamps;
    CountInIsCardinality(allTimestamps, localMap.Keys * remoteMap.Keys);
    forall k | k in SharedKeys(local, remote) ensures k in allTimestamps {
      assert k in localMap;
    }
    assert (set k | k in allTimestamps && k in localMap.Keys * remoteMap.Keys) == SharedKeys(local, remote);
  }

  // ---- what the merged list is ----

  lemma {:induction false} DistinctLength(ks: seq<int>, s: set<int>)
    requires StrictlyDescending(ks)
    requires forall k :: k in ks <==> k in s
    ensures |ks| == |s|
    decreases |ks|
  {
    if ks == [] {
      assert forall k :: k !in s;
      assert s == {};
    } else {
      var init, last := ks[..|ks| - 1], ks[|ks| - 1];
      DescendingInit(ks);
      assert last in s;
      assert forall k :: k in init <==> k in s - {last};
      DistinctLength(init, s - {last});
      assert |s| == |s - {last}| + 1;
    }
  }

  /** Each merged entry carries its key as completion time. */
  lemma {:induction false} MergedKeys(local: seq<Session>, remote: seq<RemoteSession>, userId: string)
    ensures |MergedSessions(local, remote, userId)| == |AllTimestamps(local, remote)|
    ensures forall i :: 0 <= i < |AllTimestamps(local, remote)| ==>
      MergedSessions(local, remote, userId)[i].completionTimestamp == AllTimestamps(local, remote)[i]
  {
    AssociateBySpec(local, LocalKey);
    AssociateBySpec(remote, RemoteKey);
    AllTimestampsSpec(local, remote);
  }

  /** The merged list has one entry per key of either side, and its completion times strictly decrease. */
  lemma {:induction false} MergedIsOnePerKeyDescending(local: seq<Session>, remote: seq<RemoteSession>, userId: string)
    ensures |MergedSessions(local, remote, userId)| == |LocalMap(local).Keys + RemoteMap(remote).Keys|
    ensures var merged := MergedSessions(local, remote, userId);
      forall i, j :: 0 <= i < j < |merged| ==> merged[i].completionTimestamp > merged[j].completionTimestamp
  {
    AllTimestampsSpec(local, remote);
    MergedKeys(local, remote, userId);
    DistinctLength(AllTimestamps(local, remote), LocalMap(local).Keys + RemoteMap(remote).Keys);
  }

  /**
   * Every local completion time and every remote document's whole-second
   * time appears in the merged list, and nothing else does.
   */
  lemma {:induction false} MergedCoversBothSides(local: seq<Session>, remote: seq<RemoteSession>, userId: string)
    ensures var merged := MergedSessions(local, remote, userId);
      && (forall s :: s in local ==> exists i :: 0 <= i < |merged| && merged[i].completionTimestamp == s.completionTimestamp)
      && (forall r :: r in remote ==> exists i :: 0 <= i < |merged| && merged[i].completionTimestamp == r.completionTimestamp.seconds * 1000)
      && (forall i :: 0 <= i < |merged| ==>
            (exists s :: s in local && s.completionTimestamp == merged[i].completionTimestamp)
            || (exists r :: r in remote && r.completionTimestamp.seconds * 1000 == merged[i].completionTimestamp))
  {
    AssociateBySpec(local, LocalKey);
    AssociateBySpec(remote, RemoteKey);
    AllTimestampsSpec(local, remote);
    MergedKeys(local, remote, userId);
    var merged, ks := MergedSessions(local, remote, userId), AllTimestamps(local, remote);
    forall s | s in local
      ensures exists i :: 0 <= i < |merged| && merged[i].completionTimestamp == s.completionTimestamp
    {
      var j :| 0 <= j < |local| && local[j] == s;
      assert LocalKey(local[j]) in LocalMap(local);
      var i :| 0 <= i < |ks| && ks[i] == s.completionTimestamp;
    }
    forall r | r in remote
      ensures exists i :: 0 <= i < |merged| && merged[i].completionTimestamp == r.completionTimestamp.seconds * 1000
    {
      var j :| 0 <= j < |remote| && remote[j] == r;
      assert RemoteKey(remote[j]) in RemoteMap(remote);
      var i :| 0 <= i < |ks| && ks[i] == KeyMillis(r.completionTimestamp);
    }
    forall i | 0 <= i < |merged|
      ensures (exists s :: s in local && s.completionTimestamp == merged[i].completionTimestamp)
        || (exists r :: r in remote && r.completionTimestamp.seconds * 1000 == merged[i].completionTimestamp)
    {
      var k := ks[i];
      if k in LocalMap(local) {
        assert LocalMap(local)[k] in local;
      } else {
        assert RemoteMap(remote)[k] in remote;
      }
    }
  }

  /**
   * For a key both sides carry, the merged entry keeps the local session when
   * it is at least as long and otherwise carries the remote duration and
   * status; either way its duration is the larger one.
   */
  lemma {:induction false} SharedKeyKeepsLonger(local: seq<Session>, remote: seq<RemoteSession>, userId: string, i: nat)
    requires i < |AllTimestamps(local, remote)|
    requires AllTimestamps(local, remote)[i] in SharedKeys(local, remote)
    ensures var k := AllTimestamps(local, remote)[i];
      var l, r := LocalMap(local)[k], RemoteMap(remote)[k];
      var e := MergedSessions(local, remote, userId)[i];
      && l in local && l.completionTimestamp == k && r in remote && r.completionTimestamp.seconds * 1000 == k
      && e.workDuration == (if l.workDuration >= r.workDuration then l.workDuration else r.workDuration)
      && e == (if l.workDuration >= r.workDuration then l else Session(0, userId, k, r.workDuration, r.status))
  {
    AssociateBySpec(local, LocalKey);
    AssociateBySpec(remote, RemoteKey);
    AllTimestampsSpec(local, remote);
    MergedKeys(local, remote, userId);
  }

  /**
   * A key only the local side carries contributes the local session
   * unchanged, id included: the last one in the list with that completion time.
   */
  lemma {:induction false} LocalOnlyKeyUnchanged(local: seq<Session>, remote: seq<RemoteSession>, userId: string, i: nat)
    requires i < |AllTimestamps(local, remote)|
    requires AllTimestamps(local, remote)[i] !in RemoteMap(remote)
    ensures var k := AllTimestamps(local, remote)[i];
      var e := MergedSessions(local, remote, userId)[i];
      exists j :: 0 <= j < |local| && e == local[j] && local[j].completionTimestamp == k
        && forall j' :: j < j' < |local| ==> local[j'].completionTimestamp != k
  {
    AssociateBySpec(local, LocalKey);
    AllTimestampsSpec(local, remote);
    MergedKeys(local, remote, userId);
    var k := AllTimestamps(local, remote)[i];
    LastIndexSpec(local, k);
    var j := |local| - 1 - LastIndexFromEnd(local, k);
    assert MergedSessions(local, remote, userId)[i] == local[j];
  }

  /** Distance from the end of the last session with completion time `k`. */
  function LastIndexFromEnd(local: seq<Session>, k: int): nat
    decreases |local|
  {
    if local == [] || local[|local| - 1].completionTimestamp == k then 0
    else 1 + LastIndexFromEnd(local[..|local| - 1], k)
  }

  lemma {:induction false} LastIndexSpec(local: seq<Session>, k: int)
    requires k in LocalMap(local)
    ensures LastIndexFromEnd(local, k) < |local|
    ensures var i := |local| - 1 - LastIndexFromEnd(local, k);
      && local[i].completionTimestamp == k
      && LocalMap(local)[k] == local[i]
      && forall j :: i < j < |local| ==> local[j].completionTimestamp != k
    decreases |local|
  {
    var n := |local|;
    var init := local[..n - 1];
    assert LocalMap(local) == LocalMap(init)[LocalKey(local[n - 1])  := local[n - 1]];
    if local[n - 1].completionTimestamp != k {
      assert k in LocalMap(init);
      LastIndexSpec(init, k);
      var i := |init| - 1 - LastIndexFromEnd(init, k);
      assert forall j :: i < j < |init| ==> init[j] == local[j];
    }
  }

  /** A key only the remote side carries contributes a fresh row owned by `userId` with the remote duration and status. */
  lemma {:induction false} RemoteOnlyKeyCopied(local: seq<Session>, remote: seq<RemoteSession>, userId: string, i: nat)
    requires i < |AllTimestamps(local, remote)|
    requires AllTimestamps(local, remote)[i] !in LocalMap(local)
    ensures AllTimestamps(local, remote)[i] in RemoteMap(remote)
    ensures var k := AllTimestamps(local, remote)[i];
      var r := RemoteMap(remote)[k];
      var e := MergedSessions(local, remote, userId)[i];
      && r in remote && r.completionTimestamp.seconds * 1000 == k
      && e == Session(0, userId, k, r.workDuration, r.status)
  {
    AssociateBySpec(remote, RemoteKey);
    AllTimestampsSpec(local, remote);
    MergedKeys(local, remote, userId);
  }
}
