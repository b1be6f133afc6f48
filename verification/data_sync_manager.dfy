/**
 * DataSyncManager and FirestoreSyncWorker: the background sync jobs and the
 * status writes around a sync. WorkManager's queue is reduced to the list
 * of jobs not yet cancelled; jobs run when the caller runs them, one at a
 * time.
 */
module DataSync {
  import opened Common
  import opened Entities
  import opened LocalStore
  import opened RemoteStore
  import opened UserData

  const SYNC_WORKER_TAG := "firestore_sync_worker"
  const PENDING := "PENDING"
  const SYNC_IN_PROGRESS := "SYNC_IN_PROGRESS"

  /** The unique name, and the tag, of a user's periodic job: "firestore_sync_worker:<userId>". */
  function WorkName(userId: string): string
  {
    SYNC_WORKER_TAG + ":" + userId
  }

  /** The input data of a job: `userId` may be missing, `immediate` defaults to false. */
  datatype WorkInput = WorkInput(userId: Option<string>, immediate: bool)

  /** A job in the queue: its unique name if it has one, its tags and its input. */
  datatype WorkRequest = WorkRequest(id: nat, uniqueName: Option<string>, tags: set<string>, periodic: bool, input: WorkInput)

  /** Whether a worker run succeeded, failed for good, or asks to be retried. */
  datatype WorkResult = Success | Failure | Retry

  function NotNamed(name: string): WorkRequest -> bool { (w: WorkRequest) => w.uniqueName != Some(name) }
  function Named(name: string): WorkRequest -> bool { (w: WorkRequest) => w.uniqueName == Some(name) }
  function NotTagged(tag: string): WorkRequest -> bool { (w: WorkRequest) => tag !in w.tags }

  /** Every named job also carries its name as a tag, as the jobs this manager enqueues do. */
  predicate NamesAreTags(work: seq<WorkRequest>)
  {
    forall w :: w in work && w.uniqueName.Some? ==> w.uniqueName.value in w.tags
  }

  /** The periodic job of `schedulePeriodicDataSync`. */
  function PeriodicJob(userId: string, id: nat): WorkRequest
  {
    WorkRequest(id, Some(WorkName(userId)), {WorkName(userId)}, true, WorkInput(Some(userId), false))
  }

  /** The one-shot job of `syncDataImmediately`: no name, no tag. */
  function ImmediateJob(userId: string, id: nat): WorkRequest
  {
    WorkRequest(id, None, {}, false, WorkInput(Some(userId), true))
  }

  /** `enqueueUniquePeriodicWork` with REPLACE: the job under the same name is cancelled, the new one enqueued. */
  function Scheduled(work: seq<WorkRequest>, userId: string, id: nat): seq<WorkRequest>
  {
    Filter(work, NotNamed(WorkName(userId))) + [PeriodicJob(userId, id)]
  }

  /** `cancelAllWorkByTag`. */
  function CancelledByTag(work: seq<WorkRequest>, tag: string): seq<WorkRequest>
  {
    Filter(work, NotTagged(tag))
  }

  /**
   * Scheduling leaves exactly one job under the user's name, whatever was
   * queued before, and no job under another name is touched; so scheduling
   * twice still leaves one periodic job per user.
   */
  lemma {:induction false} ScheduledKeepsOneJob(work: seq<WorkRequest>, userId: string, id: nat)
    ensures Filter(Scheduled(work, userId, id), Named(WorkName(userId))) == [PeriodicJob(userId, id)]
    ensures forall w :: w in work && w.uniqueName != Some(WorkName(userId)) ==> w in Scheduled(work, userId, id)
    ensures forall w :: w in Scheduled(work, userId, id) ==> w in work || w == PeriodicJob(userId, id)
  {
    var name := WorkName(userId);
    var kept := Filter(work, NotNamed(name));
    FilterAppend(kept, [PeriodicJob(userId, id)], Named(name));
    FilterNone(kept, Named(name));
    assert [PeriodicJob(userId, id)][1..] == [];
  }

  /** Cancelling after scheduling is cancelling alone: the job scheduled, and any older one of the user, are gone. */
  lemma {:induction false} ScheduleThenCancel(work: seq<WorkRequest>, userId: string, id: nat)
    requires NamesAreTags(work)
    ensures CancelledByTag(Scheduled(work, userId, id), WorkName(userId)) == CancelledByTag(work, WorkName(userId))
  {
    var name := WorkName(userId);
    var job := PeriodicJob(userId, id);
    FilterAppend(Filter(work, NotNamed(name)), [job], NotTagged(name));
    assert [job][1..] == [];
    NamedFilterThenCancel(work, name);
  }

  lemma {:induction false} NamedFilterThenCancel(work: seq<WorkRequest>, name: string)
    requires NamesAreTags(work)
    ensures Filter(Filter(work, NotNamed(name)), NotTagged(name)) == Filter(work, NotTagged(name))
    decreases |work|
  {
    if work != [] {
      assert work[0] in work;
      assert NamesAreTags(work[1..]) by {
        forall w | w in work[1..] ensures w in work { }
      }
      NamedFilterThenCancel(work[1..], name);
      var rest := Filter(work[1..], NotNamed(name));
      var head := if NotTagged(name)(work[0]) then [work[0]] else [];
      assert Filter(work, NotTagged(name)) == head + Filter(work[1..], NotTagged(name));
      if NotNamed(name)(work[0]) {
        assert Filter(work, NotNamed(name)) == [work[0]] + rest;
        FilterAppend([work[0]], rest, NotTagged(name));
        assert [work[0]][1..] == [];
      } else {
        assert name in work[0].tags;
        assert Filter(work, NotNamed(name)) == rest;
        assert head == [];
      }
    }
  }

  /** A one-shot job carries no tag, so cancelling the user's sync keeps it queued. */
  lemma {:induction false} CancelKeepsImmediateJob(work: seq<WorkRequest>, userId: string, id: nat)
    ensures CancelledByTag(work + [ImmediateJob(userId, id)], WorkName(userId))
      == CancelledByTag(work, WorkName(userId)) + [ImmediateJob(userId, id)]
  {
    FilterAppend(work, [ImmediateJob(userId, id)], NotTagged(WorkName(userId)));
    assert [ImmediateJob(userId, id)][1..] == [];
  }

  /** What `getSyncStatus` answers for a status collection as read. */
  function SyncStatusReading(online: bool, syncStatus: map<string, SyncStatusDoc>, userId: string): string
  {
    if !online then "ERROR"
    else if userId in syncStatus then syncStatus[userId].lastSyncStatus
    else "UNKNOWN"
  }

  /** A status written online is the status read back, for that user and no other. */
  lemma {:induction false} StatusReadsBack(syncStatus: map<string, SyncStatusDoc>, userId: string, other: string,
                                           status: string, now: int)
    ensures SyncStatusReading(true, syncStatus[userId := SyncStatusDoc(userId, now, 0, status, 1)], userId) == status
    ensures other != userId ==>
      SyncStatusReading(true, syncStatus[userId := SyncStatusDoc(userId, now, 0, status, 1)], other)
        == SyncStatusReading(true, syncStatus, other)
  {
  }

  /**
   * `FirestoreSyncWorker.doWork`. The sync bodies are stubs that only wait;
   * `syncThrows` says whether the wait was interrupted, the one way the
   * body can throw. Without a user id nothing is written; otherwise
   * SYNC_IN_PROGRESS, then SUCCESS, or FAILED and a retry.
   */
  method DoWork(remote: FirestoreStore, input: WorkInput, syncThrows: bool, now: int) returns (result: WorkResult)
    modifies remote`syncStatus, remote`statusWrites
    ensures input.userId.None? ==>
      result == Failure && remote.statusWrites == old(remote.statusWrites) && remote.syncStatus == old(remote.syncStatus)
    ensures input.userId.Some? ==>
      var last := if syncThrows then FAILED else SUCCESS;
      && result == (if syncThrows then Retry else Success)
      && remote.statusWrites == old(remote.statusWrites)
           + [StatusWrite(input.userId.value, SYNC_IN_PROGRESS), StatusWrite(input.userId.value, last)]
      && remote.syncStatus == if remote.online then old(remote.syncStatus)[input.userId.value := SyncStatusDoc(input.userId.value, now, 0, last, 1)]
                              else old(remote.syncStatus)
  {
    if input.userId.None? {
      return Failure;
    }
    var userId := input.userId.value;
    var _ := remote.UpdateSyncStatus(userId, SYNC_IN_PROGRESS, now);
    if syncThrows {
      var _ := remote.UpdateSyncStatus(userId, FAILED, now);
      return Retry;
    }
    var _ := remote.UpdateSyncStatus(userId, SUCCESS, now);
    result := Success;
  }

  /** A run never reports success after writing FAILED, and reads back SUCCESS online exactly when it succeeded. */
  lemma {:induction false} DoWorkOutcome(online: bool, syncStatus: map<string, SyncStatusDoc>, userId: string, syncThrows: bool, now: int)
    requires online
    ensures var last := if syncThrows then FAILED else SUCCESS;
      (SyncStatusReading(online, syncStatus[userId := SyncStatusDoc(userId, now, 0, last, 1)], userId) == SUCCESS) <==> !syncThrows
  {
    StatusReadsBack(syncStatus, userId, userId, if syncThrows then FAILED else SUCCESS, now);
  }

  class DataSyncManager {
    const manager: UserDataManager
    /** The jobs WorkManager holds that are not cancelled. */
    var work: seq<WorkRequest>
    /** The id the next job gets. */
    var nextId: nat

    ghost predicate Valid()
      reads this`work, this`nextId
    {
      NamesAreTags(work) && forall w :: w in work ==> w.id < nextId
    }

    constructor (manager: UserDataManager)
      ensures Valid() && work == [] && this.manager == manager
    {
      this.manager := manager;
      work, nextId := [], 0;
    }

    /** `schedulePeriodicDataSync`: the user's unique periodic job, replacing any earlier one. */
    method SchedulePeriodicDataSync(userId: string)
      requires Valid()
      modifies this`work, this`nextId
      ensures Valid()
      ensures work == Scheduled(old(work), userId, old(nextId)) && nextId == old(nextId) + 1
    {
      ScheduledKeepsOneJob(work, userId, nextId);
      work := Scheduled(work, userId, nextId);
      nextId := nextId + 1;
    }

    /** `cancelDataSync`: every job tagged with the user's name. */
    method CancelDataSync(userId: string)
      requires Valid()
      modifies this`work
      ensures Valid()
      ensures work == CancelledByTag(old(work), WorkName(userId))
    {
      work := CancelledByTag(work, WorkName(userId));
    }

    /** `syncDataImmediately`: a one-shot job, with no name and no tag. */
    method SyncDataImmediately(userId: string)
      requires Valid()
      modifies this`work, this`nextId
      ensures Valid()
      ensures work == old(work) + [ImmediateJob(userId, old(nextId))] && nextId == old(nextId) + 1
    {
      work := work + [ImmediateJob(userId, nextId)];
      nextId := nextId + 1;
    }

    /** `getSyncStatus`: the stored status, "UNKNOWN" without a document, "ERROR" when the read fails. */
    method GetSyncStatus(userId: string) returns (status: string)
      ensures status == SyncStatusReading(manager.remote.online, manager.remote.syncStatus, userId)
    {
      var read := manager.remote.GetSyncStatus(userId);
      if read.None? {
        return "ERROR";
      }
      status := if read.value.Some? then read.value.value.lastSyncStatus else "UNKNOWN";
    }

    /**
     * `triggerImmediateSync`: PENDING, then the full sync, which ends with
     * its own SUCCESS or FAILED. The sync catches its own exceptions, so the
     * FAILED of the outer catch is never written here.
     */
    method TriggerImmediateSync(userId: string, now: int)
      requires manager.store.Valid()
      modifies manager.store`sessions, manager.store`sessionSeq, manager.remote`sessions, manager.remote`statistics,
               manager.remote`syncStatus, manager.remote`statusWrites
      ensures manager.store.Valid()
      ensures |manager.remote.statusWrites| == |old(manager.remote.statusWrites)| + 2
      ensures manager.remote.statusWrites[..|old(manager.remote.statusWrites)| + 1]
        == old(manager.remote.statusWrites) + [StatusWrite(userId, PENDING)]
      ensures manager.remote.statusWrites[|old(manager.remote.statusWrites)| + 1] in {StatusWrite(userId, SUCCESS), StatusWrite(userId, FAILED)}
    {
      var _ := manager.remote.UpdateSyncStatus(userId, PENDING, now);
      ghost var written := manager.remote.statusWrites;
      var _, _ := manager.SyncUserDataWithFirestore(userId, now);
      assert manager.remote.statusWrites[..|written|] == written;
    }
  }
}
