/** Durable jobs: the record, what each job operation does to one record, and the dictionary
    repository that applies those operations in place. */
module Jobs {
  import opened Common
  import Plans

  datatype JobType = ScanJob | RemediationJob | SnapshotDeleteJob

  datatype JobStatus = Queued | Scheduled | Running | Completed | Failed | Canceled

  datatype Phase =
    | StateDriftCheck
    | SnapshotCreate
    | AnsibleExecution
    | PostRebootHealthCheck
    | SnapshotRollback
    | RetryScheduled
    | DonePhase
    | FailedPhase
    | OtherPhase(name: string)

  datatype FailureCategory = WorkerLeaseExpired | OtherCategory(name: string)

  datatype JobFailure = JobFailure(failedAt: Time, attempt: int, category: FailureCategory, message: string,
                                   retryable: bool)

  /** The result dictionary, with the one key the lease protocol reads kept apart. A missing key and
      a null value are both `None`: every reader of the source treats them alike. */
  datatype JobResult = JobResult(recoveredFromPhase: Option<Phase>, entries: map<string, string>)

  datatype IdempotencyKey = RemediationKey(remediation: Id, hash: Plans.PlanHash) | OtherKey(text: string)

  datatype DurableJob = DurableJob(
    id: Id,
    jobType: JobType,
    status: JobStatus,
    hostId: Option<Id>,
    scanId: Option<Id>,
    remediationId: Option<Id>,
    campaignId: Option<Id>,
    approvedPlanVersion: Option<int>,
    approvedPlanHash: Option<Plans.PlanHash>,
    approvalScope: Option<Plans.ApprovalScope>,
    idempotencyKey: IdempotencyKey,
    progressPercent: int,
    currentPhase: Option<Phase>,
    attempts: int,
    maxAttempts: int,
    leaseOwner: Option<Id>,
    leaseExpiresAt: Option<Time>,
    heartbeatAt: Option<Time>,
    lastFailure: Option<JobFailure>,
    error: Option<string>,
    result: JobResult,
    createdAt: Time,
    startedAt: Option<Time>,
    completedAt: Option<Time>,
    updatedAt: Time)

  const LEASE_EXPIRED_MESSAGE := "Worker lease expired before the job completed"
  const EXHAUSTED_MESSAGE := "Job retry attempts were exhausted"

  // ---------------------------------------------------------------- one record

  function LaterDatetime(first: Option<Time>, second: Option<Time>): Option<Time> {
    if first.None? then second
    else if second.None? then first
    else if first.value >= second.value then first else second
  }

  predicate LeaseIsExpired(lease: Option<Time>, current: Time) {
    lease.None? || lease.value <= current
  }

  function LeaseExpirationFailure(job: DurableJob, failedAt: Time): JobFailure {
    JobFailure(failedAt, job.attempts, WorkerLeaseExpired, LEASE_EXPIRED_MESSAGE, job.attempts < job.maxAttempts)
  }

  predicate Terminal(status: JobStatus) {
    status.Completed? || status.Failed? || status.Canceled?
  }

  /** A running record whose lease has run out by `current`. */
  predicate Stale(job: DurableJob, current: Time) {
    job.status.Running? && LeaseIsExpired(job.leaseExpiresAt, current)
  }

  function Terminalized(job: DurableJob, failedAt: Time): DurableJob {
    job.(status := Failed,
         error := Some(Clip(if job.lastFailure.Some? then job.lastFailure.value.message else EXHAUSTED_MESSAGE, 2000)),
         currentPhase := Some(FailedPhase),
         completedAt := Some(failedAt),
         leaseOwner := None,
         leaseExpiresAt := None,
         updatedAt := failedAt,
         lastFailure := if job.lastFailure.Some? then Some(job.lastFailure.value.(retryable := false)) else None)
  }

  function Claimed(job: DurableJob, owner: Id, startedAt: Time, lease: Time): DurableJob {
    job.(lastFailure := if Stale(job, startedAt) then Some(LeaseExpirationFailure(job, startedAt)) else job.lastFailure,
         status := Running,
         startedAt := if job.startedAt.Some? then job.startedAt else Some(startedAt),
         attempts := job.attempts + 1,
         leaseOwner := Some(owner),
         leaseExpiresAt := Some(lease),
         heartbeatAt := Some(startedAt),
         completedAt := None,
         error := None,
         updatedAt := startedAt)
  }

  function Swept(job: DurableJob, recoveredAt: Time): DurableJob {
    var freed := job.(
      lastFailure := Some(LeaseExpirationFailure(job, recoveredAt)),
      leaseOwner := None,
      leaseExpiresAt := None,
      updatedAt := recoveredAt,
      result := job.result.(recoveredFromPhase := job.currentPhase));
    if job.attempts >= job.maxAttempts then Terminalized(freed, recoveredAt)
    else freed.(status := Queued, currentPhase := Some(RetryScheduled))
  }

  function CanceledAt(job: DurableJob, canceledAt: Time, phase: Phase): DurableJob {
    job.(status := Canceled, currentPhase := Some(phase), completedAt := Some(canceledAt), updatedAt := canceledAt,
         leaseOwner := None, leaseExpiresAt := None)
  }

  /** A running copy takes over whatever a concurrent heartbeat has stored since. */
  function MergedLease(job: DurableJob, current: DurableJob): DurableJob {
    if job.status.Running? then
      job.(heartbeatAt := LaterDatetime(job.heartbeatAt, current.heartbeatAt),
           leaseExpiresAt := LaterDatetime(job.leaseExpiresAt, current.leaseExpiresAt))
    else job
  }

  // ---------------------------------------------------------------- the whole store

  type Store = map<Id, DurableJob>

  ghost predicate WellKeyed(store: Store) {
    forall id :: id in store ==> store[id].id == id
  }

  predicate HoldsLease(store: Store, id: Id, owner: Id, at: Time) {
    && id in store
    && store[id].leaseOwner == Some(owner)
    && store[id].status.Running?
    && !LeaseIsExpired(store[id].leaseExpiresAt, at)
  }

  function SaveReply(store: Store, job: DurableJob, owner: Option<Id>): Option<DurableJob> {
    if owner.None? then Some(job)
    else if HoldsLease(store, job.id, owner.value, job.updatedAt) then Some(MergedLease(job, store[job.id]))
    else None
  }

  function SaveStore(store: Store, job: DurableJob, owner: Option<Id>): Store {
    var reply := SaveReply(store, job, owner);
    if reply.Some? then store[job.id := reply.value] else store
  }

  predicate Claimable(job: DurableJob, startedAt: Time) {
    (job.status.Queued? || Stale(job, startedAt)) && job.attempts < job.maxAttempts
  }

  function ClaimReply(store: Store, id: Id, owner: Id, startedAt: Time, lease: Time): Option<DurableJob> {
    if id in store && Claimable(store[id], startedAt) then Some(Claimed(store[id], owner, startedAt, lease)) else None
  }

  function ClaimStore(store: Store, id: Id, owner: Id, startedAt: Time, lease: Time): Store {
    if id !in store || !(store[id].status.Queued? || Stale(store[id], startedAt)) then store
    else if store[id].attempts >= store[id].maxAttempts then store[id := Terminalized(store[id], startedAt)]
    else store[id := Claimed(store[id], owner, startedAt, lease)]
  }

  function HeartbeatReply(store: Store, id: Id, owner: Id, at: Time, lease: Time): Option<DurableJob> {
    if HoldsLease(store, id, owner, at)
    then Some(store[id].(heartbeatAt := Some(at), leaseExpiresAt := Some(lease), updatedAt := at))
    else None
  }

  function HeartbeatStore(store: Store, id: Id, owner: Id, at: Time, lease: Time): Store {
    var reply := HeartbeatReply(store, id, owner, at, lease);
    if reply.Some? then store[id := reply.value] else store
  }

  function CancelReply(store: Store, id: Id, at: Time, allowed: set<JobStatus>, phase: Phase): Option<DurableJob> {
    if id !in store then None
    else if store[id].status in allowed then Some(CanceledAt(store[id], at, phase))
    else Some(store[id])
  }

  function CancelStore(store: Store, id: Id, at: Time, allowed: set<JobStatus>, phase: Phase): Store {
    var reply := CancelReply(store, id, at, allowed, phase);
    if reply.Some? then store[id := reply.value] else store
  }

  function SweepStore(store: Store, at: Time): Store {
    map id | id in store :: if Stale(store[id], at) then Swept(store[id], at) else store[id]
  }

  /** `jobs` is exactly what the sweep makes of the stale records that satisfy `exhausted`, each once. */
  ghost predicate SweptOnly(store: Store, at: Time, exhausted: bool, jobs: seq<DurableJob>) {
    && (forall job :: job in jobs <==>
         && job.id in store
         && Stale(store[job.id], at)
         && (store[job.id].attempts >= store[job.id].maxAttempts) == exhausted
         && job == Swept(store[job.id], at))
    && (forall i, j :: 0 <= i < j < |jobs| ==> jobs[i].id != jobs[j].id)
  }

  /** The sweep splits the stale records in two: what it hands back for another attempt is queued and
      has attempts left, what it hands back as exhausted has failed, no record is in both lists, and
      every stale record is in one of them. */
  lemma SweepPartition(store: Store, at: Time, recovered: seq<DurableJob>, exhausted: seq<DurableJob>)
    requires WellKeyed(store)
    requires SweptOnly(store, at, false, recovered) && SweptOnly(store, at, true, exhausted)
    ensures (set job | job in recovered :: job.id) !! (set job | job in exhausted :: job.id)
    ensures (set job | job in recovered :: job.id) + (set job | job in exhausted :: job.id)
         == (set id | id in store && Stale(store[id], at))
    ensures forall job :: job in recovered ==>
      job.status.Queued? && job.attempts < job.maxAttempts && SweepStore(store, at)[job.id] == job
    ensures forall job :: job in exhausted ==> job.status.Failed? && SweepStore(store, at)[job.id] == job
    ensures forall id :: id in store && !Stale(store[id], at) ==> SweepStore(store, at)[id] == store[id]
  {
    forall id | id in store && Stale(store[id], at)
      ensures id in (set job | job in recovered :: job.id) || id in (set job | job in exhausted :: job.id)
    {
      var job := Swept(store[id], at);
      assert job.id == id;
      assert job in recovered || job in exhausted;
    }
  }

  /** What a sweep that visits `ids` in that order appends to one of its two lists. */
  ghost function SweptList(store: Store, ids: seq<Id>, at: Time, exhausted: bool): seq<DurableJob> {
    if ids == [] then []
    else
      var id := ids[|ids| - 1];
      SweptList(store, ids[..|ids| - 1], at, exhausted)
      + (if id in store && Stale(store[id], at) && (store[id].attempts >= store[id].maxAttempts) == exhausted
         then [Swept(store[id], at)] else [])
  }

  lemma {:induction false} SweptListMembers(store: Store, ids: seq<Id>, at: Time, exhausted: bool)
    requires WellKeyed(store) && Distinct(ids)
    ensures var jobs := SweptList(store, ids, at, exhausted);
      && (forall job :: job in jobs <==>
           && job.id in ids && job.id in store && Stale(store[job.id], at)
           && (store[job.id].attempts >= store[job.id].maxAttempts) == exhausted
           && job == Swept(store[job.id], at))
      && (forall i, j :: 0 <= i < j < |jobs| ==> jobs[i].id != jobs[j].id)
  {
    if ids != [] {
      var front, id := ids[..|ids| - 1], ids[|ids| - 1];
      assert ids == front + [id];
      SweptListMembers(store, front, at, exhausted);
    }
  }

  /** Any visiting order that covers the stale records yields a proper sweep result. */
  lemma SweptListOnly(store: Store, ids: seq<Id>, at: Time, exhausted: bool)
    requires WellKeyed(store) && Distinct(ids)
    requires forall id :: id in store && Stale(store[id], at) ==> id in ids
    ensures SweptOnly(store, at, exhausted, SweptList(store, ids, at, exhausted))
  {
    SweptListMembers(store, ids, at, exhausted);
  }

  /** The store once the sweep has visited the ids in `done`. */
  ghost function SweptSoFar(store: Store, done: set<Id>, at: Time): Store {
    map id | id in store :: if id in done && Stale(store[id], at) then Swept(store[id], at) else store[id]
  }

  /** The state of a sweep that has visited the first ids of `ids`: the store and both lists. */
  ghost predicate SweepProgress(
    store: Store, ids: seq<Id>, n: nat, at: Time, now: Store, recovered: seq<DurableJob>, exhausted: seq<DurableJob>)
    requires n <= |ids|
  {
    && now == SweptSoFar(store, Elements(ids[..n]), at)
    && recovered == SweptList(store, ids[..n], at, false)
    && exhausted == SweptList(store, ids[..n], at, true)
  }

  lemma SweptSoFarNext(store: Store, ids: seq<Id>, n: nat, at: Time)
    requires n < |ids| && Distinct(ids) && ids[n] in store
    ensures var now, next := SweptSoFar(store, Elements(ids[..n]), at), SweptSoFar(store, Elements(ids[..n + 1]), at);
      && now[ids[n]] == store[ids[n]]
      && next == if Stale(store[ids[n]], at) then now[ids[n] := Swept(store[ids[n]], at)] else now
  {
    assert Elements(ids[..n + 1]) == Elements(ids[..n]) + {ids[n]};
  }

  lemma SweptListNext(store: Store, ids: seq<Id>, n: nat, at: Time, exhausted: bool)
    requires n < |ids| && ids[n] in store
    ensures var now, next := SweptList(store, ids[..n], at, exhausted), SweptList(store, ids[..n + 1], at, exhausted);
      var job := Swept(store[ids[n]], at);
      next == if Stale(store[ids[n]], at) && job.status.Failed? == exhausted then now + [job] else now
  {
    assert ids[..n + 1][..n] == ids[..n];
  }

  lemma SweepProgressNext(
    store: Store, ids: seq<Id>, n: nat, at: Time, now: Store, recovered: seq<DurableJob>, exhausted: seq<DurableJob>)
    requires n < |ids| && Distinct(ids) && ids[n] in store
    requires SweepProgress(store, ids, n, at, now, recovered, exhausted)
    ensures ids[n] in now && now[ids[n]] == store[ids[n]]
    ensures var job := Swept(store[ids[n]], at);
      if !Stale(store[ids[n]], at) then SweepProgress(store, ids, n + 1, at, now, recovered, exhausted)
      else if job.status.Failed?
        then SweepProgress(store, ids, n + 1, at, now[ids[n] := job], recovered, exhausted + [job])
      else SweepProgress(store, ids, n + 1, at, now[ids[n] := job], recovered + [job], exhausted)
  {
    SweptSoFarNext(store, ids, n, at);
    SweptListNext(store, ids, n, at, false);
    SweptListNext(store, ids, n, at, true);
  }

  lemma SweepProgressDone(
    store: Store, ids: seq<Id>, at: Time, now: Store, recovered: seq<DurableJob>, exhausted: seq<DurableJob>)
    requires WellKeyed(store) && Distinct(ids) && (forall id :: id in store && Stale(store[id], at) ==> id in ids)
    requires SweepProgress(store, ids, |ids|, at, now, recovered, exhausted)
    ensures now == SweepStore(store, at)
    ensures SweptOnly(store, at, false, recovered) && SweptOnly(store, at, true, exhausted)
  {
    assert ids[..|ids|] == ids;
    SweptListOnly(store, ids, at, false);
    SweptListOnly(store, ids, at, true);
  }

  // ---------------------------------------------------------------- the dictionary repository

  /** The job part of the in-memory repository. `order` is the insertion order of the dictionary. */
  class InMemoryRepository {
    var jobs: Store
    var order: seq<Id>

    ghost predicate Valid()
      reads this
    {
      WellKeyed(jobs) && Distinct(order) && (forall id :: id in order <==> id in jobs)
    }

    constructor ()
      ensures Valid() && jobs == map[]
    {
      jobs := map[];
      order := [];
    }

    method Put(job: DurableJob)
      requires Valid()
      modifies this
      ensures Valid() && jobs == old(jobs)[job.id := job]
    {
      if job.id !in jobs {
        order := order + [job.id];
      }
      jobs := jobs[job.id := job];
    }

    method SaveJob(job: DurableJob, leaseOwner: Option<Id>) returns (saved: Option<DurableJob>)
      requires Valid()
      modifies this
      ensures Valid()
      ensures saved == SaveReply(old(jobs), job, leaseOwner)
      ensures jobs == SaveStore(old(jobs), job, leaseOwner)
    {
      var record := job;
      if leaseOwner.Some? {
        if job.id !in jobs {
          return None;
        }
        var current := jobs[job.id];
        if current.leaseOwner != leaseOwner
           || !current.status.Running?
           || LeaseIsExpired(current.leaseExpiresAt, job.updatedAt)
        {
          return None;
        }
        if record.status.Running? {
          record := record.(heartbeatAt := LaterDatetime(record.heartbeatAt, current.heartbeatAt));
          record := record.(leaseExpiresAt := LaterDatetime(record.leaseExpiresAt, current.leaseExpiresAt));
        }
      }
      Put(record);
      saved := Some(record);
    }

    method ClaimJob(jobId: Id, leaseOwner: Id, startedAt: Time, leaseExpiresAt: Time)
      returns (claimed: Option<DurableJob>)
      requires Valid()
      modifies this
      ensures Valid()
      ensures claimed == ClaimReply(old(jobs), jobId, leaseOwner, startedAt, leaseExpiresAt)
      ensures jobs == ClaimStore(old(jobs), jobId, leaseOwner, startedAt, leaseExpiresAt)
    {
      if jobId !in jobs {
        return None;
      }
      var job := jobs[jobId];
      var expired := job.status.Running? && LeaseIsExpired(job.leaseExpiresAt, startedAt);
      if !job.status.Queued? && !expired {
        return None;
      }
      if job.attempts >= job.maxAttempts {
        job := TerminalizeExhaustedJob(job, startedAt);
        Put(job);
        return None;
      }
      job := StartAttempt(job, leaseOwner, startedAt, leaseExpiresAt);
      Put(job);
      claimed := Some(job);
    }

    method HeartbeatJob(jobId: Id, leaseOwner: Id, heartbeatAt: Time, leaseExpiresAt: Time)
      returns (beaten: Option<DurableJob>)
      requires Valid()
      modifies this
      ensures Valid()
      ensures beaten == HeartbeatReply(old(jobs), jobId, leaseOwner, heartbeatAt, leaseExpiresAt)
      ensures jobs == HeartbeatStore(old(jobs), jobId, leaseOwner, heartbeatAt, leaseExpiresAt)
    {
      if jobId !in jobs
         || !jobs[jobId].status.Running?
         || jobs[jobId].leaseOwner != Some(leaseOwner)
         || LeaseIsExpired(jobs[jobId].leaseExpiresAt, heartbeatAt)
      {
        return None;
      }
      var job := jobs[jobId];
      job := job.(heartbeatAt := Some(heartbeatAt));
      job := job.(leaseExpiresAt := Some(leaseExpiresAt));
      job := job.(updatedAt := heartbeatAt);
      Put(job);
      beaten := Some(job);
    }

    method CancelJob(jobId: Id, canceledAt: Time, allowed: set<JobStatus>, phase: Phase)
      returns (seen: Option<DurableJob>)
      requires Valid()
      modifies this
      ensures Valid()
      ensures seen == CancelReply(old(jobs), jobId, canceledAt, allowed, phase)
      ensures jobs == CancelStore(old(jobs), jobId, canceledAt, allowed, phase)
    {
      if jobId !in jobs {
        return None;
      }
      var job := jobs[jobId];
      if job.status in allowed {
        job := job.(status := Canceled, currentPhase := Some(phase));
        job := job.(completedAt := Some(canceledAt), updatedAt := canceledAt);
        job := job.(leaseOwner := None, leaseExpiresAt := None);
        Put(job);
      }
      seen := Some(job);
    }

    method RecoverExpiredJobs(recoveredAt: Time) returns (recovered: seq<DurableJob>, exhausted: seq<DurableJob>)
      requires Valid()
      modifies this
      ensures Valid()
      ensures jobs == SweepStore(old(jobs), recoveredAt)
      ensures SweptOnly(old(jobs), recoveredAt, false, recovered)
      ensures SweptOnly(old(jobs), recoveredAt, true, exhausted)
    {
      recovered, exhausted := [], [];
      ghost var before := jobs;
      var stored := order;
      for i := 0 to |stored|
        invariant order == stored == old(order)
        invariant SweepProgress(before, stored, i, recoveredAt, jobs, recovered, exhausted)
      {
        var id := stored[i];
        assert id in stored;
        SweepProgressNext(before, stored, i, recoveredAt, jobs, recovered, exhausted);
        if !jobs[id].status.Running? || !LeaseIsExpired(jobs[id].leaseExpiresAt, recoveredAt) {
          continue;
        }
        var job := RecoverStaleJob(jobs[id], recoveredAt);
        jobs := jobs[job.id := job];
        if job.status.Failed? {
          exhausted := exhausted + [job];
        } else {
          recovered := recovered + [job];
        }
      }
      SweepProgressDone(before, stored, recoveredAt, jobs, recovered, exhausted);
    }
  }

  /** The loop body of the sweep, for one stale record. */
  method RecoverStaleJob(stale: DurableJob, recoveredAt: Time) returns (job: DurableJob)
    ensures job == Swept(stale, recoveredAt)
  {
    job := stale.(lastFailure := Some(LeaseExpirationFailure(stale, recoveredAt)));
    job := job.(leaseOwner := None, leaseExpiresAt := None, updatedAt := recoveredAt);
    job := job.(result := job.result.(recoveredFromPhase := job.currentPhase));
    if job.attempts >= job.maxAttempts {
      job := TerminalizeExhaustedJob(job, recoveredAt);
    } else {
      job := job.(status := Queued);
      job := job.(currentPhase := Some(RetryScheduled));
    }
  }

  /** The tail of a claim, for one claimable record. */
  method StartAttempt(claimable: DurableJob, leaseOwner: Id, startedAt: Time, leaseExpiresAt: Time)
    returns (job: DurableJob)
    ensures job == Claimed(claimable, leaseOwner, startedAt, leaseExpiresAt)
  {
    job := claimable;
    if job.status.Running? && LeaseIsExpired(job.leaseExpiresAt, startedAt) {
      job := job.(lastFailure := Some(LeaseExpirationFailure(job, startedAt)));
    }
    job := job.(status := Running);
    if job.startedAt.None? {
      job := job.(startedAt := Some(startedAt));
    }
    job := job.(attempts := job.attempts + 1);
    job := job.(leaseOwner := Some(leaseOwner), leaseExpiresAt := Some(leaseExpiresAt), heartbeatAt := Some(startedAt));
    job := job.(completedAt := None, error := None, updatedAt := startedAt);
  }

  method TerminalizeExhaustedJob(job: DurableJob, failedAt: Time) returns (failed: DurableJob)
    ensures failed == Terminalized(job, failedAt)
  {
    var message := if job.lastFailure.Some? then job.lastFailure.value.message else EXHAUSTED_MESSAGE;
    failed := job.(status := Failed);
    failed := failed.(error := Some(Clip(message, 2000)));
    failed := failed.(currentPhase := Some(FailedPhase), completedAt := Some(failedAt));
    failed := failed.(leaseOwner := None, leaseExpiresAt := None, updatedAt := failedAt);
    if failed.lastFailure.Some? {
      failed := failed.(lastFailure := Some(failed.lastFailure.value.(retryable := false)));
    }
  }
}
