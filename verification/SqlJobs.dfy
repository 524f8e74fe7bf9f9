/** The SQL job store: a row has indexed columns and a payload, and the two may disagree. Read through
    `JobFromRow` it behaves like the dictionary repository, operation by operation and run by run. */
module SqlJobs {
  import opened Common
  import opened Jobs

  datatype JobRow = JobRow(
    id: Id,
    jobType: JobType,
    status: JobStatus,
    hostId: Option<Id>,
    idempotencyKey: IdempotencyKey,
    leaseOwner: Option<Id>,
    leaseExpiresAt: Option<Time>,
    heartbeatAt: Option<Time>,
    attempts: int,
    lastFailure: Option<JobFailure>,
    payload: DurableJob,
    createdAt: Time,
    updatedAt: Time)

  type Rows = map<Id, JobRow>

  function JobFromRow(row: JobRow): DurableJob {
    row.payload.(id := row.id, jobType := row.jobType, status := row.status, hostId := row.hostId,
                 idempotencyKey := row.idempotencyKey, leaseOwner := row.leaseOwner,
                 leaseExpiresAt := row.leaseExpiresAt, heartbeatAt := row.heartbeatAt, attempts := row.attempts,
                 lastFailure := row.lastFailure, createdAt := row.createdAt, updatedAt := row.updatedAt)
  }

  function JobValues(job: DurableJob): JobRow {
    JobRow(job.id, job.jobType, job.status, job.hostId, job.idempotencyKey, job.leaseOwner, job.leaseExpiresAt,
           job.heartbeatAt, job.attempts, job.lastFailure, job, job.createdAt, job.updatedAt)
  }

  /** What the rows mean as a dictionary of jobs. */
  function Abs(rows: Rows): Store {
    map id | id in rows :: JobFromRow(rows[id])
  }

  /** Another row already owns the idempotency key of `job`. */
  predicate KeyClash(rows: Rows, job: DurableJob) {
    exists id :: id in rows && id != job.id && rows[id].idempotencyKey == job.idempotencyKey
  }

  /** Writing a job and reading it back through the columns gives that job, and touches no other. */
  lemma WriteRow(rows: Rows, job: DurableJob)
    ensures Abs(rows[job.id := JobValues(job)]) == Abs(rows)[job.id := job]
  {
    assert JobFromRow(JobValues(job)) == job;
  }

  class SqlRepository {
    var rows: Rows

    /** Primary keys and the unique constraint on idempotency keys. */
    ghost predicate Valid()
      reads this
    {
      && (forall id :: id in rows ==> rows[id].id == id)
      && (forall a, b :: a in rows && b in rows && a != b ==> rows[a].idempotencyKey != rows[b].idempotencyKey)
    }

    constructor ()
      ensures Valid() && Abs(rows) == map[]
    {
      rows := map[];
    }

    method Write(job: DurableJob)
      requires Valid() && !KeyClash(rows, job)
      modifies this
      ensures Valid() && Abs(rows) == old(Abs(rows))[job.id := job]
    {
      WriteRow(rows, job);
      rows := rows[job.id := JobValues(job)];
    }

    /** `duplicate` is the integrity error of the unique constraint; the transaction is rolled back. */
    method SaveJob(job: DurableJob, leaseOwner: Option<Id>) returns (saved: Option<DurableJob>, duplicate: bool)
      requires Valid()
      modifies this
      ensures Valid()
      ensures duplicate <==> SaveReply(old(Abs(rows)), job, leaseOwner).Some? && KeyClash(old(rows), job)
      ensures !duplicate ==> saved == SaveReply(old(Abs(rows)), job, leaseOwner)
      ensures !duplicate ==> Abs(rows) == SaveStore(old(Abs(rows)), job, leaseOwner)
      ensures duplicate ==> rows == old(rows)
    {
      var record := job;
      duplicate := false;
      if leaseOwner.Some? {
        if job.id !in rows {
          return None, false;
        }
        var row := rows[job.id];
        if row.leaseOwner != leaseOwner || !row.status.Running? || LeaseIsExpired(row.leaseExpiresAt, job.updatedAt) {
          return None, false;
        }
        if record.status.Running? {
          record := record.(heartbeatAt := LaterDatetime(record.heartbeatAt, row.heartbeatAt));
          record := record.(leaseExpiresAt := LaterDatetime(record.leaseExpiresAt, row.leaseExpiresAt));
        }
      }
      if KeyClash(rows, record) {
        return None, true;
      }
      Write(record);
      saved := Some(record);
    }

    method ClaimJob(jobId: Id, leaseOwner: Id, startedAt: Time, leaseExpiresAt: Time)
      returns (claimed: Option<DurableJob>)
      requires Valid()
      modifies this
      ensures Valid()
      ensures claimed == ClaimReply(old(Abs(rows)), jobId, leaseOwner, startedAt, leaseExpiresAt)
      ensures Abs(rows) == ClaimStore(old(Abs(rows)), jobId, leaseOwner, startedAt, leaseExpiresAt)
    {
      if jobId !in rows {
        return None;
      }
      var row := rows[jobId];
      var job := JobFromRow(row);
      var expired := row.status.Running? && LeaseIsExpired(row.leaseExpiresAt, startedAt);
      if !row.status.Queued? && !expired {
        return None;
      }
      if row.attempts >= job.maxAttempts {
        job := TerminalizeExhaustedJob(job, startedAt);
        Write(job);
        return None;
      }
      job := StartAttempt(job, leaseOwner, startedAt, leaseExpiresAt);
      Write(job);
      claimed := Some(job);
    }

    method HeartbeatJob(jobId: Id, leaseOwner: Id, heartbeatAt: Time, leaseExpiresAt: Time)
      returns (beaten: Option<DurableJob>)
      requires Valid()
      modifies this
      ensures Valid()
      ensures beaten == HeartbeatReply(old(Abs(rows)), jobId, leaseOwner, heartbeatAt, leaseExpiresAt)
      ensures Abs(rows) == HeartbeatStore(old(Abs(rows)), jobId, leaseOwner, heartbeatAt, leaseExpiresAt)
    {
      if jobId !in rows
         || !rows[jobId].status.Running?
         || rows[jobId].leaseOwner != Some(leaseOwner)
         || LeaseIsExpired(rows[jobId].leaseExpiresAt, heartbeatAt)
      {
        return None;
      }
      var job := JobFromRow(rows[jobId]);
      job := job.(heartbeatAt := Some(heartbeatAt));
      job := job.(leaseExpiresAt := Some(leaseExpiresAt));
      job := job.(updatedAt := heartbeatAt);
      Write(job);
      beaten := Some(job);
    }

    method CancelJob(jobId: Id, canceledAt: Time, allowed: set<JobStatus>, phase: Phase)
      returns (seen: Option<DurableJob>)
      requires Valid()
      modifies this
      ensures Valid()
      ensures seen == CancelReply(old(Abs(rows)), jobId, canceledAt, allowed, phase)
      ensures Abs(rows) == CancelStore(old(Abs(rows)), jobId, canceledAt, allowed, phase)
    {
      if jobId !in rows {
        return None;
      }
      var row := rows[jobId];
      var job := JobFromRow(row);
      if row.status in allowed {
        job := job.(status := Canceled, currentPhase := Some(phase));
        job := job.(completedAt := Some(canceledAt), updatedAt := canceledAt);
        job := job.(leaseOwner := None, leaseExpiresAt := None);
        Write(job);
      }
      seen := Some(job);
    }

    /** The rows the SELECT of the sweep returns, in whatever order the database picks. */
    method SelectStale(recoveredAt: Time) returns (ids: seq<Id>)
      requires Valid()
      ensures Distinct(ids)
      ensures forall id :: id in ids <==> id in rows && Stale(Abs(rows)[id], recoveredAt)
    {
      ids := [];
      var pending := set id | id in rows && rows[id].status.Running?
                                && (rows[id].leaseExpiresAt.None? || rows[id].leaseExpiresAt.value <= recoveredAt);
      while pending != {}
        invariant Distinct(ids)
        invariant pending !! Elements(ids)
        invariant forall id :: id in ids || id in pending <==> id in rows && Stale(Abs(rows)[id], recoveredAt)
        decreases pending
      {
        var id :| id in pending;
        pending := pending - {id};
        ids := ids + [id];
      }
    }

    method RecoverExpiredJobs(recoveredAt: Time) returns (recovered: seq<DurableJob>, exhausted: seq<DurableJob>)
      requires Valid()
      modifies this
      ensures Valid()
      ensures Abs(rows) == SweepStore(old(Abs(rows)), recoveredAt)
      ensures SweptOnly(old(Abs(rows)), recoveredAt, false, recovered)
      ensures SweptOnly(old(Abs(rows)), recoveredAt, true, exhausted)
    {
      recovered, exhausted := [], [];
      ghost var before := Abs(rows);
      var ids := SelectStale(recoveredAt);
      for i := 0 to |ids|
        invariant Valid()
        invariant SweepProgress(before, ids, i, recoveredAt, Abs(rows), recovered, exhausted)
      {
        var id := ids[i];
        assert id in ids;
        SweepProgressNext(before, ids, i, recoveredAt, Abs(rows), recovered, exhausted);
        var job := RecoverStaleJob(JobFromRow(rows[id]), recoveredAt);
        Write(job);
        if job.status.Failed? {
          exhausted := exhausted + [job];
        } else {
          recovered := recovered + [job];
        }
      }
      SweepProgressDone(before, ids, recoveredAt, Abs(rows), recovered, exhausted);
    }
  }

  // ---------------------------------------------------------------- runs of both stores

  datatype Op =
    | SaveOp(job: DurableJob, owner: Option<Id>)
    | ClaimOp(id: Id, worker: Id, at: Time, lease: Time)
    | HeartbeatOp(id: Id, worker: Id, at: Time, lease: Time)
    | SweepOp(at: Time)
    | CancelOp(id: Id, at: Time, allowed: set<JobStatus>, phase: Phase)

  datatype Reply = JobReply(job: Option<DurableJob>) | SweepReply(recovered: set<DurableJob>,
                                                                  exhausted: set<DurableJob>)

  method RunInMemory(repository: InMemoryRepository, op: Op) returns (reply: Reply)
    requires repository.Valid()
    modifies repository
    ensures repository.Valid()
    ensures (reply, repository.jobs) == Expected(old(repository.jobs), op)
  {
    match op
    case SaveOp(job, owner) =>
      var saved := repository.SaveJob(job, owner);
      reply := JobReply(saved);
    case ClaimOp(id, worker, at, lease) =>
      var claimed := repository.ClaimJob(id, worker, at, lease);
      reply := JobReply(claimed);
    case HeartbeatOp(id, worker, at, lease) =>
      var beaten := repository.HeartbeatJob(id, worker, at, lease);
      reply := JobReply(beaten);
    case SweepOp(at) =>
      var recovered, exhausted := repository.RecoverExpiredJobs(at);
      SweptSet(old(repository.jobs), at, false, recovered);
      SweptSet(old(repository.jobs), at, true, exhausted);
      reply := SweepReply(Elements(recovered), Elements(exhausted));
    case CancelOp(id, at, allowed, phase) =>
      var seen := repository.CancelJob(id, at, allowed, phase);
      reply := JobReply(seen);
  }

  method RunSql(repository: SqlRepository, op: Op) returns (reply: Reply, duplicate: bool)
    requires repository.Valid()
    modifies repository
    ensures repository.Valid()
    ensures duplicate <==>
      && op.SaveOp? && SaveReply(old(Abs(repository.rows)), op.job, op.owner).Some?
      && KeyClash(old(repository.rows), op.job)
    ensures !duplicate ==> (reply, Abs(repository.rows)) == Expected(old(Abs(repository.rows)), op)
  {
    duplicate := false;
    match op
    case SaveOp(job, owner) =>
      var saved, clash := repository.SaveJob(job, owner);
      reply, duplicate := JobReply(saved), clash;
    case ClaimOp(id, worker, at, lease) =>
      var claimed := repository.ClaimJob(id, worker, at, lease);
      reply := JobReply(claimed);
    case HeartbeatOp(id, worker, at, lease) =>
      var beaten := repository.HeartbeatJob(id, worker, at, lease);
      reply := JobReply(beaten);
    case SweepOp(at) =>
      var recovered, exhausted := repository.RecoverExpiredJobs(at);
      SweptSet(old(Abs(repository.rows)), at, false, recovered);
      SweptSet(old(Abs(repository.rows)), at, true, exhausted);
      reply := SweepReply(Elements(recovered), Elements(exhausted));
    case CancelOp(id, at, allowed, phase) =>
      var seen := repository.CancelJob(id, at, allowed, phase);
      reply := JobReply(seen);
  }

  /** Reply and next dictionary of one operation. */
  ghost function Expected(store: Store, op: Op): (Reply, Store) {
    match op
    case SaveOp(job, owner) => (JobReply(SaveReply(store, job, owner)), SaveStore(store, job, owner))
    case ClaimOp(id, worker, at, lease) => (JobReply(ClaimReply(store, id, worker, at, lease)),
                                            ClaimStore(store, id, worker, at, lease))
    case HeartbeatOp(id, worker, at, lease) => (JobReply(HeartbeatReply(store, id, worker, at, lease)),
                                                HeartbeatStore(store, id, worker, at, lease))
    case SweepOp(at) => (SweepReply(SweptJobs(store, at, false), SweptJobs(store, at, true)), SweepStore(store, at))
    case CancelOp(id, at, allowed, phase) => (JobReply(CancelReply(store, id, at, allowed, phase)),
                                              CancelStore(store, id, at, allowed, phase))
  }

  ghost function SweptJobs(store: Store, at: Time, exhausted: bool): set<DurableJob> {
    set id | id in store && Stale(store[id], at) &&
      (store[id].attempts >= store[id].maxAttempts) == exhausted :: Swept(store[id], at)
  }

  lemma SweptSet(store: Store, at: Time, exhausted: bool, jobs: seq<DurableJob>)
    requires WellKeyed(store) && SweptOnly(store, at, exhausted, jobs)
    ensures Elements(jobs) == SweptJobs(store, at, exhausted)
  {
    forall job | job in SweptJobs(store, at, exhausted) ensures job in jobs {
      var id :| id in store && Stale(store[id], at) && (store[id].attempts >= store[id].maxAttempts) == exhausted &&
        job == Swept(store[id], at);
      assert job.id == id;
    }
  }

  /** Whole runs: both stores start with the same jobs, whatever the payloads of the rows say. They
      give the same replies and keep the same jobs for as long as no save runs into an idempotency key
      that another row owns; the first such save is where the run of the SQL store stops. */
  method RunBoth(memory: InMemoryRepository, sql: SqlRepository, ops: seq<Op>)
    returns (memoryReplies: seq<Reply>, sqlReplies: seq<Reply>, clash: bool)
    requires memory.Valid() && sql.Valid() && memory.jobs == Abs(sql.rows)
    modifies memory, sql
    ensures memoryReplies == sqlReplies && |sqlReplies| <= |ops|
    ensures if clash then |sqlReplies| < |ops| && ops[|sqlReplies|].SaveOp? && KeyClash(sql.rows, ops[|sqlReplies|].job)
            else |sqlReplies| == |ops|
    ensures memory.Valid() && sql.Valid() && memory.jobs == Abs(sql.rows)
  {
    memoryReplies, sqlReplies, clash := [], [], false;
    for i := 0 to |ops|
      invariant memory.Valid() && sql.Valid() && memory.jobs == Abs(sql.rows)
      invariant memoryReplies == sqlReplies && |sqlReplies| == i
    {
      if ops[i].SaveOp? && KeyClash(sql.rows, ops[i].job) {
        var unsaved, duplicate := sql.SaveJob(ops[i].job, ops[i].owner);
        if duplicate {
          clash := true;
          return;
        }
        var kept := memory.SaveJob(ops[i].job, ops[i].owner);
        memoryReplies, sqlReplies := memoryReplies + [JobReply(kept)], sqlReplies + [JobReply(unsaved)];
      } else {
        var expected := RunInMemory(memory, ops[i]);
        var actual, duplicate := RunSql(sql, ops[i]);
        memoryReplies, sqlReplies := memoryReplies + [expected], sqlReplies + [actual];
      }
    }
  }
}
