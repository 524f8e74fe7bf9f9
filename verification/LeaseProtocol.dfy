/** The lease protocol: one shared job store, one local record per claim, a clock that never runs
    backwards. Workers claim, heartbeat, edit their local record, write it back whole under the
    ownership check, and may stop at any point; a sweep recovers expired jobs. */
module LeaseProtocol {
  import opened Common
  import opened Jobs

  const STALE_UNCERTAIN_MESSAGE := "Worker lease expired after mutation may have started; automatic retry is blocked"
  const SAFETY_VALIDATION := "safety_validation"

  // ---------------------------------------------------------------- what the service does to a record

  /** The edits of a failing job: one more attempt if it is retryable and any are left, else the end. */
  function FailedJob(
    job: DurableJob, message: string, retryable: bool, category: FailureCategory, now: Time): DurableJob
  {
    var willRetry := retryable && job.attempts < job.maxAttempts;
    var freed := job.(
      lastFailure := Some(JobFailure(now, job.attempts, category, Clip(message, 2000), willRetry)),
      updatedAt := now,
      leaseOwner := None,
      leaseExpiresAt := None);
    if willRetry then freed.(status := Queued, error := None, currentPhase := Some(RetryScheduled), completedAt := None)
    else freed.(status := Failed, error := Some(Clip(message, 2000)), currentPhase := Some(FailedPhase),
                completedAt := Some(now))
  }

  datatype Edit =
    | Mark(phase: Phase, progress: int)
    | Complete(entries: map<string, string>)
    | Fail(message: string, retryable: bool, category: FailureCategory)

  function Edited(job: DurableJob, edit: Edit, now: Time): DurableJob {
    match edit
    case Mark(phase, progress) => job.(currentPhase := Some(phase), progressPercent := progress, updatedAt := now)
    case Complete(entries) =>
      job.(status := Completed, currentPhase := Some(DonePhase), progressPercent := 100,
           result := JobResult(None, entries),
           completedAt := Some(now), updatedAt := now, leaseOwner := None, leaseExpiresAt := None)
    case Fail(message, retryable, category) => FailedJob(job, message, retryable, category, now)
  }

  /** The unguarded read-then-save steps, each on a job nobody has leased. */
  datatype Unleased = Park | Release | CancelScheduled | FailScheduled(message: string, category: FailureCategory)

  predicate Applies(change: Unleased, job: DurableJob) {
    if change.Park? then job.status.Queued? else job.status.Scheduled?
  }

  function Changed(job: DurableJob, change: Unleased, now: Time): DurableJob {
    match change
    case Park => job.(status := Scheduled, currentPhase := Some(OtherPhase("waiting_for_maintenance_window")),
                      updatedAt := now)
    case Release => job.(status := Queued, currentPhase := None, updatedAt := now)
    case CancelScheduled => job.(status := Canceled, currentPhase := Some(OtherPhase("canceled")),
                                 completedAt := Some(now), updatedAt := now)
    case FailScheduled(message, category) => FailedJob(job, message, false, category, now)
  }

  /** The service sweep: the repository sweep, then the requeued jobs in `blocked` are failed at once. */
  function RecoveredJob(job: DurableJob, blocked: bool, now: Time): DurableJob {
    var swept := Swept(job, now);
    if swept.status.Queued? && blocked
    then FailedJob(swept, STALE_UNCERTAIN_MESSAGE, false, OtherCategory(SAFETY_VALIDATION), now)
    else swept
  }

  function RecoverStore(store: Store, blocked: set<Id>, now: Time): Store {
    map id | id in store :: if Stale(store[id], now) then RecoveredJob(store[id], id in blocked, now) else store[id]
  }

  /** The heartbeat interval: the configured one, but at most half a lease. */
  function HeartbeatSeconds(configured: int, leaseSeconds: int): int {
    Min(configured, Max(1, leaseSeconds / 2))
  }

  /** The heartbeat interval stays within half of every lease the configuration admits, and it is
      shorter than the lease exactly when the lease is not the degenerate one-second one. */
  lemma HeartbeatFitsLease(configured: int, leaseSeconds: int)
    requires configured >= 1 && leaseSeconds >= 1
    ensures leaseSeconds >= 2 ==> 2 * HeartbeatSeconds(configured, leaseSeconds) <= leaseSeconds
    ensures HeartbeatSeconds(configured, leaseSeconds) < leaseSeconds <==> leaseSeconds >= 2
  {
    if leaseSeconds >= 2 {
      assert leaseSeconds / 2 >= 1;
    }
  }

  // ---------------------------------------------------------------- worlds and steps

  datatype Claim = Claim(job: Id, owner: Id)

  datatype World = World(store: Store, copies: map<Id, DurableJob>, clock: Time, lease: nat, claims: seq<Claim>)

  datatype Step =
    | Tick(elapsed: nat)
    | Create(job: DurableJob)
    | ClaimBy(id: Id, owner: Id)
    | Beat(owner: Id)
    | EditCopy(owner: Id, edit: Edit)
    | SaveCopy(owner: Id)
    | Sweep(blocked: set<Id>)
    | CancelUnleased(id: Id, queuedOnly: bool, phase: Phase)
    | ChangeUnleased(id: Id, change: Unleased)

  predicate NewJob(job: DurableJob) {
    && (job.status.Queued? || job.status.Scheduled?)
    && job.attempts == 0 && job.maxAttempts >= 1
    && job.leaseOwner.None? && job.leaseExpiresAt.None?
  }

  /** One step; a step whose circumstances are not given changes nothing. A claim needs an owner id
      never used before, because every delivery draws a fresh one. */
  function Apply(w: World, step: Step): World {
    match step
    case Tick(elapsed) => w.(clock := w.clock + elapsed)
    case Create(job) =>
      if job.id in w.store || !NewJob(job) then w else w.(store := SaveStore(w.store, job, None))
    case ClaimBy(id, owner) =>
      if owner in w.copies then w
      else
        var reply := ClaimReply(w.store, id, owner, w.clock, w.clock + w.lease);
        var next := w.(store := ClaimStore(w.store, id, owner, w.clock, w.clock + w.lease));
        if reply.None? then next
        else next.(copies := w.copies[owner := reply.value], claims := w.claims + [Claim(id, owner)])
    case Beat(owner) =>
      if owner !in w.copies then w
      else w.(store := HeartbeatStore(w.store, w.copies[owner].id, owner, w.clock, w.clock + w.lease))
    case EditCopy(owner, edit) =>
      if owner !in w.copies then w
      else w.(copies := w.copies[owner := Edited(w.copies[owner], edit, w.clock)])
    case SaveCopy(owner) =>
      if owner !in w.copies then w
      else
        var reply := SaveReply(w.store, w.copies[owner], Some(owner));
        w.(store := SaveStore(w.store, w.copies[owner], Some(owner)),
           copies := if reply.Some? then w.copies[owner := reply.value] else w.copies)
    case Sweep(blocked) => w.(store := RecoverStore(w.store, blocked, w.clock))
    case CancelUnleased(id, queuedOnly, phase) =>
      w.(store := CancelStore(w.store, id, w.clock, if queuedOnly then {Queued} else {Queued, Scheduled}, phase))
    case ChangeUnleased(id, change) =>
      if id !in w.store || !Applies(change, w.store[id]) then w
      else w.(store := SaveStore(w.store, Changed(w.store[id], change, w.clock), None))
  }

  function Run(w: World, steps: seq<Step>): World
    decreases |steps|
  {
    if steps == [] then w else Run(Apply(w, steps[0]), steps[1..])
  }

  function Initial(lease: nat, clock: Time): World {
    World(map[], map[], clock, lease, [])
  }

  function ClaimCount(claims: seq<Claim>, id: Id): nat {
    if claims == [] then 0
    else ClaimCount(claims[..|claims| - 1], id) + (if claims[|claims| - 1].job == id then 1 else 0)
  }

  function LastClaimer(claims: seq<Claim>, id: Id): Option<Id> {
    if claims == [] then None
    else if claims[|claims| - 1].job == id then Some(claims[|claims| - 1].owner)
    else LastClaimer(claims[..|claims| - 1], id)
  }

  lemma LogGrows(claims: seq<Claim>, claim: Claim, id: Id)
    ensures ClaimCount(claims + [claim], id) == ClaimCount(claims, id) + (if claim.job == id then 1 else 0)
    ensures LastClaimer(claims + [claim], id) == if claim.job == id then Some(claim.owner) else LastClaimer(claims, id)
  {
    assert (claims + [claim])[..|claims|] == claims;
  }

  // ---------------------------------------------------------------- the invariant

  /** The fields no operation on an existing job may change. */
  predicate SameIdentity(a: DurableJob, b: DurableJob) {
    && a.id == b.id && a.jobType == b.jobType && a.hostId == b.hostId && a.scanId == b.scanId
    && a.remediationId == b.remediationId && a.campaignId == b.campaignId
    && a.approvedPlanVersion == b.approvedPlanVersion && a.approvedPlanHash == b.approvedPlanHash
    && a.approvalScope == b.approvalScope && a.idempotencyKey == b.idempotencyKey
    && a.maxAttempts == b.maxAttempts && a.createdAt == b.createdAt
  }

  ghost predicate LeaseShape(w: World, job: DurableJob) {
    && job.heartbeatAt.Some?
    && job.heartbeatAt.value <= w.clock
    && job.leaseExpiresAt == Some(job.heartbeatAt.value + w.lease)
  }

  /** A leased job belongs to its most recent claimer, whose local record agrees with the store on
      identity and attempts and is not ahead of it on the lease. */
  ghost predicate Held(w: World, job: DurableJob) {
    && LeaseShape(w, job)
    && job.leaseOwner.Some?
    && job.leaseOwner == LastClaimer(w.claims, job.id)
    && job.leaseOwner.value in w.copies
    && var copy := w.copies[job.leaseOwner.value];
       && SameIdentity(copy, job) && copy.attempts == job.attempts
       && (copy.status.Running? ==> copy.heartbeatAt.Some? && copy.heartbeatAt.value <= job.heartbeatAt.value)
  }

  ghost predicate JobOk(w: World, id: Id)
    requires id in w.store
  {
    var job := w.store[id];
    && job.id == id
    && 0 <= job.attempts <= job.maxAttempts
    && job.attempts == ClaimCount(w.claims, id)
    && (job.status.Queued? || job.status.Scheduled? ==> job.attempts < job.maxAttempts)
    && (if job.status.Running? then Held(w, job) else job.leaseOwner.None? && job.leaseExpiresAt.None?)
  }

  ghost predicate CopyOk(w: World, owner: Id)
    requires owner in w.copies
  {
    var copy := w.copies[owner];
    && copy.id in w.store
    && copy.updatedAt <= w.clock
    && (if copy.status.Running? then copy.leaseOwner == Some(owner) && LeaseShape(w, copy)
        else
          && copy.leaseOwner.None? && copy.leaseExpiresAt.None?
          && (copy.status.Completed? || copy.status.Failed? ||
              (copy.status.Queued? && copy.attempts < copy.maxAttempts)))
  }

  ghost predicate Inv(w: World) {
    && w.lease >= 1
    && (forall id :: id in w.store ==> JobOk(w, id))
    && (forall owner :: owner in w.copies ==> CopyOk(w, owner))
    && (forall id :: id !in w.store ==> ClaimCount(w.claims, id) == 0)
  }

  lemma InitialInv(lease: nat, clock: Time)
    requires lease >= 1
    ensures Inv(Initial(lease, clock))
  {
  }

  /** A step that touches one job, one local record and the log keeps the invariant if the two it
      touches are in order and the local record serves no other job. */
  lemma FrameKeepsInv(w: World, next: World, id: Id, owner: Id)
    requires Inv(w) && next.lease == w.lease && next.clock >= w.clock
    requires next.store == w.store || (id in next.store && next.store == w.store[id := next.store[id]])
    requires next.copies == w.copies || (owner in next.copies && next.copies == w.copies[owner := next.copies[owner]])
    requires next.claims == w.claims || (next.claims == w.claims + [Claim(id, owner)] && id in next.store)
    requires id in next.store ==> JobOk(next, id)
    requires owner in next.copies ==> CopyOk(next, owner)
    requires next.copies != w.copies ==>
      forall other :: other in w.store && other != id ==> w.store[other].leaseOwner != Some(owner)
    ensures Inv(next)
  {
    if next.claims != w.claims {
      forall other {
        LogGrows(w.claims, Claim(id, owner), other);
      }
    }
    forall other | other in next.store ensures JobOk(next, other) {
      assert other != id ==> JobOk(w, other);
    }
    forall o | o in next.copies ensures CopyOk(next, o) {
      assert o != owner ==> CopyOk(w, o);
    }
  }

  /** Replacing a job by a version nobody has leased. */
  lemma UnleasedKeepsInv(w: World, id: Id, job: DurableJob)
    requires Inv(w) && id in w.store
    requires
      && SameIdentity(job, w.store[id]) && job.attempts == w.store[id].attempts
      && !job.status.Running? && job.leaseOwner.None? && job.leaseExpiresAt.None?
      && (job.status.Queued? || job.status.Scheduled? ==> job.attempts < job.maxAttempts)
    ensures Inv(w.(store := w.store[id := job]))
  {
    assert JobOk(w, id);
    var owner := "";
    if owner in w.copies {
      assert CopyOk(w, owner);
    }
    FrameKeepsInv(w, w.(store := w.store[id := job]), id, owner);
  }

  lemma ClaimKeepsInv(w: World, id: Id, owner: Id)
    requires Inv(w)
    ensures Inv(Apply(w, ClaimBy(id, owner)))
  {
    hide Edited, RecoverStore, Changed, HeartbeatStore, SaveStore, SaveReply, CancelStore;
    if owner in w.copies || id !in w.store || !(w.store[id].status.Queued? || Stale(w.store[id], w.clock)) {
    } else {
      assert JobOk(w, id);
      if w.store[id].attempts < w.store[id].maxAttempts {
        GrantedKeepsInv(w, id, owner, Claimed(w.store[id], owner, w.clock, w.clock + w.lease));
      } else {
        UnleasedKeepsInv(w, id, Terminalized(w.store[id], w.clock));
      }
    }
  }

  /** A granted claim: the stored job and the new local record are the same running record. */
  lemma GrantedKeepsInv(w: World, id: Id, owner: Id, job: DurableJob)
    requires Inv(w) && id in w.store && owner !in w.copies && w.store[id].attempts < w.store[id].maxAttempts
    requires SameIdentity(job, w.store[id]) && job.attempts == w.store[id].attempts + 1
    requires job.status.Running? && job.leaseOwner == Some(owner) && job.updatedAt == w.clock
    requires job.heartbeatAt == Some(w.clock) && job.leaseExpiresAt == Some(w.clock + w.lease)
    ensures Inv(w.(store := w.store[id := job], copies := w.copies[owner := job],
                   claims := w.claims + [Claim(id, owner)]))
  {
    var next := w.(store := w.store[id := job], copies := w.copies[owner := job],
                   claims := w.claims + [Claim(id, owner)]);
    assert JobOk(w, id);
    LogGrows(w.claims, Claim(id, owner), id);
    forall other | other in w.store ensures w.store[other].leaseOwner != Some(owner) {
      assert JobOk(w, other);
    }
    FrameKeepsInv(w, next, id, owner);
  }

  /** No job but the one a local record is for is leased to its owner. */
  lemma ServesOneJob(w: World, owner: Id)
    requires Inv(w) && owner in w.copies
    ensures forall other :: other in w.store && other != w.copies[owner].id ==> w.store[other].leaseOwner != Some(owner)
  {
    forall other | other in w.store && other != w.copies[owner].id ensures w.store[other].leaseOwner != Some(owner) {
      assert JobOk(w, other);
    }
  }

  lemma SaveKeepsInv(w: World, owner: Id)
    requires Inv(w)
    ensures Inv(Apply(w, SaveCopy(owner)))
  {
    if owner in w.copies {
      var id := w.copies[owner].id;
      assert CopyOk(w, owner) && JobOk(w, id);
      ServesOneJob(w, owner);
      FrameKeepsInv(w, Apply(w, SaveCopy(owner)), id, owner);
    }
  }

  /** What an edit leaves of the fields the protocol cares about. */
  lemma EditedShape(copy: DurableJob, edit: Edit, now: Time)
    ensures var next := Edited(copy, edit, now);
      && SameIdentity(next, copy) && next.attempts == copy.attempts && next.heartbeatAt == copy.heartbeatAt
      && next.updatedAt == now
      && (edit.Mark? ==>
           && next.status == copy.status && next.leaseOwner == copy.leaseOwner
           && next.leaseExpiresAt == copy.leaseExpiresAt)
      && (!edit.Mark? ==> next.leaseOwner.None? && next.leaseExpiresAt.None?)
      && (edit.Complete? ==> next.status.Completed?)
      && (edit.Fail? ==> next.status.Failed? || (next.status.Queued? && copy.attempts < copy.maxAttempts))
  {
  }

  lemma CopyReplacedKeepsInv(w: World, owner: Id, next: DurableJob)
    requires Inv(w) && owner in w.copies
    requires var copy := w.copies[owner];
      && SameIdentity(next, copy) && next.attempts == copy.attempts && next.heartbeatAt == copy.heartbeatAt
      && next.updatedAt == w.clock
      && if next.status.Running?
        then next.leaseOwner == copy.leaseOwner && next.leaseExpiresAt == copy.leaseExpiresAt && copy.status.Running?
         else
           && next.leaseOwner.None? && next.leaseExpiresAt.None?
           && (next.status.Completed? || next.status.Failed? ||
               (next.status.Queued? && next.attempts < next.maxAttempts))
    ensures Inv(w.(copies := w.copies[owner := next]))
  {
    assert CopyOk(w, owner) && JobOk(w, next.id);
    ServesOneJob(w, owner);
    FrameKeepsInv(w, w.(copies := w.copies[owner := next]), next.id, owner);
  }

  lemma EditKeepsInv(w: World, owner: Id, edit: Edit)
    requires Inv(w)
    ensures Inv(Apply(w, EditCopy(owner, edit)))
  {
    if owner in w.copies {
      assert CopyOk(w, owner);
      EditedShape(w.copies[owner], edit, w.clock);
      CopyReplacedKeepsInv(w, owner, Edited(w.copies[owner], edit, w.clock));
    }
  }

  lemma BeatKeepsInv(w: World, owner: Id)
    requires Inv(w)
    ensures Inv(Apply(w, Beat(owner)))
  {
    if owner in w.copies {
      var id := w.copies[owner].id;
      assert CopyOk(w, owner) && JobOk(w, id);
      FrameKeepsInv(w, Apply(w, Beat(owner)), id, owner);
    }
  }

  /** What the service sweep leaves of one stale record. */
  lemma RecoveredShape(job: DurableJob, blocked: bool, now: Time)
    ensures var next := RecoveredJob(job, blocked, now);
      && SameIdentity(next, job) && next.attempts == job.attempts
      && next.leaseOwner.None? && next.leaseExpiresAt.None?
      && (if job.attempts < job.maxAttempts && !blocked then next.status.Queued? else next.status.Failed?)
  {
  }

  lemma SweepKeepsInv(w: World, blocked: set<Id>)
    requires Inv(w)
    ensures Inv(Apply(w, Sweep(blocked)))
  {
    var next := Apply(w, Sweep(blocked));
    forall id | id in next.store ensures JobOk(next, id) {
      assert JobOk(w, id);
      RecoveredShape(w.store[id], id in blocked, w.clock);
    }
    forall o | o in next.copies ensures CopyOk(next, o) {
      assert CopyOk(w, o);
    }
  }

  lemma CreateKeepsInv(w: World, job: DurableJob)
    requires Inv(w)
    ensures Inv(Apply(w, Create(job)))
  {
    if job.id !in w.store && NewJob(job) && "" in w.copies {
      assert CopyOk(w, "");
    }
    FrameKeepsInv(w, Apply(w, Create(job)), job.id, "");
  }

  lemma TickKeepsInv(w: World, elapsed: nat)
    requires Inv(w)
    ensures Inv(Apply(w, Tick(elapsed)))
  {
    var next := Apply(w, Tick(elapsed));
    forall id | id in next.store ensures JobOk(next, id) {
      assert JobOk(w, id);
    }
    forall o | o in next.copies ensures CopyOk(next, o) {
      assert CopyOk(w, o);
    }
  }

  lemma CancelKeepsInv(w: World, id: Id, queuedOnly: bool, phase: Phase)
    requires Inv(w)
    ensures Inv(Apply(w, CancelUnleased(id, queuedOnly, phase)))
  {
    var next := Apply(w, CancelUnleased(id, queuedOnly, phase));
    if id in w.store {
      var allowed := if queuedOnly then {Queued} else {Queued, Scheduled};
      if w.store[id].status in allowed {
        assert JobOk(w, id);
        UnleasedKeepsInv(w, id, CanceledAt(w.store[id], w.clock, phase));
      } else {
        assert w.store[id := w.store[id]] == w.store;
        assert next == w;
      }
    }
  }

  lemma ChangeKeepsInv(w: World, id: Id, change: Unleased)
    requires Inv(w)
    ensures Inv(Apply(w, ChangeUnleased(id, change)))
  {
    if id in w.store && Applies(change, w.store[id]) {
      assert JobOk(w, id);
      UnleasedKeepsInv(w, id, Changed(w.store[id], change, w.clock));
    }
  }

  lemma StepKeepsInv(w: World, step: Step)
    requires Inv(w)
    ensures Inv(Apply(w, step)) && Apply(w, step).lease == w.lease && Apply(w, step).clock >= w.clock
  {
    match step
    case ClaimBy(id, owner) => ClaimKeepsInv(w, id, owner);
    case Beat(owner) => BeatKeepsInv(w, owner);
    case EditCopy(owner, edit) => EditKeepsInv(w, owner, edit);
    case SaveCopy(owner) => SaveKeepsInv(w, owner);
    case Sweep(blocked) => SweepKeepsInv(w, blocked);
    case Tick(elapsed) => TickKeepsInv(w, elapsed);
    case Create(job) => CreateKeepsInv(w, job);
    case CancelUnleased(id, queuedOnly, phase) => CancelKeepsInv(w, id, queuedOnly, phase);
    case ChangeUnleased(id, change) => ChangeKeepsInv(w, id, change);
  }

  lemma {:induction false} RunKeepsInv(w: World, steps: seq<Step>)
    requires Inv(w)
    ensures Inv(Run(w, steps))
    decreases |steps|
  {
    if steps != [] {
      StepKeepsInv(w, steps[0]);
      RunKeepsInv(Apply(w, steps[0]), steps[1..]);
    }
  }

  lemma Keyed(w: World)
    requires Inv(w)
    ensures WellKeyed(w.store)
  {
    forall id | id in w.store ensures w.store[id].id == id {
      assert JobOk(w, id);
    }
  }

  /** How one step may change one stored job. */
  predicate JobMoves(w: World, step: Step, id: Id, next: DurableJob)
    requires id in w.store
  {
    var job := w.store[id];
    || next == job
    || match step
       case ClaimBy(i, owner) =>
         && i == id && owner !in w.copies
         && (if Claimable(job, w.clock) then next == Claimed(job, owner, w.clock, w.clock + w.lease)
             else (job.status.Queued? || Stale(job, w.clock)) && next == Terminalized(job, w.clock))
       case Beat(owner) =>
         && owner in w.copies && w.copies[owner].id == id && HoldsLease(w.store, id, owner, w.clock)
         && next == job.(heartbeatAt := Some(w.clock), leaseExpiresAt := Some(w.clock + w.lease), updatedAt := w.clock)
       case SaveCopy(owner) =>
         && owner in w.copies && w.copies[owner].id == id && HoldsLease(w.store, id, owner, w.copies[owner].updatedAt)
         && next == MergedLease(w.copies[owner], job)
       case Sweep(blocked) => Stale(job, w.clock) && next == RecoveredJob(job, id in blocked, w.clock)
       case CancelUnleased(i, _, phase) =>
         i == id && (job.status.Queued? || job.status.Scheduled?) && next == CanceledAt(job, w.clock, phase)
       case ChangeUnleased(i, change) => i == id && Applies(change, job) && next == Changed(job, change, w.clock)
       case _ => false
  }

  lemma JobAfter(w: World, step: Step, id: Id)
    requires id in w.store && WellKeyed(w.store)
    ensures id in Apply(w, step).store && JobMoves(w, step, id, Apply(w, step).store[id])
  {
    match step
    case CancelUnleased(i, queuedOnly, phase) =>
      assert i == id ==> (w.store[id].status in (if queuedOnly then {Queued} else {Queued, Scheduled})
                          ==> w.store[id].status.Queued? || w.store[id].status.Scheduled?);
    case _ =>
  }

  // ---------------------------------------------------------------- what the invariant gives

  /** Fencing. A guarded save is accepted only from the most recent claimer. It keeps the attempts and
      the identity the store has, and while the job goes on running it leaves the stored heartbeat and
      expiry exactly as they are, however old the rest of the saved record is. Anybody else's save
      changes nothing at all. */
  lemma FencedSave(w: World, owner: Id)
    requires Inv(w) && owner in w.copies
    ensures var id, next := w.copies[owner].id, Apply(w, SaveCopy(owner));
      && (SaveReply(w.store, w.copies[owner], Some(owner)).Some? ==>
           && LastClaimer(w.claims, id) == Some(owner)
           && SameIdentity(next.store[id], w.store[id])
           && next.store[id].attempts == w.store[id].attempts
           && (next.store[id].status.Running? ==>
                next.store[id].heartbeatAt == w.store[id].heartbeatAt &&
                  next.store[id].leaseExpiresAt == w.store[id].leaseExpiresAt))
      && (LastClaimer(w.claims, id) != Some(owner) ==> next == w)
  {
    assert CopyOk(w, owner) && JobOk(w, w.copies[owner].id);
  }

  /** Local records never disappear and never change job, and only a fresh owner enters the log. */
  lemma CopiesPersist(w: World, step: Step, owner: Id)
    requires owner in w.copies
    ensures var next := Apply(w, step);
      && owner in next.copies && next.copies[owner].id == w.copies[owner].id
      && (next.claims == w.claims ||
          (step.ClaimBy? && next.claims == w.claims + [Claim(step.id, step.owner)] && step.owner != owner))
  {
  }

  /** A superseded worker stays superseded: whatever happens afterwards, it is never again the most
      recent claimer of its job, so none of its later saves is accepted. */
  lemma {:induction false} SupersededForever(w: World, owner: Id, steps: seq<Step>)
    requires Inv(w) && owner in w.copies && LastClaimer(w.claims, w.copies[owner].id) != Some(owner)
    ensures var end := Run(w, steps);
      && owner in end.copies && end.copies[owner].id == w.copies[owner].id
      && LastClaimer(end.claims, w.copies[owner].id) != Some(owner)
      && Apply(end, SaveCopy(owner)) == end
    decreases |steps|
  {
    hide Apply, Inv;
    if steps == [] {
      FencedSave(w, owner);
    } else {
      StepKeepsInv(w, steps[0]);
      CopiesPersist(w, steps[0], owner);
      if Apply(w, steps[0]).claims != w.claims {
        LogGrows(w.claims, Claim(steps[0].id, steps[0].owner), w.copies[owner].id);
      }
      SupersededForever(Apply(w, steps[0]), owner, steps[1..]);
    }
  }

  lemma SaveKeepsExpiry(w: World, owner: Id, id: Id)
    requires Inv(w) && id in w.store && w.store[id].leaseOwner.Some?
    ensures var next := Apply(w, SaveCopy(owner)).store;
      id in next && (next[id].leaseOwner == w.store[id].leaseOwner ==>
                     next[id].leaseExpiresAt == w.store[id].leaseExpiresAt)
  {
    assert JobOk(w, id);
    if owner in w.copies && w.copies[owner].id == id {
      FencedSave(w, owner);
      assert CopyOk(w, owner);
    }
  }

  lemma MoveKeepsExpiry(w: World, step: Step, id: Id, next: DurableJob)
    requires id in w.store && JobMoves(w, step, id, next) && !step.SaveCopy?
    requires w.store[id].leaseOwner.Some? ==>
      w.store[id].leaseExpiresAt.Some? && w.store[id].heartbeatAt.Some? && w.store[id].heartbeatAt.value <= w.clock
      && w.store[id].leaseExpiresAt.value == w.store[id].heartbeatAt.value + w.lease
    requires w.store[id].leaseOwner.Some? ==> w.store[id].status.Running?
    requires step.ClaimBy? && w.store[id].leaseOwner.Some? ==>
      step.owner in w.copies || w.store[id].leaseOwner != Some(step.owner)
    ensures w.store[id].leaseOwner.Some? && next.leaseOwner == w.store[id].leaseOwner ==>
      next.leaseExpiresAt.Some? && next.leaseExpiresAt.value >= w.store[id].leaseExpiresAt.value
  {
  }

  /** While the same worker holds a job, its expiry never moves back. */
  lemma ExpiryNeverDecreases(w: World, step: Step, id: Id)
    requires Inv(w) && id in w.store && w.store[id].leaseOwner.Some?
    ensures id in Apply(w, step).store
    ensures var next := Apply(w, step).store[id];
      next.leaseOwner == w.store[id].leaseOwner ==>
        next.leaseExpiresAt.Some? && w.store[id].leaseExpiresAt.Some? &&
          next.leaseExpiresAt.value >= w.store[id].leaseExpiresAt.value
  {
    hide Apply, JobMoves;
    assert JobOk(w, id);
    if step.SaveCopy? {
      SaveKeepsExpiry(w, step.owner, id);
    } else {
      Keyed(w);
      hide Inv, JobOk;
      JobAfter(w, step, id);
      MoveKeepsExpiry(w, step, id, Apply(w, step).store[id]);
    }
  }

  ghost predicate Holds(w: World, id: Id, owner: Id) {
    id in w.store && w.store[id].status.Running? && w.store[id].leaseOwner == Some(owner)
  }

  lemma SaveKeepsHolder(w: World, other: Id, id: Id, owner: Id)
    requires Inv(w) && Holds(w, id, owner)
    requires other == owner ==> w.copies[owner].status.Running?
    ensures Holds(Apply(w, SaveCopy(other)), id, owner)
  {
    assert JobOk(w, id) && CopyOk(w, owner);
    if other in w.copies {
      FencedSave(w, other);
    }
  }

  lemma LiveLeaseKept(w: World, step: Step, id: Id, owner: Id)
    requires Inv(w) && Holds(w, id, owner) && w.clock < w.store[id].leaseExpiresAt.value
    requires step == SaveCopy(owner) ==> w.copies[owner].status.Running?
    ensures Holds(Apply(w, step), id, owner)
  {
    assert JobOk(w, id);
    if step.SaveCopy? {
      SaveKeepsHolder(w, step.owner, id, owner);
    } else {
      Keyed(w);
      JobAfter(w, step, id);
      hide Apply, Inv;
    }
  }

  /** A heartbeat of the holder gives it one whole lease from now. */
  lemma BeatExtends(w: World, id: Id, owner: Id)
    requires Inv(w) && Holds(w, id, owner) && w.clock < w.store[id].leaseExpiresAt.value
    ensures var next := Apply(w, Beat(owner));
      Holds(next, id, owner) && next.store[id].leaseExpiresAt == Some(w.clock + w.lease) &&
        next.store[id].heartbeatAt == Some(w.clock)
  {
    assert JobOk(w, id);
  }

  /** The worker's own steps keep a schedule: no more than `gap` passes between one heartbeat of `owner` and the
      next, `since` having passed already, and it edits its record only to mark phases. Nothing is said about
      the store or about anybody else. */
  predicate Punctual(steps: seq<Step>, owner: Id, gap: nat, since: nat)
    decreases |steps|
  {
    steps != [] ==>
      match steps[0]
      case Tick(elapsed) => since + elapsed <= gap && Punctual(steps[1..], owner, gap, since + elapsed)
      case Beat(o) => Punctual(steps[1..], owner, gap, if o == owner then 0 else since)
      case EditCopy(o, edit) => (o == owner ==> edit.Mark?) && Punctual(steps[1..], owner, gap, since)
      case _ => Punctual(steps[1..], owner, gap, since)
  }

  /** The worker holds the job with a running record, and `since` its last heartbeat a whole lease began. */
  ghost predicate OnSchedule(w: World, id: Id, owner: Id, since: nat) {
    && Inv(w) && Holds(w, id, owner)
    && owner in w.copies && w.copies[owner].id == id && w.copies[owner].status.Running?
    && w.store[id].leaseExpiresAt.Some? && w.clock - since + w.lease <= w.store[id].leaseExpiresAt.value
  }

  /** A record goes on running under heartbeats, phase marks and saves. */
  lemma RunningCopyStays(w: World, step: Step, owner: Id)
    requires owner in w.copies && w.copies[owner].status.Running?
    requires step.EditCopy? && step.owner == owner ==> step.edit.Mark?
    ensures owner in Apply(w, step).copies && Apply(w, step).copies[owner].status.Running?
    ensures Apply(w, step).copies[owner].id == w.copies[owner].id && Apply(w, step).lease == w.lease
    ensures Apply(w, step).clock == w.clock + (if step.Tick? then step.elapsed else 0)
  {
  }

  lemma ScheduledStep(w: World, step: Step, id: Id, owner: Id, since: nat)
    requires OnSchedule(w, id, owner, since) && since < w.lease
    requires step.EditCopy? && step.owner == owner ==> step.edit.Mark?
    ensures OnSchedule(Apply(w, step), id, owner,
                       if step == Beat(owner) then 0 else if step.Tick? then since + step.elapsed else since)
  {
    hide Apply, Inv;
    StepKeepsInv(w, step);
    RunningCopyStays(w, step, owner);
    LiveLeaseKept(w, step, id, owner);
    if step == Beat(owner) {
      BeatExtends(w, id, owner);
    } else {
      ExpiryNeverDecreases(w, step, id);
    }
  }

  lemma {:induction false} ScheduleKeepsLease(w: World, steps: seq<Step>, id: Id, owner: Id, gap: nat, since: nat)
    requires OnSchedule(w, id, owner, since) && since <= gap < w.lease && Punctual(steps, owner, gap, since)
    ensures Holds(Run(w, steps), id, owner)
    decreases |steps|
  {
    hide Apply, OnSchedule;
    if steps == [] {
      OnScheduleHolds(w, id, owner, since);
    } else {
      ScheduledStep(w, steps[0], id, owner, since);
      RunningLease(w, steps[0], id, owner, since);
      var next := if steps[0] == Beat(owner) then 0 else if steps[0].Tick? then since + steps[0].elapsed else since;
      ScheduleKeepsLease(Apply(w, steps[0]), steps[1..], id, owner, gap, next);
    }
  }

  lemma OnScheduleHolds(w: World, id: Id, owner: Id, since: nat)
    requires OnSchedule(w, id, owner, since)
    ensures Holds(w, id, owner)
  {
  }

  lemma RunningLease(w: World, step: Step, id: Id, owner: Id, since: nat)
    requires OnSchedule(w, id, owner, since)
    requires step.EditCopy? && step.owner == owner ==> step.edit.Mark?
    ensures Apply(w, step).lease == w.lease
  {
    RunningCopyStays(w, step, owner);
    hide Apply, Inv;
  }

  /** Heartbeats less than a lease apart are never displaced. From the moment its claim is granted,
      a worker that keeps the schedule holds the job, whoever else claims, sweeps, saves, cancels or
      changes what in between. */
  lemma PunctualWorkerKeepsJob(w: World, id: Id, owner: Id, steps: seq<Step>, gap: nat)
    requires Inv(w) && id in w.store && Claimable(w.store[id], w.clock) && owner !in w.copies
    requires gap < w.lease && Punctual(steps, owner, gap, 0)
    ensures Holds(Run(Apply(w, ClaimBy(id, owner)), steps), id, owner)
  {
    var claimed := Apply(w, ClaimBy(id, owner));
    StepKeepsInv(w, ClaimBy(id, owner));
    assert JobOk(w, id);
    assert OnSchedule(claimed, id, owner, 0);
    hide Apply, OnSchedule;
    ScheduleKeepsLease(claimed, steps, id, owner, gap, 0);
  }

  /** The service's own interval keeps every lease of two seconds or more. */
  lemma ServiceHeartbeatKeepsJob(w: World, id: Id, owner: Id, steps: seq<Step>, configured: int)
    requires Inv(w) && id in w.store && Claimable(w.store[id], w.clock) && owner !in w.copies
    requires configured >= 1 && w.lease >= 2
    requires Punctual(steps, owner, HeartbeatSeconds(configured, w.lease), 0)
    ensures Holds(Run(Apply(w, ClaimBy(id, owner)), steps), id, owner)
  {
    HeartbeatFitsLease(configured, w.lease);
    PunctualWorkerKeepsJob(w, id, owner, steps, HeartbeatSeconds(configured, w.lease));
  }

  /** The sweep takes a running job out of running exactly when a whole lease has passed since its
      last heartbeat. */
  lemma SweepTakesExactlyTheExpired(w: World, blocked: set<Id>, id: Id)
    requires Inv(w) && id in w.store && w.store[id].status.Running?
    ensures !Apply(w, Sweep(blocked)).store[id].status.Running? <==> w.clock >= w.store[id].heartbeatAt.value + w.lease
  {
    assert JobOk(w, id);
    RecoveredShape(w.store[id], id in blocked, w.clock);
  }

  /** In every reachable world the claims logged for a job are its attempts and never more than its
      maximum; a waiting job has attempts left; a running job has expiry = heartbeat + lease; any
      other job holds no lease. */
  lemma ReachableJobs(lease: nat, clock: Time, steps: seq<Step>, id: Id)
    requires lease >= 1 && id in Run(Initial(lease, clock), steps).store
    ensures var end := Run(Initial(lease, clock), steps);
      var job := end.store[id];
      && ClaimCount(end.claims, id) == job.attempts <= job.maxAttempts
      && (job.status.Queued? || job.status.Scheduled? ==> job.attempts < job.maxAttempts)
      && (job.status.Running? ==> job.heartbeatAt.Some? && job.leaseExpiresAt == Some(job.heartbeatAt.value + lease))
      && (!job.status.Running? ==> job.leaseOwner.None? && job.leaseExpiresAt.None?)
  {
    InitialInv(lease, clock);
    RunKeepsInv(Initial(lease, clock), steps);
    LeaseConstant(Initial(lease, clock), steps);
    assert JobOk(Run(Initial(lease, clock), steps), id);
  }

  lemma {:induction false} LeaseConstant(w: World, steps: seq<Step>)
    ensures Run(w, steps).lease == w.lease
    decreases |steps|
  {
    if steps != [] {
      LeaseConstant(Apply(w, steps[0]), steps[1..]);
    }
  }

  /** Claiming a queued job with a fresh owner id always succeeds and counts one attempt. */
  lemma QueuedClaimSucceeds(w: World, id: Id, owner: Id)
    requires Inv(w) && id in w.store && w.store[id].status.Queued? && owner !in w.copies
    ensures var next := Apply(w, ClaimBy(id, owner));
      && Holds(next, id, owner) && next.store[id].attempts == w.store[id].attempts + 1
      && ClaimCount(next.claims, id) == ClaimCount(w.claims, id) + 1
  {
    assert JobOk(w, id);
    LogGrows(w.claims, Claim(id, owner), id);
  }

  /** The one case in which a claim finds a job and still fails it: a stale job whose attempts are used
      up is closed by the claim itself, without a claim being logged. */
  lemma ExhaustedClaimCloses(w: World, id: Id, owner: Id)
    requires Inv(w) && id in w.store && Stale(w.store[id], w.clock) && owner !in w.copies
    ensures var next := Apply(w, ClaimBy(id, owner));
      if w.store[id].attempts == w.store[id].maxAttempts then next.store[id].status.Failed? && next.claims == w.claims
      else Holds(next, id, owner)
  {
    assert JobOk(w, id);
  }

  lemma EndedStep(w: World, step: Step, id: Id)
    requires Inv(w) && id in w.store && Terminal(w.store[id].status)
    ensures id in Apply(w, step).store && Apply(w, step).store[id] == w.store[id]
  {
    assert JobOk(w, id);
    Keyed(w);
    JobAfter(w, step, id);
    hide Apply, Inv;
  }

  /** Completed, failed and canceled are final: no run changes anything in such a record. */
  lemma {:induction false} EndedForever(w: World, steps: seq<Step>, id: Id)
    requires Inv(w) && id in w.store && Terminal(w.store[id].status)
    ensures id in Run(w, steps).store && Run(w, steps).store[id] == w.store[id]
    decreases |steps|
  {
    if steps != [] {
      EndedStep(w, steps[0], id);
      StepKeepsInv(w, steps[0]);
      EndedForever(Apply(w, steps[0]), steps[1..], id);
    }
  }
}
