/** Remediation workers on top of the lease protocol: the order in which a worker marks its phase, proves its
    lease and starts the executor, and when a re-claim of an uncertain job stops it. */
module RemediationWorker {
  import opened Common
  import opened Jobs
  import opened LeaseProtocol
  import Gate

  /** What the service learns from one executor run. `snapshot` is the state of the rollback snapshot
      when one protects the run. */
  datatype Report = Report(success: bool, changed: bool, nonRetryable: bool, snapshot: Option<Gate.SnapshotState>)

  /** The point a worker has reached. `guarded` says whether a rollback snapshot was taken. */
  datatype Point =
    | StaleCheck
    | Admission
    | DriftMark
    | Collecting
    | SnapshotGate
    | SnapshotMark
    | SnapshotAssert
    | Snapshotting
    | FinalGate(guarded: bool)
    | AnsibleMark(guarded: bool)
    | AnsibleAssert(guarded: bool)
    | ReadyToLaunch(guarded: bool)
    | Ran(report: Report)
    | HealthMark(report: Report)
    | HealthRun(report: Report)
    | Conclude(report: Report)
    | Finished

  datatype Launch = Launch(job: Id, owner: Id)

  /** `retried` holds, for every worker whose failed run was put back into the queue, the report of
      that run. */
  datatype System = System(world: World, points: map<Id, Point>, launches: seq<Launch>, retried: map<Id, Report>)

  datatype Event =
    | Begin(id: Id, owner: Id)
    | Advance(owner: Id, ok: bool, report: Report)
    | Heartbeat(owner: Id)
    | Die(owner: Id)
    | RecoverExpired
    | Environment(step: Step)

  // ---------------------------------------------------------------- one worker

  function Outcome(report: Report): Gate.ExecutionOutcome {
    Gate.OutcomeOf(report.success, report.changed, report.nonRetryable, report.snapshot)
  }

  function SaveAccepted(w: World, owner: Id): bool
    requires owner in w.copies
  {
    SaveReply(w.store, w.copies[owner], Some(owner)).Some?
  }

  function EditedWorld(w: World, owner: Id, edit: Edit): World {
    Apply(w, EditCopy(owner, edit))
  }

  function EditAndSave(w: World, owner: Id, edit: Edit): World {
    Apply(EditedWorld(w, owner, edit), SaveCopy(owner))
  }

  function LeaseProved(w: World, owner: Id): bool
    requires owner in w.copies
  {
    HoldsLease(w.store, w.copies[owner].id, owner, w.clock)
  }

  function Moved(s: System, world: World, owner: Id, point: Point): System {
    s.(world := world, points := s.points[owner := point])
  }

  /** Write the phase before acting on it; a refused save ends the worker. */
  function MarkPhase(s: System, owner: Id, phase: Phase, progress: int, next: Point): System
    requires owner in s.world.copies
  {
    var edited := EditedWorld(s.world, owner, Mark(phase, progress));
    Moved(s, EditAndSave(s.world, owner, Mark(phase, progress)), owner,
          if SaveAccepted(edited, owner) then next else Finished)
  }

  function AssertLease(s: System, owner: Id, next: Point): System
    requires owner in s.world.copies
  {
    Moved(s, Apply(s.world, Beat(owner)), owner, if LeaseProved(s.world, owner) then next else Finished)
  }

  /** `fail_job` under the lease; the worker ends either way. */
  function Abandon(s: System, owner: Id): System
    requires owner in s.world.copies
  {
    Moved(s, EditAndSave(s.world, owner, Fail(STALE_UNCERTAIN_MESSAGE, false, OtherCategory(SAFETY_VALIDATION))), owner,
          Finished)
  }

  function FinishJob(s: System, owner: Id): System
    requires owner in s.world.copies
  {
    Moved(s, EditAndSave(s.world, owner, Complete(map[])), owner, Finished)
  }

  function FailureEdit(report: Report): Edit {
    var decision := Outcome(report).decision;
    Fail("", decision.Deny? && decision.retryable, OtherCategory("remediation_execution"))
  }

  /** The failed run is over: try again or fail the job, and remember who was put back into the queue. */
  function GiveUp(s: System, owner: Id, report: Report): System
    requires owner in s.world.copies
  {
    var edited := EditedWorld(s.world, owner, FailureEdit(report));
    var next := Moved(s, EditAndSave(s.world, owner, FailureEdit(report)), owner, Finished);
    if SaveAccepted(edited, owner) && edited.copies[owner].status.Queued?
    then next.(retried := s.retried[owner := report]) else next
  }

  function Concluded(s: System, owner: Id, report: Report): System
    requires owner in s.world.copies
  {
    if Outcome(report).jobCompleted then FinishJob(s, owner) else GiveUp(s, owner, report)
  }

  /** A stale job may only be picked up if its recovered phase cannot have touched the host. */
  predicate Stops(copy: DurableJob) {
    && copy.lastFailure.Some? && copy.lastFailure.value.category.WorkerLeaseExpired?
    && !Gate.StaleRecovery(copy, false).dispatch
  }

  function Advanced(s: System, owner: Id, ok: bool, report: Report): System
    requires owner in s.world.copies && owner in s.points
  {
    match s.points[owner]
    case StaleCheck => if Stops(s.world.copies[owner]) then Abandon(s, owner) else Moved(s, s.world, owner, Admission)
    case Admission => if ok then Moved(s, s.world, owner, DriftMark) else Abandon(s, owner)
    case DriftMark => MarkPhase(s, owner, StateDriftCheck, 10, Collecting)
    case Collecting => if ok then AssertLease(s, owner, SnapshotGate) else Abandon(s, owner)
    case SnapshotGate => Moved(s, s.world, owner, if ok then SnapshotMark else FinalGate(false))
    case SnapshotMark => MarkPhase(s, owner, SnapshotCreate, 25, SnapshotAssert)
    case SnapshotAssert => AssertLease(s, owner, Snapshotting)
    case Snapshotting => if ok then AssertLease(s, owner, FinalGate(true)) else Abandon(s, owner)
    case FinalGate(guarded) => if ok then Moved(s, s.world, owner, AnsibleMark(guarded)) else Abandon(s, owner)
    case AnsibleMark(guarded) => MarkPhase(s, owner, AnsibleExecution, 30, AnsibleAssert(guarded))
    case AnsibleAssert(guarded) => AssertLease(s, owner, ReadyToLaunch(guarded))
    case ReadyToLaunch(guarded) =>
      var seen := report.(snapshot := if guarded then Some(Gate.SnapshotCreated) else None);
      Moved(s, s.world, owner, Ran(seen)).(launches := s.launches + [Launch(s.world.copies[owner].id, owner)])
    case Ran(seen) => AssertLease(s, owner,
                                  if seen.success && seen.snapshot.Some? then HealthMark(seen) else Conclude(seen))
    case HealthMark(seen) => MarkPhase(s, owner, PostRebootHealthCheck, 80, HealthRun(seen))
    case HealthRun(seen) =>
      AssertLease(s, owner, Conclude(
        if ok then seen.(snapshot := Some(Gate.DeleteScheduled))
        else seen.(success := false,
                   snapshot := Some(if report.success then Gate.RolledBack else Gate.RollbackFailedState))))
    case Conclude(seen) => Concluded(s, owner, seen)
    case Finished => s
  }

  // ---------------------------------------------------------------- the system

  /** The requeued jobs the service sweep fails instead of dispatching again. */
  function BlockedIds(store: Store, now: Time): set<Id> {
    set id | id in store && Stale(store[id], now) && !Gate.StaleRecovery(Swept(store[id], now), false).dispatch
  }

  /** Only remediation jobs enter this system; scans and snapshot deletions have records of their own. */
  predicate EnvironmentStep(step: Step) {
    step.Tick? || (step.Create? && step.job.jobType.RemediationJob?) || step.CancelUnleased? || step.ChangeUnleased?
  }

  function Next(s: System, event: Event): System {
    match event
    case Begin(id, owner) =>
      if owner in s.world.copies then s
      else
        var world := Apply(s.world, ClaimBy(id, owner));
        if owner in world.copies then s.(world := world, points := s.points[owner := StaleCheck])
          else s.(world := world)
    case Advance(owner, ok, report) =>
      if owner in s.world.copies && owner in s.points then Advanced(s, owner, ok, report) else s
    case Heartbeat(owner) =>
      if owner in s.world.copies && owner in s.points && !s.points[owner].Finished?
      then AssertLease(s, owner, s.points[owner]) else s
    case Die(owner) => if owner in s.points then s.(points := s.points[owner := Finished]) else s
    case RecoverExpired => s.(world := Apply(s.world, Sweep(BlockedIds(s.world.store, s.world.clock))))
    case Environment(step) => if EnvironmentStep(step) then s.(world := Apply(s.world, step)) else s
  }

  function Play(s: System, events: seq<Event>): System
    decreases |events|
  {
    if events == [] then s else Play(Next(s, events[0]), events[1..])
  }

  function Start(lease: nat, clock: Time): System {
    System(Initial(lease, clock), map[], [], map[])
  }

  // ---------------------------------------------------------------- the guard

  predicate SafeRecoveredPhase(job: DurableJob) {
    job.result.recoveredFromPhase.Some? && !Gate.Uncertain(job.result.recoveredFromPhase)
  }

  /** Claiming the job now would take over a lease that ran out in an uncertain phase, while the record
      still carries the harmless phase of an earlier recovery. A claimer can read this off the record. */
  predicate MasksUncertainPhase(job: DurableJob, now: Time) {
    && Stale(job, now) && job.attempts < job.maxAttempts
    && Gate.Uncertain(job.currentPhase) && SafeRecoveredPhase(job)
  }

  predicate Unmasked(s: System, event: Event) {
    event.Begin? && event.id in s.world.store && event.owner !in s.world.copies
    ==> !MasksUncertainPhase(s.world.store[event.id], s.world.clock)
  }

  predicate AllUnmasked(s: System, events: seq<Event>)
    decreases |events|
  {
    events != [] ==> Unmasked(s, events[0]) && AllUnmasked(Next(s, events[0]), events[1..])
  }

  /** For a stale job caught in an uncertain phase, the claim leads to a worker that stops if and only
      if no harmless recovered phase masks the uncertain one. */
  lemma ReclaimStopsExactlyWhenUnmasked(job: DurableJob, owner: Id, now: Time, lease: Time)
    requires Stale(job, now) && job.attempts < job.maxAttempts && Gate.Uncertain(job.currentPhase)
    ensures Stops(Claimed(job, owner, now, lease)) <==> !MasksUncertainPhase(job, now)
  {
  }
}
