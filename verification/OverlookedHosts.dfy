/** The condition of the rollout bound is exact: how a host comes to be overlooked by a batch start, and what
    one overlooked host does. */
module OverlookedHosts {
  import opened Common
  import opened Campaign
  import opened Rollout
  import opened RolloutRuns
  import opened Samples
  import opened WaitingJobs
  import P = Plans
  import ApprovalRuns
  import Gate
  import Jobs
  import StopOnFailure

  // ---------------------------------------------------------------- how a host comes to be overlooked

  /** How a host comes to be overlooked: edit the content of its plan while its job is queued. The next
      synchronization takes the host out of flight, and the job stays queued. */
  lemma EditHidesQueuedHost(s: State, now: Time, i: nat)
    requires s.campaign.batchSize >= 1 && i < |s.campaign.hosts|
    requires var h := s.campaign.hosts[i];
      && Attached(h) && h.remediationId.value in s.remediations
      && s.remediations[h.remediationId.value].executionState == P.ExecQueued
      && Gate.ContentChanged(s.remediations[h.remediationId.value])
      && IsRemediationJob(JobFor(h, s.jobs), Jobs.Queued)
    ensures var h, t := s.campaign.hosts[i], Synced(s, now);
      && |t.campaign.hosts| == |s.campaign.hosts| && t.campaign.hosts[i].state !in IN_FLIGHT
      && IsRemediationJob(JobFor(h, t.jobs), Jobs.Queued)
      && h.remediationId.value in t.remediations
      && Refuses(t.remediations[h.remediationId.value], JobFor(h, t.jobs).value,
                 s.remediations[h.remediationId.value].planVersion)
  {
    hide Synced, HostStateOf, PlanBinding, Gate.ContentChanged, Refuses;
    var h, t := s.campaign.hosts[i], Synced(s, now);
    var id := h.remediationId.value;
    StopOnFailure.SyncedHosts(s, now);
    SyncedHostAt(s, now, i);
    assert id in AttachedPlans(s.campaign.hosts);
    EditedPlanIsBlocked(s.remediations[id], now, JobFor(h, s.jobs).value);
    ShownInFlight(h.state, t.remediations[id], JobFor(h, s.jobs), PlanBinding(h, t.remediations[id]).Allow?);
  }

  /** If the job is bound to `version` or an older one, the gate refuses it the plan, on every host. */
  ghost predicate Refuses(r: P.Remediation, job: Jobs.DurableJob, version: int) {
    job.approvedPlanVersion.Some? && job.approvedPlanVersion.value <= version ==>
      forall host: P.Host, rollbackFailure: bool ::
        !Gate.ExecutionEligibility(r, host, Some(job), rollbackFailure).Allow?
  }

  lemma EditedPlanIsBlocked(r: P.Remediation, now: Time, job: Jobs.DurableJob)
    requires Gate.ContentChanged(r) && r.executionState == P.ExecQueued
    ensures Gate.Reconciled(r, now).executionState == P.ExecBlocked && !InFlight(Gate.Reconciled(r, now))
    ensures Refuses(Gate.Reconciled(r, now), job, r.planVersion)
  {
    var next := Gate.Reconciled(r, now);
    forall host: P.Host, rollbackFailure: bool | job.approvedPlanVersion.Some? &&
      job.approvedPlanVersion.value <= r.planVersion
      ensures !Gate.ExecutionEligibility(next, host, Some(job), rollbackFailure).Allow?
    {
      Gate.EligibilityExactly(next, host, job, rollbackFailure);
      hide Gate.ExecutionEligibility;
    }
  }

  /** The other way to be overlooked leaves the gate open: a reboot approval that the host's policy refuses
      blocks the plan, and once the policy allows reboots again and one is approved, the old job is let
      through while a later batch runs. So not even the executor starts are bounded by the latest batch. */
  lemma RefusedRebootLeavesJobEligible(
    r: P.Remediation, forbidding: P.Host, allowing: P.Host, job: Jobs.DurableJob,
    request: Gate.ApprovalRequest, actor: string, now: Time, later: Time)
    requires forbidding.neverReboot && !allowing.neverReboot && forbidding == allowing.(neverReboot := true)
    requires actor != "" && P.RebootRisk(r) && Gate.ExecutionEligibility(r, allowing, Some(job), false).Allow?
    requires request == Gate.ApprovalRequest(r.planVersion, r.planHash, allowing.name)
    ensures var blocked := Gate.AfterRebootRequest(r, forbidding, request, actor, now);
      var approved := Gate.AfterRebootRequest(blocked, allowing, request, actor, later);
      && blocked.executionState == P.ExecBlocked && !InFlight(blocked) && !Gate.ContentChanged(blocked)
      && !Gate.BindingChanged(blocked)
      && approved.executionState == P.ExecBlocked
      && Gate.ExecutionEligibility(approved, allowing, Some(job), false).Allow?
  {
    var blocked := Gate.AfterRebootRequest(r, forbidding, request, actor, now);
    Gate.EligibilityExactly(r, allowing, job, false);
    Gate.ApprovalExactly(r, allowing);
    assert P.PlanPayload(blocked) == P.PlanPayload(r);
    RefusedThenApproved(r, blocked, allowing, job, request, actor, later);
    hide Gate.ExecutionEligibility, Gate.ApprovalDecision;
  }

  lemma RefusedThenApproved(
    r: P.Remediation, blocked: P.Remediation, host: P.Host, job: Jobs.DurableJob,
    request: Gate.ApprovalRequest, actor: string, later: Time)
    requires !host.neverReboot && actor != "" && P.RebootRisk(r)
    requires Gate.ExecutionEligibility(r, host, Some(job), false).Allow?
    requires exists now :: blocked == Gate.RebootBlockedByPolicy(r, now)
    requires request == Gate.ApprovalRequest(r.planVersion, r.planHash, host.name)
    ensures var approved := Gate.AfterRebootRequest(blocked, host, request, actor, later);
      approved.executionState == blocked.executionState &&
        Gate.ExecutionEligibility(approved, host, Some(job), false).Allow?
  {
    var approved := Gate.AfterRebootRequest(blocked, host, request, actor, later);
    Gate.EligibilityExactly(r, host, job, false);
    Gate.ApprovalExactly(r, host);
    assert P.PlanPayload(blocked) == P.PlanPayload(r);
    assert approved == Gate.WithRebootApproval(blocked, actor, later);
    assert P.PlanPayload(approved) == P.PlanPayload(r);
    Gate.EligibilityExactly(approved, host, job, false);
    Gate.ApprovalExactly(approved, host);
    hide Gate.ExecutionEligibility, Gate.ApprovalDecision;
  }

  /** So a host whose scheduled job was let through before the refusal is overlooked. */
  lemma RefusedRebootIsOverlooked(
    s: State, i: nat, r: P.Remediation, forbidding: P.Host, allowing: P.Host, job: Jobs.DurableJob, actor: string,
    now: Time, later: Time)
    requires i < |s.campaign.hosts| && Attached(s.campaign.hosts[i])
    requires s.campaign.hosts[i].remediationId.value in s.remediations
    requires forbidding.neverReboot && !allowing.neverReboot && forbidding == allowing.(neverReboot := true)
    requires P.RebootRisk(r) && ApprovalRuns.Handed(r, allowing, job, false)
    requires s.remediations[s.campaign.hosts[i].remediationId.value] == Gate.AfterRebootRequest(
      r, forbidding, Gate.ApprovalRequest(r.planVersion, r.planHash, allowing.name), actor, now)
    requires job.id in s.jobs && s.jobs[job.id] == job && job.remediationId == s.campaign.hosts[i].remediationId
    requires job.jobType.RemediationJob? && job.status.Scheduled? && job.attempts < job.maxAttempts
    ensures Overlooked(s, s.campaign.hosts[i], later)
  {
    var plan := s.campaign.hosts[i].remediationId.value;
    RefusedRebootKeepsBinding(r, forbidding, allowing, job, actor, now);
    SyncedPlanAt(s, later, i);
    hide SyncedPlans, MayPass, ApprovalRuns.Handed, Gate.AfterRebootRequest, Gate.ContentChanged, Gate.BindingChanged;
    assert MayRun(SyncedPlans(s, later), s.jobs[job.id]);
  }

  lemma RefusedRebootKeepsBinding(
    r: P.Remediation, forbidding: P.Host, allowing: P.Host, job: Jobs.DurableJob, actor: string, now: Time)
    requires forbidding.neverReboot && !allowing.neverReboot && forbidding == allowing.(neverReboot := true)
    requires P.RebootRisk(r) && ApprovalRuns.Handed(r, allowing, job, false)
    ensures var blocked := Gate.AfterRebootRequest(
        r, forbidding, Gate.ApprovalRequest(r.planVersion, r.planHash, allowing.name), actor, now);
      && MayPass(blocked, job) && !InFlight(blocked) && !Gate.ContentChanged(blocked) && !Gate.BindingChanged(blocked)
  {
    HandedMayPass(r, allowing, job, false);
    Gate.EligibilityExactly(r, allowing, job, false);
    Gate.ApprovalExactly(r, allowing);
    assert P.PlanPayload(Gate.RebootBlockedByPolicy(r, now)) == P.PlanPayload(r);
    hide Gate.ExecutionEligibility, Gate.ApprovalDecision, Passable;
  }

  /** An edit does not: once its plan's content has changed, a host with a scheduled job is not overlooked. The
      scheduler will ask the gate, and the gate refuses the job for good. */
  lemma EditedScheduledHostIsNotOverlooked(s: State, batch: set<Id>, k: Circumstances, i: nat, id: Id)
    requires Inv(s, batch) && Starts(s, k) && i < |s.campaign.hosts| && Attached(s.campaign.hosts[i])
    requires s.campaign.hosts[i].remediationId.value in s.remediations
    requires Gate.ContentChanged(s.remediations[s.campaign.hosts[i].remediationId.value])
    requires id in s.jobs && Outstanding(s.jobs[id]) && s.jobs[id].remediationId == s.campaign.hosts[i].remediationId
    requires s.jobs[id].status.Scheduled?
    ensures !Overlooked(s, s.campaign.hosts[i], k.now)
  {
    var h := s.campaign.hosts[i];
    assert OneOutstanding(s, h) by {
      assert HostOk(s, batch, h);
    }
    hide Inv, Starts, Overlooked, SyncedPlans, MayPass, Gate.ContentChanged, Gate.Reconciled, NotAhead, HostOk;
    OutstandingIsOverlooked(s, batch, k, i, id);
    SyncedPlanAt(s, k.now, i);
    EditRetires(s.remediations[h.remediationId.value], s.jobs[id], k.now);
  }

  /** A host left out of a started batch keeps its entry's job, its plan's record and that job. */
  lemma LeftOutKeepsJob(s: State, batch: set<Id>, k: Circumstances, i: nat)
    requires Inv(s, batch) && Given(s, k) && Starts(s, k) && i < |s.campaign.hosts|
    requires s.campaign.hosts[i].hostId !in PreparedBatch(s, k).jobsByHost
    ensures var h, u := s.campaign.hosts[i], AfterStart(s, k);
      && |u.campaign.hosts| == |s.campaign.hosts| && u.campaign.batchSize >= 1
      && u.campaign.hosts[i].hostId == h.hostId && u.campaign.hosts[i].jobId == h.jobId
      && u.campaign.hosts[i].remediationId == h.remediationId
      && u.remediations.Keys == s.remediations.Keys
      && (Attached(h) && h.remediationId.value in s.remediations ==>
           u.remediations[h.remediationId.value] == Gate.Reconciled(s.remediations[h.remediationId.value], k.now))
      && (forall id :: id in s.jobs ==> id in u.jobs && u.jobs[id] == s.jobs[id])
      && KeysOk(u.jobs, u.keys) && Jobs.WellKeyed(u.jobs)
  {
    var t, p := Marked(s, k.now), PreparedBatch(s, k);
    assert OwnJob(s, s.campaign.hosts[i]) by {
      assert HostOk(s, batch, s.campaign.hosts[i]);
    }
    assert s.campaign.batchSize >= 1;
    hide Marked, PreparedBatch, HostOk, Still, KeysOk, Jobs.WellKeyed, SameJobs, DistinctHosts, Inv, Starts;
    hide OwnPrepared;
    hide Synced, Gate.Reconciled;
    MarkedIsStill(s, batch, k);
    BatchPrepared(s, batch, k);
    MarkedEntry(s, k.now, i);
    SyncedHostAt(s, k.now, i);
    assert Untouched(t, p, t.campaign.hosts[i]);
    assert EntryPrepared(t.campaign.hosts[i], p.state.campaign.hosts[i]);
    assert AfterStart(s, k).campaign.hosts[i] == StartedHost(p.state.campaign.hosts[i], p.jobsByHost, k.now);
  }

  lemma MarkedEntry(s: State, now: Time, i: nat)
    requires s.campaign.batchSize >= 1 && i < |s.campaign.hosts|
    ensures var t := Marked(s, now);
      && |t.campaign.hosts| == |s.campaign.hosts| && t.remediations.Keys == s.remediations.Keys
      && t.campaign.hosts[i].hostId == s.campaign.hosts[i].hostId
      && t.campaign.hosts[i].jobId == s.campaign.hosts[i].jobId
      && t.campaign.hosts[i].remediationId == s.campaign.hosts[i].remediationId
  {
    hide Synced, BatchOf;
    SyncedHostAt(s, now, i);
  }

  /** The claim of one queued job is something others may do at any time. */
  lemma ClaimEvolves(s: State, id: Id, owner: Id, at: Time, lease: Time)
    requires KeysOk(s.jobs, s.keys) && Jobs.WellKeyed(s.jobs) && id in s.jobs && s.jobs[id].status.Queued?
    requires s.jobs[id].attempts < s.jobs[id].maxAttempts
    ensures Evolves(s, s.remediations, s.jobs[id := Jobs.Claimed(s.jobs[id], owner, at, lease)], s.keys)
  {
    hide AttachedPlans, InFlight, Unstarted, HasActive, Releasable, NotAhead;
  }

  predicate NoStart(steps: seq<Step>) {
    forall i :: 0 <= i < |steps| ==> !steps[i].Start?
  }

  /** Steps that start nothing and take no plan of a host left out back. */
  ghost predicate Quiet(w: World, steps: seq<Step>) {
    NoStart(steps) && NeverTurnsBack(w, steps)
  }

  lemma {:induction false} QuietIsCareful(w: World, steps: seq<Step>)
    requires Quiet(w, steps)
    ensures Careful(w, steps)
    decreases |steps|
  {
    hide Apply, Given, Starts, NobodyOverlooked, TurnsBack;
    if steps != [] {
      QuietIsCareful(Apply(w, steps[0]), steps[1..]);
    }
  }

  lemma QuietFirst(w: World, first: Step, rest: seq<Step>)
    requires !first.Start? && !TurnsBack(w, first) && Quiet(Apply(w, first), rest)
    ensures Quiet(w, [first] + rest) && Run(w, [first] + rest) == Run(Apply(w, first), rest)
  {
    hide Apply, TurnsBack;
    assert ([first] + rest)[1..] == rest;
  }

  /** A step that leaves the plans as they are takes none back. */
  lemma SamePlansTurnNothing(w: World, step: Step)
    requires step.Other? ==> step.remediations == w.s.remediations
    ensures !TurnsBack(w, step)
  {
    hide ApprovalOver;
  }

  /** The release of a scheduled job. */
  function Released(job: Jobs.DurableJob, at: Time): Jobs.DurableJob {
    job.(status := Jobs.Queued, currentPhase := None, updatedAt := at)
  }

  lemma ReleaseEvolves(s: State, id: Id, at: Time)
    requires KeysOk(s.jobs, s.keys) && Jobs.WellKeyed(s.jobs) && id in s.jobs && s.jobs[id].status.Scheduled?
    requires Releasable(s.remediations, s.jobs[id])
    ensures Evolves(s, s.remediations, s.jobs[id := Released(s.jobs[id], at)], s.keys)
  {
    hide AttachedPlans, Releasable;
  }

  /** One plan changes, in a way the environment may change it. */
  lemma OnePlanEvolves(s: State, plan: Id, r: P.Remediation)
    requires KeysOk(s.jobs, s.keys) && Jobs.WellKeyed(s.jobs) && plan in s.remediations
    requires PlanEvolves(plan, s.remediations[plan], r, s.jobs)
    ensures Evolves(s, s.remediations[plan := r], s.jobs, s.keys)
  {
    hide AttachedPlans, Releasable, InFlight, Unstarted, NotAhead, HasActive;
  }

  /** The job of an overlooked host is not over: what operators, scheduler and a worker do next shows it running
      beside the batch that has just started. */
  lemma OverlookedBreaksTheBound(w: World, k: Circumstances, i: nat, owner: Id, at: Time) returns (steps: seq<Step>)
    requires Inv(w.s, Latest(w)) && Given(w.s, k) && Starts(w.s, k) && i < |w.s.campaign.hosts|
    requires Overlooked(w.s, w.s.campaign.hosts[i], k.now)
    requires w.s.campaign.hosts[i].remediationId.value in w.s.remediations
    ensures Quiet(Apply(w, Start(k)), steps) && !InLatestBatch(Run(Apply(w, Start(k)), steps))
  {
    assert w.s.campaign.batchSize >= 1;
    hide Inv, Latest, Given, Starts, PreparedBatch, AfterStart, KeysOk, Jobs.WellKeyed, Evolves, Run, HostOk;
    hide InLatestBatch, Quiet, MayPass, SyncedPlans, Gate.Reconciled;
    var h := w.s.campaign.hosts[i];
    var plan := h.remediationId.value;
    var id :| id in w.s.jobs && MayRun(SyncedPlans(w.s, k.now), w.s.jobs[id]) &&
      w.s.jobs[id].remediationId == Some(plan);
    OutstandingIsOverlooked(w.s, Latest(w), k, i, id);
    if h.hostId in PreparedBatch(w.s, k).jobsByHost {
      PreparedHasNothingOutstanding(w.s, Latest(w), k, i);
      assert false;
    }
    LeftOutKeepsJob(w.s, Latest(w), k, i);
    SyncedPlanAt(w.s, k.now, i);
    var started := Apply(w, Start(k));
    LatestAfterStart(w, k);
    assert JobFor(h, started.s.jobs) == Some(w.s.jobs[id]);
    ReconcileForward(w.s.remediations[plan], k.now);
    hide Apply, Overlooked;
    steps := WaitingJobComesBack(started, i, owner, at);
  }

  lemma SyncedPlanAt(s: State, now: Time, i: nat)
    requires i < |s.campaign.hosts| && Attached(s.campaign.hosts[i])
    requires s.campaign.hosts[i].remediationId.value in s.remediations
    ensures s.campaign.hosts[i].remediationId.value in SyncedPlans(s, now)
    ensures SyncedPlans(s, now)[s.campaign.hosts[i].remediationId.value]
         == Gate.Reconciled(s.remediations[s.campaign.hosts[i].remediationId.value], now)
  {
    hide Gate.Reconciled;
    assert s.campaign.hosts[i].remediationId.value in AttachedPlans(s.campaign.hosts);
  }

  lemma LatestAfterStart(w: World, k: Circumstances)
    requires w.s.campaign.batchSize >= 1 && Given(w.s, k) && Starts(w.s, k)
    ensures Apply(w, Start(k)).s == AfterStart(w.s, k)
    ensures Latest(Apply(w, Start(k))) == PreparedBatch(w.s, k).jobsByHost.Keys
  {
    hide Given, Starts, AfterStart, PreparedBatch, Candidates, Synced;
  }

  /** The host's job can come back: it is queued, or it is scheduled and the gate may still let it through. */
  ghost predicate CanComeBack(w: World, i: nat) {
    && w.s.campaign.batchSize >= 1 && i < |w.s.campaign.hosts|
    && KeysOk(w.s.jobs, w.s.keys) && Jobs.WellKeyed(w.s.jobs)
    && w.s.campaign.hosts[i].hostId !in Latest(w)
    && var h := w.s.campaign.hosts[i];
       && Attached(h) && h.remediationId.value in w.s.remediations && JobFor(h, w.s.jobs).Some?
       && var job, r := JobFor(h, w.s.jobs).value, w.s.remediations[h.remediationId.value];
          && job.jobType.RemediationJob? && job.remediationId == h.remediationId && job.attempts < job.maxAttempts
          && (job.status.Queued?
              || (job.status.Scheduled? && MayPass(r, job) && !Gate.ContentChanged(r) && !Gate.BindingChanged(r)))
  }

  lemma WaitingJobComesBack(w: World, i: nat, owner: Id, at: Time) returns (steps: seq<Step>)
    requires CanComeBack(w, i)
    ensures Quiet(w, steps) && !InLatestBatch(Run(w, steps))
  {
    var id := w.s.campaign.hosts[i].jobId.value;
    if w.s.jobs[id].status.Queued? {
      hide CanComeBack, Quiet, InLatestBatch, Run;
      steps := QueuedJobComesBack(w, i, owner, at);
    } else {
      hide CanComeBack, Quiet, InLatestBatch, Run;
      steps := ScheduledJobComesBack(w, i, owner, at);
    }
  }

  lemma QueuedJobComesBack(w: World, i: nat, owner: Id, at: Time) returns (steps: seq<Step>)
    requires CanComeBack(w, i) && JobFor(w.s.campaign.hosts[i], w.s.jobs).value.status.Queued?
    ensures Quiet(w, steps) && !InLatestBatch(Run(w, steps))
  {
    hide KeysOk, Jobs.WellKeyed, Run, Apply, TurnsBack, MayPass, Latest;
    var id := w.s.campaign.hosts[i].jobId.value;
    var claim := Other(w.s.remediations, w.s.jobs[id := Jobs.Claimed(w.s.jobs[id], owner, at, at)], w.s.keys);
    ClaimIsShown(w, i, owner, at, at, at);
    steps := [claim, Sync(at)];
    SamePlansTurnNothing(w, claim);
    SamePlansTurnNothing(Apply(w, claim), Sync(at));
    QuietFirst(Apply(w, claim), Sync(at), []);
    QuietFirst(w, claim, [Sync(at)] + []);
    assert steps == [claim] + ([Sync(at)] + []);
  }

  /** Operators approve the plan and its reboot again, the scheduler asks the gate and releases the job, and a
      worker claims it. */
  lemma ScheduledJobComesBack(w: World, i: nat, owner: Id, at: Time) returns (steps: seq<Step>)
    requires CanComeBack(w, i) && JobFor(w.s.campaign.hosts[i], w.s.jobs).value.status.Scheduled?
    ensures Quiet(w, steps) && !InLatestBatch(Run(w, steps))
  {
    hide KeysOk, Jobs.WellKeyed, Run, InLatestBatch, Evolves, TurnsBack, Quiet, MayPass, Reviewed, Releasable;
    hide Gate.ContentChanged, Gate.BindingChanged, Synced, AfterStart, CanceledCampaign, Stopped;
    var plan, id := w.s.campaign.hosts[i].remediationId.value, w.s.campaign.hosts[i].jobId.value;
    var r := w.s.remediations[plan];
    var review := Other(w.s.remediations[plan := Reviewed(r, "operator", at)], w.s.jobs, w.s.keys);
    ReviewEvolves(w, plan, w.s.jobs[id], at);
    var reviewed := Apply(w, review);
    ReviewedReleasable(w.s.remediations, plan, w.s.jobs[id], at);
    var release := Other(reviewed.s.remediations, w.s.jobs[id := Released(w.s.jobs[id], at)], w.s.keys);
    ReleaseEvolves(reviewed.s, id, at);
    SamePlansTurnNothing(reviewed, release);
    var released := Apply(reviewed, release);
    ReleasedInOrder(reviewed.s, id, at);
    var rest := QueuedJobComesBack(released, i, owner, at);
    QuietFirst(reviewed, release, rest);
    QuietFirst(w, review, [release] + rest);
    steps := [review] + ([release] + rest);
  }

  /** Why the steps in between must not take a plan back. A worker that was let through with the job writes its
      old copy of the plan back after a reconciliation has left it behind; the scheduled job, which the gate would
      have refused for good, is let through again and runs beside the latest batch. */
  lemma StaleWriteFreesJob(
    w: World, i: nat, copy: P.Remediation, host: P.Host, result: Option<P.ResultSummary>, owner: Id, at: Time)
    returns (first: Step, rest: seq<Step>)
    requires w.s.campaign.batchSize >= 1 && i < |w.s.campaign.hosts| && w.s.campaign.hosts[i].hostId !in Latest(w)
    requires KeysOk(w.s.jobs, w.s.keys) && Jobs.WellKeyed(w.s.jobs)
    requires Attached(w.s.campaign.hosts[i]) && w.s.campaign.hosts[i].remediationId.value in w.s.remediations
    requires OneOutstanding(w.s, w.s.campaign.hosts[i])
    requires IsRemediationJob(JobFor(w.s.campaign.hosts[i], w.s.jobs), Jobs.Scheduled)
    requires var job := JobFor(w.s.campaign.hosts[i], w.s.jobs).value;
      && job.remediationId == w.s.campaign.hosts[i].remediationId && job.attempts < job.maxAttempts
      && ApprovalRuns.Handed(copy, host, job, false)
      && copy.planVersion < w.s.remediations[w.s.campaign.hosts[i].remediationId.value].planVersion
    ensures var plan := w.s.campaign.hosts[i].remediationId.value;
      first == Other(
        w.s.remediations[plan := ApprovalRuns.Marked(copy, P.ExecBlocked, result, at)], w.s.jobs, w.s.keys)
    ensures TurnsBack(w, first) && Evolves(w.s, first.remediations, first.jobs, first.keys)
    ensures Quiet(Apply(w, first), rest) && !InLatestBatch(Run(w, [first] + rest))
  {
    var h := w.s.campaign.hosts[i];
    var plan, job := h.remediationId.value, JobFor(h, w.s.jobs).value;
    var r := ApprovalRuns.Marked(copy, P.ExecBlocked, result, at);
    first := Other(w.s.remediations[plan := r], w.s.jobs, w.s.keys);
    OldCopyEvolves(w.s, h, copy, host, result, at);
    OnePlanEvolves(w.s, plan, r);
    hide KeysOk, Jobs.WellKeyed, Evolves, MayPass, ApprovalRuns.Handed, Gate.ContentChanged, Gate.BindingChanged;
    hide Run, InLatestBatch, Quiet, OneOutstanding, ApprovalRuns.Marked, PlanEvolves;
    assert Outstanding(job) && HasOutstanding(w.s.jobs, plan);
    assert !GoesForward(w.s, first.remediations, h);
    var next := Apply(w, first);
    assert CanComeBack(next, i);
    hide Apply, CanComeBack;
    rest := ScheduledJobComesBack(next, i, owner, at);
    RunFirst(w, first, rest);
  }

  lemma OldCopyEvolves(
    s: State, h: HostPlan, copy: P.Remediation, host: P.Host, result: Option<P.ResultSummary>, at: Time)
    requires Attached(h) && h.remediationId.value in s.remediations && OneOutstanding(s, h)
    requires IsRemediationJob(JobFor(h, s.jobs), Jobs.Scheduled)
    requires ApprovalRuns.Handed(copy, host, JobFor(h, s.jobs).value, false)
    requires copy.planVersion < s.remediations[h.remediationId.value].planVersion
    ensures var r := ApprovalRuns.Marked(copy, P.ExecBlocked, result, at);
      && PlanEvolves(h.remediationId.value, s.remediations[h.remediationId.value], r, s.jobs)
      && MayPass(r, JobFor(h, s.jobs).value) && !Gate.ContentChanged(r) && !Gate.BindingChanged(r)
      && !Forward(s.remediations[h.remediationId.value], r)
  {
    var job := JobFor(h, s.jobs).value;
    ApprovalRuns.MarkedKeeps(copy, P.ExecBlocked, result, at, [], host, job, false);
    HandedMayPass(ApprovalRuns.Marked(copy, P.ExecBlocked, result, at), host, job, false);
    hide Gate.ExecutionEligibility, Passable, ApprovalOver, Gate.ContentChanged, Gate.BindingChanged;
  }

  lemma RunFirst(w: World, first: Step, rest: seq<Step>)
    ensures Run(w, [first] + rest) == Run(Apply(w, first), rest)
  {
    hide Apply;
    assert ([first] + rest)[1..] == rest;
  }

  lemma ReviewEvolves(w: World, plan: Id, job: Jobs.DurableJob, at: Time)
    requires KeysOk(w.s.jobs, w.s.keys) && Jobs.WellKeyed(w.s.jobs) && plan in w.s.remediations
    requires MayPass(w.s.remediations[plan], job)
    ensures var plans := w.s.remediations[plan := Reviewed(w.s.remediations[plan], "operator", at)];
      && Evolves(w.s, plans, w.s.jobs, w.s.keys)
      && !TurnsBack(w, Other(plans, w.s.jobs, w.s.keys))
  {
    hide Reviewed, MayPass, Evolves, KeysOk, Jobs.WellKeyed, HasActive, HasOutstanding, ApprovalOver;
    var r := w.s.remediations[plan];
    ReviewKeeps(r, "operator", at);
    ReviewedForward(r, job, "operator", at);
    OnePlanEvolves(w.s, plan, Reviewed(r, "operator", at));
  }

  lemma ReviewedReleasable(plans: map<Id, P.Remediation>, plan: Id, job: Jobs.DurableJob, at: Time)
    requires plan in plans && job.remediationId == Some(plan) && MayPass(plans[plan], job)
    requires !Gate.ContentChanged(plans[plan]) && !Gate.BindingChanged(plans[plan])
    ensures Releasable(plans[plan := Reviewed(plans[plan], "operator", at)], job)
  {
    hide Reviewed, MayPass, ApprovalRuns.Handed, Gate.ContentChanged, Gate.BindingChanged;
    ReviewedIsHanded(plans[plan], job, "operator", at);
  }

  lemma ReleasedInOrder(s: State, id: Id, at: Time)
    requires KeysOk(s.jobs, s.keys) && Jobs.WellKeyed(s.jobs) && id in s.jobs
    ensures KeysOk(s.jobs[id := Released(s.jobs[id], at)], s.keys)
    ensures Jobs.WellKeyed(s.jobs[id := Released(s.jobs[id], at)])
  {
  }

  /** The condition is exact. A batch is about to start, with every attached plan on record: whatever happens
      afterwards short of another start, and of a worker taking the plan of a host left out back, all hosts in
      flight stay within the new batch, if and only if nobody is overlooked by the start. */
  lemma StartKeepsTheBoundExactly(w: World, k: Circumstances)
    requires Inv(w.s, Latest(w)) && Given(w.s, k) && Starts(w.s, k)
    requires forall i :: 0 <= i < |w.s.campaign.hosts| && Attached(w.s.campaign.hosts[i]) ==>
      w.s.campaign.hosts[i].remediationId.value in w.s.remediations
    ensures NobodyOverlooked(w.s, k.now) <==>
      forall steps :: Quiet(Apply(w, Start(k)), steps) ==> InLatestBatch(Run(Apply(w, Start(k)), steps))
  {
    hide Inv, Given, Starts, Apply, InLatestBatch, Overlooked, Quiet;
    if NobodyOverlooked(w.s, k.now) {
      StartTurnsNothing(w, k);
      StepKeepsInv(w, Start(k));
      forall steps | Quiet(Apply(w, Start(k)), steps) ensures InLatestBatch(Run(Apply(w, Start(k)), steps)) {
        QuietIsCareful(Apply(w, Start(k)), steps);
        RunKeepsInv(Apply(w, Start(k)), steps);
        InvMeansInLatestBatch(Run(Apply(w, Start(k)), steps));
      }
    } else {
      var i :| 0 <= i < |w.s.campaign.hosts| && Overlooked(w.s, w.s.campaign.hosts[i], k.now);
      OverlookedIsAttached(w.s, i, k.now);
      var steps := OverlookedBreaksTheBound(w, k, i, "worker", k.now);
      assert Quiet(Apply(w, Start(k)), steps) && !InLatestBatch(Run(Apply(w, Start(k)), steps));
    }
  }

  lemma StartTurnsNothing(w: World, k: Circumstances)
    ensures !TurnsBack(w, Start(k))
  {
  }

  lemma OverlookedIsAttached(s: State, i: nat, now: Time)
    requires i < |s.campaign.hosts| && Overlooked(s, s.campaign.hosts[i], now)
    ensures Attached(s.campaign.hosts[i])
  {
  }

  /** Claiming the queued job of a host shows the host running at the next synchronization. */
  lemma ClaimIsShown(w: World, i: nat, owner: Id, at: Time, lease: Time, later: Time)
    requires w.s.campaign.batchSize >= 1 && i < |w.s.campaign.hosts| && KeysOk(w.s.jobs, w.s.keys)
    requires Jobs.WellKeyed(w.s.jobs)
    requires var h := w.s.campaign.hosts[i];
      && Attached(h) && h.remediationId.value in w.s.remediations && IsRemediationJob(JobFor(h, w.s.jobs), Jobs.Queued)
      && JobFor(h, w.s.jobs).value.attempts < JobFor(h, w.s.jobs).value.maxAttempts
    ensures var id := w.s.campaign.hosts[i].jobId.value;
      var claimed := w.s.jobs[id := Jobs.Claimed(w.s.jobs[id], owner, at, lease)];
      var end := Run(w, [Other(w.s.remediations, claimed, w.s.keys), Sync(later)]);
      && i < |end.s.campaign.hosts| && end.s.campaign.hosts[i].state == Running
      && end.s.campaign.hosts[i].hostId == w.s.campaign.hosts[i].hostId && Latest(end) == Latest(w)
  {
    hide Evolves, KeysOk, Jobs.WellKeyed, Synced, Run, AfterStart, CanceledCampaign, Stopped, PlanBinding;
    var id := w.s.campaign.hosts[i].jobId.value;
    var claimed := w.s.jobs[id := Jobs.Claimed(w.s.jobs[id], owner, at, lease)];
    ClaimEvolves(w.s, id, owner, at, lease);
    var claim := Other(w.s.remediations, claimed, w.s.keys);
    RunTwo(w, claim, Sync(later));
    SyncedHostAt(Apply(w, claim).s, later, i);
  }

  lemma RunTwo(w: World, first: Step, second: Step)
    ensures Run(w, [first, second]) == Apply(Apply(w, first), second)
  {
    hide Apply;
    assert [first, second][1..] == [second];
    assert Run(Apply(w, first), [second]) == Run(Apply(Apply(w, first), second), [second][1..]);
  }

  // ---------------------------------------------------------------- a concrete campaign

  function QueuedPlan(): P.Remediation {
    ApprovedPlan("plan-a", "a").(executionState := P.ExecQueued)
  }

  /** Host `a` is the first batch and its job is queued, but the content of its plan has just been edited.
      Host `b` waits for its turn. */
  function EditedCampaign(): State {
    var planA, planB := QueuedPlan(), ApprovedPlan("plan-b", "b");
    State(
      PatchCampaign(
        "campaign", [Entry(planA, Queued, Some("job-a")), Entry(planB, Approved, None)],
        [], CampaignRunning, 1, 1, 2, None, None, None, 0),
      map["plan-a" := planA.(riskLevel := P.High), "plan-b" := planB],
      map["job-a" := NewJob("job-a", "plan-a", planA, "campaign", true, 0)],
      map[Jobs.RemediationKey("plan-a", planA.planHash) := "job-a"])
  }

  function SecondStart(now: Time): Circumstances {
    Circumstances(
      now, map["a" := Machine("a", false), "b" := Machine("b", false)], {}, {"plan-b"},
      map["plan-a" := "job-c", "plan-b" := "job-b"])
  }

  /** The one job is that of host `a`, and the entries name the plans. */
  lemma EditedEntries()
    ensures var s := EditedCampaign();
      && s.campaign.batchSize == 1 && s.campaign.canceledAt == None && s.campaign.status == CampaignRunning
      && |s.campaign.hosts| == 2 && s.jobs.Keys == {"job-a"} && s.remediations.Keys == {"plan-a", "plan-b"}
      && s.campaign.hosts[0].hostId == "a" && s.campaign.hosts[0].remediationId == Some("plan-a")
      && s.campaign.hosts[0].jobId == Some("job-a") && s.campaign.hosts[0].state == Queued
      && s.campaign.hosts[1].hostId == "b" && s.campaign.hosts[1].remediationId == Some("plan-b")
      && s.campaign.hosts[1].jobId == None && s.campaign.hosts[1].state == Approved
      && s.jobs["job-a"].id == "job-a" && s.jobs["job-a"].remediationId == Some("plan-a")
      && s.jobs["job-a"].jobType.RemediationJob? && s.jobs["job-a"].status.Queued?
      && s.jobs["job-a"].attempts < s.jobs["job-a"].maxAttempts
      && s.remediations["plan-a"].hostId == "a" && s.remediations["plan-b"].hostId == "b"
      && s.remediations["plan-a"].executionState == P.ExecQueued
      && s.remediations["plan-b"].executionState == P.NotStarted
  {
    ApprovedPlanIsAllowed("plan-a", "a", false);
    ApprovedPlanIsAllowed("plan-b", "b", false);
    hide ApprovedPlan, Gate.ApprovalDecision, Gate.ExecutionEligibility;
  }

  lemma EditedTables()
    ensures KeysOk(EditedCampaign().jobs, EditedCampaign().keys) && Jobs.WellKeyed(EditedCampaign().jobs)
    ensures DistinctHosts(EditedCampaign().campaign.hosts)
  {
    EditedEntries();
    hide ApprovedPlan;
  }

  lemma EditedCampaignInOrder()
    ensures Inv(EditedCampaign(), {"a"})
  {
    var s := EditedCampaign();
    assert s.campaign.batchSize == 1;
    EditedEntries();
    EditedTables();
    hide EditedCampaign, KeysOk, Jobs.WellKeyed, DistinctHosts, P.RebootRisk;
    assert HostOk(s, {"a"}, s.campaign.hosts[0]);
    assert HostOk(s, {"a"}, s.campaign.hosts[1]);
  }

  lemma SecondStartGiven(now: Time)
    ensures Given(EditedCampaign(), SecondStart(now))
  {
    var s := EditedCampaign();
    EditedEntries();
    hide EditedCampaign;
  }

  lemma EditedPlans(now: Time)
    ensures var a, b := EditedCampaign().remediations["plan-a"], EditedCampaign().remediations["plan-b"];
      && Gate.ContentChanged(a) && a.executionState == P.ExecQueued && a.planVersion == 1
      && b == ApprovedPlan("plan-b", "b") && Gate.Reconciled(b, now) == b
      && PlanBinding(EditedCampaign().campaign.hosts[1], b).Allow?
  {
    ApprovedPlanIsAllowed("plan-a", "a", false);
    ApprovedPlanIsAllowed("plan-b", "b", false);
    assert P.PlanPayload(QueuedPlan()) == P.PlanPayload(ApprovedPlan("plan-a", "a"));
    hide Gate.ApprovalDecision, Gate.ExecutionEligibility;
  }

  lemma EditedFirstHost(now: Time)
    ensures var t := Synced(EditedCampaign(), now);
      && |t.campaign.hosts| == 2 && t.campaign.hosts[0].hostId == "a"
      && t.campaign.hosts[0].state !in IN_FLIGHT && t.campaign.hosts[0].state != Approved
  {
    var s, t := EditedCampaign(), Synced(EditedCampaign(), now);
    assert s.campaign.batchSize == 1;
    EditedEntries();
    EditedPlans(now);
    hide EditedCampaign, Synced, HostStateOf, PlanBinding, Gate.ContentChanged, Gate.Reconciled, Refuses;
    var h, r := s.campaign.hosts[0], s.remediations["plan-a"];
    EditHidesQueuedHost(s, now, 0);
    SyncedHostAt(s, now, 0);
    EditedPlanIsBlocked(r, now, s.jobs["job-a"]);
    var next := t.remediations["plan-a"];
    ApprovedExactly(h.state, next, JobFor(h, s.jobs), PlanBinding(h, next).Allow?);
  }

  lemma EditedSecondHost(now: Time)
    ensures var s, t := EditedCampaign(), Synced(EditedCampaign(), now);
      && |t.campaign.hosts| == 2 && Selectable(t.campaign.hosts[1], t.remediations)
      && t.campaign.hosts[1] == s.campaign.hosts[1].(approvals := t.campaign.hosts[1].approvals, updatedAt := now)
      && "plan-b" in t.remediations && t.remediations["plan-b"] == s.remediations["plan-b"]
  {
    var s, t := EditedCampaign(), Synced(EditedCampaign(), now);
    assert s.campaign.batchSize == 1 && s.campaign.hosts[1].failureSummary == None;
    EditedEntries();
    EditedPlans(now);
    ApprovedPlanIsAllowed("plan-b", "b", false);
    hide EditedCampaign, Synced, HostStateOf, Gate.ContentChanged, Gate.Reconciled, ApprovedPlan, Gate.ApprovalDecision;
    hide Gate.ExecutionEligibility, P.RebootRisk;
    var h := s.campaign.hosts[1];
    SyncedHostAt(s, now, 1);
    var r := t.remediations["plan-b"];
    ApprovedExactly(h.state, r, JobFor(h, s.jobs), PlanBinding(h, r).Allow?);
  }

  /** A campaign that was never canceled is open while an approved host is left. */
  lemma ApprovedHostKeepsOpen(s: State, now: Time, i: nat)
    requires s.campaign.batchSize >= 1 && s.campaign.canceledAt.None? && s.campaign.status != CampaignCanceled
    requires i < |Synced(s, now).campaign.hosts| && Synced(s, now).campaign.hosts[i].state == Approved
    ensures !Closed(Synced(s, now).campaign)
  {
    var hosts := Synced(s, now).campaign.hosts;
    StopOnFailure.SyncedHosts(s, now);
    hide Synced, HostsStatus;
    StatusTable(hosts);
    assert hosts[i].state in {Approved} && hosts[i].state !in {Succeeded, NoAction};
  }

  lemma SelectableIsApproved(h: HostPlan, plans: map<Id, P.Remediation>)
    requires Selectable(h, plans)
    ensures h.state == Approved
  {
  }

  lemma NobodyUnbound(hosts: seq<HostPlan>, plans: map<Id, P.Remediation>)
    requires |hosts| == 2 && hosts[0].state != Approved && Selectable(hosts[1], plans)
    ensures Unbound(hosts, plans) == [] && !Selectable(hosts[0], plans)
  {
    hide PlanBinding;
    assert hosts[..1][..0] == [] && hosts[..1][0] == hosts[0];
    assert Unbound(hosts[..1], plans) == [];
  }

  /** The next synchronization takes `a` out of flight and leaves `b` selectable. */
  lemma EditedSynced(now: Time)
    ensures var t := Synced(EditedCampaign(), now);
      && |t.campaign.hosts| == 2 && !Any(t.campaign.hosts, IN_FLIGHT) && !Closed(t.campaign)
      && t.campaign.hosts[0].hostId == "a" && !Selectable(t.campaign.hosts[0], t.remediations)
      && t.campaign.hosts[1].hostId == "b" && Selectable(t.campaign.hosts[1], t.remediations)
      && Unbound(t.campaign.hosts, t.remediations) == []
  {
    hide EditedCampaign, Synced, Closed, Unbound, Selectable;
    EditedEntries();
    var s, t := EditedCampaign(), Synced(EditedCampaign(), now);
    EditedFirstHost(now);
    EditedSecondHost(now);
    SelectableIsApproved(t.campaign.hosts[1], t.remediations);
    ApprovedHostKeepsOpen(s, now, 1);
    NobodyUnbound(t.campaign.hosts, t.remediations);
  }

  lemma OneCandidate(c: PatchCampaign, plans: map<Id, P.Remediation>)
    requires |c.hosts| == 2 && !Any(c.hosts, IN_FLIGHT) && !Closed(c)
    requires !Selectable(c.hosts[0], plans) && Selectable(c.hosts[1], plans)
    ensures BatchOf(c, plans).decision.Allow? && BatchOf(c, plans).hostIds == [c.hosts[1].hostId]
    ensures BatchOf(c, plans).planChanged == Unbound(c.hosts, plans)
  {
    hide Selectable, Any, Closed, Unbound, BatchLimit, Least;
    var hosts := c.hosts;
    assert hosts[..1][..0] == [] && hosts[..1][0] == hosts[0];
    assert Candidates(hosts[..1], plans) == [];
    assert |Candidates(hosts, plans)| == 1 && HostIds(Candidates(hosts, plans)) == [hosts[1].hostId];
    BatchExactly(c, plans);
  }

  /** So the second batch is `b` alone. */
  lemma EditedBatch(now: Time)
    ensures var t := Synced(EditedCampaign(), now);
      && BatchOf(t.campaign, t.remediations).decision.Allow?
      && BatchOf(t.campaign, t.remediations).hostIds == ["b"]
      && BatchOf(t.campaign, t.remediations).planChanged == []
  {
    hide EditedCampaign, Synced, Selectable, Closed, Any, BatchOf, Unbound;
    EditedEntries();
    var t := Synced(EditedCampaign(), now);
    EditedSynced(now);
    OneCandidate(t.campaign, t.remediations);
  }

  lemma MarkingNobody(hosts: seq<HostPlan>, now: Time)
    ensures MarkUnbound(hosts, [], now) == hosts
  {
  }

  /** The job of `b` is made. */
  lemma SecondHostPrepared(p: Preparation, now: Time)
    requires p.state.remediations.Keys == {"plan-a", "plan-b"}
    requires p.state.remediations["plan-b"] == ApprovedPlan("plan-b", "b")
    requires p.state.keys == EditedCampaign().keys
    requires |p.state.campaign.hosts| == 2
    requires p.state.campaign.hosts[1] == Entry(ApprovedPlan("plan-b", "b"), Approved, None).(
      approvals := p.state.campaign.hosts[1].approvals, updatedAt := now)
    ensures "b" in PrepareHost(p, 1, SecondStart(now)).jobsByHost
  {
    ApprovedPlanIsAllowed("plan-b", "b", false);
    hide ApprovedPlan, Gate.ApprovalDecision, Gate.ExecutionEligibility, NewJob;
  }

  lemma EditedStarts(now: Time)
    ensures Starts(EditedCampaign(), SecondStart(now))
  {
    var s, k := EditedCampaign(), SecondStart(now);
    var t := Synced(s, now);
    assert s.campaign.batchSize == 1;
    assert s.campaign.hosts[1] == Entry(ApprovedPlan("plan-b", "b"), Approved, None);
    EditedEntries();
    EditedSynced(now);
    EditedSecondHost(now);
    EditedBatch(now);
    hide EditedCampaign, Synced, BatchOf, Entry, ApprovedPlan, Selectable, PrepareHost, Closed;
    StopOnFailure.SyncedHosts(s, now);
    MarkingNobody(t.campaign.hosts, now);
    var p := Preparation(t, map[]);
    assert Marked(s, now) == t;
    assert PrepareHosts(p, ["b"], 1, k) == p;
    SecondHostPrepared(p, now);
    assert PrepareHosts(p, ["b"], 2, k) == PrepareHost(p, 1, k);
  }

  /** One edit of a queued plan is enough. In a campaign that is in order, with host `a` queued as the first
      batch, a second batch starts with host `b`; then some steps, none of them a start, show a host outside
      that batch in flight. */
  lemma EditedCampaignBreaksTheBound(first: Batch, now: Time) returns (steps: seq<Step>)
    requires first.hosts == {"a"}
    ensures var w := World(EditedCampaign(), [first]);
      && Inv(w.s, Latest(w)) && InLatestBatch(w) && Given(w.s, SecondStart(now)) && Starts(w.s, SecondStart(now))
      && Quiet(Apply(w, Start(SecondStart(now))), steps)
      && !InLatestBatch(Run(Apply(w, Start(SecondStart(now))), steps))
  {
    var w := World(EditedCampaign(), [first]);
    EditedCampaignInOrder();
    SecondStartGiven(now);
    EditedStarts(now);
    EditedIsOverlooked(now);
    EditedEntries();
    InvMeansInLatestBatch(w);
    hide EditedCampaign, Inv, Given, Starts, Overlooked, InLatestBatch, Run, Apply, Quiet;
    steps := OverlookedBreaksTheBound(w, SecondStart(now), 0, "worker", now);
  }

  lemma EditedIsOverlooked(now: Time)
    ensures Overlooked(EditedCampaign(), EditedCampaign().campaign.hosts[0], now)
  {
    var s := EditedCampaign();
    EditedEntries();
    EditedPlans(now);
    hide EditedCampaign, Gate.Reconciled, Gate.ContentChanged, Refuses;
    EditedPlanIsBlocked(s.remediations["plan-a"], now, s.jobs["job-a"]);
    assert MayRun(SyncedPlans(s, now), s.jobs["job-a"]);
  }
}
