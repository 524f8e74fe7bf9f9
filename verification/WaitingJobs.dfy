/** Jobs that wait for a maintenance window. The scheduler asks the gate before it releases one, so a scheduled
    job can come back only while the gate may still let it through. */
module WaitingJobs {
  import opened Common
  import opened Plans
  import opened Gate
  import opened ApprovalRuns
  import Jobs
  import Rollout

  /** The scheduler may release the job: its plan is on record and current, and the gate lets the job through on
      some host. */
  ghost predicate Releasable(plans: map<Id, Remediation>, job: Jobs.DurableJob) {
    && job.remediationId.Some? && job.remediationId.value in plans
    && exists host :: Handed(plans[job.remediationId.value], host, job, false)
  }

  // ---------------------------------------------------------------- when the gate may still let it through

  /** Under this version the plan will not be approved any more: it was rejected, or its approval names nobody. */
  predicate ApprovalOver(r: Remediation) {
    || r.approvalState == Rejected || r.approvalState == ManualReview
    || (r.approvalState == Approved && !BindingChanged(r) && !(Present(r.approvedBy) && r.approvedAt.Some?))
  }

  /** What the gate asks of the plan a job is bound to, read off the job's own bindings. */
  predicate Passable(job: Jobs.DurableJob) {
    && job.approvedPlanHash.Some? && job.approvedPlanHash.value.Of?
    && var bound := job.approvedPlanHash.value.payload;
       && bound.planVersion >= 1 && job.approvedPlanVersion == Some(bound.planVersion)
       && job.hostId == Some(bound.hostId) && job.scanId == bound.scanId
       && job.approvalScope ==
            Some(if bound.reboot.status != RebootNotExpected then PatchAndRebootIfRequired else PatchOnly)
       && bound.approvalScope == PatchOnly && bound.actionType == PackageUpgrade
       && bound.updateScope in {SecurityUpdates, AllUpdates}
       && Present(bound.scanId) && bound.decision.status == PlanReady && bound.decision.supportingCitations != []
  }

  /** The plan still has the version and hash the job is bound to, and its approval is not closed. */
  predicate MayPass(r: Remediation, job: Jobs.DurableJob) {
    && job.remediationId == Some(r.id)
    && job.approvedPlanVersion == Some(r.planVersion) && job.approvedPlanHash == Some(r.planHash)
    && !ApprovalOver(r) && Passable(job)
  }

  lemma HandedMayPass(r: Remediation, host: Host, job: Jobs.DurableJob, rollbackFailure: bool)
    requires Handed(r, host, job, rollbackFailure)
    ensures MayPass(r, job)
  {
    EligibilityExactly(r, host, job, rollbackFailure);
    ApprovalExactly(r, host);
    assert r.planHash == Of(PlanPayload(r));
    hide ExecutionEligibility, ApprovalDecision;
  }

  /** A host on which nothing but the plan can stand in the way. */
  function WillingHost(id: Id): Host {
    Host(id, id, false, true, Some("credential"), Some("target"), true, Some("key"))
  }

  /** What operators can do: approve a pending plan, then approve its reboot if it carries reboot risk. */
  function Reviewed(r: Remediation, actor: string, now: Time): Remediation {
    var approved := if r.approvalState == Pending then WithPlanApproval(r, actor, now) else r;
    if RebootRisk(approved) then WithRebootApproval(approved, actor, now) else approved
  }

  /** The approvals are granted: each is what its transition makes of the plan. */
  lemma ReviewIsGranted(r: Remediation, job: Jobs.DurableJob, actor: string, now: Time)
    requires MayPass(r, job) && !ContentChanged(r) && !BindingChanged(r)
    ensures var host, request := WillingHost(r.hostId), ApprovalRequest(r.planVersion, r.planHash, r.hostId);
      var approved := if r.approvalState == Pending then WithPlanApproval(r, actor, now) else r;
      && (r.approvalState == Pending ==> PlanApprovalDecision(r, host, request).Allow?)
      && (RebootRisk(r) ==> RebootApprovalDecision(approved, host, request).Allow?)
      && Reviewed(r, actor, now) == AfterRebootRequest(approved, host, request, actor, now)
  {
    assert PlanPayload(r) == r.planHash.payload;
    assert r.approvalState == Pending ==> PlanPayload(WithPlanApproval(r, actor, now)) == PlanPayload(r);
  }

  lemma ReviewKeeps(r: Remediation, actor: string, now: Time)
    ensures var end := Reviewed(r, actor, now);
      && PlanPayload(end) == PlanPayload(r) && end.planHash == r.planHash && end.id == r.id
      && end.executionState == r.executionState && end.planVersion == r.planVersion
      && (!BindingChanged(r) ==> !BindingChanged(end))
  {
  }

  lemma ReviewedIsHanded(r: Remediation, job: Jobs.DurableJob, actor: string, now: Time)
    requires actor != "" && MayPass(r, job) && !ContentChanged(r) && !BindingChanged(r)
    ensures Handed(Reviewed(r, actor, now), WillingHost(r.hostId), job, false)
  {
    var end, host := Reviewed(r, actor, now), WillingHost(r.hostId);
    ReviewKeeps(r, actor, now);
    assert PlanPayload(end) == r.planHash.payload;
    ApprovalExactly(end, host);
    EligibilityExactly(end, host, job, false);
    hide ExecutionEligibility, ApprovalDecision;
  }

  // ---------------------------------------------------------------- plans that go forward

  /** The version goes up; or version, hash and a closed approval stay. */
  predicate Forward(a: Remediation, b: Remediation) {
    && b.id == a.id
    && (|| b.planVersion > a.planVersion
        || (b.planVersion == a.planVersion && b.planHash == a.planHash && (ApprovalOver(a) ==> ApprovalOver(b))))
  }

  /** The job is bound to the plan's version or an older one. */
  predicate NotAhead(job: Jobs.DurableJob, r: Remediation) {
    job.approvedPlanVersion.Some? ==> job.approvedPlanVersion.value <= r.planVersion
  }

  predicate SameBindings(a: Jobs.DurableJob, b: Jobs.DurableJob) {
    && a.remediationId == b.remediationId && a.hostId == b.hostId && a.scanId == b.scanId
    && a.approvedPlanVersion == b.approvedPlanVersion && a.approvedPlanHash == b.approvedPlanHash
    && a.approvalScope == b.approvalScope
  }

  /** A job the gate cannot let through any more stays so while its plan goes forward. */
  lemma ForwardKeepsShut(a: Remediation, b: Remediation, before: Jobs.DurableJob, after: Jobs.DurableJob)
    requires Forward(a, b) && NotAhead(before, a) && SameBindings(before, after) && !MayPass(a, before)
    ensures !MayPass(b, after) && NotAhead(after, b)
  {
    hide ApprovalOver;
  }

  lemma ReconcileForward(r: Remediation, now: Time)
    ensures Forward(r, Reconciled(r, now))
    ensures !ContentChanged(Reconciled(r, now)) && !BindingChanged(Reconciled(r, now))
  {
    ReconcileSettles(r, now, now);
  }

  /** Exactly when a waiting job can come back: the gate may let it through on some host after the plan has gone
      forward in some way, if and only if `MayPass` holds now. */
  lemma MayPassExactly(r: Remediation, job: Jobs.DurableJob)
    requires !ContentChanged(r) && !BindingChanged(r) && NotAhead(job, r)
    ensures MayPass(r, job) <==>
      exists later, host :: Forward(r, later) && Handed(later, host, job, false)
  {
    hide Forward, Handed, MayPass, NotAhead, ContentChanged, BindingChanged;
    if MayPass(r, job) {
      ReviewedIsHanded(r, job, "operator", 0);
      ReviewedForward(r, job, "operator", 0);
    }
    if later, host :| Forward(r, later) && Handed(later, host, job, false) {
      HandedMayPass(later, host, job, false);
      if !MayPass(r, job) {
        SameJob(job);
        ForwardKeepsShut(r, later, job, job);
        assert false;
      }
    }
  }

  lemma SameJob(job: Jobs.DurableJob)
    ensures SameBindings(job, job)
  {
  }

  lemma ReviewedForward(r: Remediation, job: Jobs.DurableJob, actor: string, now: Time)
    requires MayPass(r, job)
    ensures Forward(r, Reviewed(r, actor, now))
  {
    ReviewKeeps(r, actor, now);
    hide Reviewed;
  }

  // ---------------------------------------------------------------- jobs the source makes, edits

  /** The job a start makes for a plan the gate lets through is one the gate may let through. */
  lemma NewJobMayPass(jobId: Id, r: Remediation, host: Host, campaignId: Id, open: bool, now: Time)
    requires !ContentChanged(r) && !BindingChanged(r) && ExecutionEligibility(r, host, None, false).Allow?
    ensures MayPass(r, Rollout.NewJob(jobId, r.id, r, campaignId, open, now))
    ensures NotAhead(Rollout.NewJob(jobId, r.id, r, campaignId, open, now), r)
  {
    Rollout.NewJobIsEligible(jobId, r, host, campaignId, open, now, false);
    HandedMayPass(r, host, Rollout.NewJob(jobId, r.id, r, campaignId, open, now), false);
    hide ExecutionEligibility, MayPass;
  }

  /** An edit retires it: once the edit is reconciled no waiting job of the plan can pass any more. */
  lemma EditRetires(r: Remediation, job: Jobs.DurableJob, now: Time)
    requires ContentChanged(r) && NotAhead(job, r)
    ensures !MayPass(Reconciled(r, now), job)
  {
    ReconcileSettles(r, now, now);
    hide Reconciled;
  }
}
