/** The trusted-change gate: the decisions that stand between a plan and a host, and the transitions
    that approve, invalidate and classify. */
module Gate {
  import opened Common
  import opened Plans
  import Jobs

  datatype GateCode =
    | PlanNotPending
    | PlanNotApproved
    | PlanContentChanged
    | PlanVersionChanged
    | PlanHashChanged
    | PlanBindingChanged
    | PlanMetadataIncomplete
    | HostBindingInvalid
    | HostnameMismatch
    | EvidenceIncomplete
    | ActionNotCataloged
    | UpdateScopeNotCataloged
    | ApprovalScopeInvalid
    | ApprovalMetadataIncomplete
    | RebootNotRequired
    | RebootApprovalMissing
    | RebootApprovalIncomplete
    | RebootPolicyDenied
    | HostStateDrift
    | ActiveRollbackFailure
    | DuplicateExecution
    | SnapshotConfigurationIncomplete
    | RollbackSucceeded
    | RollbackFailed
    | ExecutionFailed
    | ExecutionChangedFailed
    | StaleExecutionUncertain
    | CampaignStateInvalid
    | CampaignBatchInProgress
    | CampaignPlanChanged
    | CampaignNoApprovedHosts

  datatype Category = ApprovalValidation | SafetyValidation | RemediationExecution | LeaseExpired

  datatype GateDecision = Allow | Deny(code: GateCode, category: Category, retryable: bool)

  function Refuse(code: GateCode): GateDecision {
    Deny(code, ApprovalValidation, false)
  }

  function RefuseUnsafe(code: GateCode): GateDecision {
    Deny(code, SafetyValidation, false)
  }

  datatype ApprovalRequest = ApprovalRequest(planVersion: int, planHash: PlanHash, hostname: string)

  // ---------------------------------------------------------------- decisions

  function CatalogDecision(r: Remediation): GateDecision {
    if r.approvalScope != PatchOnly then Refuse(ApprovalScopeInvalid)
    else if r.actionType != PackageUpgrade then Refuse(ActionNotCataloged)
    else if r.updateScope != SecurityUpdates && r.updateScope != AllUpdates then Refuse(UpdateScopeNotCataloged)
    else Allow
  }

  function EvidenceDecision(r: Remediation): GateDecision {
    if !Present(r.scanId) || r.decision.status != PlanReady || r.decision.supportingCitations == []
    then Refuse(EvidenceIncomplete) else Allow
  }

  function ApprovalDecision(r: Remediation, host: Host): GateDecision {
    if r.hostId != host.id then Refuse(HostBindingInvalid)
    else if !CatalogDecision(r).Allow? then CatalogDecision(r)
    else if !EvidenceDecision(r).Allow? then EvidenceDecision(r)
    else if r.planHash == Unset || r.planVersion < 1 then Refuse(PlanMetadataIncomplete)
    else if r.planHash != HashOf(r) then Refuse(PlanContentChanged)
    else if r.approvalState != Approved then Refuse(PlanNotApproved)
    else if !Present(r.approvedBy) || r.approvedAt.None? then Refuse(ApprovalMetadataIncomplete)
    else if r.approvedPlanVersion != Some(r.planVersion) || r.approvedPlanHash != Some(r.planHash)
      then Refuse(PlanBindingChanged)
    else if !RebootRisk(r) then Allow
    else if r.rebootApproval != RebootApproved then Refuse(RebootApprovalMissing)
    else if !Present(r.rebootApprovedBy) || r.rebootApprovedAt.None?
            || r.rebootApprovedPlanVersion != Some(r.planVersion) || r.rebootApprovedPlanHash != Some(r.planHash)
            || !r.reboot.approvedIfRequired
    then Refuse(RebootApprovalIncomplete)
    else if host.neverReboot then RefuseUnsafe(RebootPolicyDenied)
    else Allow
  }

  function ValidateApprovalRequest(host: Host, r: Remediation, request: ApprovalRequest): GateDecision {
    if r.hostId != host.id then Refuse(HostBindingInvalid)
    else if request.hostname != host.name then Refuse(HostnameMismatch)
    else if request.planVersion != r.planVersion then Refuse(PlanVersionChanged)
    else if request.planHash != r.planHash then Refuse(PlanHashChanged)
    else if r.planHash != HashOf(r) then Refuse(PlanContentChanged)
    else Allow
  }

  datatype SnapshotDecision = SnapshotDecision(decision: GateDecision, required: bool)

  function SnapshotRequirement(host: Host, r: Remediation): SnapshotDecision {
    var planned := r.protection.supported || r.protection.configured;
    if planned && !host.snapshotConfigured then SnapshotDecision(RefuseUnsafe(SnapshotConfigurationIncomplete), true)
    else if !RebootRisk(r) || !(planned || host.snapshotConfigured) then SnapshotDecision(Allow, false)
    else if !Present(host.snapshotCredential) || !(Present(host.snapshotTarget) || host.snapshotMetadata)
    then SnapshotDecision(RefuseUnsafe(SnapshotConfigurationIncomplete), true)
    else SnapshotDecision(Allow, true)
  }

  function JobScope(r: Remediation): ApprovalScope {
    if RebootRisk(r) then PatchAndRebootIfRequired else PatchOnly
  }

  function ExecutionEligibility(
    r: Remediation, host: Host, job: Option<Jobs.DurableJob>, rollbackFailure: bool): GateDecision
  {
    if rollbackFailure then RefuseUnsafe(ActiveRollbackFailure)
    else if !ApprovalDecision(r, host).Allow? then ApprovalDecision(r, host)
    else if !SnapshotRequirement(host, r).decision.Allow? then SnapshotRequirement(host, r).decision
    else if job.None? then Allow
    else if job.value.remediationId != Some(r.id) || job.value.hostId != Some(host.id) || job.value.scanId != r.scanId
    then Refuse(HostBindingInvalid)
    else if job.value.approvalScope != Some(JobScope(r)) then Refuse(ApprovalScopeInvalid)
    else if job.value.approvedPlanVersion != Some(r.planVersion) then Refuse(PlanVersionChanged)
    else if job.value.approvedPlanHash != Some(r.planHash) then Refuse(PlanHashChanged)
    else if r.approvedPlanVersion != job.value.approvedPlanVersion then Refuse(PlanBindingChanged)
    else if r.approvedPlanHash != job.value.approvedPlanHash then Refuse(PlanBindingChanged)
    else Allow
  }

  function RebootExecutionEligibility(r: Remediation, host: Host, rebootRequired: bool): GateDecision {
    if rebootRequired then ApprovalDecision(r, host) else Allow
  }

  /** What an approved plan is: bound to its host, cataloged, backed by evidence, its stored hash that of its
      content, approved by a named actor at exactly this version and hash, and, if it carries reboot risk,
      with the reboot approved in the same way on a host that permits reboots. */
  lemma ApprovalExactly(r: Remediation, host: Host)
    ensures ApprovalDecision(r, host).Allow? <==>
      && r.hostId == host.id
      && r.approvalScope == PatchOnly && r.actionType == PackageUpgrade
      && r.updateScope in {SecurityUpdates, AllUpdates}
      && Present(r.scanId) && r.decision.status == PlanReady && r.decision.supportingCitations != []
      && r.planVersion >= 1 && r.planHash == HashOf(r)
      && r.approvalState == Approved && Present(r.approvedBy) && r.approvedAt.Some?
      && r.approvedPlanVersion == Some(r.planVersion) && r.approvedPlanHash == Some(HashOf(r))
      && (RebootRisk(r) ==>
           && r.rebootApproval == RebootApproved && Present(r.rebootApprovedBy) && r.rebootApprovedAt.Some?
           && r.rebootApprovedPlanVersion == Some(r.planVersion) && r.rebootApprovedPlanHash == Some(HashOf(r))
           && r.reboot.approvedIfRequired && !host.neverReboot)
  {
  }

  /** A snapshot is taken before exactly those changes that may reboot a host which has, or whose plan
      foresees, snapshots; it is never silently skipped: an incomplete configuration is refused instead. */
  lemma SnapshotExactly(host: Host, r: Remediation)
    ensures var requirement := SnapshotRequirement(host, r);
      var planned := r.protection.supported || r.protection.configured;
      var usable := host.snapshotConfigured && Present(host.snapshotCredential) &&
        (Present(host.snapshotTarget) || host.snapshotMetadata);
      && (requirement.decision.Allow? && requirement.required <==> RebootRisk(r) && usable)
      && (requirement.decision.Allow? && !requirement.required <==>
           (!RebootRisk(r) && (planned ==> host.snapshotConfigured)) || (!planned && !host.snapshotConfigured))
      && (!requirement.decision.Allow? ==> requirement.required && !requirement.decision.retryable)
  {
  }

  /** The two binding tests at the end of the eligibility check are redundant: an approved plan and a
      job that names its version and hash already agree. What the check adds to the approval decision
      is the snapshot configuration and the job's own bindings. */
  lemma EligibilityExactly(r: Remediation, host: Host, job: Jobs.DurableJob, rollbackFailure: bool)
    ensures ExecutionEligibility(r, host, Some(job), rollbackFailure).Allow? <==>
      && !rollbackFailure
      && ApprovalDecision(r, host).Allow?
      && SnapshotRequirement(host, r).decision.Allow?
      && job.remediationId == Some(r.id) && job.hostId == Some(host.id) && job.scanId == r.scanId
      && job.approvalScope == Some(JobScope(r))
      && job.approvedPlanVersion == Some(r.planVersion) && job.approvedPlanHash == Some(HashOf(r))
  {
  }

  // ---------------------------------------------------------------- reconciliation

  datatype PlanReconciliation = PlanReconciliation(
    decision: GateDecision,
    changed: bool,
    contentChanged: bool,
    previousVersion: int,
    previousHash: PlanHash,
    remediation: Remediation)

  predicate ContentChanged(r: Remediation) {
    r.planHash != HashOf(r)
  }

  predicate BindingChanged(r: Remediation) {
    r.approvalState == Approved &&
      (r.approvedPlanVersion != Some(r.planVersion) || r.approvedPlanHash != Some(r.planHash))
  }

  /** The plan under its next version, hashed. */
  function Renewed(r: Remediation): Remediation {
    var bumped := r.(planVersion := r.planVersion + 1);
    bumped.(planHash := HashOf(bumped))
  }

  function Unapproved(r: Remediation, current: Time): Remediation {
    r.(approvalState := Pending,
       approvedBy := None, approvedAt := None, approvedPlanVersion := None, approvedPlanHash := None,
       rebootApproval := if RebootRisk(r) then RebootPending else RebootNotNeeded,
       rebootApprovedBy := None, rebootApprovedAt := None, rebootApprovedPlanVersion := None,
         rebootApprovedPlanHash := None,
       reboot := r.reboot.(approvedIfRequired := false),
       executionState :=
         if r.executionState in {ExecRunning, ExecSucceeded, ExecFailed} then r.executionState else ExecBlocked,
       updatedAt := current)
  }

  function Reconciled(r: Remediation, current: Time): Remediation {
    if ContentChanged(r) then Unapproved(Renewed(r), current)
    else if BindingChanged(r) then Unapproved(r, current)
    else r
  }

  method ReconcilePlan(remediation: Remediation, current: Time) returns (outcome: PlanReconciliation)
    ensures outcome.remediation == Reconciled(remediation, current)
    ensures outcome.changed <==> ContentChanged(remediation) || BindingChanged(remediation)
    ensures outcome.contentChanged <==> ContentChanged(remediation)
    ensures outcome.decision.Allow? <==> !outcome.changed
    ensures outcome.previousVersion == remediation.planVersion && outcome.previousHash == remediation.planHash
  {
    var updated := remediation;
    var expectedHash := HashOf(updated);
    var contentChanged := updated.planHash != expectedHash;
    var bindingChanged := updated.approvalState == Approved
                          && (updated.approvedPlanVersion != Some(updated.planVersion) ||
                              updated.approvedPlanHash != Some(updated.planHash));
    if !contentChanged && !bindingChanged {
      return PlanReconciliation(Allow, false, false, updated.planVersion, updated.planHash, updated);
    }
    var previousVersion := updated.planVersion;
    var previousHash := updated.planHash;
    if contentChanged {
      updated := updated.(planVersion := updated.planVersion + 1);
      updated := updated.(planHash := HashOf(updated));
    }
    updated := updated.(approvalState := Pending);
    updated := updated.(approvedBy := None, approvedAt := None);
    updated := updated.(approvedPlanVersion := None, approvedPlanHash := None);
    updated := updated.(rebootApproval := if !RebootRisk(updated) then RebootNotNeeded else RebootPending);
    updated := updated.(rebootApprovedBy := None, rebootApprovedAt := None);
    updated := updated.(rebootApprovedPlanVersion := None, rebootApprovedPlanHash := None);
    updated := updated.(reboot := updated.reboot.(approvedIfRequired := false));
    if updated.executionState !in {ExecRunning, ExecSucceeded, ExecFailed} {
      updated := updated.(executionState := ExecBlocked);
    }
    updated := updated.(updatedAt := current);
    outcome := PlanReconciliation(
      Refuse(if contentChanged then PlanContentChanged else PlanBindingChanged),
      true, contentChanged, previousVersion, previousHash, updated);
  }

  /** Reconciling always leaves the stored hash equal to the hash of the content, a second time changes
      nothing, the version grows by one exactly when the content had changed, and no approval survives
      a change. */
  lemma ReconcileSettles(r: Remediation, first: Time, second: Time)
    ensures var settled := Reconciled(r, first);
      && settled.planHash == HashOf(settled)
      && Reconciled(settled, second) == settled
      && settled.planVersion == r.planVersion + (if ContentChanged(r) then 1 else 0)
      && (settled != r ==>
           && settled.approvalState == Pending && settled.rebootApproval != RebootApproved
           && !settled.reboot.approvedIfRequired)
  {
    if !ContentChanged(r) && BindingChanged(r) {
      assert PlanPayload(Unapproved(r, first)) == PlanPayload(r);
    } else if ContentChanged(r) {
      assert PlanPayload(Unapproved(Renewed(r), first)) == PlanPayload(Renewed(r));
      assert PlanPayload(Renewed(r)) == PlanPayload(r.(planVersion := r.planVersion + 1));
    }
  }

  // ---------------------------------------------------------------- approvals

  datatype Transition = Transition(decision: GateDecision, remediation: Remediation)

  function PlanApprovalDecision(r: Remediation, host: Host, request: ApprovalRequest): GateDecision {
    if r.approvalState != Pending then Refuse(PlanNotPending)
    else if !ValidateApprovalRequest(host, r, request).Allow? then ValidateApprovalRequest(host, r, request)
    else if !CatalogDecision(r).Allow? then CatalogDecision(r)
    else EvidenceDecision(r)
  }

  function WithPlanApproval(r: Remediation, actor: string, current: Time): Remediation {
    r.(approvalState := Approved,
       approvedBy := Some(actor), approvedAt := Some(current),
       approvedPlanVersion := Some(r.planVersion), approvedPlanHash := Some(r.planHash),
       rebootApproval := if RebootRisk(r) then RebootPending else RebootNotNeeded,
       rebootApprovedBy := None, rebootApprovedAt := None, rebootApprovedPlanVersion := None,
         rebootApprovedPlanHash := None,
       reboot := r.reboot.(approvedIfRequired := false),
       updatedAt := current)
  }

  method ApprovePlan(remediation: Remediation, host: Host, request: ApprovalRequest, actor: string, current: Time)
    returns (transition: Transition)
    ensures transition.decision == PlanApprovalDecision(remediation, host, request)
    ensures transition.remediation ==
      if transition.decision.Allow? then WithPlanApproval(remediation, actor, current) else remediation
  {
    var updated := remediation;
    if updated.approvalState != Pending {
      return Transition(Refuse(PlanNotPending), updated);
    }
    var requested := ValidateApprovalRequest(host, updated, request);
    if !requested.Allow? {
      return Transition(requested, updated);
    }
    var catalog := CatalogDecision(updated);
    if !catalog.Allow? {
      return Transition(catalog, updated);
    }
    var evidence := EvidenceDecision(updated);
    if !evidence.Allow? {
      return Transition(evidence, updated);
    }
    updated := updated.(approvalState := Approved);
    updated := updated.(approvedBy := Some(actor), approvedAt := Some(current));
    updated := updated.(approvedPlanVersion := Some(updated.planVersion), approvedPlanHash := Some(updated.planHash));
    updated := updated.(rebootApproval := if RebootRisk(updated) then RebootPending else RebootNotNeeded);
    updated := updated.(rebootApprovedBy := None, rebootApprovedAt := None);
    updated := updated.(rebootApprovedPlanVersion := None, rebootApprovedPlanHash := None);
    updated := updated.(reboot := updated.reboot.(approvedIfRequired := false));
    updated := updated.(updatedAt := current);
    transition := Transition(Allow, updated);
  }

  function RebootApprovalDecision(r: Remediation, host: Host, request: ApprovalRequest): GateDecision {
    if r.approvalState != Approved then Refuse(PlanNotApproved)
    else if !ValidateApprovalRequest(host, r, request).Allow? then ValidateApprovalRequest(host, r, request)
    else if !RebootRisk(r) then Refuse(RebootNotRequired)
    else if host.neverReboot then RefuseUnsafe(RebootPolicyDenied)
    else Allow
  }

  function WithRebootApproval(r: Remediation, actor: string, current: Time): Remediation {
    r.(rebootApproval := RebootApproved,
       rebootApprovedBy := Some(actor), rebootApprovedAt := Some(current),
       rebootApprovedPlanVersion := Some(r.planVersion), rebootApprovedPlanHash := Some(r.planHash),
       reboot := r.reboot.(approvedIfRequired := true),
       updatedAt := current)
  }

  function RebootBlockedByPolicy(r: Remediation, current: Time): Remediation {
    r.(rebootApproval := RebootBlocked, executionState := ExecBlocked, updatedAt := current)
  }

  function AfterRebootRequest(
    r: Remediation, host: Host, request: ApprovalRequest, actor: string, current: Time): Remediation
  {
    var decision := RebootApprovalDecision(r, host, request);
    if decision.Allow? then WithRebootApproval(r, actor, current)
    else if decision.code == RebootPolicyDenied then RebootBlockedByPolicy(r, current)
    else r
  }

  method ApproveReboot(remediation: Remediation, host: Host, request: ApprovalRequest, actor: string, current: Time)
    returns (transition: Transition)
    ensures transition.decision == RebootApprovalDecision(remediation, host, request)
    ensures transition.remediation == AfterRebootRequest(remediation, host, request, actor, current)
  {
    var updated := remediation;
    if updated.approvalState != Approved {
      return Transition(Refuse(PlanNotApproved), updated);
    }
    var requested := ValidateApprovalRequest(host, updated, request);
    if !requested.Allow? {
      return Transition(requested, updated);
    }
    if !RebootRisk(updated) {
      return Transition(Refuse(RebootNotRequired), updated);
    }
    if host.neverReboot {
      updated := updated.(rebootApproval := RebootBlocked);
      updated := updated.(executionState := ExecBlocked);
      updated := updated.(updatedAt := current);
      return Transition(RefuseUnsafe(RebootPolicyDenied), updated);
    }
    updated := updated.(rebootApproval := RebootApproved);
    updated := updated.(rebootApprovedBy := Some(actor), rebootApprovedAt := Some(current));
    updated := updated.(rebootApprovedPlanVersion := Some(updated.planVersion),
                        rebootApprovedPlanHash := Some(updated.planHash));
    updated := updated.(reboot := updated.reboot.(approvedIfRequired := true));
    updated := updated.(updatedAt := current);
    transition := Transition(Allow, updated);
  }

  /** What approving gives: after a granted plan approval the gate lets the plan through as it stands
      exactly if it carries no reboot risk, and after a granted reboot approval it lets it through. */
  lemma ApprovalsOpenTheGate(r: Remediation, host: Host, request: ApprovalRequest, actor: string, current: Time)
    requires actor != "" && r.planVersion >= 1
    ensures PlanApprovalDecision(r, host, request).Allow? ==>
      (ApprovalDecision(WithPlanApproval(r, actor, current), host).Allow? <==> !RebootRisk(r))
    ensures RebootApprovalDecision(r, host, request).Allow? && CatalogDecision(r).Allow? && EvidenceDecision(r).Allow?
      && Present(r.approvedBy) && r.approvedAt.Some? && !BindingChanged(r)
      ==> ApprovalDecision(WithRebootApproval(r, actor, current), host).Allow?
  {
    assert PlanPayload(WithPlanApproval(r, actor, current)) == PlanPayload(r);
    assert PlanPayload(WithRebootApproval(r, actor, current)) == PlanPayload(r);
  }

  // ---------------------------------------------------------------- outcomes and recovery

  datatype SnapshotState =
    | SnapshotCreating
    | SnapshotCreated
    | DeleteScheduled
    | RollbackStarted
    | RolledBack
    | RollbackFailedState

  datatype ExecutionOutcome = ExecutionOutcome(
    decision: GateDecision,
    remediationState: ExecutionState,
    jobCompleted: bool,
    jobRequeued: bool,
    stopRemainingHosts: bool)

  /** `nonRetryable` is the verdict of the text classifier on the summary. */
  function OutcomeOf(
    success: bool, changed: bool, nonRetryable: bool, snapshot: Option<SnapshotState>): ExecutionOutcome
  {
    if success then ExecutionOutcome(Allow, ExecSucceeded, true, false, false)
    else if snapshot.Some? && snapshot.value in {SnapshotCreated, RollbackStarted, RolledBack, RollbackFailedState} then
      var code := if snapshot.value == RollbackFailedState then RollbackFailed
                  else if snapshot.value == RolledBack then RollbackSucceeded else ExecutionChangedFailed;
      ExecutionOutcome(RefuseUnsafe(code), ExecBlocked, false, false, true)
    else if changed
      then ExecutionOutcome(Deny(ExecutionChangedFailed, RemediationExecution, false), ExecFailed, false, false, true)
    else ExecutionOutcome(
      Deny(ExecutionFailed, RemediationExecution, !nonRetryable),
      if nonRetryable then ExecFailed else ExecQueued, false, !nonRetryable, nonRetryable)
  }

  /** An outcome completes the job, puts it back or fails it, exactly one of the three; it stops the other
      hosts exactly if it fails it; it blocks the plan exactly if a snapshot of the failed run stands or was
      used; and a run that changed the host, or stands under a snapshot, is never put back. */
  lemma OutcomeExactly(success: bool, changed: bool, nonRetryable: bool, snapshot: Option<SnapshotState>)
    ensures var outcome := OutcomeOf(success, changed, nonRetryable, snapshot);
      var standing := snapshot.Some? && snapshot.value !in {SnapshotCreating, DeleteScheduled};
      && (outcome.jobCompleted <==> success) && !(outcome.jobCompleted && outcome.jobRequeued)
      && (outcome.stopRemainingHosts <==> !outcome.jobCompleted && !outcome.jobRequeued)
      && (outcome.remediationState == ExecBlocked <==> !success && standing)
      && (outcome.jobRequeued <==> !success && !changed && !standing && !nonRetryable)
      && (outcome.remediationState == ExecSucceeded <==> success)
      && (outcome.remediationState == ExecQueued <==> outcome.jobRequeued)
      && (outcome.decision.Allow? <==> success)
  {
    if snapshot.Some? {
      match snapshot.value case SnapshotCreating => case _ =>
    }
  }

  datatype RecoveryDecision = RecoveryDecision(decision: GateDecision, remediationState: ExecutionState, dispatch: bool)

  /** A phase in which the host may already be changing. */
  predicate Uncertain(phase: Option<Jobs.Phase>) {
    && phase.Some?
    && phase.value in {Jobs.SnapshotCreate, Jobs.AnsibleExecution, Jobs.PostRebootHealthCheck, Jobs.SnapshotRollback}
  }

  function RecoveredPhase(job: Jobs.DurableJob): Option<Jobs.Phase> {
    if job.result.recoveredFromPhase.Some? then job.result.recoveredFromPhase else job.currentPhase
  }

  function StaleRecovery(job: Jobs.DurableJob, exhausted: bool): RecoveryDecision {
    if Uncertain(RecoveredPhase(job)) then RecoveryDecision(RefuseUnsafe(StaleExecutionUncertain), ExecBlocked, false)
    else if exhausted then RecoveryDecision(Deny(ExecutionFailed, LeaseExpired, false), ExecFailed, false)
    else RecoveryDecision(Allow, ExecQueued, true)
  }
}
