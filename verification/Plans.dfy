/** Remediation plans, the hosts they target, and the part of a plan its hash covers. */
module Plans {
  import opened Common

  datatype Severity = Info | Low | Medium | High | Critical

  datatype Evidence = Evidence(source: string, excerpt: string, citation: string)

  datatype ActionType = PackageUpgrade | UncatalogedAction(name: string)

  datatype UpdateScope = AllUpdates | SecurityUpdates | NoUpdates | UncatalogedScope(name: string)

  datatype PlanStatus = PlanReady | InsufficientEvidence

  datatype AiDecision = AiDecision(
    updateScope: UpdateScope,
    riskLevel: Severity,
    explanation: string,
    status: PlanStatus,
    supportingCitations: seq<string>,
    unresolvedConflicts: seq<string>)

  datatype RebootStatus = RebootRequired | RebootLikely | RebootAfterPatch | RebootNotExpected | RebootUnknown

  datatype RebootAssessment = RebootAssessment(
    status: RebootStatus,
    rationale: string,
    evidence: seq<Evidence>,
    downtimeMinutes: int,
    approvedIfRequired: bool)

  /** A reboot assessment without the flag that approving it sets. */
  datatype RebootFacts = RebootFacts(status: RebootStatus, rationale: string, evidence: seq<Evidence>,
                                     downtimeMinutes: int)

  datatype RolloutPolicy = RolloutPolicy(oneAtATime: bool, batchSize: int, canaryCount: int, rationale: string)

  datatype FailurePolicy = FailurePolicy(stopRemainingHosts: bool, notifyOperator: bool, attemptRecovery: bool)

  datatype ExecutionTiming = Immediate | InMaintenanceWindow

  datatype MaintenanceWindow = MaintenanceWindow(timezone: string, weekdays: seq<int>, startTime: string,
                                                 durationMinutes: int)

  datatype ApprovalScope = PatchOnly | PatchAndRebootIfRequired | UnknownScope(name: string)

  datatype Protection = Protection(supported: bool, configured: bool, provider: string)

  datatype ApprovalState = Pending | Approved | Rejected | ManualReview

  datatype RebootApproval = RebootPending | RebootApproved | RebootRejected | RebootBlocked | RebootNotNeeded

  datatype ExecutionState =
    | NotStarted
    | ExecQueued
    | WaitingForWindow
    | ExecRunning
    | ExecSucceeded
    | ExecFailed
    | ExecBlocked
    | ExecCanceled

  datatype ResultSummary = ResultSummary(success: bool, summary: string)

  /** Everything the plan hash covers. */
  datatype Payload = Payload(
    planVersion: int,
    hostId: Id,
    scanId: Option<Id>,
    actionType: ActionType,
    updateScope: UpdateScope,
    riskLevel: Severity,
    decision: AiDecision,
    reboot: RebootFacts,
    rollout: RolloutPolicy,
    failurePolicy: FailurePolicy,
    timing: ExecutionTiming,
    window: Option<MaintenanceWindow>,
    approvalScope: ApprovalScope,
    protection: Protection)

  /** A collision-free digest: the hash of a payload is the payload itself. `Unset` is the empty
      string and `Opaque` any other text that is not the digest of a payload. */
  datatype PlanHash = Unset | Of(payload: Payload) | Opaque(tag: nat)

  datatype Remediation = Remediation(
    id: Id,
    hostId: Id,
    scanId: Option<Id>,
    actionType: ActionType,
    updateScope: UpdateScope,
    riskLevel: Severity,
    decision: AiDecision,
    reboot: RebootAssessment,
    rollout: RolloutPolicy,
    failurePolicy: FailurePolicy,
    timing: ExecutionTiming,
    window: Option<MaintenanceWindow>,
    approvalScope: ApprovalScope,
    approvalState: ApprovalState,
    rebootApproval: RebootApproval,
    executionState: ExecutionState,
    planVersion: int,
    planHash: PlanHash,
    approvedBy: Option<string>,
    approvedAt: Option<Time>,
    approvedPlanVersion: Option<int>,
    approvedPlanHash: Option<PlanHash>,
    rebootApprovedBy: Option<string>,
    rebootApprovedAt: Option<Time>,
    rebootApprovedPlanVersion: Option<int>,
    rebootApprovedPlanHash: Option<PlanHash>,
    result: Option<ResultSummary>,
    protection: Protection,
    updatedAt: Time)

  datatype Host = Host(
    id: Id,
    name: string,
    neverReboot: bool,
    snapshotConfigured: bool,
    snapshotCredential: Option<string>,
    snapshotTarget: Option<string>,
    snapshotMetadata: bool,
    hostKey: Option<string>)

  function PlanPayload(r: Remediation): Payload {
    Payload(
      r.planVersion, r.hostId, r.scanId, r.actionType, r.updateScope, r.riskLevel, r.decision,
      RebootFacts(r.reboot.status, r.reboot.rationale, r.reboot.evidence, r.reboot.downtimeMinutes),
      r.rollout, r.failurePolicy, r.timing, r.window, r.approvalScope, r.protection)
  }

  function HashOf(r: Remediation): PlanHash {
    Of(PlanPayload(r))
  }

  predicate RebootRisk(r: Remediation) {
    r.reboot.status != RebootNotExpected
  }
}
