/** Concrete records for the lemmas that show a property failing. */
module Samples {
  import opened Common
  import opened Plans
  import C = Campaign
  import Gate

  /** A new plan for one host: security updates in batches of two after one canary. */
  function DraftPlan(id: Id, hostId: Id, reboot: RebootStatus): Remediation {
    var r := Remediation(
      id, hostId, Some("scan"), PackageUpgrade, SecurityUpdates, Low,
      AiDecision(SecurityUpdates, Low, "", PlanReady, ["citation"], []),
      RebootAssessment(reboot, "", [], 0, false),
      RolloutPolicy(false, 2, 1, ""), FailurePolicy(true, true, true), Immediate, None, PatchOnly,
      Pending, RebootPending, NotStarted, 1, Unset,
      None, None, None, None, None, None, None, None, None, Protection(false, false, ""), 0);
    r.(planHash := HashOf(r))
  }

  /** The plan approved, with no reboot expected. */
  function ApprovedPlan(id: Id, hostId: Id): Remediation {
    Gate.WithPlanApproval(DraftPlan(id, hostId, RebootNotExpected), "operator", 0)
  }

  function Machine(id: Id, neverReboot: bool): Host {
    Host(id, id, neverReboot, false, None, None, false, Some("key"))
  }

  /** The entry a campaign holds for the plan as it is. */
  function Entry(plan: Remediation, state: C.HostState, jobId: Option<Id>): C.HostPlan {
    C.HostPlan(
      plan.hostId, state, Some(plan.id), Some(plan.planVersion), Some(plan.planHash), C.ApprovalsOf(plan), jobId, None,
        0)
  }

  /** The entry of a host without a plan. */
  function IdleEntry(hostId: Id): C.HostPlan {
    C.HostPlan(
      hostId, C.NoAction, None, None, None,
      C.Approvals(Pending, RebootPending, None, None, None, None, None, None, None, None), None, None, 0)
  }

  lemma ApprovedPlanIsAllowed(id: Id, hostId: Id, neverReboot: bool)
    ensures var r, host := ApprovedPlan(id, hostId), Machine(hostId, neverReboot);
      && r.planHash == HashOf(r) && r.id == id && r.hostId == hostId && r.planVersion == 1
      && r.approvalState == Approved && r.executionState == NotStarted && !RebootRisk(r)
      && r.reboot.status == RebootNotExpected
      && r.rollout == RolloutPolicy(false, 2, 1, "") && r.result.None?
      && Gate.ApprovalDecision(r, host).Allow? && Gate.ExecutionEligibility(r, host, None, false).Allow?
  {
    var draft := DraftPlan(id, hostId, RebootNotExpected);
    assert PlanPayload(draft) == draft.planHash.payload;
    assert PlanPayload(ApprovedPlan(id, hostId)) == PlanPayload(draft);
  }
}
