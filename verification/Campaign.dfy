/** Campaigns: how a host's rollout state is projected from its plan and its job, how the campaign's
    status and batch counter follow, and which hosts the next batch takes. */
module Campaign {
  import opened Common
  import P = Plans
  import Gate
  import Jobs

  datatype HostState =
    | Selected
    | ProposalQueued
    | ProposalRunning
    | AwaitingApproval
    | AwaitingRebootApproval
    | Approved
    | Scheduled
    | Queued
    | Running
    | Succeeded
    | Failed
    | Rejected
    | Blocked
    | Canceled
    | NoAction
    | PlanChanged

  datatype CampaignStatus =
    | CampaignDraft
    | CampaignProposing
    | CampaignAwaitingApproval
    | CampaignReady
    | CampaignRunning
    | CampaignPartiallySucceeded
    | CampaignSucceeded
    | CampaignFailed
    | CampaignCancelling
    | CampaignCanceled

  /** The approval fields of a plan, mirrored on the host's entry for display. */
  datatype Approvals = Approvals(
    approvalState: P.ApprovalState,
    rebootApproval: P.RebootApproval,
    approvedPlanVersion: Option<int>,
    approvedPlanHash: Option<P.PlanHash>,
    approvedBy: Option<string>,
    approvedAt: Option<Time>,
    rebootApprovedBy: Option<string>,
    rebootApprovedAt: Option<Time>,
    rebootApprovedPlanVersion: Option<int>,
    rebootApprovedPlanHash: Option<P.PlanHash>)

  datatype HostPlan = HostPlan(
    hostId: Id,
    state: HostState,
    remediationId: Option<Id>,
    planVersion: Option<int>,
    planHash: Option<P.PlanHash>,
    approvals: Approvals,
    jobId: Option<Id>,
    failureSummary: Option<string>,
    updatedAt: Time)

  datatype PatchCampaign = PatchCampaign(
    id: Id,
    hosts: seq<HostPlan>,
    remediationIds: seq<Id>,
    status: CampaignStatus,
    batchSize: int,
    currentBatch: int,
    totalBatches: int,
    failureSummary: Option<string>,
    canceledBy: Option<string>,
    canceledAt: Option<Time>,
    updatedAt: Time)

  const PLAN_CHANGED_REASON := "The campaign host plan changed and must be reviewed again"
  const PROPOSAL_GONE := "Remediation proposal no longer exists"

  // ---------------------------------------------------------------- arithmetic and lists

  function CeilDiv(n: nat, size: int): nat
    requires size >= 1
  {
    (n + size - 1) / size
  }

  /** The rounded-up quotient is the least number of batches of that size that hold `n` hosts. */
  lemma CeilDivLeast(n: nat, size: int, batches: nat)
    requires size >= 1
    ensures CeilDiv(n, size) <= batches <==> n <= batches * size
  {
    var q := CeilDiv(n, size);
    var r := (n + size - 1) % size;
    assert n + size - 1 == q * size + r && 0 <= r < size;
    if q <= batches {
      assert q * size <= batches * size;
    } else {
      assert q * size >= (batches + 1) * size == batches * size + size;
    }
  }

  lemma CeilDivMonotone(n: nat, m: nat, size: int)
    requires size >= 1 && n <= m
    ensures CeilDiv(n, size) <= CeilDiv(m, size)
  {
    CeilDivLeast(m, size, CeilDiv(m, size));
    CeilDivLeast(n, size, CeilDiv(m, size));
  }

  function Count(hosts: seq<HostPlan>, among: set<HostState>): nat {
    if hosts == [] then 0
    else Count(hosts[..|hosts| - 1], among) + (if hosts[|hosts| - 1].state in among then 1 else 0)
  }

  predicate Any(hosts: seq<HostPlan>, among: set<HostState>) {
    exists i :: 0 <= i < |hosts| && hosts[i].state in among
  }

  predicate All(hosts: seq<HostPlan>, among: set<HostState>) {
    forall i :: 0 <= i < |hosts| ==> hosts[i].state in among
  }

  /** A count is positive exactly if some host is counted and full exactly if all are. */
  lemma {:induction false} CountMeans(hosts: seq<HostPlan>, among: set<HostState>)
    ensures Count(hosts, among) <= |hosts|
    ensures Count(hosts, among) > 0 <==> Any(hosts, among)
    ensures Count(hosts, among) == |hosts| <==> All(hosts, among)
  {
    if hosts != [] {
      var front := hosts[..|hosts| - 1];
      CountMeans(front, among);
      assert forall i :: 0 <= i < |front| ==> front[i] == hosts[i];
    }
  }

  lemma {:induction false} CountSplits(hosts: seq<HostPlan>, a: set<HostState>, b: set<HostState>)
    requires a !! b
    ensures Count(hosts, a + b) == Count(hosts, a) + Count(hosts, b)
  {
    if hosts != [] {
      CountSplits(hosts[..|hosts| - 1], a, b);
    }
  }

  function Joined(texts: seq<string>): string {
    if texts == [] then ""
    else if |texts| == 1 then texts[0]
    else Joined(texts[..|texts| - 1]) + "; " + texts[|texts| - 1]
  }

  function Failures(hosts: seq<HostPlan>): seq<string> {
    if hosts == [] then []
    else
      var last := hosts[|hosts| - 1];
      Failures(hosts[..|hosts| - 1]) + (if Present(last.failureSummary) then [last.failureSummary.value] else [])
  }

  function AttachedIds(hosts: seq<HostPlan>): seq<Id> {
    if hosts == [] then []
    else
      var last := hosts[|hosts| - 1];
      AttachedIds(hosts[..|hosts| - 1]) + (if Present(last.remediationId) then [last.remediationId.value] else [])
  }

  // ---------------------------------------------------------------- one host

  function PlanBinding(h: HostPlan, r: P.Remediation): Gate.GateDecision {
    if r.hostId != h.hostId then Gate.Refuse(Gate.HostBindingInvalid)
    else if h.planVersion != Some(r.planVersion) || h.planHash != Some(r.planHash) || r.planHash != P.HashOf(r)
    then Gate.Refuse(Gate.CampaignPlanChanged)
    else Gate.Allow
  }

  /** The state a plan's own execution state dictates. */
  function ExecutionHostState(state: P.ExecutionState): Option<HostState> {
    match state
    case ExecSucceeded => Some(Succeeded)
    case ExecFailed => Some(Failed)
    case ExecRunning => Some(Running)
    case ExecQueued => Some(Queued)
    case WaitingForWindow => Some(Scheduled)
    case ExecCanceled => Some(Canceled)
    case NotStarted => None
    case ExecBlocked => None
  }

  predicate IsRemediationJob(job: Option<Jobs.DurableJob>, status: Jobs.JobStatus) {
    job.Some? && job.value.jobType.RemediationJob? && job.value.status == status
  }

  function HostStateOf(current: HostState, r: P.Remediation, job: Option<Jobs.DurableJob>, bound: bool): HostState {
    if IsRemediationJob(job, Jobs.Running) then Running
    else if IsRemediationJob(job, Jobs.Canceled) then Canceled
    else if ExecutionHostState(r.executionState).Some? then ExecutionHostState(r.executionState).value
    else if !bound || (current == PlanChanged && r.approvalState == P.Pending) then PlanChanged
    else if r.approvalState == P.Rejected then Rejected
    else if r.approvalState == P.ManualReview then Blocked
    else if r.executionState == P.ExecBlocked then Blocked
    else if r.approvalState != P.Approved then AwaitingApproval
    else if !P.RebootRisk(r) || r.rebootApproval == P.RebootApproved then Approved
    else if r.rebootApproval == P.RebootBlocked || r.rebootApproval == P.RebootRejected then Blocked
    else AwaitingRebootApproval
  }

  /** A projected host can start its plan exactly if the plan is bound, approved for all it needs, has
      not been started or blocked, and no job of it runs or was canceled. */
  lemma ApprovedExactly(current: HostState, r: P.Remediation, job: Option<Jobs.DurableJob>, bound: bool)
    ensures HostStateOf(current, r, job, bound) == Approved <==>
      && bound && r.executionState == P.NotStarted
      && r.approvalState == P.Approved && (P.RebootRisk(r) ==> r.rebootApproval == P.RebootApproved)
      && !IsRemediationJob(job, Jobs.Running) && !IsRemediationJob(job, Jobs.Canceled)
  {
  }

  function ApprovalsOf(r: P.Remediation): Approvals {
    Approvals(r.approvalState, r.rebootApproval, r.approvedPlanVersion, r.approvedPlanHash, r.approvedBy, r.approvedAt,
              r.rebootApprovedBy, r.rebootApprovedAt, r.rebootApprovedPlanVersion, r.rebootApprovedPlanHash)
  }

  function JobFor(h: HostPlan, jobs: Jobs.Store): Option<Jobs.DurableJob> {
    if Present(h.jobId) && h.jobId.value in jobs then Some(jobs[h.jobId.value]) else None
  }

  function ProjectedState(h: HostPlan, r: P.Remediation, jobs: Jobs.Store): HostState {
    HostStateOf(h.state, r, JobFor(h, jobs), PlanBinding(h, r).Allow?)
  }

  function ProjectedHost(h: HostPlan, remediations: map<Id, P.Remediation>, jobs: Jobs.Store, now: Time): HostPlan {
    if !Present(h.remediationId) then h
    else if h.remediationId.value !in remediations then
      h.(state := Failed, failureSummary := Some(PROPOSAL_GONE), updatedAt := now)
    else
      var r := remediations[h.remediationId.value];
      var state := ProjectedState(h, r, jobs);
      h.(approvals := ApprovalsOf(r),
         state := state,
         failureSummary := if state == PlanChanged then Some(PLAN_CHANGED_REASON)
                           else if r.result.Some? && !r.result.value.success then Some(r.result.value.summary)
                           else h.failureSummary,
         updatedAt := now)
  }

  lemma ProjectedHostTwice(
    h: HostPlan, remediations: map<Id, P.Remediation>, jobs: Jobs.Store, first: Time, second: Time)
    ensures ProjectedHost(ProjectedHost(h, remediations, jobs, first), remediations, jobs, second)
         == ProjectedHost(h, remediations, jobs, second)
  {
  }

  // ---------------------------------------------------------------- the campaign's status

  const IN_FLIGHT := {Scheduled, Queued, Running}
  const PROPOSALS := {ProposalQueued, ProposalRunning}
  const AWAITING := {AwaitingApproval, AwaitingRebootApproval, PlanChanged}
  const UNSUCCESSFUL := {Failed, Rejected, Blocked, Canceled}
  const COMPLETED := {Succeeded, Failed, Canceled, NoAction}

  function TerminalStatus(hosts: seq<HostPlan>): CampaignStatus {
    var succeeded := Count(hosts, {Succeeded});
    var failed := Count(hosts, UNSUCCESSFUL);
    var awaiting := Count(hosts, AWAITING);
    var approved := Count(hosts, {Approved});
    var actionable := |hosts| - Count(hosts, {NoAction});
    if succeeded > 0 && (failed > 0 || awaiting > 0 || approved > 0) then CampaignPartiallySucceeded
    else if awaiting > 0 then CampaignAwaitingApproval
    else if approved > 0 then CampaignReady
    else if actionable > 0 && succeeded == actionable then CampaignSucceeded
    else if succeeded > 0 && failed > 0 then CampaignPartiallySucceeded
    else if failed > 0 then CampaignFailed
    else if actionable == 0 then CampaignSucceeded
    else CampaignDraft
  }

  function HostsStatus(hosts: seq<HostPlan>): CampaignStatus {
    if hosts != [] && All(hosts, {Selected}) then CampaignDraft
    else if Any(hosts, PROPOSALS) then CampaignProposing
    else if Any(hosts, IN_FLIGHT) then CampaignRunning
    else TerminalStatus(hosts)
  }

  function WithStatus(c: PatchCampaign): PatchCampaign {
    if c.canceledAt.Some? then c.(status := if Any(c.hosts, {Running}) then CampaignCancelling else CampaignCanceled)
    else if c.status == CampaignCanceled then c
    else
      var text := Clip(Joined(Failures(c.hosts)), 2000);
      c.(status := HostsStatus(c.hosts), failureSummary := if text == "" then None else Some(text))
  }

  /** The counting form of the terminal status says the same as a reading of who is there. */
  lemma TerminalStatusReads(hosts: seq<HostPlan>)
    ensures var open := Any(hosts, AWAITING) || Any(hosts, {Approved});
      TerminalStatus(hosts) ==
        if Any(hosts, {Succeeded}) && (Any(hosts, UNSUCCESSFUL) || open) then CampaignPartiallySucceeded
        else if Any(hosts, AWAITING) then CampaignAwaitingApproval
        else if Any(hosts, {Approved}) then CampaignReady
        else if All(hosts, {Succeeded, NoAction}) then CampaignSucceeded
        else if Any(hosts, UNSUCCESSFUL) then CampaignFailed
        else CampaignDraft
  {
    CountMeans(hosts, {Succeeded});
    CountMeans(hosts, UNSUCCESSFUL);
    CountMeans(hosts, AWAITING);
    CountMeans(hosts, {Approved});
    CountMeans(hosts, {NoAction});
    CountSplits(hosts, {Succeeded}, {NoAction});
    CountMeans(hosts, {Succeeded} + {NoAction});
    assert {Succeeded} + {NoAction} == {Succeeded, NoAction};
  }

  lemma EveryState(state: HostState)
    ensures state in PROPOSALS + IN_FLIGHT + AWAITING + {Approved} + UNSUCCESSFUL + {Selected, Succeeded, NoAction}
  {
    match state case Selected => case _ =>
  }

  /** Who is absent bounds who is there. */
  lemma Remaining(hosts: seq<HostPlan>)
    requires !Any(hosts, PROPOSALS) && !Any(hosts, IN_FLIGHT) && !Any(hosts, AWAITING) && !Any(hosts, {Approved})
    ensures !Any(hosts, UNSUCCESSFUL) ==> All(hosts, {Selected, Succeeded, NoAction})
    ensures !Any(hosts, UNSUCCESSFUL) && !Any(hosts, {Selected}) ==> All(hosts, {Succeeded, NoAction})
  {
    forall i | 0 <= i < |hosts| ensures hosts[i].state in UNSUCCESSFUL + {Selected, Succeeded, NoAction} {
      var state := hosts[i].state;
      assert state !in PROPOSALS && state !in IN_FLIGHT && state !in AWAITING && state !in {Approved};
      EveryState(state);
    }
    forall i | 0 <= i < |hosts| && !Any(hosts, UNSUCCESSFUL)
      ensures hosts[i].state in {Selected, Succeeded, NoAction}
      ensures !Any(hosts, {Selected}) ==> hosts[i].state in {Succeeded, NoAction}
    {
      var state := hosts[i].state;
      assert state !in UNSUCCESSFUL && (!Any(hosts, {Selected}) ==> state !in {Selected});
    }
  }

  /** The status, as a table over the hosts' states. */
  lemma StatusTable(hosts: seq<HostPlan>)
    ensures var status := HostsStatus(hosts);
      var started := Any(hosts, PROPOSALS) || Any(hosts, IN_FLIGHT);
      var open := Any(hosts, AWAITING) || Any(hosts, {Approved});
      && (status == CampaignSucceeded <==> All(hosts, {Succeeded, NoAction}))
      && (status == CampaignFailed <==> !started && !open && !Any(hosts, {Succeeded}) && Any(hosts, UNSUCCESSFUL))
      && (status == CampaignProposing <==> Any(hosts, PROPOSALS))
      && (status == CampaignRunning <==> !Any(hosts, PROPOSALS) && Any(hosts, IN_FLIGHT))
      && (status == CampaignPartiallySucceeded <==>
          !started && Any(hosts, {Succeeded}) && (open || Any(hosts, UNSUCCESSFUL)))
      && (status == CampaignAwaitingApproval <==> !started && !Any(hosts, {Succeeded}) && Any(hosts, AWAITING))
      && (status == CampaignReady <==>
           !started && !Any(hosts, {Succeeded}) && !Any(hosts, AWAITING) && Any(hosts, {Approved}))
      && (status == CampaignDraft <==> Any(hosts, {Selected}) && All(hosts, {Selected, Succeeded, NoAction}))
      && status !in {CampaignCancelling, CampaignCanceled}
  {
    TerminalStatusReads(hosts);
    hide TerminalStatus;
    if !Any(hosts, PROPOSALS) && !Any(hosts, IN_FLIGHT) && !Any(hosts, AWAITING) && !Any(hosts, {Approved}) {
      Remaining(hosts);
    }
    if hosts != [] && All(hosts, {Selected}) {
      assert hosts[0].state in {Selected};
    }
  }

  /** Once a campaign is canceled no projection leads out of cancelling and canceled. */
  lemma CanceledStays(c: PatchCampaign)
    ensures c.canceledAt.Some? ==>
      WithStatus(c).status in {CampaignCancelling, CampaignCanceled} && WithStatus(c).canceledAt == c.canceledAt
    ensures WithStatus(c).status == CampaignCanceled ==>
      c.status == CampaignCanceled || (c.canceledAt.Some? && !Any(c.hosts, {Running}))
  {
    StatusTable(c.hosts);
  }

  method ProjectTerminalCampaignStatus(hosts: seq<HostPlan>) returns (status: CampaignStatus)
    ensures status == TerminalStatus(hosts)
  {
    var succeeded := Count(hosts, {Succeeded});
    var failed := Count(hosts, {Failed, Rejected, Blocked, Canceled});
    var awaiting := Count(hosts, {AwaitingApproval, AwaitingRebootApproval, PlanChanged});
    var approved := Count(hosts, {Approved});
    var actionable := |hosts| - Count(hosts, {NoAction});
    if succeeded != 0 && (failed != 0 || awaiting != 0 || approved != 0) {
      status := CampaignPartiallySucceeded;
    } else if awaiting != 0 {
      status := CampaignAwaitingApproval;
    } else if approved != 0 {
      status := CampaignReady;
    } else if actionable != 0 && succeeded == actionable {
      status := CampaignSucceeded;
    } else if succeeded != 0 && failed != 0 {
      status := CampaignPartiallySucceeded;
    } else if failed != 0 {
      status := CampaignFailed;
    } else if actionable == 0 {
      status := CampaignSucceeded;
    } else {
      status := CampaignDraft;
    }
  }

  method ProjectCampaignStatus(campaign: PatchCampaign) returns (updated: PatchCampaign)
    ensures updated == WithStatus(campaign)
  {
    updated := campaign;
    if updated.canceledAt.Some? {
      updated := updated.(status := if Any(updated.hosts, {Running}) then CampaignCancelling else CampaignCanceled);
      return;
    }
    if updated.status == CampaignCanceled {
      return;
    }
    var states := set i | 0 <= i < |updated.hosts| :: updated.hosts[i].state;
    StatesRead(updated.hosts);
    if states == {Selected} {
      updated := updated.(status := CampaignDraft);
    } else if states * {ProposalQueued, ProposalRunning} != {} {
      updated := updated.(status := CampaignProposing);
    } else if states * {Scheduled, Queued, Running} != {} {
      updated := updated.(status := CampaignRunning);
    } else {
      var status := ProjectTerminalCampaignStatus(updated.hosts);
      updated := updated.(status := status);
    }
    var failures := Clip(Joined(Failures(updated.hosts)), 2000);
    updated := updated.(failureSummary := if failures == "" then None else Some(failures));
  }

  lemma StatesRead(hosts: seq<HostPlan>)
    ensures var states := set i | 0 <= i < |hosts| :: hosts[i].state;
      && (states == {Selected} <==> hosts != [] && All(hosts, {Selected}))
      && (forall among :: states * among != {} <==> Any(hosts, among))
  {
    var states := set i | 0 <= i < |hosts| :: hosts[i].state;
    if hosts != [] && All(hosts, {Selected}) {
      assert hosts[0].state in states;
    }
    if states == {Selected} {
      assert Selected in states;
      forall i | 0 <= i < |hosts| ensures hosts[i].state in {Selected} {
        assert hosts[i].state in states;
      }
    }
    forall among ensures states * among != {} <==> Any(hosts, among) {
      if Any(hosts, among) {
        var i :| 0 <= i < |hosts| && hosts[i].state in among;
        assert hosts[i].state in states * among;
      }
      if states * among != {} {
        var state :| state in states * among;
        assert exists i :: 0 <= i < |hosts| && hosts[i].state == state;
      }
    }
  }

  // ---------------------------------------------------------------- the whole projection

  function ProjectedHosts(
    hosts: seq<HostPlan>, remediations: map<Id, P.Remediation>, jobs: Jobs.Store, now: Time): seq<HostPlan>
  {
    seq(|hosts|, i requires 0 <= i < |hosts| => ProjectedHost(hosts[i], remediations, jobs, now))
  }

  function CompletedBatches(hosts: seq<HostPlan>, size: int): nat
    requires size >= 1
  {
    CeilDiv(Count(hosts, COMPLETED), size)
  }

  function Projected(c: PatchCampaign, remediations: map<Id, P.Remediation>, jobs: Jobs.Store, now: Time): PatchCampaign
    requires c.batchSize >= 1
  {
    var hosts := ProjectedHosts(c.hosts, remediations, jobs, now);
    WithStatus(c.(hosts := hosts)).(
      remediationIds := AttachedIds(hosts),
      currentBatch := Min(c.totalBatches, Max(c.currentBatch, CompletedBatches(hosts, c.batchSize))),
      updatedAt := now)
  }

  method ProjectCampaign(campaign: PatchCampaign, remediations: map<Id, P.Remediation>, jobs: Jobs.Store, current: Time)
    returns (updated: PatchCampaign)
    requires campaign.batchSize >= 1
    ensures updated == Projected(campaign, remediations, jobs, current)
  {
    var hosts := campaign.hosts;
    for i := 0 to |hosts|
      invariant |hosts| == |campaign.hosts|
      invariant forall k :: 0 <= k < i ==> hosts[k] == ProjectedHost(campaign.hosts[k], remediations, jobs, current)
      invariant forall k :: i <= k < |hosts| ==> hosts[k] == campaign.hosts[k]
    {
      var hostPlan := hosts[i];
      if !Present(hostPlan.remediationId) {
        continue;
      }
      if hostPlan.remediationId.value !in remediations {
        hosts := hosts[i := hostPlan.(state := Failed, failureSummary := Some(PROPOSAL_GONE), updatedAt := current)];
        continue;
      }
      var remediation := remediations[hostPlan.remediationId.value];
      var binding := PlanBinding(hostPlan, remediation);
      hostPlan := hostPlan.(approvals := ApprovalsOf(remediation));
      if remediation.result.Some? && !remediation.result.value.success {
        hostPlan := hostPlan.(failureSummary := Some(remediation.result.value.summary));
      }
      var job := JobFor(hostPlan, jobs);
      hostPlan := hostPlan.(state := HostStateOf(hostPlan.state, remediation, job, binding.Allow?));
      if hostPlan.state == PlanChanged {
        hostPlan := hostPlan.(failureSummary := Some(PLAN_CHANGED_REASON));
      }
      hosts := hosts[i := hostPlan.(updatedAt := current)];
    }
    assert hosts == ProjectedHosts(campaign.hosts, remediations, jobs, current);
    updated := ProjectCampaignStatus(campaign.(hosts := hosts));
    updated := updated.(remediationIds := AttachedIds(hosts));
    var completedCount := Count(hosts, {Succeeded, Failed, Canceled, NoAction});
    var completedBatches := if completedCount != 0 then CeilDiv(completedCount, campaign.batchSize) else 0;
    assert completedBatches == CompletedBatches(hosts, campaign.batchSize);
    updated := updated.(currentBatch := Min(updated.totalBatches, Max(updated.currentBatch, completedBatches)));
    updated := updated.(updatedAt := current);
  }

  /** Computing the status again for other hosts forgets that it was computed before, and leaves the
      other fields alone. */
  lemma StatusForgets(c: PatchCampaign, a: seq<HostPlan>, b: seq<HostPlan>, ids: seq<Id>, batch: int, now: Time)
    ensures var once := WithStatus(c.(hosts := a)).(remediationIds := ids, currentBatch := batch, updatedAt := now);
      WithStatus(once.(hosts := b))
        == WithStatus(c.(hosts := b)).(remediationIds := ids, currentBatch := batch, updatedAt := now)
  {
    StatusTable(a);
    hide HostsStatus;
  }

  lemma CountersAgree(a: seq<HostPlan>, b: seq<HostPlan>, size: int)
    requires size >= 1 && |a| == |b| && forall i :: 0 <= i < |a| ==> a[i].state == b[i].state
    ensures CompletedBatches(a, size) == CompletedBatches(b, size)
  {
    SameCounts(a, b);
  }

  /** Projection is idempotent, and more: whatever was projected before, with the same plans and jobs,
      only the time of the last projection shows. */
  lemma ProjectionIdempotent(
    c: PatchCampaign, remediations: map<Id, P.Remediation>, jobs: Jobs.Store, first: Time, second: Time)
    requires c.batchSize >= 1
    ensures Projected(Projected(c, remediations, jobs, first), remediations, jobs, second)
      == Projected(c, remediations, jobs, second)
  {
    var once := ProjectedHosts(c.hosts, remediations, jobs, first);
    var twice := ProjectedHosts(once, remediations, jobs, second);
    var direct := ProjectedHosts(c.hosts, remediations, jobs, second);
    forall i | 0 <= i < |c.hosts| ensures twice[i] == direct[i] && once[i].state == direct[i].state {
      ProjectedHostTwice(c.hosts[i], remediations, jobs, first, second);
    }
    assert twice == direct;
    CountersAgree(once, direct, c.batchSize);
    var batch := Min(c.totalBatches, Max(c.currentBatch, CompletedBatches(once, c.batchSize)));
    StatusForgets(c, once, direct, AttachedIds(once), batch, first);
    hide HostsStatus, ProjectedHost, WithStatus, CompletedBatches, AttachedIds, ProjectedHosts;
    var middle := WithStatus(c.(hosts := once)).(remediationIds := AttachedIds(once), currentBatch := batch,
                                                 updatedAt := first);
    assert Projected(c, remediations, jobs, first) == middle;
    StatusKeeps(c.(hosts := once));
    StatusKeeps(c.(hosts := direct));
  }

  lemma StatusKeeps(c: PatchCampaign)
    ensures WithStatus(c) == c.(status := WithStatus(c).status, failureSummary := WithStatus(c).failureSummary)
  {
    hide HostsStatus;
  }

  /** Counts and statuses see only the hosts' states. */
  lemma {:induction false} SameCounts(a: seq<HostPlan>, b: seq<HostPlan>)
    requires |a| == |b| && forall i :: 0 <= i < |a| ==> a[i].state == b[i].state
    ensures forall among :: Count(a, among) == Count(b, among)
  {
    if a != [] {
      SameCounts(a[..|a| - 1], b[..|b| - 1]);
    }
  }

  // ---------------------------------------------------------------- the batch counter

  /** The counters of a campaign are in order. */
  predicate Sized(c: PatchCampaign) {
    c.batchSize >= 1 && c.totalBatches == CeilDiv(|c.hosts|, c.batchSize) && 0 <= c.currentBatch <= c.totalBatches
  }

  /** Projection keeps the counters in order and never moves the batch counter back; the completed hosts
      never fill more batches than there are, and when all are completed the counter stands at the end. */
  lemma ProjectionKeepsSized(c: PatchCampaign, remediations: map<Id, P.Remediation>, jobs: Jobs.Store, now: Time)
    requires Sized(c)
    ensures var next := Projected(c, remediations, jobs, now);
      && Sized(next) && next.batchSize == c.batchSize && next.totalBatches == c.totalBatches
      && |next.hosts| == |c.hosts|
      && c.currentBatch <= next.currentBatch
      && CompletedBatches(next.hosts, c.batchSize) <= next.currentBatch
      && (All(next.hosts, COMPLETED) ==> next.currentBatch == next.totalBatches)
  {
    var hosts := ProjectedHosts(c.hosts, remediations, jobs, now);
    CountMeans(hosts, COMPLETED);
    CeilDivMonotone(Count(hosts, COMPLETED), |hosts|, c.batchSize);
    StatusKeeps(c.(hosts := hosts));
    hide WithStatus, ProjectedHost, Count;
  }

  /** The canary rule looks at the batch counter, and projection leaves the counter at zero exactly if
      it stood at zero and no host has completed, for whatever reason. */
  lemma CounterStaysZeroExactly(c: PatchCampaign, remediations: map<Id, P.Remediation>, jobs: Jobs.Store, now: Time)
    requires Sized(c) && c.hosts != []
    ensures var next := Projected(c, remediations, jobs, now);
      next.currentBatch == 0 <==> c.currentBatch == 0 && !Any(next.hosts, COMPLETED)
  {
    var hosts := ProjectedHosts(c.hosts, remediations, jobs, now);
    CountMeans(hosts, COMPLETED);
    CeilDivLeast(Count(hosts, COMPLETED), c.batchSize, 0);
    CeilDivLeast(|hosts|, c.batchSize, 0);
    StatusKeeps(c.(hosts := hosts));
    hide WithStatus, ProjectedHost, Count, CeilDiv;
  }

  /** The least of some limits. */
  function Least(limits: seq<int>): int
    requires limits != []
  {
    if |limits| == 1 then limits[0] else Min(Least(limits[..|limits| - 1]), limits[|limits| - 1])
  }

  lemma {:induction false} LeastMeans(limits: seq<int>)
    requires limits != []
    ensures Least(limits) in limits && forall limit :: limit in limits ==> Least(limits) <= limit
  {
    var front := limits[..|limits| - 1];
    assert limits == front + [limits[|limits| - 1]];
    if |limits| > 1 {
      LeastMeans(front);
    }
  }

  /** `policies` are the hosts' batch limits; `plans` those of the attached plans. */
  function RolloutLimit(policies: seq<int>, plans: seq<int>): int
    requires policies != []
  {
    Max(1, Least(policies + plans))
  }

  /** Attaching a proposal (or learning that none is needed) may change the batch size in either
      direction; the projection that follows puts the counters back in order. */
  lemma AttachingRestoresSized(
    c: PatchCampaign, at: nat, attached: HostPlan, policies: seq<int>, plans: seq<int>,
    remediations: map<Id, P.Remediation>, jobs: Jobs.Store, now: Time)
    requires Sized(c) && at < |c.hosts| && policies != []
    ensures var size := RolloutLimit(policies, plans);
      var changed := c.(hosts := c.hosts[at := attached], batchSize := size, totalBatches := CeilDiv(|c.hosts|, size));
      && Sized(Projected(changed, remediations, jobs, now))
      && (forall limit :: limit in policies + plans && limit >= 1 ==> size <= limit)
  {
    var size := RolloutLimit(policies, plans);
    LeastMeans(policies + plans);
    var changed := c.(hosts := c.hosts[at := attached], batchSize := size, totalBatches := CeilDiv(|c.hosts|, size));
    var hosts := ProjectedHosts(changed.hosts, remediations, jobs, now);
    StatusKeeps(changed.(hosts := hosts));
    hide WithStatus, ProjectedHost, Count;
  }

  // ---------------------------------------------------------------- the next batch

  datatype BatchDecision = BatchDecision(decision: Gate.GateDecision, hostIds: seq<Id>, planChanged: seq<Id>)

  predicate Closed(c: PatchCampaign) {
    c.status in {CampaignCancelling, CampaignCanceled, CampaignSucceeded, CampaignFailed}
  }

  /** An approved host whose plan is still the one the campaign attached. */
  predicate Selectable(h: HostPlan, remediations: map<Id, P.Remediation>) {
    && h.state == Approved && Present(h.remediationId) && h.remediationId.value in remediations
    && PlanBinding(h, remediations[h.remediationId.value]).Allow?
  }

  datatype Candidate = Candidate(hostId: Id, rollout: P.RolloutPolicy)

  /** The selectable hosts, in campaign order, with the rollout policies of their plans. */
  function Candidates(hosts: seq<HostPlan>, remediations: map<Id, P.Remediation>): seq<Candidate> {
    if hosts == [] then []
    else
      var last := hosts[|hosts| - 1];
      Candidates(hosts[..|hosts| - 1], remediations)
      + (if Selectable(last, remediations) then [Candidate(last.hostId, remediations[last.remediationId.value].rollout)]
         else [])
  }

  /** The approved hosts that are not selectable. */
  function Unbound(hosts: seq<HostPlan>, remediations: map<Id, P.Remediation>): seq<Id> {
    if hosts == [] then []
    else
      var last := hosts[|hosts| - 1];
      Unbound(hosts[..|hosts| - 1], remediations)
      + (if last.state == Approved && !Selectable(last, remediations) then [last.hostId] else [])
  }

  predicate StandsFor(candidate: Candidate, h: HostPlan, remediations: map<Id, P.Remediation>) {
    Selectable(h, remediations) && candidate == Candidate(h.hostId, remediations[h.remediationId.value].rollout)
  }

  ghost predicate ComesFrom(candidate: Candidate, hosts: seq<HostPlan>, remediations: map<Id, P.Remediation>) {
    exists i :: 0 <= i < |hosts| && StandsFor(candidate, hosts[i], remediations)
  }

  /** The candidates are the selectable hosts and nobody else. */
  lemma {:induction false} CandidatesMeans(hosts: seq<HostPlan>, remediations: map<Id, P.Remediation>)
    ensures forall candidate :: candidate in Candidates(hosts, remediations) <==>
      ComesFrom(candidate, hosts, remediations)
  {
    if hosts != [] {
      var front, last := hosts[..|hosts| - 1], hosts[|hosts| - 1];
      CandidatesMeans(front, remediations);
      forall candidate
        ensures ComesFrom(candidate, hosts, remediations) <==>
          ComesFrom(candidate, front, remediations) || StandsFor(candidate, last, remediations)
      {
        if ComesFrom(candidate, front, remediations) {
          var i :| 0 <= i < |front| && StandsFor(candidate, front[i], remediations);
          assert hosts[i] == front[i];
        }
      }
    }
  }

  function HostIds(candidates: seq<Candidate>): seq<Id> {
    seq(|candidates|, i requires 0 <= i < |candidates| => candidates[i].hostId)
  }

  function BatchSizes(candidates: seq<Candidate>): seq<int> {
    seq(|candidates|, i requires 0 <= i < |candidates| => candidates[i].rollout.batchSize)
  }

  function CanaryCounts(candidates: seq<Candidate>): seq<int> {
    seq(|candidates|, i requires 0 <= i < |candidates| => candidates[i].rollout.canaryCount)
  }

  function BatchLimit(c: PatchCampaign, candidates: seq<Candidate>): int
    requires candidates != []
  {
    var limit := Max(1, Least([c.batchSize] + BatchSizes(candidates)));
    if c.currentBatch == 0 then Min(limit, Max(1, Least(CanaryCounts(candidates)))) else limit
  }

  function BatchOf(c: PatchCampaign, remediations: map<Id, P.Remediation>): BatchDecision {
    if Closed(c) then BatchDecision(Gate.RefuseUnsafe(Gate.CampaignStateInvalid), [], [])
    else if Any(c.hosts, IN_FLIGHT) then BatchDecision(Gate.RefuseUnsafe(Gate.CampaignBatchInProgress), [], [])
    else
      var candidates := Candidates(c.hosts, remediations);
      var changed := Unbound(c.hosts, remediations);
      if candidates == [] then BatchDecision(Gate.RefuseUnsafe(Gate.CampaignNoApprovedHosts), [], changed)
      else
        var ids := HostIds(candidates);
        BatchDecision(Gate.Allow, ids[..Max(0, Min(|ids|, BatchLimit(c, candidates)))], changed)
  }

  method CampaignBatch(campaign: PatchCampaign, remediations: map<Id, P.Remediation>) returns (batch: BatchDecision)
    ensures batch == BatchOf(campaign, remediations)
  {
    if campaign.status in {CampaignCancelling, CampaignCanceled, CampaignSucceeded, CampaignFailed} {
      return BatchDecision(Gate.RefuseUnsafe(Gate.CampaignStateInvalid), [], []);
    }
    if Any(campaign.hosts, {Scheduled, Queued, Running}) {
      return BatchDecision(Gate.RefuseUnsafe(Gate.CampaignBatchInProgress), [], []);
    }
    var approved, changed: seq<Id> := [], [];
    var limits := [campaign.batchSize];
    var canaryLimits := [];
    for i := 0 to |campaign.hosts|
      invariant changed == Unbound(campaign.hosts[..i], remediations)
      invariant approved == HostIds(Candidates(campaign.hosts[..i], remediations))
      invariant limits == [campaign.batchSize] + BatchSizes(Candidates(campaign.hosts[..i], remediations))
      invariant canaryLimits == CanaryCounts(Candidates(campaign.hosts[..i], remediations))
    {
      var hostPlan := campaign.hosts[i];
      assert campaign.hosts[..i + 1][..i] == campaign.hosts[..i];
      if hostPlan.state != Approved {
        continue;
      }
      if !Present(hostPlan.remediationId) || hostPlan.remediationId.value !in remediations {
        changed := changed + [hostPlan.hostId];
        continue;
      }
      var remediation := remediations[hostPlan.remediationId.value];
      if !PlanBinding(hostPlan, remediation).Allow? {
        changed := changed + [hostPlan.hostId];
        continue;
      }
      limits := limits + [remediation.rollout.batchSize];
      canaryLimits := canaryLimits + [remediation.rollout.canaryCount];
      approved := approved + [hostPlan.hostId];
    }
    assert campaign.hosts[..|campaign.hosts|] == campaign.hosts;
    if approved == [] {
      return BatchDecision(Gate.RefuseUnsafe(Gate.CampaignNoApprovedHosts), [], changed);
    }
    var limit := Max(1, Least(limits));
    if campaign.currentBatch == 0 && canaryLimits != [] {
      limit := Min(limit, Max(1, Least(canaryLimits)));
    }
    batch := BatchDecision(Gate.Allow, if |approved| <= limit then approved else approved[..limit], changed);
  }

  /** The bounds a batch may not exceed: the campaign's, every candidate plan's, and, while the batch
      counter stands at zero, every candidate plan's canary count. */
  predicate WithinLimits(c: PatchCampaign, candidates: seq<Candidate>, size: nat) {
    && size <= Max(1, c.batchSize)
    && (forall k :: 0 <= k < |candidates| ==> size <= Max(1, candidates[k].rollout.batchSize))
    && (c.currentBatch == 0 ==> forall k :: 0 <= k < |candidates| ==> size <= Max(1, candidates[k].rollout.canaryCount))
  }

  lemma {:induction false} LeastBounds(limits: seq<int>, size: int)
    requires limits != []
    ensures size <= Max(1, Least(limits)) <==> forall k :: 0 <= k < |limits| ==> size <= Max(1, limits[k])
  {
    if |limits| > 1 {
      LeastBounds(limits[..|limits| - 1], size);
    }
  }

  lemma LimitMeans(c: PatchCampaign, candidates: seq<Candidate>, size: nat)
    requires candidates != []
    ensures WithinLimits(c, candidates, size) <==> size <= BatchLimit(c, candidates)
  {
    var sizes, canaries := [c.batchSize] + BatchSizes(candidates), CanaryCounts(candidates);
    LeastBounds(sizes, size);
    LeastBounds(canaries, size);
    assert sizes[0] == c.batchSize && forall k :: 0 < k < |sizes| ==> sizes[k] == candidates[k - 1].rollout.batchSize;
    assert forall k :: 0 <= k < |candidates| ==> candidates[k].rollout.batchSize == sizes[k + 1];
    assert forall k :: 0 <= k < |canaries| ==> canaries[k] == candidates[k].rollout.canaryCount;
  }

  /** A batch is allowed exactly if the campaign is open, no host is in flight and some approved host
      still has the plan it was approved with. It takes such hosts only, in campaign order, stays within
      every limit, and takes fewer than all of them only if one more would exceed a limit. */
  lemma BatchExactly(c: PatchCampaign, remediations: map<Id, P.Remediation>)
    ensures var batch, candidates := BatchOf(c, remediations), Candidates(c.hosts, remediations);
      && (batch.decision.Allow? <==> !Closed(c) && !Any(c.hosts, IN_FLIGHT) && candidates != [])
      && (batch.decision.Allow? ==>
           && 0 < |batch.hostIds| && batch.hostIds <= HostIds(candidates)
           && WithinLimits(c, candidates, |batch.hostIds|)
           && (|batch.hostIds| < |candidates| ==> !WithinLimits(c, candidates, |batch.hostIds| + 1)))
      && (!batch.decision.Allow? ==> batch.hostIds == [])
  {
    var batch, candidates := BatchOf(c, remediations), Candidates(c.hosts, remediations);
    if batch.decision.Allow? {
      LimitMeans(c, candidates, |batch.hostIds|);
      LimitMeans(c, candidates, |batch.hostIds| + 1);
      LimitMeans(c, candidates, 1);
      assert WithinLimits(c, candidates, 1);
      hide WithinLimits, BatchLimit, Candidates, Unbound;
    }
  }

  function StartedHost(h: HostPlan, jobsByHost: map<Id, Jobs.DurableJob>, now: Time): HostPlan {
    if h.hostId !in jobsByHost then h
    else
      var job := jobsByHost[h.hostId];
      h.(jobId := Some(job.id), state := if job.status.Queued? then Queued else Scheduled, updatedAt := now)
  }

  function StartedHosts(hosts: seq<HostPlan>, jobsByHost: map<Id, Jobs.DurableJob>, now: Time): seq<HostPlan> {
    seq(|hosts|, i requires 0 <= i < |hosts| => StartedHost(hosts[i], jobsByHost, now))
  }

  function Started(c: PatchCampaign, jobsByHost: map<Id, Jobs.DurableJob>, now: Time): PatchCampaign {
    c.(hosts := StartedHosts(c.hosts, jobsByHost, now), status := CampaignRunning,
       currentBatch := Min(c.totalBatches, c.currentBatch + 1), updatedAt := now)
  }

  method StartCampaignBatch(campaign: PatchCampaign, jobsByHost: map<Id, Jobs.DurableJob>, current: Time)
    returns (updated: PatchCampaign)
    ensures updated == Started(campaign, jobsByHost, current)
  {
    var hosts := campaign.hosts;
    for i := 0 to |hosts|
      invariant |hosts| == |campaign.hosts|
      invariant forall k :: 0 <= k < i ==> hosts[k] == StartedHost(campaign.hosts[k], jobsByHost, current)
      invariant forall k :: i <= k < |hosts| ==> hosts[k] == campaign.hosts[k]
    {
      if hosts[i].hostId !in jobsByHost {
        continue;
      }
      var job := jobsByHost[hosts[i].hostId];
      hosts := hosts[i := hosts[i].(jobId := Some(job.id), state := if job.status.Queued? then Queued else Scheduled,
                                    updatedAt := current)];
    }
    assert hosts == StartedHosts(campaign.hosts, jobsByHost, current);
    updated := campaign.(hosts := hosts);
    updated := updated.(status := CampaignRunning);
    updated := updated.(currentBatch := Min(updated.totalBatches, updated.currentBatch + 1));
    updated := updated.(updatedAt := current);
  }

  /** Starting a batch keeps the counters in order and advances the counter by one unless it stands at
      the end. */
  lemma StartKeepsSized(c: PatchCampaign, jobsByHost: map<Id, Jobs.DurableJob>, now: Time)
    requires Sized(c)
    ensures Sized(Started(c, jobsByHost, now))
    ensures Started(c, jobsByHost, now).currentBatch ==
      if c.currentBatch < c.totalBatches then c.currentBatch + 1 else c.currentBatch
  {
  }
}
