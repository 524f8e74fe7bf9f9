/** Rollouts: a campaign together with the plans and jobs it drives, and the service operations that start,
    cancel and stop batches. */
module Rollout {
  import opened Common
  import opened Campaign
  import P = Plans
  import Gate
  import Jobs

  /** `keys` is the unique index of the job table on the idempotency key. */
  datatype State = State(
    campaign: PatchCampaign,
    remediations: map<Id, P.Remediation>,
    jobs: Jobs.Store,
    keys: map<Jobs.IdempotencyKey, Id>)

  const STARTABLE := {P.NotStarted, P.ExecQueued, P.WaitingForWindow}
  const STOPPED_REASON := "Canceled because another campaign host failed"

  function WithHost(s: State, i: nat, h: HostPlan): State
    requires i < |s.campaign.hosts|
  {
    s.(campaign := s.campaign.(hosts := s.campaign.hosts[i := h]))
  }

  predicate Attached(h: HostPlan) {
    Present(h.remediationId)
  }

  function AttachedPlans(hosts: seq<HostPlan>): set<Id> {
    set i | 0 <= i < |hosts| && Attached(hosts[i]) :: hosts[i].remediationId.value
  }

  // ---------------------------------------------------------------- synchronizing

  function ReconciledPlans(remediations: map<Id, P.Remediation>, attached: set<Id>, now: Time): map<Id, P.Remediation> {
    map id | id in remediations :: if id in attached then Gate.Reconciled(remediations[id], now) else remediations[id]
  }

  /** Reconcile every attached plan, then project. */
  function Synced(s: State, now: Time): State
    requires s.campaign.batchSize >= 1
  {
    var remediations := ReconciledPlans(s.remediations, AttachedPlans(s.campaign.hosts), now);
    s.(remediations := remediations, campaign := Projected(s.campaign, remediations, s.jobs, now))
  }

  // ---------------------------------------------------------------- canceling and stopping hosts

  function CancelJobOf(s: State, h: HostPlan, now: Time, phase: string): State {
    if Present(h.jobId)
    then s.(jobs := Jobs.CancelStore(s.jobs, h.jobId.value, now, {Jobs.Queued, Jobs.Scheduled}, Jobs.OtherPhase(phase)))
    else s
  }

  /** A plan that has not begun to run is canceled with its host. */
  function CancelPlanOf(s: State, h: HostPlan, now: Time): State {
    if Attached(h) && h.remediationId.value in s.remediations
       && s.remediations[h.remediationId.value].executionState in STARTABLE
    then
      var id := h.remediationId.value;
      s.(remediations := s.remediations[id := s.remediations[id].(executionState := P.ExecCanceled, updatedAt := now)])
    else s
  }

  predicate JobRuns(s: State, h: HostPlan) {
    JobFor(h, s.jobs).Some? && JobFor(h, s.jobs).value.status.Running?
  }

  function CancelHost(s: State, i: nat, now: Time): State
    requires i < |s.campaign.hosts|
  {
    var h := s.campaign.hosts[i];
    if h.state in {Succeeded, Failed, NoAction} then s
    else
      var t := CancelJobOf(s, h, now, "canceled");
      if JobRuns(t, h) then WithHost(t, i, h.(state := Running, updatedAt := now))
      else if JobFor(h, t.jobs).Some? && JobFor(h, t.jobs).value.status in {Jobs.Completed, Jobs.Failed}
      then WithHost(t, i, h.(updatedAt := now))
      else WithHost(CancelPlanOf(t, h, now), i, h.(state := Canceled, updatedAt := now))
  }

  /** The hosts from the first to the `n`-th, canceled in order. */
  function CancelHosts(s: State, n: nat, now: Time): (t: State)
    requires n <= |s.campaign.hosts|
    ensures |t.campaign.hosts| == |s.campaign.hosts|
  {
    if n == 0 then s else CancelHost(CancelHosts(s, n - 1, now), n - 1, now)
  }

  function StopHost(s: State, i: nat, failed: Id, now: Time): State
    requires i < |s.campaign.hosts|
  {
    var h := s.campaign.hosts[i];
    if h.remediationId == Some(failed) || h.state in {Succeeded, Failed, NoAction, Running} then s
    else
      var t := CancelJobOf(s, h, now, "canceled_after_campaign_failure");
      if JobRuns(t, h) then WithHost(t, i, h.(state := Running, updatedAt := now))
      else WithHost(CancelPlanOf(t, h, now), i,
                    h.(state := Canceled, failureSummary := Some(STOPPED_REASON), updatedAt := now))
  }

  function StopHosts(s: State, n: nat, failed: Id, now: Time): (t: State)
    requires n <= |s.campaign.hosts|
    ensures |t.campaign.hosts| == |s.campaign.hosts| && t.campaign.batchSize == s.campaign.batchSize
  {
    if n == 0 then s else StopHost(StopHosts(s, n - 1, failed, now), n - 1, failed, now)
  }

  /** After a plan failed whose policy says so, every other host is stopped. */
  function Stopped(s: State, failed: Id, now: Time): (t: State)
    ensures t.campaign.batchSize == s.campaign.batchSize
  {
    if failed in s.remediations && s.remediations[failed].failurePolicy.stopRemainingHosts then
      var t := StopHosts(s, |s.campaign.hosts|, failed, now);
      t.(campaign := t.campaign.(updatedAt := now))
    else s
  }

  method StopRemainingCampaignHosts(s: State, failed: Id, now: Time) returns (t: State)
    requires failed in s.remediations
    ensures t == Stopped(s, failed, now)
  {
    t := s;
    if !s.remediations[failed].failurePolicy.stopRemainingHosts {
      return;
    }
    for i := 0 to |s.campaign.hosts|
      invariant t == StopHosts(s, i, failed, now)
    {
      var hostPlan := t.campaign.hosts[i];
      if hostPlan.remediationId == Some(failed) {
        continue;
      }
      if hostPlan.state in {Succeeded, Failed, NoAction, Running} {
        continue;
      }
      t := CancelJobOf(t, hostPlan, now, "canceled_after_campaign_failure");
      if JobRuns(t, hostPlan) {
        t := WithHost(t, i, hostPlan.(state := Running, updatedAt := now));
        continue;
      }
      t := CancelPlanOf(t, hostPlan, now);
      t := WithHost(t, i, hostPlan.(state := Canceled, failureSummary := Some(STOPPED_REASON), updatedAt := now));
    }
    t := t.(campaign := t.campaign.(updatedAt := now));
  }

  /** Campaigns that are over cannot be canceled. */
  predicate Completed(c: PatchCampaign) {
    || c.status in {CampaignSucceeded, CampaignFailed, CampaignCanceled}
    || (c.status == CampaignPartiallySucceeded &&
        All(c.hosts, {Succeeded, Failed, Canceled, Rejected, Blocked, NoAction}))
  }

  /** Cancellation; a campaign that is over is refused, and the refusal is rolled back. */
  function CanceledCampaign(s: State, actor: string, now: Time): State
    requires s.campaign.batchSize >= 1
  {
    var synced := Synced(s, now);
    if Completed(synced.campaign) then s
    else
      var t := CancelHosts(synced, |synced.campaign.hosts|, now);
      t.(campaign := t.campaign.(
           status := if AnyRunning(synced, |synced.campaign.hosts|, now) then CampaignCancelling else CampaignCanceled,
           canceledBy := Some(actor), canceledAt := Some(now), updatedAt := now))
  }

  predicate MeetsRunning(s: State, i: nat, now: Time)
    requires i < |s.campaign.hosts|
  {
    var h := s.campaign.hosts[i];
    h.state !in {Succeeded, Failed, NoAction} && JobRuns(CancelJobOf(s, h, now, "canceled"), h)
  }

  /** Whether canceling the first `n` hosts met a running job. */
  predicate AnyRunning(s: State, n: nat, now: Time)
    requires n <= |s.campaign.hosts|
  {
    n > 0 && (AnyRunning(s, n - 1, now) || MeetsRunning(CancelHosts(s, n - 1, now), n - 1, now))
  }

  /** The body of the cancellation loop. */
  method CancelCampaignHost(s: State, i: nat, now: Time) returns (t: State, running: bool)
    requires i < |s.campaign.hosts|
    ensures t == CancelHost(s, i, now) && running == MeetsRunning(s, i, now)
  {
    t, running := s, false;
    var hostPlan := t.campaign.hosts[i];
    if hostPlan.state in {Succeeded, Failed, NoAction} {
      return;
    }
    t := CancelJobOf(t, hostPlan, now, "canceled");
    var job := JobFor(hostPlan, t.jobs);
    if job.Some? && job.value.status == Jobs.Running {
      running := true;
      t := WithHost(t, i, hostPlan.(state := Running, updatedAt := now));
      return;
    }
    if job.Some? && job.value.status !in {Jobs.Canceled, Jobs.Queued, Jobs.Scheduled} {
      t := WithHost(t, i, hostPlan.(updatedAt := now));
      return;
    }
    t := CancelPlanOf(t, hostPlan, now);
    t := WithHost(t, i, hostPlan.(state := Canceled, updatedAt := now));
  }

  method CancelCampaign(s: State, actor: string, now: Time) returns (t: State)
    requires s.campaign.batchSize >= 1
    ensures t == CanceledCampaign(s, actor, now)
  {
    hide Synced, MeetsRunning;
    ghost var synced := Synced(s, now);
    t := Synced(s, now);
    if Completed(t.campaign) {
      return s;
    }
    var hasRunning := false;
    for i := 0 to |t.campaign.hosts|
      invariant |t.campaign.hosts| == |synced.campaign.hosts|
      invariant t == CancelHosts(synced, i, now)
      invariant hasRunning == AnyRunning(synced, i, now)
    {
      var running;
      t, running := CancelCampaignHost(t, i, now);
      hasRunning := hasRunning || running;
    }
    t := t.(campaign := t.campaign.(status := if hasRunning then CampaignCancelling else CampaignCanceled));
    t := t.(campaign := t.campaign.(canceledBy := Some(actor), canceledAt := Some(now), updatedAt := now));
  }

  // ---------------------------------------------------------------- starting a batch

  /** What a start finds: the hosts, which of them have an unresolved rollback failure, which plans'
      maintenance windows are open, and the ids new jobs will get, by plan. */
  datatype Circumstances = Circumstances(
    now: Time,
    hosts: map<Id, P.Host>,
    rollbackFailures: set<Id>,
    openWindows: set<Id>,
    newIds: map<Id, Id>)

  /** New jobs get fresh ids. */
  ghost predicate FreshIds(jobs: Jobs.Store, newIds: map<Id, Id>) {
    && (forall plan :: plan in newIds ==> newIds[plan] != "" && newIds[plan] !in jobs)
    && (forall a, b :: a in newIds && b in newIds && a != b ==> newIds[a] != newIds[b])
  }

  /** Every attached plan's host is known, and there is a fresh id for its job. */
  ghost predicate Given(s: State, k: Circumstances) {
    && FreshIds(s.jobs, k.newIds)
    && forall id :: id in AttachedPlans(s.campaign.hosts) && id in s.remediations ==>
         s.remediations[id].hostId in k.hosts && id in k.newIds
  }

  function NewJob(jobId: Id, planId: Id, r: P.Remediation, campaignId: Id, open: bool, now: Time): Jobs.DurableJob {
    Jobs.DurableJob(
      jobId, Jobs.RemediationJob, if open then Jobs.Queued else Jobs.Scheduled,
      Some(r.hostId), r.scanId, Some(planId), Some(campaignId),
      Some(r.planVersion), Some(r.planHash), Some(Gate.JobScope(r)), Jobs.RemediationKey(planId, r.planHash),
      0, None, 0, 3, None, None, None, None, None, Jobs.JobResult(None, map[]), now, None, None, now)
  }

  /** A job prepared for a plan the gate lets through is one the gate lets through: its bindings are those
      of the plan, and it is queued exactly if the window is open. */
  lemma NewJobIsEligible(
    jobId: Id, r: P.Remediation, host: P.Host, campaignId: Id, open: bool, now: Time, rollbackFailure: bool)
    ensures var job := NewJob(jobId, r.id, r, campaignId, open, now);
      && (Gate.ExecutionEligibility(r, host, Some(job), rollbackFailure).Allow? <==>
           Gate.ExecutionEligibility(r, host, None, rollbackFailure).Allow?)
      && (job.status.Queued? <==> open) && (job.status.Scheduled? <==> !open)
      && job.campaignId == Some(campaignId) && job.attempts < job.maxAttempts && job.leaseOwner.None?
  {
    hide Gate.SnapshotRequirement;
    if Gate.ExecutionEligibility(r, host, None, rollbackFailure).Allow? {
      assert r.hostId == host.id;
    }
  }

  /** `jobsByHost` holds the jobs of the hosts prepared so far. */
  datatype Preparation = Preparation(state: State, jobsByHost: map<Id, Jobs.DurableJob>)

  function RefusedHost(h: HostPlan, decision: Gate.GateDecision, now: Time): HostPlan {
    h.(state := if decision.Deny? && decision.category == Gate.ApprovalValidation then PlanChanged else Blocked,
       updatedAt := now)
  }

  /** Prepare the job of host `i`: check the binding and the gate, reuse the job the idempotency key
      already names, or create one and put the plan in flight. */
  function PrepareHost(p: Preparation, i: nat, k: Circumstances): Preparation
    requires i < |p.state.campaign.hosts|
  {
    var s, h := p.state, p.state.campaign.hosts[i];
    if !Attached(h) || h.remediationId.value !in s.remediations ||
      s.remediations[h.remediationId.value].hostId !in k.hosts then p
    else
      var id := h.remediationId.value;
      var r := s.remediations[id];
      var key := Jobs.RemediationKey(id, r.planHash);
      var decision :=
        if !PlanBinding(h, r).Allow? then PlanBinding(h, r)
        else Gate.ExecutionEligibility(r, k.hosts[r.hostId], None, r.hostId in k.rollbackFailures);
      if !decision.Allow? then p.(state := WithHost(s, i, RefusedHost(h, decision, k.now)))
      else if key in s.keys && s.keys[key] in s.jobs then
        var existing := s.jobs[s.keys[key]];
        if existing.campaignId != Some(s.campaign.id)
        then p.(state := WithHost(s, i, RefusedHost(h, Gate.Refuse(Gate.DuplicateExecution), k.now)))
        else p.(jobsByHost := p.jobsByHost[h.hostId := existing])
      else if id !in k.newIds then p
      else
        var open := id in k.openWindows;
        var job := NewJob(k.newIds[id], id, r, s.campaign.id, open, k.now);
        Preparation(
          s.(remediations :=
             s.remediations[id := r.(executionState := if open then P.ExecQueued else P.WaitingForWindow)],
             jobs := s.jobs[job.id := job],
             keys := s.keys[key := job.id]),
          p.jobsByHost[h.hostId := job])
  }

  function PrepareHosts(p: Preparation, chosen: seq<Id>, n: nat, k: Circumstances): (q: Preparation)
    requires n <= |p.state.campaign.hosts|
    ensures |q.state.campaign.hosts| == |p.state.campaign.hosts|
  {
    if n == 0 then p
    else
      var q := PrepareHosts(p, chosen, n - 1, k);
      if q.state.campaign.hosts[n - 1].hostId in chosen then PrepareHost(q, n - 1, k) else q
  }

  function MarkUnbound(hosts: seq<HostPlan>, unbound: seq<Id>, now: Time): seq<HostPlan> {
    seq(|hosts|, i requires 0 <= i < |hosts| =>
      if hosts[i].hostId in unbound
      then hosts[i].(state := PlanChanged, failureSummary := Some(PLAN_CHANGED_REASON), updatedAt := now)
      else hosts[i])
  }

  /** The synchronized campaign with the approved hosts marked whose plan is no longer theirs. */
  function Marked(s: State, now: Time): State
    requires s.campaign.batchSize >= 1
  {
    var t := Synced(s, now);
    var batch := BatchOf(t.campaign, t.remediations);
    t.(campaign := t.campaign.(hosts := MarkUnbound(t.campaign.hosts, batch.planChanged, now)))
  }

  /** The jobs and plans a start prepares, whether or not anything comes of it. */
  function PreparedBatch(s: State, k: Circumstances): Preparation
    requires s.campaign.batchSize >= 1
  {
    var t := Synced(s, k.now);
    PrepareHosts(Preparation(Marked(s, k.now), map[]), BatchOf(t.campaign, t.remediations).hostIds, |t.campaign.hosts|,
                 k)
  }

  predicate Starts(s: State, k: Circumstances)
    requires s.campaign.batchSize >= 1
  {
    var t := Synced(s, k.now);
    BatchOf(t.campaign, t.remediations).decision.Allow? && PreparedBatch(s, k).jobsByHost != map[]
  }

  /** The state after a start; a refused start is rolled back. */
  function AfterStart(s: State, k: Circumstances): State
    requires s.campaign.batchSize >= 1
  {
    if !Starts(s, k) then s
    else
      var p := PreparedBatch(s, k);
      p.state.(campaign := Started(p.state.campaign, p.jobsByHost, k.now))
  }

  /** The body of the preparation loop. */
  method PrepareRemediationJob(p: Preparation, i: nat, k: Circumstances) returns (q: Preparation)
    requires i < |p.state.campaign.hosts|
    ensures q == PrepareHost(p, i, k)
  {
    q := p;
    var s, hostPlan := p.state, p.state.campaign.hosts[i];
    if !Present(hostPlan.remediationId)
       || hostPlan.remediationId.value !in s.remediations
       || s.remediations[hostPlan.remediationId.value].hostId !in k.hosts
    {
      return;
    }
    var id := hostPlan.remediationId.value;
    var remediation := s.remediations[id];
    var decision := PlanBinding(hostPlan, remediation);
    if decision.Allow? {
      decision := Gate.ExecutionEligibility(remediation, k.hosts[remediation.hostId], None,
                                            remediation.hostId in k.rollbackFailures);
    }
    if !decision.Allow? {
      q := q.(state := WithHost(s, i, RefusedHost(hostPlan, decision, k.now)));
      return;
    }
    var key := Jobs.RemediationKey(id, remediation.planHash);
    if key in s.keys && s.keys[key] in s.jobs {
      var existing := s.jobs[s.keys[key]];
      if existing.campaignId != Some(s.campaign.id) {
        q := q.(state := WithHost(s, i, RefusedHost(hostPlan, Gate.Refuse(Gate.DuplicateExecution), k.now)));
        return;
      }
      q := q.(jobsByHost := q.jobsByHost[hostPlan.hostId := existing]);
      return;
    }
    if id !in k.newIds {
      return;
    }
    var open := id in k.openWindows;
    var job := NewJob(k.newIds[id], id, remediation, s.campaign.id, open, k.now);
    remediation := remediation.(executionState := if open then P.ExecQueued else P.WaitingForWindow);
    s := s.(remediations := s.remediations[id := remediation]);
    s := s.(jobs := s.jobs[job.id := job], keys := s.keys[key := job.id]);
    q := Preparation(s, q.jobsByHost[hostPlan.hostId := job]);
  }

  method PrepareCampaignExecution(s: State, k: Circumstances) returns (t: State, started: bool)
    requires s.campaign.batchSize >= 1
    ensures t == AfterStart(s, k) && started == Starts(s, k)
  {
    hide PrepareHost, BatchOf, MarkUnbound;
    var synced := Synced(s, k.now);
    var batch := CampaignBatch(synced.campaign, synced.remediations);
    if !batch.decision.Allow? {
      return s, false;
    }
    var p := Preparation(Marked(s, k.now), map[]);
    ghost var marked := p;
    MarkedHosts(s, k.now);
    for i := 0 to |synced.campaign.hosts|
      invariant p == PrepareHosts(marked, batch.hostIds, i, k)
    {
      if p.state.campaign.hosts[i].hostId !in batch.hostIds {
        continue;
      }
      p := PrepareRemediationJob(p, i, k);
    }
    if p.jobsByHost == map[] {
      return s, false;
    }
    var campaign := StartCampaignBatch(p.state.campaign, p.jobsByHost, k.now);
    t, started := p.state.(campaign := campaign), true;
  }

  lemma MarkedHosts(s: State, now: Time)
    requires s.campaign.batchSize >= 1
    ensures |Marked(s, now).campaign.hosts| == |Synced(s, now).campaign.hosts|
  {
    hide Synced, BatchOf;
  }
}
