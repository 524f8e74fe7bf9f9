/** Two boundary results of the rollout: where the canary count does not hold, and that the lease protocol
    and the gate are among the things a rollout tolerates. */
module RolloutLimits {
  import opened Common
  import opened Campaign
  import opened Samples
  import P = Plans
  import Gate
  import Jobs
  import LeaseProtocol
  import Rollout
  import RolloutRuns
  import WaitingJobs

  // ---------------------------------------------------------------- the canary count

  function SamplePlans(): map<Id, P.Remediation> {
    map["plan-b" := ApprovedPlan("plan-b", "b"), "plan-c" := ApprovedPlan("plan-c", "c")]
  }

  /** Three hosts in batches of two, nothing started. One host needs no action; the plans of the other two
      ask for one canary. */
  function SampleCampaign(): PatchCampaign {
    var plans := SamplePlans();
    PatchCampaign("campaign",
      [IdleEntry("a"), Entry(plans["plan-b"], Approved, None), Entry(plans["plan-c"], Approved, None)],
      [], CampaignReady, 2, 0, 2, None, None, None, 0)
  }

  lemma SampleHostProjected(id: Id, hostId: Id, plans: map<Id, P.Remediation>, now: Time)
    requires id != "" && id in plans && plans[id] == ApprovedPlan(id, hostId)
    ensures var h := ProjectedHost(Entry(plans[id], Approved, None), plans, map[], now);
      && Selectable(h, plans) && h.state == Approved && h.hostId == hostId && h.remediationId == Some(id)
      && plans[id].rollout == P.RolloutPolicy(false, 2, 1, "")
  {
    ApprovedPlanIsAllowed(id, hostId, false);
  }

  lemma CandidatesPrefix(hosts: seq<HostPlan>, plans: map<Id, P.Remediation>, n: nat)
    requires n < |hosts|
    ensures |Candidates(hosts[..n + 1], plans)| == |Candidates(hosts[..n], plans)| +
      (if Selectable(hosts[n], plans) then 1 else 0)
  {
    assert hosts[..n + 1][..n] == hosts[..n];
    hide Selectable;
  }

  /** The batch of a campaign whose first host has completed and whose other two are selectable. */
  lemma BatchOfTwo(c: PatchCampaign, plans: map<Id, P.Remediation>)
    requires |c.hosts| == 3 && c.batchSize == 2 && c.currentBatch == 1 && !Closed(c)
    requires c.hosts[0].state == NoAction && Selectable(c.hosts[1], plans) && Selectable(c.hosts[2], plans)
    requires forall i :: 1 <= i < 3 ==>
      plans[c.hosts[i].remediationId.value].rollout == P.RolloutPolicy(false, 2, 1, "")
    ensures BatchOf(c, plans).decision.Allow? && |BatchOf(c, plans).hostIds| == 2
  {
    var hosts := c.hosts;
    var candidates := Candidates(hosts, plans);
    hide PlanBinding, Least, BatchLimit;
    CandidatesPrefix(hosts, plans, 0);
    CandidatesPrefix(hosts, plans, 1);
    CandidatesPrefix(hosts, plans, 2);
    assert hosts[..3] == hosts && hosts[..0] == [];
    BatchExactly(c, plans);
    assert WithinLimits(c, candidates, 2);
    LimitMeans(c, candidates, 2);
  }

  lemma OneOfThreeCompleted(hosts: seq<HostPlan>)
    requires |hosts| == 3 && hosts[0].state == NoAction && hosts[1].state == hosts[2].state == Approved
    ensures Count(hosts, COMPLETED) == 1 && HostsStatus(hosts) == CampaignReady
  {
    assert hosts[..2][..1] == hosts[..1] && hosts[..1][..0] == [] && hosts[..2][1] == hosts[1];
    assert Count(hosts[..1], COMPLETED) == 1 && Count(hosts[..2], COMPLETED) == 1;
    StatusTable(hosts);
    assert hosts[1].state in {Approved};
    hide HostsStatus, Count;
  }

  /** The canary rule can be skipped. Before anything has ever started, one host that needs no action
      already moves the batch counter, and the first batch takes two hosts whose plans both ask for a
      single canary. */
  lemma CanaryCanBeSkipped(now: Time)
    ensures var c := SampleCampaign();
      var synced := Projected(c, SamplePlans(), map[], now);
      && Sized(c) && c.currentBatch == 0 && (forall i :: 0 <= i < |c.hosts| ==> c.hosts[i].jobId.None?)
      && (forall id :: id in SamplePlans() ==> SamplePlans()[id].rollout.canaryCount == 1)
      && BatchOf(synced, SamplePlans()).decision.Allow?
      && |BatchOf(synced, SamplePlans()).hostIds| == 2
  {
    var c, plans := SampleCampaign(), SamplePlans();
    var hosts, synced := ProjectedHosts(c.hosts, plans, map[], now), Projected(c, plans, map[], now);
    hide ProjectedHost, HostsStatus, Count, BatchOf, Selectable;
    SampleHostProjected("plan-b", "b", plans, now);
    SampleHostProjected("plan-c", "c", plans, now);
    SampleHostUnattached(plans, now);
    assert hosts[1] == ProjectedHost(Entry(plans["plan-b"], Approved, None), plans, map[], now);
    assert hosts[2] == ProjectedHost(Entry(plans["plan-c"], Approved, None), plans, map[], now);
    hide ApprovedPlan;
    OneOfThreeCompleted(hosts);
    assert synced.hosts == hosts && synced.currentBatch == 1;
    BatchOfTwo(synced, plans);
  }

  lemma SampleHostUnattached(plans: map<Id, P.Remediation>, now: Time)
    ensures ProjectedHost(IdleEntry("a"), plans, map[], now).state == NoAction
  {
  }

  /** The first batch keeps to the canary counts exactly if projection leaves the counter at zero, that is,
      if no host has completed yet; otherwise only the batch sizes bind. */
  lemma CanaryBindsExactlyWhenNobodyCompleted(
    c: PatchCampaign, plans: map<Id, P.Remediation>, jobs: Jobs.Store, now: Time, size: nat)
    requires Sized(c) && c.hosts != [] && c.currentBatch == 0
    ensures var synced := Projected(c, plans, jobs, now);
      var candidates := Candidates(synced.hosts, plans);
      var sizes := size <= Max(1, c.batchSize) &&
        forall k :: 0 <= k < |candidates| ==> size <= Max(1, candidates[k].rollout.batchSize);
      var canaries := forall k :: 0 <= k < |candidates| ==> size <= Max(1, candidates[k].rollout.canaryCount);
      WithinLimits(synced, candidates, size) <==> sizes && (Any(synced.hosts, COMPLETED) || canaries)
  {
    CounterStaysZeroExactly(c, plans, jobs, now);
    ProjectionKeepsSized(c, plans, jobs, now);
    hide Projected, Candidates;
  }

  // ---------------------------------------------------------------- what a rollout tolerates

  /** If the step is the release of a scheduled remediation job, the gate lets that job through. */
  ghost predicate ReleaseIsGated(
    w: LeaseProtocol.World, step: LeaseProtocol.Step, plans: map<Id, P.Remediation>)
  {
    match step
    case ChangeUnleased(id, Release) =>
      id in w.store && w.store[id].jobType.RemediationJob? && w.store[id].status.Scheduled? ==>
        WaitingJobs.Releasable(plans, w.store[id])
    case _ => true
  }

  /** Every step of the lease protocol is one of the things a rollout tolerates, except creating a job for
      one of the campaign's own plans, and releasing a scheduled one that the gate does not let through. */
  lemma LeaseStepsEvolve(
    w: LeaseProtocol.World, step: LeaseProtocol.Step, attached: set<Id>, plans: map<Id, P.Remediation>)
    requires LeaseProtocol.Inv(w)
    requires step.Create? ==>
      !(step.job.jobType.RemediationJob? && step.job.remediationId.Some? && step.job.remediationId.value in attached)
    requires ReleaseIsGated(w, step, plans)
    ensures RolloutRuns.JobsEvolve(w.store, LeaseProtocol.Apply(w, step).store, attached, plans)
  {
    hide LeaseProtocol.Apply, LeaseProtocol.Inv, RolloutRuns.JobEvolves, RolloutRuns.ReleasedByGate;
    var next := LeaseProtocol.Apply(w, step).store;
    forall id | id in w.store
      ensures id in next && RolloutRuns.JobEvolves(w.store[id], next[id])
      ensures RolloutRuns.ReleasedByGate(plans, w.store[id], next[id])
    {
      LeaseStepEvolves(w, step, id);
      OnlyReleaseFrees(w, step, id, plans);
    }
    LeaseStepAdds(w, step);
  }

  /** So the jobs' side of a rollout may be driven by any such step: it is one its environment may take. */
  lemma LeaseStepsAreAdmitted(
    s: Rollout.State, batches: seq<RolloutRuns.Batch>, w: LeaseProtocol.World, step: LeaseProtocol.Step)
    requires LeaseProtocol.Inv(w) && s.jobs == w.store && s.campaign.batchSize >= 1
    requires RolloutRuns.KeysOk(s.jobs, s.keys) && ReleaseIsGated(w, step, s.remediations)
    requires step.Create? ==>
      !(step.job.jobType.RemediationJob? && step.job.remediationId.Some?
        && step.job.remediationId.value in Rollout.AttachedPlans(s.campaign.hosts))
    ensures var next := LeaseProtocol.Apply(w, step).store;
      RolloutRuns.Apply(RolloutRuns.World(s, batches), RolloutRuns.Other(s.remediations, next, s.keys))
      == RolloutRuns.World(s.(jobs := next), batches)
  {
    hide LeaseProtocol.Apply, LeaseProtocol.Inv, ReleaseIsGated, Rollout.AttachedPlans, RolloutRuns.JobsEvolve;
    hide RolloutRuns.PlansEvolve, RolloutRuns.KeysOk, Rollout.Starts, Rollout.Given, Rollout.Synced;
    var attached, next := Rollout.AttachedPlans(s.campaign.hosts), LeaseProtocol.Apply(w, step).store;
    LeaseStepsEvolve(w, step, attached, s.remediations);
    SamePlansEvolve(s.remediations, s.jobs);
    KeysEvolve(s.jobs, next, s.keys, attached, s.remediations);
    assert RolloutRuns.Evolves(s, s.remediations, next, s.keys);
  }

  lemma SamePlansEvolve(plans: map<Id, P.Remediation>, jobs: Jobs.Store)
    ensures RolloutRuns.PlansEvolve(plans, plans, jobs)
  {
    hide RolloutRuns.InFlight, RolloutRuns.Unstarted, RolloutRuns.HasActive;
  }

  /** Jobs that evolve stay under their keys. */
  lemma KeysEvolve(
    before: Jobs.Store, after: Jobs.Store, keys: map<Jobs.IdempotencyKey, Id>, attached: set<Id>,
    plans: map<Id, P.Remediation>)
    requires RolloutRuns.KeysOk(before, keys) && RolloutRuns.JobsEvolve(before, after, attached, plans)
    ensures RolloutRuns.KeysOk(after, keys)
  {
    hide RolloutRuns.ReleasedByGate;
    forall key | key in keys ensures keys[key] in after && RolloutRuns.JobEvolves(before[keys[key]], after[keys[key]]) {
      assert keys[key] in before;
    }
  }

  /** A scheduled job is queued by its release and by nothing else. */
  lemma OnlyReleaseFrees(
    w: LeaseProtocol.World, step: LeaseProtocol.Step, id: Id, plans: map<Id, P.Remediation>)
    requires LeaseProtocol.Inv(w) && id in w.store
    requires ReleaseIsGated(w, step, plans)
    ensures var next := LeaseProtocol.Apply(w, step).store;
      id in next && RolloutRuns.ReleasedByGate(plans, w.store[id], next[id])
  {
    hide LeaseProtocol.Apply, WaitingJobs.Releasable;
    LeaseProtocol.Keyed(w);
    LeaseProtocol.JobAfter(w, step, id);
  }

  lemma LeaseStepAdds(w: LeaseProtocol.World, step: LeaseProtocol.Step)
    requires LeaseProtocol.Inv(w)
    ensures var next := LeaseProtocol.Apply(w, step).store;
      forall id :: id in next && id !in w.store ==> step.Create? && next[id] == step.job && id == step.job.id
  {
    forall owner | owner in w.copies ensures w.copies[owner].id in w.store {
      assert LeaseProtocol.CopyOk(w, owner);
    }
    LeaseProtocol.Keyed(w);
    hide LeaseProtocol.Inv, Jobs.Claimed, Jobs.Terminalized, LeaseProtocol.RecoveredJob, LeaseProtocol.Edited;
  }

  lemma LeaseStepEvolves(w: LeaseProtocol.World, step: LeaseProtocol.Step, id: Id)
    requires LeaseProtocol.Inv(w) && id in w.store
    ensures var next := LeaseProtocol.Apply(w, step).store;
      id in next && RolloutRuns.JobEvolves(w.store[id], next[id])
  {
    hide LeaseProtocol.Apply;
    LeaseProtocol.Keyed(w);
    LeaseProtocol.JobAfter(w, step, id);
    if Jobs.Terminal(w.store[id].status) {
      LeaseProtocol.EndedStep(w, step, id);
    } else if step.SaveCopy? {
      if step.owner in w.copies {
        LeaseProtocol.FencedSave(w, step.owner);
      }
    } else if step.Sweep? {
      LeaseProtocol.RecoveredShape(w.store[id], id in step.blocked, w.clock);
    }
    hide LeaseProtocol.Inv;
  }

  lemma OnePlanEvolves(plans: map<Id, P.Remediation>, jobs: Jobs.Store, id: Id, r: P.Remediation)
    requires id in plans
    requires RolloutRuns.InFlight(r) ==> RolloutRuns.InFlight(plans[id])
    requires RolloutRuns.Unstarted(r) ==> RolloutRuns.Unstarted(plans[id])
    requires r.planVersion >= plans[id].planVersion
    ensures RolloutRuns.PlansEvolve(plans, plans[id := r], jobs)
  {
    hide RolloutRuns.InFlight, RolloutRuns.Unstarted, RolloutRuns.HasActive;
  }

  /** The gate never puts a plan in flight: not by reconciling it, approving it or approving its reboot. */
  lemma GateStepsEvolve(
    plans: map<Id, P.Remediation>, jobs: Jobs.Store, id: Id, host: P.Host, request: Gate.ApprovalRequest,
    actor: string, now: Time)
    requires id in plans
    ensures RolloutRuns.PlansEvolve(plans, plans[id := Gate.Reconciled(plans[id], now)], jobs)
    ensures RolloutRuns.PlansEvolve(plans, plans[id := Gate.WithPlanApproval(plans[id], actor, now)], jobs)
    ensures RolloutRuns.PlansEvolve(
      plans, plans[id := Gate.AfterRebootRequest(plans[id], host, request, actor, now)], jobs)
  {
    hide RolloutRuns.PlansEvolve, Gate.RebootApprovalDecision;
    OnePlanEvolves(plans, jobs, id, Gate.Reconciled(plans[id], now));
    OnePlanEvolves(plans, jobs, id, Gate.WithPlanApproval(plans[id], actor, now));
    OnePlanEvolves(plans, jobs, id, Gate.AfterRebootRequest(plans[id], host, request, actor, now));
  }
}
