/** Whole runs of a campaign: synchronizations, starts, cancellations and stops in any order, mixed with
    whatever workers, operators and the scheduler do to its jobs and plans in between. */
module RolloutRuns {
  import opened Common
  import opened Campaign
  import opened Rollout
  import opened WaitingJobs
  import P = Plans
  import ApprovalRuns
  import Gate
  import Jobs
  import StopOnFailure

  /** A started batch: its hosts, and the campaign and candidates it was chosen from. */
  datatype Batch = Batch(hosts: set<Id>, campaign: PatchCampaign, candidates: seq<Candidate>)

  datatype World = World(s: State, batches: seq<Batch>)

  datatype Step =
    | Sync(now: Time)
    | Start(k: Circumstances)
    | Cancel(actor: string, now: Time)
    | Stop(failed: Id, now: Time)
    | Overwrite(status: CampaignStatus)
    | Other(remediations: map<Id, P.Remediation>, jobs: Jobs.Store, keys: map<Jobs.IdempotencyKey, Id>)

  // ---------------------------------------------------------------- what else may happen

  predicate Outstanding(job: Jobs.DurableJob) {
    job.jobType.RemediationJob? && (job.status.Queued? || job.status.Scheduled? || job.status.Running?)
  }

  /** Some job of the plan waits or runs. */
  ghost predicate HasOutstanding(jobs: Jobs.Store, plan: Id) {
    exists id :: id in jobs && Outstanding(jobs[id]) && jobs[id].remediationId == Some(plan)
  }

  /** The job runs or has attempts left. */
  predicate Unspent(job: Jobs.DurableJob) {
    job.status.Running? || job.attempts < job.maxAttempts
  }

  /** Some job of the plan is queued, with attempts left, or runs. */
  ghost predicate HasActive(jobs: Jobs.Store, plan: Id) {
    exists id :: id in jobs && Outstanding(jobs[id]) && Unspent(jobs[id]) && !jobs[id].status.Scheduled?
                 && jobs[id].remediationId == Some(plan)
  }

  /** The job may yet run: it runs, or has attempts left and is queued, or is scheduled and the gate may still
      let it through. */
  predicate MayRun(plans: map<Id, P.Remediation>, job: Jobs.DurableJob) {
    && Outstanding(job) && Unspent(job)
    && (job.status.Scheduled? ==>
         && job.remediationId.Some? && job.remediationId.value in plans
         && MayPass(plans[job.remediationId.value], job))
  }

  /** Some job of the plan may yet run. */
  ghost predicate HasLive(plans: map<Id, P.Remediation>, jobs: Jobs.Store, plan: Id) {
    exists id :: id in jobs && MayRun(plans, jobs[id]) && jobs[id].remediationId == Some(plan)
  }

  predicate InFlight(r: P.Remediation) {
    r.executionState in {P.ExecQueued, P.WaitingForWindow, P.ExecRunning}
  }

  predicate Unstarted(r: P.Remediation) {
    r.executionState == P.NotStarted
  }

  /** A job keeps what it is for and bound to, is claimed only with attempts left, and once ended it stays as it
      ended. */
  predicate JobEvolves(before: Jobs.DurableJob, after: Jobs.DurableJob) {
    && after.id == before.id && after.jobType == before.jobType && SameBindings(before, after)
    && after.idempotencyKey == before.idempotencyKey
    && after.attempts >= before.attempts && after.maxAttempts == before.maxAttempts
    && (after.status.Running? ==> Unspent(before))
    && (Jobs.Terminal(before.status) ==> after.status == before.status)
  }

  /** A scheduled remediation job leaves its place by being released, and the scheduler asks the gate first. */
  ghost predicate ReleasedByGate(plans: map<Id, P.Remediation>, before: Jobs.DurableJob, after: Jobs.DurableJob) {
    before.jobType.RemediationJob? && before.status.Scheduled? && (after.status.Queued? || after.status.Running?) ==>
      Releasable(plans, before)
  }

  /** The jobs' side of what others do: existing jobs evolve, scheduled ones are released by the gate only, and
      no job for an attached plan appears except through the campaign. */
  ghost predicate JobsEvolve(
    before: Jobs.Store, after: Jobs.Store, attached: set<Id>, plans: map<Id, P.Remediation>)
  {
    && (forall id :: id in before ==>
          id in after && JobEvolves(before[id], after[id]) && ReleasedByGate(plans, before[id], after[id]))
    && (forall id :: id in after && id !in before ==>
          after[id].id == id && !(after[id].jobType.RemediationJob? && after[id].remediationId.Some? &&
                                  after[id].remediationId.value in attached))
  }

  /** One plan: anything, as long as it is put in flight only while a job of it is queued or runs, never counts
      as unstarted again, and keeps to the version of every outstanding job of it or a later one. */
  ghost predicate PlanEvolves(plan: Id, before: P.Remediation, after: P.Remediation, jobs: Jobs.Store) {
    && (InFlight(after) ==> InFlight(before) || HasActive(jobs, plan))
    && (Unstarted(after) ==> Unstarted(before))
    && (forall id :: id in jobs && Outstanding(jobs[id]) && jobs[id].remediationId == Some(plan) ==>
          NotAhead(jobs[id], before) ==> NotAhead(jobs[id], after))
  }

  /** The plans' side. */
  ghost predicate PlansEvolve(before: map<Id, P.Remediation>, after: map<Id, P.Remediation>, jobs: Jobs.Store) {
    && after.Keys == before.Keys
    && forall id :: id in before ==> PlanEvolves(id, before[id], after[id], jobs)
  }

  ghost predicate KeysOk(jobs: Jobs.Store, keys: map<Jobs.IdempotencyKey, Id>) {
    forall key :: key in keys ==>
      && keys[key] in jobs
      && (key.RemediationKey? ==>
            jobs[keys[key]].jobType.RemediationJob? && jobs[keys[key]].remediationId == Some(key.remediation))
  }

  ghost predicate Evolves(
    s: State, remediations: map<Id, P.Remediation>, jobs: Jobs.Store, keys: map<Jobs.IdempotencyKey, Id>)
  {
    && JobsEvolve(s.jobs, jobs, AttachedPlans(s.campaign.hosts), s.remediations)
    && PlansEvolve(s.remediations, remediations, s.jobs)
    && KeysOk(jobs, keys)
  }

  /** One step. A late proposal step may overwrite the status of a campaign, whatever it was. */
  ghost function Apply(w: World, step: Step): World {
    if w.s.campaign.batchSize < 1 then w
    else match step
    case Sync(now) => w.(s := Synced(w.s, now))
    case Start(k) =>
      if !Given(w.s, k) || !Starts(w.s, k) then w
      else
        var t := Synced(w.s, k.now);
        World(AfterStart(w.s, k),
              w.batches + [Batch(PreparedBatch(w.s, k).jobsByHost.Keys, t.campaign,
                                 Candidates(t.campaign.hosts, t.remediations))])
    case Cancel(actor, now) => w.(s := CanceledCampaign(w.s, actor, now))
    case Stop(failed, now) => w.(s := Stopped(w.s, failed, now))
    case Overwrite(status) => w.(s := w.s.(campaign := w.s.campaign.(status := status)))
    case Other(remediations, jobs, keys) =>
      if Evolves(w.s, remediations, jobs, keys)
        then w.(s := w.s.(remediations := remediations, jobs := jobs, keys := keys)) else w
  }

  function Latest(w: World): set<Id> {
    if w.batches == [] then {} else w.batches[|w.batches| - 1].hosts
  }

  // ---------------------------------------------------------------- the invariant

  /** Nothing of the host can bring it into flight. */
  ghost predicate Dormant(s: State, h: HostPlan) {
    Attached(h) ==>
      && !HasLive(s.remediations, s.jobs, h.remediationId.value)
      && (h.remediationId.value in s.remediations && InFlight(s.remediations[h.remediationId.value]) ==>
            IsRemediationJob(JobFor(h, s.jobs), Jobs.Canceled))
  }

  /** A host names no job but a remediation job of its own plan. */
  ghost predicate OwnJob(s: State, h: HostPlan) {
    Present(h.jobId) ==>
      && h.jobId.value in s.jobs && Attached(h)
      && s.jobs[h.jobId.value].jobType.RemediationJob? && s.jobs[h.jobId.value].remediationId == h.remediationId
  }

  /** The only job of a plan that may be outstanding is the one the host names, it is not bound to a version the
      plan has yet to reach, and no plan has one before it is started. */
  ghost predicate OneOutstanding(s: State, h: HostPlan) {
    Attached(h) ==>
      forall id :: id in s.jobs && Outstanding(s.jobs[id]) && s.jobs[id].remediationId == h.remediationId ==>
      && Present(h.jobId) && h.jobId.value == id
      && (h.remediationId.value in s.remediations ==>
           && !Unstarted(s.remediations[h.remediationId.value])
           && NotAhead(s.jobs[id], s.remediations[h.remediationId.value]))
  }

  ghost predicate HostOk(s: State, batch: set<Id>, h: HostPlan) {
    && OwnJob(s, h) && OneOutstanding(s, h)
    && (h.state in IN_FLIGHT ==> h.hostId in batch)
    && (h.hostId !in batch ==> Dormant(s, h))
  }

  /** Every host appears once, and no two hosts share a plan. */
  ghost predicate DistinctHosts(hosts: seq<HostPlan>) {
    forall i, j :: 0 <= i < j < |hosts| ==>
      hosts[i].hostId != hosts[j].hostId && (Attached(hosts[i]) ==> hosts[i].remediationId != hosts[j].remediationId)
  }

  ghost predicate Inv(s: State, batch: set<Id>) {
    && s.campaign.batchSize >= 1
    && DistinctHosts(s.campaign.hosts)
    && KeysOk(s.jobs, s.keys) && Jobs.WellKeyed(s.jobs)
    && forall i :: 0 <= i < |s.campaign.hosts| ==> HostOk(s, batch, s.campaign.hosts[i])
  }

  // ---------------------------------------------------------------- synchronizing

  /** A plan that is not in flight and whose job does not run is not shown in flight; a plan in flight is
      shown so unless its job was canceled. */
  lemma ShownInFlight(current: HostState, r: P.Remediation, job: Option<Jobs.DurableJob>, bound: bool)
    ensures HostStateOf(current, r, job, bound) in IN_FLIGHT <==>
      IsRemediationJob(job, Jobs.Running) || (InFlight(r) && !IsRemediationJob(job, Jobs.Canceled))
  {
  }

  lemma ReconcileKeepsDormant(r: P.Remediation, now: Time)
    ensures InFlight(Gate.Reconciled(r, now)) ==> InFlight(r)
    ensures Unstarted(Gate.Reconciled(r, now)) ==> Unstarted(r)
    ensures Forward(r, Gate.Reconciled(r, now))
  {
    ReconcileForward(r, now);
  }

  /** Plans that go forward, with the same jobs, bring nothing back. */
  lemma ForwardKeepsDead(s: State, h: HostPlan, t: State)
    requires Attached(h) && OneOutstanding(s, h) && t.jobs == s.jobs && t.remediations.Keys == s.remediations.Keys
    requires h.remediationId.value in s.remediations ==>
      Forward(s.remediations[h.remediationId.value], t.remediations[h.remediationId.value])
    ensures HasLive(t.remediations, t.jobs, h.remediationId.value) ==>
      HasLive(s.remediations, s.jobs, h.remediationId.value)
  {
    hide MayPass, Forward, NotAhead;
    forall id | id in t.jobs && MayRun(t.remediations, t.jobs[id]) && t.jobs[id].remediationId == h.remediationId
      ensures MayRun(s.remediations, s.jobs[id])
    {
      var plan := h.remediationId.value;
      if plan in s.remediations && s.jobs[id].status.Scheduled? && !MayPass(s.remediations[plan], s.jobs[id]) {
        SameJob(s.jobs[id]);
        ForwardKeepsShut(s.remediations[plan], t.remediations[plan], s.jobs[id], s.jobs[id]);
      }
    }
  }

  lemma SyncedHostOk(s: State, batch: set<Id>, h: HostPlan, t: State, now: Time)
    requires HostOk(s, batch, h) && t.jobs == s.jobs && t.remediations.Keys == s.remediations.Keys
    requires Attached(h) && h.remediationId.value in s.remediations ==>
      && (InFlight(t.remediations[h.remediationId.value]) ==> InFlight(s.remediations[h.remediationId.value]))
      && (Unstarted(t.remediations[h.remediationId.value]) ==> Unstarted(s.remediations[h.remediationId.value]))
      && Forward(s.remediations[h.remediationId.value], t.remediations[h.remediationId.value])
    ensures HostOk(t, batch, ProjectedHost(h, t.remediations, t.jobs, now))
  {
    hide MayPass;
    if Attached(h) {
      ForwardKeepsDead(s, h, t);
    }
    if Attached(h) && h.remediationId.value in t.remediations {
      var r := t.remediations[h.remediationId.value];
      ShownInFlight(h.state, r, JobFor(h, t.jobs), PlanBinding(h, r).Allow?);
      if IsRemediationJob(JobFor(h, s.jobs), Jobs.Running) {
        assert MayRun(s.remediations, s.jobs[h.jobId.value]);
      }
      hide HostStateOf, PlanBinding;
    }
  }

  lemma SyncKeepsInv(s: State, batch: set<Id>, now: Time)
    requires Inv(s, batch)
    ensures Inv(Synced(s, now), batch)
  {
    hide Synced, HostOk, ProjectedHost, Gate.Reconciled;
    var t := Synced(s, now);
    StopOnFailure.SyncedHosts(s, now);
    forall i | 0 <= i < |t.campaign.hosts| ensures HostOk(t, batch, t.campaign.hosts[i]) {
      var h := s.campaign.hosts[i];
      assert HostOk(s, batch, h);
      if Attached(h) && h.remediationId.value in s.remediations {
        ReconcileKeepsDormant(s.remediations[h.remediationId.value], now);
      }
      SyncedHostOk(s, batch, h, t, now);
    }
    SyncedEntries(s, now);
  }

  lemma SyncedEntries(s: State, now: Time)
    requires s.campaign.batchSize >= 1 && DistinctHosts(s.campaign.hosts)
    ensures DistinctHosts(Synced(s, now).campaign.hosts)
    ensures forall i :: 0 <= i < |s.campaign.hosts| ==> StopOnFailure.SameEntry(
      s.campaign.hosts[i].(approvals := Synced(s, now).campaign.hosts[i].approvals), Synced(s, now).campaign.hosts[i])
  {
    StopOnFailure.SyncedHosts(s, now);
    hide Synced;
  }

  // ---------------------------------------------------------------- canceling and stopping

  /** Canceling and stopping show a host in flight only if it was, or if its job runs. */
  ghost predicate ShowsNoMore(s: State, t: State) {
    && |t.campaign.hosts| == |s.campaign.hosts|
    && forall i :: 0 <= i < |s.campaign.hosts| ==>
         t.campaign.hosts[i].state in IN_FLIGHT ==>
           s.campaign.hosts[i].state in IN_FLIGHT || JobRuns(s, s.campaign.hosts[i])
  }

  /** Stopping takes nothing away that keeps a job from running. */
  lemma StoppingEndsJobs(s: State, t: State, plan: Id)
    requires StopOnFailure.MayStop(s, t)
    ensures HasLive(t.remediations, t.jobs, plan) ==> HasLive(s.remediations, s.jobs, plan)
  {
    forall id | id in t.jobs && MayRun(t.remediations, t.jobs[id])
      ensures id in s.jobs && MayRun(s.remediations, s.jobs[id]) && s.jobs[id].remediationId == t.jobs[id].remediationId
    {
      assert StopOnFailure.JobMayStop(s.jobs[id], t.jobs[id]);
      if s.jobs[id].status.Scheduled? {
        var r := s.jobs[id].remediationId.value;
        assert StopOnFailure.PlanMayStop(s.remediations[r], t.remediations[r]);
      }
    }
  }

  lemma StoppingLeavesOne(s: State, t: State, before: HostPlan, after: HostPlan)
    requires StopOnFailure.MayStop(s, t) && OneOutstanding(s, before) && StopOnFailure.SameEntry(before, after)
    ensures OneOutstanding(t, after)
  {
    if Attached(before) {
      var plan := before.remediationId.value;
      forall id | id in t.jobs && Outstanding(t.jobs[id]) && t.jobs[id].remediationId == before.remediationId
        ensures id in s.jobs && s.jobs[id] == t.jobs[id]
      {
        assert StopOnFailure.JobMayStop(s.jobs[id], t.jobs[id]);
      }
      if plan in s.remediations {
        assert StopOnFailure.PlanMayStop(s.remediations[plan], t.remediations[plan]);
      }
    }
  }

  lemma StoppedHostOk(s: State, t: State, batch: set<Id>, before: HostPlan, after: HostPlan)
    requires StopOnFailure.MayStop(s, t) && HostOk(s, batch, before) && StopOnFailure.SameEntry(before, after)
    requires after.state in IN_FLIGHT ==> before.state in IN_FLIGHT || JobRuns(s, before)
    ensures HostOk(t, batch, after)
  {
    StoppingLeavesOne(s, t, before, after);
    hide OneOutstanding, MayPass, Passable;
    if Present(before.jobId) {
      assert StopOnFailure.JobMayStop(s.jobs[before.jobId.value], t.jobs[before.jobId.value]);
      if JobRuns(s, before) {
        assert MayRun(s.remediations, s.jobs[before.jobId.value]);
      }
    }
    if before.hostId !in batch && Attached(before) {
      var plan := before.remediationId.value;
      StoppingEndsJobs(s, t, plan);
      if plan in s.remediations {
        assert StopOnFailure.PlanMayStop(s.remediations[plan], t.remediations[plan]);
      }
    }
  }

  lemma StoppingKeepsInv(s: State, t: State, batch: set<Id>)
    requires Inv(s, batch) && StopOnFailure.MayStop(s, t) && ShowsNoMore(s, t)
    ensures Inv(t, batch)
  {
    forall i | 0 <= i < |t.campaign.hosts| ensures HostOk(t, batch, t.campaign.hosts[i]) {
      hide JobRuns, HostOk;
      assert StopOnFailure.SameEntry(s.campaign.hosts[i], t.campaign.hosts[i]);
      StoppedHostOk(s, t, batch, s.campaign.hosts[i], t.campaign.hosts[i]);
    }
    StoppingKeepsTables(s, t);
    hide HostOk, JobRuns, KeysOk, Jobs.WellKeyed;
    assert forall i :: 0 <= i < |s.campaign.hosts| ==>
             StopOnFailure.SameEntry(s.campaign.hosts[i], t.campaign.hosts[i]);
  }

  lemma StoppingKeepsTables(s: State, t: State)
    requires KeysOk(s.jobs, s.keys) && Jobs.WellKeyed(s.jobs) && StopOnFailure.MayStop(s, t)
    ensures KeysOk(t.jobs, t.keys) && Jobs.WellKeyed(t.jobs)
  {
    forall id | id in t.jobs ensures t.jobs[id].id == id {
      assert StopOnFailure.JobMayStop(s.jobs[id], t.jobs[id]);
    }
    forall key | key in t.keys
      ensures t.keys[key] in t.jobs
      ensures key.RemediationKey? ==>
        t.jobs[t.keys[key]].jobType.RemediationJob? && t.jobs[t.keys[key]].remediationId == Some(key.remediation)
    {
      assert StopOnFailure.JobMayStop(s.jobs[t.keys[key]], t.jobs[t.keys[key]]);
    }
  }

  lemma StopKeepsInv(s: State, batch: set<Id>, failed: Id, now: Time)
    requires Inv(s, batch)
    ensures Inv(Stopped(s, failed, now), batch)
  {
    hide StopHosts, HostOk, JobRuns, StopOnFailure.MayStop;
    if failed in s.remediations && s.remediations[failed].failurePolicy.stopRemainingHosts {
      var t := StopHosts(s, |s.campaign.hosts|, failed, now);
      StopOnFailure.StopHostsDo(s, |s.campaign.hosts|, failed, now);
      assert ShowsNoMore(s, t) by {
        forall i | 0 <= i < |s.campaign.hosts| && t.campaign.hosts[i].state in IN_FLIGHT
          ensures s.campaign.hosts[i].state in IN_FLIGHT || JobRuns(s, s.campaign.hosts[i])
        {
          assert StopOnFailure.HostStopped(s, t, i, failed);
        }
      }
      StoppingKeepsInv(s, t, batch);
      SameForHosts(t, t.campaign.(updatedAt := now), batch);
    }
  }

  /** The invariant looks at the hosts and the batch size of the campaign only. */
  lemma SameForHosts(s: State, c: PatchCampaign, batch: set<Id>)
    requires Inv(s, batch) && c.hosts == s.campaign.hosts && c.batchSize == s.campaign.batchSize
    ensures Inv(s.(campaign := c), batch)
  {
    forall i | 0 <= i < |c.hosts| ensures HostOk(s.(campaign := c), batch, c.hosts[i]) {
      assert HostOk(s, batch, s.campaign.hosts[i]);
    }
  }

  /** Canceling a host does nothing, or rewrites its entry once its job, and perhaps its plan, is canceled. */
  lemma CancelHostShape(s: State, i: nat, now: Time)
    requires i < |s.campaign.hosts|
    ensures var h := s.campaign.hosts[i];
      var t, v := CancelJobOf(s, h, now, "canceled"), CancelHost(s, i, now);
      && |v.campaign.hosts| == |s.campaign.hosts|
      && var next := v.campaign.hosts[i];
         && v in {s, WithHost(t, i, next), WithHost(CancelPlanOf(t, h, now), i, next)}
         && StopOnFailure.SameEntry(h, next)
         && (next.state in IN_FLIGHT ==> h.state in IN_FLIGHT || JobRuns(t, h))
  {
    hide CancelJobOf, CancelPlanOf, JobRuns, StopOnFailure.MayStop;
    var h := s.campaign.hosts[i];
    StopOnFailure.CancelJobMayStop(s, h, now, "canceled");
    StopOnFailure.CancelPlanMayStop(CancelJobOf(s, h, now, "canceled"), h, now);
  }

  lemma CancelHostDoes(s: State, i: nat, now: Time)
    requires i < |s.campaign.hosts|
    ensures StopOnFailure.MayStop(s, CancelHost(s, i, now)) && ShowsNoMore(s, CancelHost(s, i, now))
  {
    hide CancelHost, CancelJobOf, CancelPlanOf, StopOnFailure.MayStop, JobRuns;
    CancelHostShape(s, i, now);
    var h, next := s.campaign.hosts[i], CancelHost(s, i, now).campaign.hosts[i];
    var t := CancelJobOf(s, h, now, "canceled");
    var u := CancelPlanOf(t, h, now);
    StopOnFailure.CancelJobMayStop(s, h, now, "canceled");
    StopOnFailure.CancelPlanMayStop(t, h, now);
    StopOnFailure.WithHostMayStop(t, i, next);
    StopOnFailure.WithHostMayStop(u, i, next);
    StopOnFailure.MayStopThen(s, t, u);
    StopOnFailure.MayStopThen(s, t, WithHost(t, i, next));
    StopOnFailure.MayStopThen(s, u, WithHost(u, i, next));
    StopOnFailure.MayStopRefl(s);
  }

  lemma {:induction false} CancelHostsKeepInv(s: State, batch: set<Id>, n: nat, now: Time)
    requires Inv(s, batch) && n <= |s.campaign.hosts|
    ensures Inv(CancelHosts(s, n, now), batch)
  {
    hide CancelHost, Inv, StopOnFailure.MayStop, ShowsNoMore;
    if n > 0 {
      CancelHostsKeepInv(s, batch, n - 1, now);
      var t := CancelHosts(s, n - 1, now);
      CancelHostDoes(t, n - 1, now);
      StoppingKeepsInv(t, CancelHost(t, n - 1, now), batch);
    }
  }

  lemma CancelKeepsInv(s: State, batch: set<Id>, actor: string, now: Time)
    requires Inv(s, batch)
    ensures Inv(CanceledCampaign(s, actor, now), batch)
  {
    assert s.campaign.batchSize >= 1;
    hide Synced, CancelHosts, Inv, AnyRunning, Completed;
    SyncKeepsInv(s, batch, now);
    var t := Synced(s, now);
    if !Completed(t.campaign) {
      CancelHostsKeepInv(t, batch, |t.campaign.hosts|, now);
      var u := CancelHosts(t, |t.campaign.hosts|, now);
      SameForHosts(u, CanceledCampaign(s, actor, now).campaign, batch);
    }
  }

  // ---------------------------------------------------------------- starting

  ghost predicate DistinctIds(newIds: map<Id, Id>) {
    && (forall plan :: plan in newIds ==> newIds[plan] != "")
    && forall a, b :: a in newIds && b in newIds && a != b ==> newIds[a] != newIds[b]
  }

  /** Preparing leaves a host's entry alone, or refuses it. */
  predicate EntryPrepared(a: HostPlan, b: HostPlan) {
    b == a || (b == a.(state := b.state, updatedAt := b.updatedAt) && b.state in {PlanChanged, Blocked})
  }

  /** The jobs of a plan are the same in both stores. */
  ghost predicate SameJobs(before: Jobs.Store, after: Jobs.Store, plan: Id) {
    forall id :: id in after && after[id].remediationId == Some(plan) ==> id in before && after[id] == before[id]
  }

  /** A host without a prepared job has its plan, and the plan's jobs, as they were. */
  ghost predicate Untouched(t: State, p: Preparation, h: HostPlan) {
    Attached(h) ==>
      && SameJobs(t.jobs, p.state.jobs, h.remediationId.value)
      && (h.remediationId.value in t.remediations ==>
            h.remediationId.value in p.state.remediations
            && p.state.remediations[h.remediationId.value] == t.remediations[h.remediationId.value])
  }

  /** A host with a prepared job: its plan has no other new job, and a new job has put the plan in flight. */
  ghost predicate OwnPrepared(t: State, p: Preparation, h: HostPlan)
    requires h.hostId in p.jobsByHost
  {
    var job := p.jobsByHost[h.hostId];
    && Attached(h) && job.id in p.state.jobs && p.state.jobs[job.id] == job
    && job.jobType.RemediationJob? && job.remediationId == h.remediationId
    && (forall id :: id in p.state.jobs && p.state.jobs[id].remediationId == h.remediationId ==>
          id == job.id || (id in t.jobs && p.state.jobs[id] == t.jobs[id]))
    && (job.id !in t.jobs ==>
          && job.id != ""
          && h.remediationId.value in p.state.remediations && !Unstarted(p.state.remediations[h.remediationId.value])
          && NotAhead(job, p.state.remediations[h.remediationId.value]))
  }

  /** After the first `n` hosts, starting from state `t`. */
  ghost predicate PreparedSoFar(t: State, p: Preparation, n: nat, k: Circumstances)
    requires n <= |t.campaign.hosts|
  {
    var hosts := t.campaign.hosts;
    && p.state.campaign == t.campaign.(hosts := p.state.campaign.hosts)
    && |p.state.campaign.hosts| == |hosts| && p.state.remediations.Keys == t.remediations.Keys
    && (forall i :: 0 <= i < |hosts| ==> EntryPrepared(hosts[i], p.state.campaign.hosts[i]))
    && (forall id :: id in t.jobs ==> id in p.state.jobs && p.state.jobs[id] == t.jobs[id])
    && KeysOk(p.state.jobs, p.state.keys) && Jobs.WellKeyed(p.state.jobs)
    && (forall i :: n <= i < |hosts| ==>
          && p.state.campaign.hosts[i] == hosts[i] && hosts[i].hostId !in p.jobsByHost
          && (Attached(hosts[i]) && hosts[i].remediationId.value in k.newIds ==>
              k.newIds[hosts[i].remediationId.value] !in p.state.jobs))
    && (forall i :: 0 <= i < |hosts| && hosts[i].hostId !in p.jobsByHost ==> Untouched(t, p, hosts[i]))
    && (forall i :: 0 <= i < |hosts| && hosts[i].hostId in p.jobsByHost ==> OwnPrepared(t, p, hosts[i]))
  }

  /** Host `n` refused, skipped or given the job its key already names: only its entry may change. */
  lemma RefusedPrepared(t: State, p: Preparation, n: nat, k: Circumstances, h: HostPlan)
    requires n < |t.campaign.hosts| && PreparedSoFar(t, p, n, k) && DistinctHosts(t.campaign.hosts)
    requires EntryPrepared(t.campaign.hosts[n], h)
    ensures PreparedSoFar(t, p.(state := WithHost(p.state, n, h)), n + 1, k)
  {
    var q := p.(state := WithHost(p.state, n, h));
    hide KeysOk, Jobs.WellKeyed, SameJobs;
    forall i | 0 <= i < |t.campaign.hosts| && t.campaign.hosts[i].hostId !in q.jobsByHost
      ensures Untouched(t, q, t.campaign.hosts[i])
    {
      assert Untouched(t, p, t.campaign.hosts[i]);
    }
    forall i | 0 <= i < |t.campaign.hosts| && t.campaign.hosts[i].hostId in q.jobsByHost
      ensures OwnPrepared(t, q, t.campaign.hosts[i])
    {
      assert OwnPrepared(t, p, t.campaign.hosts[i]);
    }
  }

  lemma ReusedPrepared(t: State, p: Preparation, n: nat, k: Circumstances, job: Jobs.DurableJob)
    requires n < |t.campaign.hosts| && PreparedSoFar(t, p, n, k) && DistinctHosts(t.campaign.hosts)
    requires Attached(t.campaign.hosts[n])
    requires job.id in p.state.jobs && p.state.jobs[job.id] == job
    requires job.jobType.RemediationJob? && job.remediationId == t.campaign.hosts[n].remediationId
    requires job.id in t.jobs
    ensures PreparedSoFar(t, p.(jobsByHost := p.jobsByHost[t.campaign.hosts[n].hostId := job]), n + 1, k)
  {
    var q := p.(jobsByHost := p.jobsByHost[t.campaign.hosts[n].hostId := job]);
    hide KeysOk, Jobs.WellKeyed, SameJobs;
    forall i | 0 <= i < |t.campaign.hosts| && t.campaign.hosts[i].hostId !in q.jobsByHost
      ensures Untouched(t, q, t.campaign.hosts[i])
    {
      assert Untouched(t, p, t.campaign.hosts[i]);
    }
    forall i | 0 <= i < |t.campaign.hosts| && t.campaign.hosts[i].hostId in q.jobsByHost
      ensures OwnPrepared(t, q, t.campaign.hosts[i])
    {
      assert i != n ==> OwnPrepared(t, p, t.campaign.hosts[i]);
    }
  }

  /** The job and the plan it is for, stored. */
  function Created(p: Preparation, h: HostPlan, job: Jobs.DurableJob, r: P.Remediation): Preparation
    requires Attached(h)
  {
    var id := h.remediationId.value;
    Preparation(
      p.state.(remediations := p.state.remediations[id := r], jobs := p.state.jobs[job.id := job],
               keys := p.state.keys[Jobs.RemediationKey(id, r.planHash) := job.id]),
      p.jobsByHost[h.hostId := job])
  }

  lemma CreationLeavesOthers(
    t: State, p: Preparation, h: HostPlan, job: Jobs.DurableJob, r: P.Remediation, other: HostPlan)
    requires Attached(h) && job.remediationId == h.remediationId && job.id !in p.state.jobs
    requires other.hostId != h.hostId && (Attached(other) ==> other.remediationId != h.remediationId)
    ensures Untouched(t, p, other) ==> Untouched(t, Created(p, h, job, r), other)
    ensures other.hostId in p.jobsByHost && OwnPrepared(t, p, other) ==> OwnPrepared(t, Created(p, h, job, r), other)
  {
    hide Unstarted;
  }

  lemma CreationPrepares(t: State, p: Preparation, h: HostPlan, job: Jobs.DurableJob, r: P.Remediation)
    requires Attached(h) && job.jobType.RemediationJob? && job.remediationId == h.remediationId && job.id != ""
    requires Untouched(t, p, h) && job.id !in p.state.jobs && !Unstarted(r) && NotAhead(job, r)
    ensures OwnPrepared(t, Created(p, h, job, r), h)
  {
  }

  lemma CreationKeepsTables(p: Preparation, h: HostPlan, job: Jobs.DurableJob, r: P.Remediation)
    requires Attached(h) && job.jobType.RemediationJob? && job.remediationId == h.remediationId
    requires KeysOk(p.state.jobs, p.state.keys) && Jobs.WellKeyed(p.state.jobs) && job.id !in p.state.jobs
    ensures var q := Created(p, h, job, r).state;
      KeysOk(q.jobs, q.keys) && Jobs.WellKeyed(q.jobs)
  {
  }

  /** Host `n` given a new job under a fresh id: its plan goes into flight, and nobody else's. */
  lemma CreatedPrepared(t: State, p: Preparation, n: nat, k: Circumstances, job: Jobs.DurableJob, r: P.Remediation)
    requires n < |t.campaign.hosts| && PreparedSoFar(t, p, n, k) && DistinctHosts(t.campaign.hosts)
    requires DistinctIds(k.newIds)
    requires Attached(t.campaign.hosts[n]) && t.campaign.hosts[n].remediationId.value in k.newIds
    requires t.campaign.hosts[n].remediationId.value in p.state.remediations
    requires job.id == k.newIds[t.campaign.hosts[n].remediationId.value] && job.jobType.RemediationJob?
    requires job.remediationId == t.campaign.hosts[n].remediationId && !Unstarted(r) && NotAhead(job, r)
    ensures PreparedSoFar(t, Created(p, t.campaign.hosts[n], job, r), n + 1, k)
  {
    hide Untouched, OwnPrepared, KeysOk, Jobs.WellKeyed, SameJobs, Unstarted, EntryPrepared;
    var hosts, h := t.campaign.hosts, t.campaign.hosts[n];
    var q := Created(p, h, job, r);
    CreationKeepsTables(p, h, job, r);
    CreationPrepares(t, p, h, job, r);
    forall i | 0 <= i < |hosts| && i != n
      ensures Untouched(t, p, hosts[i]) ==> Untouched(t, q, hosts[i])
      ensures hosts[i].hostId in p.jobsByHost ==> hosts[i].hostId in q.jobsByHost && OwnPrepared(t, q, hosts[i])
    {
      assert hosts[i].hostId != h.hostId && (Attached(hosts[i]) ==> hosts[i].remediationId != h.remediationId);
      CreationLeavesOthers(t, p, h, job, r, hosts[i]);
    }
  }

  lemma SkippedPrepared(t: State, p: Preparation, n: nat, k: Circumstances)
    requires n < |t.campaign.hosts| && PreparedSoFar(t, p, n, k)
    ensures PreparedSoFar(t, p, n + 1, k)
  {
  }

  /** A job of a plan that nothing has been prepared for yet was there before. */
  lemma KnownJob(t: State, p: Preparation, n: nat, k: Circumstances, id: Id)
    requires n < |t.campaign.hosts| && PreparedSoFar(t, p, n, k) && Attached(t.campaign.hosts[n])
    requires id in p.state.jobs && p.state.jobs[id].remediationId == t.campaign.hosts[n].remediationId
    ensures id in t.jobs
  {
    assert t.campaign.hosts[n].hostId !in p.jobsByHost;
    assert Untouched(t, p, t.campaign.hosts[n]);
  }

  lemma PrepareHostKeeps(t: State, p: Preparation, n: nat, k: Circumstances)
    requires n < |t.campaign.hosts| && PreparedSoFar(t, p, n, k) && DistinctHosts(t.campaign.hosts)
    requires t.campaign.hosts[n] == p.state.campaign.hosts[n]
    requires DistinctIds(k.newIds)
    ensures PreparedSoFar(t, PrepareHost(p, n, k), n + 1, k)
  {
    var s, h := p.state, p.state.campaign.hosts[n];
    if !Attached(h) || h.remediationId.value !in s.remediations ||
      s.remediations[h.remediationId.value].hostId !in k.hosts {
      SkippedPrepared(t, p, n, k);
      return;
    }
    var id := h.remediationId.value;
    var r := s.remediations[id];
    var key := Jobs.RemediationKey(id, r.planHash);
    assert KeysOk(s.jobs, s.keys) && Jobs.WellKeyed(s.jobs);
    var decision :=
      if !PlanBinding(h, r).Allow? then PlanBinding(h, r)
      else Gate.ExecutionEligibility(r, k.hosts[r.hostId], None, r.hostId in k.rollbackFailures);
    hide PreparedSoFar, DistinctHosts, Gate.ExecutionEligibility, PlanBinding;
    if !decision.Allow? {
      RefusedPrepared(t, p, n, k, RefusedHost(h, decision, k.now));
    } else if key in s.keys && s.keys[key] in s.jobs {
      if s.jobs[s.keys[key]].campaignId != Some(s.campaign.id) {
        RefusedPrepared(t, p, n, k, RefusedHost(h, Gate.Refuse(Gate.DuplicateExecution), k.now));
      } else {
        KnownJob(t, p, n, k, s.keys[key]);
        ReusedPrepared(t, p, n, k, s.jobs[s.keys[key]]);
      }
    } else if id !in k.newIds {
      SkippedPrepared(t, p, n, k);
    } else {
      var open := id in k.openWindows;
      CreatedPrepared(t, p, n, k, NewJob(k.newIds[id], id, r, s.campaign.id, open, k.now),
                      r.(executionState := if open then P.ExecQueued else P.WaitingForWindow));
    }
  }

  lemma NextEntry(t: State, p: Preparation, n: nat, k: Circumstances)
    requires n < |t.campaign.hosts| && PreparedSoFar(t, p, n, k)
    ensures |p.state.campaign.hosts| == |t.campaign.hosts| && t.campaign.hosts[n] == p.state.campaign.hosts[n]
  {
  }

  lemma {:induction false} PrepareHostsKeep(t: State, p: Preparation, chosen: seq<Id>, n: nat, k: Circumstances)
    requires n <= |t.campaign.hosts| == |p.state.campaign.hosts| && PreparedSoFar(t, p, 0, k)
    requires DistinctHosts(t.campaign.hosts)
    requires DistinctIds(k.newIds)
    ensures PreparedSoFar(t, PrepareHosts(p, chosen, n, k), n, k)
  {
    hide PrepareHost, DistinctHosts, PreparedSoFar;
    if n > 0 {
      PrepareHostsKeep(t, p, chosen, n - 1, k);
      var q := PrepareHosts(p, chosen, n - 1, k);
      NextEntry(t, q, n - 1, k);
      if q.state.campaign.hosts[n - 1].hostId in chosen {
        PrepareHostKeeps(t, q, n - 1, k);
      } else {
        SkippedPrepared(t, q, n - 1, k);
      }
    }
  }

  lemma {:induction false} PreparesChosenOnly(p: Preparation, chosen: seq<Id>, n: nat, k: Circumstances)
    requires n <= |p.state.campaign.hosts|
    ensures forall id :: id in PrepareHosts(p, chosen, n, k).jobsByHost ==> id in chosen || id in p.jobsByHost
  {
    hide PrepareHost;
    if n > 0 {
      PreparesChosenOnly(p, chosen, n - 1, k);
      PreparesOne(PrepareHosts(p, chosen, n - 1, k), n - 1, k);
    }
  }

  lemma PreparesOne(p: Preparation, n: nat, k: Circumstances)
    requires n < |p.state.campaign.hosts|
    ensures forall id :: id in PrepareHost(p, n, k).jobsByHost ==>
      id in p.jobsByHost || id == p.state.campaign.hosts[n].hostId
  {
    hide Gate.ExecutionEligibility, PlanBinding;
  }

  /** Before a start: the campaign is synchronized, nobody is in flight, and no plan can be shown in
      flight by its own state. */
  ghost predicate Still(t: State, h: HostPlan) {
    && OwnJob(t, h) && OneOutstanding(t, h) && h.state !in IN_FLIGHT
    && (Attached(h) && h.remediationId.value in t.remediations && InFlight(t.remediations[h.remediationId.value]) ==>
          IsRemediationJob(JobFor(h, t.jobs), Jobs.Canceled))
  }

  lemma StillWhenSettled(t: State, h: HostPlan)
    requires StopOnFailure.HostSettled(t, h) && OwnJob(t, h) && OneOutstanding(t, h) && h.state !in IN_FLIGHT
    ensures Still(t, h)
  {
    hide OneOutstanding;
    if Attached(h) && h.remediationId.value in t.remediations {
      var r := t.remediations[h.remediationId.value];
      ShownInFlight(h.state, r, JobFor(h, t.jobs), PlanBinding(h, r).Allow?);
      hide HostStateOf, PlanBinding;
    }
  }

  /** The state a start begins from, once it is allowed. */
  lemma MarkedIsStill(s: State, batch: set<Id>, k: Circumstances)
    requires Inv(s, batch) && Starts(s, k)
    ensures var t := Marked(s, k.now);
      && t.jobs == s.jobs && t.keys == s.keys && t.campaign.batchSize >= 1 && |t.campaign.hosts| == |s.campaign.hosts|
      && t.remediations == Synced(s, k.now).remediations
      && DistinctHosts(t.campaign.hosts)
      && (forall i :: 0 <= i < |s.campaign.hosts| ==>
            && t.campaign.hosts[i].hostId == s.campaign.hosts[i].hostId
            && t.campaign.hosts[i].remediationId == s.campaign.hosts[i].remediationId
            && Still(t, t.campaign.hosts[i]))
  {
    var v, t := Synced(s, k.now), Marked(s, k.now);
    assert s.campaign.batchSize >= 1 && DistinctHosts(s.campaign.hosts);
    hide Inv, HostOk, PreparedBatch, BatchOf, Still, StopOnFailure.HostSettled, StopOnFailure.Settled, Synced;
    hide Starts, Any;
    StopOnFailure.SyncedHosts(s, k.now);
    SyncedEntries(s, k.now);
    SyncKeepsInv(s, batch, k.now);
    StopOnFailure.SyncSettles(s, k.now);
    StartFindsNobodyInFlight(s, k);
    forall i | 0 <= i < |t.campaign.hosts| ensures Still(t, t.campaign.hosts[i]) {
      var h := v.campaign.hosts[i];
      SettledHostIsStill(v, batch, i);
      MarkingKeepsStill(v, t, h, t.campaign.hosts[i]);
    }
  }

  lemma SettledHostIsStill(v: State, batch: set<Id>, i: nat)
    requires Inv(v, batch) && StopOnFailure.Settled(v) && i < |v.campaign.hosts| && !Any(v.campaign.hosts, IN_FLIGHT)
    ensures Still(v, v.campaign.hosts[i])
  {
    assert HostOk(v, batch, v.campaign.hosts[i]) && StopOnFailure.HostSettled(v, v.campaign.hosts[i]);
    hide Still, StopOnFailure.HostSettled, OwnJob, OneOutstanding;
    StillWhenSettled(v, v.campaign.hosts[i]);
  }

  lemma MarkingKeepsStill(v: State, t: State, h: HostPlan, marked: HostPlan)
    requires Still(v, h) && t.jobs == v.jobs && t.remediations == v.remediations
    requires marked == h ||
      (marked.state == PlanChanged && marked.remediationId == h.remediationId && marked.jobId == h.jobId)
    ensures Still(t, marked)
  {
  }

  /** A host after the start, in its own batch or left out of it. */
  lemma StartedHostOk(t: State, p: Preparation, u: State, k: Circumstances, i: nat)
    requires i < |t.campaign.hosts| && PreparedSoFar(t, p, |t.campaign.hosts|, k) && Still(t, t.campaign.hosts[i])
    requires u.jobs == p.state.jobs && u.remediations == p.state.remediations
    requires Harmless(t, p, t.campaign.hosts[i])
    ensures HostOk(u, p.jobsByHost.Keys, StartedHost(p.state.campaign.hosts[i], p.jobsByHost, k.now))
  {
    hide MayRun, Unstarted, NotAhead, InFlight;
    var before, h := t.campaign.hosts[i], p.state.campaign.hosts[i];
    assert EntryPrepared(before, h);
    if h.hostId in p.jobsByHost {
      assert OwnPrepared(t, p, before);
      assert forall id :: id in t.jobs && t.jobs[id].remediationId == before.remediationId ==> !Outstanding(t.jobs[id]);
    } else {
      assert Untouched(t, p, before);
      LeftOutIsDormant(t, p, u, before, h);
    }
  }

  lemma LeftOutIsDormant(t: State, p: Preparation, u: State, before: HostPlan, h: HostPlan)
    requires Still(t, before) && EntryPrepared(before, h) && Untouched(t, p, before)
    requires u.jobs == p.state.jobs && u.remediations == p.state.remediations
    requires forall id :: id in t.jobs ==> id in p.state.jobs && p.state.jobs[id] == t.jobs[id]
    requires p.state.remediations.Keys == t.remediations.Keys
    requires Attached(before) ==> !HasLive(t.remediations, t.jobs, before.remediationId.value)
    ensures OwnJob(u, h) && OneOutstanding(u, h) && h.state !in IN_FLIGHT && Dormant(u, h)
  {
    hide MayPass, Unstarted, NotAhead, InFlight;
    if Attached(h) {
      assert forall id :: id in u.jobs && u.jobs[id].remediationId == h.remediationId ==>
        id in t.jobs && u.jobs[id] == t.jobs[id] &&
          MayRun(u.remediations, u.jobs[id]) == MayRun(t.remediations, t.jobs[id]);
    }
  }

  // ---------------------------------------------------------------- only unstarted plans are prepared

  ghost predicate SelectableId(v: State, id: Id) {
    exists j :: 0 <= j < |v.campaign.hosts| && Selectable(v.campaign.hosts[j], v.remediations) &&
      v.campaign.hosts[j].hostId == id
  }

  /** A chosen id is that of a selectable host. */
  lemma ChosenIsSelectable(v: State, id: Id)
    requires id in BatchOf(v.campaign, v.remediations).hostIds
    ensures SelectableId(v, id)
  {
    hide BatchOf, Candidates;
    BatchExactly(v.campaign, v.remediations);
    CandidatesMeans(v.campaign.hosts, v.remediations);
    var candidates, chosen := Candidates(v.campaign.hosts, v.remediations), BatchOf(v.campaign, v.remediations).hostIds;
    var n :| 0 <= n < |chosen| && chosen[n] == id;
    assert HostIds(candidates)[n] == id && candidates[n] in candidates;
    assert ComesFrom(candidates[n], v.campaign.hosts, v.remediations);
  }

  lemma SelectedIsUnstarted(s: State, v: State, now: Time, i: nat)
    requires s.campaign.batchSize >= 1 && i < |s.campaign.hosts| && v == Synced(s, now)
    requires |v.campaign.hosts| == |s.campaign.hosts|
    requires DistinctHosts(v.campaign.hosts) && StopOnFailure.Settled(v)
    requires v.campaign.hosts[i].hostId == s.campaign.hosts[i].hostId
    requires SelectableId(v, s.campaign.hosts[i].hostId)
    ensures var h := s.campaign.hosts[i];
      Attached(h) && h.remediationId.value in s.remediations && Unstarted(s.remediations[h.remediationId.value])
  {
    hide Synced, HostStateOf, PlanBinding;
    var h := v.campaign.hosts[i];
    SyncedHostAt(s, now, i);
    assert Selectable(h, v.remediations) && StopOnFailure.HostSettled(v, h);
    var r := v.remediations[h.remediationId.value];
    ApprovedExactly(h.state, r, JobFor(h, v.jobs), PlanBinding(h, r).Allow?);
    ReconcileKeepsDormant(s.remediations[h.remediationId.value], now);
    hide Gate.Reconciled;
  }

  /** Only hosts whose plans have not been started are prepared. */
  lemma PreparedIsUnstarted(s: State, batch: set<Id>, k: Circumstances, i: nat)
    requires Inv(s, batch) && Starts(s, k) && i < |s.campaign.hosts|
    requires s.campaign.hosts[i].hostId in PreparedBatch(s, k).jobsByHost
    ensures var h := s.campaign.hosts[i];
      Attached(h) && h.remediationId.value in s.remediations && Unstarted(s.remediations[h.remediationId.value])
  {
    var v := Synced(s, k.now);
    var chosen := BatchOf(v.campaign, v.remediations).hostIds;
    assert s.campaign.batchSize >= 1 && DistinctHosts(s.campaign.hosts);
    hide Inv, Synced, Marked, BatchOf, PrepareHosts, StopOnFailure.HostSettled, Gate.Reconciled, HostStateOf;
    MarkedHosts(s, k.now);
    PreparesChosenOnly(Preparation(Marked(s, k.now), map[]), chosen, |v.campaign.hosts|, k);
    BatchExactly(v.campaign, v.remediations);
    SyncedEntries(s, k.now);
    SyncedHostAt(s, k.now, i);
    ChosenIsSelectable(v, s.campaign.hosts[i].hostId);
    StopOnFailure.SyncSettles(s, k.now);
    SelectedIsUnstarted(s, v, k.now, i);
  }

  // ---------------------------------------------------------------- the condition for a start

  function SyncedPlans(s: State, now: Time): map<Id, P.Remediation> {
    ReconciledPlans(s.remediations, AttachedPlans(s.campaign.hosts), now)
  }

  /** The host has a job that may yet run, and its plan, once reconciled, is not in flight: a start does not
      see it. */
  ghost predicate Overlooked(s: State, h: HostPlan, now: Time) {
    && Attached(h) && HasLive(SyncedPlans(s, now), s.jobs, h.remediationId.value)
    && (h.remediationId.value in s.remediations ==>
        !InFlight(Gate.Reconciled(s.remediations[h.remediationId.value], now)))
  }

  /** Nobody would be overlooked. This can be looked up before a batch is started, on plans and jobs alone;
      the source looks at the hosts' states instead. */
  ghost predicate NobodyOverlooked(s: State, now: Time) {
    forall i :: 0 <= i < |s.campaign.hosts| ==> !Overlooked(s, s.campaign.hosts[i], now)
  }

  /** No job that may run belongs to a host left out, and no outstanding one to a host of the batch. */
  ghost predicate Harmless(t: State, p: Preparation, h: HostPlan) {
    Attached(h) ==>
      if h.hostId in p.jobsByHost then !HasOutstanding(t.jobs, h.remediationId.value)
      else !HasLive(t.remediations, t.jobs, h.remediationId.value)
  }

  lemma NothingPreparedYet(t: State, k: Circumstances)
    requires KeysOk(t.jobs, t.keys) && Jobs.WellKeyed(t.jobs) && FreshIds(t.jobs, k.newIds)
    ensures PreparedSoFar(t, Preparation(t, map[]), 0, k)
  {
    hide KeysOk, Jobs.WellKeyed;
  }

  lemma BatchPrepared(s: State, batch: set<Id>, k: Circumstances)
    requires Inv(s, batch) && Given(s, k) && Starts(s, k)
    ensures |Marked(s, k.now).campaign.hosts| == |s.campaign.hosts|
    ensures PreparedSoFar(Marked(s, k.now), PreparedBatch(s, k), |s.campaign.hosts|, k)
  {
    hide Marked, Starts, Still, HostOk, PreparedSoFar, KeysOk, Jobs.WellKeyed, DistinctHosts, PrepareHosts, BatchOf;
    hide Synced, AttachedPlans;
    assert KeysOk(s.jobs, s.keys) && Jobs.WellKeyed(s.jobs) && DistinctIds(k.newIds);
    MarkedIsStill(s, batch, k);
    var t := Marked(s, k.now);
    NothingPreparedYet(t, k);
    MarkedHosts(s, k.now);
    PrepareHostsKeep(
      t, Preparation(t, map[]), BatchOf(Synced(s, k.now).campaign, Synced(s, k.now).remediations).hostIds,
      |s.campaign.hosts|, k);
  }

  /** What a start makes of the prepared hosts. */
  lemma StartedInv(t: State, p: Preparation, k: Circumstances)
    requires t.campaign.batchSize >= 1 && DistinctHosts(t.campaign.hosts)
    requires PreparedSoFar(t, p, |t.campaign.hosts|, k)
    requires forall i :: 0 <= i < |t.campaign.hosts| ==> Still(t, t.campaign.hosts[i])
    requires forall i :: 0 <= i < |t.campaign.hosts| ==> Harmless(t, p, t.campaign.hosts[i])
    ensures Inv(p.state.(campaign := Started(p.state.campaign, p.jobsByHost, k.now)), p.jobsByHost.Keys)
  {
    var u := p.state.(campaign := Started(p.state.campaign, p.jobsByHost, k.now));
    forall i | 0 <= i < |t.campaign.hosts| ensures HostOk(u, p.jobsByHost.Keys, u.campaign.hosts[i]) {
      hide HostOk, Still, KeysOk, Jobs.WellKeyed, Harmless, PreparedSoFar, DistinctHosts;
      StartedHostOk(t, p, u, k, i);
    }
    hide HostOk, Still, KeysOk, Jobs.WellKeyed, Harmless, OwnPrepared, Untouched;
  }

  lemma SyncedHostAt(s: State, now: Time, i: nat)
    requires s.campaign.batchSize >= 1 && i < |s.campaign.hosts|
    ensures var t := Synced(s, now);
      && t.jobs == s.jobs && t.remediations.Keys == s.remediations.Keys && |t.campaign.hosts| == |s.campaign.hosts|
      && t.campaign.hosts[i] == ProjectedHost(s.campaign.hosts[i], t.remediations, s.jobs, now)
      && (Attached(s.campaign.hosts[i]) && s.campaign.hosts[i].remediationId.value in s.remediations ==>
            t.remediations[s.campaign.hosts[i].remediationId.value]
            == Gate.Reconciled(s.remediations[s.campaign.hosts[i].remediationId.value], now))
  {
    hide Synced, ProjectedHost, Gate.Reconciled, WithStatus;
    StopOnFailure.SyncedHosts(s, now);
    assert Attached(s.campaign.hosts[i]) ==> s.campaign.hosts[i].remediationId.value in AttachedPlans(s.campaign.hosts);
  }

  lemma StartFindsNobodyInFlight(s: State, k: Circumstances)
    requires s.campaign.batchSize >= 1 && Starts(s, k)
    ensures !Any(Synced(s, k.now).campaign.hosts, IN_FLIGHT)
  {
    hide PreparedBatch, BatchOf, Synced;
    BatchExactly(Synced(s, k.now).campaign, Synced(s, k.now).remediations);
  }

  /** An outstanding job met by a start is the one its host names and does not run, and the host is overlooked
      exactly if the job may run: it is queued, or scheduled and the gate may still let it through. */
  lemma OutstandingIsOverlooked(s: State, batch: set<Id>, k: Circumstances, i: nat, id: Id)
    requires Inv(s, batch) && Starts(s, k) && i < |s.campaign.hosts| && Attached(s.campaign.hosts[i])
    requires id in s.jobs && Outstanding(s.jobs[id]) && s.jobs[id].remediationId == s.campaign.hosts[i].remediationId
    ensures var h := s.campaign.hosts[i];
      && JobFor(h, s.jobs) == Some(s.jobs[id])
      && (h.remediationId.value in s.remediations ==> !s.jobs[id].status.Running?)
      && (Overlooked(s, h, k.now) <==> MayRun(SyncedPlans(s, k.now), s.jobs[id]))
  {
    var h, t := s.campaign.hosts[i], Synced(s, k.now);
    assert HostOk(s, batch, h);
    assert OneOutstanding(s, h) && JobFor(h, s.jobs) == Some(s.jobs[id]);
    StartFindsNobodyInFlight(s, k);
    hide Inv, Starts, HostStateOf, PlanBinding, Synced, Gate.Reconciled, MayPass, ReconciledPlans;
    StopOnFailure.SyncedHosts(s, k.now);
    SyncedHostAt(s, k.now, i);
    assert t.campaign.hosts[i].state !in IN_FLIGHT;
    if h.remediationId.value in t.remediations {
      var r := t.remediations[h.remediationId.value];
      ShownInFlight(h.state, r, JobFor(h, s.jobs), PlanBinding(h, r).Allow?);
    }
  }

  lemma NobodyOverlookedMeans(s: State, batch: set<Id>, k: Circumstances, i: nat)
    requires Inv(s, batch) && Starts(s, k) && NobodyOverlooked(s, k.now)
    requires i < |s.campaign.hosts| && Attached(s.campaign.hosts[i])
    ensures !HasLive(SyncedPlans(s, k.now), s.jobs, s.campaign.hosts[i].remediationId.value)
  {
    hide Inv, Starts, Overlooked, SyncedPlans, MayPass;
    if id :| id in s.jobs && MayRun(SyncedPlans(s, k.now), s.jobs[id])
             && s.jobs[id].remediationId == s.campaign.hosts[i].remediationId {
      OutstandingIsOverlooked(s, batch, k, i, id);
    }
  }

  /** A plan that a start prepares a job for has no outstanding one. */
  lemma PreparedHasNothingOutstanding(s: State, batch: set<Id>, k: Circumstances, i: nat)
    requires Inv(s, batch) && Starts(s, k) && i < |s.campaign.hosts|
    requires s.campaign.hosts[i].hostId in PreparedBatch(s, k).jobsByHost
    ensures Attached(s.campaign.hosts[i]) && !HasOutstanding(s.jobs, s.campaign.hosts[i].remediationId.value)
  {
    assert OneOutstanding(s, s.campaign.hosts[i]) by {
      assert HostOk(s, batch, s.campaign.hosts[i]);
    }
    hide Inv, Starts, PreparedBatch, Unstarted, NotAhead;
    PreparedIsUnstarted(s, batch, k, i);
  }

  lemma StartKeepsInv(s: State, batch: set<Id>, k: Circumstances)
    requires Inv(s, batch) && Given(s, k) && Starts(s, k) && NobodyOverlooked(s, k.now)
    ensures Inv(AfterStart(s, k), PreparedBatch(s, k).jobsByHost.Keys)
  {
    hide Marked, PreparedBatch, HostOk, Still, KeysOk, Jobs.WellKeyed, DistinctHosts, PreparedSoFar, NobodyOverlooked;
    hide Harmless;
    var t, p := Marked(s, k.now), PreparedBatch(s, k);
    MarkedIsStill(s, batch, k);
    BatchPrepared(s, batch, k);
    forall i | 0 <= i < |t.campaign.hosts| ensures Harmless(t, p, t.campaign.hosts[i]) {
      LeftOutIsHarmless(s, batch, k, i);
    }
    StartedInv(t, p, k);
  }

  lemma LeftOutIsHarmless(s: State, batch: set<Id>, k: Circumstances, i: nat)
    requires Inv(s, batch) && Starts(s, k) && NobodyOverlooked(s, k.now) && i < |s.campaign.hosts|
    requires |Marked(s, k.now).campaign.hosts| == |s.campaign.hosts|
    ensures Harmless(Marked(s, k.now), PreparedBatch(s, k), Marked(s, k.now).campaign.hosts[i])
  {
    assert s.campaign.batchSize >= 1;
    hide Inv, Starts, Marked, PreparedBatch, NobodyOverlooked, HasLive, HasOutstanding, Synced, Still;
    MarkedIsStill(s, batch, k);
    StopOnFailure.SyncedHosts(s, k.now);
    if s.campaign.hosts[i].hostId in PreparedBatch(s, k).jobsByHost {
      PreparedHasNothingOutstanding(s, batch, k, i);
    } else if Attached(s.campaign.hosts[i]) {
      NobodyOverlookedMeans(s, batch, k, i);
    }
  }

  // ---------------------------------------------------------------- everything else

  /** Others bring nothing back that waited for a plan the gate cannot let through any more, as long as that
      plan goes forward. */
  lemma OtherKeepsDead(s: State, t: State, h: HostPlan)
    requires Evolves(s, t.remediations, t.jobs, t.keys) && OneOutstanding(s, h)
    requires Attached(h) && h.remediationId.value in AttachedPlans(s.campaign.hosts)
    requires !HasLive(s.remediations, s.jobs, h.remediationId.value)
    requires GoesForward(s, t.remediations, h)
    ensures !HasLive(t.remediations, t.jobs, h.remediationId.value)
  {
    hide AttachedPlans, KeysOk, MayPass, Forward, NotAhead, Passable;
    var plan := h.remediationId.value;
    forall id | id in t.jobs && t.jobs[id].remediationId == Some(plan) ensures !MayRun(t.remediations, t.jobs[id]) {
      if MayRun(t.remediations, t.jobs[id]) {
        assert id in s.jobs && JobEvolves(s.jobs[id], t.jobs[id]);
        assert Outstanding(s.jobs[id]) && s.jobs[id].remediationId == Some(plan) && !MayRun(s.remediations, s.jobs[id]);
        if Releasable(s.remediations, s.jobs[id]) {
          ReleasableMayPass(s.remediations, s.jobs[id]);
        } else {
          assert ReleasedByGate(s.remediations, s.jobs[id], t.jobs[id]);
          assert t.jobs[id].status.Scheduled? && plan in s.remediations;
          ForwardKeepsShut(s.remediations[plan], t.remediations[plan], s.jobs[id], t.jobs[id]);
        }
      }
    }
  }

  lemma ReleasableMayPass(plans: map<Id, P.Remediation>, job: Jobs.DurableJob)
    requires Releasable(plans, job)
    ensures MayPass(plans[job.remediationId.value], job)
  {
    hide MayPass;
    var r := plans[job.remediationId.value];
    var host :| ApprovalRuns.Handed(r, host, job, false);
    HandedMayPass(r, host, job, false);
  }

  /** The plan of a host with an outstanding job goes forward. */
  ghost predicate GoesForward(s: State, remediations: map<Id, P.Remediation>, h: HostPlan) {
    Attached(h) && h.remediationId.value in s.remediations && h.remediationId.value in remediations
    && HasOutstanding(s.jobs, h.remediationId.value) ==>
      Forward(s.remediations[h.remediationId.value], remediations[h.remediationId.value])
  }

  lemma OtherLeavesOne(s: State, t: State, h: HostPlan)
    requires Evolves(s, t.remediations, t.jobs, t.keys) && OneOutstanding(s, h)
    requires Attached(h) ==> h.remediationId.value in AttachedPlans(s.campaign.hosts)
    ensures OneOutstanding(t, h)
  {
    hide AttachedPlans, KeysOk, InFlight, Unstarted, Releasable;
    if Attached(h) {
      var plan := h.remediationId.value;
      forall id | id in t.jobs && Outstanding(t.jobs[id]) && t.jobs[id].remediationId == h.remediationId
        ensures id in s.jobs && Outstanding(s.jobs[id]) && s.jobs[id].remediationId == h.remediationId
        ensures t.jobs[id].approvedPlanVersion == s.jobs[id].approvedPlanVersion
      {
        assert id in s.jobs ==> JobEvolves(s.jobs[id], t.jobs[id]);
      }
      if plan in s.remediations {
        assert PlanEvolves(plan, s.remediations[plan], t.remediations[plan], s.jobs);
      }
    }
  }

  lemma OtherKeepsHostOk(s: State, batch: set<Id>, t: State, h: HostPlan)
    requires Evolves(s, t.remediations, t.jobs, t.keys) && HostOk(s, batch, h)
    requires Attached(h) ==> h.remediationId.value in AttachedPlans(s.campaign.hosts)
    requires h.hostId !in batch ==> GoesForward(s, t.remediations, h)
    ensures HostOk(t, batch, h)
  {
    hide AttachedPlans, KeysOk, MayPass, Releasable, GoesForward, OneOutstanding;
    OtherLeavesOne(s, t, h);
    if Present(h.jobId) {
      assert JobEvolves(s.jobs[h.jobId.value], t.jobs[h.jobId.value]);
    }
    if h.hostId !in batch && Attached(h) {
      OtherKeepsDead(s, t, h);
      if h.remediationId.value in s.remediations {
        assert PlanEvolves(
          h.remediationId.value, s.remediations[h.remediationId.value], t.remediations[h.remediationId.value], s.jobs);
        ActiveIsLive(s, h.remediationId.value);
      }
    }
  }

  lemma ActiveIsLive(s: State, plan: Id)
    ensures HasActive(s.jobs, plan) ==> HasLive(s.remediations, s.jobs, plan)
  {
    hide MayPass;
    if id :| id in s.jobs && Outstanding(s.jobs[id]) && Unspent(s.jobs[id]) && !s.jobs[id].status.Scheduled?
             && s.jobs[id].remediationId == Some(plan) {
      assert MayRun(s.remediations, s.jobs[id]);
    }
  }

  lemma OtherKeepsInv(s: State, batch: set<Id>, t: State)
    requires Inv(s, batch) && Evolves(s, t.remediations, t.jobs, t.keys) && t.campaign == s.campaign
    requires forall i :: 0 <= i < |s.campaign.hosts| && s.campaign.hosts[i].hostId !in batch ==>
      GoesForward(s, t.remediations, s.campaign.hosts[i])
    ensures Inv(t, batch)
  {
    hide HostOk, KeysOk, GoesForward, PlansEvolve, Releasable;
    forall i | 0 <= i < |s.campaign.hosts| ensures HostOk(t, batch, s.campaign.hosts[i]) {
      assert Attached(s.campaign.hosts[i]) ==>
        s.campaign.hosts[i].remediationId.value in AttachedPlans(s.campaign.hosts);
      OtherKeepsHostOk(s, batch, t, s.campaign.hosts[i]);
    }
    forall id | id in t.jobs ensures t.jobs[id].id == id {
      assert id in s.jobs ==> JobEvolves(s.jobs[id], t.jobs[id]);
    }
  }

  // ---------------------------------------------------------------- the rollout bound

  /** The step takes the plan of a host left out of the latest batch back, while a job of it is outstanding: a
      worker writes back a copy that a reconciliation has overtaken. */
  ghost predicate TurnsBack(w: World, step: Step) {
    step.Other? && exists i ::
      && 0 <= i < |w.s.campaign.hosts| && w.s.campaign.hosts[i].hostId !in Latest(w)
      && !GoesForward(w.s, step.remediations, w.s.campaign.hosts[i])
  }

  ghost predicate NeverTurnsBack(w: World, steps: seq<Step>)
    decreases |steps|
  {
    steps != [] ==> !TurnsBack(w, steps[0]) && NeverTurnsBack(Apply(w, steps[0]), steps[1..])
  }

  /** Every batch that starts would overlook nobody, and no plan of a host left out with an outstanding job is
      taken back. */
  ghost predicate Careful(w: World, steps: seq<Step>)
    decreases |steps|
  {
    steps != [] ==>
      && (steps[0].Start? && w.s.campaign.batchSize >= 1 && Given(w.s, steps[0].k) && Starts(w.s, steps[0].k) ==>
            NobodyOverlooked(w.s, steps[0].k.now))
      && !TurnsBack(w, steps[0])
      && Careful(Apply(w, steps[0]), steps[1..])
  }

  ghost function Run(w: World, steps: seq<Step>): World
    decreases |steps|
  {
    if steps == [] then w else Run(Apply(w, steps[0]), steps[1..])
  }

  lemma StepKeepsInv(w: World, step: Step)
    requires Inv(w.s, Latest(w))
    requires step.Start? && Given(w.s, step.k) && Starts(w.s, step.k) ==> NobodyOverlooked(w.s, step.k.now)
    requires !TurnsBack(w, step)
    ensures Inv(Apply(w, step).s, Latest(Apply(w, step)))
  {
    assert w.s.campaign.batchSize >= 1;
    hide Inv, Synced, AfterStart, CanceledCampaign, Stopped, Starts, Given, Evolves, PreparedBatch, NobodyOverlooked;
    hide GoesForward;
    match step
    case Sync(now) => SyncKeepsInv(w.s, Latest(w), now);
    case Start(k) =>
      if Given(w.s, k) && Starts(w.s, k) {
        StartKeepsInv(w.s, Latest(w), k);
      }
    case Cancel(actor, now) => CancelKeepsInv(w.s, Latest(w), actor, now);
    case Stop(failed, now) => StopKeepsInv(w.s, Latest(w), failed, now);
    case Overwrite(status) => SameForHosts(w.s, w.s.campaign.(status := status), Latest(w));
    case Other(remediations, jobs, keys) =>
      if Evolves(w.s, remediations, jobs, keys) {
        OtherKeepsInv(w.s, Latest(w), Apply(w, step).s);
      }
  }

  lemma {:induction false} RunKeepsInv(w: World, steps: seq<Step>)
    requires Inv(w.s, Latest(w)) && Careful(w, steps)
    ensures Inv(Run(w, steps).s, Latest(Run(w, steps)))
    decreases |steps|
  {
    hide Apply, Inv, Given, Starts, NobodyOverlooked, Latest, TurnsBack;
    if steps != [] {
      assert w.s.campaign.batchSize >= 1 by { SizedInv(w); }
      StepKeepsInv(w, steps[0]);
      RunKeepsInv(Apply(w, steps[0]), steps[1..]);
    }
  }

  lemma SizedInv(w: World)
    requires Inv(w.s, Latest(w))
    ensures w.s.campaign.batchSize >= 1
  {
  }

  lemma {:induction false} AtMostAsMany(items: seq<Id>, ids: set<Id>)
    requires forall id :: id in ids ==> id in items
    ensures |ids| <= |items|
  {
    if items == [] {
      assert ids == {};
    } else {
      var last := items[|items| - 1];
      assert items == items[..|items| - 1] + [last];
      AtMostAsMany(items[..|items| - 1], ids - {last});
      assert ids <= (ids - {last}) + {last};
      assert |ids| <= |ids - {last}| + 1 by {
        if last in ids {
          assert ids == (ids - {last}) + {last};
        } else {
          assert ids == ids - {last};
        }
      }
    }
  }

  /** A started batch stays within every limit of the campaign it was chosen from, and consists of its
      candidates. */
  ghost predicate BatchOk(b: Batch) {
    && WithinLimits(b.campaign, b.candidates, |b.hosts|)
    && b.hosts != {} && forall id :: id in b.hosts ==> id in HostIds(b.candidates)
  }

  lemma StartedBatchOk(s: State, k: Circumstances)
    requires s.campaign.batchSize >= 1 && Starts(s, k)
    ensures var t := Synced(s, k.now);
      BatchOk(Batch(PreparedBatch(s, k).jobsByHost.Keys, t.campaign, Candidates(t.campaign.hosts, t.remediations)))
  {
    hide Synced, Candidates, PrepareHosts, Marked, BatchOf;
    var t := Synced(s, k.now);
    var batch := BatchOf(t.campaign, t.remediations);
    MarkedHosts(s, k.now);
    BatchExactly(t.campaign, t.remediations);
    PreparesChosenOnly(Preparation(Marked(s, k.now), map[]), batch.hostIds, |t.campaign.hosts|, k);
    AtMostAsMany(batch.hostIds, PreparedBatch(s, k).jobsByHost.Keys);
  }

  lemma {:induction false} BatchesOk(w: World, steps: seq<Step>)
    requires forall i :: 0 <= i < |w.batches| ==> BatchOk(w.batches[i])
    ensures forall i :: 0 <= i < |Run(w, steps).batches| ==> BatchOk(Run(w, steps).batches[i])
    decreases |steps|
  {
    hide BatchOk, Synced, AfterStart, CanceledCampaign, Stopped, Starts, Given, Evolves, PreparedBatch;
    if steps != [] {
      if w.s.campaign.batchSize >= 1 && steps[0].Start? && Given(w.s, steps[0].k) && Starts(w.s, steps[0].k) {
        StartedBatchOk(w.s, steps[0].k);
      }
      BatchesOk(Apply(w, steps[0]), steps[1..]);
    }
  }

  /** Every scheduled, queued or running host belongs to the batch started last. */
  ghost predicate InLatestBatch(w: World) {
    forall i :: 0 <= i < |w.s.campaign.hosts| && w.s.campaign.hosts[i].state in IN_FLIGHT ==>
      w.s.campaign.hosts[i].hostId in Latest(w)
  }

  lemma InvMeansInLatestBatch(w: World)
    requires Inv(w.s, Latest(w))
    ensures InLatestBatch(w)
  {
    forall i | 0 <= i < |w.s.campaign.hosts| && w.s.campaign.hosts[i].state in IN_FLIGHT
      ensures w.s.campaign.hosts[i].hostId in Latest(w)
    {
      assert HostOk(w.s, Latest(w), w.s.campaign.hosts[i]);
    }
  }

  /** The rollout bound over whole runs. Whatever is synchronized, started, canceled, stopped, claimed,
      released, finished, approved or edited in between: as long as no start overlooks a host whose job may
      yet run, and no write-back takes the plan of a host left out of the latest batch back while a job of it is
      outstanding, every scheduled, queued or running host belongs to the batch started last, and every batch
      ever started stays within the limits of the campaign it was chosen from. */
  lemma RolloutBound(w: World, steps: seq<Step>)
    requires Inv(w.s, Latest(w)) && Careful(w, steps)
    requires forall i :: 0 <= i < |w.batches| ==> BatchOk(w.batches[i])
    ensures var end := Run(w, steps);
      InLatestBatch(end) && forall i :: 0 <= i < |end.batches| ==> BatchOk(end.batches[i])
  {
    hide Inv, BatchOk, Run, Careful, InLatestBatch;
    RunKeepsInv(w, steps);
    BatchesOk(w, steps);
    InvMeansInLatestBatch(Run(w, steps));
  }

  /** A campaign whose proposals are attached and whose plans nobody has started yet is in order. */
  lemma AttachedCampaignIsInOrder(s: State)
    requires s.campaign.batchSize >= 1 && DistinctHosts(s.campaign.hosts) && KeysOk(s.jobs, s.keys)
    requires Jobs.WellKeyed(s.jobs)
    requires forall i :: 0 <= i < |s.campaign.hosts| ==>
      var h := s.campaign.hosts[i];
      && h.state !in IN_FLIGHT && h.jobId.None?
      && (Attached(h) ==> !HasOutstanding(s.jobs, h.remediationId.value))
      && (Attached(h) && h.remediationId.value in s.remediations ==> !InFlight(s.remediations[h.remediationId.value]))
    ensures Inv(s, Latest(World(s, [])))
  {
  }

  // ---------------------------------------------------------------- cancellation is final

  lemma CanceledStateStays(s: State, now: Time)
    requires s.campaign.batchSize >= 1 && s.campaign.canceledAt.Some?
    ensures Synced(s, now).campaign.canceledAt.Some? && Closed(Synced(s, now).campaign)
  {
    StopOnFailure.SyncedHosts(s, now);
    CanceledStays(s.campaign.(hosts := Synced(s, now).campaign.hosts));
    hide Synced, HostsStatus;
  }

  lemma {:induction false} StopHostsKeepCancellation(s: State, n: nat, failed: Id, now: Time)
    requires n <= |s.campaign.hosts|
    ensures StopHosts(s, n, failed, now).campaign.canceledAt == s.campaign.canceledAt
  {
    if n > 0 {
      StopHostsKeepCancellation(s, n - 1, failed, now);
      StopHostKeepsCancellation(StopHosts(s, n - 1, failed, now), n - 1, failed, now);
      hide StopHost;
    }
  }

  lemma StopHostKeepsCancellation(s: State, i: nat, failed: Id, now: Time)
    requires i < |s.campaign.hosts|
    ensures StopHost(s, i, failed, now).campaign.canceledAt == s.campaign.canceledAt
  {
  }

  lemma CanceledStep(w: World, step: Step)
    requires w.s.campaign.canceledAt.Some?
    ensures Apply(w, step).s.campaign.canceledAt.Some? && Apply(w, step).batches == w.batches
  {
    hide Synced, BatchOf, StopHosts, CancelHosts, Evolves, Given, PreparedBatch, AnyRunning, Completed;
    if w.s.campaign.batchSize >= 1 {
      match step
      case Sync(now) => CanceledStateStays(w.s, now);
      case Start(k) =>
        CanceledStateStays(w.s, k.now);
        BatchExactly(Synced(w.s, k.now).campaign, Synced(w.s, k.now).remediations);
      case Cancel(actor, now) => CanceledStateStays(w.s, now);
      case Stop(failed, now) => StopHostsKeepCancellation(w.s, |w.s.campaign.hosts|, failed, now);
      case _ =>
    }
  }

  /** Once a campaign has been canceled no run starts another batch, whatever a late proposal step writes
      over its status. */
  lemma {:induction false} CanceledStartsNothing(w: World, steps: seq<Step>)
    requires w.s.campaign.canceledAt.Some?
    ensures Run(w, steps).batches == w.batches && Run(w, steps).s.campaign.canceledAt.Some?
    decreases |steps|
  {
    hide Apply;
    if steps != [] {
      CanceledStep(w, steps[0]);
      CanceledStartsNothing(Apply(w, steps[0]), steps[1..]);
    }
  }
}
