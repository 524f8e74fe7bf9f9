/** Stop on failure: once a plan has failed and its policy stops the rest, which other hosts of the campaign
    could still start. */
module StopOnFailure {
  import opened Common
  import opened Campaign
  import opened Rollout
  import P = Plans
  import Gate
  import Jobs
  import Samples

  const STARTING := {Approved, Queued, Scheduled}

  // ---------------------------------------------------------------- settled campaigns

  ghost predicate HostSettled(s: State, h: HostPlan) {
    Attached(h) ==>
      if h.remediationId.value !in s.remediations then h.state == Failed
      else
        var r := s.remediations[h.remediationId.value];
        && h.state == ProjectedState(h, r, s.jobs)
        && !Gate.ContentChanged(r) && !Gate.BindingChanged(r)
  }

  /** The campaign shows what its plans and jobs say: a fixpoint of the projection. */
  ghost predicate Settled(s: State) {
    && s.campaign.batchSize >= 1
    && forall i :: 0 <= i < |s.campaign.hosts| ==> HostSettled(s, s.campaign.hosts[i])
  }

  lemma SyncedHosts(s: State, now: Time)
    requires s.campaign.batchSize >= 1
    ensures var t := Synced(s, now);
      && t.campaign.hosts == ProjectedHosts(s.campaign.hosts, t.remediations, s.jobs, now)
      && t.remediations == ReconciledPlans(s.remediations, AttachedPlans(s.campaign.hosts), now)
      && t.jobs == s.jobs && t.keys == s.keys && t.campaign.batchSize == s.campaign.batchSize
      && t.campaign.canceledAt == s.campaign.canceledAt && t.campaign.id == s.campaign.id
      && t.campaign.status == WithStatus(s.campaign.(hosts := t.campaign.hosts)).status
  {
    var remediations := ReconciledPlans(s.remediations, AttachedPlans(s.campaign.hosts), now);
    StatusKeeps(s.campaign.(hosts := ProjectedHosts(s.campaign.hosts, remediations, s.jobs, now)));
    hide WithStatus, ProjectedHosts, ReconciledPlans;
  }

  /** Every synchronization settles the campaign. */
  lemma SyncSettles(s: State, now: Time)
    requires s.campaign.batchSize >= 1
    ensures Settled(Synced(s, now))
  {
    var t := Synced(s, now);
    SyncedHosts(s, now);
    forall i | 0 <= i < |t.campaign.hosts| ensures HostSettled(t, t.campaign.hosts[i]) {
      var h := s.campaign.hosts[i];
      assert t.campaign.hosts[i] == ProjectedHost(h, t.remediations, s.jobs, now);
      if Attached(h) && h.remediationId.value in s.remediations {
        Gate.ReconcileSettles(s.remediations[h.remediationId.value], now, now);
        assert h.remediationId.value in AttachedPlans(s.campaign.hosts);
      }
    }
  }

  // ---------------------------------------------------------------- what stopping does

  predicate PlanMayStop(a: P.Remediation, b: P.Remediation) {
    b == a || (a.executionState in STARTABLE && b == a.(executionState := P.ExecCanceled, updatedAt := b.updatedAt))
  }

  predicate JobMayStop(a: Jobs.DurableJob, b: Jobs.DurableJob) {
    b == a || ((a.status.Queued? || a.status.Scheduled?) && b.status.Canceled?
               && b.id == a.id && b.jobType == a.jobType && b.remediationId == a.remediationId)
  }

  predicate SameEntry(a: HostPlan, b: HostPlan) {
    b == a.(state := b.state, failureSummary := b.failureSummary, updatedAt := b.updatedAt)
  }

  /** Stopping hosts cancels waiting jobs and unstarted plans and touches nothing else of them. */
  ghost predicate MayStop(s: State, t: State) {
    && t.campaign.batchSize == s.campaign.batchSize && t.keys == s.keys
    && t.remediations.Keys == s.remediations.Keys && t.jobs.Keys == s.jobs.Keys
    && (forall id :: id in s.remediations ==> PlanMayStop(s.remediations[id], t.remediations[id]))
    && (forall id :: id in s.jobs ==> JobMayStop(s.jobs[id], t.jobs[id]))
    && |t.campaign.hosts| == |s.campaign.hosts|
    && (forall i :: 0 <= i < |s.campaign.hosts| ==> SameEntry(s.campaign.hosts[i], t.campaign.hosts[i]))
  }

  predicate Exempt(h: HostPlan, failed: Id) {
    h.remediationId == Some(failed) || h.state in {Succeeded, Failed, NoAction, Running}
  }

  /** What stopping leaves of host `i`. */
  ghost predicate HostStopped(s: State, t: State, i: nat, failed: Id)
    requires i < |s.campaign.hosts| == |t.campaign.hosts|
  {
    var before, after := s.campaign.hosts[i], t.campaign.hosts[i];
    if Exempt(before, failed) then after == before
    else
      && after.state == (if JobRuns(s, before) then Running else Canceled)
      && (!JobRuns(s, before) && Attached(before) && before.remediationId.value in t.remediations ==>
           t.remediations[before.remediationId.value].executionState !in STARTABLE)
  }

  lemma MayStopRefl(s: State)
    ensures MayStop(s, s)
  {
  }

  lemma MayStopThen(s: State, t: State, u: State)
    requires MayStop(s, t) && MayStop(t, u)
    ensures MayStop(s, u)
  {
    forall i | 0 <= i < |s.campaign.hosts| ensures SameEntry(s.campaign.hosts[i], u.campaign.hosts[i]) {
      assert SameEntry(s.campaign.hosts[i], t.campaign.hosts[i]) && SameEntry(t.campaign.hosts[i], u.campaign.hosts[i]);
    }
    forall id | id in s.remediations ensures PlanMayStop(s.remediations[id], u.remediations[id]) {
      assert PlanMayStop(s.remediations[id], t.remediations[id]) && PlanMayStop(t.remediations[id], u.remediations[id]);
    }
    forall id | id in s.jobs ensures JobMayStop(s.jobs[id], u.jobs[id]) {
      assert JobMayStop(s.jobs[id], t.jobs[id]) && JobMayStop(t.jobs[id], u.jobs[id]);
    }
  }

  lemma CancelJobMayStop(s: State, h: HostPlan, now: Time, phase: string)
    ensures MayStop(s, CancelJobOf(s, h, now, phase))
    ensures CancelJobOf(s, h, now, phase).remediations == s.remediations
    ensures CancelJobOf(s, h, now, phase).campaign == s.campaign
    ensures JobRuns(CancelJobOf(s, h, now, phase), h) == JobRuns(s, h)
  {
    assert {Jobs.Queued, Jobs.Scheduled} == {Jobs.Scheduled, Jobs.Queued};
  }

  lemma CancelPlanMayStop(s: State, h: HostPlan, now: Time)
    ensures MayStop(s, CancelPlanOf(s, h, now))
    ensures CancelPlanOf(s, h, now).campaign == s.campaign && CancelPlanOf(s, h, now).jobs == s.jobs
    ensures Attached(h) && h.remediationId.value in s.remediations ==>
      CancelPlanOf(s, h, now).remediations[h.remediationId.value].executionState !in STARTABLE
  {
  }

  lemma WithHostMayStop(s: State, i: nat, h: HostPlan)
    requires i < |s.campaign.hosts| && SameEntry(s.campaign.hosts[i], h)
    ensures MayStop(s, WithHost(s, i, h))
  {
  }

  lemma StopHostDoes(s: State, i: nat, failed: Id, now: Time)
    requires i < |s.campaign.hosts|
    ensures MayStop(s, StopHost(s, i, failed, now)) && HostStopped(s, StopHost(s, i, failed, now), i, failed)
    ensures forall k :: 0 <= k < |s.campaign.hosts| && k != i ==>
      StopHost(s, i, failed, now).campaign.hosts[k] == s.campaign.hosts[k]
  {
    var h, phase := s.campaign.hosts[i], "canceled_after_campaign_failure";
    if !Exempt(h, failed) {
      var t := CancelJobOf(s, h, now, phase);
      var u := if JobRuns(t, h) then t else CancelPlanOf(t, h, now);
      CancelJobMayStop(s, h, now, phase);
      CancelPlanMayStop(t, h, now);
      hide CancelJobOf, CancelPlanOf, MayStop, JobRuns;
      var next := StopHost(s, i, failed, now).campaign.hosts[i];
      WithHostMayStop(u, i, next);
      if u != t {
        MayStopThen(s, t, u);
      }
      MayStopThen(s, u, WithHost(u, i, next));
    }
  }

  /** A job that runs, or runs no longer, is seen alike before and after stopping. */
  lemma StoppingKeepsRuns(s: State, t: State, h: HostPlan)
    requires MayStop(s, t)
    ensures JobRuns(t, h) == JobRuns(s, h)
    ensures IsRemediationJob(JobFor(h, t.jobs), Jobs.Running) == IsRemediationJob(JobFor(h, s.jobs), Jobs.Running)
    ensures IsRemediationJob(JobFor(h, s.jobs), Jobs.Canceled) ==> IsRemediationJob(JobFor(h, t.jobs), Jobs.Canceled)
  {
    if Present(h.jobId) && h.jobId.value in s.jobs {
      assert JobMayStop(s.jobs[h.jobId.value], t.jobs[h.jobId.value]);
    }
  }

  lemma StillStopped(s: State, t: State, u: State, i: nat, failed: Id)
    requires i < |s.campaign.hosts| == |t.campaign.hosts| == |u.campaign.hosts|
    requires HostStopped(s, t, i, failed) && MayStop(t, u) && u.campaign.hosts[i] == t.campaign.hosts[i]
    ensures HostStopped(s, u, i, failed)
  {
    var h := s.campaign.hosts[i];
    hide JobRuns;
    if Attached(h) && h.remediationId.value in t.remediations {
      assert PlanMayStop(t.remediations[h.remediationId.value], u.remediations[h.remediationId.value]);
    }
  }

  lemma NewlyStopped(s: State, t: State, u: State, i: nat, failed: Id)
    requires i < |s.campaign.hosts| == |t.campaign.hosts| == |u.campaign.hosts|
    requires MayStop(s, t) && s.campaign.hosts[i] == t.campaign.hosts[i] && HostStopped(t, u, i, failed)
    ensures HostStopped(s, u, i, failed)
  {
    StoppingKeepsRuns(s, t, s.campaign.hosts[i]);
    hide JobRuns, MayStop;
  }

  /** The first `n` hosts have been stopped and the others are as they were. */
  ghost predicate StoppedSoFar(s: State, t: State, n: nat, failed: Id)
    requires n <= |s.campaign.hosts|
  {
    && MayStop(s, t)
    && (forall i :: 0 <= i < n ==> HostStopped(s, t, i, failed))
    && (forall i :: n <= i < |s.campaign.hosts| ==> t.campaign.hosts[i] == s.campaign.hosts[i])
  }

  lemma StoppedSoFarNext(s: State, t: State, u: State, n: nat, failed: Id)
    requires n < |s.campaign.hosts| && StoppedSoFar(s, t, n, failed)
    requires MayStop(t, u) && HostStopped(t, u, n, failed)
    requires forall k :: 0 <= k < |t.campaign.hosts| && k != n ==> u.campaign.hosts[k] == t.campaign.hosts[k]
    ensures StoppedSoFar(s, u, n + 1, failed)
  {
    MayStopThen(s, t, u);
    forall i | 0 <= i < n + 1 ensures HostStopped(s, u, i, failed) {
      hide JobRuns, HostStopped;
      if i < n {
        StillStopped(s, t, u, i, failed);
      } else {
        NewlyStopped(s, t, u, i, failed);
      }
    }
    hide HostStopped;
  }

  lemma {:induction false} StopHostsDo(s: State, n: nat, failed: Id, now: Time)
    requires n <= |s.campaign.hosts|
    ensures StoppedSoFar(s, StopHosts(s, n, failed, now), n, failed)
  {
    hide StopHost, JobRuns, HostStopped;
    if n > 0 {
      var t := StopHosts(s, n - 1, failed, now);
      StopHostsDo(s, n - 1, failed, now);
      StopHostDoes(t, n - 1, failed, now);
      StoppedSoFarNext(s, t, StopHost(t, n - 1, failed, now), n - 1, failed);
    }
  }

  lemma StopHostsAt(s: State, failed: Id, now: Time, i: nat)
    requires i < |s.campaign.hosts|
    ensures var t := StopHosts(s, |s.campaign.hosts|, failed, now);
      && MayStop(s, t) && HostStopped(s, t, i, failed) && t.remediations.Keys == s.remediations.Keys
      && SameEntry(s.campaign.hosts[i], t.campaign.hosts[i])
  {
    hide StopHosts, HostStopped, PlanMayStop, JobMayStop, SameEntry;
    StopHostsDo(s, |s.campaign.hosts|, failed, now);
  }

  // ---------------------------------------------------------------- whom stopping passes over

  /** Stopping leaves the plan of such a host alone: its entry shows it over or running, or its job runs. */
  predicate PassedOver(s: State, h: HostPlan, failed: Id) {
    Exempt(h, failed) || JobRuns(s, h)
  }

  /** What plan and job of the host say, whatever its entry shows: it may start, or waits to. */
  predicate MayStart(s: State, h: HostPlan, later: Time) {
    && Attached(h) && h.remediationId.value in s.remediations
    && var r := Gate.Reconciled(s.remediations[h.remediationId.value], later);
       HostStateOf(Running, r, JobFor(h, s.jobs), PlanBinding(h, r).Allow?) in STARTING
  }

  predicate Survives(s: State, h: HostPlan, failed: Id, later: Time) {
    PassedOver(s, h, failed) && MayStart(s, h, later)
  }

  /** No two hosts share a plan or a job. */
  ghost predicate OwnEntries(s: State) {
    forall i, j :: 0 <= i < |s.campaign.hosts| && 0 <= j < |s.campaign.hosts| && i != j ==>
      && (Attached(s.campaign.hosts[i]) ==> s.campaign.hosts[i].remediationId != s.campaign.hosts[j].remediationId)
      && (Present(s.campaign.hosts[i].jobId) ==> s.campaign.hosts[i].jobId != s.campaign.hosts[j].jobId)
  }

  /** Reconciling touches the execution state of a plan only to block it, and does nothing to a plan
      whose content and approvals are in order. */
  lemma ReconcileBlocksOnly(r: P.Remediation, now: Time)
    ensures var next := Gate.Reconciled(r, now);
      && (next.executionState == r.executionState || next.executionState == P.ExecBlocked)
      && (r.executionState in {P.ExecRunning, P.ExecSucceeded, P.ExecFailed} ==>
          next.executionState == r.executionState)
      && (!Gate.ContentChanged(r) && !Gate.BindingChanged(r) ==> next == r)
  {
  }

  /** A plan whose execution state is neither waiting nor unstarted gives no startable host. */
  lemma EndedPlanCannotStart(current: HostState, r: P.Remediation, job: Option<Jobs.DurableJob>, bound: bool)
    requires r.executionState !in STARTABLE || IsRemediationJob(job, Jobs.Running) ||
      IsRemediationJob(job, Jobs.Canceled)
    ensures HostStateOf(current, r, job, bound) !in STARTING
  {
  }

  /** Whether a host may start does not depend on what its entry shows, sticky plan changes aside. */
  lemma EntryIrrelevant(current: HostState, r: P.Remediation, job: Option<Jobs.DurableJob>, bound: bool)
    requires current != PlanChanged
    ensures HostStateOf(current, r, job, bound) == HostStateOf(Running, r, job, bound)
  {
  }

  /** A job that is canceled gives no host a way to start that it did not have before. */
  lemma CanceledJobCannotHelp(
    r: P.Remediation, before: Option<Jobs.DurableJob>, after: Option<Jobs.DurableJob>, bound: bool)
    requires before == after || (before.Some? && after.Some? && JobMayStop(before.value, after.value))
    requires HostStateOf(Running, r, before, bound) !in STARTING
    ensures HostStateOf(Running, r, after, bound) !in STARTING
  {
  }

  // ---------------------------------------------------------------- the theorems

  /** The others are stopped, then the campaign is synchronized. */
  function AfterStop(s: State, failed: Id, now: Time, later: Time): State
    requires s.campaign.batchSize >= 1
  {
    Synced(Stopped(s, failed, now), later)
  }

  /** What the synchronization after the stop shows for host `i`. */
  lemma FinalState(s: State, failed: Id, now: Time, later: Time, i: nat)
    requires s.campaign.batchSize >= 1 && i < |s.campaign.hosts|
    requires failed in s.remediations && s.remediations[failed].failurePolicy.stopRemainingHosts
    ensures var t, u := StopHosts(s, |s.campaign.hosts|, failed, now), AfterStop(s, failed, now, later);
      && |u.campaign.hosts| == |s.campaign.hosts|
      && var h := t.campaign.hosts[i];
         u.campaign.hosts[i].state ==
           if !Attached(h) then h.state
           else if h.remediationId.value !in t.remediations then Failed
           else ProjectedState(h, Gate.Reconciled(t.remediations[h.remediationId.value], later), t.jobs)
  {
    var t, v := StopHosts(s, |s.campaign.hosts|, failed, now), Stopped(s, failed, now);
    var h := t.campaign.hosts[i];
    SyncedHosts(v, later);
    assert Attached(h) ==> h.remediationId.value in AttachedPlans(v.campaign.hosts) by {
      assert v.campaign.hosts[i] == h;
    }
    hide Synced, ProjectedState, Gate.Reconciled, AttachedPlans, StopHosts;
  }

  lemma JobForMayStop(s: State, t: State, h: HostPlan)
    requires MayStop(s, t)
    ensures var before, after := JobFor(h, s.jobs), JobFor(h, t.jobs);
      before == after || (before.Some? && after.Some? && JobMayStop(before.value, after.value))
  {
    if Present(h.jobId) && h.jobId.value in s.jobs {
      assert JobMayStop(s.jobs[h.jobId.value], t.jobs[h.jobId.value]);
    }
  }

  lemma PlanStopsAt(s: State, t: State, id: Id)
    requires MayStop(s, t) && id in s.remediations
    ensures id in t.remediations && PlanMayStop(s.remediations[id], t.remediations[id])
  {
  }

  /** A host that does not survive cannot start after the stop and the next synchronization. */
  lemma StoppedHostCannotStart(s: State, t: State, i: nat, failed: Id, later: Time)
    requires i < |s.campaign.hosts| == |t.campaign.hosts| && MayStop(s, t) && HostStopped(s, t, i, failed)
    requires s.campaign.hosts[i].remediationId != Some(failed) && !Survives(s, s.campaign.hosts[i], failed, later)
    requires Attached(s.campaign.hosts[i]) && s.campaign.hosts[i].remediationId.value in s.remediations
    requires SameEntry(s.campaign.hosts[i], t.campaign.hosts[i])
    ensures var h, id := t.campaign.hosts[i], s.campaign.hosts[i].remediationId.value;
      id in t.remediations && ProjectedState(h, Gate.Reconciled(t.remediations[id], later), t.jobs) !in STARTING
  {
    hide Gate.Reconciled, MayStop, HostStateOf, JobRuns, PlanBinding, JobFor;
    var before, h := s.campaign.hosts[i], t.campaign.hosts[i];
    var id := before.remediationId.value;
    PlanStopsAt(s, t, id);
    ReconcileBlocksOnly(t.remediations[id], later);
    var next := Gate.Reconciled(t.remediations[id], later);
    if PassedOver(s, before, failed) && t.remediations[id] == s.remediations[id] {
      JobForMayStop(s, t, before);
      SameBinding(before, h, next);
      SameJobFor(before, h, t.jobs);
      CanceledJobCannotHelp(next, JobFor(before, s.jobs), JobFor(before, t.jobs), PlanBinding(before, next).Allow?);
      EntryIrrelevant(h.state, next, JobFor(h, t.jobs), PlanBinding(h, next).Allow?);
    } else {
      EndedPlanCannotStart(h.state, next, JobFor(h, t.jobs), PlanBinding(h, next).Allow?);
    }
  }

  lemma SameBinding(a: HostPlan, b: HostPlan, r: P.Remediation)
    requires SameEntry(a, b)
    ensures PlanBinding(a, r) == PlanBinding(b, r)
  {
  }

  lemma SameJobFor(a: HostPlan, b: HostPlan, jobs: Jobs.Store)
    requires SameEntry(a, b)
    ensures JobFor(a, jobs) == JobFor(b, jobs)
  {
  }

  lemma UnattachedCannotStart(s: State, t: State, i: nat, failed: Id)
    requires i < |s.campaign.hosts| == |t.campaign.hosts| && s.campaign.hosts[i].remediationId != Some(failed)
    requires HostStopped(s, t, i, failed)
    ensures t.campaign.hosts[i].state !in STARTING
  {
  }

  lemma OtherHostCannotStart(s: State, failed: Id, now: Time, later: Time, i: nat)
    requires s.campaign.batchSize >= 1 && i < |s.campaign.hosts| && s.campaign.hosts[i].remediationId != Some(failed)
    requires failed in s.remediations && s.remediations[failed].failurePolicy.stopRemainingHosts
    requires !Survives(s, s.campaign.hosts[i], failed, later)
    ensures |AfterStop(s, failed, now, later).campaign.hosts| == |s.campaign.hosts|
    ensures AfterStop(s, failed, now, later).campaign.hosts[i].state !in STARTING
  {
    hide StopHosts, AfterStop, Gate.Reconciled, HostStateOf, JobRuns, MayStop, HostStopped, Survives;
    var t := StopHosts(s, |s.campaign.hosts|, failed, now);
    var before, h := s.campaign.hosts[i], t.campaign.hosts[i];
    StopHostsAt(s, failed, now, i);
    FinalState(s, failed, now, later, i);
    if Attached(before) && before.remediationId.value in s.remediations {
      StoppedHostCannotStart(s, t, i, failed, later);
    } else {
      UnattachedCannotStart(s, t, i, failed);
    }
  }

  // ---------------------------------------------------------------- survivors are left alone

  /** Stopping host `n` leaves a plan alone that is not its own, or that it is passed over with. */
  lemma StopKeepsPlan(s: State, n: nat, failed: Id, now: Time, id: Id)
    requires n < |s.campaign.hosts| && id in s.remediations
    requires s.campaign.hosts[n].remediationId == Some(id) ==> PassedOver(s, s.campaign.hosts[n], failed)
    ensures id in StopHost(s, n, failed, now).remediations
    ensures StopHost(s, n, failed, now).remediations[id] == s.remediations[id]
  {
    hide JobRuns, CancelJobOf;
    var h := s.campaign.hosts[n];
    CancelJobMayStop(s, h, now, "canceled_after_campaign_failure");
  }

  /** Stopping host `n` leaves a job alone that is not its own, or runs, or that it is exempt with. */
  lemma StopKeepsJob(s: State, n: nat, failed: Id, now: Time, id: Id)
    requires n < |s.campaign.hosts| && id in s.jobs
    requires s.campaign.hosts[n].jobId == Some(id) ==> Exempt(s.campaign.hosts[n], failed) || s.jobs[id].status.Running?
    ensures id in StopHost(s, n, failed, now).jobs
    ensures StopHost(s, n, failed, now).jobs[id] == s.jobs[id]
  {
    hide JobRuns;
    assert s.jobs[id].status.Running? ==> s.jobs[id].status !in {Jobs.Queued, Jobs.Scheduled};
  }

  lemma {:induction false} SurvivorSpared(s: State, n: nat, failed: Id, now: Time, i: nat)
    requires n <= |s.campaign.hosts| && i < |s.campaign.hosts| && OwnEntries(s)
    requires Attached(s.campaign.hosts[i]) && s.campaign.hosts[i].remediationId.value in s.remediations
    requires PassedOver(s, s.campaign.hosts[i], failed)
    ensures var t, h := StopHosts(s, n, failed, now), s.campaign.hosts[i];
      && h.remediationId.value in t.remediations
      && t.remediations[h.remediationId.value] == s.remediations[h.remediationId.value]
      && JobFor(h, t.jobs) == JobFor(h, s.jobs)
  {
    hide StopHost, MayStop, HostStopped, JobRuns;
    if n > 0 {
      var t, h := StopHosts(s, n - 1, failed, now), s.campaign.hosts[i];
      SurvivorSpared(s, n - 1, failed, now, i);
      StopHostsDo(s, n - 1, failed, now);
      StoppingKeepsRuns(s, t, h);
      assert t.campaign.hosts[n - 1] == s.campaign.hosts[n - 1];
      StopKeepsPlan(t, n - 1, failed, now, h.remediationId.value);
      SparedJob(s, t, n - 1, failed, now, i);
    }
  }

  lemma SparedJob(s: State, t: State, n: nat, failed: Id, now: Time, i: nat)
    requires n < |s.campaign.hosts| == |t.campaign.hosts| && i < |s.campaign.hosts| && OwnEntries(s) && MayStop(s, t)
    requires t.campaign.hosts[n] == s.campaign.hosts[n] && PassedOver(s, s.campaign.hosts[i], failed)
    requires JobFor(s.campaign.hosts[i], t.jobs) == JobFor(s.campaign.hosts[i], s.jobs)
    ensures JobFor(s.campaign.hosts[i], StopHost(t, n, failed, now).jobs) == JobFor(s.campaign.hosts[i], s.jobs)
  {
    hide StopHost;
    var h := s.campaign.hosts[i];
    StopHostDoes(t, n, failed, now);
    if Present(h.jobId) && h.jobId.value in t.jobs {
      StopKeepsJob(t, n, failed, now, h.jobId.value);
    }
  }

  lemma SurvivorStillStarts(s: State, failed: Id, now: Time, later: Time, i: nat)
    requires s.campaign.batchSize >= 1 && i < |s.campaign.hosts| && s.campaign.hosts[i].remediationId != Some(failed)
    requires failed in s.remediations && s.remediations[failed].failurePolicy.stopRemainingHosts
    requires OwnEntries(s) && Survives(s, s.campaign.hosts[i], failed, later)
    ensures |AfterStop(s, failed, now, later).campaign.hosts| == |s.campaign.hosts|
    ensures AfterStop(s, failed, now, later).campaign.hosts[i].state in STARTING
  {
    hide StopHosts, AfterStop, Gate.Reconciled, HostStateOf, JobRuns, MayStop, PlanBinding, JobFor, OwnEntries;
    var t := StopHosts(s, |s.campaign.hosts|, failed, now);
    var before, h := s.campaign.hosts[i], t.campaign.hosts[i];
    var next := Gate.Reconciled(s.remediations[before.remediationId.value], later);
    StopHostsAt(s, failed, now, i);
    FinalState(s, failed, now, later, i);
    SurvivorSpared(s, |s.campaign.hosts|, failed, now, i);
    SameBinding(before, h, next);
    SameJobFor(before, h, t.jobs);
    assert h.state in {Succeeded, Failed, NoAction, Running};
    EntryIrrelevant(h.state, next, JobFor(h, t.jobs), PlanBinding(h, next).Allow?);
  }

  lemma AfterStopHosts(s: State, failed: Id, now: Time, later: Time)
    requires s.campaign.batchSize >= 1
    ensures |AfterStop(s, failed, now, later).campaign.hosts| == |s.campaign.hosts|
  {
    SyncedHosts(Stopped(s, failed, now), later);
  }

  /** Stop on failure, for any campaign as the source finds it when a plan has failed, settled or not. After
      the stop and the next synchronization another host is approved, queued or scheduled if and only if
      the stop passed it over although its plan and job said that it may start. */
  lemma StoppingEmptiesTheRollout(s: State, failed: Id, now: Time, later: Time, i: nat)
    requires s.campaign.batchSize >= 1 && OwnEntries(s)
    requires failed in s.remediations && s.remediations[failed].failurePolicy.stopRemainingHosts
    requires i < |s.campaign.hosts| && s.campaign.hosts[i].remediationId != Some(failed)
    ensures |AfterStop(s, failed, now, later).campaign.hosts| == |s.campaign.hosts|
    ensures AfterStop(s, failed, now, later).campaign.hosts[i].state in STARTING
       <==> Survives(s, s.campaign.hosts[i], failed, later)
  {
    hide AfterStop, Survives, OwnEntries;
    AfterStopHosts(s, failed, now, later);
    if Survives(s, s.campaign.hosts[i], failed, later) {
      SurvivorStillStarts(s, failed, now, later, i);
    } else {
      OtherHostCannotStart(s, failed, now, later, i);
    }
  }

  /** And so the next batch takes nobody, provided nobody else survives and the failed plan itself ended
      failed or blocked. */
  lemma NobodyIsSelectedAfterStop(s: State, failed: Id, now: Time, later: Time)
    requires s.campaign.batchSize >= 1
    requires failed in s.remediations && s.remediations[failed].failurePolicy.stopRemainingHosts
    requires s.remediations[failed].executionState in {P.ExecFailed, P.ExecBlocked} && failed != ""
    requires forall i :: 0 <= i < |s.campaign.hosts| && s.campaign.hosts[i].remediationId != Some(failed) ==>
      !Survives(s, s.campaign.hosts[i], failed, later)
    ensures var end := AfterStop(s, failed, now, later);
      !BatchOf(end.campaign, end.remediations).decision.Allow? && BatchOf(end.campaign, end.remediations).hostIds == []
  {
    hide AfterStop, Survives;
    var end := AfterStop(s, failed, now, later);
    AfterStopHosts(s, failed, now, later);
    forall i | 0 <= i < |end.campaign.hosts| ensures end.campaign.hosts[i].state != Approved {
      if s.campaign.hosts[i].remediationId == Some(failed) {
        FailedHostNotApproved(s, failed, now, later, i);
      } else {
        OtherHostCannotStart(s, failed, now, later, i);
      }
    }
    CandidatesMeans(end.campaign.hosts, end.remediations);
    BatchExactly(end.campaign, end.remediations);
    if Candidates(end.campaign.hosts, end.remediations) != [] {
      var candidate := Candidates(end.campaign.hosts, end.remediations)[0];
      assert ComesFrom(candidate, end.campaign.hosts, end.remediations);
    }
  }

  lemma FailedHostNotApproved(s: State, failed: Id, now: Time, later: Time, i: nat)
    requires s.campaign.batchSize >= 1
    requires failed in s.remediations && s.remediations[failed].failurePolicy.stopRemainingHosts
    requires s.remediations[failed].executionState in {P.ExecFailed, P.ExecBlocked} && failed != ""
    requires i < |s.campaign.hosts| && s.campaign.hosts[i].remediationId == Some(failed)
    ensures |AfterStop(s, failed, now, later).campaign.hosts| == |s.campaign.hosts|
    ensures AfterStop(s, failed, now, later).campaign.hosts[i].state != Approved
  {
    hide StopHosts, AfterStop, Gate.Reconciled, HostStateOf, MayStop, JobRuns;
    var t := StopHosts(s, |s.campaign.hosts|, failed, now);
    StopHostsAt(s, failed, now, i);
    FinalState(s, failed, now, later, i);
    PlanStopsAt(s, t, failed);
    ReconcileBlocksOnly(t.remediations[failed], later);
    var h, r := t.campaign.hosts[i], Gate.Reconciled(t.remediations[failed], later);
    ApprovedExactly(h.state, r, JobFor(h, t.jobs), PlanBinding(h, r).Allow?);
  }

  // ---------------------------------------------------------------- who survives

  /** Among hosts whose entries show what their plans and jobs say, the only survivors are those that have a
      job running that is no remediation job: a scan for a new proposal. */
  lemma SettledSurvivorExactly(s: State, h: HostPlan, failed: Id, later: Time)
    requires HostSettled(s, h) && h.remediationId != Some(failed)
    ensures Survives(s, h, failed, later) <==>
      && Attached(h) && h.remediationId.value in s.remediations && h.state in STARTING
      && JobRuns(s, h) && !JobFor(h, s.jobs).value.jobType.RemediationJob?
  {
    hide Gate.Reconciled, PlanBinding;
    if Attached(h) && h.remediationId.value in s.remediations {
      ReconcileBlocksOnly(s.remediations[h.remediationId.value], later);
      if h.state != PlanChanged {
        EntryIrrelevant(h.state, s.remediations[h.remediationId.value], JobFor(h, s.jobs),
                        PlanBinding(h, s.remediations[h.remediationId.value]).Allow?);
      }
    }
  }

  /** A sibling whose retryable failure has just put its job and its plan back into the queue, while its entry
      still shows it running, is passed over and queued again. */
  lemma RequeuedSiblingSurvives(s: State, h: HostPlan, failed: Id, later: Time)
    requires h.remediationId != Some(failed) && Attached(h) && h.remediationId.value in s.remediations
    requires h.state == Running
    requires var r := s.remediations[h.remediationId.value];
      r.executionState == P.ExecQueued && !Gate.ContentChanged(r) && !Gate.BindingChanged(r)
    requires IsRemediationJob(JobFor(h, s.jobs), Jobs.Queued)
    ensures Survives(s, h, failed, later)
  {
    hide Gate.Reconciled, PlanBinding;
    ReconcileBlocksOnly(s.remediations[h.remediationId.value], later);
  }

  // ---------------------------------------------------------------- two concrete campaigns

  /** Host `a` has just failed; its entry still shows it running. Host `b` has the given entry, plan and job. */
  function SampleStop(b: HostPlan, planB: P.Remediation, jobB: Jobs.DurableJob): State {
    var planA := Samples.ApprovedPlan("plan-a", "a").(executionState := P.ExecFailed);
    var jobA := NewJob("job-a", "plan-a", planA, "campaign", true, 0).(status := Jobs.Failed, attempts := 1);
    State(
      PatchCampaign("campaign", [Samples.Entry(planA, Running, Some("job-a")), b], [], CampaignRunning, 2, 1, 1, None,
                    None, None, 0),
      map["plan-a" := planA, "plan-b" := planB], map["job-a" := jobA, "job-b" := jobB], map[])
  }

  /** Host `b` failed in a way worth retrying at the same time: its job and plan are queued again. */
  function RetriedSibling(): State {
    var planB := Samples.ApprovedPlan("plan-b", "b").(executionState := P.ExecQueued);
    SampleStop(Samples.Entry(planB, Running, Some("job-b")), planB,
               NewJob("job-b", "plan-b", planB, "campaign", true, 0).(attempts := 1))
  }

  /** Host `b` is approved, and its entry names the running scan of a new proposal. */
  function StraySibling(): State {
    var planB := Samples.ApprovedPlan("plan-b", "b");
    SampleStop(Samples.Entry(planB, Approved, Some("job-b")), planB,
               NewJob("job-b", "plan-b", planB, "campaign", true, 0).(jobType := Jobs.ScanJob, status := Jobs.Running))
  }

  lemma SamplePlansInOrder(id: Id, hostId: Id, state: P.ExecutionState)
    ensures var r := Samples.ApprovedPlan(id, hostId).(executionState := state);
      !Gate.ContentChanged(r) && !Gate.BindingChanged(r) && r.failurePolicy.stopRemainingHosts
      && r.planHash == P.HashOf(r) && r.approvalState == P.Approved && !P.RebootRisk(r)
      && r.id == id && r.hostId == hostId && r.executionState == state
  {
    Samples.ApprovedPlanIsAllowed(id, hostId, false);
    assert P.PlanPayload(Samples.ApprovedPlan(id, hostId))
      == P.PlanPayload(Samples.ApprovedPlan(id, hostId).(executionState := state));
  }

  lemma RetriedSiblingSurvives(now: Time, later: Time)
    ensures var s := RetriedSibling();
      && s.remediations["plan-a"].executionState == P.ExecFailed && !Settled(s)
      && |AfterStop(s, "plan-a", now, later).campaign.hosts| == 2
      && AfterStop(s, "plan-a", now, later).campaign.hosts[1].state in STARTING
  {
    hide AfterStop, HostStateOf, PlanBinding, Samples.ApprovedPlan;
    var s := RetriedSibling();
    SamplePlansInOrder("plan-a", "a", P.ExecFailed);
    SamplePlansInOrder("plan-b", "b", P.ExecQueued);
    FailedIsUnsettled(s, s.campaign.hosts[0]);
    RequeuedSiblingSurvives(s, s.campaign.hosts[1], "plan-a", later);
    hide Survives, RetriedSibling, Settled;
    assert OwnEntries(s);
    StoppingEmptiesTheRollout(s, "plan-a", now, later, 1);
  }

  /** A failed plan whose entry still shows it running is not settled. */
  lemma FailedIsUnsettled(s: State, h: HostPlan)
    requires Attached(h) && h.remediationId.value in s.remediations && h.state == Running && !JobRuns(s, h)
    requires s.remediations[h.remediationId.value].executionState == P.ExecFailed
    ensures !HostSettled(s, h)
  {
  }

  lemma StraySiblingSurvives(now: Time, later: Time)
    ensures var s := StraySibling();
      && s.remediations["plan-a"].executionState == P.ExecFailed && HostSettled(s, s.campaign.hosts[1])
      && |AfterStop(s, "plan-a", now, later).campaign.hosts| == 2
      && AfterStop(s, "plan-a", now, later).campaign.hosts[1].state in STARTING
  {
    hide AfterStop, Samples.ApprovedPlan;
    var s := StraySibling();
    SamplePlansInOrder("plan-a", "a", P.ExecFailed);
    SamplePlansInOrder("plan-b", "b", P.NotStarted);
    assert Samples.ApprovedPlan("plan-b", "b").(executionState := P.NotStarted)
      == Samples.ApprovedPlan("plan-b", "b") by {
      Samples.ApprovedPlanIsAllowed("plan-b", "b", false);
    }
    assert HostSettled(s, s.campaign.hosts[1]);
    SettledSurvivorExactly(s, s.campaign.hosts[1], "plan-a", later);
    hide Survives, StraySibling, HostSettled, HostStateOf, PlanBinding;
    assert OwnEntries(s);
    StoppingEmptiesTheRollout(s, "plan-a", now, later, 1);
  }
}
