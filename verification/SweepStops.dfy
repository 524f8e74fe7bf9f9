/** The service sweep with the stops of campaigns inside its loop: one recovered job after the other, and between
    two turns the campaign of a plan that failed is stopped and synchronized. */
module SweepStops {
  import opened Common
  import opened Campaign
  import opened Rollout
  import opened ServiceSweep
  import P = Plans
  import Gate
  import Jobs
  import RolloutRuns
  import StopOnFailure

  predicate InCampaign(c: PatchCampaign, plan: Id) {
    exists i :: 0 <= i < |c.hosts| && c.hosts[i].remediationId == Some(plan)
  }

  /** One turn of the loop, for a remediation job that has attempts left. */
  function Turn(s: State, job: Jobs.DurableJob, now: Time): (t: State)
    requires s.campaign.batchSize >= 1
    ensures t.campaign.batchSize == s.campaign.batchSize
  {
    var saved := s.(remediations := PlansWith(s.remediations, job, false, now));
    if !MustFail(job, s.remediations.Keys) then saved
    else
      var failed := saved.(jobs := saved.jobs[job.id := FailedAfterSweep(job, now)]);
      if !InCampaign(s.campaign, job.remediationId.value) then failed
      else StopOnFailure.AfterStop(failed, job.remediationId.value, now, now)
  }

  function Turns(s: State, recovered: seq<Jobs.DurableJob>, now: Time): (t: State)
    requires s.campaign.batchSize >= 1
    ensures t.campaign.batchSize == s.campaign.batchSize
  {
    if recovered == [] then s else Turn(Turns(s, recovered[..|recovered| - 1], now), recovered[|recovered| - 1], now)
  }

  /** The loop over the recovered jobs, for one campaign. The swept jobs are those of `s`. */
  method RecoverJobs(s: State, recovered: seq<Jobs.DurableJob>, now: Time)
    returns (t: State, dispatchable: seq<Jobs.DurableJob>)
    requires s.campaign.batchSize >= 1
    ensures t == Turns(s, recovered, now)
    ensures dispatchable == Dispatchable(recovered, s.remediations.Keys)
  {
    hide Turn, MustFail, StopOnFailure.AfterStop;
    t, dispatchable := s, [];
    for i := 0 to |recovered|
      invariant t.campaign.batchSize >= 1 && t.remediations.Keys == s.remediations.Keys
      invariant t == Turns(s, recovered[..i], now)
      invariant dispatchable == Dispatchable(recovered[..i], s.remediations.Keys)
    {
      var job := recovered[i];
      assert recovered[..i + 1][..i] == recovered[..i] && recovered[..i + 1][i] == job;
      var dispatch;
      t, dispatch := RecoverJob(t, job, now);
      if !dispatch {
        continue;
      }
      dispatchable := dispatchable + [job];
    }
    assert recovered[..|recovered|] == recovered;
  }

  /** The body of the loop. */
  method RecoverJob(s: State, job: Jobs.DurableJob, now: Time) returns (t: State, dispatch: bool)
    requires s.campaign.batchSize >= 1
    ensures t == Turn(s, job, now) && dispatch == !MustFail(job, s.remediations.Keys)
    ensures t.remediations.Keys == s.remediations.Keys
  {
    var updated;
    updated, dispatch := RecoverPlan(s.remediations, job, false, now);
    t := s.(remediations := updated);
    if !dispatch {
      t := t.(jobs := t.jobs[job.id := FailedAfterSweep(job, now)]);
      var plan := job.remediationId.value;
      if exists i :: 0 <= i < |s.campaign.hosts| && s.campaign.hosts[i].remediationId == Some(plan) {
        ghost var failed := t;
        AfterStopKeeps(failed, plan, now);
        t := StopRemainingCampaignHosts(t, plan, now);
        t := Synced(t, now);
      }
    }
  }

  lemma AfterStopKeeps(s: State, plan: Id, now: Time)
    requires s.campaign.batchSize >= 1
    ensures StopOnFailure.AfterStop(s, plan, now, now).remediations.Keys == s.remediations.Keys
  {
    StopOnFailure.StopHostsDo(s, |s.campaign.hosts|, plan, now);
    StopOnFailure.SyncedHosts(Stopped(s, plan, now), now);
    hide Synced, StopHosts, StopOnFailure.HostStopped;
  }

  // ---------------------------------------------------------------- what every turn keeps

  /** Entries keep their plans and jobs, and plans their failure policies. */
  ghost predicate SameFrame(s: State, t: State) {
    && t.campaign.batchSize == s.campaign.batchSize && |t.campaign.hosts| == |s.campaign.hosts|
    && t.remediations.Keys == s.remediations.Keys
    && (forall i :: 0 <= i < |s.campaign.hosts| ==>
          && t.campaign.hosts[i].remediationId == s.campaign.hosts[i].remediationId
          && t.campaign.hosts[i].jobId == s.campaign.hosts[i].jobId)
    && (forall id :: id in s.remediations ==> t.remediations[id].failurePolicy == s.remediations[id].failurePolicy)
  }

  lemma StoppingKeepsFrame(s: State, plan: Id, now: Time)
    requires s.campaign.batchSize >= 1
    ensures SameFrame(s, Stopped(s, plan, now)) && StopOnFailure.MayStop(s, Stopped(s, plan, now))
  {
    hide StopHosts, StopOnFailure.HostStopped;
    var t := StopHosts(s, |s.campaign.hosts|, plan, now);
    StopOnFailure.StopHostsDo(s, |s.campaign.hosts|, plan, now);
    StopOnFailure.MayStopRefl(s);
    forall i | 0 <= i < |s.campaign.hosts| ensures StopOnFailure.SameEntry(s.campaign.hosts[i], t.campaign.hosts[i]) {
    }
    forall id | id in s.remediations ensures t.remediations[id].failurePolicy == s.remediations[id].failurePolicy {
      assert StopOnFailure.PlanMayStop(s.remediations[id], t.remediations[id]);
    }
  }

  lemma SyncKeepsFrame(s: State, now: Time)
    requires s.campaign.batchSize >= 1
    ensures SameFrame(s, Synced(s, now))
  {
    StopOnFailure.SyncedHosts(s, now);
    hide Synced, HostStateOf, PlanBinding;
  }

  lemma FrameThen(s: State, t: State, u: State)
    requires SameFrame(s, t) && SameFrame(t, u)
    ensures SameFrame(s, u)
  {
  }

  lemma TurnKeepsFrame(s: State, job: Jobs.DurableJob, now: Time)
    requires s.campaign.batchSize >= 1
    ensures SameFrame(s, Turn(s, job, now))
  {
    var saved := s.(remediations := PlansWith(s.remediations, job, false, now));
    assert SameFrame(s, saved);
    hide MustFail, Synced, Stopped, SameFrame, Gate.StaleRecovery;
    if MustFail(job, s.remediations.Keys) && InCampaign(s.campaign, job.remediationId.value) {
      var failed := saved.(jobs := saved.jobs[job.id := FailedAfterSweep(job, now)]);
      FrameIgnoresJobs(s, saved, failed);
      StoppingKeepsFrame(failed, job.remediationId.value, now);
      SyncKeepsFrame(Stopped(failed, job.remediationId.value, now), now);
      FrameThen(s, failed, Stopped(failed, job.remediationId.value, now));
      FrameThen(s, Stopped(failed, job.remediationId.value, now), Turn(s, job, now));
    } else {
      FrameIgnoresJobs(s, saved, Turn(s, job, now));
    }
  }

  lemma FrameIgnoresJobs(s: State, t: State, u: State)
    requires SameFrame(s, t) && u.campaign == t.campaign && u.remediations == t.remediations
    ensures SameFrame(s, u)
  {
  }

  lemma {:induction false} TurnsKeepFrame(s: State, recovered: seq<Jobs.DurableJob>, now: Time)
    requires s.campaign.batchSize >= 1
    ensures SameFrame(s, Turns(s, recovered, now))
  {
    hide Turn, SameFrame;
    if recovered == [] {
      FrameRefl(s);
    } else {
      var front, last := recovered[..|recovered| - 1], recovered[|recovered| - 1];
      TurnsKeepFrame(s, front, now);
      TurnKeepsFrame(Turns(s, front, now), last, now);
      FrameThen(s, Turns(s, front, now), Turns(s, recovered, now));
    }
  }

  lemma FrameRefl(s: State)
    ensures SameFrame(s, s)
  {
  }

  // ---------------------------------------------------------------- turns that reach the campaign

  /** The turn of this job fails it and synchronizes the campaign. */
  predicate Syncs(s: State, job: Jobs.DurableJob) {
    MustFail(job, s.remediations.Keys) && InCampaign(s.campaign, job.remediationId.value)
  }

  /** And stops the campaign before. */
  predicate Stops(s: State, job: Jobs.DurableJob) {
    Syncs(s, job) && s.remediations[job.remediationId.value].failurePolicy.stopRemainingHosts
  }

  lemma FrameKeepsTurns(s: State, t: State, job: Jobs.DurableJob)
    requires SameFrame(s, t)
    ensures Syncs(t, job) == Syncs(s, job) && Stops(t, job) == Stops(s, job)
  {
    hide MustFail;
    if MustFail(job, s.remediations.Keys) {
      MustFailMeans(job, s.remediations.Keys);
    }
    forall plan ensures InCampaign(t.campaign, plan) == InCampaign(s.campaign, plan) {
      if InCampaign(s.campaign, plan) {
        var i :| 0 <= i < |s.campaign.hosts| && s.campaign.hosts[i].remediationId == Some(plan);
        assert t.campaign.hosts[i].remediationId == Some(plan);
      }
    }
  }

  lemma MustFailMeans(job: Jobs.DurableJob, known: set<Id>)
    requires MustFail(job, known)
    ensures job.jobType.RemediationJob? && job.remediationId.Some? && job.remediationId.value in known
  {
  }

  // ---------------------------------------------------------------- one host through the loop

  /** Host `i` is shown in the given state, its job is the one given, and its plan is current and in the given
      execution state. */
  predicate Shows(t: State, i: nat, job: Jobs.DurableJob, shown: HostState, execution: P.ExecutionState) {
    && i < |t.campaign.hosts| && t.campaign.hosts[i].state == shown
    && Attached(t.campaign.hosts[i]) && t.campaign.hosts[i].remediationId == job.remediationId
    && Present(t.campaign.hosts[i].jobId) && t.campaign.hosts[i].jobId == Some(job.id)
    && job.id in t.jobs && t.jobs[job.id] == job && job.jobType.RemediationJob? && job.status.Queued?
    && job.remediationId.value in t.remediations
    && var r := t.remediations[job.remediationId.value];
       r.executionState == execution && !Gate.ContentChanged(r) && !Gate.BindingChanged(r)
  }

  /** Some other recovered job of another plan. */
  predicate Unrelated(job: Jobs.DurableJob, other: Jobs.DurableJob) {
    other.id != job.id && other.remediationId != job.remediationId
  }

  /** Saving what another job's turn says leaves the host alone. */
  lemma SavedAlone(t: State, i: nat, job: Jobs.DurableJob, other: Jobs.DurableJob, shown: HostState,
                   execution: P.ExecutionState, now: Time)
    requires Shows(t, i, job, shown, execution) && Unrelated(job, other)
    ensures var saved := t.(remediations := PlansWith(t.remediations, other, false, now));
      && Shows(saved, i, job, shown, execution)
      && Shows(saved.(jobs := saved.jobs[other.id := FailedAfterSweep(other, now)]), i, job, shown, execution)
  {
    hide Gate.StaleRecovery, FailedAfterSweep, Gate.ContentChanged, Gate.BindingChanged;
  }

  /** A stop passes over a host shown running. */
  lemma RunningSpared(t: State, i: nat, job: Jobs.DurableJob, execution: P.ExecutionState, plan: Id, now: Time)
    requires t.campaign.batchSize >= 1 && Shows(t, i, job, Running, execution) && StopOnFailure.OwnEntries(t)
    requires job.remediationId != Some(plan)
    ensures Shows(Stopped(t, plan, now), i, job, Running, execution)
  {
    if plan in t.remediations && t.remediations[plan].failurePolicy.stopRemainingHosts {
      hide StopHosts, StopOnFailure.OwnEntries, Gate.ContentChanged, Gate.BindingChanged, StopOnFailure.MayStop;
      StopOnFailure.SurvivorSpared(t, |t.campaign.hosts|, plan, now, i);
      StopOnFailure.StopHostsAt(t, plan, now, i);
    }
  }

  /** A synchronization shows a queued job's host by its plan. */
  lemma SyncShows(t: State, i: nat, job: Jobs.DurableJob, shown: HostState, execution: P.ExecutionState, now: Time)
    requires t.campaign.batchSize >= 1 && Shows(t, i, job, shown, execution)
    requires execution in {P.ExecRunning, P.ExecQueued}
    ensures Shows(Synced(t, now), i, job, if execution == P.ExecRunning then Running else Queued, execution)
  {
    hide Synced, PlanBinding, Gate.ContentChanged, Gate.BindingChanged;
    RolloutRuns.SyncedHostAt(t, now, i);
  }

  /** Another job's turn, for a host shown running: a synchronization shows it queued once its plan is. */
  lemma OtherTurnRunning(
    t: State, i: nat, job: Jobs.DurableJob, other: Jobs.DurableJob, execution: P.ExecutionState, now: Time)
    requires t.campaign.batchSize >= 1 && Shows(t, i, job, Running, execution) && StopOnFailure.OwnEntries(t)
    requires Unrelated(job, other) && execution in {P.ExecRunning, P.ExecQueued}
    ensures Shows(
      Turn(t, other, now), i, job, if Syncs(t, other) && execution == P.ExecQueued then Queued else Running, execution)
  {
    hide Shows, Synced, Stopped, MustFail, PlansWith, FailedAfterSweep, StopOnFailure.OwnEntries;
    SavedAlone(t, i, job, other, Running, execution, now);
    if Syncs(t, other) {
      MustFailMeans(other, t.remediations.Keys);
      var failed := t.(remediations := PlansWith(t.remediations, other, false, now),
                       jobs := t.jobs[other.id := FailedAfterSweep(other, now)]);
      SameEntriesOwn(t, failed);
      RunningSpared(failed, i, job, execution, other.remediationId.value, now);
      SyncShows(Stopped(failed, other.remediationId.value, now), i, job, Running, execution, now);
    }
  }

  lemma SameEntriesOwn(s: State, t: State)
    requires StopOnFailure.OwnEntries(s) && t.campaign == s.campaign
    ensures StopOnFailure.OwnEntries(t)
  {
  }

  /** The host's own turn puts its plan into the queue. */
  lemma OwnTurn(t: State, i: nat, job: Jobs.DurableJob, now: Time)
    requires t.campaign.batchSize >= 1 && Shows(t, i, job, Running, P.ExecRunning)
    requires !MustFail(job, t.remediations.Keys)
    ensures Shows(Turn(t, job, now), i, job, Running, P.ExecQueued)
  {
    assert P.PlanPayload(PlanAfter(t.remediations[job.remediationId.value], job, false, now))
        == P.PlanPayload(t.remediations[job.remediationId.value]);
  }

  // ---------------------------------------------------------------- the stop that cancels

  predicate JobCanceled(t: State, id: Id) {
    id in t.jobs && t.jobs[id].status.Canceled?
  }

  /** The host's job is canceled, or still waits under an entry a stop does not pass over. */
  predicate Reachable(t: State, i: nat, id: Id) {
    && i < |t.campaign.hosts| && t.campaign.hosts[i].jobId == Some(id) && Present(t.campaign.hosts[i].jobId)
    && id in t.jobs && (t.jobs[id].status.Queued? || t.jobs[id].status.Scheduled? || t.jobs[id].status.Canceled?)
  }

  lemma {:induction false} StopCancels(t: State, n: nat, plan: Id, now: Time, i: nat, id: Id)
    requires i < n <= |t.campaign.hosts| && Reachable(t, i, id) && !StopOnFailure.Exempt(t.campaign.hosts[i], plan)
    ensures JobCanceled(StopHosts(t, n, plan, now), id)
  {
    hide StopHost, StopOnFailure.HostStopped, StopOnFailure.Exempt;
    var u := StopHosts(t, n - 1, plan, now);
    StopOnFailure.StopHostsDo(t, n - 1, plan, now);
    StopOnFailure.StopHostDoes(u, n - 1, plan, now);
    var v := StopHost(u, n - 1, plan, now);
    assert StopOnFailure.JobMayStop(t.jobs[id], u.jobs[id]) && StopOnFailure.JobMayStop(u.jobs[id], v.jobs[id]);
    if i < n - 1 {
      StopCancels(t, n - 1, plan, now, i, id);
    } else {
      OneStopCancels(u, i, plan, now, id);
    }
  }

  lemma OneStopCancels(t: State, i: nat, plan: Id, now: Time, id: Id)
    requires Reachable(t, i, id) && !StopOnFailure.Exempt(t.campaign.hosts[i], plan)
    ensures JobCanceled(StopHost(t, i, plan, now), id)
  {
  }

  lemma CanceledStays(t: State, other: Jobs.DurableJob, now: Time, id: Id)
    requires t.campaign.batchSize >= 1 && JobCanceled(t, id) && other.id != id
    ensures JobCanceled(Turn(t, other, now), id)
  {
    hide Synced, Stopped, MustFail, PlansWith, FailedAfterSweep;
    if Syncs(t, other) {
      MustFailMeans(other, t.remediations.Keys);
      var failed := t.(remediations := PlansWith(t.remediations, other, false, now),
                       jobs := t.jobs[other.id := FailedAfterSweep(other, now)]);
      StoppingKeepsFrame(failed, other.remediationId.value, now);
      var stopped := Stopped(failed, other.remediationId.value, now);
      assert StopOnFailure.JobMayStop(failed.jobs[id], stopped.jobs[id]);
      StopOnFailure.SyncedHosts(stopped, now);
    }
  }

  /** The own turn of a job that is not failed touches no job. */
  lemma OwnTurnKeepsJobs(t: State, job: Jobs.DurableJob, now: Time)
    requires t.campaign.batchSize >= 1 && !MustFail(job, t.remediations.Keys)
    ensures Turn(t, job, now).jobs == t.jobs && Turn(t, job, now).campaign == t.campaign
  {
  }

  /** A turn that stops cancels the waiting job of every host it does not pass over. */
  lemma StoppingTurnCancels(t: State, i: nat, id: Id, other: Jobs.DurableJob, now: Time)
    requires t.campaign.batchSize >= 1 && Stops(t, other) && other.id != id && Reachable(t, i, id)
    requires !StopOnFailure.Exempt(t.campaign.hosts[i], other.remediationId.value)
    ensures JobCanceled(Turn(t, other, now), id)
  {
    hide Synced, StopHosts, MustFail, FailedAfterSweep, Gate.StaleRecovery;
    MustFailMeans(other, t.remediations.Keys);
    var plan := other.remediationId.value;
    var failed := t.(remediations := PlansWith(t.remediations, other, false, now),
                     jobs := t.jobs[other.id := FailedAfterSweep(other, now)]);
    assert failed.remediations[plan].failurePolicy == t.remediations[plan].failurePolicy;
    StopCancels(failed, |failed.campaign.hosts|, plan, now, i, id);
    StopOnFailure.SyncedHosts(Stopped(failed, plan, now), now);
  }

  /** Another job's turn, for a host shown queued. */
  lemma OtherTurnQueued(t: State, i: nat, job: Jobs.DurableJob, other: Jobs.DurableJob, now: Time)
    requires t.campaign.batchSize >= 1 && Shows(t, i, job, Queued, P.ExecQueued) && Unrelated(job, other)
    ensures if Stops(t, other) then Lost(Turn(t, other, now), i, job, P.ExecCanceled)
            else Shows(Turn(t, other, now), i, job, Queued, P.ExecQueued)
  {
    if Stops(t, other) {
      hide MustFail, Stops, Turn, Lost;
      RiskStoppingTurn(t, i, job, other, P.ExecQueued, now);
    } else {
      hide Shows, Synced, MustFail, FailedAfterSweep, Gate.StaleRecovery;
      SavedAlone(t, i, job, other, Queued, P.ExecQueued, now);
      if Syncs(t, other) {
        MustFailMeans(other, t.remediations.Keys);
        var failed := t.(remediations := PlansWith(t.remediations, other, false, now),
                         jobs := t.jobs[other.id := FailedAfterSweep(other, now)]);
        assert Stopped(failed, other.remediationId.value, now) == failed;
        SyncShows(failed, i, job, Queued, P.ExecQueued, now);
      }
    }
  }

  // ---------------------------------------------------------------- what is left of a canceled job's plan

  /** Host `i` is in the given execution state with a current plan, and a stop does not pass over it: its entry
      is neither over nor running, and its job waits or is canceled. */
  predicate AtRisk(t: State, i: nat, job: Jobs.DurableJob, execution: P.ExecutionState) {
    && i < |t.campaign.hosts| && t.campaign.hosts[i].state !in {Succeeded, Failed, NoAction, Running}
    && Attached(t.campaign.hosts[i]) && t.campaign.hosts[i].remediationId == job.remediationId
    && Present(t.campaign.hosts[i].jobId) && t.campaign.hosts[i].jobId == Some(job.id)
    && job.id in t.jobs && t.jobs[job.id].jobType.RemediationJob?
    && t.jobs[job.id].status in {Jobs.Queued, Jobs.Scheduled, Jobs.Canceled}
    && job.remediationId.value in t.remediations
    && var r := t.remediations[job.remediationId.value];
       r.executionState == execution && !Gate.ContentChanged(r) && !Gate.BindingChanged(r)
  }

  /** Its job is canceled, and it is shown so. */
  predicate Lost(t: State, i: nat, job: Jobs.DurableJob, execution: P.ExecutionState) {
    AtRisk(t, i, job, execution) && t.campaign.hosts[i].state == Canceled && t.jobs[job.id].status.Canceled?
  }

  /** What a stop makes of the plan's execution state. */
  function AfterStopping(execution: P.ExecutionState): P.ExecutionState {
    if execution in STARTABLE then P.ExecCanceled else execution
  }

  lemma RiskSaved(
    t: State, i: nat, job: Jobs.DurableJob, other: Jobs.DurableJob, execution: P.ExecutionState, now: Time)
    requires AtRisk(t, i, job, execution) && Unrelated(job, other)
    ensures var saved := t.(remediations := PlansWith(t.remediations, other, false, now));
      var failed := saved.(jobs := saved.jobs[other.id := FailedAfterSweep(other, now)]);
      && AtRisk(saved, i, job, execution) && AtRisk(failed, i, job, execution)
      && (Lost(t, i, job, execution) ==> Lost(saved, i, job, execution) && Lost(failed, i, job, execution))
  {
    hide Gate.StaleRecovery, FailedAfterSweep, Gate.ContentChanged, Gate.BindingChanged;
  }

  /** A stop cancels the job and a plan that had not begun to run. */
  lemma RiskStopped(t: State, i: nat, job: Jobs.DurableJob, execution: P.ExecutionState, plan: Id, now: Time)
    requires t.campaign.batchSize >= 1 && AtRisk(t, i, job, execution) && job.remediationId != Some(plan)
    requires plan in t.remediations && t.remediations[plan].failurePolicy.stopRemainingHosts
    ensures Lost(Stopped(t, plan, now), i, job, AfterStopping(execution))
  {
    hide StopHosts, Gate.ContentChanged, Gate.BindingChanged;
    var u, own := StopHosts(t, |t.campaign.hosts|, plan, now), job.remediationId.value;
    StopOnFailure.StopHostsAt(t, plan, now, i);
    StopCancels(t, |t.campaign.hosts|, plan, now, i, job.id);
    assert StopOnFailure.JobMayStop(t.jobs[job.id], u.jobs[job.id]);
    assert StopOnFailure.PlanMayStop(t.remediations[own], u.remediations[own]);
    StoppedPlanIsCurrent(t.remediations[own], u.remediations[own]);
  }

  lemma StoppedPlanIsCurrent(a: P.Remediation, b: P.Remediation)
    requires StopOnFailure.PlanMayStop(a, b) && !Gate.ContentChanged(a) && !Gate.BindingChanged(a)
    ensures !Gate.ContentChanged(b) && !Gate.BindingChanged(b)
    ensures b.executionState !in STARTABLE ==> b.executionState == AfterStopping(a.executionState)
  {
    assert P.PlanPayload(b) == P.PlanPayload(a);
  }

  /** A synchronization goes on showing it canceled. */
  lemma LostSynced(t: State, i: nat, job: Jobs.DurableJob, execution: P.ExecutionState, now: Time)
    requires t.campaign.batchSize >= 1 && Lost(t, i, job, execution)
    ensures Lost(Synced(t, now), i, job, execution)
  {
    hide Synced, PlanBinding, Gate.ContentChanged, Gate.BindingChanged;
    RolloutRuns.SyncedHostAt(t, now, i);
  }

  lemma LostIsAtRisk(t: State, i: nat, job: Jobs.DurableJob, execution: P.ExecutionState)
    requires Lost(t, i, job, execution)
    ensures AtRisk(t, i, job, execution) && JobCanceled(t, job.id)
  {
  }

  /** Another job's turn that stops the campaign. */
  lemma RiskStoppingTurn(
    t: State, i: nat, job: Jobs.DurableJob, other: Jobs.DurableJob, execution: P.ExecutionState, now: Time)
    requires t.campaign.batchSize >= 1 && AtRisk(t, i, job, execution) && Unrelated(job, other) && Stops(t, other)
    ensures Lost(Turn(t, other, now), i, job, AfterStopping(execution))
  {
    hide AtRisk, Lost, Synced, Stopped, MustFail, FailedAfterSweep, Gate.StaleRecovery, AfterStopping;
    MustFailMeans(other, t.remediations.Keys);
    var plan := other.remediationId.value;
    var failed := t.(remediations := PlansWith(t.remediations, other, false, now),
                     jobs := t.jobs[other.id := FailedAfterSweep(other, now)]);
    assert failed.remediations[plan].failurePolicy == t.remediations[plan].failurePolicy;
    RiskSaved(t, i, job, other, execution, now);
    RiskStopped(failed, i, job, execution, plan, now);
    LostSynced(Stopped(failed, plan, now), i, job, AfterStopping(execution), now);
  }

  /** Any other job's turn, once it is lost. */
  lemma LostTurn(
    t: State, i: nat, job: Jobs.DurableJob, other: Jobs.DurableJob, execution: P.ExecutionState, now: Time)
    requires t.campaign.batchSize >= 1 && Lost(t, i, job, execution) && Unrelated(job, other)
    ensures Lost(Turn(t, other, now), i, job, if Stops(t, other) then AfterStopping(execution) else execution)
  {
    hide AtRisk, Lost, Synced, MustFail, FailedAfterSweep, Gate.StaleRecovery, AfterStopping;
    LostIsAtRisk(t, i, job, execution);
    if Stops(t, other) {
      RiskStoppingTurn(t, i, job, other, execution, now);
    } else {
      RiskSaved(t, i, job, other, execution, now);
      if Syncs(t, other) {
        MustFailMeans(other, t.remediations.Keys);
        var failed := t.(remediations := PlansWith(t.remediations, other, false, now),
                         jobs := t.jobs[other.id := FailedAfterSweep(other, now)]);
        assert Stopped(failed, other.remediationId.value, now) == failed;
        LostSynced(failed, i, job, execution, now);
      }
    }
  }

  /** The host's own turn puts its plan into the queue, canceled job or not. */
  lemma RiskOwnTurn(t: State, i: nat, job: Jobs.DurableJob, execution: P.ExecutionState, now: Time)
    requires t.campaign.batchSize >= 1 && AtRisk(t, i, job, execution) && !MustFail(job, t.remediations.Keys)
    requires job.jobType.RemediationJob?
    ensures AtRisk(Turn(t, job, now), i, job, P.ExecQueued)
    ensures Lost(t, i, job, execution) ==> Lost(Turn(t, job, now), i, job, P.ExecQueued)
  {
    assert P.PlanPayload(PlanAfter(t.remediations[job.remediationId.value], job, false, now))
        == P.PlanPayload(t.remediations[job.remediationId.value]);
  }

  /** A turn that does not synchronize. */
  lemma RiskQuietTurn(
    t: State, i: nat, job: Jobs.DurableJob, other: Jobs.DurableJob, execution: P.ExecutionState, now: Time)
    requires t.campaign.batchSize >= 1 && AtRisk(t, i, job, execution) && Unrelated(job, other) && !Syncs(t, other)
    ensures AtRisk(Turn(t, other, now), i, job, execution)
  {
    hide AtRisk, Lost, MustFail, FailedAfterSweep, Gate.StaleRecovery;
    RiskSaved(t, i, job, other, execution, now);
  }

  // ---------------------------------------------------------------- when a job that is handed out is canceled

  /** Every recovered job but the `m`-th is of another plan. */
  ghost predicate OthersUnrelated(recovered: seq<Jobs.DurableJob>, m: nat)
    requires m < |recovered|
  {
    forall k :: 0 <= k < |recovered| && k != m ==> Unrelated(recovered[m], recovered[k])
  }

  /** Among the turns after the `m`-th and before the `n`-th, one synchronizes the campaign. */
  ghost predicate SyncedAfter(s: State, recovered: seq<Jobs.DurableJob>, m: nat, n: nat)
    requires n <= |recovered|
  {
    exists k :: m < k < n && Syncs(s, recovered[k])
  }

  /** And a later one of them stops it. */
  ghost predicate StoppedAfterSync(s: State, recovered: seq<Jobs.DurableJob>, m: nat, n: nat)
    requires n <= |recovered|
  {
    exists k :: m < k < n && Stops(s, recovered[k]) && SyncedAfter(s, recovered, m, k)
  }

  /** Where the host has got to before turn `n`. */
  ghost predicate Progress(s: State, t: State, recovered: seq<Jobs.DurableJob>, m: nat, n: nat, i: nat)
    requires m < |recovered| && n <= |recovered|
  {
    var job := recovered[m];
    if n <= m then Shows(t, i, job, Running, P.ExecRunning)
    else if StoppedAfterSync(s, recovered, m, n) then Lost(t, i, job, P.ExecCanceled)
    else if SyncedAfter(s, recovered, m, n) then Shows(t, i, job, Queued, P.ExecQueued)
    else Shows(t, i, job, Running, P.ExecQueued)
  }

  lemma AfterNext(s: State, recovered: seq<Jobs.DurableJob>, m: nat, n: nat)
    requires m < n < |recovered|
    ensures SyncedAfter(s, recovered, m, n + 1) <==> SyncedAfter(s, recovered, m, n) || Syncs(s, recovered[n])
    ensures StoppedAfterSync(s, recovered, m, n + 1) <==>
      StoppedAfterSync(s, recovered, m, n) || (Stops(s, recovered[n]) && SyncedAfter(s, recovered, m, n))
  {
    hide Syncs, Stops;
    assert SyncedAfter(s, recovered, m, n) ==> SyncedAfter(s, recovered, m, n + 1);
  }

  lemma ProgressNext(s: State, t: State, recovered: seq<Jobs.DurableJob>, m: nat, n: nat, i: nat, now: Time)
    requires m < |recovered| && n < |recovered| && t.campaign.batchSize >= 1 && SameFrame(s, t)
    requires OthersUnrelated(recovered, m) && !MustFail(recovered[m], s.remediations.Keys)
    requires StopOnFailure.OwnEntries(t) && Progress(s, t, recovered, m, n, i)
    ensures Progress(s, Turn(t, recovered[n], now), recovered, m, n + 1, i)
  {
    hide Shows, Turn, MustFail, SameFrame, Lost, Syncs, Stops, StopOnFailure.OwnEntries, Unrelated;
    var job, other := recovered[m], recovered[n];
    assert t.remediations.Keys == s.remediations.Keys by {
      FrameKeys(s, t);
    }
    FrameKeepsTurns(s, t, other);
    if n < m {
      OtherTurnRunning(t, i, job, other, P.ExecRunning, now);
    } else if n == m {
      OwnTurn(t, i, job, now);
    } else {
      AfterNext(s, recovered, m, n);
      StopsSyncs(s, other);
      if StoppedAfterSync(s, recovered, m, n) {
        LostTurn(t, i, job, other, P.ExecCanceled, now);
      } else if SyncedAfter(s, recovered, m, n) {
        OtherTurnQueued(t, i, job, other, now);
      } else {
        OtherTurnRunning(t, i, job, other, P.ExecQueued, now);
      }
    }
  }

  lemma FrameKeys(s: State, t: State)
    requires SameFrame(s, t)
    ensures t.remediations.Keys == s.remediations.Keys
    ensures StopOnFailure.OwnEntries(s) ==> StopOnFailure.OwnEntries(t)
  {
  }

  lemma StopsSyncs(s: State, job: Jobs.DurableJob)
    ensures Stops(s, job) ==> Syncs(s, job)
  {
  }

  lemma {:induction false} TurnsProgress(s: State, recovered: seq<Jobs.DurableJob>, m: nat, n: nat, i: nat, now: Time)
    requires m < |recovered| && n <= |recovered| && s.campaign.batchSize >= 1 && StopOnFailure.OwnEntries(s)
    requires OthersUnrelated(recovered, m) && !MustFail(recovered[m], s.remediations.Keys)
    requires Shows(s, i, recovered[m], Running, P.ExecRunning)
    ensures Progress(s, Turns(s, recovered[..n], now), recovered, m, n, i)
  {
    hide Shows, Turn, MustFail, Progress, SameFrame, StopOnFailure.OwnEntries, OthersUnrelated;
    if n == 0 {
      ProgressStarts(s, recovered, m, i);
    } else {
      TurnsProgress(s, recovered, m, n - 1, i, now);
      TurnsKeepFrame(s, recovered[..n - 1], now);
      var t := Turns(s, recovered[..n - 1], now);
      FrameKeys(s, t);
      ProgressNext(s, t, recovered, m, n - 1, i, now);
      assert recovered[..n][..n - 1] == recovered[..n - 1] && recovered[..n][n - 1] == recovered[n - 1];
    }
  }

  lemma ProgressStarts(s: State, recovered: seq<Jobs.DurableJob>, m: nat, i: nat)
    requires m < |recovered| && Shows(s, i, recovered[m], Running, P.ExecRunning)
    ensures Progress(s, s, recovered, m, 0, i)
  {
  }

  /** The job of a host shown running, its plan running too, is recovered and handed out. By the end of the sweep
      it is canceled if and only if two later turns fail: one that synchronizes the campaign, which shows the host
      queued, and after it one that stops it. Then its plan is canceled with it; otherwise job and plan are both
      queued. */
  lemma HandedOutJobCanceledExactly(s: State, recovered: seq<Jobs.DurableJob>, m: nat, i: nat, now: Time)
    requires m < |recovered| && s.campaign.batchSize >= 1 && StopOnFailure.OwnEntries(s)
    requires OthersUnrelated(recovered, m) && !MustFail(recovered[m], s.remediations.Keys)
    requires Shows(s, i, recovered[m], Running, P.ExecRunning)
    ensures recovered[m] in Dispatchable(recovered, s.remediations.Keys)
    ensures var end := Turns(s, recovered, now);
      && (JobCanceled(end, recovered[m].id) <==> StoppedAfterSync(s, recovered, m, |recovered|))
      && (!JobCanceled(end, recovered[m].id) ==>
           recovered[m].id in end.jobs && end.jobs[recovered[m].id] == recovered[m])
      && recovered[m].remediationId.Some? && recovered[m].remediationId.value in end.remediations
      && end.remediations[recovered[m].remediationId.value].executionState ==
           (if JobCanceled(end, recovered[m].id) then P.ExecCanceled else P.ExecQueued)
  {
    hide MustFail, Turns, OthersUnrelated, StopOnFailure.OwnEntries, StoppedAfterSync, SyncedAfter;
    DispatchableMeans(recovered, s.remediations.Keys);
    TurnsProgress(s, recovered, m, |recovered|, i, now);
    assert recovered[..|recovered|] == recovered;
  }

  /** The job of a host still shown waiting, because its claim was never synchronized, goes with the first stop,
      wherever in the sweep that comes, and is handed out all the same. */
  lemma WaitingHostLosesItsJob(s: State, recovered: seq<Jobs.DurableJob>, m: nat, k: nat, i: nat, now: Time)
    requires m < |recovered| && k < |recovered| && s.campaign.batchSize >= 1
    requires OthersUnrelated(recovered, m) && !MustFail(recovered[m], s.remediations.Keys)
    requires Reachable(s, i, recovered[m].id) && s.campaign.hosts[i].remediationId == recovered[m].remediationId
    requires s.campaign.hosts[i].state !in {Succeeded, Failed, NoAction, Running}
    requires Stops(s, recovered[k]) && forall j :: 0 <= j < k ==> !Syncs(s, recovered[j])
    ensures recovered[m] in Dispatchable(recovered, s.remediations.Keys)
    ensures JobCanceled(Turns(s, recovered, now), recovered[m].id)
  {
    hide MustFail, Turns, Turn, Syncs, Stops;
    DispatchableMeans(recovered, s.remediations.Keys);
    StopsSyncs(s, recovered[k]);
    SyncsMustFail(s, recovered[k]);
    MustFailMeans(recovered[k], s.remediations.Keys);
    QuietTurns(s, recovered, m, k, i, now);
    var t := Turns(s, recovered[..k], now);
    TurnsKeepFrame(s, recovered[..k], now);
    FrameKeepsTurns(s, t, recovered[k]);
    StoppingTurnCancels(t, i, recovered[m].id, recovered[k], now);
    NextTurns(s, recovered, k, now);
    CanceledToTheEnd(s, recovered, m, k + 1, |recovered|, now);
    assert recovered[..|recovered|] == recovered;
  }

  lemma SyncsMustFail(s: State, job: Jobs.DurableJob)
    requires Syncs(s, job)
    ensures MustFail(job, s.remediations.Keys)
  {
  }

  lemma NextTurns(s: State, recovered: seq<Jobs.DurableJob>, n: nat, now: Time)
    requires n < |recovered| && s.campaign.batchSize >= 1
    ensures Turns(s, recovered[..n + 1], now) == Turn(Turns(s, recovered[..n], now), recovered[n], now)
  {
    hide Turn;
    assert recovered[..n + 1][..n] == recovered[..n] && recovered[..n + 1][n] == recovered[n];
  }

  /** Turns that do not synchronize leave the campaign and other jobs alone. */
  lemma {:induction false} QuietTurns(s: State, recovered: seq<Jobs.DurableJob>, m: nat, n: nat, i: nat, now: Time)
    requires m < |recovered| && n <= |recovered| && s.campaign.batchSize >= 1
    requires OthersUnrelated(recovered, m) && !MustFail(recovered[m], s.remediations.Keys)
    requires recovered[m].id in s.jobs && forall j :: 0 <= j < n ==> !Syncs(s, recovered[j])
    ensures var t := Turns(s, recovered[..n], now);
      t.campaign == s.campaign && recovered[m].id in t.jobs && t.jobs[recovered[m].id] == s.jobs[recovered[m].id]
  {
    hide Turn, MustFail, Syncs;
    if n > 0 {
      QuietTurns(s, recovered, m, n - 1, i, now);
      NextTurns(s, recovered, n - 1, now);
      var t := Turns(s, recovered[..n - 1], now);
      TurnsKeepFrame(s, recovered[..n - 1], now);
      FrameKeys(s, t);
      FrameKeepsTurns(s, t, recovered[n - 1]);
      QuietTurn(t, recovered[n - 1], recovered[m], now);
    }
  }

  lemma QuietTurn(t: State, other: Jobs.DurableJob, job: Jobs.DurableJob, now: Time)
    requires t.campaign.batchSize >= 1 && !Syncs(t, other) && job.id in t.jobs
    requires other.id != job.id || !MustFail(other, t.remediations.Keys)
    ensures var u := Turn(t, other, now);
      u.campaign == t.campaign && job.id in u.jobs && u.jobs[job.id] == t.jobs[job.id]
  {
    hide MustFail, FailedAfterSweep;
  }

  lemma {:induction false} CanceledToTheEnd(
    s: State, recovered: seq<Jobs.DurableJob>, m: nat, n: nat, end: nat, now: Time)
    requires m < |recovered| && n <= end <= |recovered| && s.campaign.batchSize >= 1
    requires OthersUnrelated(recovered, m) && !MustFail(recovered[m], s.remediations.Keys)
    requires JobCanceled(Turns(s, recovered[..n], now), recovered[m].id)
    ensures JobCanceled(Turns(s, recovered[..end], now), recovered[m].id)
  {
    hide Turn, MustFail, Turns, JobCanceled;
    if n < end {
      CanceledToTheEnd(s, recovered, m, n, end - 1, now);
      NextTurns(s, recovered, end - 1, now);
      var t := Turns(s, recovered[..end - 1], now);
      TurnsKeepFrame(s, recovered[..end - 1], now);
      FrameKeys(s, t);
      if end - 1 == m {
        OwnTurnKeepsJobs(t, recovered[m], now);
        SameJobsCanceled(t, Turn(t, recovered[m], now), recovered[m].id);
      } else {
        CanceledStays(t, recovered[end - 1], now, recovered[m].id);
      }
    }
  }

  lemma SameJobsCanceled(t: State, u: State, id: Id)
    requires JobCanceled(t, id) && u.jobs == t.jobs
    ensures JobCanceled(u, id)
  {
  }

  // ---------------------------------------------------------------- and of the waiting host's plan

  /** Among the turns from the `from`-th and before the `n`-th, one stops the campaign. */
  ghost predicate StopsFrom(s: State, recovered: seq<Jobs.DurableJob>, from: nat, n: nat)
    requires n <= |recovered|
  {
    exists k :: from <= k < n && Stops(s, recovered[k])
  }

  /** What the turns before the `n`-th, the `m`-th among them, make of the plan. */
  ghost predicate PlanLeft(s: State, recovered: seq<Jobs.DurableJob>, m: nat, n: nat, execution: P.ExecutionState)
    requires n <= |recovered|
  {
    m < n ==> execution == if StopsFrom(s, recovered, m + 1, n) then P.ExecCanceled else P.ExecQueued
  }

  /** Where the waiting host has got to before turn `n`: at risk until the `k`-th turn, which is the first to
      synchronize and stops, and lost from then on. */
  ghost predicate Fate(s: State, t: State, recovered: seq<Jobs.DurableJob>, m: nat, k: nat, n: nat, i: nat)
    requires m < |recovered| && n <= |recovered|
  {
    exists execution ::
      && (if n <= k then AtRisk(t, i, recovered[m], execution) else Lost(t, i, recovered[m], execution))
      && PlanLeft(s, recovered, m, n, execution)
  }

  lemma PlanLeftNext(
    s: State, recovered: seq<Jobs.DurableJob>, m: nat, n: nat, before: P.ExecutionState, after: P.ExecutionState)
    requires n < |recovered| && n != m && PlanLeft(s, recovered, m, n, before)
    requires after == if Stops(s, recovered[n]) then AfterStopping(before) else before
    ensures PlanLeft(s, recovered, m, n + 1, after)
  {
    hide Stops;
    if m < n {
      assert StopsFrom(s, recovered, m + 1, n + 1) <==> StopsFrom(s, recovered, m + 1, n) || Stops(s, recovered[n]);
    }
  }

  lemma FateNext(
    s: State, t: State, recovered: seq<Jobs.DurableJob>, m: nat, k: nat, n: nat, i: nat, now: Time)
    requires m < |recovered| && k < |recovered| && n < |recovered| && t.campaign.batchSize >= 1 && SameFrame(s, t)
    requires OthersUnrelated(recovered, m) && !MustFail(recovered[m], s.remediations.Keys)
    requires recovered[m].jobType.RemediationJob?
    requires Stops(s, recovered[k]) && forall j :: 0 <= j < k ==> !Syncs(s, recovered[j])
    requires Fate(s, t, recovered, m, k, n, i)
    ensures Fate(s, Turn(t, recovered[n], now), recovered, m, k, n + 1, i)
  {
    hide AtRisk, Lost, Turn, MustFail, SameFrame, Syncs, Stops, Unrelated, AfterStopping, PlanLeft;
    var job, other := recovered[m], recovered[n];
    var before :| (if n <= k then AtRisk(t, i, job, before) else Lost(t, i, job, before))
                  && PlanLeft(s, recovered, m, n, before);
    FrameKeys(s, t);
    FrameKeepsTurns(s, t, other);
    StopsSyncs(s, recovered[k]);
    StopsSyncs(s, other);
    SyncsMustFail(s, recovered[k]);
    if n == m {
      if n > k {
        LostIsAtRisk(t, i, job, before);
      }
      RiskOwnTurn(t, i, job, before, now);
      QueuedByOwnTurn(s, recovered, m);
    } else {
      var after := if Stops(s, other) then AfterStopping(before) else before;
      PlanLeftNext(s, recovered, m, n, before, after);
      if n < k {
        RiskQuietTurn(t, i, job, other, before, now);
      } else if n == k {
        RiskStoppingTurn(t, i, job, other, before, now);
      } else {
        LostTurn(t, i, job, other, before, now);
      }
    }
  }

  lemma QueuedByOwnTurn(s: State, recovered: seq<Jobs.DurableJob>, m: nat)
    requires m < |recovered|
    ensures PlanLeft(s, recovered, m, m + 1, P.ExecQueued)
  {
  }

  lemma {:induction false} TurnsFate(
    s: State, recovered: seq<Jobs.DurableJob>, m: nat, k: nat, n: nat, i: nat, execution: P.ExecutionState, now: Time)
    requires m < |recovered| && k < |recovered| && n <= |recovered| && s.campaign.batchSize >= 1
    requires OthersUnrelated(recovered, m) && !MustFail(recovered[m], s.remediations.Keys)
    requires recovered[m].jobType.RemediationJob? && AtRisk(s, i, recovered[m], execution)
    requires Stops(s, recovered[k]) && forall j :: 0 <= j < k ==> !Syncs(s, recovered[j])
    ensures Fate(s, Turns(s, recovered[..n], now), recovered, m, k, n, i)
  {
    hide AtRisk, Lost, Turn, MustFail, SameFrame, Fate, OthersUnrelated, Syncs, Stops;
    if n == 0 {
      FateStarts(s, recovered, m, k, i, execution);
    } else {
      TurnsFate(s, recovered, m, k, n - 1, i, execution, now);
      TurnsKeepFrame(s, recovered[..n - 1], now);
      FateNext(s, Turns(s, recovered[..n - 1], now), recovered, m, k, n - 1, i, now);
      NextTurns(s, recovered, n - 1, now);
    }
  }

  lemma FateStarts(
    s: State, recovered: seq<Jobs.DurableJob>, m: nat, k: nat, i: nat, execution: P.ExecutionState)
    requires m < |recovered| && AtRisk(s, i, recovered[m], execution)
    ensures Fate(s, s, recovered, m, k, 0, i)
  {
    hide AtRisk, Lost;
    assert PlanLeft(s, recovered, m, 0, execution);
  }

  /** What is left of the plan of a host still shown waiting, its plan current. Its job goes with the first stop
      and is handed out all the same; the sweep ends with a queued plan over the canceled job if and only if no
      stop comes after the job's own turn, and with a canceled plan otherwise. */
  lemma WaitingHostsPlanExactly(
    s: State, recovered: seq<Jobs.DurableJob>, m: nat, k: nat, i: nat, execution: P.ExecutionState, now: Time)
    requires m < |recovered| && k < |recovered| && s.campaign.batchSize >= 1
    requires OthersUnrelated(recovered, m) && !MustFail(recovered[m], s.remediations.Keys)
    requires recovered[m].jobType.RemediationJob? && AtRisk(s, i, recovered[m], execution)
    requires Stops(s, recovered[k]) && forall j :: 0 <= j < k ==> !Syncs(s, recovered[j])
    ensures recovered[m] in Dispatchable(recovered, s.remediations.Keys)
    ensures var end, plan := Turns(s, recovered, now), recovered[m].remediationId;
      && JobCanceled(end, recovered[m].id) && plan.Some? && plan.value in end.remediations
      && (end.remediations[plan.value].executionState == P.ExecQueued <==>
           forall j :: m < j < |recovered| ==> !Stops(s, recovered[j]))
      && end.remediations[plan.value].executionState in {P.ExecQueued, P.ExecCanceled}
  {
    hide MustFail, Turns, OthersUnrelated, Syncs, Stops;
    DispatchableMeans(recovered, s.remediations.Keys);
    TurnsFate(s, recovered, m, k, |recovered|, i, execution, now);
    assert recovered[..|recovered|] == recovered;
  }
}
