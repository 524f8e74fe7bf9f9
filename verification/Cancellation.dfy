/** What canceling a campaign leaves behind: nothing that waits, and nothing that could still start. */
module Cancellation {
  import opened Common
  import opened Campaign
  import opened Rollout
  import opened StopOnFailure
  import Jobs
  import RolloutRuns

  /** Cancellation passes these hosts over. */
  predicate Over(h: HostPlan) {
    h.state in {Succeeded, Failed, NoAction}
  }

  predicate JobIn(s: State, h: HostPlan, among: set<Jobs.JobStatus>) {
    JobFor(h, s.jobs).Some? && JobFor(h, s.jobs).value.status in among
  }

  /** What cancellation leaves of host `i`: no waiting job; running if its job runs; as it was if its job
      had ended; otherwise canceled, and with it a plan that had not begun. */
  ghost predicate HostCanceled(s: State, t: State, i: nat)
    requires i < |s.campaign.hosts| == |t.campaign.hosts|
  {
    var before, after := s.campaign.hosts[i], t.campaign.hosts[i];
    if Over(before) then after == before
    else
      && !JobIn(t, before, {Jobs.Queued, Jobs.Scheduled})
      && (JobRuns(s, before) ==> after.state == Running)
      && (JobIn(s, before, {Jobs.Completed, Jobs.Failed}) ==> after.state == before.state)
      && (!JobIn(s, before, {Jobs.Running, Jobs.Completed, Jobs.Failed}) ==>
           && after.state == Canceled
           && (Attached(before) && before.remediationId.value in t.remediations ==>
                 t.remediations[before.remediationId.value].executionState !in STARTABLE))
  }

  lemma CancelHostLeaves(s: State, i: nat, now: Time)
    requires i < |s.campaign.hosts|
    ensures |CancelHost(s, i, now).campaign.hosts| == |s.campaign.hosts| && HostCanceled(s, CancelHost(s, i, now), i)
    ensures forall k :: 0 <= k < |s.campaign.hosts| && k != i ==>
      CancelHost(s, i, now).campaign.hosts[k] == s.campaign.hosts[k]
  {
    hide CancelJobOf, CancelPlanOf, MayStop, JobFor;
    var h := s.campaign.hosts[i];
    CancelJobLeaves(s, h, now);
    CancelPlanMayStop(CancelJobOf(s, h, now, "canceled"), h, now);
  }

  lemma CancelJobLeaves(s: State, h: HostPlan, now: Time)
    ensures var t := CancelJobOf(s, h, now, "canceled");
      && t.campaign == s.campaign && t.remediations == s.remediations
      && !JobIn(t, h, {Jobs.Queued, Jobs.Scheduled})
      && (JobRuns(t, h) <==> JobRuns(s, h))
      && (JobIn(t, h, {Jobs.Completed, Jobs.Failed}) <==> JobIn(s, h, {Jobs.Completed, Jobs.Failed}))
      && (JobIn(s, h, {Jobs.Running, Jobs.Completed, Jobs.Failed}) <==>
          JobRuns(s, h) || JobIn(s, h, {Jobs.Completed, Jobs.Failed}))
  {
  }

  lemma PlanStaysStopped(t: State, u: State, id: Id)
    requires MayStop(t, u) && id in t.remediations && t.remediations[id].executionState !in STARTABLE
    ensures id in u.remediations && u.remediations[id].executionState !in STARTABLE
  {
    assert PlanMayStop(t.remediations[id], u.remediations[id]);
  }

  lemma StillCanceled(s: State, t: State, u: State, i: nat)
    requires i < |s.campaign.hosts| == |t.campaign.hosts| == |u.campaign.hosts|
    requires HostCanceled(s, t, i) && MayStop(t, u) && u.campaign.hosts[i] == t.campaign.hosts[i]
    ensures HostCanceled(s, u, i)
  {
    hide PlanMayStop;
    var h := s.campaign.hosts[i];
    if Attached(h) && h.remediationId.value in t.remediations {
      if t.remediations[h.remediationId.value].executionState !in STARTABLE {
        PlanStaysStopped(t, u, h.remediationId.value);
      }
    }
    if Present(h.jobId) && h.jobId.value in t.jobs {
      assert JobMayStop(t.jobs[h.jobId.value], u.jobs[h.jobId.value]);
    }
  }

  lemma NewlyCanceled(s: State, t: State, u: State, i: nat)
    requires i < |s.campaign.hosts| == |t.campaign.hosts| == |u.campaign.hosts|
    requires MayStop(s, t) && s.campaign.hosts[i] == t.campaign.hosts[i] && HostCanceled(t, u, i)
    ensures HostCanceled(s, u, i)
  {
    var h := s.campaign.hosts[i];
    if Present(h.jobId) && h.jobId.value in s.jobs {
      assert JobMayStop(s.jobs[h.jobId.value], t.jobs[h.jobId.value]);
    }
  }

  ghost predicate CanceledSoFar(s: State, t: State, n: nat)
    requires n <= |s.campaign.hosts|
  {
    && MayStop(s, t)
    && (forall i :: 0 <= i < n ==> HostCanceled(s, t, i))
    && (forall i :: n <= i < |s.campaign.hosts| ==> t.campaign.hosts[i] == s.campaign.hosts[i])
  }

  lemma CanceledSoFarNext(s: State, t: State, u: State, n: nat)
    requires n < |s.campaign.hosts| && CanceledSoFar(s, t, n)
    requires MayStop(t, u) && HostCanceled(t, u, n)
    requires forall k :: 0 <= k < |t.campaign.hosts| && k != n ==> u.campaign.hosts[k] == t.campaign.hosts[k]
    ensures CanceledSoFar(s, u, n + 1)
  {
    hide HostCanceled;
    MayStopThen(s, t, u);
    forall i | 0 <= i < n + 1 ensures HostCanceled(s, u, i) {
      if i < n {
        StillCanceled(s, t, u, i);
      } else {
        NewlyCanceled(s, t, u, i);
      }
    }
  }

  /** Whether a running job is met does not depend on what has been canceled before. */
  predicate RunsOn(s: State, i: nat)
    requires i < |s.campaign.hosts|
  {
    !Over(s.campaign.hosts[i]) && JobRuns(s, s.campaign.hosts[i])
  }

  lemma {:induction false} CancelHostsDo(s: State, n: nat, now: Time)
    requires n <= |s.campaign.hosts|
    ensures CanceledSoFar(s, CancelHosts(s, n, now), n)
    ensures AnyRunning(s, n, now) <==> exists i :: 0 <= i < n && RunsOn(s, i)
  {
    hide CancelHost, CanceledSoFar, MeetsRunning, RunsOn;
    if n == 0 {
      NothingCanceledYet(s);
    } else {
      CancelHostsDo(s, n - 1, now);
      var t := CancelHosts(s, n - 1, now);
      RolloutRuns.CancelHostDoes(t, n - 1, now);
      CancelHostLeaves(t, n - 1, now);
      CanceledSoFarNext(s, t, CancelHost(t, n - 1, now), n - 1);
      MeetsAlike(s, t, n - 1, now);
    }
  }

  lemma NothingCanceledYet(s: State)
    ensures CanceledSoFar(s, s, 0)
  {
  }

  lemma MeetsAlike(s: State, t: State, i: nat, now: Time)
    requires i < |s.campaign.hosts| && CanceledSoFar(s, t, i) && |t.campaign.hosts| == |s.campaign.hosts|
    ensures MeetsRunning(t, i, now) <==> RunsOn(s, i)
  {
    var h := t.campaign.hosts[i];
    CancelJobMayStop(t, h, now, "canceled");
    StoppingKeepsRuns(s, t, h);
    hide MayStop, JobRuns, CancelJobOf;
  }

  /** Canceling an open campaign. No host it does not pass over keeps a waiting job; a host is left running
      exactly because its job runs, and otherwise canceled together with its unstarted plan unless its job
      had already ended. The campaign is cancelling exactly if such a running job was met, canceled
      otherwise, and from then on takes no further batch. */
  lemma CancellationLeavesNothingWaiting(s: State, actor: string, now: Time)
    requires s.campaign.batchSize >= 1 && !Completed(Synced(s, now).campaign)
    ensures var synced, t := Synced(s, now), CanceledCampaign(s, actor, now);
      && |t.campaign.hosts| == |synced.campaign.hosts|
      && (forall i :: 0 <= i < |synced.campaign.hosts| ==> HostCanceled(synced, t, i))
      && (t.campaign.status == CampaignCancelling <==>
          exists i :: 0 <= i < |synced.campaign.hosts| && RunsOn(synced, i))
      && (t.campaign.status == CampaignCancelling || t.campaign.status == CampaignCanceled)
      && t.campaign.canceledAt == Some(now)
      && !BatchOf(t.campaign, t.remediations).decision.Allow?
  {
    hide Synced, CancelHosts, AnyRunning, RunsOn, Completed, HostCanceled;
    var synced := Synced(s, now);
    CancelHostsDo(synced, |synced.campaign.hosts|, now);
    var u := CancelHosts(synced, |synced.campaign.hosts|, now);
    var t := CanceledCampaign(s, actor, now);
    BatchExactly(t.campaign, t.remediations);
    forall i | 0 <= i < |synced.campaign.hosts| ensures HostCanceled(synced, t, i) {
      SameHosts(synced, u, t, i);
    }
  }

  lemma SameHosts(s: State, t: State, u: State, i: nat)
    requires i < |s.campaign.hosts| == |t.campaign.hosts| && HostCanceled(s, t, i)
    requires u.campaign.hosts == t.campaign.hosts && u.jobs == t.jobs && u.remediations == t.remediations
    ensures HostCanceled(s, u, i)
  {
  }
}
