/** What the old copies workers write back can undo. Versions grow, old jobs stay refused and admissions rest
    on standing approvals exactly as long as nobody writes back a copy that a reconciliation has overtaken. */
module StalePlans {
  import opened Common
  import opened Plans
  import opened Gate
  import opened ApprovalRuns
  import opened WaitingJobs
  import Jobs
  import Rollout
  import Samples

  // ---------------------------------------------------------------- runs without stale writes

  ghost predicate BoundToVersion(r: Remediation) {
    r.approvalState == Approved ==>
      r.approvedPlanVersion == Some(r.planVersion) && r.approvedPlanHash == Some(r.planHash)
  }

  /** A copy that has been overtaken is of a retired version; any other is the stored plan's own version, and
      that plan is still approved by name under the same hash. */
  ghost predicate CopyCurrent(s: Review, worker: Id)
    requires worker in s.copies
  {
    var held := s.copies[worker];
    && Handed(held.plan, held.host, held.job, held.rollbackFailure) && held.plan.id == s.plan.id
    && if worker in s.overtaken then held.plan.planVersion <= s.retired
       else
         && held.plan.planVersion == s.plan.planVersion && held.plan.planHash == s.plan.planHash
         && s.plan.approvalState == Approved && Present(s.plan.approvedBy) && s.plan.approvedAt.Some?
  }

  ghost predicate Current(s: Review) {
    && s.plan.planVersion > s.retired
    && BoundToVersion(s.plan)
    && forall worker :: worker in s.copies ==> CopyCurrent(s, worker)
  }

  lemma StartCurrent(r: Remediation)
    requires BoundToVersion(r)
    ensures Current(Start(r))
  {
  }

  lemma SettleCurrent(s: Review, now: Time)
    requires Current(s)
    ensures Current(Settle(s, now))
    ensures Settle(s, now).plan.planVersion >= s.plan.planVersion && Settle(s, now).retired >= s.retired
    ensures ContentChanged(s.plan) ==> Settle(s, now).retired >= s.plan.planVersion
    ensures !BindingChanged(s.plan)
  {
    ReconcileSettles(s.plan, now, now);
    var t := Settle(s, now);
    hide Handed;
    forall worker | worker in t.copies ensures CopyCurrent(t, worker) {
      assert CopyCurrent(s, worker);
    }
    hide Reconciled;
  }

  /** A plan that changes under the same version, hash and approval leaves every copy as current as it was. */
  lemma SamePlanCurrent(s: Review, t: Review)
    requires Current(s) && t.overtaken == s.overtaken && t.retired == s.retired && BoundToVersion(t.plan)
    requires t.plan.planVersion == s.plan.planVersion && t.plan.planHash == s.plan.planHash
    requires t.plan.id == s.plan.id && (s.plan.approvalState == Approved ==>
      t.plan.approvalState == Approved && t.plan.approvedBy == s.plan.approvedBy &&
        t.plan.approvedAt == s.plan.approvedAt)
    requires forall worker :: worker in t.copies ==> worker in s.copies && t.copies[worker] == s.copies[worker]
    ensures Current(t)
  {
    hide Handed;
    forall worker | worker in t.copies ensures CopyCurrent(t, worker) {
      assert CopyCurrent(s, worker);
    }
  }

  lemma AdmitCurrent(s: Review, worker: Id, host: Host, job: Jobs.DurableJob, rollbackFailure: bool, now: Time)
    requires Current(s)
    ensures Current(Apply(s, Admit(worker, host, job, rollbackFailure, now)))
  {
    var t := Apply(s, Admit(worker, host, job, rollbackFailure, now));
    if Handed(s.plan, host, job, rollbackFailure) {
      EligibilityExactly(s.plan, host, job, rollbackFailure);
      ApprovalExactly(s.plan, host);
      hide Handed, ExecutionEligibility, ApprovalDecision;
      forall w | w in t.copies ensures CopyCurrent(t, w) {
        if w != worker {
          assert CopyCurrent(s, w);
        }
      }
    } else {
      SettleCurrent(s, now);
      var u := Settle(s, now);
      hide Settle, Handed;
      forall w | w in t.copies ensures CopyCurrent(t, w) {
        assert CopyCurrent(u, w);
      }
    }
  }

  lemma WriteBackCurrent(s: Review, worker: Id, state: ExecutionState, result: Option<ResultSummary>, now: Time)
    requires Current(s) && worker in s.copies && worker !in s.overtaken
    ensures var t := Apply(s, WriteBack(worker, state, result, now));
      Current(t) && t.plan.planVersion == s.plan.planVersion && t.plan.planHash == s.plan.planHash &&
        t.plan.approvalState == Approved
  {
    var held := s.copies[worker];
    var t := Apply(s, WriteBack(worker, state, result, now));
    assert CopyCurrent(s, worker);
    MarkedKeeps(held.plan, state, result, now, [], held.host, held.job, held.rollbackFailure);
    EligibilityExactly(held.plan, held.host, held.job, held.rollbackFailure);
    ApprovalExactly(held.plan, held.host);
    assert held.plan.approvalState == Approved;
    hide Handed, ExecutionEligibility, ApprovalDecision;
    forall w | w in t.copies ensures CopyCurrent(t, w) {
      assert CopyCurrent(s, w);
    }
  }

  /** A step that is no stale write keeps the run current and takes neither version back. */
  lemma StepCurrent(s: Review, step: Step)
    requires Current(s) && !StaleWrite(s, step)
    ensures Current(Apply(s, step))
    ensures Apply(s, step).plan.planVersion >= s.plan.planVersion && Apply(s, step).retired >= s.retired
  {
    hide Current, Settle, Handed, PlanApprovalDecision, RebootApprovalDecision, ExecutionEligibility;
    match step
    case Edit(content) => EditCurrent(s, content);
    case Reconcile(now) => SettleCurrent(s, now);
    case ApprovePlanBy(host, request, actor, now) =>
      SettleCurrent(s, now);
      ApproveCurrent(Settle(s, now), host, request, actor, now);
    case ApproveRebootBy(host, request, actor, now) =>
      SettleCurrent(s, now);
      RebootCurrent(Settle(s, now), host, request, actor, now);
    case RejectBy(now) => RejectCurrent(s, now);
    case Admit(worker, host, job, rollbackFailure, now) =>
      SettleCurrent(s, now);
      AdmitCurrent(s, worker, host, job, rollbackFailure, now);
    case Launch(worker) => LaunchCurrent(s, worker);
    case WriteBack(worker, state, result, now) =>
      if worker in s.copies {
        WriteBackCurrent(s, worker, state, result, now);
      }
  }

  lemma EditCurrent(s: Review, content: Remediation)
    requires Current(s)
    ensures Current(Apply(s, Edit(content)))
  {
    SamePlanCurrent(s, Apply(s, Edit(content)));
  }

  lemma LaunchCurrent(s: Review, worker: Id)
    requires Current(s)
    ensures Current(Apply(s, Launch(worker)))
  {
    hide ExecutionEligibility, CopyCurrent;
    SamePlanCurrent(s, Apply(s, Launch(worker)));
  }

  /** A plan that waits for approval leaves no worker with a current copy. */
  lemma PendingMeansOvertaken(s: Review, worker: Id)
    requires Current(s) && s.plan.approvalState != Approved && worker in s.copies
    ensures worker in s.overtaken
  {
    assert CopyCurrent(s, worker);
  }

  lemma ApproveCurrent(s: Review, host: Host, request: ApprovalRequest, actor: string, now: Time)
    requires Current(s)
    ensures PlanApprovalDecision(s.plan, host, request).Allow? ==>
      Current(s.(plan := WithPlanApproval(s.plan, actor, now),
                 ledger := s.ledger + [PlanApproval(actor, request.hostname, host.name, PlanPayload(s.plan))]))
  {
    if PlanApprovalDecision(s.plan, host, request).Allow? {
      assert s.plan.approvalState == Pending;
      SamePlanCurrent(s, s.(plan := WithPlanApproval(s.plan, actor, now),
                            ledger := s.ledger +
                              [PlanApproval(actor, request.hostname, host.name, PlanPayload(s.plan))]));
    }
  }

  lemma RebootCurrent(s: Review, host: Host, request: ApprovalRequest, actor: string, now: Time)
    requires Current(s)
    ensures forall ledger ::
              Current(s.(plan := AfterRebootRequest(s.plan, host, request, actor, now), ledger := ledger))
  {
    forall ledger ensures Current(s.(plan := AfterRebootRequest(s.plan, host, request, actor, now), ledger := ledger)) {
      SamePlanCurrent(s, s.(plan := AfterRebootRequest(s.plan, host, request, actor, now), ledger := ledger));
    }
  }

  lemma RejectCurrent(s: Review, now: Time)
    requires Current(s)
    ensures Current(Apply(s, RejectBy(now)))
  {
    SamePlanCurrent(s, Apply(s, RejectBy(now)));
  }

  // ---------------------------------------------------------------- a stale write

  /** A stale write takes the version back to a retired one, and makes the writer's own job eligible again. */
  lemma StaleWriteUndoes(s: Review, step: Step)
    requires Current(s) && StaleWrite(s, step)
    ensures var t, held := Apply(s, step), s.copies[step.worker];
      && t.plan.planVersion <= s.retired < s.plan.planVersion && t.retired == s.retired
      && held.job.approvedPlanVersion == Some(t.plan.planVersion)
      && ExecutionEligibility(t.plan, held.host, Some(held.job), held.rollbackFailure).Allow?
      && !ContentChanged(t.plan) && !BindingChanged(t.plan)
  {
    var held := s.copies[step.worker];
    assert CopyCurrent(s, step.worker);
    MarkedKeeps(held.plan, step.state, step.result, step.now, [], held.host, held.job, held.rollbackFailure);
    EligibilityExactly(held.plan, held.host, held.job, held.rollbackFailure);
    hide ExecutionEligibility;
  }

  /** At every point of the run the version is at least what it was a step before. */
  predicate VersionsGrow(s: Review, steps: seq<Step>)
    decreases |steps|
  {
    steps != [] ==>
      Apply(s, steps[0]).plan.planVersion >= s.plan.planVersion && VersionsGrow(Apply(s, steps[0]), steps[1..])
  }

  /** No job bound to a version that a reconciliation has left behind is eligible. */
  ghost predicate RetiredRefused(s: Review) {
    forall host: Host, job: Jobs.DurableJob, rollbackFailure: bool ::
      job.approvedPlanVersion.Some? && job.approvedPlanVersion.value <= s.retired
      ==> !ExecutionEligibility(s.plan, host, Some(job), rollbackFailure).Allow?
  }

  /** That holds at every point of the run. */
  ghost predicate RetiredStayRefused(s: Review, steps: seq<Step>)
    decreases |steps|
  {
    RetiredRefused(s) && (steps != [] ==> RetiredStayRefused(Apply(s, steps[0]), steps[1..]))
  }

  lemma CurrentRefusesRetired(s: Review)
    requires Current(s)
    ensures RetiredRefused(s)
  {
    forall host: Host, job: Jobs.DurableJob, rollbackFailure: bool |
      job.approvedPlanVersion.Some? && job.approvedPlanVersion.value <= s.retired
      ensures !ExecutionEligibility(s.plan, host, Some(job), rollbackFailure).Allow?
    {
      EligibilityExactly(s.plan, host, job, rollbackFailure);
      hide ExecutionEligibility, Current;
    }
  }

  // ---------------------------------------------------------------- the exact conditions

  /** Versions never go down in a run exactly if no worker in it writes back an overtaken copy. */
  lemma {:induction false} VersionsGrowExactly(s: Review, steps: seq<Step>)
    requires Current(s)
    ensures VersionsGrow(s, steps) <==> NoStaleWrite(s, steps)
    decreases |steps|
  {
    hide Current, Apply, StaleWrite;
    if steps != [] {
      if StaleWrite(s, steps[0]) {
        StaleWriteUndoes(s, steps[0]);
      } else {
        StepCurrent(s, steps[0]);
        VersionsGrowExactly(Apply(s, steps[0]), steps[1..]);
      }
    }
  }

  /** Jobs bound to a version that a reconciliation has left behind stay refused throughout a run, even if
      the approved text comes back and is approved anew, exactly if no worker in it writes back an
      overtaken copy. */
  lemma {:induction false} OldJobsStayDeadExactly(s: Review, steps: seq<Step>)
    requires Current(s)
    ensures RetiredStayRefused(s, steps) <==> NoStaleWrite(s, steps)
    decreases |steps|
  {
    CurrentRefusesRetired(s);
    hide Current, Apply, StaleWrite, RetiredRefused;
    if steps != [] {
      if StaleWrite(s, steps[0]) {
        StaleWriteUndoes(s, steps[0]);
        EligibleRetiredJob(Apply(s, steps[0]), s.copies[steps[0].worker]);
      } else {
        StepCurrent(s, steps[0]);
        OldJobsStayDeadExactly(Apply(s, steps[0]), steps[1..]);
      }
    }
  }

  lemma EligibleRetiredJob(s: Review, held: Admission)
    requires held.job.approvedPlanVersion.Some? && held.job.approvedPlanVersion.value <= s.retired
    requires ExecutionEligibility(s.plan, held.host, Some(held.job), held.rollbackFailure).Allow?
    ensures !RetiredRefused(s)
  {
  }

  // ---------------------------------------------------------------- what waiting jobs see

  /** A step takes the plan forward, in the sense in which jobs that wait for it stay shut, exactly if it is no
      stale write. */
  lemma StepGoesForwardExactly(s: Review, step: Step)
    requires Current(s)
    ensures Forward(s.plan, Apply(s, step).plan) <==> !StaleWrite(s, step)
  {
    hide Current, Handed, PlanApprovalDecision, RebootApprovalDecision, ExecutionEligibility, Reconciled;
    if StaleWrite(s, step) {
      StaleWriteUndoes(s, step);
    } else {
      match step
      case Edit(content) => EditForward(s.plan, content);
      case Reconcile(now) => SettleForward(s, now);
      case ApprovePlanBy(host, request, actor, now) =>
        SettleForward(s, now);
        ApprovalForward(Settle(s, now).plan, host, request, actor, now);
        ForwardThen(s.plan, Settle(s, now).plan, Apply(s, step).plan);
      case ApproveRebootBy(host, request, actor, now) =>
        SettleForward(s, now);
        RebootRequestForward(Settle(s, now).plan, host, request, actor, now);
        ForwardThen(s.plan, Settle(s, now).plan, Apply(s, step).plan);
      case RejectBy(now) =>
      case Admit(worker, host, job, rollbackFailure, now) =>
        SettleForward(s, now);
      case Launch(worker) =>
      case WriteBack(worker, state, result, now) =>
        if worker in s.copies {
          WriteBackForward(s, worker, state, result, now);
        }
    }
  }

  lemma EditForward(r: Remediation, content: Remediation)
    ensures Forward(r, EditedPlan(r, content))
  {
  }

  lemma SettleForward(s: Review, now: Time)
    ensures Forward(s.plan, Settle(s, now).plan)
  {
    ReconcileForward(s.plan, now);
    hide Reconciled;
  }

  lemma ApprovalForward(r: Remediation, host: Host, request: ApprovalRequest, actor: string, now: Time)
    ensures Forward(r, r)
    ensures PlanApprovalDecision(r, host, request).Allow? ==> Forward(r, WithPlanApproval(r, actor, now))
  {
  }

  lemma RebootRequestForward(r: Remediation, host: Host, request: ApprovalRequest, actor: string, now: Time)
    ensures Forward(r, AfterRebootRequest(r, host, request, actor, now))
  {
    hide RebootApprovalDecision;
  }

  lemma ForwardThen(a: Remediation, b: Remediation, c: Remediation)
    requires Forward(a, b) && Forward(b, c)
    ensures Forward(a, c)
  {
    hide ApprovalOver;
  }

  lemma WriteBackForward(s: Review, worker: Id, state: ExecutionState, result: Option<ResultSummary>, now: Time)
    requires Current(s) && worker in s.copies && worker !in s.overtaken
    ensures Forward(s.plan, Apply(s, WriteBack(worker, state, result, now)).plan)
  {
    assert CopyCurrent(s, worker);
    hide Handed;
  }

  /** No step, stale or not, takes the plan back behind a job that every worker's copy was read for. */
  lemma NoStepFallsBehindTheJob(s: Review, step: Step, job: Jobs.DurableJob)
    requires Current(s) && NotAhead(job, s.plan)
    requires forall worker :: worker in s.copies ==>
      s.copies[worker].job.approvedPlanVersion == job.approvedPlanVersion
    ensures NotAhead(job, Apply(s, step).plan)
  {
    hide Current, Apply, StaleWrite;
    if StaleWrite(s, step) {
      StaleWriteUndoes(s, step);
      StaleWriterHolds(s, step);
    } else {
      StepCurrent(s, step);
    }
  }

  lemma StaleWriterHolds(s: Review, step: Step)
    requires StaleWrite(s, step)
    ensures step.WriteBack? && step.worker in s.copies
  {
  }

  // ---------------------------------------------------------------- standing approvals

  predicate Overrides(event: Event) {
    event.PlanApproval? || event.Invalidation?
  }

  /** An approval of the payload stands in the ledger: nothing has invalidated or replaced it. */
  ghost predicate PlanStands(ledger: seq<Event>, payload: Payload) {
    exists i :: 0 <= i < |ledger| && PlanApprovalOf(ledger[i], payload) &&
      forall k :: i < k < |ledger| ==> !Overrides(ledger[k])
  }

  /** And a reboot approval of the same payload has followed it. */
  ghost predicate BothStand(ledger: seq<Event>, payload: Payload) {
    exists i, j :: 0 <= i < j < |ledger| && PlanApprovalOf(ledger[i], payload) && RebootApprovalOf(ledger[j], payload)
      && forall k :: i < k < |ledger| ==> !Overrides(ledger[k])
  }

  ghost predicate Backed(r: Remediation, ledger: seq<Event>) {
    r.approvalState == Approved ==>
      r.planHash.Of? && PlanStands(ledger, r.planHash.payload)
      && (r.rebootApproval == RebootApproved ==> BothStand(ledger, r.planHash.payload))
  }

  /** Every admission rests on a standing approval. */
  ghost predicate AdmissionsStand(ledger: seq<Event>) {
    forall end :: 0 <= end < |ledger| && ledger[end].Admitted? ==> ApprovedAt(ledger, end, ledger[end].payload)
  }

  ghost predicate Standing(s: Review) {
    && Current(s) && Backed(s.plan, s.ledger)
    && (forall worker :: worker in s.copies && worker !in s.overtaken ==> Backed(s.copies[worker].plan, s.ledger))
    && AdmissionsStand(s.ledger)
  }

  lemma BackedLonger(r: Remediation, ledger: seq<Event>, event: Event)
    requires Backed(r, ledger) && !Overrides(event)
    ensures Backed(r, ledger + [event])
  {
    var longer := ledger + [event];
    if r.approvalState == Approved {
      var i :| 0 <= i < |ledger| && PlanApprovalOf(ledger[i], r.planHash.payload) &&
        forall k :: i < k < |ledger| ==> !Overrides(ledger[k]);
      assert PlanApprovalOf(longer[i], r.planHash.payload) && forall k :: i < k < |longer| ==> !Overrides(longer[k]);
      if r.rebootApproval == RebootApproved {
        var p, q :| 0 <= p < q < |ledger| && PlanApprovalOf(ledger[p], r.planHash.payload) &&
          RebootApprovalOf(ledger[q], r.planHash.payload)
          && forall k :: p < k < |ledger| ==> !Overrides(ledger[k]);
        assert PlanApprovalOf(longer[p], r.planHash.payload) && RebootApprovalOf(longer[q], r.planHash.payload);
        assert forall k :: p < k < |longer| ==> !Overrides(longer[k]);
      }
    }
  }

  lemma ApprovedAtLonger(ledger: seq<Event>, end: nat, payload: Payload, event: Event)
    requires end <= |ledger| && ApprovedAt(ledger, end, payload)
    ensures ApprovedAt(ledger + [event], end, payload)
  {
    var longer := ledger + [event];
    var i :| 0 <= i < end && PlanApprovalOf(ledger[i], payload)
      && (forall k :: i < k < end ==> !ledger[k].PlanApproval? && !ledger[k].Invalidation?)
      && (payload.reboot.status != RebootNotExpected ==>
          exists j :: i < j < end && RebootApprovalOf(ledger[j], payload));
    assert PlanApprovalOf(longer[i], payload);
    if payload.reboot.status != RebootNotExpected {
      var j :| i < j < end && RebootApprovalOf(ledger[j], payload);
      assert RebootApprovalOf(longer[j], payload);
    }
  }

  lemma AdmissionsLonger(ledger: seq<Event>, event: Event)
    requires AdmissionsStand(ledger) && (event.Admitted? ==> ApprovedAt(ledger, |ledger|, event.payload))
    ensures AdmissionsStand(ledger + [event])
  {
    hide ApprovedAt;
    var longer := ledger + [event];
    forall end | 0 <= end < |longer| && longer[end].Admitted? ensures ApprovedAt(longer, end, longer[end].payload) {
      if end < |ledger| {
        assert ledger[end] == longer[end];
      }
      ApprovedAtLonger(ledger, end, longer[end].payload, event);
    }
  }

  /** What the gate lets through rests on a standing approval. */
  lemma HandedStands(r: Remediation, ledger: seq<Event>, host: Host, job: Jobs.DurableJob, rollbackFailure: bool)
    requires Backed(r, ledger) && Handed(r, host, job, rollbackFailure)
    ensures ApprovedAt(ledger, |ledger|, PlanPayload(r))
  {
    EligibilityExactly(r, host, job, rollbackFailure);
    ApprovalExactly(r, host);
    hide ExecutionEligibility, ApprovalDecision;
    var payload := PlanPayload(r);
    if RebootRisk(r) {
      var i, j :| 0 <= i < j < |ledger| && PlanApprovalOf(ledger[i], payload) && RebootApprovalOf(ledger[j], payload)
        && forall k :: i < k < |ledger| ==> !Overrides(ledger[k]);
      assert forall k :: i < k < |ledger| ==> !Overrides(ledger[k]);
    } else {
      var i :| 0 <= i < |ledger| && PlanApprovalOf(ledger[i], payload) &&
        forall k :: i < k < |ledger| ==> !Overrides(ledger[k]);
      assert forall k :: i < k < |ledger| ==> !Overrides(ledger[k]);
    }
  }

  /** An event that overrides no approval keeps everything standing. */
  lemma EventStanding(s: Review, t: Review, event: Event)
    requires Standing(s) && Current(t) && t.ledger == s.ledger + [event] && !Overrides(event)
    requires t.plan == s.plan || Backed(t.plan, t.ledger)
    requires forall w :: w in t.copies && w !in t.overtaken ==>
      || t.copies[w].plan == s.plan
      || (w in s.copies && w !in s.overtaken && t.copies[w] == s.copies[w])
    requires event.Admitted? ==> ApprovedAt(s.ledger, |s.ledger|, event.payload)
    ensures Standing(t)
  {
    hide Current, Backed, ApprovedAt, AdmissionsStand;
    AdmissionsLonger(s.ledger, event);
    BackedLonger(s.plan, s.ledger, event);
    forall w | w in t.copies && w !in t.overtaken ensures Backed(t.copies[w].plan, t.ledger) {
      if t.copies[w].plan != s.plan {
        BackedLonger(s.copies[w].plan, s.ledger, event);
      }
    }
  }

  /** An event that overrides the approvals leaves no current copy behind. */
  lemma OverrideStanding(s: Review, t: Review, event: Event)
    requires Standing(s) && Current(t) && t.ledger == s.ledger + [event] && !event.Admitted? && Backed(t.plan, t.ledger)
    requires forall w :: w in t.copies ==> w in t.overtaken
    ensures Standing(t)
  {
    hide Current, Backed, AdmissionsStand;
    AdmissionsLonger(s.ledger, event);
  }

  lemma QuietStanding(s: Review, t: Review)
    requires Standing(s) && Current(t) && t.ledger == s.ledger && Backed(t.plan, t.ledger)
    requires forall w :: w in t.copies && w !in t.overtaken ==>
      w in s.copies && w !in s.overtaken && Backed(t.copies[w].plan, t.ledger)
    ensures Standing(t)
  {
    hide Current, Backed, AdmissionsStand;
  }

  lemma SettleStanding(s: Review, now: Time)
    requires Standing(s)
    ensures Standing(Settle(s, now)) && Settle(s, now).plan.planHash == HashOf(Settle(s, now).plan)
  {
    SettleCurrent(s, now);
    ReconcileSettles(s.plan, now, now);
    hide Current, PlanStands, BothStand, AdmissionsStand;
    if Reconciled(s.plan, now) != s.plan {
      assert Backed(Settle(s, now).plan, Settle(s, now).ledger);
      hide Standing, Backed, Reconciled;
      OverrideStanding(s, Settle(s, now), Invalidation);
    }
  }

  lemma StepStanding(s: Review, step: Step)
    requires Standing(s) && !StaleWrite(s, step)
    ensures Standing(Apply(s, step))
  {
    hide Standing, Settle, Handed, PlanApprovalDecision, AfterRebootRequest, RebootApprovalDecision;
    hide ExecutionEligibility, WithPlanApproval;
    var t := Apply(s, step);
    assert Current(s) by { StandingIsCurrent(s); }
    StepCurrent(s, step);
    hide Current;
    match step
    case Edit(content) => EditStanding(s, content);
    case Reconcile(now) => SettleStanding(s, now);
    case ApprovePlanBy(host, request, actor, now) =>
      SettleStanding(s, now);
      if PlanApprovalDecision(Settle(s, now).plan, host, request).Allow? {
        ApproveStanding(Settle(s, now), host, request, actor, now);
      }
    case ApproveRebootBy(host, request, actor, now) =>
      SettleStanding(s, now);
      RebootStanding(Settle(s, now), host, request, actor, now);
    case RejectBy(now) => RejectStanding(s, now);
    case Admit(worker, host, job, rollbackFailure, now) =>
      SettleStanding(s, now);
      AdmitStanding(s, worker, host, job, rollbackFailure, now);
    case Launch(worker) => LaunchStanding(s, worker);
    case WriteBack(worker, state, result, now) =>
      if worker in s.copies {
        WriteBackStanding(s, worker, state, result, now);
      }
  }

  lemma StandingIsCurrent(s: Review)
    requires Standing(s)
    ensures Current(s)
  {
  }

  lemma EditStanding(s: Review, content: Remediation)
    requires Standing(s) && Current(Apply(s, Edit(content)))
    ensures Standing(Apply(s, Edit(content)))
  {
    hide Current, PlanStands, BothStand, AdmissionsStand;
    QuietStanding(s, Apply(s, Edit(content)));
  }

  lemma RejectStanding(s: Review, now: Time)
    requires Standing(s) && Current(Apply(s, RejectBy(now)))
    ensures Standing(Apply(s, RejectBy(now)))
  {
    hide Current, PlanStands, BothStand, AdmissionsStand;
    QuietStanding(s, Apply(s, RejectBy(now)));
  }

  lemma LaunchStanding(s: Review, worker: Id)
    requires Standing(s) && Current(Apply(s, Launch(worker)))
    ensures Standing(Apply(s, Launch(worker)))
  {
    hide Standing, Current, ExecutionEligibility;
    if Apply(s, Launch(worker)) != s {
      EventStanding(s, Apply(s, Launch(worker)), Execution(worker, PlanPayload(s.copies[worker].plan)));
    }
  }

  lemma ApproveStanding(s: Review, host: Host, request: ApprovalRequest, actor: string, now: Time)
    requires Standing(s) && s.plan.planHash == HashOf(s.plan) && PlanApprovalDecision(s.plan, host, request).Allow?
    ensures Standing(s.(plan := WithPlanApproval(s.plan, actor, now),
                        ledger := s.ledger + [PlanApproval(actor, request.hostname, host.name, PlanPayload(s.plan))]))
  {
    var event := PlanApproval(actor, request.hostname, host.name, PlanPayload(s.plan));
    var t := s.(plan := WithPlanApproval(s.plan, actor, now), ledger := s.ledger + [event]);
    assert PlanApprovalOf(t.ledger[|s.ledger|], PlanPayload(s.plan)) && s.plan.approvalState == Pending;
    assert Backed(t.plan, t.ledger);
    ApproveCurrent(s, host, request, actor, now);
    forall w | w in t.copies ensures w in t.overtaken {
      PendingMeansOvertaken(s, w);
    }
    hide Standing, Current, Backed, PlanApprovalDecision;
    OverrideStanding(s, t, event);
  }

  lemma RebootStanding(s: Review, host: Host, request: ApprovalRequest, actor: string, now: Time)
    requires Standing(s) && s.plan.planHash == HashOf(s.plan)
    ensures var event := RebootApproval(actor, request.hostname, host.name, PlanPayload(s.plan));
      var ledger := if RebootApprovalDecision(s.plan, host, request).Allow? then s.ledger + [event] else s.ledger;
      Standing(s.(plan := AfterRebootRequest(s.plan, host, request, actor, now), ledger := ledger))
  {
    RebootCurrent(s, host, request, actor, now);
    var plan := AfterRebootRequest(s.plan, host, request, actor, now);
    if RebootApprovalDecision(s.plan, host, request).Allow? {
      var event := RebootApproval(actor, request.hostname, host.name, PlanPayload(s.plan));
      var t := s.(plan := plan, ledger := s.ledger + [event]);
      assert Current(t);
      RebootBacked(s, host, request, actor, now);
      hide Standing, Current, Backed, AfterRebootRequest, RebootApprovalDecision;
      EventStanding(s, t, event);
    } else {
      var t := s.(plan := plan, ledger := s.ledger);
      assert Current(t);
      assert Backed(plan, s.ledger);
      hide Current, Backed, AfterRebootRequest, RebootApprovalDecision, AdmissionsStand;
      QuietStanding(s, t);
    }
  }

  lemma RebootBacked(s: Review, host: Host, request: ApprovalRequest, actor: string, now: Time)
    requires Backed(s.plan, s.ledger) && s.plan.planHash == HashOf(s.plan)
    requires RebootApprovalDecision(s.plan, host, request).Allow?
    ensures Backed(AfterRebootRequest(s.plan, host, request, actor, now),
                   s.ledger + [RebootApproval(actor, request.hostname, host.name, PlanPayload(s.plan))])
  {
    var payload := PlanPayload(s.plan);
    var longer := s.ledger + [RebootApproval(actor, request.hostname, host.name, payload)];
    var i :| 0 <= i < |s.ledger| && PlanApprovalOf(s.ledger[i], payload) &&
      forall k :: i < k < |s.ledger| ==> !Overrides(s.ledger[k]);
    assert PlanApprovalOf(longer[i], payload) && RebootApprovalOf(longer[|s.ledger|], payload);
    assert forall k :: i < k < |longer| ==> !Overrides(longer[k]);
  }

  lemma AdmitStanding(s: Review, worker: Id, host: Host, job: Jobs.DurableJob, rollbackFailure: bool, now: Time)
    requires Standing(s) && Standing(Settle(s, now))
    requires Current(Apply(s, Admit(worker, host, job, rollbackFailure, now)))
    ensures Standing(Apply(s, Admit(worker, host, job, rollbackFailure, now)))
  {
    var t := Apply(s, Admit(worker, host, job, rollbackFailure, now));
    if Handed(s.plan, host, job, rollbackFailure) {
      HandedStands(s.plan, s.ledger, host, job, rollbackFailure);
      hide Standing, Current, Backed, Handed, ApprovedAt;
      EventStanding(s, t, Admitted(worker, PlanPayload(s.plan)));
    } else {
      hide Current, PlanStands, BothStand, Handed, Settle, AdmissionsStand;
      QuietStanding(Settle(s, now), t);
    }
  }

  lemma WriteBackStanding(s: Review, worker: Id, state: ExecutionState, result: Option<ResultSummary>, now: Time)
    requires Standing(s) && worker in s.copies && worker !in s.overtaken
    requires Current(Apply(s, WriteBack(worker, state, result, now)))
    ensures Standing(Apply(s, WriteBack(worker, state, result, now)))
  {
    hide Current, PlanStands, BothStand, AdmissionsStand;
    var t := Apply(s, WriteBack(worker, state, result, now));
    assert Backed(t.plan, t.ledger);
    hide Backed;
    QuietStanding(s, t);
  }

  /** In a run without stale writes every admission to the executor rests on a plan approval that nothing has
      invalidated or replaced, followed by the reboot approval if one is due. */
  lemma {:induction false} AdmissionsRestOnStandingApprovals(s: Review, steps: seq<Step>)
    requires Standing(s) && NoStaleWrite(s, steps)
    ensures Standing(Run(s, steps)) && AdmissionsStand(Run(s, steps).ledger)
    decreases |steps|
  {
    if steps == [] {
    } else {
      StepStanding(s, steps[0]);
      AdmissionsRestOnStandingApprovals(Apply(s, steps[0]), steps[1..]);
    }
    hide Apply, StaleWrite, Current, Backed, AdmissionsStand;
  }

  lemma FreshStartStanding(r: Remediation)
    requires Fresh(r)
    ensures Standing(Start(r))
  {
  }

  /** All of it for the plans the workflow stores, which nobody has approved yet: versions grow and old jobs stay
      refused exactly in the runs without stale writes, and in those every admission rests on a standing
      approval. */
  lemma FreshPlansExactly(r: Remediation, steps: seq<Step>)
    requires Fresh(r)
    ensures VersionsGrow(Start(r), steps) <==> NoStaleWrite(Start(r), steps)
    ensures RetiredStayRefused(Start(r), steps) <==> NoStaleWrite(Start(r), steps)
    ensures NoStaleWrite(Start(r), steps) ==> AdmissionsStand(Run(Start(r), steps).ledger)
  {
    StartCurrent(r);
    FreshStartStanding(r);
    hide Current, Standing, VersionsGrow, RetiredStayRefused, NoStaleWrite, AdmissionsStand, Run;
    VersionsGrowExactly(Start(r), steps);
    OldJobsStayDeadExactly(Start(r), steps);
    if NoStaleWrite(Start(r), steps) {
      AdmissionsRestOnStandingApprovals(Start(r), steps);
    }
  }

  // ---------------------------------------------------------------- a run that goes wrong

  /** A worker is let through and starts the executor. Meanwhile the plan is edited and reconciled. The run
      fails without a change, and the worker writes its copy back, with the plan queued again; the job's next
      worker is let through on it. */
  function Revival(
    worker: Id, other: Id, host: Host, job: Jobs.DurableJob, content: Remediation, result: Option<ResultSummary>,
    now: Time): seq<Step>
  {
    Overtaking(worker, host, job, content, now)
    + [WriteBack(worker, ExecQueued, result, now), Admit(other, host, job, false, now), Launch(other)]
  }

  function Overtaking(worker: Id, host: Host, job: Jobs.DurableJob, content: Remediation, now: Time): seq<Step> {
    [Admit(worker, host, job, false, now), Launch(worker), Edit(content), Reconcile(now)]
  }

  lemma {:induction false} RunConcat(s: Review, first: seq<Step>, second: seq<Step>)
    ensures Run(s, first + second) == Run(Run(s, first), second)
    decreases |first|
  {
    hide Apply;
    if first == [] {
      assert first + second == second;
    } else {
      assert (first + second)[1..] == first[1..] + second;
      RunConcat(Apply(s, first[0]), first[1..], second);
    }
  }

  lemma RunStep(s: Review, step: Step, rest: seq<Step>)
    ensures Run(s, [step] + rest) == Run(Apply(s, step), rest)
  {
    hide Apply;
    assert ([step] + rest)[1..] == rest;
  }

  lemma RunThree(s: Review, a: Step, b: Step, c: Step)
    ensures Run(s, [a, b, c]) == Apply(Apply(Apply(s, a), b), c)
  {
    hide Apply;
    assert [a, b, c] == [a] + ([b] + ([c] + []));
    RunStep(s, a, [b] + ([c] + []));
    RunStep(Apply(s, a), b, [c] + []);
    RunStep(Apply(Apply(s, a), b), c, []);
  }

  lemma RunFour(s: Review, a: Step, b: Step, c: Step, d: Step)
    ensures Run(s, [a, b, c, d]) == Apply(Apply(Apply(Apply(s, a), b), c), d)
  {
    hide Apply, Run;
    assert [a, b, c, d] == [a] + [b, c, d];
    RunStep(s, a, [b, c, d]);
    RunThree(Apply(s, a), b, c, d);
  }

  /** A passed gate without a rollback failure is the executor's own entry check. */
  lemma HandedMayLaunch(r: Remediation, host: Host, job: Jobs.DurableJob)
    requires Handed(r, host, job, false)
    ensures ExecutionEligibility(r, host, None, false).Allow?
  {
  }

  lemma OvertakingRun(s: Review, worker: Id, host: Host, job: Jobs.DurableJob, content: Remediation, now: Time)
    requires Handed(s.plan, host, job, false) && ContentChanged(EditedPlan(s.plan, content))
    ensures var t, payload := Run(s, Overtaking(worker, host, job, content, now)), PlanPayload(s.plan);
      && worker in t.copies && t.copies[worker] == Admission(s.plan, host, job, false)
      && t.ledger == s.ledger + [Admitted(worker, payload), Execution(worker, payload), Invalidation]
      && t.plan == Reconciled(EditedPlan(s.plan, content), now) && t.plan.planVersion == s.plan.planVersion + 1
      && worker in t.overtaken
  {
    hide Run, Handed, ExecutionEligibility, EditedPlan, Reconciled, ContentChanged;
    HandedMayLaunch(s.plan, host, job);
    EditIsReconciled(s.plan, content, now);
    RunFour(s, Admit(worker, host, job, false, now), Launch(worker), Edit(content), Reconcile(now));
    var s1 := Apply(s, Admit(worker, host, job, false, now));
    var s2 := Apply(s1, Launch(worker));
    assert s2 == s1.(ledger := s.ledger +
                     [Admitted(worker, PlanPayload(s.plan)), Execution(worker, PlanPayload(s.plan))]);
    var s3 := Apply(s2, Edit(content));
    assert s3 == s2.(plan := EditedPlan(s.plan, content));
  }

  lemma EditIsReconciled(r: Remediation, content: Remediation, now: Time)
    requires ContentChanged(EditedPlan(r, content))
    ensures var edited := EditedPlan(r, content);
      Reconciled(edited, now) != edited && Reconciled(edited, now).planVersion == r.planVersion + 1
  {
    ReconcileSettles(EditedPlan(r, content), now, now);
    hide Reconciled, ContentChanged;
  }

  /** Once the edit has been reconciled the job is refused, under every host. */
  lemma OvertakenJobIsRefused(
    s: Review, host: Host, job: Jobs.DurableJob, plan: Remediation, other: Host, rollbackFailure: bool)
    requires Handed(s.plan, host, job, false) && plan.planVersion == s.plan.planVersion + 1
    ensures !ExecutionEligibility(plan, other, Some(job), rollbackFailure).Allow?
  {
    EligibilityExactly(s.plan, host, job, false);
    EligibilityExactly(plan, other, job, rollbackFailure);
    hide ExecutionEligibility;
  }

  lemma RevivalRun(
    t: Review, worker: Id, other: Id, r: Remediation, host: Host, job: Jobs.DurableJob, result: Option<ResultSummary>,
    now: Time)
    requires worker in t.copies && t.copies[worker] == Admission(r, host, job, false) && Handed(r, host, job, false)
    ensures var end :=
      Run(t, [WriteBack(worker, ExecQueued, result, now), Admit(other, host, job, false, now), Launch(other)]);
      && end.plan == Marked(r, ExecQueued, result, now)
      && end.ledger == t.ledger + [Admitted(other, PlanPayload(r)), Execution(other, PlanPayload(r))]
  {
    hide Run, Handed, ExecutionEligibility, ContentChanged, BindingChanged;
    MarkedKeeps(r, ExecQueued, result, now, [], host, job, false);
    HandedMayLaunch(Marked(r, ExecQueued, result, now), host, job);
    RunThree(t, WriteBack(worker, ExecQueued, result, now), Admit(other, host, job, false, now), Launch(other));
    var t1 := Apply(t, WriteBack(worker, ExecQueued, result, now));
    assert t1.plan == Marked(r, ExecQueued, result, now) && PlanPayload(t1.plan) == PlanPayload(r);
    var t2 := Apply(t1, Admit(other, host, job, false, now));
    assert t2.ledger == t.ledger + [Admitted(other, PlanPayload(r))];
  }

  /** Every plan a worker is let through with can go this way: the edit is reconciled, the version goes up and
      the job is refused; the write-back takes the version down again and the job through the gate a second
      time, on an approval that has been invalidated in between. */
  lemma StaleWriteRevives(
    s: Review, worker: Id, other: Id, host: Host, job: Jobs.DurableJob, content: Remediation,
    result: Option<ResultSummary>, now: Time)
    requires Handed(s.plan, host, job, false) && ContentChanged(EditedPlan(s.plan, content))
    ensures var payload := PlanPayload(s.plan);
      var middle, end := Run(s, Overtaking(worker, host, job, content, now)),
        Run(s, Revival(worker, other, host, job, content, result, now));
      && middle.plan.planVersion == s.plan.planVersion + 1
      && !ExecutionEligibility(middle.plan, host, Some(job), false).Allow?
      && end.plan.planVersion == s.plan.planVersion
      && end.ledger == s.ledger + [Admitted(worker, payload), Execution(worker, payload), Invalidation,
                                   Admitted(other, payload), Execution(other, payload)]
      && !ApprovedAt(end.ledger, |s.ledger| + 3, payload)
  {
    hide Handed, ExecutionEligibility, EditedPlan, Run, ContentChanged, Reconciled;
    var t := Run(s, Overtaking(worker, host, job, content, now));
    OvertakingRun(s, worker, host, job, content, now);
    OvertakenJobIsRefused(s, host, job, t.plan, host, false);
    RevivalRun(t, worker, other, s.plan, host, job, result, now);
    RunConcat(s, Overtaking(worker, host, job, content, now),
              [WriteBack(worker, ExecQueued, result, now), Admit(other, host, job, false, now), Launch(other)]);
    var ledger := Run(s, Revival(worker, other, host, job, content, result, now)).ledger;
    assert ledger[|s.ledger| + 2].Invalidation? && ledger[|s.ledger|].Admitted? && ledger[|s.ledger| + 1].Execution?;
  }

  lemma SampleApproved(now: Time)
    ensures var draft, host := Samples.DraftPlan("plan", "host", RebootNotExpected), Samples.Machine("host", false);
      var approve := ApprovePlanBy(host, ApprovalRequest(1, draft.planHash, "host"), "operator", now);
      var plan := WithPlanApproval(draft, "operator", now);
      && Apply(Start(draft), approve)
         == Review(plan, map[], [PlanApproval("operator", "host", "host", PlanPayload(plan))], {}, 0)
      && ApprovalDecision(plan, host).Allow? && plan.planHash == HashOf(plan) && plan.id == "plan"
      && plan.riskLevel == Low
      && plan.protection == Protection(false, false, "") && plan.approvalState == Approved && !BindingChanged(plan)
  {
    var draft := Samples.DraftPlan("plan", "host", RebootNotExpected);
    assert PlanPayload(draft) == draft.planHash.payload;
    assert PlanPayload(WithPlanApproval(draft, "operator", now)) == PlanPayload(draft);
  }

  lemma SampleHanded(plan: Remediation, host: Host, now: Time)
    requires ApprovalDecision(plan, host).Allow? && plan.planHash == HashOf(plan) && plan.id == "plan"
    requires plan.riskLevel == Low
    requires plan.protection == Protection(false, false, "") && plan.approvalState == Approved && !BindingChanged(plan)
    requires host == Samples.Machine("host", false)
    ensures Handed(plan, host, Rollout.NewJob("job", "plan", plan, "", true, now), false)
    ensures ContentChanged(EditedPlan(plan, plan.(riskLevel := Critical)))
  {
    hide ApprovalDecision;
    Rollout.NewJobIsEligible("job", plan, host, "", true, now, false);
    assert EditedPlan(plan, plan.(riskLevel := Critical)).riskLevel == Critical;
  }

  /** A concrete one, from a plan nobody had approved yet: two workers execute the same version of the plan
      for the same job, and the approval of it is invalidated between them. */
  lemma InvalidatedPlanRunsTwice(result: Option<ResultSummary>, now: Time)
    ensures var draft, host := Samples.DraftPlan("plan", "host", RebootNotExpected), Samples.Machine("host", false);
      var approve := ApprovePlanBy(host, ApprovalRequest(1, draft.planHash, "host"), "operator", now);
      var approved := Apply(Start(draft), approve);
      var job := Rollout.NewJob("job", "plan", approved.plan, "", true, now);
      var content := approved.plan.(riskLevel := Critical);
      var payload := PlanPayload(approved.plan);
      && Fresh(draft)
      && Run(Start(draft), [approve] + Revival("first", "second", host, job, content, result, now)).ledger ==
           [PlanApproval("operator", "host", "host", payload), Admitted("first", payload), Execution("first", payload),
            Invalidation, Admitted("second", payload), Execution("second", payload)]
  {
    var draft, host := Samples.DraftPlan("plan", "host", RebootNotExpected), Samples.Machine("host", false);
    var approve := ApprovePlanBy(host, ApprovalRequest(1, draft.planHash, "host"), "operator", now);
    var approved := Apply(Start(draft), approve);
    SampleApproved(now);
    var job := Rollout.NewJob("job", "plan", approved.plan, "", true, now);
    var content := approved.plan.(riskLevel := Critical);
    SampleHanded(approved.plan, host, now);
    hide Apply, Handed, EditedPlan, ContentChanged, Rollout.NewJob, Revival;
    RunStep(Start(draft), approve, Revival("first", "second", host, job, content, result, now));
    StaleWriteRevives(approved, "first", "second", host, job, content, result, now);
  }
}
