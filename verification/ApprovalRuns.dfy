/** Whole histories of one plan: its content may be edited at any time, operators approve and reject, the
    service reconciles, and workers pass the gate, start the executor and write the copy of the plan they
    hold back whole, however old it is by then. A ledger records what happened. */
module ApprovalRuns {
  import opened Common
  import opened Plans
  import opened Gate
  import Jobs

  datatype Event =
    | PlanApproval(actor: string, typedHostname: string, hostname: string, payload: Payload)
    | RebootApproval(actor: string, typedHostname: string, hostname: string, payload: Payload)
    | Invalidation
    | Admitted(worker: Id, payload: Payload)
    | Execution(worker: Id, payload: Payload)

  /** What a worker holds once the gate has let it through: its own copy of the plan, and the host and job
      it was let through with. */
  datatype Admission = Admission(plan: Remediation, host: Host, job: Jobs.DurableJob, rollbackFailure: bool)

  /** `overtaken` holds the workers whose copies are older than the last reconciliation that changed the
      plan; `retired` is the highest version such a reconciliation has left behind. */
  datatype Review = Review(
    plan: Remediation,
    copies: map<Id, Admission>,
    ledger: seq<Event>,
    overtaken: set<Id>,
    retired: int)

  datatype Step =
    | Edit(content: Remediation)
    | Reconcile(now: Time)
    | ApprovePlanBy(host: Host, request: ApprovalRequest, actor: string, now: Time)
    | ApproveRebootBy(host: Host, request: ApprovalRequest, actor: string, now: Time)
    | RejectBy(now: Time)
    | Admit(worker: Id, host: Host, job: Jobs.DurableJob, rollbackFailure: bool, now: Time)
    | Launch(worker: Id)
    | WriteBack(worker: Id, state: ExecutionState, result: Option<ResultSummary>, now: Time)

  /** An edit may replace everything except the identity of the plan, its version, its stored hash and
      the record of its approvals. It may even set the flag the reboot approval sets. */
  function EditedPlan(r: Remediation, c: Remediation): Remediation {
    c.(id := r.id, approvalState := r.approvalState, rebootApproval := r.rebootApproval,
       planVersion := r.planVersion, planHash := r.planHash,
       approvedBy := r.approvedBy, approvedAt := r.approvedAt,
       approvedPlanVersion := r.approvedPlanVersion, approvedPlanHash := r.approvedPlanHash,
       rebootApprovedBy := r.rebootApprovedBy, rebootApprovedAt := r.rebootApprovedAt,
       rebootApprovedPlanVersion := r.rebootApprovedPlanVersion, rebootApprovedPlanHash := r.rebootApprovedPlanHash)
  }

  /** Every service entry point reconciles first and keeps the result, whatever happens next. */
  function Settle(s: Review, now: Time): Review {
    var plan := Reconciled(s.plan, now);
    if plan == s.plan then s
    else Review(plan, s.copies, s.ledger + [Invalidation], s.overtaken + s.copies.Keys,
                if ContentChanged(s.plan) then Max(s.retired, s.plan.planVersion) else s.retired)
  }

  predicate Handed(r: Remediation, host: Host, job: Jobs.DurableJob, rollbackFailure: bool) {
    && !ContentChanged(r) && !BindingChanged(r)
    && ExecutionEligibility(r, host, Some(job), rollbackFailure).Allow?
  }

  /** A run's mark on a plan: its execution state, its result and the time. */
  function Marked(r: Remediation, state: ExecutionState, result: Option<ResultSummary>, now: Time): Remediation {
    r.(executionState := state, result := result, updatedAt := now)
  }

  function Apply(s: Review, step: Step): Review {
    match step
    case Edit(content) => s.(plan := EditedPlan(s.plan, content))
    case Reconcile(now) => Settle(s, now)
    case ApprovePlanBy(host, request, actor, now) =>
      var t := Settle(s, now);
      if !PlanApprovalDecision(t.plan, host, request).Allow? then t
      else t.(plan := WithPlanApproval(t.plan, actor, now),
              ledger := t.ledger + [PlanApproval(actor, request.hostname, host.name, PlanPayload(t.plan))])
    case ApproveRebootBy(host, request, actor, now) =>
      var t := Settle(s, now);
      t.(plan := AfterRebootRequest(t.plan, host, request, actor, now),
         ledger := if !RebootApprovalDecision(t.plan, host, request).Allow? then t.ledger
                   else t.ledger + [RebootApproval(actor, request.hostname, host.name, PlanPayload(t.plan))])
    case RejectBy(now) =>
      if s.plan.approvalState != Pending then s
      else s.(plan := s.plan.(approvalState := Rejected, rebootApproval := RebootRejected,
                              reboot := s.plan.reboot.(approvedIfRequired := false),
                              executionState := ExecBlocked, updatedAt := now))
    case Admit(worker, host, job, rollbackFailure, now) =>
      if Handed(s.plan, host, job, rollbackFailure)
      then s.(copies := s.copies[worker := Admission(s.plan, host, job, rollbackFailure)],
              ledger := s.ledger + [Admitted(worker, PlanPayload(s.plan))],
              overtaken := s.overtaken - {worker})
      else
        var t := Settle(s, now);
        t.(plan := t.plan.(executionState := ExecBlocked, updatedAt := now),
           copies := t.copies - {worker}, overtaken := t.overtaken - {worker})
    case Launch(worker) =>
      if worker !in s.copies || !ExecutionEligibility(s.copies[worker].plan, s.copies[worker].host, None, false).Allow?
        then s
      else s.(ledger := s.ledger + [Execution(worker, PlanPayload(s.copies[worker].plan))])
    case WriteBack(worker, state, result, now) =>
      if worker !in s.copies then s
      else
        var copy := Marked(s.copies[worker].plan, state, result, now);
        s.(plan := copy, copies := s.copies[worker := s.copies[worker].(plan := copy)])
  }

  function Run(s: Review, steps: seq<Step>): Review
    decreases |steps|
  {
    if steps == [] then s else Run(Apply(s, steps[0]), steps[1..])
  }

  /** A plan as the workflow stores it: nothing approved yet. */
  predicate Fresh(r: Remediation) {
    r.approvalState == Pending && r.rebootApproval != RebootApproved
  }

  function Start(r: Remediation): Review {
    Review(r, map[], [], {}, r.planVersion - 1)
  }

  /** The worker writes back a copy that a reconciliation has overtaken: the plan changed between the
      worker's last read and this write. The source does not look. */
  predicate StaleWrite(s: Review, step: Step) {
    step.WriteBack? && step.worker in s.copies && step.worker in s.overtaken
  }

  predicate NoStaleWrite(s: Review, steps: seq<Step>)
    decreases |steps|
  {
    steps != [] ==> !StaleWrite(s, steps[0]) && NoStaleWrite(Apply(s, steps[0]), steps[1..])
  }

  // ---------------------------------------------------------------- what a ledger shows

  predicate PlanApprovalOf(event: Event, payload: Payload) {
    event.PlanApproval? && event.payload == payload && event.typedHostname == event.hostname
  }

  predicate RebootApprovalOf(event: Event, payload: Payload) {
    event.RebootApproval? && event.payload == payload && event.typedHostname == event.hostname
  }

  /** Before position `end` some actor who typed the name of the host approved exactly this payload and, if
      it carries reboot risk, a reboot approval of the same payload followed, again with the name typed. */
  ghost predicate EverApproved(ledger: seq<Event>, end: nat, payload: Payload)
    requires end <= |ledger|
  {
    exists i :: 0 <= i < end && PlanApprovalOf(ledger[i], payload)
      && (payload.reboot.status != RebootNotExpected ==>
          exists j :: i < j < end && RebootApprovalOf(ledger[j], payload))
  }

  /** The same, and nothing invalidated or replaced the plan approval up to `end`. */
  ghost predicate ApprovedAt(ledger: seq<Event>, end: nat, payload: Payload)
    requires end <= |ledger|
  {
    exists i :: 0 <= i < end && PlanApprovalOf(ledger[i], payload)
      && (forall k :: i < k < end ==> !ledger[k].PlanApproval? && !ledger[k].Invalidation?)
      && (payload.reboot.status != RebootNotExpected ==>
          exists j :: i < j < end && RebootApprovalOf(ledger[j], payload))
  }

  lemma EverApprovedLonger(ledger: seq<Event>, end: nat, payload: Payload, event: Event, later: nat)
    requires end <= |ledger| && EverApproved(ledger, end, payload) && end <= later <= |ledger| + 1
    ensures EverApproved(ledger + [event], later, payload)
  {
    var longer := ledger + [event];
    var i :| 0 <= i < end && PlanApprovalOf(ledger[i], payload)
      && (payload.reboot.status != RebootNotExpected ==>
          exists j :: i < j < end && RebootApprovalOf(ledger[j], payload));
    assert PlanApprovalOf(longer[i], payload);
    if payload.reboot.status != RebootNotExpected {
      var j :| i < j < end && RebootApprovalOf(ledger[j], payload);
      assert RebootApprovalOf(longer[j], payload);
    }
  }

  // ---------------------------------------------------------------- every run

  /** An approved plan carries the approval of some payload that stands in the ledger, and a reboot approval
      only for that same payload. */
  ghost predicate Traced(r: Remediation, ledger: seq<Event>) {
    r.approvalState == Approved ==>
      && r.approvedPlanVersion == Some(r.planVersion) && r.approvedPlanHash == Some(r.planHash)
      && r.planHash.Of?
      && (exists i :: 0 <= i < |ledger| && PlanApprovalOf(ledger[i], r.planHash.payload))
      && (r.rebootApproval == RebootApproved ==>
            && r.planHash.payload.reboot.status != RebootNotExpected
            && exists i, j :: 0 <= i < j < |ledger| && PlanApprovalOf(ledger[i], r.planHash.payload)
                 && RebootApprovalOf(ledger[j], r.planHash.payload))
  }

  ghost predicate ExecutionsTraced(ledger: seq<Event>) {
    forall end :: 0 <= end < |ledger| && ledger[end].Execution? ==>
      EverApproved(ledger, end, ledger[end].payload)
      && exists k :: 0 <= k < end && ledger[k] == Admitted(ledger[end].worker, ledger[end].payload)
  }

  /** A worker's copy is one the gate let through, recorded as such. */
  ghost predicate HeldOk(s: Review, worker: Id)
    requires worker in s.copies
  {
    var held := s.copies[worker];
    && Handed(held.plan, held.host, held.job, held.rollbackFailure)
    && Traced(held.plan, s.ledger)
    && EverApproved(s.ledger, |s.ledger|, PlanPayload(held.plan))
    && exists k :: 0 <= k < |s.ledger| && s.ledger[k] == Admitted(worker, PlanPayload(held.plan))
  }

  ghost predicate Sound(s: Review) {
    && Traced(s.plan, s.ledger)
    && (forall worker :: worker in s.copies ==> HeldOk(s, worker))
    && ExecutionsTraced(s.ledger)
  }

  lemma TracedLonger(r: Remediation, ledger: seq<Event>, event: Event)
    requires Traced(r, ledger)
    ensures Traced(r, ledger + [event])
  {
    var longer := ledger + [event];
    if r.approvalState == Approved {
      var i :| 0 <= i < |ledger| && PlanApprovalOf(ledger[i], r.planHash.payload);
      assert PlanApprovalOf(longer[i], r.planHash.payload);
      if r.rebootApproval == RebootApproved {
        var p, q :| 0 <= p < q < |ledger| && PlanApprovalOf(ledger[p], r.planHash.payload) &&
          RebootApprovalOf(ledger[q], r.planHash.payload);
        assert PlanApprovalOf(longer[p], r.planHash.payload) && RebootApprovalOf(longer[q], r.planHash.payload);
      }
    }
  }

  /** One more event leaves every copy recorded. */
  lemma HeldLonger(s: Review, t: Review, worker: Id, event: Event)
    requires worker in s.copies && worker in t.copies && HeldOk(s, worker)
    requires t.copies[worker] == s.copies[worker] && t.ledger == s.ledger + [event]
    ensures HeldOk(t, worker)
  {
    var held := s.copies[worker];
    hide Handed, Traced, EverApproved;
    TracedLonger(held.plan, s.ledger, event);
    EverApprovedLonger(s.ledger, |s.ledger|, PlanPayload(held.plan), event, |s.ledger| + 1);
    var k :| 0 <= k < |s.ledger| && s.ledger[k] == Admitted(worker, PlanPayload(held.plan));
    assert t.ledger[k] == s.ledger[k];
  }

  lemma ExecutionsLonger(ledger: seq<Event>, event: Event)
    requires ExecutionsTraced(ledger)
    requires event.Execution? ==>
      EverApproved(ledger, |ledger|, event.payload)
      && exists k :: 0 <= k < |ledger| && ledger[k] == Admitted(event.worker, event.payload)
    ensures ExecutionsTraced(ledger + [event])
  {
    hide EverApproved;
    var longer := ledger + [event];
    forall end | 0 <= end < |longer| && longer[end].Execution?
      ensures EverApproved(longer, end, longer[end].payload)
      ensures exists k :: 0 <= k < end && longer[k] == Admitted(longer[end].worker, longer[end].payload)
    {
      if end < |ledger| {
        assert ledger[end] == longer[end];
      }
      EverApprovedLonger(ledger, end, longer[end].payload, event, end);
      var k :| 0 <= k < end && ledger[k] == Admitted(longer[end].worker, longer[end].payload);
      assert longer[k] == ledger[k];
    }
  }

  /** An event that leaves the copies alone keeps the run sound if the plan stays traced. */
  lemma EventSound(s: Review, t: Review, event: Event)
    requires Sound(s) && t.ledger == s.ledger + [event] && t.copies == s.copies && Traced(t.plan, t.ledger)
    requires event.Execution? ==>
      EverApproved(s.ledger, |s.ledger|, event.payload)
      && exists k :: 0 <= k < |s.ledger| && s.ledger[k] == Admitted(event.worker, event.payload)
    ensures Sound(t)
  {
    hide Traced, EverApproved, HeldOk, ExecutionsTraced;
    ExecutionsLonger(s.ledger, event);
    forall worker | worker in t.copies ensures HeldOk(t, worker) {
      HeldLonger(s, t, worker, event);
    }
  }

  lemma PlanSound(s: Review, t: Review)
    requires Sound(s) && t.ledger == s.ledger && Traced(t.plan, t.ledger)
    requires forall worker :: worker in t.copies ==> worker in s.copies && t.copies[worker] == s.copies[worker]
    ensures Sound(t)
  {
    hide Traced, EverApproved, ExecutionsTraced, Handed;
    forall worker | worker in t.copies ensures HeldOk(t, worker) {
      assert HeldOk(s, worker);
    }
  }

  lemma SettleSound(s: Review, now: Time)
    requires Sound(s)
    ensures Sound(Settle(s, now))
    ensures Settle(s, now).plan.planHash == HashOf(Settle(s, now).plan) && !BindingChanged(Settle(s, now).plan)
  {
    ReconcileSettles(s.plan, now, now);
    assert !BindingChanged(Reconciled(s.plan, now));
    hide Sound, Reconciled, BindingChanged;
    if Reconciled(s.plan, now) != s.plan {
      EventSound(s, Settle(s, now), Invalidation);
    }
  }

  lemma ApprovePlanSound(s: Review, host: Host, request: ApprovalRequest, actor: string, now: Time)
    requires Sound(s) && s.plan.planHash == HashOf(s.plan) && PlanApprovalDecision(s.plan, host, request).Allow?
    ensures Sound(s.(plan := WithPlanApproval(s.plan, actor, now),
                     ledger := s.ledger + [PlanApproval(actor, request.hostname, host.name, PlanPayload(s.plan))]))
  {
    var event := PlanApproval(actor, request.hostname, host.name, PlanPayload(s.plan));
    var t := s.(plan := WithPlanApproval(s.plan, actor, now), ledger := s.ledger + [event]);
    assert PlanApprovalOf(t.ledger[|s.ledger|], PlanPayload(s.plan));
    hide Sound;
    EventSound(s, t, event);
  }

  lemma ApproveRebootSound(s: Review, host: Host, request: ApprovalRequest, actor: string, now: Time)
    requires Sound(s) && s.plan.planHash == HashOf(s.plan)
    requires RebootApprovalDecision(s.plan, host, request).Allow?
    ensures Sound(s.(plan := WithRebootApproval(s.plan, actor, now),
                     ledger := s.ledger + [RebootApproval(actor, request.hostname, host.name, PlanPayload(s.plan))]))
  {
    var event := RebootApproval(actor, request.hostname, host.name, PlanPayload(s.plan));
    var t := s.(plan := WithRebootApproval(s.plan, actor, now), ledger := s.ledger + [event]);
    var i :| 0 <= i < |s.ledger| && PlanApprovalOf(s.ledger[i], s.plan.planHash.payload);
    assert PlanApprovalOf(t.ledger[i], PlanPayload(s.plan)) &&
      RebootApprovalOf(t.ledger[|s.ledger|], PlanPayload(s.plan));
    hide Sound;
    EventSound(s, t, event);
  }

  /** What the gate lets through was approved. */
  lemma HandedWasApproved(s: Review, host: Host, job: Jobs.DurableJob, rollbackFailure: bool)
    requires Traced(s.plan, s.ledger) && Handed(s.plan, host, job, rollbackFailure)
    ensures EverApproved(s.ledger, |s.ledger|, PlanPayload(s.plan))
  {
    EligibilityExactly(s.plan, host, job, rollbackFailure);
    ApprovalExactly(s.plan, host);
    hide ExecutionEligibility, ApprovalDecision;
    if RebootRisk(s.plan) {
      var i, j :| 0 <= i < j < |s.ledger| && PlanApprovalOf(s.ledger[i], s.plan.planHash.payload)
        && RebootApprovalOf(s.ledger[j], s.plan.planHash.payload);
    }
  }

  lemma AdmitSound(s: Review, worker: Id, host: Host, job: Jobs.DurableJob, rollbackFailure: bool)
    requires Sound(s) && Handed(s.plan, host, job, rollbackFailure)
    ensures Sound(s.(copies := s.copies[worker := Admission(s.plan, host, job, rollbackFailure)],
                     ledger := s.ledger + [Admitted(worker, PlanPayload(s.plan))],
                     overtaken := s.overtaken - {worker}))
  {
    var event := Admitted(worker, PlanPayload(s.plan));
    var t := s.(copies := s.copies[worker := Admission(s.plan, host, job, rollbackFailure)],
                ledger := s.ledger + [event], overtaken := s.overtaken - {worker});
    HandedWasApproved(s, host, job, rollbackFailure);
    TracedLonger(s.plan, s.ledger, event);
    EverApprovedLonger(s.ledger, |s.ledger|, PlanPayload(s.plan), event, |t.ledger|);
    ExecutionsLonger(s.ledger, event);
    hide Handed, Traced, EverApproved, ExecutionsTraced;
    assert t.ledger[|s.ledger|] == event;
    forall w | w in t.copies ensures HeldOk(t, w) {
      if w != worker {
        HeldLonger(s, t, w, event);
      }
    }
  }

  /** A run's mark is not part of what was approved. */
  lemma MarkedKeeps(
    r: Remediation, state: ExecutionState, result: Option<ResultSummary>, now: Time,
    ledger: seq<Event>, host: Host, job: Jobs.DurableJob, rollbackFailure: bool)
    ensures var m := Marked(r, state, result, now);
      && PlanPayload(m) == PlanPayload(r) && m.planVersion == r.planVersion && m.planHash == r.planHash
      && (Traced(m, ledger) <==> Traced(r, ledger))
      && (Handed(m, host, job, rollbackFailure) <==> Handed(r, host, job, rollbackFailure))
  {
  }

  lemma HeldSame(s: Review, t: Review, worker: Id)
    requires worker in s.copies && worker in t.copies && HeldOk(s, worker)
    requires t.copies[worker] == s.copies[worker] && t.ledger == s.ledger
    ensures HeldOk(t, worker)
  {
    hide Handed, Traced, EverApproved;
  }

  lemma HeldMarked(s: Review, worker: Id, state: ExecutionState, result: Option<ResultSummary>, now: Time)
    requires worker in s.copies && HeldOk(s, worker)
    ensures var t := Apply(s, WriteBack(worker, state, result, now));
      HeldOk(t, worker) && Traced(t.plan, t.ledger)
  {
    var held := s.copies[worker];
    MarkedKeeps(held.plan, state, result, now, s.ledger, held.host, held.job, held.rollbackFailure);
    hide Handed, Traced, EverApproved, Marked;
  }

  lemma WriteBackSound(s: Review, worker: Id, state: ExecutionState, result: Option<ResultSummary>, now: Time)
    requires Sound(s) && worker in s.copies
    ensures Sound(Apply(s, WriteBack(worker, state, result, now)))
  {
    hide HeldOk, Traced, ExecutionsTraced, Marked;
    var t := Apply(s, WriteBack(worker, state, result, now));
    HeldMarked(s, worker, state, result, now);
    forall w | w in t.copies ensures HeldOk(t, w) {
      if w != worker {
        HeldSame(s, t, w);
      }
    }
  }

  lemma LaunchSound(s: Review, worker: Id)
    requires Sound(s) && worker in s.copies
    ensures Sound(s.(ledger := s.ledger + [Execution(worker, PlanPayload(s.copies[worker].plan))]))
  {
    var event := Execution(worker, PlanPayload(s.copies[worker].plan));
    assert HeldOk(s, worker);
    TracedLonger(s.plan, s.ledger, event);
    hide Sound, Handed, Traced, EverApproved;
    EventSound(s, s.(ledger := s.ledger + [event]), event);
  }

  lemma RebootRefusedTraced(
    r: Remediation, host: Host, request: ApprovalRequest, actor: string, now: Time, ledger: seq<Event>)
    requires Traced(r, ledger) && !RebootApprovalDecision(r, host, request).Allow?
    ensures Traced(AfterRebootRequest(r, host, request, actor, now), ledger)
  {
  }

  lemma StepSound(s: Review, step: Step)
    requires Sound(s)
    ensures Sound(Apply(s, step))
  {
    hide Sound, Handed, Reconciled, ExecutionEligibility, PlanApprovalDecision, RebootApprovalDecision;
    hide WithPlanApproval, AfterRebootRequest;
    match step
    case Edit(content) => EditSound(s, content);
    case Reconcile(now) => SettleSound(s, now);
    case ApprovePlanBy(host, request, actor, now) =>
      SettleSound(s, now);
      if PlanApprovalDecision(Settle(s, now).plan, host, request).Allow? {
        ApprovePlanSound(Settle(s, now), host, request, actor, now);
      }
    case ApproveRebootBy(host, request, actor, now) =>
      SettleSound(s, now);
      RebootRequestSound(Settle(s, now), host, request, actor, now);
    case RejectBy(now) => RejectSound(s, now);
    case Admit(worker, host, job, rollbackFailure, now) =>
      if Handed(s.plan, host, job, rollbackFailure) {
        AdmitSound(s, worker, host, job, rollbackFailure);
      } else {
        SettleSound(s, now);
        RefusalSound(Settle(s, now), worker, now);
      }
    case Launch(worker) =>
      if worker in s.copies {
        LaunchSound(s, worker);
      }
    case WriteBack(worker, state, result, now) =>
      if worker in s.copies {
        WriteBackSound(s, worker, state, result, now);
      }
  }

  lemma EditSound(s: Review, content: Remediation)
    requires Sound(s)
    ensures Sound(s.(plan := EditedPlan(s.plan, content)))
  {
    assert Traced(EditedPlan(s.plan, content), s.ledger);
    hide Sound, Traced;
    PlanSound(s, s.(plan := EditedPlan(s.plan, content)));
  }

  lemma RejectSound(s: Review, now: Time)
    requires Sound(s)
    ensures Sound(Apply(s, RejectBy(now)))
  {
    var t := Apply(s, RejectBy(now));
    assert Traced(t.plan, t.ledger);
    hide Sound, Traced;
    PlanSound(s, t);
  }

  lemma RefusalSound(s: Review, worker: Id, now: Time)
    requires Sound(s)
    ensures Sound(s.(plan := s.plan.(executionState := ExecBlocked, updatedAt := now),
                     copies := s.copies - {worker}, overtaken := s.overtaken - {worker}))
  {
    var t := s.(plan := s.plan.(executionState := ExecBlocked, updatedAt := now),
                copies := s.copies - {worker}, overtaken := s.overtaken - {worker});
    assert Traced(t.plan, t.ledger);
    hide Sound, Traced;
    PlanSound(s, t);
  }

  lemma RebootRequestSound(s: Review, host: Host, request: ApprovalRequest, actor: string, now: Time)
    requires Sound(s) && s.plan.planHash == HashOf(s.plan)
    ensures var event := RebootApproval(actor, request.hostname, host.name, PlanPayload(s.plan));
      var ledger := if RebootApprovalDecision(s.plan, host, request).Allow? then s.ledger + [event] else s.ledger;
      Sound(s.(plan := AfterRebootRequest(s.plan, host, request, actor, now), ledger := ledger))
  {
    var t := s.(plan := AfterRebootRequest(s.plan, host, request, actor, now));
    if RebootApprovalDecision(s.plan, host, request).Allow? {
      assert t.plan == WithRebootApproval(s.plan, actor, now);
      hide Sound, Traced, AfterRebootRequest, WithRebootApproval;
      ApproveRebootSound(s, host, request, actor, now);
    } else {
      assert Traced(s.plan, s.ledger);
      RebootRefusedTraced(s.plan, host, request, actor, now, s.ledger);
      hide Sound, Traced, AfterRebootRequest, RebootApprovalDecision;
      PlanSound(s, t);
      assert t == s.(plan := AfterRebootRequest(s.plan, host, request, actor, now), ledger := s.ledger);
    }
  }

  lemma {:induction false} RunSound(s: Review, steps: seq<Step>)
    requires Sound(s)
    ensures Sound(Run(s, steps))
    decreases |steps|
  {
    hide Sound, Apply;
    if steps != [] {
      StepSound(s, steps[0]);
      RunSound(Apply(s, steps[0]), steps[1..]);
    }
  }

  /** Approval provenance, in every run. Whatever is edited, and whatever old copies workers write back:
      a plan handed to the executor is, content and version, one that some actor who typed the host's name
      approved and the gate let this worker through with; and if it carries reboot risk, a reboot approval
      of that same plan followed. */
  lemma EveryExecutionWasApproved(r: Remediation, steps: seq<Step>, at: nat)
    requires Fresh(r) && at < |Run(Start(r), steps).ledger| && Run(Start(r), steps).ledger[at].Execution?
    ensures var ledger := Run(Start(r), steps).ledger;
      && EverApproved(ledger, at, ledger[at].payload)
      && exists k :: 0 <= k < at && ledger[k] == Admitted(ledger[at].worker, ledger[at].payload)
  {
    RunSound(Start(r), steps);
    hide Run, EverApproved;
  }

  /** No plan the gate ever lets through carries a reboot approval without carrying reboot risk: the approval
      of a reboot nobody expects is refused, and an edit that removes the risk invalidates it. */
  lemma RebootApprovalMeansRisk(r: Remediation, steps: seq<Step>, worker: Id)
    requires Fresh(r) && worker in Run(Start(r), steps).copies
    ensures var plan := Run(Start(r), steps).copies[worker].plan;
      plan.rebootApproval == RebootApproved ==> RebootRisk(plan)
  {
    RunSound(Start(r), steps);
    var end := Run(Start(r), steps);
    assert HeldOk(end, worker);
    var held := end.copies[worker];
    EligibilityExactly(held.plan, held.host, held.job, held.rollbackFailure);
    ApprovalExactly(held.plan, held.host);
    hide Run, ExecutionEligibility, ApprovalDecision, EverApproved;
  }
}
