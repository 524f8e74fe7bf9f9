/** The service's own sweep on top of the repository's: expired jobs are recovered, and a remediation job
    whose recovered phase may have touched the host is failed at once instead of being dispatched. The plans
    of all swept jobs get the state that follows, and the campaigns of the plans failed at once are stopped. */
module ServiceSweep {
  import opened Common
  import opened Jobs
  import opened LeaseProtocol
  import RemediationWorker
  import P = Plans
  import Gate

  /** The swept job is a remediation job of a known plan, and its recovery must not be dispatched. */
  predicate MustFail(job: DurableJob, known: set<Id>) {
    && job.jobType.RemediationJob?
    && job.remediationId.Some? && job.remediationId.value in known
    && !Gate.StaleRecovery(job, false).dispatch
  }

  function BlockedJobs(store: Store, known: set<Id>, now: Time): set<Id> {
    set id | id in store && Stale(store[id], now) && MustFail(Swept(store[id], now), known)
  }

  /** When every job is a remediation job of a known plan, the blocked jobs are those the worker system
      assumes. */
  lemma BlockedAsAssumed(store: Store, known: set<Id>, now: Time)
    requires forall id :: id in store ==>
      store[id].jobType.RemediationJob? && store[id].remediationId.Some? && store[id].remediationId.value in known
    ensures BlockedJobs(store, known, now) == RemediationWorker.BlockedIds(store, now)
  {
  }

  function FailedAfterSweep(job: DurableJob, now: Time): DurableJob {
    FailedJob(job, STALE_UNCERTAIN_MESSAGE, false, OtherCategory(SAFETY_VALIDATION), now)
  }

  /** The swept store once the recovered jobs in `done` have been looked at. */
  ghost function Treated(swept: Store, done: seq<DurableJob>, known: set<Id>, now: Time): Store {
    map id | id in swept ::
      if swept[id] in done && MustFail(swept[id], known) then FailedAfterSweep(swept[id], now) else swept[id]
  }

  /** The jobs that may be handed out again. */
  function Dispatchable(recovered: seq<DurableJob>, known: set<Id>): seq<DurableJob> {
    if recovered == [] then []
    else
      var last := recovered[|recovered| - 1];
      Dispatchable(recovered[..|recovered| - 1], known) + (if MustFail(last, known) then [] else [last])
  }

  // ---------------------------------------------------------------- the plans of swept jobs

  predicate OfPlan(job: DurableJob, plan: Id) {
    job.jobType.RemediationJob? && job.remediationId == Some(plan)
  }

  function PlanAfter(r: P.Remediation, job: DurableJob, exhausted: bool, now: Time): P.Remediation {
    r.(executionState := Gate.StaleRecovery(job, exhausted).remediationState, updatedAt := now)
  }

  /** The plans once a job has been looked at. */
  function PlansWith(
    plans: map<Id, P.Remediation>, job: DurableJob, exhausted: bool, now: Time): map<Id, P.Remediation>
  {
    if job.jobType.RemediationJob? && job.remediationId.Some? && job.remediationId.value in plans
    then plans[job.remediationId.value := PlanAfter(plans[job.remediationId.value], job, exhausted, now)]
    else plans
  }

  /** The plans once the jobs of one list have been looked at, in order. */
  function PlansAfter(
    plans: map<Id, P.Remediation>, jobs: seq<DurableJob>, exhausted: bool, now: Time): map<Id, P.Remediation>
  {
    if jobs == [] then plans
    else PlansWith(PlansAfter(plans, jobs[..|jobs| - 1], exhausted, now), jobs[|jobs| - 1], exhausted, now)
  }

  /** The plans whose campaigns are stopped, in order. */
  function StoppedPlans(recovered: seq<DurableJob>, known: set<Id>): seq<Id> {
    if recovered == [] then []
    else
      var last := recovered[|recovered| - 1];
      StoppedPlans(recovered[..|recovered| - 1], known)
      + (if MustFail(last, known) then [last.remediationId.value] else [])
  }

  /** Record `id` of the store is an expired job of the plan. */
  predicate StaleJobOf(store: Store, id: Id, plan: Id, now: Time) {
    id in store && Stale(store[id], now) && OfPlan(store[id], plan)
  }

  predicate OutOfAttempts(job: DurableJob) {
    job.attempts >= job.maxAttempts
  }

  ghost predicate SomeExhausted(store: Store, plan: Id, now: Time) {
    exists id :: StaleJobOf(store, id, plan, now) && OutOfAttempts(store[id])
  }

  /** The plan has the state that follows from one of its expired jobs, an exhausted one if there is any;
      without such a job it is as it was. */
  ghost predicate PlanSwept(store: Store, before: P.Remediation, after: P.Remediation, plan: Id, now: Time) {
    if forall id :: !StaleJobOf(store, id, plan, now) then after == before
    else exists id ::
      && StaleJobOf(store, id, plan, now)
      && (SomeExhausted(store, plan, now) ==> OutOfAttempts(store[id]))
      && after == PlanAfter(before, Swept(store[id], now), OutOfAttempts(store[id]), now)
  }

  /** The plan is that of an expired job with attempts left whose phase is uncertain. */
  ghost predicate MustStop(store: Store, known: set<Id>, plan: Id, now: Time) {
    exists id :: StaleJobOf(store, id, plan, now) && !OutOfAttempts(store[id]) && MustFail(Swept(store[id], now), known)
  }

  /** The result of one list, plan by plan: the last job of the plan decides. */
  lemma {:induction false} PlansAfterMeans(
    plans: map<Id, P.Remediation>, jobs: seq<DurableJob>, exhausted: bool, now: Time, plan: Id)
    requires plan in plans
    ensures var after := PlansAfter(plans, jobs, exhausted, now);
      && after.Keys == plans.Keys
      && if forall job :: job in jobs ==> !OfPlan(job, plan) then after[plan] == plans[plan]
         else exists job :: job in jobs && OfPlan(job, plan) &&
                after[plan] == PlanAfter(plans[plan], job, exhausted, now)
  {
    hide Gate.StaleRecovery;
    if jobs != [] {
      var front, last := jobs[..|jobs| - 1], jobs[|jobs| - 1];
      PlansAfterMeans(plans, front, exhausted, now, plan);
      assert jobs == front + [last];
      if OfPlan(last, plan) {
        assert last in jobs;
      }
    }
  }

  lemma {:induction false} StoppedPlansMean(recovered: seq<DurableJob>, known: set<Id>, plan: Id)
    ensures plan in StoppedPlans(recovered, known) <==>
      exists job :: job in recovered && OfPlan(job, plan) && MustFail(job, known)
  {
    hide Gate.StaleRecovery;
    if recovered != [] {
      var front, last := recovered[..|recovered| - 1], recovered[|recovered| - 1];
      StoppedPlansMean(front, known, plan);
      assert recovered == front + [last];
    }
  }

  /** Both lists together give every plan the state that `PlanSwept` describes. */
  lemma PlansSwept(
    store: Store, plans: map<Id, P.Remediation>, recovered: seq<DurableJob>, exhausted: seq<DurableJob>, now: Time,
    plan: Id)
    requires WellKeyed(store) && plan in plans
    requires SweptOnly(store, now, false, recovered) && SweptOnly(store, now, true, exhausted)
    ensures var after := PlansAfter(PlansAfter(plans, recovered, false, now), exhausted, true, now);
      after.Keys == plans.Keys && PlanSwept(store, plans[plan], after[plan], plan, now)
  {
    hide PlansAfter, SweptOnly;
    var middle := PlansAfter(plans, recovered, false, now);
    PlansAfterMeans(plans, recovered, false, now, plan);
    PlansAfterMeans(middle, exhausted, true, now, plan);
    SweptJobsOf(store, recovered, false, now, plan);
    SweptJobsOf(store, exhausted, true, now, plan);
    hide Swept, Stale, Gate.StaleRecovery;
  }

  /** The jobs of a plan in a list of the sweep are its expired records. */
  lemma SweptJobsOf(store: Store, jobs: seq<DurableJob>, exhausted: bool, now: Time, plan: Id)
    requires WellKeyed(store) && SweptOnly(store, now, exhausted, jobs)
    ensures forall job :: job in jobs && OfPlan(job, plan) ==>
      && StaleJobOf(store, job.id, plan, now) && job == Swept(store[job.id], now)
      && OutOfAttempts(store[job.id]) == exhausted
    ensures forall id :: StaleJobOf(store, id, plan, now) && OutOfAttempts(store[id]) == exhausted ==>
      Swept(store[id], now) in jobs && OfPlan(Swept(store[id], now), plan)
  {
  }

  lemma StopsSwept(store: Store, known: set<Id>, recovered: seq<DurableJob>, now: Time, plan: Id)
    requires WellKeyed(store) && SweptOnly(store, now, false, recovered)
    ensures plan in StoppedPlans(recovered, known) <==> MustStop(store, known, plan, now)
  {
    hide SweptOnly, MustFail;
    StoppedPlansMean(recovered, known, plan);
    SweptJobsOf(store, recovered, false, now, plan);
    hide Swept, Stale;
  }

  /** When the plan has one expired job only, its state is decided: blocked if the job died in an uncertain
      phase, otherwise failed if it has no attempts left, otherwise queued. Its campaigns are stopped only in
      the first case, and only while attempts are left: an exhausted job fails its plan and stops nobody. */
  lemma SweptPlanExactly(
    store: Store, before: P.Remediation, after: P.Remediation, known: set<Id>, plan: Id, id: Id, now: Time)
    requires WellKeyed(store) && plan in known && PlanSwept(store, before, after, plan, now)
    requires StaleJobOf(store, id, plan, now) && forall other :: StaleJobOf(store, other, plan, now) ==> other == id
    ensures var uncertain := Gate.Uncertain(store[id].currentPhase);
      && (after.executionState == P.ExecBlocked <==> uncertain)
      && (after.executionState == P.ExecFailed <==> !uncertain && OutOfAttempts(store[id]))
      && (after.executionState == P.ExecQueued <==> !uncertain && !OutOfAttempts(store[id]))
      && (MustStop(store, known, plan, now) <==> uncertain && !OutOfAttempts(store[id]))
      && after == before.(executionState := after.executionState, updatedAt := now)
  {
    SweptPhase(store[id], now);
    assert OfPlan(Swept(store[id], now), plan);
    hide Swept, Stale;
  }

  lemma SweptPhase(job: DurableJob, now: Time)
    ensures var swept := Swept(job, now);
      && swept.result.recoveredFromPhase == job.currentPhase && swept.jobType == job.jobType
      && swept.remediationId == job.remediationId
      && Gate.Uncertain(Gate.RecoveredPhase(swept)) == Gate.Uncertain(job.currentPhase)
  {
  }

  // ---------------------------------------------------------------- the sweep

  /** The part of both loops that is about remediation jobs: the plan is saved in the state that follows. */
  method RecoverPlan(plans: map<Id, P.Remediation>, job: DurableJob, exhausted: bool, now: Time)
    returns (updated: map<Id, P.Remediation>, dispatch: bool)
    ensures updated == PlansWith(plans, job, exhausted, now)
    ensures !exhausted ==> (dispatch <==> !MustFail(job, plans.Keys))
  {
    updated, dispatch := plans, true;
    if job.jobType.RemediationJob? && job.remediationId.Some? && job.remediationId.value in plans {
      var recovery := Gate.StaleRecovery(job, exhausted);
      var remediation := plans[job.remediationId.value];
      remediation := remediation.(executionState := recovery.remediationState, updatedAt := now);
      updated := updated[job.remediationId.value := remediation];
      dispatch := recovery.dispatch;
    }
  }

  /** Scans and snapshot deletions follow their jobs in the same way; they are not part of this model. */
  method RecoverExpiredJobs(repository: InMemoryRepository, plans: map<Id, P.Remediation>, now: Time)
    returns (dispatchable: seq<DurableJob>, updated: map<Id, P.Remediation>, stopped: seq<Id>)
    requires repository.Valid()
    modifies repository
    ensures repository.Valid()
    ensures repository.jobs
      == RecoverStore(old(repository.jobs), BlockedJobs(old(repository.jobs), plans.Keys, now), now)
    ensures forall job :: job in dispatchable <==>
      && job.id in old(repository.jobs) && Stale(old(repository.jobs)[job.id], now)
      && job == Swept(old(repository.jobs)[job.id], now) && job.attempts < job.maxAttempts && !MustFail(job, plans.Keys)
    ensures updated.Keys == plans.Keys
    ensures forall plan :: plan in plans ==> PlanSwept(old(repository.jobs), plans[plan], updated[plan], plan, now)
    ensures forall plan :: plan in stopped <==> MustStop(old(repository.jobs), plans.Keys, plan, now)
  {
    hide Swept, SweepStore, RecoverStore, Treated, SweptOnly, Stale, BlockedJobs, PlanSwept, MustStop;
    hide Gate.StaleRecovery;
    ghost var store := repository.jobs;
    var known := plans.Keys;
    var recovered, exhausted := repository.RecoverExpiredJobs(now);
    ghost var swept := repository.jobs;
    RecoveredMeans(store, recovered, now);
    NothingTreated(swept, known, now);
    dispatchable, updated, stopped := [], plans, [];
    assert recovered[..0] == [];
    for i := 0 to |recovered|
      invariant repository.Valid()
      invariant repository.jobs == Treated(swept, recovered[..i], known, now)
      invariant dispatchable == Dispatchable(recovered[..i], known)
      invariant updated == PlansAfter(plans, recovered[..i], false, now) && updated.Keys == known
      invariant stopped == StoppedPlans(recovered[..i], known)
    {
      var job := recovered[i];
      assert recovered[..i + 1] == recovered[..i] + [job];
      assert job in recovered;
      TreatedNext(swept, recovered, i, known, now);
      var dispatch;
      updated, dispatch := RecoverPlan(updated, job, false, now);
      if !dispatch {
        var saved := repository.SaveJob(FailedAfterSweep(job, now), None);
        stopped := stopped + [job.remediationId.value];
        continue;
      }
      dispatchable := dispatchable + [job];
    }
    assert recovered[..|recovered|] == recovered;
    updated := FailExhaustedPlans(updated, exhausted, now);
    SweepMeans(store, plans, recovered, exhausted, now);
  }

  /** The second loop of the sweep, over the jobs that have no attempts left. */
  method FailExhaustedPlans(plans: map<Id, P.Remediation>, exhausted: seq<DurableJob>, now: Time)
    returns (updated: map<Id, P.Remediation>)
    ensures updated == PlansAfter(plans, exhausted, true, now)
  {
    hide Gate.StaleRecovery;
    updated := plans;
    for i := 0 to |exhausted|
      invariant updated == PlansAfter(plans, exhausted[..i], true, now)
    {
      var job := exhausted[i];
      assert exhausted[..i + 1] == exhausted[..i] + [job];
      var dispatch;
      updated, dispatch := RecoverPlan(updated, job, true, now);
    }
    assert exhausted[..|exhausted|] == exhausted;
  }

  /** What the two loops compute, in terms of the store before. */
  lemma SweepMeans(
    store: Store, plans: map<Id, P.Remediation>, recovered: seq<DurableJob>, exhausted: seq<DurableJob>, now: Time)
    requires WellKeyed(store) && SweptOnly(store, now, false, recovered) && SweptOnly(store, now, true, exhausted)
    ensures Treated(SweepStore(store, now), recovered, plans.Keys, now)
         == RecoverStore(store, BlockedJobs(store, plans.Keys, now), now)
    ensures forall job :: job in Dispatchable(recovered, plans.Keys) <==>
      && job.id in store && Stale(store[job.id], now) && job == Swept(store[job.id], now)
      && job.attempts < job.maxAttempts && !MustFail(job, plans.Keys)
    ensures var updated := PlansAfter(PlansAfter(plans, recovered, false, now), exhausted, true, now);
      updated.Keys == plans.Keys &&
        forall plan :: plan in plans ==> PlanSwept(store, plans[plan], updated[plan], plan, now)
    ensures forall plan :: plan in StoppedPlans(recovered, plans.Keys) <==> MustStop(store, plans.Keys, plan, now)
  {
    hide Swept, SweepStore, RecoverStore, Treated, SweptOnly, Stale, BlockedJobs, PlanSwept, MustStop, MustFail;
    hide PlansAfter, StoppedPlans, Dispatchable;
    var known := plans.Keys;
    TreatedAll(store, recovered, known, now);
    DispatchableMeans(recovered, known);
    RecoveredMeans(store, recovered, now);
    PlansKeep(plans, recovered, false, now);
    PlansKeep(PlansAfter(plans, recovered, false, now), exhausted, true, now);
    var updated := PlansAfter(PlansAfter(plans, recovered, false, now), exhausted, true, now);
    forall plan | plan in plans ensures PlanSwept(store, plans[plan], updated[plan], plan, now) {
      PlansSwept(store, plans, recovered, exhausted, now, plan);
    }
    forall plan ensures plan in StoppedPlans(recovered, known) <==> MustStop(store, known, plan, now) {
      StopsSwept(store, known, recovered, now, plan);
    }
  }

  lemma {:induction false} PlansKeep(plans: map<Id, P.Remediation>, jobs: seq<DurableJob>, exhausted: bool, now: Time)
    ensures PlansAfter(plans, jobs, exhausted, now).Keys == plans.Keys
  {
    if jobs != [] {
      PlansKeep(plans, jobs[..|jobs| - 1], exhausted, now);
    }
  }

  /** The recovered jobs are stored as they were handed back, and have attempts left. */
  lemma RecoveredMeans(store: Store, recovered: seq<DurableJob>, now: Time)
    requires WellKeyed(store) && SweptOnly(store, now, false, recovered)
    ensures WellKeyed(SweepStore(store, now))
    ensures forall job :: job in recovered ==> job.id in SweepStore(store, now) && SweepStore(store, now)[job.id] == job
    ensures forall job :: job in recovered <==>
      job.id in store && Stale(store[job.id], now) && job == Swept(store[job.id], now) && job.attempts < job.maxAttempts
  {
  }

  lemma NothingTreated(swept: Store, known: set<Id>, now: Time)
    ensures Treated(swept, [], known, now) == swept
  {
  }

  lemma TreatedNext(swept: Store, recovered: seq<DurableJob>, i: nat, known: set<Id>, now: Time)
    requires i < |recovered| && WellKeyed(swept)
    requires recovered[i].id in swept && swept[recovered[i].id] == recovered[i]
    ensures Treated(swept, recovered[..i + 1], known, now) ==
      if MustFail(recovered[i], known)
      then Treated(swept, recovered[..i], known, now)[recovered[i].id := FailedAfterSweep(recovered[i], now)]
      else Treated(swept, recovered[..i], known, now)
  {
    assert recovered[..i + 1] == recovered[..i] + [recovered[i]];
    hide MustFail, FailedAfterSweep;
  }

  lemma TreatedAll(store: Store, recovered: seq<DurableJob>, known: set<Id>, now: Time)
    requires WellKeyed(store) && SweptOnly(store, now, false, recovered)
    ensures Treated(SweepStore(store, now), recovered, known, now)
      == RecoverStore(store, BlockedJobs(store, known, now), now)
  {
    var swept := SweepStore(store, now);
    forall id | id in store
      ensures Treated(swept, recovered, known, now)[id] == RecoverStore(store, BlockedJobs(store, known, now), now)[id]
    {
      assert swept[id].id == id;
      if Stale(store[id], now) {
        assert Swept(store[id], now) in recovered <==> store[id].attempts < store[id].maxAttempts;
      }
    }
  }

  lemma {:induction false} DispatchableMeans(recovered: seq<DurableJob>, known: set<Id>)
    ensures forall job :: job in Dispatchable(recovered, known) <==> job in recovered && !MustFail(job, known)
  {
    hide MustFail;
    if recovered != [] {
      DispatchableMeans(recovered[..|recovered| - 1], known);
      assert recovered == recovered[..|recovered| - 1] + [recovered[|recovered| - 1]];
    }
  }
}
