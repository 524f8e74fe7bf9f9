/** One run of the Ansible executor: the entry checks, the playbooks in order, and what the result tells
    the service. A playbook run is an oracle: it succeeds or fails and emits events. */
module Executor {
  import opened Common
  import opened Plans
  import opened Gate
  import Samples

  datatype Playbook =
    | PrePatchCheck
    | PackageUpgradePlay
    | RebootRequiredCheck
    | RebootPlay
    | PostPatchValidation
    | RecoveryPlay

  datatype LogEvent = LogEvent(changed: bool, saysRebootRequired: bool)

  datatype PlaybookRun = PlaybookRun(success: bool, events: seq<LogEvent>)

  datatype PhaseRecord = PhaseRecord(playbook: Playbook, succeeded: bool, changed: bool)

  /** The phases a run can be stopped after; the guard before the reboot counts as one. */
  datatype Summary =
    | GuardRefused(decision: GateDecision)
    | HostKeyUnconfirmed
    | HostKeyChanged
    | StoppedAfter(playbook: Playbook)
    | WorkflowCompleted

  /** `phases` lists every playbook that was started, in order. */
  datatype ExecutionResult = ExecutionResult(
    success: bool,
    summary: Summary,
    changed: bool,
    rebootPerformed: bool,
    phases: seq<PhaseRecord>,
    events: seq<LogEvent>)

  const OPENING := [PrePatchCheck, PackageUpgradePlay, RebootRequiredCheck]

  type Oracle = Playbook -> PlaybookRun

  // ---------------------------------------------------------------- the specification

  predicate AnyChanged(events: seq<LogEvent>) {
    exists i :: 0 <= i < |events| && events[i].changed
  }

  predicate AnySaysReboot(events: seq<LogEvent>) {
    exists i :: 0 <= i < |events| && events[i].saysRebootRequired
  }

  /** The entry checks: nothing is started unless they pass. */
  function Admission(host: Host, r: Remediation, observedKey: string): Option<Summary> {
    var guard := ExecutionEligibility(r, host, None, false);
    if !guard.Allow? then Some(GuardRefused(guard))
    else if !Present(host.hostKey) then Some(HostKeyUnconfirmed)
    else if Some(observedKey) != host.hostKey then Some(HostKeyChanged)
    else None
  }

  /** The playbooks up to the first that fails, that one included. */
  function UpToFailure(run: Oracle, playbooks: seq<Playbook>): seq<Playbook> {
    if playbooks == [] then []
    else if !run(playbooks[0]).success then [playbooks[0]]
    else [playbooks[0]] + UpToFailure(run, playbooks[1..])
  }

  function EventsOf(run: Oracle, playbooks: seq<Playbook>): seq<LogEvent> {
    if playbooks == [] then [] else EventsOf(run, playbooks[..|playbooks| - 1]) + run(playbooks[|playbooks| - 1]).events
  }

  predicate AllSucceed(run: Oracle, playbooks: seq<Playbook>) {
    forall i :: 0 <= i < |playbooks| ==> run(playbooks[i]).success
  }

  predicate RebootNeeded(r: Remediation, run: Oracle) {
    AnySaysReboot(EventsOf(run, OPENING)) || r.reboot.status == RebootRequired
  }

  /** The whole workflow for a plan: the opening playbooks, the reboot if one is needed, the validation. */
  function Workflow(r: Remediation, run: Oracle): seq<Playbook> {
    OPENING + (if AllSucceed(run, OPENING) && RebootNeeded(r, run) then [RebootPlay] else []) + [PostPatchValidation]
  }

  /** The playbooks an admitted run starts: the workflow up to the first failure, then the diagnostics. */
  function Launched(r: Remediation, run: Oracle): seq<Playbook> {
    var ran := UpToFailure(run, Workflow(r, run));
    if AllSucceed(run, ran) then ran else ran + [RecoveryPlay]
  }

  function Names(phases: seq<PhaseRecord>): seq<Playbook> {
    seq(|phases|, i requires 0 <= i < |phases| => phases[i].playbook)
  }

  // ---------------------------------------------------------------- facts about the specification

  lemma {:induction false} StopsAt(run: Oracle, playbooks: seq<Playbook>, n: nat)
    requires n <= |playbooks| && AllSucceed(run, playbooks[..n])
    requires n < |playbooks| ==> !run(playbooks[n]).success
    ensures UpToFailure(run, playbooks) == if n < |playbooks| then playbooks[..n + 1] else playbooks
  {
    if n > 0 {
      assert playbooks[..n][0] == playbooks[0];
      assert playbooks[1..][..n - 1] == playbooks[..n][1..];
      StopsAt(run, playbooks[1..], n - 1);
    }
  }

  lemma EventsExtend(run: Oracle, playbooks: seq<Playbook>, next: Playbook)
    ensures EventsOf(run, playbooks + [next]) == EventsOf(run, playbooks) + run(next).events
  {
    assert (playbooks + [next])[..|playbooks|] == playbooks;
  }

  lemma AnyChangedSplits(a: seq<LogEvent>, b: seq<LogEvent>)
    ensures AnyChanged(a + b) <==> AnyChanged(a) || AnyChanged(b)
  {
    if AnyChanged(a) {
      var i :| 0 <= i < |a| && a[i].changed;
      assert (a + b)[i].changed;
    }
    if AnyChanged(b) {
      var i :| 0 <= i < |b| && b[i].changed;
      assert (a + b)[|a| + i].changed;
    }
  }

  /** The workflow stops at its `n`-th playbook: what is launched. */
  lemma LaunchedWhenStopped(r: Remediation, run: Oracle, n: nat)
    requires n < |Workflow(r, run)| && AllSucceed(run, Workflow(r, run)[..n]) && !run(Workflow(r, run)[n]).success
    ensures Launched(r, run) == Workflow(r, run)[..n + 1] + [RecoveryPlay] && !AllSucceed(run, Workflow(r, run))
  {
    StopsAt(run, Workflow(r, run), n);
    assert Workflow(r, run)[..n + 1][n] == Workflow(r, run)[n];
  }

  lemma LaunchedWhenCompleted(r: Remediation, run: Oracle)
    requires AllSucceed(run, Workflow(r, run))
    ensures Launched(r, run) == Workflow(r, run)
  {
    var all := Workflow(r, run);
    assert all[..|all|] == all;
    StopsAt(run, all, |all|);
  }

  // ---------------------------------------------------------------- the run

  method Failure(run: Oracle, phases: seq<PhaseRecord>, events: seq<LogEvent>, changed: bool, failed: Playbook)
    returns (result: ExecutionResult)
    ensures result == ExecutionResult(
      false, StoppedAfter(failed), changed, false,
      phases + [PhaseRecord(RecoveryPlay, run(RecoveryPlay).success, false)], events + run(RecoveryPlay).events)
  {
    var outcome := run(RecoveryPlay);
    var allEvents := events + outcome.events;
    var allPhases := phases + [PhaseRecord(RecoveryPlay, outcome.success, false)];
    result := ExecutionResult(false, StoppedAfter(failed), changed, false, allPhases, allEvents);
  }

  /** The eligibility the entry check granted implies what the guard before the reboot asks. */
  lemma RebootGuardPasses(host: Host, r: Remediation)
    requires ExecutionEligibility(r, host, None, false).Allow?
    ensures RebootExecutionEligibility(r, host, true).Allow?
  {
  }

  /** A phase record says whether its playbook succeeded and, for the opening playbooks, whether it
      reported a change; a reboot counts as a change when it succeeds, and the rest never does. */
  ghost predicate Faithful(run: Oracle, phase: PhaseRecord) {
    && phase.succeeded == run(phase.playbook).success
    && phase.changed ==
       if phase.playbook.RebootPlay? then phase.succeeded
       else phase.playbook in OPENING && AnyChanged(run(phase.playbook).events)
  }

  /** The phases and events so far are those of the playbooks `ran`. */
  ghost predicate Records(run: Oracle, ran: seq<Playbook>, phases: seq<PhaseRecord>, events: seq<LogEvent>) {
    && Names(phases) == ran
    && (forall i :: 0 <= i < |phases| ==> Faithful(run, phases[i]))
    && events == EventsOf(run, ran)
  }

  lemma RecordsExtend(
    run: Oracle, ran: seq<Playbook>, phases: seq<PhaseRecord>, events: seq<LogEvent>, next: PhaseRecord)
    requires Records(run, ran, phases, events) && Faithful(run, next)
    ensures Records(run, ran + [next.playbook], phases + [next], events + run(next.playbook).events)
  {
    EventsExtend(run, ran, next.playbook);
    assert Names(phases + [next]) == Names(phases) + [next.playbook];
  }

  /** The opening loop. The guard in the middle of it cannot fire: it asks again what the entry check has
      just answered. */
  method RunOpening(host: Host, r: Remediation, run: Oracle)
    returns (phases: seq<PhaseRecord>, events: seq<LogEvent>, changed: bool, failed: Option<Playbook>)
    requires ExecutionEligibility(r, host, None, false).Allow?
    ensures failed.None? ==> AllSucceed(run, OPENING) && Records(run, OPENING, phases, events)
    ensures failed.Some? ==>
      exists n: nat :: n < |OPENING| && OPENING[n] == failed.value && !run(failed.value).success
        && AllSucceed(run, OPENING[..n]) && Records(run, OPENING[..n + 1], phases, events)
    ensures changed <==> AnyChanged(events)
  {
    phases, events, changed, failed := [], [], false, None;
    for i := 0 to |OPENING|
      invariant AllSucceed(run, OPENING[..i])
      invariant Records(run, OPENING[..i], phases, events)
      invariant changed <==> AnyChanged(events)
      invariant failed.None?
    {
      var playbook := OPENING[i];
      if playbook == PackageUpgradePlay {
        var mutationGuard := ExecutionEligibility(r, host, None, false);
        if !mutationGuard.Allow? {
          assert false;
        }
      }
      var outcome := run(playbook);
      var phaseChanged := AnyChanged(outcome.events);
      RecordsExtend(run, OPENING[..i], phases, events, PhaseRecord(playbook, outcome.success, phaseChanged));
      AnyChangedSplits(events, outcome.events);
      assert OPENING[..i + 1] == OPENING[..i] + [playbook];
      events := events + outcome.events;
      phases := phases + [PhaseRecord(playbook, outcome.success, phaseChanged)];
      changed := changed || phaseChanged;
      if !outcome.success {
        failed := Some(playbook);
        return;
      }
    }
    assert OPENING[..|OPENING|] == OPENING;
  }

  /** The outcome of an admitted run. */
  ghost predicate Reports(r: Remediation, run: Oracle, result: ExecutionResult) {
    var launched := Launched(r, run);
    && Records(run, launched, result.phases, result.events)
    && (result.success <==> AllSucceed(run, Workflow(r, run)))
    && (result.changed <==> RebootPlay in launched || AnyChanged(EventsOf(run, UpToFailure(run, OPENING))))
    && (result.rebootPerformed <==> result.success && RebootPlay in launched)
    && (result.success ==> result.summary == WorkflowCompleted)
    && (!result.success ==> |launched| >= 2 && result.summary == StoppedAfter(launched[|launched| - 2]))
  }

  lemma OpeningStopped(r: Remediation, run: Oracle, n: nat)
    requires n < |OPENING| && AllSucceed(run, OPENING[..n]) && !run(OPENING[n]).success
    ensures Launched(r, run) == OPENING[..n + 1] + [RecoveryPlay] && !AllSucceed(run, Workflow(r, run))
    ensures UpToFailure(run, OPENING) == OPENING[..n + 1] && RebootPlay !in Launched(r, run)
  {
    var all := Workflow(r, run);
    assert all[..n] == OPENING[..n] && all[..n + 1] == OPENING[..n + 1] && all[n] == OPENING[n];
    LaunchedWhenStopped(r, run, n);
    StopsAt(run, OPENING, n);
  }

  lemma OpeningCompleted(r: Remediation, run: Oracle)
    requires AllSucceed(run, OPENING)
    ensures UpToFailure(run, OPENING) == OPENING
    ensures Workflow(r, run) ==
      if RebootNeeded(r, run) then OPENING + [RebootPlay, PostPatchValidation] else OPENING + [PostPatchValidation]
  {
    assert OPENING[..3] == OPENING;
    StopsAt(run, OPENING, 3);
  }

  /** The workflow past its opening. */
  lemma LaunchedAfter(r: Remediation, run: Oracle, ran: seq<Playbook>)
    requires AllSucceed(run, OPENING) && |ran| > |OPENING| && ran <= Workflow(r, run)
    requires AllSucceed(run, ran[..|ran| - 1])
    requires run(ran[|ran| - 1]).success ==> ran == Workflow(r, run)
    ensures Launched(r, run) == if run(ran[|ran| - 1]).success then ran else ran + [RecoveryPlay]
    ensures AllSucceed(run, Workflow(r, run)) <==> run(ran[|ran| - 1]).success
  {
    var all, n := Workflow(r, run), |ran| - 1;
    assert all[..n] == ran[..n] && all[..n + 1] == ran && all[n] == ran[n];
    if run(ran[n]).success {
      forall i | 0 <= i < |all| ensures run(all[i]).success {
        if i < n {
          assert all[i] == ran[..n][i];
        }
      }
      LaunchedWhenCompleted(r, run);
    } else {
      LaunchedWhenStopped(r, run, n);
    }
  }

  lemma RecordsEvents(run: Oracle, ran: seq<Playbook>, phases: seq<PhaseRecord>, events: seq<LogEvent>)
    requires Records(run, ran, phases, events)
    ensures events == EventsOf(run, ran)
  {
  }

  lemma OneSucceeds(run: Oracle, ran: seq<Playbook>, next: Playbook)
    requires AllSucceed(run, ran) && run(next).success
    ensures AllSucceed(run, ran + [next])
  {
  }

  /** What follows the opening: the reboot if one is needed, then the validation. The guard before the
      reboot cannot fire either. */
  method RunClosing(
    host: Host, r: Remediation, run: Oracle, opening: seq<PhaseRecord>, openingEvents: seq<LogEvent>,
    openingChanged: bool)
    returns (result: ExecutionResult)
    requires ExecutionEligibility(r, host, None, false).Allow?
    requires AllSucceed(run, OPENING) && Records(run, OPENING, opening, openingEvents)
    requires openingChanged <==> AnyChanged(openingEvents)
    ensures Reports(r, run, result)
  {
    hide ExecutionEligibility, Records, Launched, AllSucceed, RebootExecutionEligibility, Workflow, EventsOf;
    hide UpToFailure;
    var phases, events, changed, rebootPerformed := opening, openingEvents, openingChanged, false;
    assert openingEvents == EventsOf(run, OPENING) by { RecordsEvents(run, OPENING, opening, openingEvents); }
    OpeningCompleted(r, run);
    ghost var ran := OPENING;
    var rebootRequired := AnySaysReboot(events) || r.reboot.status == RebootRequired;
    if rebootRequired {
      RebootGuardPasses(host, r);
      var rebootDecision := RebootExecutionEligibility(r, host, true);
      if !rebootDecision.Allow? {
        assert false;
      }
      var outcome := run(RebootPlay);
      RecordsExtend(run, ran, phases, events, PhaseRecord(RebootPlay, outcome.success, outcome.success));
      ran := ran + [RebootPlay];
      events := events + outcome.events;
      phases := phases + [PhaseRecord(RebootPlay, outcome.success, outcome.success)];
      changed := true;
      rebootPerformed := outcome.success;
      if !outcome.success {
        result := Failure(run, phases, events, changed, RebootPlay);
        LaunchedAfter(r, run, ran);
        RecordsExtend(run, ran, phases, events, result.phases[|phases|]);
        return;
      }
      OneSucceeds(run, OPENING, RebootPlay);
    }
    var outcome := run(PostPatchValidation);
    RecordsExtend(run, ran, phases, events, PhaseRecord(PostPatchValidation, outcome.success, false));
    ran := ran + [PostPatchValidation];
    events := events + outcome.events;
    phases := phases + [PhaseRecord(PostPatchValidation, outcome.success, false)];
    LaunchedAfter(r, run, ran);
    if !outcome.success {
      result := Failure(run, phases, events, changed, PostPatchValidation);
      RecordsExtend(run, ran, phases, events, result.phases[|phases|]);
      return;
    }
    result := ExecutionResult(true, WorkflowCompleted, changed, rebootPerformed, phases, events);
  }

  method Execute(host: Host, r: Remediation, observedKey: string, run: Oracle) returns (result: ExecutionResult)
    ensures Admission(host, r, observedKey).Some? ==>
      result == ExecutionResult(false, Admission(host, r, observedKey).value, false, false, [], [])
    ensures Admission(host, r, observedKey).None? ==> Reports(r, run, result)
  {
    hide ExecutionEligibility, Records, Launched, AllSucceed, Workflow, EventsOf, UpToFailure;
    var guard := ExecutionEligibility(r, host, None, false);
    if !guard.Allow? {
      return ExecutionResult(false, GuardRefused(guard), false, false, [], []);
    }
    if !Present(host.hostKey) {
      return ExecutionResult(false, HostKeyUnconfirmed, false, false, [], []);
    }
    if Some(observedKey) != host.hostKey {
      return ExecutionResult(false, HostKeyChanged, false, false, [], []);
    }
    var phases, events, changed, failed := RunOpening(host, r, run);
    if failed.Some? {
      result := Failure(run, phases, events, changed, failed.value);
      ghost var n: nat :| n < |OPENING| && OPENING[n] == failed.value && !run(failed.value).success
        && AllSucceed(run, OPENING[..n]) && Records(run, OPENING[..n + 1], phases, events);
      OpeningStopped(r, run, n);
      RecordsEvents(run, OPENING[..n + 1], phases, events);
      RecordsExtend(run, OPENING[..n + 1], phases, events, result.phases[|phases|]);
      return;
    }
    result := RunClosing(host, r, run, phases, events, changed);
  }

  // ---------------------------------------------------------------- what the result is worth

  /** A run succeeds exactly if its whole workflow does, and then its phases are the workflow itself: check,
      upgrade, reboot check, a reboot if and only if one is needed, validation, all of them succeeded. */
  lemma SuccessIsTheWholeWorkflow(r: Remediation, run: Oracle, result: ExecutionResult)
    requires Reports(r, run, result)
    ensures result.success <==>
      Names(result.phases) == Workflow(r, run) && forall i :: 0 <= i < |result.phases| ==> result.phases[i].succeeded
    ensures result.success ==>
      Names(result.phases) == OPENING + (if RebootNeeded(r, run) then [RebootPlay] else []) + [PostPatchValidation]
  {
    var all, launched := Workflow(r, run), Launched(r, run);
    if result.success {
      LaunchedWhenCompleted(r, run);
      forall i | 0 <= i < |result.phases| ensures result.phases[i].succeeded {
        assert Faithful(run, result.phases[i]) && Names(result.phases)[i] == all[i];
      }
      OpeningOfAll(r, run);
      OpeningCompleted(r, run);
    } else if Names(result.phases) == all && forall i :: 0 <= i < |result.phases| ==> result.phases[i].succeeded {
      forall i | 0 <= i < |all| ensures run(all[i]).success {
        assert Names(result.phases)[i] == all[i] && Faithful(run, result.phases[i]);
      }
    }
  }

  lemma OpeningOfAll(r: Remediation, run: Oracle)
    requires AllSucceed(run, Workflow(r, run))
    ensures AllSucceed(run, OPENING)
  {
    forall i | 0 <= i < |OPENING| ensures run(OPENING[i]).success {
      assert Workflow(r, run)[i] == OPENING[i];
    }
  }

  /** What counts as a change: a started reboot, or a change event of one of the first three playbooks. */
  predicate TouchedHost(r: Remediation, run: Oracle) {
    RebootPlay in Launched(r, run) || AnyChanged(EventsOf(run, UpToFailure(run, OPENING)))
  }

  /** A run is tried again exactly if it failed without a change event from the first three playbooks and
      without a reboot ever started, no rollback snapshot stands or was used, and the summary is of a kind
      worth retrying. */
  lemma RetryExactly(
    r: Remediation, run: Oracle, result: ExecutionResult, worthRetrying: Summary -> bool,
    snapshot: Option<SnapshotState>)
    requires Reports(r, run, result)
    ensures var outcome := OutcomeOf(result.success, result.changed, !worthRetrying(result.summary), snapshot);
      && (outcome.jobRequeued <==> outcome.decision.Deny? && outcome.decision.retryable)
      && (outcome.jobRequeued <==>
           && !AllSucceed(run, Workflow(r, run))
           && !TouchedHost(r, run)
           && (snapshot.None? || snapshot.value in {SnapshotCreating, DeleteScheduled})
           && worthRetrying(result.summary))
  {
    if snapshot.Some? {
      match snapshot.value case SnapshotCreating => case _ =>
    }
  }

  /** A reboot starts exactly if the opening succeeded and a reboot is needed. */
  lemma RebootStartsExactly(r: Remediation, run: Oracle)
    ensures RebootPlay in Launched(r, run) <==> AllSucceed(run, OPENING) && RebootNeeded(r, run)
  {
    if AllSucceed(run, OPENING) {
      OpeningCompleted(r, run);
      var all := Workflow(r, run);
      assert all[3] == if RebootNeeded(r, run) then RebootPlay else PostPatchValidation;
      if !RebootNeeded(r, run) {
        LaunchedAfter(r, run, all);
      } else if !run(RebootPlay).success {
        LaunchedAfter(r, run, all[..4]);
        assert Launched(r, run)[3] == RebootPlay;
      } else {
        assert all[..4] == OPENING + [RebootPlay];
        LaunchedAfter(r, run, all);
        assert Launched(r, run)[3] == RebootPlay;
      }
    } else {
      var n: nat := FirstFailure(run, OPENING);
      OpeningStopped(r, run, n);
    }
  }

  lemma {:induction false} FirstFailure(run: Oracle, playbooks: seq<Playbook>) returns (n: nat)
    requires !AllSucceed(run, playbooks)
    ensures n < |playbooks| && !run(playbooks[n]).success && AllSucceed(run, playbooks[..n])
  {
    if !run(playbooks[0]).success {
      n := 0;
    } else {
      assert playbooks == [playbooks[0]] + playbooks[1..];
      n := FirstFailure(run, playbooks[1..]);
      assert playbooks[..n + 1] == [playbooks[0]] + playbooks[1..][..n];
      n := n + 1;
    }
  }

  predicate RebootApprovedFor(host: Host, r: Remediation) {
    r.rebootApproval == Plans.RebootApproved && r.rebootApprovedPlanHash == Some(HashOf(r)) && !host.neverReboot
  }

  /** Without an approval of its reboot on a host that permits it, an admitted plan is rebooted exactly if it
      said that no reboot was expected and the opening playbooks report that one is required. In particular that
      is so whenever its reboot approval was never granted. */
  lemma RebootWithoutApprovalExactly(host: Host, r: Remediation, observedKey: string, run: Oracle)
    requires Admission(host, r, observedKey).None?
    ensures !RebootApprovedFor(host, r) ==>
      (RebootPlay in Launched(r, run) <==>
        r.reboot.status == RebootNotExpected && AllSucceed(run, OPENING) && AnySaysReboot(EventsOf(run, OPENING)))
  {
    RebootStartsExactly(r, run);
    ApprovalExactly(r, host);
    hide ApprovalDecision, Launched, EventsOf, AllSucceed, AnySaysReboot;
  }

  /** Everything succeeds, and the reboot check reports that a reboot is required. */
  function ReportsReboot(playbook: Playbook): PlaybookRun {
    PlaybookRun(true, if playbook == RebootRequiredCheck then [LogEvent(false, true)] else [])
  }

  /** The same, but the validation after the reboot fails. */
  function FailsAfterReboot(playbook: Playbook): PlaybookRun {
    PlaybookRun(playbook != PostPatchValidation,
                if playbook == RebootRequiredCheck then [LogEvent(false, true)] else [])
  }

  lemma OpeningReportsReboot(run: Oracle)
    requires forall playbook ::
               run(playbook).events == if playbook == RebootRequiredCheck then [LogEvent(false, true)] else []
    ensures AnySaysReboot(EventsOf(run, OPENING))
  {
    EventsExtend(run, [], PrePatchCheck);
    EventsExtend(run, [PrePatchCheck], PackageUpgradePlay);
    EventsExtend(run, [PrePatchCheck, PackageUpgradePlay], RebootRequiredCheck);
    assert [] + [PrePatchCheck] == [PrePatchCheck] &&
      [PrePatchCheck] + [PackageUpgradePlay] == [PrePatchCheck, PackageUpgradePlay];
    assert [PrePatchCheck, PackageUpgradePlay] + [RebootRequiredCheck] == OPENING;
    assert EventsOf(run, OPENING) == [LogEvent(false, true)];
    assert EventsOf(run, OPENING)[0].saysRebootRequired;
  }

  /** A concrete one: a host whose policy forbids reboots, an approved plan that expects none and carries no
      reboot approval, and an admitted run that reboots the host. */
  lemma ForbiddenRebootStarts()
    ensures var host, r := Samples.Machine("host", true), Samples.ApprovedPlan("plan", "host");
      && host.neverReboot && r.rebootApproval != Plans.RebootApproved && !RebootApprovedFor(host, r)
      && Admission(host, r, "key").None? && RebootPlay in Launched(r, ReportsReboot)
  {
    var host, r := Samples.Machine("host", true), Samples.ApprovedPlan("plan", "host");
    assert host.neverReboot && r.rebootApproval != Plans.RebootApproved;
    Samples.ApprovedPlanIsAllowed("plan", "host", true);
    OpeningReportsReboot(ReportsReboot);
    RebootStartsExactly(r, ReportsReboot);
    hide ExecutionEligibility, Samples.ApprovedPlan, Launched, EventsOf, AnySaysReboot;
  }

  /** The result says that a reboot was performed exactly if the whole run succeeded with one. A reboot that
      succeeded before a failed validation is reported as not performed. */
  lemma RebootUnderreportedExactly(r: Remediation, run: Oracle, result: ExecutionResult)
    requires Reports(r, run, result)
    ensures RebootPlay in Launched(r, run) && run(RebootPlay).success && !result.rebootPerformed <==>
      AllSucceed(run, OPENING) && RebootNeeded(r, run) && run(RebootPlay).success && !run(PostPatchValidation).success
  {
    RebootStartsExactly(r, run);
    if AllSucceed(run, OPENING) && RebootNeeded(r, run) && run(RebootPlay).success {
      OpeningCompleted(r, run);
      var all := Workflow(r, run);
      assert all[..4] == OPENING + [RebootPlay];
      LaunchedAfter(r, run, all);
    }
  }

  /** A concrete one, for any plan: the reboot is reported as required and succeeds, the validation fails, and
      the result denies the reboot. */
  lemma RebootDenied(r: Remediation, result: ExecutionResult)
    requires Reports(r, FailsAfterReboot, result)
    ensures RebootPlay in Launched(r, FailsAfterReboot) && FailsAfterReboot(RebootPlay).success
    ensures !result.rebootPerformed
  {
    assert AllSucceed(FailsAfterReboot, OPENING);
    hide Launched, EventsOf, AnySaysReboot, Reports, AllSucceed;
    OpeningReportsReboot(FailsAfterReboot);
    RebootUnderreportedExactly(r, FailsAfterReboot, result);
  }

  /** Only the validation fails, and only it reports a change. */
  function ChangingValidation(playbook: Playbook): PlaybookRun {
    PlaybookRun(playbook != PostPatchValidation,
                if playbook == PostPatchValidation then [LogEvent(true, false)] else [])
  }

  lemma ChangingValidationOpens(r: Remediation)
    requires r.reboot.status != RebootRequired
    ensures AllSucceed(ChangingValidation, OPENING) && !RebootNeeded(r, ChangingValidation)
    ensures EventsOf(ChangingValidation, OPENING) == []
  {
    EventsExtend(ChangingValidation, [], PrePatchCheck);
    EventsExtend(ChangingValidation, [PrePatchCheck], PackageUpgradePlay);
    EventsExtend(ChangingValidation, [PrePatchCheck, PackageUpgradePlay], RebootRequiredCheck);
    assert [] + [PrePatchCheck] == [PrePatchCheck] &&
      [PrePatchCheck] + [PackageUpgradePlay] == [PrePatchCheck, PackageUpgradePlay];
    assert [PrePatchCheck, PackageUpgradePlay] + [RebootRequiredCheck] == OPENING;
  }

  /** Change events of the validation do not count as a change: a validation that changed the host and then
      failed leads to another attempt. */
  lemma ValidationChangesAreNotCounted(r: Remediation, result: ExecutionResult)
    requires r.reboot.status != RebootRequired && Reports(r, ChangingValidation, result)
    ensures PostPatchValidation in Launched(r, ChangingValidation)
    ensures AnyChanged(ChangingValidation(PostPatchValidation).events)
    ensures OutcomeOf(result.success, result.changed, false, None).jobRequeued
  {
    var run: Oracle := ChangingValidation;
    assert ChangingValidation(PostPatchValidation).events[0].changed;
    assert !run(PostPatchValidation).success;
    ChangingValidationOpens(r);
    hide RebootNeeded, EventsOf, AllSucceed, Launched, UpToFailure;
    OpeningCompleted(r, run);
    var all := Workflow(r, run);
    assert all[..3] == OPENING && all[3] == PostPatchValidation && |all| == 4;
    LaunchedAfter(r, run, all);
    RebootStartsExactly(r, run);
    assert Launched(r, run)[3] == PostPatchValidation;
  }
}
