/** The orchestrator: how verified findings, peer reviews and an AI provider's answer become a plan. */
module Orchestrator {
  import opened Common
  import opened Evidence
  import opened Snapshots
  import P = Plans
  import Gate
  import ApprovalRuns

  // ---------------------------------------------------------------- answers

  /** The response dictionary the plan is built from. */
  datatype PlanResponse = PlanResponse(
    updateScope: P.UpdateScope,
    riskLevel: P.Severity,
    explanation: string,
    status: P.PlanStatus,
    citations: seq<string>,
    conflicts: seq<string>)

  /** What a provider or a cache may answer, entry by entry; an entry of the wrong kind counts as missing. */
  datatype RawPlan = RawPlan(
    updateScope: Option<P.UpdateScope>,
    riskLevel: Option<P.Severity>,
    status: Option<P.PlanStatus>,
    explanation: Option<string>,
    citations: seq<string>,
    conflicts: seq<string>)

  /** Where the answer comes from; a cached answer and a provider's answer are treated alike. */
  datatype PlanSource = Answered(raw: RawPlan) | NoAnswer

  function Clipped(texts: seq<string>, limit: nat): seq<string> {
    seq(|texts|, i requires 0 <= i < |texts| => Clip(texts[i], limit))
  }

  function FirstOf<T>(items: seq<T>, limit: nat): seq<T> {
    if |items| <= limit then items else items[..limit]
  }

  /** Every text once, in order of first appearance. */
  function Deduplicated(texts: seq<string>): seq<string> {
    if texts == [] then []
    else
      var front, last := Deduplicated(texts[..|texts| - 1]), texts[|texts| - 1];
      if last in front then front else front + [last]
  }

  function CatalogScope(scope: Option<P.UpdateScope>): bool {
    scope.Some? && !scope.value.UncatalogedScope?
  }

  function ValidatedPlan(raw: RawPlan, fallback: PlanResponse, allowed: seq<string>): PlanResponse {
    var supplied := Kept(raw.citations, Elements(allowed));
    var conflicts := FirstOf(Deduplicated(fallback.conflicts + FirstOf(Clipped(raw.conflicts, 500), 10)), 10);
    PlanResponse(
      if CatalogScope(raw.updateScope) then raw.updateScope.value else fallback.updateScope,
      if raw.riskLevel.Some? then raw.riskLevel.value else fallback.riskLevel,
      Clip(if Present(raw.explanation) then raw.explanation.value else fallback.explanation, 1600),
      if conflicts != [] then P.InsufficientEvidence
      else if fallback.status != P.InsufficientEvidence && raw.status.Some? then raw.status.value
      else fallback.status,
      if supplied != [] then supplied else fallback.citations,
      conflicts)
  }

  method ValidateOrchestratorResponse(raw: RawPlan, fallback: PlanResponse, allowed: seq<string>)
    returns (result: PlanResponse)
    ensures result == ValidatedPlan(raw, fallback, allowed)
  {
    result := fallback;
    if raw.updateScope.Some? && raw.updateScope.value in {P.AllUpdates, P.SecurityUpdates, P.NoUpdates} {
      result := result.(updateScope := raw.updateScope.value);
    }
    if raw.riskLevel.Some? {
      result := result.(riskLevel := raw.riskLevel.value);
    }
    if result.status != P.InsufficientEvidence && raw.status.Some? {
      result := result.(status := raw.status.value);
    }
    result := result.(explanation :=
                      Clip(if Present(raw.explanation) then raw.explanation.value else result.explanation, 1600));
    var supplied := KeepAllowed(raw.citations, Elements(allowed));
    if supplied != [] {
      result := result.(citations := supplied);
    }
    var providerConflicts := FirstOf(Clipped(raw.conflicts, 500), 10);
    result := result.(conflicts := FirstOf(Deduplicated(result.conflicts + providerConflicts), 10));
    if result.conflicts != [] {
      result := result.(status := P.InsufficientEvidence);
    }
  }

  lemma {:induction false} DeduplicatedMeans(texts: seq<string>)
    ensures forall text :: text in Deduplicated(texts) <==> text in texts
    ensures Deduplicated(texts) == [] <==> texts == []
  {
    if texts != [] {
      DeduplicatedMeans(texts[..|texts| - 1]);
      assert texts == texts[..|texts| - 1] + [texts[|texts| - 1]];
    }
  }

  /** A validated answer calls the plan ready only if nobody sees a conflict: not the reviews, not the
      verifier, and not the provider itself. It cites nothing but what it was allowed to. */
  lemma ValidatedReadyExactly(raw: RawPlan, fallback: PlanResponse, allowed: seq<string>)
    requires fallback.conflicts != [] ==> fallback.status == P.InsufficientEvidence
    ensures var result := ValidatedPlan(raw, fallback, allowed);
      && (result.status == P.PlanReady <==>
           && fallback.conflicts == [] && raw.conflicts == []
           && fallback.status == P.PlanReady && raw.status != Some(P.InsufficientEvidence))
      && (forall citation :: citation in result.citations ==> citation in allowed || citation in fallback.citations)
  {
    KeptMeans(raw.citations, Elements(allowed));
    DeduplicatedMeans(fallback.conflicts + FirstOf(Clipped(raw.conflicts, 500), 10));
  }

  // ---------------------------------------------------------------- synthesis

  function Reasonings(messages: seq<ReviewMessage>): seq<string> {
    if messages == [] then []
    else
      var last := messages[|messages| - 1];
      Reasonings(messages[..|messages| - 1]) + (if Objects(last) then [last.reasoning] else [])
  }

  function RejectionTexts(rejected: seq<Rejection>): seq<string> {
    seq(|rejected|, i requires 0 <= i < |rejected| => rejected[i].id + ": rejected")
  }

  function PolicyScope(host: PatchHost): Option<P.UpdateScope> {
    match host.updateMode
    case PolicyAll => Some(P.AllUpdates)
    case PolicySecurity => Some(P.SecurityUpdates)
    case OrchestratorDecides => None
  }

  /** The wording of a plan made without a provider. */
  function ExplanationText(planned: bool): string {
    if planned then "Verified evidence supports a controlled package plan." else "No package remediation is required."
  }

  /** The answer the orchestrator gives on its own. */
  function Fallback(
    host: PatchHost, snapshot: HostSnapshot, findings: seq<Finding>, messages: seq<ReviewMessage>,
    rejected: seq<Rejection>): PlanResponse
  {
    var conflicts := Reasonings(messages) + RejectionTexts(rejected);
    var scope := if PolicyScope(host).Some? then PolicyScope(host).value
                 else if snapshot.pendingPackageUpdates > 0 then P.AllUpdates else P.NoUpdates;
    PlanResponse(
      scope,
      if findings != [] then P.High else P.Info,
      ExplanationText(scope != P.NoUpdates),
      if conflicts != [] then P.InsufficientEvidence else P.PlanReady,
      AllCitations(findings),
      conflicts)
  }

  function ResponseFrom(source: PlanSource, fallback: PlanResponse): PlanResponse {
    match source
    case Answered(raw) => ValidatedPlan(raw, fallback, fallback.citations)
    case NoAnswer => fallback
  }

  /** The answer the plan is built from: the host's policy has the last word on the scope. */
  function Synthesized(
    host: PatchHost, snapshot: HostSnapshot, findings: seq<Finding>, messages: seq<ReviewMessage>,
    rejected: seq<Rejection>,
    source: PlanSource): PlanResponse
  {
    var response := ResponseFrom(source, Fallback(host, snapshot, findings, messages, rejected));
    if PolicyScope(host).Some? then response.(updateScope := PolicyScope(host).value) else response
  }

  // ---------------------------------------------------------------- the plan

  predicate SelectedFor(item: PackageUpdate, scope: P.UpdateScope) {
    scope == P.AllUpdates || item.securityUpdate
  }

  predicate AnySelected(updates: seq<PackageUpdate>, scope: P.UpdateScope) {
    exists i :: 0 <= i < |updates| && SelectedFor(updates[i], scope)
  }

  predicate AnyRebootHint(updates: seq<PackageUpdate>, scope: P.UpdateScope) {
    exists i :: 0 <= i < |updates| && SelectedFor(updates[i], scope) && updates[i].rebootHint
  }

  function AssessReboot(snapshot: HostSnapshot, scope: P.UpdateScope): P.RebootStatus {
    if snapshot.rebootRequiredNow then P.RebootRequired
    else if AnyRebootHint(snapshot.updates, scope) then P.RebootAfterPatch
    else if AnySelected(snapshot.updates, scope) then P.RebootUnknown
    else P.RebootNotExpected
  }

  function Rank(severity: P.Severity): nat {
    match severity
    case Info => 0
    case Low => 1
    case Medium => 2
    case High => 3
    case Critical => 4
  }

  function RequiredRisk(host: PatchHost, snapshot: HostSnapshot, reboot: P.RebootStatus): P.Severity {
    if snapshot.diskUsagePercent >= 95.0 then P.Critical
    else if host.highCriticality || host.highAvailability || reboot in {P.RebootRequired, P.RebootAfterPatch} ||
      snapshot.failedUnits != []
    then P.High
    else P.Medium
  }

  function EnforceRisk(
    host: PatchHost, snapshot: HostSnapshot, requested: P.Severity, reboot: P.RebootStatus): P.Severity
  {
    var required := RequiredRisk(host, snapshot, reboot);
    if Rank(requested) >= Rank(required) then requested else required
  }

  function RolloutText(oneAtATime: bool): string {
    if oneAtATime then "High-risk or high-availability hosts are patched and validated one at a time."
    else "Start with canaries, validate, then continue in bounded batches."
  }

  function RolloutFor(host: PatchHost, risk: P.Severity): P.RolloutPolicy {
    if host.highCriticality || host.highAvailability || risk == P.High || risk == P.Critical
    then P.RolloutPolicy(true, 1, 1, RolloutText(true))
    else P.RolloutPolicy(false, host.maxBatchSize, host.canaryCount, RolloutText(false))
  }

  function BuildRemediation(
    id: Id, scanId: Id, host: PatchHost, snapshot: HostSnapshot, response: PlanResponse,
    now: Time): Option<P.Remediation>
  {
    if response.status != P.PlanReady || response.updateScope == P.NoUpdates || snapshot.pendingPackageUpdates == 0
      then None
    else
      var reboot := AssessReboot(snapshot, response.updateScope);
      var risk := EnforceRisk(host, snapshot, response.riskLevel, reboot);
      var r := P.Remediation(
        id, host.id, Some(scanId), P.PackageUpgrade, response.updateScope, risk,
        P.AiDecision(response.updateScope, risk, response.explanation, response.status, response.citations,
                     response.conflicts),
        P.RebootAssessment(reboot, "", [P.Evidence("reboot marker and package classification", "", "packageSummary")],
                           if reboot != P.RebootNotExpected then 5 else 0, false),
        RolloutFor(host, risk), P.FailurePolicy(true, true, true), host.timing, host.window, P.PatchOnly,
        P.Pending, P.RebootPending, P.NotStarted, 1, P.Unset,
        None, None, None, None, None, None, None, None, None, host.protection, now);
      Some(r.(planHash := P.HashOf(r)))
  }

  // ---------------------------------------------------------------- the whole workflow

  datatype Sources = Sources(stateReview: ReviewSource, logReview: ReviewSource, plan: PlanSource)

  datatype Outcome = Outcome(verdict: Verdict, messages: seq<ReviewMessage>, plan: Option<P.Remediation>)

  function OfAgent(findings: seq<Finding>, agent: AgentName): seq<Finding> {
    if findings == [] then []
    else
      var last := findings[|findings| - 1];
      OfAgent(findings[..|findings| - 1], agent) + (if last.agent == agent then [last] else [])
  }

  function Workflow(
    id: Id, scanId: Id, host: PatchHost, snapshot: HostSnapshot, stateFindings: seq<Finding>, logFindings: seq<Finding>,
    sources: Sources, now: Time): Outcome
  {
    var messages := [PeerReview(stateFindings, logFindings, sources.stateReview),
                     PeerReview(logFindings, stateFindings, sources.logReview)];
    var verdict := VerdictOn(stateFindings + logFindings, EvidenceRegistry(snapshot), ContestedIds(messages));
    var reported := OfAgent(verdict.verified, LinuxStateAnalyst) + OfAgent(verdict.verified, LogAnalyst);
    var response := Synthesized(host, snapshot, reported, messages, verdict.rejected, sources.plan);
    Outcome(verdict, messages, BuildRemediation(id, scanId, host, snapshot, response, now))
  }

  // ---------------------------------------------------------------- the provider cannot buy a plan

  lemma FallbackConflicts(
    host: PatchHost, snapshot: HostSnapshot, findings: seq<Finding>, messages: seq<ReviewMessage>,
    rejected: seq<Rejection>)
    ensures var fallback := Fallback(host, snapshot, findings, messages, rejected);
      && (fallback.status == P.PlanReady <==> fallback.conflicts == [])
      && (fallback.conflicts == [] <==> rejected == [] && forall i :: 0 <= i < |messages| ==> !Objects(messages[i]))
  {
    ReasoningsMeans(messages);
  }

  lemma {:induction false} ReasoningsMeans(messages: seq<ReviewMessage>)
    ensures Reasonings(messages) == [] <==> forall i :: 0 <= i < |messages| ==> !Objects(messages[i])
  {
    if messages != [] {
      var front := messages[..|messages| - 1];
      ReasoningsMeans(front);
      assert forall i :: 0 <= i < |front| ==> front[i] == messages[i];
    }
  }

  /** The answer, if there is one, neither withdraws the plan nor names a conflict nor asks for no updates
      where the policy leaves it the choice. */
  predicate AnswerAllowsPlan(host: PatchHost, source: PlanSource) {
    source.Answered? ==>
      && source.raw.conflicts == [] && source.raw.status != Some(P.InsufficientEvidence)
      && (PolicyScope(host).None? ==> source.raw.updateScope != Some(P.NoUpdates))
  }

  /** When a plan comes out: nothing was rejected, no review objects, updates are pending, and the answer
      allows it. */
  lemma PlanExactly(
    id: Id, scanId: Id, host: PatchHost, snapshot: HostSnapshot, findings: seq<Finding>, messages: seq<ReviewMessage>,
    rejected: seq<Rejection>, source: PlanSource, now: Time)
    ensures BuildRemediation(id, scanId, host, snapshot,
                             Synthesized(host, snapshot, findings, messages, rejected, source), now).Some? <==>
      && rejected == [] && (forall i :: 0 <= i < |messages| ==> !Objects(messages[i]))
      && snapshot.pendingPackageUpdates > 0
      && AnswerAllowsPlan(host, source)
  {
    var fallback := Fallback(host, snapshot, findings, messages, rejected);
    FallbackConflicts(host, snapshot, findings, messages, rejected);
    if source.Answered? {
      ValidatedReadyExactly(source.raw, fallback, fallback.citations);
    }
    hide Objects, AllCitations, Kept, Deduplicated;
  }

  /** A provider can take a plan away but not obtain one: whatever it or the cache answers, a plan comes out
      only if the orchestrator would have made one without asking. */
  lemma ProviderCannotBuyPlan(
    id: Id, scanId: Id, host: PatchHost, snapshot: HostSnapshot, findings: seq<Finding>, messages: seq<ReviewMessage>,
    rejected: seq<Rejection>, source: PlanSource, now: Time)
    requires BuildRemediation(id, scanId, host, snapshot,
                              Synthesized(host, snapshot, findings, messages, rejected, source), now).Some?
    ensures BuildRemediation(id, scanId, host, snapshot,
                             Synthesized(host, snapshot, findings, messages, rejected, NoAnswer), now).Some?
  {
    PlanExactly(id, scanId, host, snapshot, findings, messages, rejected, source, now);
    PlanExactly(id, scanId, host, snapshot, findings, messages, rejected, NoAnswer, now);
  }

  lemma {:induction false} OfAgentMeans(findings: seq<Finding>, agent: AgentName)
    ensures forall item :: item in OfAgent(findings, agent) ==> item in findings
  {
    if findings != [] {
      OfAgentMeans(findings[..|findings| - 1], agent);
      assert findings == findings[..|findings| - 1] + [findings[|findings| - 1]];
    }
  }

  lemma JudgingKeepsEvidence(item: Finding, allowed: set<string>, contested: set<Id>)
    ensures Judged(item, allowed, contested).evidence == item.evidence
  {
    hide ReasonsFor;
  }

  lemma VerifiedCitesRegistry(findings: seq<Finding>, allowed: set<string>, contested: set<Id>, item: Finding)
    requires item in VerdictOn(findings, allowed, contested).verified
    ensures forall k :: 0 <= k < |CitationsOf(item.evidence)| ==> CitationsOf(item.evidence)[k] in allowed
  {
    hide VerdictOn, Judged, WithStatus, CitationsOf, RejectionsOf;
    var verdict := VerdictOn(findings, allowed, contested);
    VerdictLosesNothing(findings, allowed, contested);
    WithStatusMeans(verdict.findings, Verified);
    VerdictJudges(findings, allowed, contested);
    var i :| 0 <= i < |verdict.findings| && verdict.findings[i] == item;
    AcceptableExactly(findings[i], allowed, contested);
    JudgingKeepsEvidence(findings[i], allowed, contested);
    forall k | 0 <= k < |CitationsOf(item.evidence)| ensures CitationsOf(item.evidence)[k] in allowed {
      assert CitationsOf(item.evidence)[k] in Elements(CitationsOf(findings[i].evidence));
    }
  }

  /** Every citation an answer keeps comes from a finding that was reported. */
  lemma AnswerCitesFindings(
    host: PatchHost, snapshot: HostSnapshot, findings: seq<Finding>, messages: seq<ReviewMessage>,
    rejected: seq<Rejection>,
    source: PlanSource, citation: string)
    requires citation in Synthesized(host, snapshot, findings, messages, rejected, source).citations
    ensures citation in AllCitations(findings)
  {
    if source.Answered? {
      KeptMeans(source.raw.citations, Elements(AllCitations(findings)));
    }
  }

  /** Whatever provider and cache answer, a plan cites nothing outside the registry of the snapshot. */
  lemma PlanCitesRegistry(
    id: Id, scanId: Id, host: PatchHost, snapshot: HostSnapshot, stateFindings: seq<Finding>, logFindings: seq<Finding>,
    sources: Sources, now: Time)
    requires Workflow(id, scanId, host, snapshot, stateFindings, logFindings, sources, now).plan.Some?
    ensures var plan := Workflow(id, scanId, host, snapshot, stateFindings, logFindings, sources, now).plan.value;
      forall citation :: citation in plan.decision.supportingCitations ==> citation in EvidenceRegistry(snapshot)
  {
    var outcome := Workflow(id, scanId, host, snapshot, stateFindings, logFindings, sources, now);
    var allowed, contested := EvidenceRegistry(snapshot), ContestedIds(outcome.messages);
    var all := stateFindings + logFindings;
    var state, log := OfAgent(outcome.verdict.verified, LinuxStateAnalyst),
      OfAgent(outcome.verdict.verified, LogAnalyst);
    OfAgentMeans(outcome.verdict.verified, LinuxStateAnalyst);
    OfAgentMeans(outcome.verdict.verified, LogAnalyst);
    hide Synthesized, VerdictOn, EvidenceRegistry, ContestedIds, PeerReview, OfAgent, AllCitations, CitationsOf;
    hide AssessReboot, EnforceRisk, RolloutFor, P.HashOf;
    forall citation | citation in outcome.plan.value.decision.supportingCitations ensures citation in allowed {
      AnswerCitesFindings(
        host, snapshot, state + log, outcome.messages, outcome.verdict.rejected, sources.plan, citation);
      AllCitationsMeans(state + log, citation);
      var i :| 0 <= i < |state + log| && citation in CitationsOf((state + log)[i].evidence);
      assert (state + log)[i] in state || (state + log)[i] in log;
      VerifiedCitesRegistry(all, allowed, contested, (state + log)[i]);
    }
  }

  /** No claim a review had to look at lacks evidence. */
  ghost predicate ReviewedClaimsHaveEvidence(stateFindings: seq<Finding>, logFindings: seq<Finding>) {
    && (forall i :: 0 <= i < |RelevantClaims(stateFindings, logFindings)| ==>
          RelevantClaims(stateFindings, logFindings)[i].evidence != [])
    && (forall i :: 0 <= i < |RelevantClaims(logFindings, stateFindings)| ==>
          RelevantClaims(logFindings, stateFindings)[i].evidence != [])
  }

  /** The cached reviews that are used object to what a fresh review would object to for want of evidence. */
  predicate CacheKeepsObjections(stateFindings: seq<Finding>, logFindings: seq<Finding>, sources: Sources) {
    && (sources.stateReview.CachedReview? && WithoutEvidence(RelevantClaims(stateFindings, logFindings)) != [] ==>
        Objects(sources.stateReview.message))
    && (sources.logReview.CachedReview? && WithoutEvidence(RelevantClaims(logFindings, stateFindings)) != [] ==>
        Objects(sources.logReview.message))
  }

  /** When the workflow makes a plan: exactly if every finding is acceptable to the verifier, neither review
      objects, updates are pending, and the answer does not stand in the way. */
  lemma WorkflowPlansExactly(
    id: Id, scanId: Id, host: PatchHost, snapshot: HostSnapshot, stateFindings: seq<Finding>, logFindings: seq<Finding>,
    sources: Sources, now: Time)
    ensures var outcome := Workflow(id, scanId, host, snapshot, stateFindings, logFindings, sources, now);
      var all := stateFindings + logFindings;
      outcome.plan.Some? <==>
        && (forall i :: 0 <= i < |all| ==>
              Acceptable(all[i], EvidenceRegistry(snapshot), ContestedIds(outcome.messages)))
        && !Objects(PeerReview(stateFindings, logFindings, sources.stateReview))
        && !Objects(PeerReview(logFindings, stateFindings, sources.logReview))
        && snapshot.pendingPackageUpdates > 0
        && AnswerAllowsPlan(host, sources.plan)
  {
    hide PeerReview, Objects, Acceptable, OfAgent, EvidenceRegistry, ContestedIds, Synthesized, BuildRemediation;
    var outcome := Workflow(id, scanId, host, snapshot, stateFindings, logFindings, sources, now);
    var reported := OfAgent(outcome.verdict.verified, LinuxStateAnalyst) +
      OfAgent(outcome.verdict.verified, LogAnalyst);
    PlanExactly(id, scanId, host, snapshot, reported, outcome.messages, outcome.verdict.rejected, sources.plan, now);
    RejectsExactly(stateFindings + logFindings, EvidenceRegistry(snapshot), ContestedIds(outcome.messages));
    assert outcome.messages[0] == PeerReview(stateFindings, logFindings, sources.stateReview);
    assert outcome.messages[1] == PeerReview(logFindings, stateFindings, sources.logReview);
  }

  /** A plan means that every claim a review had to look at has evidence, unless a cached review waved one
      through. */
  lemma PlanMeansReviewedEvidence(
    id: Id, scanId: Id, host: PatchHost, snapshot: HostSnapshot, stateFindings: seq<Finding>, logFindings: seq<Finding>,
    sources: Sources, now: Time)
    requires Workflow(id, scanId, host, snapshot, stateFindings, logFindings, sources, now).plan.Some?
    requires CacheKeepsObjections(stateFindings, logFindings, sources)
    ensures ReviewedClaimsHaveEvidence(stateFindings, logFindings)
  {
    hide RelevantClaims, WithoutEvidence, PeerReview, Objects, Workflow, Acceptable;
    WorkflowPlansExactly(id, scanId, host, snapshot, stateFindings, logFindings, sources, now);
    WithoutEvidenceMeans(RelevantClaims(stateFindings, logFindings));
    WithoutEvidenceMeans(RelevantClaims(logFindings, stateFindings));
    if WithoutEvidence(RelevantClaims(stateFindings, logFindings)) != [] {
      UncitedClaimIsObjectedExactly(stateFindings, logFindings, sources.stateReview);
    }
    if WithoutEvidence(RelevantClaims(logFindings, stateFindings)) != [] {
      UncitedClaimIsObjectedExactly(logFindings, stateFindings, sources.logReview);
    }
  }

  /** What the source puts into the cache after reviewing `claims`: a validated answer, never a raw one. */
  ghost predicate WrittenFor(message: ReviewMessage, claims: seq<Finding>) {
    exists raw :: message == ValidatedReview(raw, claims, DeterministicReview(claims))
  }

  /** An entry is used for the claims it was written for. */
  ghost predicate WrittenCaches(stateFindings: seq<Finding>, logFindings: seq<Finding>, sources: Sources) {
    && (sources.stateReview.CachedReview? ==>
          WrittenFor(sources.stateReview.message, RelevantClaims(stateFindings, logFindings)))
    && (sources.logReview.CachedReview? ==>
          WrittenFor(sources.logReview.message, RelevantClaims(logFindings, stateFindings)))
  }

  lemma WrittenReviewObjects(message: ReviewMessage, claims: seq<Finding>, i: nat)
    requires WrittenFor(message, claims) && i < |claims| && claims[i].evidence == []
    ensures Objects(message)
  {
    hide Kept, IdsOf, AllCitations, ReviewText;
    WithoutEvidenceMeans(claims);
  }

  /** Entries the source wrote for these very claims keep their objections. */
  lemma WrittenCachesKeepObjections(stateFindings: seq<Finding>, logFindings: seq<Finding>, sources: Sources)
    requires WrittenCaches(stateFindings, logFindings, sources)
    ensures CacheKeepsObjections(stateFindings, logFindings, sources)
  {
    hide RelevantClaims, WithoutEvidence, Kept, IdsOf, AllCitations, ReviewText;
  }

  lemma UnaidedReviewConfirms(own: seq<Finding>, other: seq<Finding>)
    requires forall i :: 0 <= i < |RelevantClaims(own, other)| ==> RelevantClaims(own, other)[i].evidence != []
    ensures !Objects(PeerReview(own, other, NoReview))
  {
    hide RelevantClaims, ReviewText, IdsOf, AllCitations;
    WithoutEvidenceMeans(RelevantClaims(own, other));
  }

  /** No answer helps a plan along, in the whole workflow. Whatever providers and cache answer to both
      reviews and to the synthesis: if a plan is made, one is made from the same findings without any
      answer, as long as used cache entries keep their objections. */
  lemma AnswersCannotBuyPlan(
    id: Id, scanId: Id, host: PatchHost, snapshot: HostSnapshot, stateFindings: seq<Finding>, logFindings: seq<Finding>,
    sources: Sources, now: Time)
    requires Workflow(id, scanId, host, snapshot, stateFindings, logFindings, sources, now).plan.Some?
    requires CacheKeepsObjections(stateFindings, logFindings, sources)
    ensures Workflow(
      id, scanId, host, snapshot, stateFindings, logFindings, Sources(NoReview, NoReview, NoAnswer), now).plan.Some?
  {
    hide RelevantClaims, PeerReview, Objects, Workflow, Acceptable, EvidenceRegistry, ContestedIds;
    hide CacheKeepsObjections;
    var unaided := Sources(NoReview, NoReview, NoAnswer);
    PlanMeansReviewedEvidence(id, scanId, host, snapshot, stateFindings, logFindings, sources, now);
    UnaidedReviewConfirms(stateFindings, logFindings);
    UnaidedReviewConfirms(logFindings, stateFindings);
    WorkflowMessages(id, scanId, host, snapshot, stateFindings, logFindings, sources, now);
    WorkflowMessages(id, scanId, host, snapshot, stateFindings, logFindings, unaided, now);
    WorkflowPlansExactly(id, scanId, host, snapshot, stateFindings, logFindings, sources, now);
    WorkflowPlansExactly(id, scanId, host, snapshot, stateFindings, logFindings, unaided, now);
    NothingContested(Workflow(id, scanId, host, snapshot, stateFindings, logFindings, sources, now).messages);
    NothingContested(Workflow(id, scanId, host, snapshot, stateFindings, logFindings, unaided, now).messages);
  }

  /** The source's own cache buys nothing: with entries it wrote itself for these claims, a plan means that
      every claim under review has evidence and that the plan would have been made without any answer. */
  lemma OwnCachesCannotBuyPlan(
    id: Id, scanId: Id, host: PatchHost, snapshot: HostSnapshot, stateFindings: seq<Finding>, logFindings: seq<Finding>,
    sources: Sources, now: Time)
    requires Workflow(id, scanId, host, snapshot, stateFindings, logFindings, sources, now).plan.Some?
    requires WrittenCaches(stateFindings, logFindings, sources)
    ensures ReviewedClaimsHaveEvidence(stateFindings, logFindings)
    ensures Workflow(
      id, scanId, host, snapshot, stateFindings, logFindings, Sources(NoReview, NoReview, NoAnswer), now).plan.Some?
  {
    hide Workflow, WrittenCaches, CacheKeepsObjections, ReviewedClaimsHaveEvidence;
    WrittenCachesKeepObjections(stateFindings, logFindings, sources);
    PlanMeansReviewedEvidence(id, scanId, host, snapshot, stateFindings, logFindings, sources, now);
    AnswersCannotBuyPlan(id, scanId, host, snapshot, stateFindings, logFindings, sources, now);
  }

  function CitedPatch(): Finding {
    Finding("patch", LinuxStateAnalyst, "patching", P.High, [P.Evidence("", "", "packageSummary")],
            Some(PackageUpgrade), 0.98, Unverified, [])
  }

  function UncitedNote(): Finding {
    Finding("note", LogAnalyst, "patching", P.Info, [], None, 0.5, Unverified, [])
  }

  lemma OneRelevant(own: Finding, claim: Finding)
    requires own.category == claim.category
    ensures RelevantClaims([own], [claim]) == [claim]
  {
    var owns, claims := [own], [claim];
    assert owns[0].category == claim.category;
    assert Relevant(owns, claim);
    assert Selected(owns, []) == [] && claims[..0] == [];
  }

  lemma SampleReviews()
    ensures RelevantClaims([CitedPatch()], [UncitedNote()]) == [UncitedNote()]
    ensures !Objects(PeerReview([UncitedNote()], [CitedPatch()], NoReview))
  {
    hide ReviewText, AllCitations, IdsOf;
    OneRelevant(CitedPatch(), UncitedNote());
    OneRelevant(UncitedNote(), CitedPatch());
    hide RelevantClaims;
    assert WithoutEvidence([CitedPatch()]) == [] by {
      assert [CitedPatch()][..0] == [] && WithoutEvidence([]) == [];
    }
  }

  lemma SampleAcceptable(registry: set<string>)
    requires "packageSummary" in registry
    ensures Acceptable(CitedPatch(), registry, {}) && Acceptable(UncitedNote(), registry, {})
  {
    assert CitationsOf(CitedPatch().evidence) == ["packageSummary"] && CitationsOf(UncitedNote().evidence) == [];
  }

  /** Why the entries matter. One specialist's claim has no evidence; a cached confirmation written for other
      claims stands in for its review; the plan is made all the same, and without the cache it is not. The
      source does not produce this by itself: it keys an entry by a hash of the prompt, and its own
      specialists cite evidence in every finding. */
  lemma CachedReviewBuysPlan(id: Id, scanId: Id, host: PatchHost, snapshot: HostSnapshot, now: Time)
    requires snapshot.pendingPackageUpdates > 0
    ensures var confirmation := ReviewMessage(Confirm, ["note"], "", []);
      var cached, unaided := Sources(CachedReview(confirmation), NoReview, NoAnswer),
        Sources(NoReview, NoReview, NoAnswer);
      && !ReviewedClaimsHaveEvidence([CitedPatch()], [UncitedNote()])
      && !WrittenFor(confirmation, RelevantClaims([CitedPatch()], [UncitedNote()]))
      && Workflow(id, scanId, host, snapshot, [CitedPatch()], [UncitedNote()], cached, now).plan.Some?
      && Workflow(id, scanId, host, snapshot, [CitedPatch()], [UncitedNote()], unaided, now).plan.None?
  {
    hide Workflow, PeerReview, Acceptable, RelevantClaims, CitedPatch, UncitedNote, EvidenceRegistry, ContestedIds;
    var confirmation := ReviewMessage(Confirm, ["note"], "", []);
    var cached, unaided := Sources(CachedReview(confirmation), NoReview, NoAnswer),
      Sources(NoReview, NoReview, NoAnswer);
    var state, log := [CitedPatch()], [UncitedNote()];
    SampleReviews();
    SampleRegistry(snapshot);
    SampleAcceptable(EvidenceRegistry(snapshot));
    CachedReviewStands(state, log, confirmation);
    WorkflowPlansExactly(id, scanId, host, snapshot, state, log, cached, now);
    WorkflowPlansExactly(id, scanId, host, snapshot, state, log, unaided, now);
    NothingContested([confirmation, PeerReview(log, state, NoReview)]);
    WorkflowMessages(id, scanId, host, snapshot, state, log, cached, now);
    assert (state + log)[0] == CitedPatch() && (state + log)[1] == UncitedNote();
  }

  lemma SampleRegistry(snapshot: HostSnapshot)
    ensures "packageSummary" in EvidenceRegistry(snapshot)
  {
  }

  lemma WorkflowMessages(
    id: Id, scanId: Id, host: PatchHost, snapshot: HostSnapshot, stateFindings: seq<Finding>, logFindings: seq<Finding>,
    sources: Sources, now: Time)
    ensures Workflow(id, scanId, host, snapshot, stateFindings, logFindings, sources, now).messages
         == [PeerReview(stateFindings, logFindings, sources.stateReview),
             PeerReview(logFindings, stateFindings, sources.logReview)]
  {
    hide PeerReview, VerdictOn, BuildRemediation, Synthesized;
  }

  lemma CachedReviewStands(state: seq<Finding>, log: seq<Finding>, message: ReviewMessage)
    requires state == [CitedPatch()] && log == [UncitedNote()] && !Objects(message)
    ensures PeerReview(state, log, CachedReview(message)) == message
    ensures Objects(PeerReview(state, log, NoReview)) && !ReviewedClaimsHaveEvidence(state, log)
    ensures !WrittenFor(message, RelevantClaims(state, log))
  {
    hide EvidenceRegistry;
    SampleReviews();
    assert RelevantClaims(state, log)[0].evidence == [];
    UncitedClaimIsObjectedExactly(state, log, NoReview);
    if WrittenFor(message, RelevantClaims(state, log)) {
      WrittenReviewObjects(message, RelevantClaims(state, log), 0);
    }
  }

  lemma NothingContested(messages: seq<ReviewMessage>)
    requires forall i :: 0 <= i < |messages| ==> !Objects(messages[i])
    ensures ContestedIds(messages) == {}
  {
  }

  lemma RolloutFollowsRisk(host: PatchHost, risk: P.Severity)
    ensures var rollout := RolloutFor(host, risk);
      && (rollout.oneAtATime <==> Rank(risk) >= 3 || host.highCriticality || host.highAvailability)
      && (rollout.oneAtATime ==> rollout.batchSize == 1 && rollout.canaryCount == 1)
  {
    hide RolloutText;
  }

  lemma RiskIsEnforced(host: PatchHost, snapshot: HostSnapshot, requested: P.Severity, reboot: P.RebootStatus)
    ensures var risk := EnforceRisk(host, snapshot, requested, reboot);
      Rank(risk) == Max(Rank(requested), Rank(RequiredRisk(host, snapshot, reboot)))
  {
  }

  /** What a new plan is: unapproved and unstarted, hashed over its content, with the risk the host demands
      or more, and rolled out one host at a time if that risk is high. The provider sets none of this. */
  lemma NewPlanIsFresh(id: Id, scanId: Id, host: PatchHost, snapshot: HostSnapshot, response: PlanResponse, now: Time)
    requires BuildRemediation(id, scanId, host, snapshot, response, now).Some?
    ensures var plan := BuildRemediation(id, scanId, host, snapshot, response, now).value;
      && ApprovalRuns.Fresh(plan) && plan.executionState == P.NotStarted && plan.planVersion == 1
      && !plan.reboot.approvedIfRequired
      && !Gate.ContentChanged(plan)
      && plan.updateScope == response.updateScope
      && Rank(plan.riskLevel) == Max(Rank(response.riskLevel), Rank(RequiredRisk(host, snapshot, plan.reboot.status)))
      && (plan.rollout.oneAtATime <==> Rank(plan.riskLevel) >= 3 || host.highCriticality || host.highAvailability)
      && (plan.rollout.oneAtATime ==> plan.rollout.batchSize == 1 && plan.rollout.canaryCount == 1)
  {
    hide AssessReboot, EnforceRisk, RolloutFor, RequiredRisk, Rank;
    var reboot := AssessReboot(snapshot, response.updateScope);
    var risk := EnforceRisk(host, snapshot, response.riskLevel, reboot);
    RiskIsEnforced(host, snapshot, response.riskLevel, reboot);
    RolloutFollowsRisk(host, risk);
  }
}
