/** The evidence pipeline: two specialists report findings and review each other, a verifier filters what
    they claim, and the orchestrator turns what is left into a plan, or into none. Whatever an AI provider
    or a cache answers arrives as arbitrary data. */
module Evidence {
  import opened Common
  import opened Snapshots
  import P = Plans

  datatype AgentName = LogAnalyst | LinuxStateAnalyst | OtherAgent

  datatype Action = PackageUpgrade | ManualReview | OtherAction(name: string)

  datatype VerifierStatus = Unverified | Verified | Rejected

  datatype Reason = NoCitations | UnknownCitations | ActionNotInCatalog | LeftChallenged | LowConfidence

  datatype Finding = Finding(
    id: Id,
    agent: AgentName,
    category: string,
    severity: P.Severity,
    evidence: seq<P.Evidence>,
    action: Option<Action>,
    confidence: real,
    verifierStatus: VerifierStatus,
    verifierReasons: seq<Reason>)

  datatype UpdateMode = OrchestratorDecides | PolicyAll | PolicySecurity

  datatype PatchHost = PatchHost(
    id: Id,
    updateMode: UpdateMode,
    highCriticality: bool,
    highAvailability: bool,
    maxBatchSize: int,
    canaryCount: int,
    timing: P.ExecutionTiming,
    window: Option<P.MaintenanceWindow>,
    protection: P.Protection)

  // ---------------------------------------------------------------- the evidence registry

  const STANDING_CITATIONS := {
    "serviceSummary.failedUnits", "services.failed_units",
    "logs.journal", "logs.kernel", "logs.auth", "logs.aptHistory", "logs.apt_history", "logs.rebootHistory",
    "systemSummary.diskUsagePercent", "systemSummary.inodeUsagePercent", "systemSummary.memoryUsagePercent",
    "systemSummary.kernelVersion", "system.reboot_marker", "packageSummary", "packages.updates" }

  function EvidenceRegistry(snapshot: HostSnapshot): set<string> {
    STANDING_CITATIONS
    + (set key | key in snapshot.commands :: "commands." + key)
    + (set key | key in snapshot.evidenceStates :: "evidenceStates." + key)
  }

  function CitationsOf(evidence: seq<P.Evidence>): seq<string> {
    seq(|evidence|, i requires 0 <= i < |evidence| => evidence[i].citation)
  }

  function AllCitations(findings: seq<Finding>): seq<string> {
    if findings == [] then []
    else AllCitations(findings[..|findings| - 1]) + CitationsOf(findings[|findings| - 1].evidence)
  }

  lemma {:induction false} AllCitationsMeans(findings: seq<Finding>, citation: string)
    ensures citation in AllCitations(findings) <==>
      exists i :: 0 <= i < |findings| && citation in CitationsOf(findings[i].evidence)
  {
    if findings != [] {
      var front := findings[..|findings| - 1];
      AllCitationsMeans(front, citation);
      assert forall i :: 0 <= i < |front| ==> front[i] == findings[i];
    }
  }

  // ---------------------------------------------------------------- peer review

  datatype Response = Confirm | Challenge | RequestEvidence | NotApplicable | OtherResponse(text: string)

  datatype ReviewMessage = ReviewMessage(response: Response, claimIds: seq<Id>, reasoning: string,
                                         citations: seq<string>)

  /** What a provider or a cache may put into a review, entry by entry. */
  datatype RawReview = RawReview(
    response: Option<Response>,
    claimIds: seq<string>,
    reasoning: Option<string>,
    citations: seq<string>)

  /** Where a review comes from: a cached message, a provider's answer, or nobody. */
  datatype ReviewSource = CachedReview(message: ReviewMessage) | AnsweredReview(raw: RawReview) | NoReview

  predicate Serious(severity: P.Severity) {
    severity.High? || severity.Critical?
  }

  predicate Relevant(own: seq<Finding>, claim: Finding) {
    || (exists i :: 0 <= i < |own| && Serious(own[i].severity))
    || Serious(claim.severity)
    || (exists i :: 0 <= i < |own| && own[i].category == claim.category)
  }

  function Selected(own: seq<Finding>, claims: seq<Finding>): seq<Finding> {
    if claims == [] then []
    else
      Selected(own, claims[..|claims| - 1])
      + (if Relevant(own, claims[|claims| - 1]) then [claims[|claims| - 1]] else [])
  }

  function RelevantClaims(own: seq<Finding>, other: seq<Finding>): seq<Finding> {
    if own == [] || other == [] then [] else Selected(own, other)
  }

  function IdsOf(claims: seq<Finding>): seq<Id> {
    seq(|claims|, i requires 0 <= i < |claims| => claims[i].id)
  }

  function WithoutEvidence(claims: seq<Finding>): seq<Finding> {
    if claims == [] then []
    else
      WithoutEvidence(claims[..|claims| - 1])
      + (if claims[|claims| - 1].evidence == [] then [claims[|claims| - 1]] else [])
  }

  /** The wording of a review made without a provider. */
  function ReviewText(missing: bool): string {
    if missing then "One or more claims have no cited evidence."
    else "The claims are consistent with the supplied evidence and do not contradict this specialist's report."
  }

  function DeterministicReview(claims: seq<Finding>): ReviewMessage {
    var missing := WithoutEvidence(claims);
    ReviewMessage(
      if missing != [] then RequestEvidence else Confirm,
      IdsOf(if missing != [] then missing else claims),
      ReviewText(missing != []),
      AllCitations(claims))
  }

  /** The entries of `items` that are in `allowed`, in order. */
  function Kept(items: seq<string>, allowed: set<string>): seq<string> {
    if items == [] then []
    else Kept(items[..|items| - 1], allowed) + (if items[|items| - 1] in allowed then [items[|items| - 1]] else [])
  }

  lemma {:induction false} KeptMeans(items: seq<string>, allowed: set<string>)
    ensures forall item :: item in Kept(items, allowed) <==> item in items && item in allowed
  {
    if items != [] {
      KeptMeans(items[..|items| - 1], allowed);
      assert items == items[..|items| - 1] + [items[|items| - 1]];
    }
  }

  function ValidatedReview(raw: RawReview, relevant: seq<Finding>, fallback: ReviewMessage): ReviewMessage {
    var ids := Kept(raw.claimIds, Elements(IdsOf(relevant)));
    ReviewMessage(
      if !fallback.response.RequestEvidence? && raw.response.Some? && !raw.response.value.OtherResponse?
        then raw.response.value
      else fallback.response,
      if ids != [] then ids else fallback.claimIds,
      Clip(if Present(raw.reasoning) then raw.reasoning.value else fallback.reasoning, 1000),
      Kept(raw.citations, Elements(AllCitations(relevant))))
  }

  method ValidateReviewResponse(raw: RawReview, relevant: seq<Finding>, fallback: ReviewMessage)
    returns (result: ReviewMessage)
    ensures result == ValidatedReview(raw, relevant, fallback)
  {
    result := fallback;
    if !result.response.RequestEvidence? && raw.response.Some? &&
      raw.response.value in {Confirm, Challenge, RequestEvidence, NotApplicable} {
      result := result.(response := raw.response.value);
    }
    var claimIds := KeepAllowed(raw.claimIds, Elements(IdsOf(relevant)));
    if claimIds != [] {
      result := result.(claimIds := claimIds);
    }
    result := result.(reasoning :=
                      Clip(if Present(raw.reasoning) then raw.reasoning.value else result.reasoning, 1000));
    var citations := KeepAllowed(raw.citations, Elements(AllCitations(relevant)));
    result := result.(citations := citations);
  }

  method KeepAllowed(items: seq<string>, allowed: set<string>) returns (kept: seq<string>)
    ensures kept == Kept(items, allowed)
  {
    kept := [];
    for i := 0 to |items|
      invariant kept == Kept(items[..i], allowed)
    {
      assert items[..i + 1][..i] == items[..i];
      if items[i] in allowed {
        kept := kept + [items[i]];
      }
    }
    assert items[..|items|] == items;
  }

  /** One specialist's review of the other's report. A cached message is used as it is. */
  function PeerReview(own: seq<Finding>, other: seq<Finding>, source: ReviewSource): ReviewMessage {
    var relevant := RelevantClaims(own, other);
    if relevant == [] then ReviewMessage(NotApplicable, [], "", [])
    else match source
      case CachedReview(message) => message
      case AnsweredReview(raw) => ValidatedReview(raw, relevant, DeterministicReview(relevant))
      case NoReview => DeterministicReview(relevant)
  }

  predicate Objects(message: ReviewMessage) {
    message.response.Challenge? || message.response.RequestEvidence?
  }

  lemma {:induction false} WithoutEvidenceMeans(claims: seq<Finding>)
    ensures WithoutEvidence(claims) != [] <==> exists i :: 0 <= i < |claims| && claims[i].evidence == []
  {
    if claims != [] {
      var front := claims[..|claims| - 1];
      WithoutEvidenceMeans(front);
      assert forall i :: 0 <= i < |front| ==> front[i] == claims[i];
    }
  }

  /** A relevant claim without evidence is objected to whatever the provider answers. It passes exactly if
      a cached message says so: the cache is not validated here. */
  lemma UncitedClaimIsObjectedExactly(own: seq<Finding>, other: seq<Finding>, source: ReviewSource)
    requires exists i :: 0 <= i < |RelevantClaims(own, other)| && RelevantClaims(own, other)[i].evidence == []
    ensures Objects(PeerReview(own, other, source)) <==> (source.CachedReview? ==> Objects(source.message))
  {
    WithoutEvidenceMeans(RelevantClaims(own, other));
  }

  // ---------------------------------------------------------------- the verifier

  function ContestedIds(messages: seq<ReviewMessage>): set<Id> {
    set i, j | 0 <= i < |messages| && Objects(messages[i]) && 0 <= j < |messages[i].claimIds| :: messages[i].claimIds[j]
  }

  function ReasonsFor(item: Finding, allowed: set<string>, contested: set<Id>): seq<Reason> {
    var citations := Elements(CitationsOf(item.evidence));
    (if !item.severity.Info? && citations == {} then [NoCitations] else [])
    + (if citations - allowed != {} then [UnknownCitations] else [])
    + (if item.action.Some? && item.action.value.OtherAction? then [ActionNotInCatalog] else [])
    + (if item.id in contested then [LeftChallenged] else [])
    + (if item.confidence < 0.75 && item.action.Some? then [LowConfidence] else [])
  }

  function Judged(item: Finding, allowed: set<string>, contested: set<Id>): Finding {
    var reasons := ReasonsFor(item, allowed, contested);
    if reasons == [] then item.(verifierStatus := Verified)
    else item.(verifierStatus := Rejected, verifierReasons := reasons)
  }

  datatype Rejection = Rejection(id: Id, reasons: seq<Reason>)

  datatype Verdict = Verdict(findings: seq<Finding>, verified: seq<Finding>, rejected: seq<Rejection>)

  /** The verdict on the first findings, one by one. */
  function VerdictOn(findings: seq<Finding>, allowed: set<string>, contested: set<Id>): Verdict {
    if findings == [] then Verdict([], [], [])
    else
      var before, item := VerdictOn(findings[..|findings| - 1], allowed, contested), findings[|findings| - 1];
      var judged := Judged(item, allowed, contested);
      Verdict(
        before.findings + [judged],
        if judged.verifierStatus.Verified? then before.verified + [judged] else before.verified,
        if judged.verifierStatus.Verified? then before.rejected
          else before.rejected + [Rejection(item.id, judged.verifierReasons)])
  }

  /** The checks on one finding, in the verifier's order. */
  method JudgeFinding(finding: Finding, allowed: set<string>, conflicts: set<Id>)
    returns (item: Finding, reasons: seq<Reason>)
    ensures item == Judged(finding, allowed, conflicts) && reasons == ReasonsFor(finding, allowed, conflicts)
  {
    item := finding;
    var citations := Elements(CitationsOf(item.evidence));
    reasons := [];
    if !item.severity.Info? && citations == {} {
      reasons := reasons + [NoCitations];
    }
    var invalid := citations - allowed;
    if invalid != {} {
      reasons := reasons + [UnknownCitations];
    }
    if item.action.Some? && item.action.value !in {PackageUpgrade, ManualReview} {
      reasons := reasons + [ActionNotInCatalog];
    }
    if item.id in conflicts {
      reasons := reasons + [LeftChallenged];
    }
    if item.confidence < 0.75 && item.action.Some? {
      reasons := reasons + [LowConfidence];
    }
    if reasons != [] {
      item := item.(verifierStatus := Rejected, verifierReasons := reasons);
    } else {
      item := item.(verifierStatus := Verified);
    }
  }

  method VerifyFindings(snapshot: HostSnapshot, findings: seq<Finding>, messages: seq<ReviewMessage>)
    returns (verdict: Verdict)
    ensures verdict == VerdictOn(findings, EvidenceRegistry(snapshot), ContestedIds(messages))
  {
    hide ReasonsFor, EvidenceRegistry, ContestedIds;
    var allowed := EvidenceRegistry(snapshot);
    var conflicts := ContestedIds(messages);
    var items, verified, rejected := findings, [], [];
    for i := 0 to |findings|
      invariant |items| == |findings| && items[i..] == findings[i..]
      invariant Verdict(items[..i], verified, rejected) == VerdictOn(findings[..i], allowed, conflicts)
    {
      assert items[i] == findings[i..][0] && findings[..i + 1][..i] == findings[..i];
      assert items[i + 1..] == items[i..][1..] == findings[i..][1..] == findings[i + 1..];
      ghost var rest := items[i + 1..];
      var item, reasons := JudgeFinding(items[i], allowed, conflicts);
      items := items[i := item];
      assert items[..i + 1] == items[..i] + [item] && items[i + 1..] == rest;
      if reasons != [] {
        rejected := rejected + [Rejection(item.id, reasons)];
        continue;
      }
      verified := verified + [item];
    }
    assert findings[..|findings|] == findings && items[..|findings|] == items;
    verdict := Verdict(items, verified, rejected);
  }

  predicate Acceptable(item: Finding, allowed: set<string>, contested: set<Id>) {
    && (item.severity.Info? || item.evidence != [])
    && Elements(CitationsOf(item.evidence)) <= allowed
    && (item.action.Some? ==> item.action.value in {PackageUpgrade, ManualReview} && item.confidence >= 0.75)
    && item.id !in contested
  }

  lemma CitationsPresent(evidence: seq<P.Evidence>)
    ensures Elements(CitationsOf(evidence)) == {} <==> evidence == []
  {
    var citations := CitationsOf(evidence);
    if evidence != [] {
      assert citations[0] in Elements(citations);
    } else {
      assert citations == [];
    }
  }

  /** A finding is verified exactly if it is acceptable. */
  lemma AcceptableExactly(item: Finding, allowed: set<string>, contested: set<Id>)
    ensures Judged(item, allowed, contested).verifierStatus.Verified? <==> Acceptable(item, allowed, contested)
    ensures !Acceptable(item, allowed, contested) ==> Judged(item, allowed, contested).verifierReasons != []
  {
    CitationsPresent(item.evidence);
    hide Elements;
    var citations := Elements(CitationsOf(item.evidence));
    assert citations - allowed == {} <==> citations <= allowed by {
      if citations - allowed == {} {
        assert forall citation :: citation in citations ==> citation in allowed by {
          forall citation | citation in citations ensures citation in allowed {
            assert citation !in citations - allowed;
          }
        }
      }
    }
    assert ReasonsFor(item, allowed, contested) == [] <==> Acceptable(item, allowed, contested) by {
      var reasons := ReasonsFor(item, allowed, contested);
      assert |reasons| ==
        (if !item.severity.Info? && citations == {} then 1 else 0)
        + (if citations - allowed != {} then 1 else 0)
        + (if item.action.Some? && item.action.value.OtherAction? then 1 else 0)
        + (if item.id in contested then 1 else 0)
        + (if item.confidence < 0.75 && item.action.Some? then 1 else 0);
    }
  }

  /** The verifier judges every finding in place. */
  lemma {:induction false} VerdictJudges(findings: seq<Finding>, allowed: set<string>, contested: set<Id>)
    ensures var verdict := VerdictOn(findings, allowed, contested);
      && |verdict.findings| == |findings|
      && forall i :: 0 <= i < |findings| ==> verdict.findings[i] == Judged(findings[i], allowed, contested)
  {
    hide Judged;
    if findings != [] {
      VerdictJudges(findings[..|findings| - 1], allowed, contested);
    }
  }

  function WithStatus(findings: seq<Finding>, status: VerifierStatus): seq<Finding> {
    if findings == [] then []
    else
      var last := findings[|findings| - 1];
      WithStatus(findings[..|findings| - 1], status) + (if last.verifierStatus == status then [last] else [])
  }

  function RejectionsOf(rejected: seq<Finding>): seq<Rejection> {
    seq(|rejected|, i requires 0 <= i < |rejected| => Rejection(rejected[i].id, rejected[i].verifierReasons))
  }

  lemma JudgedIsDecided(item: Finding, allowed: set<string>, contested: set<Id>)
    ensures var judged := Judged(item, allowed, contested);
      judged.id == item.id && judged.verifierStatus in {Verified, Rejected}
  {
    hide ReasonsFor;
  }

  lemma WithStatusNext(findings: seq<Finding>, last: Finding, status: VerifierStatus)
    ensures WithStatus(findings + [last], status)
         == WithStatus(findings, status) + (if last.verifierStatus == status then [last] else [])
  {
    assert (findings + [last])[..|findings|] == findings;
  }

  lemma RejectionsNext(rejected: seq<Finding>, last: Finding)
    ensures RejectionsOf(rejected + [last]) == RejectionsOf(rejected) + [Rejection(last.id, last.verifierReasons)]
  {
  }

  /** The two lists split the judged findings, each in order: the verified list is the findings judged
      verified, and the rejections name, with their reasons, exactly the others. */
  lemma {:induction false} VerdictLosesNothing(findings: seq<Finding>, allowed: set<string>, contested: set<Id>)
    ensures var verdict := VerdictOn(findings, allowed, contested);
      && verdict.verified == WithStatus(verdict.findings, Verified)
      && verdict.rejected == RejectionsOf(WithStatus(verdict.findings, Rejected))
      && |verdict.verified| + |verdict.rejected| == |findings|
  {
    if findings != [] {
      hide Judged, WithStatus, RejectionsOf;
      var front, last := findings[..|findings| - 1], findings[|findings| - 1];
      var before, judged := VerdictOn(front, allowed, contested), Judged(last, allowed, contested);
      VerdictLosesNothing(front, allowed, contested);
      JudgedIsDecided(last, allowed, contested);
      WithStatusNext(before.findings, judged, Verified);
      WithStatusNext(before.findings, judged, Rejected);
      RejectionsNext(WithStatus(before.findings, Rejected), judged);
    }
  }

  /** The rejected ids are the ids of exactly the unacceptable findings. */
  lemma RejectedAreUnacceptable(findings: seq<Finding>, allowed: set<string>, contested: set<Id>)
    ensures var verdict := VerdictOn(findings, allowed, contested);
      && |verdict.findings| == |findings|
      && (forall i :: 0 <= i < |findings| ==>
            && verdict.findings[i].id == findings[i].id
            && verdict.findings[i].verifierStatus in {Verified, Rejected}
            && (verdict.findings[i].verifierStatus.Rejected? <==> !Acceptable(findings[i], allowed, contested)))
      && (set k | 0 <= k < |verdict.rejected| :: verdict.rejected[k].id)
         == (set i | 0 <= i < |findings| && !Acceptable(findings[i], allowed, contested) :: findings[i].id)
  {
    hide Judged, Acceptable, VerdictOn, WithStatus;
    var verdict := VerdictOn(findings, allowed, contested);
    VerdictJudges(findings, allowed, contested);
    VerdictLosesNothing(findings, allowed, contested);
    forall i | 0 <= i < |findings|
      ensures verdict.findings[i].id == findings[i].id && verdict.findings[i].verifierStatus in {Verified, Rejected}
      ensures verdict.findings[i].verifierStatus.Rejected? <==> !Acceptable(findings[i], allowed, contested)
    {
      AcceptableExactly(findings[i], allowed, contested);
      JudgedIsDecided(findings[i], allowed, contested);
    }
    var rejected := WithStatus(verdict.findings, Rejected);
    WithStatusMeans(verdict.findings, Rejected);
    forall k | 0 <= k < |verdict.rejected|
      ensures exists i :: 0 <= i < |findings| && findings[i].id == verdict.rejected[k].id
                          && !Acceptable(findings[i], allowed, contested)
    {
      assert rejected[k] in verdict.findings;
    }
    forall i | 0 <= i < |findings| && !Acceptable(findings[i], allowed, contested)
      ensures exists k :: 0 <= k < |verdict.rejected| && verdict.rejected[k].id == findings[i].id
    {
      assert verdict.findings[i] in rejected;
      var k :| 0 <= k < |rejected| && rejected[k] == verdict.findings[i];
      assert verdict.rejected[k].id == findings[i].id;
    }
  }

  lemma {:induction false} WithStatusMeans(findings: seq<Finding>, status: VerifierStatus)
    ensures forall item :: item in WithStatus(findings, status) <==> item in findings && item.verifierStatus == status
  {
    if findings != [] {
      WithStatusMeans(findings[..|findings| - 1], status);
      assert findings == findings[..|findings| - 1] + [findings[|findings| - 1]];
    }
  }

  /** Nothing is rejected exactly if every finding is acceptable, and every rejection gives reasons. */
  lemma {:induction false} RejectsExactly(findings: seq<Finding>, allowed: set<string>, contested: set<Id>)
    ensures var verdict := VerdictOn(findings, allowed, contested);
      && (forall i :: 0 <= i < |verdict.rejected| ==> verdict.rejected[i].reasons != [])
      && (verdict.rejected == [] <==> forall i :: 0 <= i < |findings| ==> Acceptable(findings[i], allowed, contested))
  {
    hide Judged, Acceptable;
    if findings != [] {
      var front, last := findings[..|findings| - 1], findings[|findings| - 1];
      RejectsExactly(front, allowed, contested);
      AcceptableExactly(last, allowed, contested);
      assert forall i :: 0 <= i < |front| ==> front[i] == findings[i];
    }
  }
}
