/** The local review gate (src/revanent/review/gates.py). */
module ReviewGate {
  import opened Domain
  import opened Ordering
  import V = Validation

  datatype Role = Builder | Reviewer | Repairer

  datatype AgentStatus =
    | AgentCompleted | AgentFailed | AgentInvalidOutput | AgentTimedOut
    | AgentBlocked | AgentUnavailable | AgentCancelled

  datatype Response = Response(
    owner: V.Owner,
    invocation: string,
    adapter: string,
    role: Role,
    status: AgentStatus,
    parsed: bool,
    review: Option<Review>,
    startedAt: int,
    completedAt: int,
    rawOutputKept: bool,
    artifactTruncated: bool)

  datatype LocalEvidence = LocalEvidence(
    owner: V.Owner,
    planId: string,
    reviewInvocation: string,
    reviewAdapter: string,
    observedAt: int,
    scopeJustified: bool,
    generatedFilesConsistent: bool,
    lockfilesConsistent: bool,
    evidenceComplete: bool,
    requiredArtifactsComplete: bool,
    repositoryClean: bool,
    reviewReadOnlyVerified: bool,
    sideEffectsReconciled: bool)

  datatype Input = Input(
    expectedOwner: V.Owner,
    expectedInvocation: string,
    plan: V.Plan,
    validation: V.PlanResult,
    response: Response,
    local: LocalEvidence,
    evaluatedAt: int)

  datatype Reason =
    | ValidationCorrelation | ValidationResultInvalid | ValidationNotApprovable | ValidationIncomplete
    | ReviewCorrelation | ReviewRole | ReviewNotCompleted | ReviewSchema | ReviewPayload
    | ReviewChronology | ReviewArtifactIncomplete | ReviewNotReadOnly | ReviewAuthorityCorrelation
    | LocalEvidenceCorrelation | ReviewFindingDuplicate | ReviewHighFinding | ReviewVerdict
    | ScopeNotJustified | GeneratedFilesInconsistent | LockfilesInconsistent | EvidenceIncomplete
    | RequiredArtifactsIncomplete | RepositoryDirty | SideEffectsAmbiguous
  {
    /** Position in the canonical order of reasons. */
    function Rank(): nat {
      match this
      case ValidationCorrelation => 0
      case ValidationResultInvalid => 1
      case ValidationNotApprovable => 2
      case ValidationIncomplete => 3
      case ReviewCorrelation => 4
      case ReviewRole => 5
      case ReviewNotCompleted => 6
      case ReviewSchema => 7
      case ReviewPayload => 8
      case ReviewChronology => 9
      case ReviewArtifactIncomplete => 10
      case ReviewNotReadOnly => 11
      case ReviewAuthorityCorrelation => 12
      case LocalEvidenceCorrelation => 13
      case ReviewFindingDuplicate => 14
      case ReviewHighFinding => 15
      case ReviewVerdict => 16
      case ScopeNotJustified => 17
      case GeneratedFilesInconsistent => 18
      case LockfilesInconsistent => 19
      case EvidenceIncomplete => 20
      case RequiredArtifactsIncomplete => 21
      case RepositoryDirty => 22
      case SideEffectsAmbiguous => 23
    }
  }

  const REASON_COUNT: nat := 24

  /** The structured review, if the reviewer completed and delivered one. */
  function AcceptedReview(i: Input): Option<Review> {
    if i.response.status == AgentCompleted then i.response.review else None
  }

  function Findings(i: Input): seq<Finding> {
    match AcceptedReview(i)
    case Some(r) => r.findings
    case None => []
  }

  predicate HasDuplicate(fs: seq<Finding>) {
    exists a, b :: 0 <= a < b < |fs| && fs[a] == fs[b]
  }

  predicate Severe(f: Finding) {
    f.severity in {High, Critical}
  }

  /** When each reason applies. */
  predicate Fails(i: Input, r: Reason) {
    match r
    case ValidationCorrelation =>
      i.plan.owner != i.expectedOwner || i.validation.planId != i.plan.id || i.validation.owner != i.expectedOwner
    case ValidationResultInvalid => V.Aggregate(i.plan, i.validation.commands) != Ok(i.validation)
    case ValidationNotApprovable => !i.validation.Approvable()
    case ValidationIncomplete => !i.validation.allComplete
    case ReviewCorrelation => i.response.owner != i.expectedOwner || i.response.invocation != i.expectedInvocation
    case ReviewRole => i.response.role != Reviewer
    case ReviewNotCompleted => i.response.status != AgentCompleted
    case ReviewSchema => i.response.status == AgentCompleted && !i.response.parsed
    case ReviewPayload => i.response.status == AgentCompleted && i.response.review.None?
    case ReviewChronology => i.validation.completedAt > i.response.startedAt
    case ReviewArtifactIncomplete => i.response.rawOutputKept || i.response.artifactTruncated
    case ReviewNotReadOnly => !i.local.reviewReadOnlyVerified
    case ReviewAuthorityCorrelation => i.local.reviewAdapter != i.response.adapter
    case LocalEvidenceCorrelation =>
      || i.local.owner != i.expectedOwner
      || i.local.planId != i.plan.id
      || i.local.reviewInvocation != i.expectedInvocation
      || i.local.observedAt < i.validation.completedAt
      || i.local.observedAt < i.response.completedAt
      || i.local.observedAt > i.evaluatedAt
      || i.response.completedAt > i.evaluatedAt
      || i.validation.completedAt > i.evaluatedAt
    case ReviewFindingDuplicate => HasDuplicate(Findings(i))
    case ReviewHighFinding => exists f :: f in Findings(i) && Severe(f)
    case ReviewVerdict => AcceptedReview(i).Some? && AcceptedReview(i).value.verdict != VerdictApproved
    case ScopeNotJustified => !i.local.scopeJustified
    case GeneratedFilesInconsistent => !i.local.generatedFilesConsistent
    case LockfilesInconsistent => !i.local.lockfilesConsistent
    case EvidenceIncomplete => !i.local.evidenceComplete
    case RequiredArtifactsIncomplete => !i.local.requiredArtifactsComplete
    case RepositoryDirty => !i.local.repositoryClean
    case SideEffectsAmbiguous => !i.local.sideEffectsReconciled
  }

  datatype GateStatus = Approvable | ChangesRequired | GateBlocked | InvalidEvidence

  predicate MeansInvalid(r: Reason) {
    r in {ValidationCorrelation, ValidationResultInvalid, ReviewCorrelation, ReviewRole, ReviewSchema,
          ReviewPayload, ReviewChronology, ReviewFindingDuplicate, ReviewAuthorityCorrelation,
          LocalEvidenceCorrelation}
  }

  /** _refusal_status */
  function RefusalStatus(response: AgentStatus, validation: V.Status, reasons: seq<Reason>): GateStatus {
    if (exists r :: r in reasons && MeansInvalid(r)) || response in {AgentFailed, AgentInvalidOutput} then
      InvalidEvidence
    else if response in {AgentBlocked, AgentTimedOut, AgentCancelled, AgentUnavailable}
         || validation in {V.TimedOut, V.StatusCancelled, V.StatusBlocked, V.Unavailable} then
      GateBlocked
    else ChangesRequired
  }

  /** Findings in presentation order; a finding is identified by its position, from 1. */
  datatype Decision = Decision(
    status: GateStatus,
    reasons: seq<Reason>,
    owner: V.Owner,
    planId: string,
    reviewInvocation: string,
    findings: seq<Finding>,
    relevant: seq<nat>,
    evaluatedAt: int,
    gate: Option<ApprovalGate>)
  {
    /** The decision model's own consistency conditions. */
    ghost predicate Valid() {
      && (forall a, b :: 0 <= a < b < |reasons| ==> reasons[a] != reasons[b])
      && (forall a, b :: 0 <= a < b < |relevant| ==> relevant[a] < relevant[b])
      && (forall n :: n in relevant ==> 1 <= n <= |findings|)
      && (status == Approvable ==> reasons == [] && gate.Some? && gate.value.Satisfied())
      && (status != Approvable ==> reasons != [] && gate.None?)
    }
  }

  // ---- Findings in presentation order ---------------------------------------------------------

  predicate FindingLeq(a: Finding, b: Finding) {
    a.severity.Rank() < b.severity.Rank() || (a.severity == b.severity && StringLeq(a.summary, b.summary))
  }

  lemma FindingOrder()
    ensures TotalOrder(FindingLeq)
  {
    forall a: Finding, b: Finding ensures FindingLeq(a, b) || FindingLeq(b, a) {
      StringLeqTotal(a.summary, b.summary);
    }
    forall a: Finding, b: Finding, c: Finding | FindingLeq(a, b) && FindingLeq(b, c) ensures FindingLeq(a, c) {
      if a.severity == b.severity == c.severity {
        StringLeqTransitive(a.summary, b.summary, c.summary);
      }
    }
  }

  function SortFindings(fs: seq<Finding>): seq<Finding> {
    Sort(FindingLeq, fs)
  }

  /** The sorted findings are ordered, the most severe first, and are the same findings. */
  lemma SortFindingsCorrect(fs: seq<Finding>)
    ensures Ordered(FindingLeq, SortFindings(fs)) && multiset(SortFindings(fs)) == multiset(fs)
    ensures |SortFindings(fs)| == |fs|
  {
    FindingOrder();
    SortCorrect(FindingLeq, fs);
  }

  function PositionsFrom(fs: seq<Finding>, all: bool, k: nat): (out: seq<nat>)
    requires k <= |fs|
    ensures forall n :: n in out <==> k < n <= |fs| && (all || Severe(fs[n - 1]))
    ensures forall a :: 0 <= a < |out| ==> k < out[a]
    ensures forall a, b :: 0 <= a < b < |out| ==> out[a] < out[b]
    decreases |fs| - k
  {
    if k == |fs| then []
    else
      var rest := PositionsFrom(fs, all, k + 1);
      if all || Severe(fs[k]) then [k + 1] + rest else rest
  }

  // ---- Evaluation -----------------------------------------------------------------------------

  /** `reasons` are exactly the failing reasons of rank below `k`, in canonical order. */
  ghost predicate CoversBy(fails: Reason -> bool, reasons: seq<Reason>, k: nat) {
    && (forall r: Reason :: r in reasons <==> r.Rank() < k && fails(r))
    && (forall a, b :: 0 <= a < b < |reasons| ==> reasons[a].Rank() < reasons[b].Rank())
  }

  function Verdicts(i: Input): Reason -> bool {
    (r: Reason) => Fails(i, r)
  }

  ghost predicate Covers(i: Input, reasons: seq<Reason>) {
    CoversBy(Verdicts(i), reasons, REASON_COUNT)
  }

  method Check(fails: Reason -> bool, reasons: seq<Reason>, r: Reason) returns (out: seq<Reason>)
    requires CoversBy(fails, reasons, r.Rank())
    ensures CoversBy(fails, out, r.Rank() + 1)
  {
    out := if fails(r) then reasons + [r] else reasons;
    forall s: Reason | s.Rank() == r.Rank() ensures s == r {
      RankIsInjective(r, s);
    }
  }

  lemma RankIsInjective(r: Reason, s: Reason)
    requires r.Rank() == s.Rank()
    ensures r == s
  {
  }

  method CheckValidation(fails: Reason -> bool, before: seq<Reason>) returns (reasons: seq<Reason>)
    requires CoversBy(fails, before, 0)
    ensures CoversBy(fails, reasons, 4)
  {
    reasons := before;
    reasons := Check(fails, reasons, ValidationCorrelation);
    reasons := Check(fails, reasons, ValidationResultInvalid);
    reasons := Check(fails, reasons, ValidationNotApprovable);
    reasons := Check(fails, reasons, ValidationIncomplete);
  }

  method CheckReview(fails: Reason -> bool, before: seq<Reason>) returns (reasons: seq<Reason>)
    requires CoversBy(fails, before, 4)
    ensures CoversBy(fails, reasons, 10)
  {
    reasons := before;
    reasons := Check(fails, reasons, ReviewCorrelation);
    reasons := Check(fails, reasons, ReviewRole);
    reasons := Check(fails, reasons, ReviewNotCompleted);
    reasons := Check(fails, reasons, ReviewSchema);
    reasons := Check(fails, reasons, ReviewPayload);
    reasons := Check(fails, reasons, ReviewChronology);
  }

  method CheckAuthority(fails: Reason -> bool, before: seq<Reason>) returns (reasons: seq<Reason>)
    requires CoversBy(fails, before, 10)
    ensures CoversBy(fails, reasons, 14)
  {
    reasons := before;
    reasons := Check(fails, reasons, ReviewArtifactIncomplete);
    reasons := Check(fails, reasons, ReviewNotReadOnly);
    reasons := Check(fails, reasons, ReviewAuthorityCorrelation);
    reasons := Check(fails, reasons, LocalEvidenceCorrelation);
  }

  method CheckFindings(fails: Reason -> bool, before: seq<Reason>) returns (reasons: seq<Reason>)
    requires CoversBy(fails, before, 14)
    ensures CoversBy(fails, reasons, 17)
  {
    reasons := before;
    reasons := Check(fails, reasons, ReviewFindingDuplicate);
    reasons := Check(fails, reasons, ReviewHighFinding);
    reasons := Check(fails, reasons, ReviewVerdict);
  }

  method CheckLocalFacts(fails: Reason -> bool, before: seq<Reason>) returns (reasons: seq<Reason>)
    requires CoversBy(fails, before, 17)
    ensures CoversBy(fails, reasons, 24)
  {
    reasons := before;
    reasons := Check(fails, reasons, ScopeNotJustified);
    reasons := Check(fails, reasons, GeneratedFilesInconsistent);
    reasons := Check(fails, reasons, LockfilesInconsistent);
    reasons := Check(fails, reasons, EvidenceIncomplete);
    reasons := Check(fails, reasons, RequiredArtifactsIncomplete);
    reasons := Check(fails, reasons, RepositoryDirty);
    reasons := Check(fails, reasons, SideEffectsAmbiguous);
  }

  /** The checks in the order the gate performs them. */
  method CollectReasons(fails: Reason -> bool) returns (reasons: seq<Reason>)
    ensures CoversBy(fails, reasons, REASON_COUNT)
  {
    reasons := CheckValidation(fails, []);
    reasons := CheckReview(fails, reasons);
    reasons := CheckAuthority(fails, reasons);
    reasons := CheckFindings(fails, reasons);
    reasons := CheckLocalFacts(fails, reasons);
  }

  /** The decision that follows from a list of reasons. */
  function DecideFrom(i: Input, reasons: seq<Reason>): Decision {
    var review := AcceptedReview(i);
    var findings := SortFindings(Findings(i));
    var approved := reasons == [] && review.Some?;
    Decision(
      if approved then Approvable else RefusalStatus(i.response.status, i.validation.status, reasons),
      reasons, i.expectedOwner, i.plan.id, i.expectedInvocation, findings,
      PositionsFrom(findings, review.Some? && review.value.verdict != VerdictApproved, 0),
      i.evaluatedAt,
      if approved then Some(ApprovalGate(review.value, true, true, true, true, true, false)) else None)
  }

  /** The gate's decision as a relation: the reasons are determined by the input, so is the rest. */
  ghost predicate IsDecision(i: Input, d: Decision) {
    Covers(i, d.reasons) && d == DecideFrom(i, d.reasons)
  }

  datatype GateError = TooManyFindings

  /** ReviewGate.evaluate. Finding ids have three digits, so more than 999 findings are refused. */
  method Evaluate(i: Input) returns (outcome: Result<Decision, GateError>)
    ensures outcome.Err? <==> |Findings(i)| > 999
    ensures outcome.Ok? ==> IsDecision(i, outcome.value) && outcome.value.Valid()
  {
    if |Findings(i)| > 999 {
      return Err(TooManyFindings);
    }
    var reasons := CollectReasons(Verdicts(i));
    var d := DecideFrom(i, reasons);
    DecisionIsValid(i, d);
    outcome := Ok(d);
  }

  // ---- What a decision means ------------------------------------------------------------------

  lemma RankBound(r: Reason)
    ensures r.Rank() < REASON_COUNT
  {
  }

  lemma NoReasonsExactly(i: Input, reasons: seq<Reason>)
    requires Covers(i, reasons)
    ensures reasons == [] <==> forall r: Reason :: !Fails(i, r)
  {
    if reasons == [] {
      forall r: Reason ensures !Fails(i, r) {
        RankBound(r);
        assert r !in reasons;
        assert !Verdicts(i)(r);
      }
    } else {
      var r := reasons[0];
      assert r in reasons;
      assert Verdicts(i)(r);
    }
  }

  lemma ReviewPresentWithoutReasons(i: Input)
    requires forall r: Reason :: !Fails(i, r)
    ensures AcceptedReview(i).Some?
  {
    assert !Fails(i, ReviewNotCompleted) && !Fails(i, ReviewPayload);
  }

  lemma DecisionIsValid(i: Input, d: Decision)
    requires IsDecision(i, d)
    ensures d.Valid()
  {
    NoReasonsExactly(i, d.reasons);
    if d.reasons == [] {
      ReviewPresentWithoutReasons(i);
      assert !Fails(i, ReviewVerdict);
    }
    forall a, b | 0 <= a < b < |d.reasons| ensures d.reasons[a] != d.reasons[b] {}
  }

  /** A decision is unique: two evaluations of one input agree. */
  lemma DecisionIsUnique(i: Input, d: Decision, e: Decision)
    requires IsDecision(i, d) && IsDecision(i, e)
    ensures d == e
  {
    SameReasons(d.reasons, e.reasons);
  }

  lemma {:induction false} SameReasons(a: seq<Reason>, b: seq<Reason>)
    requires forall r: Reason :: r in a <==> r in b
    requires forall i, j :: 0 <= i < j < |a| ==> a[i].Rank() < a[j].Rank()
    requires forall i, j :: 0 <= i < j < |b| ==> b[i].Rank() < b[j].Rank()
    ensures a == b
  {
    if |a| > 0 || |b| > 0 {
      assert |a| > 0 ==> a[0] in b;
      assert |b| > 0 ==> b[0] in a;
      RankIsInjective(a[0], b[0]);
      forall r: Reason ensures r in a[1..] <==> r in b[1..] {
        if r in a[1..] { assert r in a; }
        if r in b[1..] { assert r in b; }
      }
      SameReasons(a[1..], b[1..]);
      assert a == [a[0]] + a[1..] && b == [b[0]] + b[1..];
    }
  }

  /** The gate approves exactly the inputs on which nothing fails. */
  lemma ApprovesExactly(i: Input, d: Decision)
    requires IsDecision(i, d)
    ensures d.status == Approvable <==> forall r: Reason :: !Fails(i, r)
  {
    DecisionIsValid(i, d);
    NoReasonsExactly(i, d.reasons);
    if forall r: Reason :: !Fails(i, r) {
      ReviewPresentWithoutReasons(i);
    }
  }

  /** Exactly what an approval takes: complete passing validation that replays to itself and precedes
      a completed, parsed, correlated review with an approving verdict and no severe finding, and
      local facts that no provider can supply. The evidence carried is that very review. */
  lemma ApprovalGuarantees(i: Input, d: Decision)
    requires IsDecision(i, d)
    ensures d.status == Approvable <==>
              ValidationBacksApproval(i) && ReviewBacksApproval(i) && LocalFactsBackApproval(i)
    ensures d.status == Approvable ==>
              d.gate.Some? && d.gate.value.Satisfied() && Some(d.gate.value.review) == i.response.review
    ensures d.status != Approvable ==> d.gate.None?
  {
    ApprovesExactly(i, d);
    DecisionIsValid(i, d);
    if d.status == Approvable {
      ValidationBacks(i);
      ReviewBacks(i);
      LocalFactsBack(i);
      NoReasonsExactly(i, d.reasons);
      ReviewPresentWithoutReasons(i);
    } else if ValidationBacksApproval(i) && ReviewBacksApproval(i) && LocalFactsBackApproval(i) {
      forall r: Reason ensures !Fails(i, r) { BackedMeansNoReason(i, r); }
    }
  }

  lemma BackedMeansNoReason(i: Input, r: Reason)
    requires ValidationBacksApproval(i) && ReviewBacksApproval(i) && LocalFactsBackApproval(i)
    ensures !Fails(i, r)
  {
  }

  predicate ValidationBacksApproval(i: Input) {
    && i.plan.owner == i.expectedOwner && i.validation.planId == i.plan.id && i.validation.owner == i.expectedOwner
    && V.Aggregate(i.plan, i.validation.commands) == Ok(i.validation)
    && i.validation.Approvable()
    && V.OnlyAllowed(i.plan, i.validation.commands)
    && i.validation.completedAt <= i.response.startedAt
  }

  predicate ReviewBacksApproval(i: Input) {
    && i.response.status == AgentCompleted && i.response.role == Reviewer && i.response.parsed
    && i.response.owner == i.expectedOwner && i.response.invocation == i.expectedInvocation
    && !i.response.rawOutputKept && !i.response.artifactTruncated
    && i.response.review.Some? && i.response.review.value.verdict == VerdictApproved
    && var fs := i.response.review.value.findings;
       && (forall f :: f in fs ==> f.severity == Low || f.severity == Medium)
       && (forall a, b :: 0 <= a < b < |fs| ==> fs[a] != fs[b])
  }

  predicate LocalFactsBackApproval(i: Input) {
    && i.local.scopeJustified && i.local.generatedFilesConsistent && i.local.lockfilesConsistent
    && i.local.evidenceComplete && i.local.requiredArtifactsComplete && i.local.repositoryClean
    && i.local.reviewReadOnlyVerified && i.local.sideEffectsReconciled
    && i.local.owner == i.expectedOwner && i.local.planId == i.plan.id
    && i.local.reviewInvocation == i.expectedInvocation && i.local.reviewAdapter == i.response.adapter
    && i.validation.completedAt <= i.local.observedAt <= i.evaluatedAt
    && i.response.completedAt <= i.local.observedAt
  }

  lemma ValidationBacks(i: Input)
    requires forall r: Reason :: !Fails(i, r)
    ensures ValidationBacksApproval(i)
  {
    assert !Fails(i, ValidationCorrelation);
    assert !Fails(i, ValidationResultInvalid);
    assert !Fails(i, ValidationNotApprovable);
    assert !Fails(i, ReviewChronology);
    V.ApprovableExactly(i.plan, i.validation.commands);
  }

  lemma ReviewBacks(i: Input)
    requires forall r: Reason :: !Fails(i, r)
    ensures ReviewBacksApproval(i)
  {
    ReviewPresentWithoutReasons(i);
    assert !Fails(i, ReviewNotCompleted);
    assert !Fails(i, ReviewRole);
    assert !Fails(i, ReviewSchema);
    assert !Fails(i, ReviewCorrelation);
    assert !Fails(i, ReviewVerdict);
    assert !Fails(i, ReviewHighFinding);
    assert !Fails(i, ReviewFindingDuplicate);
    assert !Fails(i, ReviewArtifactIncomplete);
    forall f | f in i.response.review.value.findings ensures f.severity == Low || f.severity == Medium {
      assert f in Findings(i) && !Severe(f);
    }
  }

  lemma LocalFactsBack(i: Input)
    requires forall r: Reason :: !Fails(i, r)
    ensures LocalFactsBackApproval(i)
  {
    assert !Fails(i, ScopeNotJustified);
    assert !Fails(i, GeneratedFilesInconsistent);
    assert !Fails(i, LockfilesInconsistent);
    assert !Fails(i, EvidenceIncomplete);
    assert !Fails(i, RequiredArtifactsIncomplete);
    assert !Fails(i, RepositoryDirty);
    assert !Fails(i, ReviewNotReadOnly);
    assert !Fails(i, SideEffectsAmbiguous);
    assert !Fails(i, LocalEvidenceCorrelation);
    assert !Fails(i, ReviewAuthorityCorrelation);
  }

  /** Evidence the coordinator journaled never fails the gate's replay check: it is the projection
      of an aggregate under the same plan. */
  lemma ReplayNeverFires(i: Input, es: seq<V.Evidence>)
    requires V.Aggregate(i.plan, es).Ok? && i.validation == V.Project(V.Aggregate(i.plan, es).value)
    ensures !Fails(i, ValidationResultInvalid)
    ensures i.plan.owner == i.expectedOwner ==> !Fails(i, ValidationCorrelation)
    ensures Fails(i, ValidationNotApprovable) <==> !V.OnlyAllowed(i.plan, es)
    ensures Fails(i, ValidationIncomplete) ==> Fails(i, ValidationNotApprovable)
  {
    ReplayAgrees(i, es);
    CorrelationAgrees(i, es);
    IncompleteIsNotApprovable(i);
  }

  lemma ReplayAgrees(i: Input, es: seq<V.Evidence>)
    requires V.Aggregate(i.plan, es).Ok? && i.validation == V.Project(V.Aggregate(i.plan, es).value)
    ensures !Fails(i, ValidationResultInvalid) && (i.validation.Approvable() <==> V.OnlyAllowed(i.plan, es))
  {
    V.ReplayIsStable(i.plan, es);
    V.ApprovableExactly(i.plan, es);
  }

  lemma CorrelationAgrees(i: Input, es: seq<V.Evidence>)
    requires V.Aggregate(i.plan, es).Ok? && i.validation == V.Project(V.Aggregate(i.plan, es).value)
    ensures i.plan.owner == i.expectedOwner ==> !Fails(i, ValidationCorrelation)
  {
  }

  lemma IncompleteIsNotApprovable(i: Input)
    ensures Fails(i, ValidationIncomplete) ==> Fails(i, ValidationNotApprovable)
    ensures Fails(i, ValidationNotApprovable) <==> !i.validation.Approvable()
  {
  }

  // ---- What a refusal means -------------------------------------------------------------------

  /** Evidence that cannot be relied on. */
  predicate Unreliable(i: Input) {
    || i.response.status == AgentFailed || i.response.status == AgentInvalidOutput
    || Fails(i, ValidationCorrelation) || Fails(i, ValidationResultInvalid)
    || Fails(i, ReviewCorrelation) || Fails(i, ReviewRole) || Fails(i, ReviewSchema) || Fails(i, ReviewPayload)
    || Fails(i, ReviewChronology) || Fails(i, ReviewFindingDuplicate)
    || Fails(i, ReviewAuthorityCorrelation) || Fails(i, LocalEvidenceCorrelation)
  }

  /** The reviewer or the validation was stopped. */
  predicate Stopped(i: Input) {
    || i.response.status == AgentBlocked || i.response.status == AgentTimedOut
    || i.response.status == AgentCancelled || i.response.status == AgentUnavailable
    || i.validation.status == V.TimedOut || i.validation.status == V.StatusCancelled
    || i.validation.status == V.StatusBlocked || i.validation.status == V.Unavailable
  }

  lemma ReasonsAreTheFailures(i: Input, d: Decision)
    requires IsDecision(i, d)
    ensures forall r: Reason :: r in d.reasons <==> Fails(i, r)
  {
    forall r: Reason ensures r in d.reasons <==> Fails(i, r) {
      RankBound(r);
      assert Verdicts(i)(r) == Fails(i, r);
    }
  }

  /** When a single fact of the input is a reason; of the others nothing is said. */
  predicate SaysPlainly(i: Input, r: Reason, named: bool) {
    match r
    case ValidationIncomplete => named <==> !i.validation.allComplete
    case ReviewNotCompleted => named <==> i.response.status != AgentCompleted
    case ReviewArtifactIncomplete => named <==> i.response.rawOutputKept || i.response.artifactTruncated
    case ReviewNotReadOnly => named <==> !i.local.reviewReadOnlyVerified
    case ScopeNotJustified => named <==> !i.local.scopeJustified
    case GeneratedFilesInconsistent => named <==> !i.local.generatedFilesConsistent
    case LockfilesInconsistent => named <==> !i.local.lockfilesConsistent
    case EvidenceIncomplete => named <==> !i.local.evidenceComplete
    case RequiredArtifactsIncomplete => named <==> !i.local.requiredArtifactsComplete
    case RepositoryDirty => named <==> !i.local.repositoryClean
    case SideEffectsAmbiguous => named <==> !i.local.sideEffectsReconciled
    case _ => true
  }

  lemma PlainReasonsAreExact(i: Input, d: Decision)
    requires IsDecision(i, d)
    ensures forall r: Reason :: SaysPlainly(i, r, r in d.reasons)
  {
    ReasonsAreTheFailures(i, d);
    forall r: Reason ensures SaysPlainly(i, r, r in d.reasons) { FailuresSayPlainly(i, r); }
  }

  lemma FailuresSayPlainly(i: Input, r: Reason)
    ensures SaysPlainly(i, r, Fails(i, r))
  {
  }

  lemma StoppedIsRefused(i: Input)
    requires Stopped(i) || Unreliable(i)
    ensures exists r: Reason :: Fails(i, r)
  {
    if i.response.status != AgentCompleted {
      assert Fails(i, ReviewNotCompleted);
    } else if Stopped(i) {
      assert Fails(i, ValidationNotApprovable);
    }
  }

  /** Every status of a decision, for every response: unreliable evidence is invalid, a reviewer or a
      validation that was stopped blocks, and changes are required exactly of a completed review of
      reliable evidence that something speaks against. */
  lemma StatusIsExact(i: Input, d: Decision)
    requires IsDecision(i, d)
    ensures d.status == InvalidEvidence <==> Unreliable(i)
    ensures d.status == GateBlocked <==> Stopped(i) && !Unreliable(i)
    ensures d.status == ChangesRequired <==>
              && i.response.status == AgentCompleted && (exists r: Reason :: Fails(i, r))
              && !Unreliable(i) && !Stopped(i)
    ensures d.status == Approvable <==> forall r: Reason :: !Fails(i, r)
  {
    ReasonsAreTheFailures(i, d);
    ApprovesExactly(i, d);
    UnreliableIsInvalid(i, d.reasons);
    if Stopped(i) || Unreliable(i) { StoppedIsRefused(i); }
  }

  lemma UnreliableIsInvalid(i: Input, reasons: seq<Reason>)
    requires forall r: Reason :: r in reasons <==> Fails(i, r)
    ensures Unreliable(i) <==>
              (exists r :: r in reasons && MeansInvalid(r)) || i.response.status in {AgentFailed, AgentInvalidOutput}
  {
  }

  /** One severity is presented before another. */
  predicate Outranks(a: Severity, b: Severity) {
    (a == Critical && b != Critical) || (a == High && b in {Medium, Low}) || (a == Medium && b == Low)
  }

  /** The findings are presented most severe first, ties by summary. */
  lemma FindingsAreRanked(i: Input, d: Decision)
    requires IsDecision(i, d)
    ensures forall a, b :: 0 <= a < b < |d.findings| ==>
              && !Outranks(d.findings[b].severity, d.findings[a].severity)
              && (d.findings[a].severity == d.findings[b].severity ==>
                    StringLeq(d.findings[a].summary, d.findings[b].summary))
  {
    SortFindingsCorrect(Findings(i));
    forall a, b | 0 <= a < b < |d.findings| ensures FindingLeq(d.findings[a], d.findings[b]) {}
  }

  /** The findings of a decision are those of the completed review. All of them are relevant if the
      verdict does not approve, and otherwise the high and critical ones. The decision carries the
      identities it was asked about. */
  lemma FindingsAreExact(i: Input, d: Decision)
    requires IsDecision(i, d)
    ensures d.owner == i.expectedOwner && d.planId == i.plan.id && d.reviewInvocation == i.expectedInvocation
    ensures d.evaluatedAt == i.evaluatedAt
    ensures var reviewed := i.response.status == AgentCompleted && i.response.review.Some?;
            && multiset(d.findings) == (if reviewed then multiset(i.response.review.value.findings) else multiset{})
            && forall n: nat :: n in d.relevant <==>
                 && 1 <= n <= |d.findings|
                 && (|| (reviewed && i.response.review.value.verdict != VerdictApproved)
                     || d.findings[n - 1].severity == High || d.findings[n - 1].severity == Critical)
  {
    SortFindingsCorrect(Findings(i));
  }

  /** Evidence of a cancelled, blocked or silent reviewer never asks for changes. */
  lemma RefusalIsFailClosed(i: Input, d: Decision)
    requires IsDecision(i, d) && i.response.status != AgentCompleted
    ensures d.status in {GateBlocked, InvalidEvidence}
    ensures d.status == InvalidEvidence <==>
              || i.response.status in {AgentFailed, AgentInvalidOutput}
              || exists r: Reason :: MeansInvalid(r) && Fails(i, r)
  {
    forall r: Reason ensures r.Rank() < REASON_COUNT { RankBound(r); }
    assert Fails(i, ReviewNotCompleted);
    assert ReviewNotCompleted in d.reasons;
  }
}
