/** Deterministic validation: plans, command evidence, strict aggregation and the ordered runner
    (src/revanent/ports/validation.py, src/revanent/validation/runner.py). */
module Validation {
  import opened Domain

  const MAX_COMMANDS: nat := 64
  const MAX_OUTPUT_BYTES: nat := 1_048_576
  const MAX_ARTIFACT_BYTES: nat := 67_108_864
  const MAX_DURATION_MS: nat := 86_400_000

  // ---- Plans ------------------------------------------------------------------------------

  datatype CommandClass = Required | Advisory

  datatype OutputPolicy = OutputPolicy(
    stdoutBytes: nat,
    stderrBytes: nat,
    captureArtifacts: bool,
    requireCompleteStdout: bool,
    requireCompleteStderr: bool)

  datatype Command = Command(
    id: string,
    executable: string,
    classification: CommandClass,
    securityCritical: bool,
    expectedExitCodes: seq<nat>,
    timeoutSeconds: nat,
    output: OutputPolicy)

  /** The run and work package some evidence belongs to. */
  datatype Owner = Owner(runId: string, workPackageId: string)

  datatype Plan = Plan(
    id: string,
    owner: Owner,
    createdAt: int,
    commands: seq<Command>,
    failFast: bool,
    allowAdvisoryFailures: bool,
    artifactsAllowed: bool)
  {
    ghost predicate Valid() {
      && 1 <= |commands| <= MAX_COMMANDS
      && (forall i, j :: 0 <= i < j < |commands| ==> commands[i].id != commands[j].id)
      && (forall c :: c in commands ==> 1 <= c.timeoutSeconds <= 86_400 && c.expectedExitCodes != [])
      && (exists c :: c in commands && c.classification == Required)
    }
  }

  // ---- Evidence ---------------------------------------------------------------------------

  datatype Status =
    | Passed | PassedWithAdvisories | StatusFailed | TimedOut | StatusCancelled
    | StatusBlocked | Unavailable | Invalid | NotRun

  datatype CommandStatus =
    | Success | NonzeroExit | Timeout | CommandCancelled | PolicyRejected
    | LaunchFailed | OutputArtifactFailed | InternalError

  /** Text is its UTF-8 bytes. */
  type Bytes = seq<nat>

  datatype Artifact = Artifact(
    correlation: string,
    complete: bool,
    observed: nat,
    sourceRetained: nat,
    redactedObserved: nat,
    stored: nat)
  {
    predicate Valid() {
      && observed <= MAX_ARTIFACT_BYTES && redactedObserved <= MAX_ARTIFACT_BYTES
      && sourceRetained <= observed && stored <= redactedObserved
      && (complete <==> sourceRetained == observed && stored == redactedObserved)
    }
  }

  datatype Output = Output(
    text: Bytes,
    observed: nat,
    retained: nat,
    truncated: bool,
    redactionTruncated: bool,
    artifact: Option<Artifact>)
  {
    predicate Valid() {
      && 0 !in text && |text| <= MAX_OUTPUT_BYTES
      && observed <= MAX_ARTIFACT_BYTES
      && retained <= MAX_OUTPUT_BYTES && retained <= observed
      && (truncated <==> retained < observed)
      && (artifact.Some? ==> (truncated || redactionTruncated) && artifact.value.Valid())
    }
  }

  const EMPTY_OUTPUT := Output([], 0, 0, false, false, None)

  datatype Evidence = Evidence(
    planId: string,
    owner: Owner,
    commandId: string,
    sequence: nat,
    classification: CommandClass,
    status: Status,
    commandStatus: Option<CommandStatus>,
    startedAt: int,
    completedAt: int,
    durationMs: nat,
    executable: string,
    resolvedExecutable: Option<string>,
    correlation: string,
    exitCode: Option<int>,
    expectedExitCodes: seq<nat>,
    stdout: Output,
    stderr: Output,
    failure: Option<string>)
  {
    predicate Valid() {
      && 1 <= sequence <= MAX_COMMANDS
      && durationMs <= MAX_DURATION_MS
      && completedAt - startedAt == durationMs * 1_000
      && (resolvedExecutable.Some? ==> Absolute(resolvedExecutable.value))
      && (exitCode.Some? ==> 0 <= exitCode.value < 0x1_0000_0000)
      && status != PassedWithAdvisories
      && (status == Passed ==>
            && commandStatus == Some(Success)
            && exitCode.Some? && exitCode.value in expectedExitCodes
            && failure.None?)
      && (status != Passed ==> failure.Some?)
      && (status == NotRun ==> commandStatus.None? && exitCode.None? && durationMs == 0)
      && (commandStatus.None? ==>
            status in {NotRun, StatusCancelled, Invalid} && exitCode.None? && durationMs == 0)
      && stdout.Valid() && stderr.Valid()
      && (stdout.artifact.Some? ==> stdout.artifact.value.correlation == correlation)
      && (stderr.artifact.Some? ==> stderr.artifact.value.correlation == correlation)
    }
  }

  predicate Absolute(path: string) {
    |path| > 0 && path[0] == '/'
  }

  function Correlate(planId: string, commandId: string): string {
    planId + "." + commandId
  }

  // ---- Aggregation ------------------------------------------------------------------------

  datatype Summary = Summary(
    total: nat, passed: nat, failed: nat, timedOut: nat, cancelled: nat,
    blocked: nat, unavailable: nat, invalid: nat, notRun: nat)

  datatype PlanResult = PlanResult(
    planId: string,
    owner: Owner,
    startedAt: int,
    completedAt: int,
    status: Status,
    commands: seq<Evidence>,
    summary: Summary,
    requiredPassed: bool,
    allComplete: bool,
    advisoryAccepted: bool,
    cancelled: bool)
  {
    predicate Approvable() {
      status in {Passed, PassedWithAdvisories} && requiredPassed && allComplete
    }

    /** The validity conditions of a plan result, as its model enforces them. */
    ghost predicate Valid() {
      && startedAt <= completedAt && commands != []
      && (forall i :: 0 <= i < |commands| ==> commands[i].sequence == i + 1)
      && (forall i, j :: 0 <= i < j < |commands| ==> commands[i].commandId != commands[j].commandId)
      && (forall e :: e in commands ==> e.planId == planId && e.owner == owner)
      && summary == Summarize(commands)
      && summary.passed + summary.failed + summary.timedOut + summary.cancelled + summary.blocked
         + summary.unavailable + summary.invalid + summary.notRun == summary.total
      && (cancelled <==> exists e :: e in commands && e.status == StatusCancelled)
      && (status == Passed ==>
            requiredPassed && allComplete && summary.passed == summary.total && !advisoryAccepted)
      && (status == PassedWithAdvisories ==>
            requiredPassed && allComplete && summary.failed > 0 && advisoryAccepted)
    }
  }

  function Count(es: seq<Evidence>, st: Status): nat {
    if es == [] then 0
    else Count(es[..|es| - 1], st) + if es[|es| - 1].status == st then 1 else 0
  }

  function Summarize(es: seq<Evidence>): Summary {
    Summary(|es|, Count(es, Passed), Count(es, StatusFailed), Count(es, TimedOut), Count(es, StatusCancelled),
            Count(es, StatusBlocked), Count(es, Unavailable), Count(es, Invalid), Count(es, NotRun))
  }

  function Earliest(es: seq<Evidence>): int
    requires es != []
  {
    if |es| == 1 then es[0].startedAt
    else
      var rest := Earliest(es[..|es| - 1]);
      if es[|es| - 1].startedAt < rest then es[|es| - 1].startedAt else rest
  }

  function Latest(es: seq<Evidence>): int
    requires es != []
  {
    if |es| == 1 then es[0].completedAt
    else
      var rest := Latest(es[..|es| - 1]);
      if es[|es| - 1].completedAt > rest then es[|es| - 1].completedAt else rest
  }

  /** Evidence number `i` belongs to command number `i` of the plan. */
  predicate Correlated(plan: Plan, es: seq<Evidence>, i: nat)
    requires i < |plan.commands| && i < |es|
  {
    var c, e := plan.commands[i], es[i];
    && e.sequence == i + 1
    && e.commandId == c.id
    && e.planId == plan.id
    && e.owner == plan.owner
    && e.classification == c.classification
    && e.executable == c.executable
    && e.expectedExitCodes == c.expectedExitCodes
    && e.correlation == Correlate(plan.id, c.id)
  }

  /** Evidence number `i` starts neither before the plan nor before its predecessor completed. */
  predicate InOrder(plan: Plan, es: seq<Evidence>, i: nat)
    requires i < |es|
  {
    plan.createdAt <= es[i].startedAt && (i > 0 ==> es[i - 1].completedAt <= es[i].startedAt)
  }

  predicate Accepts(plan: Plan, es: seq<Evidence>) {
    |es| == |plan.commands| &&
    forall i :: 0 <= i < |es| ==> Correlated(plan, es, i) && InOrder(plan, es, i)
  }

  /** A command either passed, or it is an advisory failure the plan accepts. */
  predicate AllowedOutcome(plan: Plan, e: Evidence) {
    e.status == Passed || (e.classification == Advisory && e.status == StatusFailed && plan.allowAdvisoryFailures)
  }

  predicate Incomplete(st: Status) {
    st in {TimedOut, StatusCancelled, StatusBlocked, Unavailable, Invalid, NotRun}
  }

  predicate AnyWith(es: seq<Evidence>, st: Status) {
    exists e :: e in es && e.status == st
  }

  function FailureStatus(es: seq<Evidence>): Status {
    if AnyWith(es, StatusCancelled) then StatusCancelled
    else if AnyWith(es, TimedOut) then TimedOut
    else if AnyWith(es, Invalid) then Invalid
    else if AnyWith(es, Unavailable) then Unavailable
    else if AnyWith(es, StatusBlocked) then StatusBlocked
    else if AnyWith(es, StatusFailed) then StatusFailed
    else Invalid
  }

  predicate RequiredPassed(es: seq<Evidence>) {
    forall e :: e in es && e.classification == Required ==> e.status == Passed
  }

  predicate AllComplete(es: seq<Evidence>) {
    forall e :: e in es ==> !Incomplete(e.status)
  }

  predicate AdvisoryFailed(es: seq<Evidence>) {
    exists e :: e in es && e.classification == Advisory && e.status == StatusFailed
  }

  predicate OnlyAllowed(plan: Plan, es: seq<Evidence>) {
    forall e :: e in es ==> AllowedOutcome(plan, e)
  }

  function AggregateAccepted(plan: Plan, es: seq<Evidence>): PlanResult
    requires es != []
  {
    var passing := RequiredPassed(es) && AllComplete(es) && OnlyAllowed(plan, es);
    var advisoryAccepted := AdvisoryFailed(es) && plan.allowAdvisoryFailures && passing;
    PlanResult(
      plan.id, plan.owner, Earliest(es), Latest(es),
      if passing then if advisoryAccepted then PassedWithAdvisories else Passed else FailureStatus(es),
      es, Summarize(es), RequiredPassed(es), AllComplete(es), advisoryAccepted,
      AnyWith(es, StatusCancelled))
  }

  datatype EvidenceError = EvidenceRejected

  /** aggregate_validation_results */
  function Aggregate(plan: Plan, es: seq<Evidence>): Result<PlanResult, EvidenceError> {
    if !Accepts(plan, es) || es == [] then Err(EvidenceRejected) else Ok(AggregateAccepted(plan, es))
  }

  /** The aggregator's correlation loop: it accepts exactly the evidence of `Accepts`. */
  method CheckEvidence(plan: Plan, es: seq<Evidence>) returns (accepted: bool)
    ensures accepted <==> Accepts(plan, es)
  {
    if |es| != |plan.commands| {
      return false;
    }
    var previousCompleted: Option<int> := None;
    for i := 0 to |es|
      invariant forall k :: 0 <= k < i ==> Correlated(plan, es, k) && InOrder(plan, es, k)
      invariant previousCompleted == if i == 0 then None else Some(es[i - 1].completedAt)
    {
      var c, e := plan.commands[i], es[i];
      if e.sequence != i + 1 || e.commandId != c.id || e.planId != plan.id || e.owner != plan.owner
         || e.classification != c.classification || e.executable != c.executable
         || e.expectedExitCodes != c.expectedExitCodes || e.correlation != Correlate(plan.id, c.id)
      {
        assert !Correlated(plan, es, i);
        return false;
      }
      if e.startedAt < plan.createdAt || (previousCompleted.Some? && e.startedAt < previousCompleted.value) {
        assert !InOrder(plan, es, i);
        return false;
      }
      previousCompleted := Some(e.completedAt);
    }
    accepted := true;
  }

  /** The aggregator: the correlation loop, then the statuses over all the evidence. */
  method AggregateResults(plan: Plan, es: seq<Evidence>) returns (out: Result<PlanResult, EvidenceError>)
    ensures out == Aggregate(plan, es)
    ensures out.Ok? && (forall i :: 0 <= i < |es| ==> es[i].status != PassedWithAdvisories) ==>
              AggregateTells(plan, es, out.value)
  {
    if Aggregate(plan, es).Ok? && forall i :: 0 <= i < |es| ==> es[i].status != PassedWithAdvisories {
      AggregateIsExact(plan, es);
    }
    var accepted := CheckEvidence(plan, es);
    out := if !accepted || es == [] then Err(EvidenceRejected) else Ok(AggregateAccepted(plan, es));
  }

  // ---- What an aggregate means ------------------------------------------------------------

  lemma CountsAddUp(es: seq<Evidence>)
    requires forall e :: e in es ==> e.status != PassedWithAdvisories
    ensures Count(es, Passed) + Count(es, StatusFailed) + Count(es, TimedOut) + Count(es, StatusCancelled)
            + Count(es, StatusBlocked) + Count(es, Unavailable) + Count(es, Invalid) + Count(es, NotRun) == |es|
  {
    if es != [] {
      var front := es[..|es| - 1];
      assert es[|es| - 1] in es;
      CountsAddUp(front);
    }
  }

  lemma CountAll(es: seq<Evidence>, st: Status)
    requires forall e :: e in es ==> e.status == st
    ensures Count(es, st) == |es|
  {
  }

  lemma CountSome(es: seq<Evidence>, st: Status)
    ensures Count(es, st) > 0 <==> AnyWith(es, st)
  {
    if es != [] {
      var front, last := es[..|es| - 1], es[|es| - 1];
      CountSome(front, st);
      assert es == front + [last];
    }
  }

  lemma BoundsOrdered(es: seq<Evidence>)
    requires es != [] && forall e :: e in es ==> e.startedAt <= e.completedAt
    ensures Earliest(es) <= es[0].startedAt && es[0].completedAt <= Latest(es)
  {
    assert es[0] in es;
    if |es| > 1 {
      BoundsOrdered(es[..|es| - 1]);
    }
  }

  lemma FailureIsNotApproval(es: seq<Evidence>)
    ensures FailureStatus(es) !in {Passed, PassedWithAdvisories, NotRun}
  {
  }

  /** Approval means that every single command passed or is an accepted advisory failure. */
  lemma ApprovableExactly(plan: Plan, es: seq<Evidence>)
    requires Aggregate(plan, es).Ok?
    ensures Aggregate(plan, es).value.Approvable() <==> OnlyAllowed(plan, es)
  {
    FailureIsNotApproval(es);
  }

  lemma AcceptedIdentities(plan: Plan, es: seq<Evidence>)
    requires plan.Valid() && Accepts(plan, es)
    ensures forall i :: 0 <= i < |es| ==> es[i].sequence == i + 1
    ensures forall i, j :: 0 <= i < j < |es| ==> es[i].commandId != es[j].commandId
    ensures forall e :: e in es ==> e.planId == plan.id && e.owner == plan.owner
  {
    forall i | 0 <= i < |es|
      ensures es[i].sequence == i + 1 && es[i].commandId == plan.commands[i].id
      ensures es[i].planId == plan.id && es[i].owner == plan.owner
    {
      assert Correlated(plan, es, i);
    }
  }

  lemma PassingCounts(plan: Plan, es: seq<Evidence>)
    requires es != []
    ensures var r := AggregateAccepted(plan, es);
            && (r.status == Passed ==> Count(es, Passed) == |es|)
            && (r.status == PassedWithAdvisories ==> Count(es, StatusFailed) > 0)
  {
    FailureIsNotApproval(es);
    var r := AggregateAccepted(plan, es);
    if r.status == Passed {
      CountAll(es, Passed);
    } else if r.status == PassedWithAdvisories {
      CountSome(es, StatusFailed);
    }
  }

  /** The aggregate of valid evidence always satisfies the plan-result model. */
  lemma AggregateIsValid(plan: Plan, es: seq<Evidence>)
    requires plan.Valid() && Aggregate(plan, es).Ok?
    requires forall e :: e in es ==> e.status != PassedWithAdvisories && e.startedAt <= e.completedAt
    ensures Aggregate(plan, es).value.Valid()
  {
    CountsAddUp(es);
    BoundsOrdered(es);
    AcceptedIdentities(plan, es);
    PassingCounts(plan, es);
    FailureIsNotApproval(es);
  }

  /** The commands with this status. */
  function Having(es: seq<Evidence>, st: Status): set<int> {
    set i | 0 <= i < |es| && es[i].status == st
  }

  lemma HavingSnoc(front: seq<Evidence>, e: Evidence, st: Status)
    ensures Having(front + [e], st) == Having(front, st) + if e.status == st then {|front|} else {}
  {
    var es := front + [e];
    forall i: int ensures i in Having(es, st) <==> i in Having(front, st) || (i == |front| && e.status == st) {
      if 0 <= i < |front| { assert es[i] == front[i]; }
    }
  }

  lemma {:induction false} CountIsCardinality(es: seq<Evidence>, st: Status)
    ensures Count(es, st) == |Having(es, st)|
  {
    if es != [] {
      var front, last := es[..|es| - 1], es[|es| - 1];
      CountIsCardinality(front, st);
      HavingSnoc(front, last, st);
      assert es == front + [last] && |front| !in Having(front, st);
    }
  }

  lemma {:induction false} BoundsAreReached(es: seq<Evidence>)
    requires es != []
    ensures (forall i :: 0 <= i < |es| ==> Earliest(es) <= es[i].startedAt && es[i].completedAt <= Latest(es))
    ensures exists i :: 0 <= i < |es| && es[i].startedAt == Earliest(es)
    ensures exists i :: 0 <= i < |es| && es[i].completedAt == Latest(es)
  {
    var n := |es| - 1;
    if n == 0 {
      assert es[0].startedAt == Earliest(es) && es[0].completedAt == Latest(es);
    } else {
      var front := es[..n];
      BoundsAreReached(front);
      var i :| 0 <= i < n && front[i].startedAt == Earliest(front);
      var k :| 0 <= k < n && front[k].completedAt == Latest(front);
      assert es[i] == front[i] && es[k] == front[k];
      assert es[n].startedAt == Earliest(es) || es[i].startedAt == Earliest(es);
      assert es[n].completedAt == Latest(es) || es[k].completedAt == Latest(es);
    }
  }

  predicate SomeWith(es: seq<Evidence>, st: Status) {
    exists i :: 0 <= i < |es| && es[i].status == st
  }

  /** The worst status decides: a cancellation, else a timeout, else invalid evidence, else a missing
      executable, else a blocked command, else a failure. */
  predicate WorstStatus(es: seq<Evidence>, st: Status) {
    if SomeWith(es, StatusCancelled) then st == StatusCancelled
    else if SomeWith(es, TimedOut) then st == TimedOut
    else if SomeWith(es, Invalid) then st == Invalid
    else if SomeWith(es, Unavailable) then st == Unavailable
    else if SomeWith(es, StatusBlocked) then st == StatusBlocked
    else if SomeWith(es, StatusFailed) then st == StatusFailed
    else st == Invalid
  }

  lemma FailureIsTheWorst(es: seq<Evidence>)
    ensures WorstStatus(es, FailureStatus(es))
  {
    forall st: Status ensures AnyWith(es, st) <==> SomeWith(es, st) { AnyIsSome(es, st); }
  }

  lemma AnyIsSome(es: seq<Evidence>, st: Status)
    ensures AnyWith(es, st) <==> SomeWith(es, st)
  {
    if SomeWith(es, st) {
      var i :| 0 <= i < |es| && es[i].status == st;
      assert es[i] in es;
    }
  }

  /** Every field of an aggregate, told from the commands. */
  ghost predicate AggregateTells(plan: Plan, es: seq<Evidence>, r: PlanResult) {
    && |es| == |plan.commands| && r.planId == plan.id && r.owner == plan.owner && r.commands == es
    && TimesTell(es, r) && SummaryTells(es, r.summary) && VerdictsTell(plan, es, r) && PlanStatusTells(plan, es, r)
  }

  ghost predicate TimesTell(es: seq<Evidence>, r: PlanResult) {
    && (forall i :: 0 <= i < |es| ==> r.startedAt <= es[i].startedAt && es[i].completedAt <= r.completedAt)
    && (exists i :: 0 <= i < |es| && es[i].startedAt == r.startedAt)
    && (exists i :: 0 <= i < |es| && es[i].completedAt == r.completedAt)
  }

  ghost predicate VerdictsTell(plan: Plan, es: seq<Evidence>, r: PlanResult)
    requires |es| <= |plan.commands|
  {
    && (r.requiredPassed <==>
          forall i :: 0 <= i < |es| && plan.commands[i].classification == Required ==> es[i].status == Passed)
    && (r.allComplete <==> forall i :: 0 <= i < |es| ==> es[i].status in {Passed, StatusFailed, PassedWithAdvisories})
    && (r.cancelled <==> exists i :: 0 <= i < |es| && es[i].status == StatusCancelled)
  }

  predicate SummaryTells(es: seq<Evidence>, s: Summary) {
    && s.total == |es| && s.passed == |Having(es, Passed)| && s.failed == |Having(es, StatusFailed)|
    && s.timedOut == |Having(es, TimedOut)| && s.cancelled == |Having(es, StatusCancelled)|
    && s.blocked == |Having(es, StatusBlocked)| && s.unavailable == |Having(es, Unavailable)|
    && s.invalid == |Having(es, Invalid)| && s.notRun == |Having(es, NotRun)|
  }

  /** A passing plan has only passes and advisory failures it accepts; it passed with advisories if it
      has such a failure. Any other plan has the worst status of its commands. */
  ghost predicate PlanStatusTells(plan: Plan, es: seq<Evidence>, r: PlanResult)
    requires |es| <= |plan.commands|
  {
    var fine := forall i :: 0 <= i < |es| ==>
                  || es[i].status == Passed
                  || (plan.commands[i].classification == Advisory && es[i].status == StatusFailed
                      && plan.allowAdvisoryFailures);
    && (r.status == Passed <==> forall i :: 0 <= i < |es| ==> es[i].status == Passed)
    && (r.status == PassedWithAdvisories <==> fine && exists i :: 0 <= i < |es| && es[i].status == StatusFailed)
    && (r.advisoryAccepted <==> r.status == PassedWithAdvisories)
    && (!fine ==> WorstStatus(es, r.status))
  }

  lemma SummaryCounts(es: seq<Evidence>)
    ensures SummaryTells(es, Summarize(es))
  {
    CountIsCardinality(es, Passed);
    CountIsCardinality(es, StatusFailed);
    CountIsCardinality(es, TimedOut);
    CountIsCardinality(es, StatusCancelled);
    CountIsCardinality(es, StatusBlocked);
    CountIsCardinality(es, Unavailable);
    CountIsCardinality(es, Invalid);
    CountIsCardinality(es, NotRun);
  }

  /** The verdicts, command by command. */
  lemma VerdictsByCommand(plan: Plan, es: seq<Evidence>)
    requires Accepts(plan, es)
    ensures RequiredPassed(es) <==>
              forall i :: 0 <= i < |es| && plan.commands[i].classification == Required ==> es[i].status == Passed
    ensures OnlyAllowed(plan, es) <==> forall i :: 0 <= i < |es| ==>
              || es[i].status == Passed
              || (plan.commands[i].classification == Advisory && es[i].status == StatusFailed
                  && plan.allowAdvisoryFailures)
  {
    forall i | 0 <= i < |es| ensures es[i].classification == plan.commands[i].classification && es[i] in es {
      assert Correlated(plan, es, i);
    }
  }

  lemma StatusIsTold(plan: Plan, es: seq<Evidence>)
    requires Accepts(plan, es) && es != [] && forall i :: 0 <= i < |es| ==> es[i].status != PassedWithAdvisories
    ensures PlanStatusTells(plan, es, AggregateAccepted(plan, es))
  {
    VerdictsByCommand(plan, es);
    FailureIsTheWorst(es);
    FailureIsNotApproval(es);
    AdvisoriesTell(plan, es);
  }

  lemma AdvisoriesTell(plan: Plan, es: seq<Evidence>)
    requires Accepts(plan, es)
    ensures OnlyAllowed(plan, es) ==> (AdvisoryFailed(es) <==>
                                       exists i :: 0 <= i < |es| && es[i].status == StatusFailed)
    ensures OnlyAllowed(plan, es) && AdvisoryFailed(es) ==> plan.allowAdvisoryFailures
  {
    forall i | 0 <= i < |es| ensures es[i] in es {}
  }

  /** The aggregate tells exactly what the commands say. */
  lemma AggregateIsExact(plan: Plan, es: seq<Evidence>)
    requires Aggregate(plan, es).Ok? && forall i :: 0 <= i < |es| ==> es[i].status != PassedWithAdvisories
    ensures AggregateTells(plan, es, Aggregate(plan, es).value)
  {
    BoundsAreReached(es);
    SummaryCounts(es);
    VerdictsAreTold(plan, es);
    StatusIsTold(plan, es);
  }

  lemma VerdictsAreTold(plan: Plan, es: seq<Evidence>)
    requires Accepts(plan, es) && es != []
    ensures VerdictsTell(plan, es, AggregateAccepted(plan, es))
  {
    VerdictsByCommand(plan, es);
    CompletenessByCommand(es);
    AnyIsSome(es, StatusCancelled);
  }

  lemma CompletenessByCommand(es: seq<Evidence>)
    ensures AllComplete(es) <==>
              forall i :: 0 <= i < |es| ==> es[i].status in {Passed, StatusFailed, PassedWithAdvisories}
  {
    forall i | 0 <= i < |es|
      ensures es[i] in es && (!Incomplete(es[i].status) <==>
                              es[i].status in {Passed, StatusFailed, PassedWithAdvisories})
    {
      CompleteStatuses(es[i].status);
    }
  }

  lemma CompleteStatuses(st: Status)
    ensures !Incomplete(st) <==> st in {Passed, StatusFailed, PassedWithAdvisories}
  {
    match st
    case NotRun =>
    case _ =>
  }

  // ---- Projection and replay --------------------------------------------------------------

  function StripOutput(o: Output): Output {
    o.(text := [])
  }

  function StripEvidence(e: Evidence): Evidence {
    e.(stdout := StripOutput(e.stdout), stderr := StripOutput(e.stderr))
  }

  function StripAll(es: seq<Evidence>): (out: seq<Evidence>)
    ensures |out| == |es|
    ensures forall i :: 0 <= i < |es| ==> out[i] == StripEvidence(es[i])
  {
    seq(|es|, i requires 0 <= i < |es| => StripEvidence(es[i]))
  }

  /** _project_validation_result: command text is removed before evidence is journaled. */
  function Project(r: PlanResult): PlanResult {
    r.(commands := StripAll(r.commands))
  }

  lemma StripKeepsCounts(es: seq<Evidence>, st: Status)
    ensures Count(StripAll(es), st) == Count(es, st)
  {
    if es != [] {
      StripKeepsCounts(es[..|es| - 1], st);
      assert StripAll(es)[..|es| - 1] == StripAll(es[..|es| - 1]);
    }
  }

  lemma StripKeepsBounds(es: seq<Evidence>)
    requires es != []
    ensures Earliest(StripAll(es)) == Earliest(es) && Latest(StripAll(es)) == Latest(es)
  {
    if |es| > 1 {
      StripKeepsBounds(es[..|es| - 1]);
      assert StripAll(es)[..|es| - 1] == StripAll(es[..|es| - 1]);
    }
  }

  lemma StripKeepsAcceptance(plan: Plan, es: seq<Evidence>)
    ensures Accepts(plan, StripAll(es)) <==> Accepts(plan, es)
  {
    var out := StripAll(es);
    if |es| == |plan.commands| {
      forall i | 0 <= i < |es|
        ensures Correlated(plan, out, i) <==> Correlated(plan, es, i)
        ensures InOrder(plan, out, i) <==> InOrder(plan, es, i)
      {
      }
    }
  }

  lemma StripKeepsAny(es: seq<Evidence>, st: Status)
    ensures AnyWith(StripAll(es), st) <==> AnyWith(es, st)
  {
    CountSome(es, st);
    CountSome(StripAll(es), st);
    StripKeepsCounts(es, st);
  }

  lemma StripKeepsFailureStatus(es: seq<Evidence>)
    ensures FailureStatus(StripAll(es)) == FailureStatus(es)
  {
    StripKeepsAny(es, StatusCancelled);
    StripKeepsAny(es, TimedOut);
    StripKeepsAny(es, Invalid);
    StripKeepsAny(es, Unavailable);
    StripKeepsAny(es, StatusBlocked);
    StripKeepsAny(es, StatusFailed);
  }

  lemma StripKeepsSummary(es: seq<Evidence>)
    ensures Summarize(StripAll(es)) == Summarize(es)
  {
    StripKeepsCounts(es, Passed);
    StripKeepsCounts(es, StatusFailed);
    StripKeepsCounts(es, TimedOut);
    StripKeepsCounts(es, StatusCancelled);
    StripKeepsCounts(es, StatusBlocked);
    StripKeepsCounts(es, Unavailable);
    StripKeepsCounts(es, Invalid);
    StripKeepsCounts(es, NotRun);
  }

  lemma StripKeepsVerdicts(plan: Plan, es: seq<Evidence>)
    ensures RequiredPassed(StripAll(es)) == RequiredPassed(es)
    ensures AllComplete(StripAll(es)) == AllComplete(es)
    ensures AdvisoryFailed(StripAll(es)) == AdvisoryFailed(es)
    ensures OnlyAllowed(plan, StripAll(es)) == OnlyAllowed(plan, es)
  {
    var out := StripAll(es);
    forall i | 0 <= i < |es|
      ensures out[i].status == es[i].status && out[i].classification == es[i].classification
    {
    }
    VerdictsFromStatuses(plan, es, out);
    VerdictsFromStatuses(plan, out, es);
  }

  /** The verdicts look at statuses and classes only. */
  lemma VerdictsFromStatuses(plan: Plan, a: seq<Evidence>, b: seq<Evidence>)
    requires |a| == |b|
    requires forall i :: 0 <= i < |a| ==> a[i].status == b[i].status && a[i].classification == b[i].classification
    ensures RequiredPassed(a) ==> RequiredPassed(b)
    ensures AllComplete(a) ==> AllComplete(b)
    ensures AdvisoryFailed(a) ==> AdvisoryFailed(b)
    ensures OnlyAllowed(plan, a) ==> OnlyAllowed(plan, b)
  {
    forall e | e in b
      ensures exists d :: d in a && d.status == e.status && d.classification == e.classification
    {
      var i :| 0 <= i < |b| && b[i] == e;
      assert a[i] in a;
    }
    if AdvisoryFailed(a) {
      var i :| 0 <= i < |a| && a[i].classification == Advisory && a[i].status == StatusFailed;
      assert b[i] in b;
    }
  }

  lemma ProjectionCommutesAccepted(plan: Plan, es: seq<Evidence>)
    requires es != []
    ensures AggregateAccepted(plan, StripAll(es)) == Project(AggregateAccepted(plan, es))
  {
    StripKeepsSummary(es);
    StripKeepsBounds(es);
    StripKeepsFailureStatus(es);
    StripKeepsAny(es, StatusCancelled);
    StripKeepsVerdicts(plan, es);
  }

  /** Aggregating text-stripped evidence equals stripping the aggregate, rejections included. */
  lemma ProjectionCommutes(plan: Plan, es: seq<Evidence>)
    ensures Aggregate(plan, es).Err? ==> Aggregate(plan, StripAll(es)).Err?
    ensures Aggregate(plan, es).Ok? ==> Aggregate(plan, StripAll(es)) == Ok(Project(Aggregate(plan, es).value))
  {
    StripKeepsAcceptance(plan, es);
    if es != [] {
      ProjectionCommutesAccepted(plan, es);
    }
  }

  /** What the gate replays on journaled evidence reproduces that evidence exactly. */
  lemma ReplayIsStable(plan: Plan, es: seq<Evidence>)
    requires Aggregate(plan, es).Ok?
    ensures var journaled := Project(Aggregate(plan, es).value);
            && Aggregate(plan, journaled.commands) == Ok(journaled)
            && journaled.Approvable() == Aggregate(plan, es).value.Approvable()
  {
    ProjectionCommutes(plan, es);
  }
}
