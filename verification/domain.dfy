/** The run entity and its single transition function
    (src/revanent/domain/models.py, src/revanent/domain/state_machine.py). */
module Domain {

  datatype Option<+T> = None | Some(value: T)

  datatype Result<+T, +E> = Ok(value: T) | Err(error: E)

  datatype RunState =
    | Created | Planning | ContextPreparing | WorkspacePreparing
    | Building | Validating | Reviewing | Repairing
    | Approved | Failed | Blocked | Cancelled
  {
    predicate Terminal() {
      this in {Approved, Failed, Blocked, Cancelled}
    }
  }

  datatype CounterKind = BuildCounter | ReviewCounter | RepairCounter

  datatype Verdict = VerdictApproved | VerdictChanges | VerdictBlocked

  datatype Severity = Low | Medium | High | Critical {
    /** Presentation order of findings: the most severe first. */
    function Rank(): nat {
      match this
      case Critical => 0
      case High => 1
      case Medium => 2
      case Low => 3
    }
  }

  datatype Finding = Finding(severity: Severity, summary: string)

  datatype Review = Review(verdict: Verdict, findings: seq<Finding>) {
    /** An approving review may not carry high or critical findings. */
    ghost predicate Valid() {
      verdict == VerdictApproved ==>
        forall f :: f in findings ==> f.severity in {Low, Medium}
    }
  }

  datatype GateName =
    | ReviewVerdictGate | RequiredValidationGate | ReviewSchemaGate | ScopeGate
    | GeneratedFilesGate | EvidenceGate | DirtyStateGate

  datatype ApprovalGate = ApprovalGate(
    review: Review,
    requiredValidationPassed: bool,
    reviewSchemaParsed: bool,
    scopeJustified: bool,
    generatedFilesConsistent: bool,
    evidenceComplete: bool,
    unexplainedDirtyState: bool)
  {
    function FailedGates(): seq<GateName> {
      (if review.verdict != VerdictApproved then [ReviewVerdictGate] else []) +
      (if !requiredValidationPassed then [RequiredValidationGate] else []) +
      (if !reviewSchemaParsed then [ReviewSchemaGate] else []) +
      (if !scopeJustified then [ScopeGate] else []) +
      (if !generatedFilesConsistent then [GeneratedFilesGate] else []) +
      (if !evidenceComplete then [EvidenceGate] else []) +
      (if unexplainedDirtyState then [DirtyStateGate] else [])
    }

    predicate Satisfied() {
      FailedGates() == []
    }
  }

  datatype Budgets = Budgets(
    maxDurationSeconds: nat,
    maxBuild: nat,
    maxReview: nat,
    maxRepair: nat,
    remoteTokenCeiling: Option<nat>,
    costCeilingSet: bool)
  {
    predicate Valid() {
      && 1 <= maxDurationSeconds <= 604_800
      && 1 <= maxBuild <= 100
      && 1 <= maxReview <= 100
      && maxRepair <= 100
      && (remoteTokenCeiling.Some? ==> 1 <= remoteTokenCeiling.value)
    }
  }

  datatype Counters = Counters(build: nat, review: nat, repair: nat) {
    function Bump(kind: Option<CounterKind>): Counters {
      match kind
      case None => this
      case Some(BuildCounter) => this.(build := build + 1)
      case Some(ReviewCounter) => this.(review := review + 1)
      case Some(RepairCounter) => this.(repair := repair + 1)
    }
  }

  /** Times are integer microseconds. */
  datatype Run = Run(
    budgets: Budgets,
    state: RunState,
    attempts: Counters,
    createdAt: int,
    updatedAt: int,
    gate: Option<ApprovalGate>)
  {
    predicate Valid() {
      && budgets.Valid()
      && createdAt <= updatedAt
      && (state == Approved <==> gate.Some?)
      && (gate.Some? ==> gate.value.Satisfied())
      && attempts.build <= budgets.maxBuild
      && attempts.review <= budgets.maxReview
      && attempts.repair <= budgets.maxRepair
    }
  }

  function Permitted(source: RunState): set<RunState> {
    match source
    case Created => {Planning, Blocked, Cancelled}
    case Planning => {ContextPreparing, Blocked, Cancelled}
    case ContextPreparing => {WorkspacePreparing, Blocked, Failed, Cancelled}
    case WorkspacePreparing => {Building, Blocked, Cancelled}
    case Building => {Validating, Failed, Blocked, Cancelled}
    case Validating => {Reviewing, Repairing, Failed, Blocked, Cancelled}
    case Reviewing => {Approved, Repairing, Failed, Blocked, Cancelled}
    case Repairing => {Validating, Failed, Blocked, Cancelled}
    case _ => {}
  }

  /** The states of the workflow in their order. */
  function Place(st: RunState): nat {
    match st
    case Created => 0
    case Planning => 1
    case ContextPreparing => 2
    case WorkspacePreparing => 3
    case Building => 4
    case Validating => 5
    case Reviewing => 6
    case Approved => 7
    case _ => 100
  }

  /** The table in words: the workflow goes on to the next state, failing validations and reviews to a
      repair, and a repair back to validation. Every state that is not terminal can be blocked or
      cancelled, and those that run something, context selection included but not the creation of the
      worktree, can fail. */
  lemma PermittedExactly(a: RunState, b: RunState)
    ensures b in Permitted(a) <==>
              && a != Approved && a != Failed && a != Blocked && a != Cancelled
              && (|| b == Blocked || b == Cancelled
                  || (b == Failed && a != Created && a != Planning && a != WorkspacePreparing)
                  || (a != Repairing && Place(b) == Place(a) + 1)
                  || (a == Validating && b == Repairing) || (a == Reviewing && b == Repairing)
                  || (a == Repairing && b == Validating))
  {
  }

  function CounterSource(kind: CounterKind): RunState {
    match kind
    case BuildCounter => Building
    case ReviewCounter => Reviewing
    case RepairCounter => Repairing
  }

  datatype TransitionError =
    | InvalidTransition
    | CounterMismatch
    | TimestampRegressed
    | GateMissing
    | GateUnsatisfied(failed: seq<GateName>)
    | UnexpectedGate
    | InvalidRun

  datatype Transition = Transition(
    source: RunState,
    destination: RunState,
    occurredAt: int,
    increment: Option<CounterKind>)

  /** What a caller asks the state machine for. */
  datatype Request = Request(
    destination: RunState,
    increment: Option<CounterKind>,
    gate: Option<ApprovalGate>)

  function TransitionRun(run: Run, req: Request, occurredAt: int): Result<Run, TransitionError> {
    if req.destination !in Permitted(run.state) then Err(InvalidTransition)
    else if req.increment.Some? && run.state != CounterSource(req.increment.value) then Err(CounterMismatch)
    else if occurredAt < run.updatedAt then Err(TimestampRegressed)
    else if req.destination == Approved && req.gate.None? then Err(GateMissing)
    else if req.destination == Approved && !req.gate.value.Satisfied() then
      Err(GateUnsatisfied(req.gate.value.FailedGates()))
    else if req.destination != Approved && req.gate.Some? then Err(UnexpectedGate)
    else
      var next := run.(
        state := req.destination,
        attempts := run.attempts.Bump(req.increment),
        updatedAt := occurredAt,
        gate := if req.destination == Approved then req.gate else None);
      if next.Valid() then Ok(next) else Err(InvalidRun)
  }

  /** Everything the caller has to respect for a request to be accepted. */
  predicate Acceptable(run: Run, req: Request) {
    && req.destination in Permitted(run.state)
    && (req.increment.Some? ==>
          && run.state == CounterSource(req.increment.value)
          && (match req.increment.value
              case BuildCounter => run.attempts.build < run.budgets.maxBuild
              case ReviewCounter => run.attempts.review < run.budgets.maxReview
              case RepairCounter => run.attempts.repair < run.budgets.maxRepair))
    && (req.destination == Approved <==> req.gate.Some?)
    && (req.gate.Some? ==> req.gate.value.Satisfied())
  }

  /** A valid run accepts exactly the acceptable requests that are not stamped in its past, the
      successor is valid again, keeps its identity and budgets, and carries evidence of approval
      exactly in the approved state. */
  lemma TransitionAcceptedExactly(run: Run, req: Request, occurredAt: int)
    requires run.Valid()
    ensures TransitionRun(run, req, occurredAt).Ok? <==>
              Acceptable(run, req) && run.updatedAt <= occurredAt
    ensures TransitionRun(run, req, occurredAt).Ok? ==>
              var next := TransitionRun(run, req, occurredAt).value;
              && next.Valid()
              && next.state == req.destination
              && next.budgets == run.budgets && next.createdAt == run.createdAt
              && next.updatedAt == occurredAt
              && (next.gate == if next.state == Approved then req.gate else None)
              && next.attempts.build <= run.attempts.build + 1
              && (next.attempts != run.attempts ==> req.increment.Some?)
  {
    assert Approved !in Permitted(Approved);
  }
}
