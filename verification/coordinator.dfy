/** The durable orchestration coordinator as steps over one shared durable state
    (src/revanent/orchestration/service.py over src/revanent/storage/sqlite.py).

    Any number of workers run `execute`, `reconcile` and `cancel`. A worker's local state is the
    point it has reached and what it has read so far; every read, every durable write and every
    start of an external call is a step of its own, and a worker may disappear between any two. */
module Coordinator {
  import opened Domain
  import opened Ids
  import T = Telemetry
  import P = RepairPolicy
  import V = Validation
  import G = ReviewGate

  const MAX_PASSES: nat := 1_024
  const MAX_RECORDS: nat := 1_024
  const MAX_ATTEMPT_SEQUENCE: nat := 100

  // ---- Durable evidence -----------------------------------------------------------------------

  datatype Stage = Intent | Outcome | Reconciliation

  datatype AttemptStatus =
    | Intended | Completed | AttemptFailed | AttemptBlocked | AttemptCancelled | AttemptInvalid

  datatype Effects = KnownNone | KnownPresent | Ambiguous | Incompatible

  /** What the coordinator looks at in a validation result; `plan` is the index of its plan. */
  datatype Checked = Checked(plan: nat, status: V.Status, requiredPassed: bool, allComplete: bool) {
    predicate Approvable() {
      status in {V.Passed, V.PassedWithAdvisories} && requiredPassed && allComplete
    }
  }

  /** What the coordinator looks at in a gate decision. */
  datatype Ruling = Ruling(status: G.GateStatus, gate: Option<ApprovalGate>)

  /** The clock-free content of an attempt: `checked` is the result of a validation, or the
      validation a review was asked about; `safe` belongs to reconciliations. */
  datatype Evidence = Evidence(
    status: AttemptStatus,
    effects: Effects,
    checked: Option<Checked>,
    ruling: Option<Ruling>,
    safe: bool)

  datatype Record = Record(
    id: AttemptId,
    stage: Stage,
    position: nat,
    revision: nat,
    expected: RunState,
    evidence: Evidence,
    writer: nat)

  datatype Stored = Stored(run: Run, revision: nat)

  datatype Event = Event(position: nat, transition: Transition)

  /** An external call that was started. */
  datatype Launch = Launch(id: AttemptId, revision: nat, worker: nat)

  /** `history` (the run at every revision so far) and `launches` are history variables: no step
      reads them. */
  datatype Shared = Shared(
    stored: Stored,
    events: seq<Event>,
    journal: seq<Record>,
    ledger: T.Ledger,
    history: seq<Run>,
    launches: seq<Launch>)

  /** One orchestration request: the number of context requests and of validation plans. */
  datatype Config = Config(contexts: nat, plans: nat, codexAuthorized: bool)

  // ---- Workers --------------------------------------------------------------------------------

  datatype Phase = Claimed | Confirmed | Funded | Running

  datatype Worker =
    | Idle
    | Starting(snap: Stored)
    | Between(pass: nat)
    | Looping(snap: Stored, pass: nat)
    | Exhausted(snap: Stored)
    | Picked(snap: Stored, pass: nat, seqno: nat)
    | Admitted(snap: Stored, pass: nat, seqno: nat, basis: Option<Checked>)
    | Clear(snap: Stored, pass: nat, seqno: nat, basis: Option<Checked>)
    | Refusing(snap: Stored, pass: nat, seqno: nat)
    | Owning(snap: Stored, pass: nat, seqno: nat, at: nat, basis: Option<Checked>, phase: Phase)
    | Responded(snap: Stored, pass: nat, seqno: nat, at: nat, answer: Evidence, denied: Option<T.Verdict>)
    | Settling(snap: Stored, pass: nat, seqno: nat, at: nat)
    | Holding(snap: Stored, pass: nat, seqno: nat, at: nat, own: bool)
    | Refused(snap: Stored, pass: nat, unresolved: bool)
    | ContextAt(snap: Stored, pass: nat, seqno: nat)
    | ContextSelecting(snap: Stored, pass: nat, seqno: nat)
    | ContextFailed(snap: Stored, pass: nat, blocking: bool)
    | Inspecting(snap: Stored)
    | Selected(snap: Stored, at: nat)
    | Resolved(snap: Stored, at: nat, safe: bool)
    | Stopping(snap: Stored)
    | Decided(snap: Stored, req: Request, goesOn: Option<nat>)

  datatype System = System(sh: Shared, workers: map<nat, Worker>) {
    function Of(w: nat): Worker {
      if w in workers then workers[w] else Idle
    }

    function Put(w: nat, wk: Worker): System {
      this.(workers := workers[w := wk])
    }

    function PutWith(sh': Shared, w: nat, wk: Worker): System {
      System(sh', workers[w := wk])
    }
  }

  // ---- Reading the journal --------------------------------------------------------------------

  function StepOf(st: RunState): Option<Step> {
    match st
    case ContextPreparing => Some(ContextStep)
    case WorkspacePreparing => Some(WorkspaceStep)
    case Building => Some(BuildStep)
    case Validating => Some(ValidationStep)
    case Reviewing => Some(ReviewStep)
    case Repairing => Some(RepairStep)
    case _ => None
  }

  function StateOf(step: Step): RunState {
    match step
    case ContextStep => ContextPreparing
    case WorkspaceStep => WorkspacePreparing
    case BuildStep => Building
    case ValidationStep => Validating
    case ReviewStep => Reviewing
    case RepairStep => Repairing
  }

  predicate Known(journal: seq<Record>, id: AttemptId, stage: Stage) {
    exists k :: 0 <= k < |journal| && journal[k].id == id && journal[k].stage == stage
  }

  /** _attempt_records: the first record of an attempt at a stage. */
  function Find(journal: seq<Record>, id: AttemptId, stage: Stage): (at: Option<nat>)
    ensures at.Some? ==> at.value < |journal| && journal[at.value].id == id && journal[at.value].stage == stage
    ensures at.None? <==> !Known(journal, id, stage)
  {
    FindFrom(journal, id, stage, 0)
  }

  function FindFrom(journal: seq<Record>, id: AttemptId, stage: Stage, k: nat): (at: Option<nat>)
    requires k <= |journal|
    ensures at.Some? ==> k <= at.value < |journal| && journal[at.value].id == id && journal[at.value].stage == stage
    ensures at.None? ==> forall i :: k <= i < |journal| ==> !(journal[i].id == id && journal[i].stage == stage)
    decreases |journal| - k
  {
    if k == |journal| then None
    else if journal[k].id == id && journal[k].stage == stage then Some(k)
    else FindFrom(journal, id, stage, k + 1)
  }

  /** _repair_count and the last resort of _next_attempt_sequence. */
  function CountIntents(journal: seq<Record>, step: Step): nat {
    if journal == [] then 0
    else
      var last := journal[|journal| - 1];
      CountIntents(journal[..|journal| - 1], step) + if last.stage == Intent && last.id.step == step then 1 else 0
  }

  predicate AtBoundary(r: Record, snap: Stored, step: Step) {
    r.id.step == step && r.revision == snap.revision && r.expected == snap.run.state && r.stage in {Intent, Outcome}
  }

  /** The latest record of this step at the snapshot's own revision and state. */
  function LastAtBoundary(journal: seq<Record>, snap: Stored, step: Step): (n: Option<nat>)
    ensures n.Some? ==>
              exists k :: 0 <= k < |journal| && AtBoundary(journal[k], snap, step) && journal[k].id.seqno == n.value
    ensures n.None? ==> forall k :: 0 <= k < |journal| ==> !AtBoundary(journal[k], snap, step)
  {
    if journal == [] then None
    else
      var last := journal[|journal| - 1];
      if AtBoundary(last, snap, step) then Some(last.id.seqno)
      else LastAtBoundary(journal[..|journal| - 1], snap, step)
  }

  /** The first intent of this step without an outcome. */
  function FirstPending(journal: seq<Record>, step: Step, k: nat): (n: Option<nat>)
    requires k <= |journal|
    ensures n.Some? ==> exists i :: k <= i < |journal| && journal[i].stage == Intent && journal[i].id.step == step
                                     && !Known(journal, journal[i].id, Outcome) && journal[i].id.seqno == n.value
    decreases |journal| - k
  {
    if k == |journal| then None
    else if journal[k].stage == Intent && journal[k].id.step == step && !Known(journal, journal[k].id, Outcome) then
      Some(journal[k].id.seqno)
    else FirstPending(journal, step, k + 1)
  }

  /** _next_attempt_sequence */
  function NextSequence(journal: seq<Record>, snap: Stored, step: Step): nat {
    match LastAtBoundary(journal, snap, step)
    case Some(n) => n
    case None =>
      match FirstPending(journal, step, 0)
      case Some(n) => n
      case None => 1 + CountIntents(journal, step)
  }

  /** _latest_validation */
  function LatestValidation(journal: seq<Record>): (at: Option<nat>)
    ensures at.Some? ==>
              at.value < |journal| && journal[at.value].stage == Outcome && journal[at.value].id.step == ValidationStep
    ensures at.Some? ==> forall k :: at.value < k < |journal| ==>
                           !(journal[k].stage == Outcome && journal[k].id.step == ValidationStep)
    ensures at.None? ==> forall k :: 0 <= k < |journal| ==>
                           !(journal[k].stage == Outcome && journal[k].id.step == ValidationStep)
  {
    if journal == [] then None
    else
      var last := journal[|journal| - 1];
      if last.stage == Outcome && last.id.step == ValidationStep then Some(|journal| - 1)
      else LatestValidation(journal[..|journal| - 1])
  }

  predicate Mutating(step: Step) {
    step in {WorkspaceStep, BuildStep, RepairStep}
  }

  predicate SafelyReconciled(journal: seq<Record>, id: AttemptId) {
    exists k :: 0 <= k < |journal| && journal[k].id == id && journal[k].stage == Reconciliation
                && journal[k].evidence.safe
  }

  /** _has_unresolved_mutating_side_effects */
  predicate Unresolved(journal: seq<Record>) {
    || (exists k :: 0 <= k < |journal| && journal[k].stage == Intent && Mutating(journal[k].id.step)
                    && !Known(journal, journal[k].id, Outcome) && !SafelyReconciled(journal, journal[k].id))
    || (exists k :: 0 <= k < |journal| && journal[k].stage == Outcome && Mutating(journal[k].id.step)
                    && journal[k].evidence.effects in {Ambiguous, Incompatible}
                    && !SafelyReconciled(journal, journal[k].id))
  }

  // ---- Durable writes -------------------------------------------------------------------------

  datatype Write = NewRecord | Existing | WriteRefused

  /** persist_orchestration_record: compare-and-set on the whole stored run; a record id is created
      at most once, an identical repeat is recognised, a different one is refused. */
  function TryWrite(sh: Shared, snap: Stored, id: AttemptId, stage: Stage, ev: Evidence): Write {
    if snap != sh.stored then WriteRefused
    else
      match Find(sh.journal, id, stage)
      case Some(k) => if sh.journal[k].evidence == ev then Existing else WriteRefused
      case None => NewRecord
  }

  function Append(sh: Shared, w: nat, snap: Stored, id: AttemptId, stage: Stage, ev: Evidence): Shared {
    sh.(journal := sh.journal + [Record(id, stage, |sh.journal| + 1, snap.revision, snap.run.state, ev, w)])
  }

  /** The journal after a write that may have found its record already there. */
  function Written(sh: Shared, w: nat, snap: Stored, id: AttemptId, stage: Stage, ev: Evidence): Shared {
    if TryWrite(sh, snap, id, stage, ev) == NewRecord then Append(sh, w, snap, id, stage, ev) else sh
  }

  /** persist_transition: one revision and one event per accepted transition. */
  function Advance(sh: Shared, req: Request, occurredAt: int, next: Run): Shared {
    var transition := Transition(sh.stored.run.state, req.destination, occurredAt, req.increment);
    sh.(stored := Stored(next, sh.stored.revision + 1),
        events := sh.events + [Event(|sh.events| + 1, transition)],
        history := sh.history + [next])
  }

  function LimitsOf(b: Budgets): T.Limits {
    map[T.BuildAttempts := b.maxBuild, T.ReviewAttempts := b.maxReview,
        T.TotalDuration := b.maxDurationSeconds * 1_000]
    + (if b.maxRepair > 0 then map[T.RepairAttempts := b.maxRepair] else map[])
    + (if b.remoteTokenCeiling.Some? then map[T.RemoteTokens := b.remoteTokenCeiling.value] else map[])
  }

  function DurationDecision(sh: Shared, b: Budgets): T.Verdict {
    T.Decide(sh.ledger, LimitsOf(b), T.TotalDuration, Some(1), false).verdict
  }

  function MetricOf(step: Step): T.Metric {
    match step
    case BuildStep => T.BuildAttempts
    case ReviewStep => T.ReviewAttempts
    case RepairStep => T.RepairAttempts
    case _ => T.TotalDuration
  }

  // ---- Requested transitions ------------------------------------------------------------------

  function Plain(st: RunState): Request {
    Request(st, None, None)
  }

  function Counted(st: RunState, kind: CounterKind): Request {
    Request(st, Some(kind), None)
  }

  predicate DurationDenied(sh: Shared, b: Budgets) {
    DurationDecision(sh, b) !in {T.Allow, T.DenyUnresolved}
  }

  /** The loop head of `execute`, and the handlers of the two states without an attempt. */
  predicate LoopRequests(sh: Shared, snap: Stored, req: Request) {
    var st := snap.run.state;
    // wall clock, worktree verification, reviewer availability, context scope, unresolved capacity
    || req == Plain(Blocked)
    || req == Plain(Cancelled)
    || (req == Plain(Failed) && Failed in Permitted(st))
    || (req == Plain(Failed) && DurationDenied(sh, snap.run.budgets))
    || (st == Created && req == Plain(Planning))
    || (st == Planning && req == Plain(ContextPreparing))
  }

  predicate BuildLimitReached(snap: Stored, seqno: nat) {
    snap.run.attempts.build >= snap.run.budgets.maxBuild || seqno > snap.run.budgets.maxBuild
  }

  predicate ReviewLimitReached(snap: Stored, seqno: nat) {
    snap.run.attempts.review >= snap.run.budgets.maxReview || seqno > snap.run.budgets.maxReview
  }

  predicate RepairLimitReached(snap: Stored, seqno: nat) {
    snap.run.attempts.repair >= snap.run.budgets.maxRepair || seqno > snap.run.budgets.maxRepair
  }

  predicate RepairsUsedUp(sh: Shared, snap: Stored) {
    CountIntents(sh.journal, RepairStep) >= snap.run.budgets.maxRepair
  }

  /** Facts the repair policy takes from outside the journal. */
  datatype RepairFacts = RepairFacts(
    repeatedDefects: nat, highRisk: bool, malformed: bool, localAvailable: bool, codexAvailable: bool, scopeValid: bool)

  function RepairsRemaining(sh: Shared, snap: Stored): int {
    snap.run.budgets.maxRepair - CountIntents(sh.journal, RepairStep)
  }

  function RepairInput(c: Config, sh: Shared, snap: Stored, f: RepairFacts): P.Input
    requires 0 <= RepairsRemaining(sh, snap)
  {
    P.Input(f.repeatedDefects, f.highRisk, f.malformed, f.localAvailable, f.codexAvailable, c.codexAuthorized,
            RepairsRemaining(sh, snap), false, !Unresolved(sh.journal), f.scopeValid, true, false)
  }

  predicate PickedRequests(c: Config, sh: Shared, snap: Stored, seqno: nat, req: Request) {
    var st := snap.run.state;
    || req == Plain(Blocked)  // worktree verification, absent repair authority or adapter
    || (st == Building && BuildLimitReached(snap, seqno) && req == Plain(Failed))
    || (st == Validating && seqno > c.plans && req == Plain(Failed))
    || (st == Reviewing && req == Plain(Failed)
          && (ReviewLimitReached(snap, seqno) || !HasApprovableValidation(sh.journal)))
    || (st == Repairing && req == Plain(Failed))  // limit reached, or the policy refuses
  }

  predicate HasApprovableValidation(journal: seq<Record>) {
    var at := LatestValidation(journal);
    at.Some? && journal[at.value].evidence.checked.Some? && journal[at.value].evidence.checked.value.Approvable()
  }

  /** The effect of an attempt outcome, by state; `own` tells a fresh outcome from one found in the
      journal. */
  predicate OutcomeRequests(sh: Shared, snap: Stored, ev: Evidence, own: bool, req: Request) {
    match snap.run.state
    case WorkspacePreparing =>
      if own then
        if ev.status == Completed then req == Plain(Building) else req == Plain(Blocked)
      else req == Plain(Building) || req == Plain(Blocked)
    case Building => AgentRequests(ev, BuildCounter, req)
    case Repairing => AgentRequests(ev, RepairCounter, req)
    case Validating => ev.checked.Some? && ValidationRequests(sh, snap, ev.checked.value, req)
    case Reviewing => ReviewRequests(sh, snap, ev, req)
    case _ => false
  }

  /** Effects after which the worktree is validated: a build and a repair differ on incompatible ones. */
  predicate MayHaveWritten(effects: Effects, kind: CounterKind) {
    if kind == BuildCounter then effects in {KnownPresent, Ambiguous} else effects != KnownNone
  }

  predicate AgentRequests(ev: Evidence, kind: CounterKind, req: Request) {
    if ev.status == AttemptBlocked then req == Counted(Blocked, kind)
    else if ev.status == AttemptCancelled then req == Counted(Cancelled, kind)
    else if ev.status == Completed || MayHaveWritten(ev.effects, kind) then req == Counted(Validating, kind)
    else req == Counted(Failed, kind)
  }

  predicate ValidationRequests(sh: Shared, snap: Stored, r: Checked, req: Request) {
    if r.Approvable() then req == Plain(Reviewing)
    else if r.status == V.StatusCancelled then req == Plain(Cancelled)
    else if r.status in {V.StatusBlocked, V.Unavailable} then req == Plain(Blocked)
    else if r.status in {V.Invalid, V.TimedOut} then req == Plain(Failed)
    else if RepairsUsedUp(sh, snap) then req == Plain(Failed)
    else req == Plain(Repairing)
  }

  predicate ReviewRequests(sh: Shared, snap: Stored, ev: Evidence, req: Request) {
    if ev.ruling.None? then ev.status == AttemptBlocked && req == Plain(Blocked)
    else if ev.status == AttemptCancelled then req == Counted(Cancelled, ReviewCounter)
    else
      match ev.ruling.value.status
      case Approvable =>
        ev.ruling.value.gate.Some? && req == Request(Approved, Some(ReviewCounter), ev.ruling.value.gate)
      case GateBlocked => req == Counted(Blocked, ReviewCounter)
      case InvalidEvidence => req == Counted(Failed, ReviewCounter)
      case ChangesRequired =>
        if RepairsUsedUp(sh, snap) then req == Plain(Failed) else req == Counted(Repairing, ReviewCounter)
  }

  predicate ResolvedRequests(r: Record, safe: bool, req: Request) {
    if r.id.step == WorkspaceStep && safe then req == Plain(Building)
    else if Mutating(r.id.step) then req == Plain(Blocked)
    else req == Plain(Failed)
  }

  /** Every transition a worker can ask for from where it stands. */
  predicate Requests(c: Config, sh: Shared, wk: Worker, req: Request) {
    match wk
    case Starting(snap) => req == Plain(Blocked)
    case Looping(snap, _) => LoopRequests(sh, snap, req)
    case Exhausted(snap) => req == Plain(Failed)
    case Picked(snap, _, seqno) => PickedRequests(c, sh, snap, seqno, req)
    case Clear(snap, _, _, _) => snap.run.state == Validating && req == Plain(Failed)
    case Holding(snap, _, _, at, own) =>
      at < |sh.journal| && OutcomeRequests(sh, snap, sh.journal[at].evidence, own, req)
    case Refused(snap, _, unresolved) => req == Plain(if unresolved then Blocked else Failed)
    case ContextAt(snap, _, i) => req == Plain(if i > c.contexts then WorkspacePreparing else Blocked)
    case ContextFailed(snap, _, blocking) => req == Plain(if blocking then Blocked else Failed)
    case Selected(snap, at) =>
      && at < |sh.journal| && req == Plain(Blocked)
      && (sh.journal[at].expected != snap.run.state || sh.journal[at].revision != snap.revision)
    case Resolved(snap, at, safe) => at < |sh.journal| && ResolvedRequests(sh.journal[at], safe, req)
    case Stopping(snap) => req == Plain(Cancelled)
    case _ => false
  }

  /** The pass in which `execute` goes on once the transition is persisted; everything else
      returns. */
  function GoesOn(wk: Worker, destination: RunState): Option<nat> {
    if (wk.Looping? || wk.Holding? || wk.ContextAt?) && destination !in {Failed, Blocked, Cancelled} then Some(wk.pass)
    else None
  }

  // ---- Answers of the outside world -----------------------------------------------------------

  function ValidationAttemptStatus(st: V.Status): AttemptStatus {
    match st
    case Passed => Completed
    case PassedWithAdvisories => Completed
    case StatusCancelled => AttemptCancelled
    case StatusBlocked => AttemptBlocked
    case Unavailable => AttemptBlocked
    case Invalid => AttemptInvalid
    case _ => AttemptFailed
  }

  /** What the review gate can rule: an approval carries a satisfied gate, needs a completed
      reviewer, approvable validation and reconciled side effects; a refusal carries no gate. */
  predicate SoundRuling(r: Ruling, completed: bool, approvable: bool, reconciled: bool) {
    if r.status == G.Approvable then
      r.gate.Some? && r.gate.value.Satisfied() && completed && approvable && reconciled
    else r.gate.None?
  }

  /** A well-typed answer to the external call of a step. */
  predicate Answers(sh: Shared, step: Step, seqno: nat, basis: Option<Checked>, ev: Evidence) {
    && ev.status != Intended && !ev.safe
    && match step
       case WorkspaceStep =>
         ev in {Evidence(Completed, KnownPresent, None, None, false),
                Evidence(AttemptBlocked, Ambiguous, None, None, false)}
       case BuildStep => ev.effects != Incompatible && ev.checked.None? && ev.ruling.None?
       case RepairStep => ev.effects != Incompatible && ev.checked.None? && ev.ruling.None?
       case ValidationStep =>
         && ev.effects == KnownNone && ev.ruling.None?
         && ev.checked.Some? && ev.checked.value.plan == seqno
         && ev.status == ValidationAttemptStatus(ev.checked.value.status)
       case ReviewStep =>
         && ev.effects == KnownNone && ev.checked == basis && basis.Some? && ev.ruling.Some?
         && SoundRuling(ev.ruling.value, ev.status == Completed, basis.value.Approvable(), !Unresolved(sh.journal))
       case ContextStep => false
  }

  /** The outcome journaled when an attempt is refused before its external call. */
  function RefusalEvidence(basis: Option<Checked>): Evidence {
    Evidence(AttemptBlocked, KnownNone, basis, None, false)
  }

  function IntentEvidence(basis: Option<Checked>): Evidence {
    Evidence(Intended, KnownNone, basis, None, false)
  }

  // ---- Steps ----------------------------------------------------------------------------------

  datatype Action =
    | Crash
    | StartExecute
    | Settle(op: T.Op)
    | FinishPrelude
    | ReadRun
    | Pick
    | Admit(facts: RepairFacts)
    | Look
    | Claim
    | RefuseIntent
    | RefuseOutcome
    | Confirm
    | Fund(amount: nat)
    | Start
    | Respond(answer: Evidence)
    | PersistOutcome
    | SettleUp(tokens: Option<nat>, elapsedMs: nat)
    | EnterContext
    | LookContext
    | SelectContext(status: AttemptStatus)
    | StartReconcile
    | SelectPending
    | Reconcile(effects: Effects)
    | StartCancel
    | Decide(req: Request)
    | Commit(now: int)

  function IdAt(snap: Stored, seqno: nat): AttemptId
    requires StepOf(snap.run.state).Some?
  {
    AttemptId(StepOf(snap.run.state).value, seqno)
  }

  predicate Attempting(snap: Stored) {
    StepOf(snap.run.state).Some? && snap.run.state != ContextPreparing
  }

  /** The guards between choosing a sequence number and looking the attempt up. */
  predicate Admissible(c: Config, sh: Shared, snap: Stored, seqno: nat, facts: RepairFacts) {
    match snap.run.state
    case WorkspacePreparing => seqno == 1
    case Building => !BuildLimitReached(snap, seqno)
    case Validating => seqno <= c.plans
    case Reviewing => !ReviewLimitReached(snap, seqno) && HasApprovableValidation(sh.journal)
    case Repairing =>
      && !RepairLimitReached(snap, seqno)
      && 0 <= RepairsRemaining(sh, snap)
      && P.Decide(RepairInput(c, sh, snap, facts)).strategy in {P.LocalBuilder, P.CodexRepair}
    case _ => false
  }

  function BasisFor(sh: Shared, snap: Stored): Option<Checked> {
    if snap.run.state == Reviewing && HasApprovableValidation(sh.journal) then
      sh.journal[LatestValidation(sh.journal).value].evidence.checked
    else None
  }

  function NewOutcome(snap: Stored, pass: nat, seqno: nat, at: nat, denied: Option<T.Verdict>): Worker {
    if snap.run.state == Validating && denied.Some? then Refused(snap, pass, denied.value == T.DenyUnresolved)
    else if denied.Some? || snap.run.state == WorkspacePreparing then Holding(snap, pass, seqno, at, true)
    else Settling(snap, pass, seqno, at)
  }

  function NextContext(snap: Stored, pass: nat, seqno: nat, status: AttemptStatus): Worker {
    if status == Completed then ContextAt(snap, pass, seqno + 1)
    else ContextFailed(snap, pass, status == AttemptBlocked)
  }

  /** The first intent with neither outcome nor reconciliation. */
  function FirstIncomplete(journal: seq<Record>, k: nat): (at: Option<nat>)
    requires k <= |journal|
    ensures at.Some? ==> k <= at.value < |journal| && journal[at.value].stage == Intent
    decreases |journal| - k
  {
    if k == |journal| then None
    else if journal[k].stage == Intent && !Known(journal, journal[k].id, Outcome)
         && !Known(journal, journal[k].id, Reconciliation) then Some(k)
    else FirstIncomplete(journal, k + 1)
  }

  /** SideEffectReconciler.reconcile: only live ownership evidence of a worktree permits going on. */
  predicate Reconciles(step: Step, effects: Effects) {
    match step
    case WorkspaceStep => effects in {KnownPresent, Incompatible, Ambiguous}
    case ReviewStep => effects == KnownNone
    case _ => effects == Ambiguous
  }

  function ReconciliationEvidence(intent: Record, effects: Effects): Evidence {
    Evidence(Intended, effects, intent.evidence.checked, None,
             intent.id.step == WorkspaceStep && effects == KnownPresent)
  }

  predicate Enabled(c: Config, s: System, w: nat, a: Action) {
    var sh, wk := s.sh, s.Of(w);
    match a
    case Crash => true
    case StartExecute => wk.Idle?
    case Settle(op) => wk.Starting? && (op.SettleAttempt? || op.SettleDuration? || op.MarkUnresolved?)
    case FinishPrelude => wk.Starting?
    case ReadRun => wk.Between?
    case Pick => wk.Looping? && Attempting(wk.snap)
    case Admit(facts) => wk.Picked? && Attempting(wk.snap) && Admissible(c, sh, wk.snap, wk.seqno, facts)
    case Look => wk.Admitted? && Attempting(wk.snap)
    case Claim => wk.Clear? && Attempting(wk.snap) && wk.seqno <= MAX_ATTEMPT_SEQUENCE
    case RefuseIntent => wk.Clear? && wk.snap.run.state in {Building, Repairing} && wk.seqno <= MAX_ATTEMPT_SEQUENCE
    case RefuseOutcome => wk.Refusing? && Attempting(wk.snap)
    case Confirm => wk.Owning? && wk.phase == Claimed
    case Fund(amount) =>
      && wk.Owning? && wk.phase == Confirmed && Attempting(wk.snap) && wk.snap.run.state != WorkspacePreparing
      && 1 <= amount
    case Start =>
      && wk.Owning? && Attempting(wk.snap)
      && (wk.phase == Funded || (wk.phase == Confirmed && wk.snap.run.state == WorkspacePreparing))
    case Respond(answer) =>
      && wk.Owning? && wk.phase == Running && Attempting(wk.snap)
      && Answers(sh, StepOf(wk.snap.run.state).value, wk.seqno, wk.basis, answer)
    case PersistOutcome => wk.Responded? && Attempting(wk.snap)
    case SettleUp(_, _) => wk.Settling? && Attempting(wk.snap)
    case EnterContext => wk.Looping? && wk.snap.run.state == ContextPreparing
    case LookContext => wk.ContextAt? && wk.seqno <= c.contexts
    case SelectContext(status) => wk.ContextSelecting? && status in {Completed, AttemptBlocked, AttemptInvalid}
    case StartReconcile => wk.Idle?
    case SelectPending => wk.Inspecting?
    case Reconcile(effects) =>
      && wk.Selected? && wk.at < |sh.journal|
      && sh.journal[wk.at].expected == wk.snap.run.state && sh.journal[wk.at].revision == wk.snap.revision
      && Reconciles(sh.journal[wk.at].id.step, effects)
    case StartCancel => wk.Idle?
    case Decide(req) => Requests(c, sh, wk, req)
    case Commit(_) => wk.Decided?
  }

  function LookAt(sh: Shared, snap: Stored, pass: nat, seqno: nat, basis: Option<Checked>): Worker
    requires Attempting(snap)
  {
    match Find(sh.journal, IdAt(snap, seqno), Outcome)
    case Some(at) => Holding(snap, pass, seqno, at, false)
    case None =>
      if Known(sh.journal, IdAt(snap, seqno), Intent) then Idle else Clear(snap, pass, seqno, basis)
  }

  function DoFund(s: System, w: nat, amount: nat): System
    requires s.Of(w).Owning? && Attempting(s.Of(w).snap)
  {
    var wk := s.Of(w);
    var b := wk.snap.run.budgets;
    var step := StepOf(wk.snap.run.state).value;
    var refused := RefusalEvidence(if step == ReviewStep then wk.basis else None);
    if step != ValidationStep && (b.remoteTokenCeiling.Some? || b.costCeilingSet) then
      s.Put(w, Responded(wk.snap, wk.pass, wk.seqno, wk.at, refused, Some(T.DenyUsageUnavailable)))
    else
      var reserved := if step == ValidationStep then amount else 1;
      var r := T.Reservation(AttemptId(step, wk.seqno), MetricOf(step), reserved, T.Active);
      match T.ReserveIfAllowed(s.sh.ledger, LimitsOf(b), s.sh.stored.revision == wk.snap.revision, r, false)
      case ReserveConflict => s.Put(w, Idle)
      case Reserved(ledger, d) =>
        if d.verdict == T.Allow then s.PutWith(s.sh.(ledger := ledger), w, wk.(phase := Funded))
        else s.Put(w, Responded(wk.snap, wk.pass, wk.seqno, wk.at, refused, Some(d.verdict)))
  }

  function DoPersistOutcome(s: System, w: nat): System
    requires s.Of(w).Responded? && Attempting(s.Of(w).snap)
  {
    var wk := s.Of(w);
    var id := IdAt(wk.snap, wk.seqno);
    match TryWrite(s.sh, wk.snap, id, Outcome, wk.answer)
    case WriteRefused => s.Put(w, Idle)
    case NewRecord =>
      s.PutWith(Append(s.sh, w, wk.snap, id, Outcome, wk.answer), w,
                NewOutcome(wk.snap, wk.pass, wk.seqno, |s.sh.journal|, wk.denied))
    case Existing =>
      s.Put(w, NewOutcome(wk.snap, wk.pass, wk.seqno, Find(s.sh.journal, id, Outcome).value, wk.denied))
  }

  function AfterCommit(goesOn: Option<nat>): Worker {
    match goesOn
    case Some(pass) => Between(pass)
    case None => Idle
  }

  /** _transition over persist_transition. A transition that is already there is an idempotent
      repeat; any other change of the stored run makes the write fail. */
  function DoCommit(s: System, w: nat, now: int): System
    requires s.Of(w).Decided?
  {
    var wk := s.Of(w);
    var occurredAt := if now < wk.snap.run.updatedAt then wk.snap.run.updatedAt else now;
    match TransitionRun(wk.snap.run, wk.req, occurredAt)
    case Err(_) => s.Put(w, Idle)
    case Ok(next) =>
      if wk.snap == s.sh.stored then
        s.PutWith(Advance(s.sh, wk.req, occurredAt, next), w, AfterCommit(wk.goesOn))
      else if s.sh.stored == Stored(next, wk.snap.revision + 1) then s.Put(w, AfterCommit(wk.goesOn))
      else s.Put(w, Idle)
  }

  function DoClaim(s: System, w: nat): System
    requires s.Of(w).Clear? && Attempting(s.Of(w).snap)
  {
    var sh, wk := s.sh, s.Of(w);
    var id := IdAt(wk.snap, wk.seqno);
    if TryWrite(sh, wk.snap, id, Intent, IntentEvidence(wk.basis)) == NewRecord then
      s.PutWith(Append(sh, w, wk.snap, id, Intent, IntentEvidence(wk.basis)), w,
                Owning(wk.snap, wk.pass, wk.seqno, |sh.journal|, wk.basis, Claimed))
    else s.Put(w, Idle)
  }

  /** _record_prelaunch_blocked_agent: both records are written whoever created the intent. */
  function DoRefuseIntent(s: System, w: nat): System
    requires s.Of(w).Clear? && Attempting(s.Of(w).snap)
  {
    var sh, wk := s.sh, s.Of(w);
    var id := IdAt(wk.snap, wk.seqno);
    if TryWrite(sh, wk.snap, id, Intent, IntentEvidence(None)) == WriteRefused then s.Put(w, Idle)
    else s.PutWith(Written(sh, w, wk.snap, id, Intent, IntentEvidence(None)), w, Refusing(wk.snap, wk.pass, wk.seqno))
  }

  function DoRefuseOutcome(s: System, w: nat): System
    requires s.Of(w).Refusing? && Attempting(s.Of(w).snap)
  {
    var sh, wk := s.sh, s.Of(w);
    var id := IdAt(wk.snap, wk.seqno);
    match TryWrite(sh, wk.snap, id, Outcome, RefusalEvidence(None))
    case WriteRefused => s.Put(w, Idle)
    case NewRecord =>
      s.PutWith(Append(sh, w, wk.snap, id, Outcome, RefusalEvidence(None)), w,
                Holding(wk.snap, wk.pass, wk.seqno, |sh.journal|, true))
    case Existing =>
      s.Put(w, Holding(wk.snap, wk.pass, wk.seqno, Find(sh.journal, id, Outcome).value, true))
  }

  function DoStart(s: System, w: nat): System
    requires s.Of(w).Owning? && Attempting(s.Of(w).snap)
  {
    var sh, wk := s.sh, s.Of(w);
    s.PutWith(sh.(launches := sh.launches + [Launch(IdAt(wk.snap, wk.seqno), wk.snap.revision, w)]), w,
              wk.(phase := Running))
  }

  function DoSettleUp(s: System, w: nat, tokens: Option<nat>, elapsedMs: nat): System
    requires s.Of(w).Settling? && Attempting(s.Of(w).snap)
  {
    var sh, wk := s.sh, s.Of(w);
    var id := IdAt(wk.snap, wk.seqno);
    var op := if wk.snap.run.state == Validating then T.SettleDuration(id, elapsedMs) else T.SettleAttempt(id, tokens);
    s.PutWith(sh.(ledger := T.Apply(sh.ledger, LimitsOf(wk.snap.run.budgets), op)), w,
              Holding(wk.snap, wk.pass, wk.seqno, wk.at, true))
  }

  function DoLookContext(s: System, w: nat): System
    requires s.Of(w).ContextAt?
  {
    var sh, wk := s.sh, s.Of(w);
    var id := AttemptId(ContextStep, wk.seqno);
    match Find(sh.journal, id, Outcome)
    case Some(at) =>
      if sh.journal[at].evidence.status == Completed then s.Put(w, ContextAt(wk.snap, wk.pass, wk.seqno + 1))
      else s.Put(w, ContextFailed(wk.snap, wk.pass, true))
    case None =>
      if Known(sh.journal, id, Intent) then s.Put(w, ContextSelecting(wk.snap, wk.pass, wk.seqno))
      else if wk.seqno <= MAX_ATTEMPT_SEQUENCE
           && TryWrite(sh, wk.snap, id, Intent, IntentEvidence(None)) == NewRecord then
        s.PutWith(Append(sh, w, wk.snap, id, Intent, IntentEvidence(None)), w,
                  ContextSelecting(wk.snap, wk.pass, wk.seqno))
      else s.Put(w, Idle)
  }

  function DoSelectContext(s: System, w: nat, status: AttemptStatus): System
    requires s.Of(w).ContextSelecting?
  {
    var sh, wk := s.sh, s.Of(w);
    var id := AttemptId(ContextStep, wk.seqno);
    var ev := Evidence(status, KnownNone, None, None, false);
    if TryWrite(sh, wk.snap, id, Outcome, ev) == WriteRefused then s.Put(w, Idle)
    else s.PutWith(Written(sh, w, wk.snap, id, Outcome, ev), w, NextContext(wk.snap, wk.pass, wk.seqno, status))
  }

  function DoReconcile(s: System, w: nat, effects: Effects): System
    requires s.Of(w).Selected? && s.Of(w).at < |s.sh.journal|
  {
    var sh, wk := s.sh, s.Of(w);
    var intent := sh.journal[wk.at];
    var ev := ReconciliationEvidence(intent, effects);
    if TryWrite(sh, wk.snap, intent.id, Reconciliation, ev) == WriteRefused then s.Put(w, Idle)
    else s.PutWith(Written(sh, w, wk.snap, intent.id, Reconciliation, ev), w, Resolved(wk.snap, wk.at, ev.safe))
  }

  function DoSelectPending(s: System, w: nat): System
    requires s.Of(w).Inspecting?
  {
    match FirstIncomplete(s.sh.journal, 0)
    case None => s.Put(w, Idle)
    case Some(at) => s.Put(w, Selected(s.Of(w).snap, at))
  }

  function DoReadRun(s: System, w: nat): System
    requires s.Of(w).Between?
  {
    var sh, wk := s.sh, s.Of(w);
    s.Put(w, if sh.stored.run.state.Terminal() then Idle
             else if wk.pass < MAX_PASSES then Looping(sh.stored, wk.pass + 1)
             else Exhausted(sh.stored))
  }

  function DoPick(s: System, w: nat): System
    requires s.Of(w).Looping? && Attempting(s.Of(w).snap)
  {
    var wk := s.Of(w);
    var seqno := if wk.snap.run.state == WorkspacePreparing then 1
                 else NextSequence(s.sh.journal, wk.snap, StepOf(wk.snap.run.state).value);
    s.Put(w, Picked(wk.snap, wk.pass, seqno))
  }

  function Apply(c: Config, s: System, w: nat, a: Action): System
    requires Enabled(c, s, w, a)
  {
    var sh, wk := s.sh, s.Of(w);
    var running := !sh.stored.run.state.Terminal();
    match a
    case Crash => s.Put(w, Idle)
    case StartExecute => s.Put(w, if running then Starting(sh.stored) else Idle)
    case Settle(op) => s.PutWith(sh.(ledger := T.Apply(sh.ledger, LimitsOf(wk.snap.run.budgets), op)), w, wk)
    case FinishPrelude => s.Put(w, Between(0))
    case ReadRun => DoReadRun(s, w)
    case Pick => DoPick(s, w)
    case Admit(_) => s.Put(w, Admitted(wk.snap, wk.pass, wk.seqno, BasisFor(sh, wk.snap)))
    case Look => s.Put(w, LookAt(sh, wk.snap, wk.pass, wk.seqno, wk.basis))
    case Claim => DoClaim(s, w)
    case RefuseIntent => DoRefuseIntent(s, w)
    case RefuseOutcome => DoRefuseOutcome(s, w)
    case Confirm => s.Put(w, if wk.snap == sh.stored then wk.(phase := Confirmed) else Idle)
    case Fund(amount) => DoFund(s, w, amount)
    case Start => DoStart(s, w)
    case Respond(answer) => s.Put(w, Responded(wk.snap, wk.pass, wk.seqno, wk.at, answer, None))
    case PersistOutcome => DoPersistOutcome(s, w)
    case SettleUp(tokens, elapsedMs) => DoSettleUp(s, w, tokens, elapsedMs)
    case EnterContext => s.Put(w, ContextAt(wk.snap, wk.pass, 1))
    case LookContext => DoLookContext(s, w)
    case SelectContext(status) => DoSelectContext(s, w, status)
    case StartReconcile => s.Put(w, if running then Inspecting(sh.stored) else Idle)
    case SelectPending => DoSelectPending(s, w)
    case Reconcile(effects) => DoReconcile(s, w, effects)
    case StartCancel => s.Put(w, if running then Stopping(sh.stored) else Idle)
    case Decide(req) => s.Put(w, Decided(wk.snap, req, GoesOn(wk, req.destination)))
    case Commit(now) => DoCommit(s, w, now)
  }

  // ---- Runs of the system ---------------------------------------------------------------------

  ghost predicate InitialRun(run: Run) {
    && run.Valid() && run.state == Created && run.attempts == Counters(0, 0, 0)
  }

  ghost predicate Initial(s: System) {
    && InitialRun(s.sh.stored.run)
    && s == System(Shared(Stored(s.sh.stored.run, 0), [], [], T.Ledger([], []), [s.sh.stored.run], []), map[])
  }

  /** A schedule says which worker takes which step. */
  type Schedule = seq<(nat, Action)>

  ghost predicate Runs(c: Config, s: System, schedule: Schedule, s': System)
    decreases |schedule|
  {
    if schedule == [] then s' == s
    else
      && Enabled(c, s, schedule[0].0, schedule[0].1)
      && Runs(c, Apply(c, s, schedule[0].0, schedule[0].1), schedule[1..], s')
  }
}
