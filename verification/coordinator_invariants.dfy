/** What every reachable state of the coordinator satisfies: the shared durable state first, then
    what each worker may rely on at the point it has reached. */
module CoordinatorInvariants {
  import opened Domain
  import opened Ids
  import opened Coordinator
  import opened CoordinatorHistory
  import T = Telemetry
  import G = ReviewGate

  // ---- Records --------------------------------------------------------------------------------

  /** The record at `k` belongs to this step, stage and revision. */
  ghost predicate At(j: seq<Record>, k: nat, step: Step, stage: Stage, q: nat) {
    k < |j| && j[k].id.step == step && j[k].stage == stage && j[k].revision == q
  }

  ghost predicate Recorded(j: seq<Record>, step: Step, stage: Stage, q: nat) {
    exists k: nat :: At(j, k, step, stage, q)
  }

  ghost predicate IntentOf(j: seq<Record>, k: nat, id: AttemptId, q: nat) {
    k < |j| && j[k].id == id && j[k].stage == Intent && j[k].revision == q
  }

  ghost predicate LaunchedAt(launches: seq<Launch>, q: nat) {
    exists i: nat :: i < |launches| && launches[i].revision == q
  }

  ghost predicate Dirty(r: Record) {
    r.stage == Outcome && Mutating(r.id.step) && r.evidence.effects in {Ambiguous, Incompatible}
  }

  /** No write before revision `q` is left in an unknown state. */
  ghost predicate CleanBefore(j: seq<Record>, q: nat) {
    forall k :: 0 <= k < |j| && Dirty(j[k]) && j[k].revision < q ==> SafelyReconciled(j, j[k].id)
  }

  /** A review at revision `q` is about the approvable validation of the revision before. */
  ghost predicate BasisOk(j: seq<Record>, q: nat, basis: Option<Checked>) {
    && 0 < q && basis.Some? && basis.value.Approvable()
    && exists k: nat :: At(j, k, ValidationStep, Outcome, q - 1) && j[k].evidence.checked == basis
  }

  ghost predicate Refusal(step: Step, ev: Evidence) {
    ev == RefusalEvidence(if step == ReviewStep then ev.checked else None)
  }

  /** What a record of revision `q` may say. */
  ghost predicate EvidenceOk(j: seq<Record>, launches: seq<Launch>, id: AttemptId, stage: Stage, q: nat, ev: Evidence) {
    && (stage == Outcome <==> ev.status != Intended)
    && (ev.safe ==> stage == Reconciliation && id.step == WorkspaceStep)
    && (id.step == RepairStep ==> CleanBefore(j, q))
    && (id.step == ReviewStep ==> BasisOk(j, q, ev.checked))
    && (stage == Outcome ==> OutcomeOk(j, launches, id, q, ev))
  }

  ghost predicate OutcomeOk(j: seq<Record>, launches: seq<Launch>, id: AttemptId, q: nat, ev: Evidence) {
    && (id.step != ContextStep ==> Refusal(id.step, ev) || LaunchedAt(launches, q))
    && (id.step == ValidationStep && ev.checked.Some? ==>
          ev.checked.value.plan == id.seqno && ev.status == ValidationAttemptStatus(ev.checked.value.status))
    && (id.step == ReviewStep && ev.ruling.None? ==> ev.status == AttemptBlocked)
    && (id.step == ReviewStep && ev.ruling.Some? && ev.ruling.value.status == G.Approvable ==>
          && ev.status == Completed && CleanBefore(j, q)
          && ev.ruling.value.gate.Some? && ev.ruling.value.gate.value.Satisfied())
  }

  ghost predicate RecordOk(c: Config, h: seq<Run>, j: seq<Record>, launches: seq<Launch>, k: nat)
    requires k < |j|
  {
    var r := j[k];
    && r.position == k + 1
    && r.revision < |h| && r.expected == h[r.revision].state
    && StepOf(r.expected) == Some(r.id.step)
    && 1 <= r.id.seqno <= MAX_ATTEMPT_SEQUENCE
    && (if r.id.step == ContextStep then r.id.seqno <= c.contexts else r.id.seqno == Ordinal(h, r.revision))
    && EvidenceOk(j, launches, r.id, r.stage, r.revision, r.evidence)
    && (r.stage != Intent ==> exists i: nat :: i < k && IntentOf(j, i, r.id, r.revision))
  }

  ghost predicate InOrder(j: seq<Record>) {
    forall i, k :: 0 <= i < k < |j| ==> j[i].revision <= j[k].revision
  }

  ghost predicate Distinct(j: seq<Record>) {
    forall i, k :: 0 <= i < k < |j| ==> j[i].id != j[k].id || j[i].stage != j[k].stage
  }

  /** The n-th intent of a step carries the number n. */
  ghost predicate NumberAt(j: seq<Record>, k: nat)
    requires k < |j|
  {
    j[k].stage == Intent && j[k].id.step != ContextStep ==> j[k].id.seqno == 1 + CountIntents(j[..k], j[k].id.step)
  }

  ghost predicate Numbered(j: seq<Record>) {
    forall k :: 0 <= k < |j| ==> NumberAt(j, k)
  }

  ghost predicate JournalOk(c: Config, h: seq<Run>, j: seq<Record>, launches: seq<Launch>) {
    && InOrder(j)
    && Distinct(j)
    && forall k :: 0 <= k < |j| ==> RecordOk(c, h, j, launches, k)
  }

  // ---- Revisions that were left ---------------------------------------------------------------

  ghost predicate ContextDone(j: seq<Record>, n: nat) {
    exists k: nat :: k < |j| && j[k].id == AttemptId(ContextStep, n) && j[k].stage == Outcome
                     && j[k].evidence.status == Completed
  }

  /** Every context request before the `n`-th is done. */
  ghost predicate ContextsDone(j: seq<Record>, n: nat) {
    n <= 1 || (ContextsDone(j, n - 1) && ContextDone(j, n - 1))
  }

  ghost predicate ValidationLeft(j: seq<Record>, q: nat, destination: RunState) {
    exists k: nat ::
      && At(j, k, ValidationStep, Outcome, q) && j[k].evidence.checked.Some?
      && (j[k].evidence.checked.value.Approvable() <==> destination == Reviewing)
  }

  ghost predicate ReviewLeft(j: seq<Record>, q: nat, destination: RunState, gate: Option<ApprovalGate>) {
    exists k: nat ::
      && At(j, k, ReviewStep, Outcome, q) && j[k].evidence.ruling.Some?
      && (destination == Approved ==>
            j[k].evidence.ruling.value.status == G.Approvable && j[k].evidence.ruling.value.gate == gate)
  }

  /** The worktree of revision `q` was reconciled from live ownership evidence. */
  ghost predicate Reconciled(j: seq<Record>, q: nat) {
    exists k: nat :: At(j, k, WorkspaceStep, Reconciliation, q) && j[k].evidence.safe
  }

  /** The journal evidence on which a state was left to go on with the workflow. */
  ghost predicate LeaveOk(c: Config, j: seq<Record>, q: nat, st: RunState, destination: RunState,
                          gate: Option<ApprovalGate>) {
    match st
    case ContextPreparing => ContextsDone(j, c.contexts + 1)
    case WorkspacePreparing => Recorded(j, WorkspaceStep, Outcome, q) || Reconciled(j, q)
    case Building => Recorded(j, BuildStep, Outcome, q)
    case Repairing => Recorded(j, RepairStep, Outcome, q)
    case Validating => ValidationLeft(j, q, destination)
    case Reviewing => ReviewLeft(j, q, destination, gate)
    case _ => true
  }

  ghost predicate LeftAt(c: Config, h: seq<Run>, j: seq<Record>, q: nat)
    requires q + 1 < |h|
  {
    !Halting(h[q + 1].state) ==> LeaveOk(c, j, q, h[q].state, h[q + 1].state, h[q + 1].gate)
  }

  ghost predicate LeftOk(c: Config, h: seq<Run>, j: seq<Record>) {
    forall q :: 0 <= q < |h| - 1 ==> LeftAt(c, h, j, q)
  }

  // ---- Counts, launches, ledger ---------------------------------------------------------------

  ghost predicate CountAt(h: seq<Run>, j: seq<Record>, step: Step)
    requires |h| > 0
  {
    CountIntents(j, step)
      == Visits(h, |h| - 1, StateOf(step)) + if Recorded(j, step, Intent, |h| - 1) then 1 else 0
  }

  /** Until the run halts, the intents of a step are the visits of its state, the current one
      included once it is claimed. */
  ghost predicate CountsOk(h: seq<Run>, j: seq<Record>)
    requires |h| > 0
  {
    && CountIntents(j, RepairStep) <= h[0].budgets.maxRepair
    && (!h[|h| - 1].state.Terminal() ==>
          forall step :: step != ContextStep ==> CountAt(h, j, step))
  }

  ghost predicate LaunchOk(j: seq<Record>, l: T.Ledger, x: Launch) {
    && x.id.step != ContextStep
    && (exists k: nat :: IntentOf(j, k, x.id, x.revision) && j[k].writer == x.worker)
    && (x.id.step != WorkspaceStep ==> T.Has(l, x.id))
  }

  ghost predicate LaunchesOk(j: seq<Record>, l: T.Ledger, launches: seq<Launch>) {
    && (forall i :: 0 <= i < |launches| ==> LaunchOk(j, l, launches[i]))
    && (forall i, k :: 0 <= i < k < |launches| ==> launches[i].revision != launches[k].revision)
  }

  ghost predicate MeasuresDuration(m: T.UsageMetric) {
    T.MetricForUsage(m) == Some(T.TotalDuration)
  }

  ghost predicate NoDuration(l: T.Ledger) {
    && (forall r :: r in l.reservations ==> r.metric != T.TotalDuration)
    && (forall u :: u in l.usage ==> !MeasuresDuration(u.metric))
  }

  /** Capacity is reserved for claimed attempts only. */
  ghost predicate ReservedForClaims(j: seq<Record>, l: T.Ledger) {
    forall id: AttemptId :: T.Has(l, id) ==> Known(j, id, Intent)
  }

  ghost predicate LedgerOk(h: seq<Run>, j: seq<Record>, l: T.Ledger)
    requires |h| > 0
  {
    && T.WellFormed(l) && T.Conserved(l, LimitsOf(h[0].budgets)) && ReservedForClaims(j, l)
    && (NoDuration(l) || exists k: nat :: k < |j| && j[k].id.step == ValidationStep)
  }

  ghost predicate SharedOk(c: Config, sh: Shared) {
    && HistoryOk(sh.history, sh.events)
    && sh.stored == Stored(sh.history[|sh.events|], |sh.events|)
    && JournalOk(c, sh.history, sh.journal, sh.launches)
    && LeftOk(c, sh.history, sh.journal)
    && CountsOk(sh.history, sh.journal)
    && Numbered(sh.journal)
    && LaunchesOk(sh.journal, sh.ledger, sh.launches)
    && LedgerOk(sh.history, sh.journal, sh.ledger)
  }

  // ---- Workers --------------------------------------------------------------------------------

  /** A snapshot is a version that really existed. */
  ghost predicate SnapOk(sh: Shared, snap: Stored) {
    snap.revision < |sh.history| && sh.history[snap.revision] == snap.run && !snap.run.state.Terminal()
  }

  ghost predicate Current(sh: Shared, snap: Stored) {
    snap.revision + 1 == |sh.history|
  }

  ghost predicate LoopOk(snap: Stored, pass: nat) {
    1 <= pass && pass + Measure(snap.run) <= Bound(snap.run) + 1
  }

  ghost predicate AttemptOk(sh: Shared, snap: Stored, pass: nat, seqno: nat) {
    && SnapOk(sh, snap) && LoopOk(snap, pass) && Attempting(snap)
    && (Current(sh, snap) ==> seqno == Ordinal(sh.history, snap.revision))
  }

  ghost predicate Room(run: Run) {
    match run.state
    case Building => run.attempts.build < run.budgets.maxBuild
    case Reviewing => run.attempts.review < run.budgets.maxReview
    case Repairing => run.attempts.repair < run.budgets.maxRepair
    case _ => true
  }

  ghost predicate AdmittedOk(sh: Shared, snap: Stored, basis: Option<Checked>) {
    && Room(snap.run)
    && (snap.run.state == Reviewing <==> basis.Some?)
    && (Current(sh, snap) ==>
          && (snap.run.state == Reviewing ==> BasisOk(sh.journal, snap.revision, basis))
          && (snap.run.state == Repairing ==> CleanBefore(sh.journal, snap.revision)))
  }

  /** The budgets cap the numbers of all attempts but validations. */
  ghost predicate NumberOk(snap: Stored, n: nat) {
    snap.run.state != Validating ==> n <= MAX_ATTEMPT_SEQUENCE
  }

  ghost predicate OwnOk(sh: Shared, w: nat, snap: Stored, seqno: nat, at: nat)
    requires Attempting(snap)
  {
    IntentOf(sh.journal, at, IdAt(snap, seqno), snap.revision) && sh.journal[at].writer == w
  }

  ghost predicate PhaseOk(sh: Shared, snap: Stored, seqno: nat, phase: Phase)
    requires Attempting(snap)
  {
    && (phase == Running <==> LaunchedAt(sh.launches, snap.revision))
    && (phase == Funded ==> T.Has(sh.ledger, IdAt(snap, seqno)))
  }

  ghost predicate AnswerOk(sh: Shared, snap: Stored, seqno: nat, answer: Evidence)
    requires Attempting(snap)
  {
    Current(sh, snap) ==> EvidenceOk(sh.journal, sh.launches, IdAt(snap, seqno), Outcome, snap.revision, answer)
  }

  ghost predicate HoldingOk(sh: Shared, snap: Stored, at: nat)
    requires StepOf(snap.run.state).Some?
  {
    && Room(snap.run)
    && at < |sh.journal| && sh.journal[at].id.step == StepOf(snap.run.state).value && sh.journal[at].stage == Outcome
    && (Current(sh, snap) ==> sh.journal[at].revision == snap.revision)
  }

  ghost predicate ContextOk(sh: Shared, snap: Stored, pass: nat) {
    SnapOk(sh, snap) && LoopOk(snap, pass) && snap.run.state == ContextPreparing
  }

  /** A request that the state machine accepts, made on evidence in the journal. */
  ghost predicate Justified(c: Config, sh: Shared, snap: Stored, req: Request) {
    && Acceptable(snap.run, req)
    && (req.destination == Repairing ==> snap.run.attempts.repair < snap.run.budgets.maxRepair)
    && (!Halting(req.destination) ==>
          && req.increment == CounterFor(snap.run.state)
          && LeaveOk(c, sh.journal, snap.revision, snap.run.state, req.destination, req.gate))
  }

  /** The state machine takes the request from the worker's own version; the one exception is a
      failure asked for in a state that has none. */
  ghost predicate Askable(snap: Stored, req: Request) {
    Acceptable(snap.run, req) || (req == Plain(Failed) && Failed !in Permitted(snap.run.state))
  }

  ghost predicate WorkerOk(c: Config, sh: Shared, w: nat, wk: Worker) {
    match wk
    case Idle => true
    case Starting(snap) => SnapOk(sh, snap)
    case Between(pass) =>
      |sh.history| > 0 && pass + Measure(sh.history[|sh.history| - 1]) <= Bound(sh.history[|sh.history| - 1])
    case Looping(snap, pass) => SnapOk(sh, snap) && LoopOk(snap, pass)
    case Exhausted(_) => false
    case Picked(snap, pass, n) => AttemptOk(sh, snap, pass, n)
    case Admitted(snap, pass, n, basis) =>
      AttemptOk(sh, snap, pass, n) && AdmittedOk(sh, snap, basis) && NumberOk(snap, n)
    case Clear(snap, pass, n, basis) => AttemptOk(sh, snap, pass, n) && AdmittedOk(sh, snap, basis) && NumberOk(snap, n)
    case Refusing(snap, pass, n) =>
      && AttemptOk(sh, snap, pass, n) && AdmittedOk(sh, snap, None)
      && exists k: nat :: IntentOf(sh.journal, k, IdAt(snap, n), snap.revision)
    case Owning(snap, pass, n, at, basis, phase) =>
      && AttemptOk(sh, snap, pass, n) && AdmittedOk(sh, snap, basis)
      && OwnOk(sh, w, snap, n, at) && PhaseOk(sh, snap, n, phase)
    case Responded(snap, pass, n, at, answer, _) =>
      && AttemptOk(sh, snap, pass, n) && Room(snap.run)
      && OwnOk(sh, w, snap, n, at) && AnswerOk(sh, snap, n, answer)
    case Settling(snap, pass, n, at) => AttemptOk(sh, snap, pass, n) && HoldingOk(sh, snap, at)
    case Holding(snap, pass, n, at, _) => AttemptOk(sh, snap, pass, n) && HoldingOk(sh, snap, at)
    case Refused(snap, pass, _) => SnapOk(sh, snap) && LoopOk(snap, pass) && snap.run.state == Validating
    case ContextAt(snap, pass, n) =>
      ContextOk(sh, snap, pass) && 1 <= n && (Current(sh, snap) ==> ContextsDone(sh.journal, n))
    case ContextSelecting(snap, pass, n) =>
      && ContextOk(sh, snap, pass) && 1 <= n <= c.contexts
      && (Current(sh, snap) ==>
            && ContextsDone(sh.journal, n)
            && n <= MAX_ATTEMPT_SEQUENCE
            && exists k: nat :: IntentOf(sh.journal, k, AttemptId(ContextStep, n), snap.revision))
    case ContextFailed(snap, pass, _) => ContextOk(sh, snap, pass)
    case Inspecting(snap) => SnapOk(sh, snap)
    case Selected(snap, at) => SnapOk(sh, snap) && at < |sh.journal| && sh.journal[at].stage == Intent
    case Resolved(snap, at, safe) =>
      && SnapOk(sh, snap) && StepOf(snap.run.state).Some?
      && (safe ==> Reconciled(sh.journal, snap.revision))
      && At(sh.journal, at, StepOf(snap.run.state).value, Intent, snap.revision)
    case Stopping(snap) => SnapOk(sh, snap)
    case Decided(snap, req, goesOn) =>
      && SnapOk(sh, snap) && Askable(snap, req)
      && (goesOn.Some? ==> LoopOk(snap, goesOn.value))
      && (Current(sh, snap) ==> Justified(c, sh, snap, req))
  }

  /** What one worker, running or not, finds. */
  ghost predicate ViewOk(c: Config, s: System, w: nat) {
    SharedOk(c, s.sh) && WorkerOk(c, s.sh, w, s.Of(w))
  }

  ghost predicate Inv(c: Config, s: System) {
    forall w: nat :: ViewOk(c, s, w)
  }

  // ---- Growth ---------------------------------------------------------------------------------

  /** How one step may change the shared state. */
  ghost predicate Grows(sh: Shared, sh': Shared) {
    && |sh.history| <= |sh'.history| && sh.history == sh'.history[..|sh.history|]
    && |sh.journal| <= |sh'.journal| && sh.journal == sh'.journal[..|sh.journal|]
    && |sh.launches| <= |sh'.launches| && sh.launches == sh'.launches[..|sh.launches|]
    && (forall k :: |sh.journal| <= k < |sh'.journal| ==> sh'.journal[k].revision + 1 == |sh.history|)
    && (forall id :: T.Has(sh.ledger, id) ==> T.Has(sh'.ledger, id))
  }

  /** No external call starts at revision `q`. */
  ghost predicate Quiet(sh: Shared, sh': Shared, q: nat) {
    LaunchedAt(sh'.launches, q) ==> LaunchedAt(sh.launches, q)
  }
}
