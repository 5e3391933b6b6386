/** One call of `execute`, `reconcile` or `cancel` from its start to its return, while other workers
    do what they like in between (src/revanent/orchestration/service.py). */
module CoordinatorExecution {
  import opened Domain
  import opened Ids
  import opened Coordinator
  import opened CoordinatorHistory
  import opened CoordinatorInvariants
  import opened CoordinatorTheorems
  import V = Validation
  import G = ReviewGate

  /** A step inside a call: neither the start of one, nor a lost worker, nor one of the finitely many
      settlements of the prelude. */
  predicate Inside(a: Action) {
    !(a.Crash? || a.StartExecute? || a.StartReconcile? || a.StartCancel? || a.Settle?)
  }

  /** The loop passes a call has left. */
  function PassesLeft(wk: Worker, bound: nat): int {
    match wk
    case Idle => 0
    case Starting(_) => bound + 2
    case Exhausted(_) => 0
    case Inspecting(_) => 0
    case Selected(_, _) => 0
    case Resolved(_, _, _) => 0
    case Stopping(_) => 0
    case Decided(_, _, None) => 0
    case _ => bound + 1 - PassOf(wk)
  }

  /** How far a worker is from the end of its pass. */
  function Distance(c: Config, wk: Worker): int {
    match wk
    case Idle => 0
    case Between(_) => 1
    case Decided(_, _, _) => 2
    case Settling(_, _, _, _) => 4
    case Selected(_, _) => 4
    case Responded(_, _, _, _, _, _) => 5
    case Refusing(_, _, _) => 5
    case Inspecting(_) => 5
    case Owning(_, _, _, _, _, Running) => 6
    case Owning(_, _, _, _, _, Funded) => 7
    case Owning(_, _, _, _, _, Confirmed) => 8
    case Owning(_, _, _, _, _, Claimed) => 9
    case Clear(_, _, _, _) => 10
    case Admitted(_, _, _, _) => 11
    case Picked(_, _, _) => 12
    case ContextSelecting(_, _, n) => if n <= c.contexts then 13 + 2 * (c.contexts + 1 - n) else 13
    case ContextAt(_, _, n) => if n <= c.contexts then 14 + 2 * (c.contexts + 1 - n) else 14
    case Looping(_, _) => 15 + 2 * c.contexts
    case Starting(_) => 15 + 2 * c.contexts
    case _ => 3
  }

  ghost predicate Closer(c: Config, bound: nat, wk': Worker, wk: Worker) {
    && 0 <= PassesLeft(wk', bound) && 0 <= Distance(c, wk')
    && (PassesLeft(wk', bound) < PassesLeft(wk, bound)
        || (PassesLeft(wk', bound) == PassesLeft(wk, bound) && Distance(c, wk') < Distance(c, wk)))
  }

  lemma PassesLeftAreBounded(c: Config, s: System, w: nat)
    requires Reachable(c, s)
    ensures 0 <= PassesLeft(s.Of(w), Bound(s.sh.stored.run))
  {
    PassesAreBounded(c, s, w);
  }

  lemma OwnedStepIsCloser(c: Config, s: System, w: nat, a: Action)
    requires Enabled(c, s, w, a) && 0 <= PassesLeft(s.Of(w), Bound(s.sh.stored.run))
    requires a.Confirm? || a.Start? || a.Respond?
    ensures Closer(c, Bound(s.sh.stored.run), Apply(c, s, w, a).Of(w), s.Of(w))
  {
  }

  lemma FundStepIsCloser(c: Config, s: System, w: nat, a: Action)
    requires Enabled(c, s, w, a) && 0 <= PassesLeft(s.Of(w), Bound(s.sh.stored.run))
    requires a.Fund?
    ensures Closer(c, Bound(s.sh.stored.run), Apply(c, s, w, a).Of(w), s.Of(w))
  {
  }

  lemma OutcomeStepIsCloser(c: Config, s: System, w: nat, a: Action)
    requires Enabled(c, s, w, a) && 0 <= PassesLeft(s.Of(w), Bound(s.sh.stored.run))
    requires a.PersistOutcome? || a.SettleUp?
    ensures Closer(c, Bound(s.sh.stored.run), Apply(c, s, w, a).Of(w), s.Of(w))
  {
  }

  lemma RefusalStepIsCloser(c: Config, s: System, w: nat, a: Action)
    requires Enabled(c, s, w, a) && 0 <= PassesLeft(s.Of(w), Bound(s.sh.stored.run))
    requires a.RefuseIntent? || a.RefuseOutcome?
    ensures Closer(c, Bound(s.sh.stored.run), Apply(c, s, w, a).Of(w), s.Of(w))
  {
  }

  lemma ReconcileStepIsCloser(c: Config, s: System, w: nat, a: Action)
    requires Enabled(c, s, w, a) && 0 <= PassesLeft(s.Of(w), Bound(s.sh.stored.run))
    requires a.SelectPending? || a.Reconcile?
    ensures Closer(c, Bound(s.sh.stored.run), Apply(c, s, w, a).Of(w), s.Of(w))
  {
  }

  lemma EarlyStepIsCloser(c: Config, s: System, w: nat, a: Action)
    requires Enabled(c, s, w, a) && Inside(a) && 0 <= PassesLeft(s.Of(w), Bound(s.sh.stored.run))
    requires a.FinishPrelude? || a.Pick? || a.Admit? || a.Look? || a.Claim?
    ensures Closer(c, Bound(s.sh.stored.run), Apply(c, s, w, a).Of(w), s.Of(w))
  {
  }

  lemma NextContextIsCloser(c: Config, bound: nat, snap: Stored, pass: nat, n: nat, wk': Worker)
    requires n <= c.contexts && pass <= bound + 1
    requires wk'.Idle? || wk' == ContextAt(snap, pass, n + 1) || (wk'.ContextFailed? && wk'.pass == pass)
    ensures Closer(c, bound, wk', ContextSelecting(snap, pass, n)) && Closer(c, bound, wk', ContextAt(snap, pass, n))
  {
  }

  lemma EnterContextIsCloser(c: Config, s: System, w: nat, a: Action)
    requires Enabled(c, s, w, a) && 0 <= PassesLeft(s.Of(w), Bound(s.sh.stored.run))
    requires a.EnterContext?
    ensures Closer(c, Bound(s.sh.stored.run), Apply(c, s, w, a).Of(w), s.Of(w))
  {
  }

  lemma LookContextIsCloser(c: Config, s: System, w: nat, a: Action)
    requires Enabled(c, s, w, a) && 0 <= PassesLeft(s.Of(w), Bound(s.sh.stored.run))
    requires a.LookContext?
    ensures Closer(c, Bound(s.sh.stored.run), Apply(c, s, w, a).Of(w), s.Of(w))
  {
  }

  lemma SelectContextIsCloser(c: Config, s: System, w: nat, a: Action)
    requires Reachable(c, s) && Enabled(c, s, w, a) && 0 <= PassesLeft(s.Of(w), Bound(s.sh.stored.run))
    requires a.SelectContext?
    ensures Closer(c, Bound(s.sh.stored.run), Apply(c, s, w, a).Of(w), s.Of(w))
  {
    WorkerHolds(c, s, w);
    var wk := s.Of(w);
    NextContextIsCloser(c, Bound(s.sh.stored.run), wk.snap, wk.pass, wk.seqno, Apply(c, s, w, a).Of(w));
  }

  lemma TransitionStepIsCloser(c: Config, s: System, w: nat, a: Action)
    requires Enabled(c, s, w, a) && 0 <= PassesLeft(s.Of(w), Bound(s.sh.stored.run))
    requires a.Decide? || a.Commit?
    ensures Closer(c, Bound(s.sh.stored.run), Apply(c, s, w, a).Of(w), s.Of(w))
  {
  }

  lemma ReadStepIsCloser(c: Config, s: System, w: nat)
    requires Reachable(c, s) && Enabled(c, s, w, ReadRun)
    ensures Closer(c, Bound(s.sh.stored.run), Apply(c, s, w, ReadRun).Of(w), s.Of(w))
  {
    StaysReachable(c, s, w, ReadRun);
    PassesAreBounded(c, s, w);
    PassesAreBounded(c, Apply(c, s, w, ReadRun), w);
    StoredBudgets(c, s, w, ReadRun);
  }

  predicate InAttempt(a: Action) {
    || a.Confirm? || a.Fund? || a.Start? || a.Respond? || a.PersistOutcome? || a.SettleUp? || a.RefuseIntent?
    || a.RefuseOutcome?
  }

  lemma AttemptStepIsCloser(c: Config, s: System, w: nat, a: Action)
    requires Enabled(c, s, w, a) && 0 <= PassesLeft(s.Of(w), Bound(s.sh.stored.run)) && InAttempt(a)
    ensures Closer(c, Bound(s.sh.stored.run), Apply(c, s, w, a).Of(w), s.Of(w))
  {
    if a.Fund? {
      FundStepIsCloser(c, s, w, a);
    } else if a.PersistOutcome? || a.SettleUp? {
      OutcomeStepIsCloser(c, s, w, a);
    } else if a.RefuseIntent? || a.RefuseOutcome? {
      RefusalStepIsCloser(c, s, w, a);
    } else {
      OwnedStepIsCloser(c, s, w, a);
    }
  }

  predicate InContext(a: Action) {
    a.EnterContext? || a.LookContext? || a.SelectContext?
  }

  lemma ContextStepIsCloser(c: Config, s: System, w: nat, a: Action)
    requires Reachable(c, s) && Enabled(c, s, w, a) && 0 <= PassesLeft(s.Of(w), Bound(s.sh.stored.run))
    requires InContext(a)
    ensures Closer(c, Bound(s.sh.stored.run), Apply(c, s, w, a).Of(w), s.Of(w))
  {
    match a
    case EnterContext => EnterContextIsCloser(c, s, w, a);
    case LookContext => LookContextIsCloser(c, s, w, a);
    case SelectContext(_) => SelectContextIsCloser(c, s, w, a);
  }

  /** Every step of a call brings it closer to its return, whatever the other workers did. */
  lemma StepIsCloser(c: Config, s: System, w: nat, a: Action)
    requires Reachable(c, s) && Enabled(c, s, w, a) && Inside(a)
    ensures Closer(c, Bound(s.sh.stored.run), Apply(c, s, w, a).Of(w), s.Of(w))
  {
    PassesLeftAreBounded(c, s, w);
    if InAttempt(a) {
      AttemptStepIsCloser(c, s, w, a);
    } else if InContext(a) {
      ContextStepIsCloser(c, s, w, a);
    } else if a.Decide? || a.Commit? {
      TransitionStepIsCloser(c, s, w, a);
    } else if a.SelectPending? || a.Reconcile? {
      ReconcileStepIsCloser(c, s, w, a);
    } else if a == ReadRun {
      ReadStepIsCloser(c, s, w);
    } else {
      EarlyStepIsCloser(c, s, w, a);
    }
  }

  // ---- Progress -------------------------------------------------------------------------------

  /** A validation that was refused before it ran has an outcome without a result, and a later pass
      that finds it has nothing to decide on. */
  predicate Stuck(sh: Shared, wk: Worker) {
    && wk.Holding? && wk.snap.run.state == Validating
    && wk.at < |sh.journal| && sh.journal[wk.at].evidence.checked.None?
  }

  predicate CanStep(c: Config, s: System, w: nat, a: Action) {
    Inside(a) && Enabled(c, s, w, a)
  }

  ghost predicate CanMove(c: Config, s: System, w: nat) {
    exists a: Action :: CanStep(c, s, w, a)
  }

  /** A step of an attempt in progress. */
  function AttemptMove(wk: Worker): Action {
    match wk
    case Picked(_, _, _) => Decide(Plain(Blocked))
    case Admitted(_, _, _, _) => Look
    case Clear(_, _, n, _) => if n <= MAX_ATTEMPT_SEQUENCE then Claim else Decide(Plain(Failed))
    case Refusing(_, _, _) => RefuseOutcome
    case Owning(snap, _, n, _, basis, Claimed) => Confirm
    case Owning(snap, _, n, _, basis, Confirmed) => if snap.run.state == WorkspacePreparing then Start else Fund(1)
    case Owning(snap, _, n, _, basis, Funded) => Start
    case Owning(snap, _, n, _, basis, Running) => Respond(SomeAnswer(snap.run.state, n, basis))
    case Responded(_, _, _, _, _, _) => PersistOutcome
    case _ => SettleUp(None, 0)
  }

  /** One of the answers an external call may give. */
  function SomeAnswer(st: RunState, n: nat, basis: Option<Checked>): Evidence {
    match st
    case Validating => Evidence(Completed, KnownNone, Some(Checked(n, V.Passed, true, true)), None, false)
    case Reviewing => Evidence(Completed, KnownNone, basis, Some(Ruling(G.ChangesRequired, None)), false)
    case _ => Evidence(Completed, KnownPresent, None, None, false)
  }

  predicate MidAttempt(wk: Worker) {
    wk.Picked? || wk.Admitted? || wk.Clear? || wk.Refusing? || wk.Owning? || wk.Responded? || wk.Settling?
  }

  lemma RunningMoves(c: Config, s: System, w: nat)
    requires Reachable(c, s) && s.Of(w).Owning? && s.Of(w).phase == Running
    ensures CanStep(c, s, w, AttemptMove(s.Of(w)))
  {
    WorkerHolds(c, s, w);
  }

  lemma OwnersMove(c: Config, s: System, w: nat)
    requires Reachable(c, s) && s.Of(w).Owning? && s.Of(w).phase != Running
    ensures CanStep(c, s, w, AttemptMove(s.Of(w)))
  {
    WorkerHolds(c, s, w);
  }

  lemma ClearMoves(c: Config, s: System, w: nat)
    requires Reachable(c, s) && s.Of(w).Clear?
    ensures CanStep(c, s, w, AttemptMove(s.Of(w)))
  {
    WorkerHolds(c, s, w);
  }

  lemma AttemptsMove(c: Config, s: System, w: nat)
    requires Reachable(c, s) && MidAttempt(s.Of(w))
    ensures CanStep(c, s, w, AttemptMove(s.Of(w)))
  {
    var wk := s.Of(w);
    if wk.Owning? && wk.phase == Running {
      RunningMoves(c, s, w);
    } else if wk.Owning? {
      OwnersMove(c, s, w);
    } else if wk.Clear? {
      ClearMoves(c, s, w);
    } else if wk.Picked? || wk.Admitted? {
      StartersMove(c, s, w);
    } else {
      FinishersMove(c, s, w);
    }
  }

  lemma StartersMove(c: Config, s: System, w: nat)
    requires Reachable(c, s) && (s.Of(w).Picked? || s.Of(w).Admitted?)
    ensures CanStep(c, s, w, AttemptMove(s.Of(w)))
  {
    WorkerHolds(c, s, w);
  }

  lemma FinishersMove(c: Config, s: System, w: nat)
    requires Reachable(c, s) && (s.Of(w).Refusing? || s.Of(w).Responded? || s.Of(w).Settling?)
    ensures CanStep(c, s, w, AttemptMove(s.Of(w)))
  {
    WorkerHolds(c, s, w);
  }

  /** A transition that the outcome at hand leads to. */
  function OutcomeMove(sh: Shared, snap: Stored, ev: Evidence, own: bool): Request {
    var kind := if snap.run.state == Building then BuildCounter else RepairCounter;
    match snap.run.state
    case WorkspacePreparing => if ev.status == Completed || !own then Plain(Building) else Plain(Blocked)
    case Validating =>
      if ev.checked.None? then Plain(Failed)
      else
        var r := ev.checked.value;
        if r.Approvable() then Plain(Reviewing)
        else if r.status == V.StatusCancelled then Plain(Cancelled)
        else if r.status in {V.StatusBlocked, V.Unavailable} then Plain(Blocked)
        else if r.status in {V.Invalid, V.TimedOut} || RepairsUsedUp(sh, snap) then Plain(Failed)
        else Plain(Repairing)
    case Reviewing =>
      if ev.ruling.None? then Plain(Blocked)
      else if ev.status == AttemptCancelled then Counted(Cancelled, ReviewCounter)
      else
        (match ev.ruling.value.status
         case Approvable => Request(Approved, Some(ReviewCounter), ev.ruling.value.gate)
         case GateBlocked => Counted(Blocked, ReviewCounter)
         case InvalidEvidence => Counted(Failed, ReviewCounter)
         case ChangesRequired => if RepairsUsedUp(sh, snap) then Plain(Failed) else Counted(Repairing, ReviewCounter))
    case _ =>
      if ev.status == AttemptBlocked then Counted(Blocked, kind)
      else if ev.status == AttemptCancelled then Counted(Cancelled, kind)
      else if ev.status == Completed || MayHaveWritten(ev.effects, kind) then Counted(Validating, kind)
      else Counted(Failed, kind)
  }

  /** What a held outcome says. */
  lemma HeldOutcome(c: Config, s: System, w: nat)
    requires Reachable(c, s) && s.Of(w).Holding?
    ensures Attempting(s.Of(w).snap) && s.Of(w).at < |s.sh.journal|
    ensures var st, ev := s.Of(w).snap.run.state, s.sh.journal[s.Of(w).at].evidence;
            st == Reviewing ==>
              && (ev.ruling.None? ==> ev.status == AttemptBlocked)
              && (ev.ruling.Some? && ev.ruling.value.status == G.Approvable ==> ev.ruling.value.gate.Some?)
  {
    ReachableHolds(c, s);
    var sh, wk := s.sh, s.Of(w);
    assert WorkerOk(c, sh, w, wk);
    assert RecordOk(c, sh.history, sh.journal, sh.launches, wk.at);
  }

  lemma OutcomesMove(c: Config, s: System, w: nat)
    requires Reachable(c, s) && s.Of(w).Holding?
    ensures Stuck(s.sh, s.Of(w)) <==> !CanMove(c, s, w)
  {
    HeldOutcome(c, s, w);
    var sh, wk := s.sh, s.Of(w);
    var ev := sh.journal[wk.at].evidence;
    if !Stuck(sh, wk) {
      OutcomeIsDecided(sh, wk.snap, ev, wk.own);
      assert CanStep(c, s, w, Decide(OutcomeMove(sh, wk.snap, ev, wk.own)));
    }
  }

  lemma OutcomeIsDecided(sh: Shared, snap: Stored, ev: Evidence, own: bool)
    requires Attempting(snap) && (snap.run.state == Validating ==> ev.checked.Some?)
    requires snap.run.state == Reviewing && ev.ruling.None? ==> ev.status == AttemptBlocked
    requires snap.run.state == Reviewing && ev.ruling.Some? && ev.ruling.value.status == G.Approvable ==>
               ev.ruling.value.gate.Some?
    ensures OutcomeRequests(sh, snap, ev, own, OutcomeMove(sh, snap, ev, own))
  {
  }

  /** A step of a worker between two attempts. */
  function OtherMove(c: Config, sh: Shared, wk: Worker): Action {
    match wk
    case Starting(_) => FinishPrelude
    case Between(_) => ReadRun
    case Inspecting(_) => SelectPending
    case Decided(_, _, _) => Commit(0)
    case ContextAt(_, _, n) => if n <= c.contexts then LookContext else Decide(Plain(WorkspacePreparing))
    case ContextSelecting(_, _, _) => SelectContext(Completed)
    case ContextFailed(_, _, blocking) => Decide(Plain(if blocking then Blocked else Failed))
    case Refused(_, _, unresolved) => Decide(Plain(if unresolved then Blocked else Failed))
    case Resolved(_, at, safe) =>
      if at < |sh.journal| && sh.journal[at].id.step == WorkspaceStep && safe then Decide(Plain(Building))
      else if at < |sh.journal| && Mutating(sh.journal[at].id.step) then Decide(Plain(Blocked))
      else Decide(Plain(Failed))
    case Selected(snap, at) =>
      if at < |sh.journal| && sh.journal[at].expected == snap.run.state && sh.journal[at].revision == snap.revision then
        Reconcile(if sh.journal[at].id.step == ReviewStep then KnownNone else Ambiguous)
      else Decide(Plain(Blocked))
    case Stopping(_) => Decide(Plain(Cancelled))
    case _ => Decide(Plain(Blocked))
  }

  lemma OthersMove(c: Config, s: System, w: nat)
    requires Reachable(c, s) && !s.Of(w).Idle? && !MidAttempt(s.Of(w)) && !s.Of(w).Holding?
    ensures CanStep(c, s, w, OtherMove(c, s.sh, s.Of(w)))
  {
    var wk := s.Of(w);
    if wk.Selected? {
      SelectorsMove(c, s, w);
    } else if wk.Resolved? {
      ResolversMove(c, s, w);
    } else if wk.Looping? || wk.Exhausted? || wk.ContextAt? {
      LoopersMove(c, s, w);
    } else {
      SimpleMoves(c, s, w);
    }
  }

  predicate Simple(wk: Worker) {
    || wk.Starting? || wk.Between? || wk.Inspecting? || wk.Decided? || wk.ContextSelecting? || wk.ContextFailed?
    || wk.Refused? || wk.Stopping?
  }

  lemma SimpleMoves(c: Config, s: System, w: nat)
    requires Simple(s.Of(w))
    ensures CanStep(c, s, w, OtherMove(c, s.sh, s.Of(w)))
  {
  }

  lemma LoopersMove(c: Config, s: System, w: nat)
    requires Reachable(c, s) && (s.Of(w).Looping? || s.Of(w).Exhausted? || s.Of(w).ContextAt?)
    ensures CanStep(c, s, w, OtherMove(c, s.sh, s.Of(w)))
  {
    WorkerHolds(c, s, w);
  }

  lemma SelectorsMove(c: Config, s: System, w: nat)
    requires Reachable(c, s) && s.Of(w).Selected?
    ensures CanStep(c, s, w, OtherMove(c, s.sh, s.Of(w)))
  {
    WorkerHolds(c, s, w);
  }

  lemma ResolversMove(c: Config, s: System, w: nat)
    requires Reachable(c, s) && s.Of(w).Resolved?
    ensures CanStep(c, s, w, OtherMove(c, s.sh, s.Of(w)))
  {
    WorkerHolds(c, s, w);
  }

  /** A call that is not done has a step to take, whatever the others did, with one exception: it
      holds a validation outcome without a result. */
  lemma CallsProgress(c: Config, s: System, w: nat)
    requires Reachable(c, s) && !s.Of(w).Idle?
    ensures !CanMove(c, s, w) <==> Stuck(s.sh, s.Of(w))
  {
    if s.Of(w).Holding? {
      OutcomesMove(c, s, w);
    } else if MidAttempt(s.Of(w)) {
      AttemptsMove(c, s, w);
    } else {
      OthersMove(c, s, w);
    }
  }

  // ---- The call -------------------------------------------------------------------------------

  /** The others take their steps; the worker of the call takes none. */
  predicate Elsewhere(c: Config, s: System, w: nat, schedule: Schedule)
    decreases |schedule|
  {
    schedule == []
    || (schedule[0].0 != w && Enabled(c, s, schedule[0].0, schedule[0].1)
        && Elsewhere(c, Apply(c, s, schedule[0].0, schedule[0].1), w, schedule[1..]))
  }

  function After(c: Config, s: System, w: nat, schedule: Schedule): System
    requires Elsewhere(c, s, w, schedule)
    decreases |schedule|
  {
    if schedule == [] then s
    else After(c, Apply(c, s, schedule[0].0, schedule[0].1), w, schedule[1..])
  }

  lemma OthersLeaveTheWorker(c: Config, s: System, w: nat, v: nat, a: Action)
    requires Enabled(c, s, v, a) && v != w
    ensures Apply(c, s, v, a).Of(w) == s.Of(w)
  {
  }

  lemma {:induction false} Interference(c: Config, s: System, w: nat, schedule: Schedule)
    requires Reachable(c, s) && Elsewhere(c, s, w, schedule)
    ensures var s' := After(c, s, w, schedule);
            Reachable(c, s') && s'.Of(w) == s.Of(w) && s'.sh.stored.run.budgets == s.sh.stored.run.budgets
    decreases |schedule|
  {
    if schedule != [] {
      var v, a := schedule[0].0, schedule[0].1;
      StaysReachable(c, s, v, a);
      StoredBudgets(c, s, v, a);
      OthersLeaveTheWorker(c, s, w, v, a);
      Interference(c, Apply(c, s, v, a), w, schedule[1..]);
    }
  }

  /** The environment of a call: what the others do before each of its steps, and which of its
      possible steps comes next. */
  datatype Environment = Environment(others: System -> Schedule, next: System -> Action)

  /** An environment that lets a call take a step whenever there is one. */
  ghost predicate Willing(c: Config, w: nat, env: Environment) {
    forall s: System :: Reachable(c, s) && CanMove(c, s, w) ==> CanStep(c, s, w, env.next(s))
  }

  class Service {
    var system: System
    const config: Config

    constructor (config: Config, system: System)
      ensures this.config == config && this.system == system
    {
      this.config, this.system := config, system;
    }

    /** The others take their steps; steps that are not theirs to take do not happen. */
    method Interfere(w: nat, others: Schedule)
      requires Reachable(config, system)
      modifies this`system
      ensures Reachable(config, system) && system.Of(w) == old(system.Of(w))
      ensures system.sh.stored.run.budgets == old(system.sh.stored.run.budgets)
    {
      if Elsewhere(config, system, w, others) {
        Interference(config, system, w, others);
        system := After(config, system, w, others);
      }
    }

    /** One step of the call. A step that cannot be taken ends the call with an error. */
    method Step(w: nat, a: Action) returns (failed: bool)
      requires Reachable(config, system) && !system.Of(w).Idle?
      requires 0 <= PassesLeft(system.Of(w), Bound(system.sh.stored.run))
      modifies this`system
      ensures Reachable(config, system)
      ensures system.sh.stored.run.budgets == old(system.sh.stored.run.budgets)
      ensures failed ==> system.Of(w).Idle? && !CanStep(config, old(system), w, a)
      ensures !failed ==> Closer(config, Bound(old(system.sh.stored.run)), system.Of(w), old(system.Of(w)))
    {
      if !Inside(a) || !Enabled(config, system, w, a) {
        StaysReachable(config, system, w, Crash);
        system := system.Put(w, Idle);
        return true;
      }
      StepIsCloser(config, system, w, a);
      StaysReachable(config, system, w, a);
      StoredBudgets(config, system, w, a);
      system := Apply(config, system, w, a);
      failed := false;
    }

    /** One call of worker `w`, already begun. It always returns: either it is done, or it cannot take
        the step that comes next from the state `last` and ends with an error there. The durable state
        stays one that the protocol allows, so everything proved of reachable states holds of it. */
    method Call(w: nat, env: Environment) returns (failed: bool, ghost last: System)
      requires Reachable(config, system)
      modifies this`system
      ensures Reachable(config, system) && system.Of(w) == Idle
      ensures system.sh.stored.run.budgets == old(system.sh.stored.run.budgets)
      ensures failed ==> Reachable(config, last) && !last.Of(w).Idle? && !CanStep(config, last, w, env.next(last))
      ensures failed && Willing(config, w, env) ==> Stuck(last.sh, last.Of(w))
    {
      failed, last := false, system;
      ghost var bound := Bound(system.sh.stored.run);
      PassesLeftAreBounded(config, system, w);
      while !failed && !system.Of(w).Idle?
        invariant Reachable(config, system)
        invariant system.sh.stored.run.budgets == old(system.sh.stored.run.budgets)
        invariant failed ==> system.Of(w).Idle?
        invariant failed ==> Reachable(config, last) && !last.Of(w).Idle? && !CanStep(config, last, w, env.next(last))
        invariant !failed ==> 0 <= PassesLeft(system.Of(w), bound)
        decreases !failed, PassesLeft(system.Of(w), bound), Distance(config, system.Of(w))
      {
        Interfere(w, env.others(system));
        last := system;
        failed := Step(w, env.next(system));
      }
      if failed && Willing(config, w, env) {
        CallsProgress(config, last, w);
      }
    }
  }
}
