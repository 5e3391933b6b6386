/** Where a run goes from the evidence on record: for every outcome of a build, a validation, a review or
    a repair, exactly the state, the counters and the gate that the next transition stores
    (src/revanent/orchestration/service.py). */
module CoordinatorOutcomes {
  import opened Domain
  import opened Ids
  import opened Coordinator
  import opened CoordinatorHistory
  import opened CoordinatorInvariants
  import opened CoordinatorTheorems
  import opened CoordinatorRuns
  import T = Telemetry
  import V = Validation
  import G = ReviewGate

  /** The system once the worker has asked for a transition and persisted it. */
  function AfterDeciding(c: Config, s: System, w: nat, req: Request, now: int): System
    requires Enabled(c, s, w, Decide(req))
  {
    Apply(c, Apply(c, s, w, Decide(req)), w, Commit(now))
  }

  /** A worker about to decide on an outcome of the current version. */
  ghost predicate Deciding(c: Config, s: System, w: nat, req: Request, st: RunState) {
    && Reachable(c, s) && s.Of(w).Holding? && s.Of(w).snap == s.sh.stored && s.sh.stored.run.state == st
    && Enabled(c, s, w, Decide(req))
  }

  lemma Asks(c: Config, s: System, w: nat, req: Request)
    requires Reachable(c, s) && Enabled(c, s, w, Decide(req))
    requires !s.Of(w).Idle? && !s.Of(w).Between? && s.Of(w).snap == s.sh.stored
    ensures var a := Apply(c, s, w, Decide(req));
            Reachable(c, a) && a.sh == s.sh && a.Of(w) == Decided(s.sh.stored, req, GoesOn(s.Of(w), req.destination))
  {
    StaysReachable(c, s, w, Decide(req));
  }

  /** The run after a transition. */
  function After(run: Run, req: Request, at: int): Run {
    run.(state := req.destination, attempts := run.attempts.Bump(req.increment), updatedAt := at,
         gate := if req.destination == Approved then req.gate else None)
  }

  lemma TransitionStores(run: Run, req: Request, at: int)
    requires TransitionRun(run, req, at).Ok?
    ensures TransitionRun(run, req, at).value == After(run, req, at)
  {
  }

  lemma CommitPuts(s: System, w: nat, now: int)
    requires s.Of(w).Decided? && s.Of(w).snap == s.sh.stored
    requires TransitionRun(s.sh.stored.run, s.Of(w).req, Stamp(s.sh.stored.run, now)).Ok?
    ensures var next := TransitionRun(s.sh.stored.run, s.Of(w).req, Stamp(s.sh.stored.run, now)).value;
            DoCommit(s, w, now)
            == s.PutWith(Advance(s.sh, s.Of(w).req, Stamp(s.sh.stored.run, now), next), w, AfterCommit(s.Of(w).goesOn))
  {
  }

  /** What an accepted request stores. */
  lemma CommitStores(c: Config, a: System, w: nat, now: int)
    requires Reachable(c, a) && a.Of(w).Decided? && a.Of(w).snap == a.sh.stored
    ensures var t, req, run := Apply(c, a, w, Commit(now)), a.Of(w).req, a.sh.stored.run;
            && t.sh.stored.revision == a.sh.stored.revision + 1 && t.sh.journal == a.sh.journal
            && t.sh.stored.run == After(run, req, Stamp(run, now))
            && t.Of(w) == AfterCommit(a.Of(w).goesOn)
  {
    CurrentRequestsAreAccepted(c, a, w, now);
    CommitPuts(a, w, now);
    TransitionStores(a.sh.stored.run, a.Of(w).req, Stamp(a.sh.stored.run, now));
  }

  /** What any transition of the current version stores. */
  lemma DecidedRun(c: Config, s: System, w: nat, req: Request, now: int)
    requires Reachable(c, s) && Enabled(c, s, w, Decide(req))
    requires !s.Of(w).Idle? && !s.Of(w).Between? && s.Of(w).snap == s.sh.stored
    ensures var t := AfterDeciding(c, s, w, req, now);
            var run := s.sh.stored.run;
            && t.sh.stored.revision == s.sh.stored.revision + 1 && t.sh.journal == s.sh.journal
            && t.sh.stored.run == After(run, req, Stamp(run, now))
            && (s.Of(w).Holding? ==>
                  t.Of(w) == if req.destination in {Failed, Blocked, Cancelled} then Idle else Between(s.Of(w).pass))
  {
    Asks(c, s, w, req);
    CommitStores(c, Apply(c, s, w, Decide(req)), w, now);
  }

  // ---- Reviews --------------------------------------------------------------------------------

  /** The outcome that a worker holds. */
  function Held(s: System, w: nat): Evidence
    requires s.Of(w).Holding? && s.Of(w).at < |s.sh.journal|
  {
    s.sh.journal[s.Of(w).at].evidence
  }

  predicate GateSays(ev: Evidence, status: G.GateStatus) {
    ev.status != AttemptCancelled && ev.ruling.Some? && ev.ruling.value.status == status
  }

  /** The state after a review: approved exactly if the gate approves, repairing exactly if changes are
      required and a repair is left. */
  predicate ReviewLeads(run: Run, ev: Evidence, next: Run) {
    var left := run.attempts.repair < run.budgets.maxRepair;
    && (next.state == Approved <==> GateSays(ev, G.Approvable))
    && (next.state == Repairing <==> GateSays(ev, G.ChangesRequired) && left)
    && (next.state == Failed <==> GateSays(ev, G.InvalidEvidence) || (GateSays(ev, G.ChangesRequired) && !left))
    && (next.state == Blocked <==> GateSays(ev, G.GateBlocked) || ev.ruling.None?)
    && (next.state == Cancelled <==> ev.status == AttemptCancelled && ev.ruling.Some?)
    && (next.state == Approved ==> next.gate == ev.ruling.value.gate && next.gate.Some?)
    && (next.state != Approved ==> next.gate == None)
    && next.attempts.build == run.attempts.build && next.attempts.repair == run.attempts.repair
    && next.attempts.review == run.attempts.review
         + (if ev.ruling.None? || (GateSays(ev, G.ChangesRequired) && !left) then 0 else 1)
  }

  lemma RepairsLeft(c: Config, s: System)
    requires Reachable(c, s) && s.sh.stored.run.state in {Validating, Reviewing}
    ensures RepairsUsedUp(s.sh, s.sh.stored) <==> s.sh.stored.run.attempts.repair >= s.sh.stored.run.budgets.maxRepair
  {
    RepairsCounted(c, s);
  }

  lemma ReviewAsks(sh: Shared, snap: Stored, ev: Evidence, own: bool, req: Request, at: int)
    requires OutcomeRequests(sh, snap, ev, own, req) && snap.run.state == Reviewing
    requires RepairsUsedUp(sh, snap) <==> snap.run.attempts.repair >= snap.run.budgets.maxRepair
    ensures ReviewLeads(snap.run, ev, After(snap.run, req, at))
  {
  }

  /** A review outcome decides the next state, the gate and the counters. */
  lemma ReviewDecides(c: Config, s: System, w: nat, req: Request, now: int)
    requires Deciding(c, s, w, req, Reviewing)
    ensures s.Of(w).at < |s.sh.journal|
    ensures var t := AfterDeciding(c, s, w, req, now);
            && t.sh.stored.revision == s.sh.stored.revision + 1
            && ReviewLeads(s.sh.stored.run, Held(s, w), t.sh.stored.run)
            && t.Of(w) == if t.sh.stored.run.state in {Approved, Repairing} then Between(s.Of(w).pass) else Idle
  {
    DecidedRun(c, s, w, req, now);
    RepairsLeft(c, s);
    ReviewAsks(s.sh, s.sh.stored, Held(s, w), s.Of(w).own, req, Stamp(s.sh.stored.run, now));
  }

  // ---- Validations ----------------------------------------------------------------------------

  predicate Passes(r: Checked) {
    (r.status == V.Passed || r.status == V.PassedWithAdvisories) && r.requiredPassed && r.allComplete
  }

  /** The state after a validation: reviewing exactly if it passed, repairing exactly after an ordinary
      failure with a repair left. No attempt is counted. */
  predicate ValidationLeads(run: Run, r: Checked, next: Run) {
    var left := run.attempts.repair < run.budgets.maxRepair;
    var stopped := r.status == V.StatusCancelled || r.status == V.StatusBlocked || r.status == V.Unavailable
                   || r.status == V.Invalid || r.status == V.TimedOut;
    && (next.state == Reviewing <==> Passes(r))
    && (next.state == Cancelled <==> r.status == V.StatusCancelled)
    && (next.state == Blocked <==> r.status == V.StatusBlocked || r.status == V.Unavailable)
    && (next.state == Repairing <==> !Passes(r) && !stopped && left)
    && (next.state == Failed <==>
          r.status == V.Invalid || r.status == V.TimedOut || (!Passes(r) && !stopped && !left))
    && next.attempts == run.attempts && next.gate == None
  }

  lemma ValidationAsks(sh: Shared, snap: Stored, ev: Evidence, own: bool, req: Request, at: int)
    requires OutcomeRequests(sh, snap, ev, own, req) && snap.run.state == Validating
    requires RepairsUsedUp(sh, snap) <==> snap.run.attempts.repair >= snap.run.budgets.maxRepair
    ensures ev.checked.Some?
    ensures ValidationLeads(snap.run, ev.checked.value, After(snap.run, req, at))
  {
  }

  /** A validation outcome decides the next state; only one with a result decides at all. */
  lemma ValidationDecides(c: Config, s: System, w: nat, req: Request, now: int)
    requires Deciding(c, s, w, req, Validating)
    ensures s.Of(w).at < |s.sh.journal| && Held(s, w).checked.Some?
    ensures var t := AfterDeciding(c, s, w, req, now);
            && t.sh.stored.revision == s.sh.stored.revision + 1
            && ValidationLeads(s.sh.stored.run, Held(s, w).checked.value, t.sh.stored.run)
            && t.Of(w) == if t.sh.stored.run.state in {Reviewing, Repairing} then Between(s.Of(w).pass) else Idle
  {
    DecidedRun(c, s, w, req, now);
    RepairsLeft(c, s);
    ValidationAsks(s.sh, s.sh.stored, Held(s, w), s.Of(w).own, req, Stamp(s.sh.stored.run, now));
  }

  // ---- Builds and repairs ---------------------------------------------------------------------

  /** The state after a build or a repair: validated if it completed or may have written something. It
      counts in any case. */
  predicate AgentLeads(run: Run, ev: Evidence, next: Run) {
    var refused := ev.status == AttemptBlocked || ev.status == AttemptCancelled;
    var touched := ev.status == Completed || ev.effects == KnownPresent || ev.effects == Ambiguous
      || (ev.effects == Incompatible && run.state == Repairing);
    && (next.state == Blocked <==> ev.status == AttemptBlocked)
    && (next.state == Cancelled <==> ev.status == AttemptCancelled)
    && (next.state == Validating <==> !refused && touched)
    && (next.state == Failed <==> !refused && !touched)
    && next.attempts.review == run.attempts.review && next.gate == None
    && next.attempts.build == run.attempts.build + (if run.state == Building then 1 else 0)
    && next.attempts.repair == run.attempts.repair + (if run.state == Repairing then 1 else 0)
  }

  lemma AgentAsks(sh: Shared, snap: Stored, ev: Evidence, own: bool, req: Request, at: int)
    requires OutcomeRequests(sh, snap, ev, own, req) && snap.run.state in {Building, Repairing}
    ensures AgentLeads(snap.run, ev, After(snap.run, req, at))
  {
  }

  /** A build or repair outcome decides the next state and counts the attempt. */
  lemma AgentDecides(c: Config, s: System, w: nat, req: Request, now: int)
    requires Deciding(c, s, w, req, Building) || Deciding(c, s, w, req, Repairing)
    ensures s.Of(w).at < |s.sh.journal|
    ensures var t := AfterDeciding(c, s, w, req, now);
            && t.sh.stored.revision == s.sh.stored.revision + 1
            && AgentLeads(s.sh.stored.run, Held(s, w), t.sh.stored.run)
            && t.Of(w) == if t.sh.stored.run.state == Validating then Between(s.Of(w).pass) else Idle
  {
    DecidedRun(c, s, w, req, now);
    AgentAsks(s.sh, s.sh.stored, Held(s, w), s.Of(w).own, req, Stamp(s.sh.stored.run, now));
  }

  /** A worktree that was just created leads to the build, one that could not be blocks. */
  lemma WorkspaceDecides(c: Config, s: System, w: nat, req: Request, now: int)
    requires Deciding(c, s, w, req, WorkspacePreparing) && s.Of(w).own
    ensures s.Of(w).at < |s.sh.journal|
    ensures var next := AfterDeciding(c, s, w, req, now).sh.stored.run;
            && next.state == (if Held(s, w).status == Completed then Building else Blocked)
            && next.attempts == s.sh.stored.run.attempts && next.gate == None
  {
    DecidedRun(c, s, w, req, now);
  }

  // ---- Everything else that ends a run --------------------------------------------------------

  /** The state that a transition asked for by worker `w` stores. */
  function NextRun(c: Config, s: System, w: nat, req: Request, now: int): Run
    requires Enabled(c, s, w, Decide(req))
  {
    AfterDeciding(c, s, w, req, now).sh.stored.run
  }

  /** A worker that asks for a transition of the current version. */
  ghost predicate Asking(c: Config, s: System, w: nat, req: Request) {
    && Reachable(c, s) && Enabled(c, s, w, Decide(req))
    && !s.Of(w).Idle? && !s.Of(w).Between? && s.Of(w).snap == s.sh.stored
  }

  /** A denied validation is refused, and whether for unresolved capacity is remembered. */
  lemma DenialIsKept(c: Config, s: System, w: nat)
    requires Reachable(c, s) && s.Of(w).Responded? && s.Of(w).denied.Some? && s.Of(w).snap.run.state == Validating
    ensures var t := Apply(c, s, w, PersistOutcome);
            && Reachable(c, t) && t.sh.stored == s.sh.stored
            && (t.Of(w).Idle?
                || t.Of(w) == Refused(s.Of(w).snap, s.Of(w).pass, s.Of(w).denied.value == T.DenyUnresolved))
  {
    StaysReachable(c, s, w, PersistOutcome);
  }

  /** A refused validation ends the run: blocked if capacity is unresolved, and failed otherwise. */
  lemma RefusalDecides(c: Config, s: System, w: nat, req: Request, now: int)
    requires Asking(c, s, w, req) && s.Of(w).Refused?
    ensures NextRun(c, s, w, req, now).state == (if s.Of(w).unresolved then Blocked else Failed)
    ensures NextRun(c, s, w, req, now).attempts == s.sh.stored.run.attempts
  {
    DecidedRun(c, s, w, req, now);
  }

  /** A context selection that does not complete: a blocked one blocks, an invalid one fails. */
  lemma ContextDecides(c: Config, s: System, w: nat, status: AttemptStatus, now: int, req: Request)
    requires Reachable(c, s) && Enabled(c, s, w, SelectContext(status)) && status != Completed
    requires var t := Apply(c, s, w, SelectContext(status));
             !t.Of(w).Idle? && t.sh.stored == s.Of(w).snap && Enabled(c, t, w, Decide(req))
    ensures NextRun(c, Apply(c, s, w, SelectContext(status)), w, req, now).state
         == (if status == AttemptBlocked then Blocked else Failed)
  {
    var t := Apply(c, s, w, SelectContext(status));
    StaysReachable(c, s, w, SelectContext(status));
    DecidedRun(c, t, w, req, now);
  }

  /** Once every context request is done, the worktree comes next. */
  lemma ContextsLead(c: Config, s: System, w: nat, req: Request, now: int)
    requires Asking(c, s, w, req) && s.Of(w).ContextAt? && s.Of(w).seqno > c.contexts
    ensures NextRun(c, s, w, req, now).state == WorkspacePreparing
  {
    DecidedRun(c, s, w, req, now);
  }

  /** A reconciled attempt: only a worktree that is there permits going on. What else may have written
      blocks the run, and what cannot have written fails it. */
  lemma ReconciliationDecides(c: Config, s: System, w: nat, effects: Effects, now: int, req: Request)
    requires Reachable(c, s) && Enabled(c, s, w, Reconcile(effects))
    requires var t := Apply(c, s, w, Reconcile(effects));
             t.Of(w).Resolved? && t.sh.stored == s.Of(w).snap && Enabled(c, t, w, Decide(req))
    ensures s.Of(w).at < |s.sh.journal|
    ensures var step := s.sh.journal[s.Of(w).at].id.step;
            NextRun(c, Apply(c, s, w, Reconcile(effects)), w, req, now).state
              == (if step == WorkspaceStep && effects == KnownPresent then Building
                  else if step == WorkspaceStep || step == BuildStep || step == RepairStep then Blocked
                  else Failed)
  {
    var t := Apply(c, s, w, Reconcile(effects));
    StaysReachable(c, s, w, Reconcile(effects));
    DecidedRun(c, t, w, req, now);
  }

  /** At the head of the loop duration is denied exactly if no duration reservation is unresolved and
      measured validation time overran, or what is used and promised has reached the limit. */
  lemma DurationIsDeniedExactly(sh: Shared, b: Budgets)
    ensures DurationDenied(sh, b) <==>
              && (forall r :: r in sh.ledger.reservations && r.metric == T.TotalDuration ==> r.status != T.Unresolved)
              && (|| (exists u :: u in sh.ledger.usage && u.overage && u.metric in T.PreflightMetrics(T.TotalDuration))
                  || T.UsedIn(sh.ledger.usage, T.PreflightMetrics(T.TotalDuration))
                     + T.ReservedWith(sh.ledger.reservations, T.TotalDuration, T.Active)
                     >= b.maxDurationSeconds * 1_000)
  {
    forall u: T.UsageMetric
      ensures u in T.PreflightMetrics(T.TotalDuration) <==> T.MetricForUsage(u) == Some(T.TotalDuration)
    {
      T.PreflightMetricsAreThePreimage(T.TotalDuration, u);
    }
  }

  /** The loop itself only stops the run or takes the two first steps. It fails a run only where the
      state permits it, and it moves a run on only from the two states that hold no attempt. */
  lemma LoopDecides(c: Config, s: System, w: nat, req: Request, now: int)
    requires Asking(c, s, w, req) && s.Of(w).Looping?
    ensures var run, next := s.sh.stored.run, NextRun(c, s, w, req, now);
            && (next.state in {Blocked, Cancelled, Failed}
                || (run.state == Created && next.state == Planning)
                || (run.state == Planning && next.state == ContextPreparing))
            && (next.state == Failed ==> run.state !in {Created, Planning, WorkspacePreparing})
            && next.attempts == run.attempts && next.gate == None
  {
    DecidedRun(c, s, w, req, now);
    Asks(c, s, w, req);
    CurrentRequestsAreAccepted(c, Apply(c, s, w, Decide(req)), w, now);
  }

  /** A cancelled run is cancelled. */
  lemma CancelDecides(c: Config, s: System, w: nat, req: Request, now: int)
    requires Asking(c, s, w, req) && s.Of(w).Stopping?
    ensures NextRun(c, s, w, req, now).state == Cancelled
  {
    DecidedRun(c, s, w, req, now);
  }

  /** A picked number is the next one, and a review has its passing validation. */
  lemma PickedFacts(c: Config, s: System, w: nat)
    requires Reachable(c, s) && s.Of(w).Picked? && s.Of(w).snap == s.sh.stored
    ensures var run := s.sh.stored.run;
            && (run.state == Building ==> s.Of(w).seqno == run.attempts.build + 1)
            && (run.state == Reviewing ==>
                  s.Of(w).seqno == run.attempts.review + 1 && HasApprovableValidation(s.sh.journal))
  {
    ReachableHolds(c, s);
    assert WorkerOk(c, s.sh, w, s.Of(w));
    NumberIsOrdinal(c, s.sh);
    if s.sh.stored.run.state == Reviewing { ReviewFindsValidation(c, s, w); }
  }

  /** Before an attempt starts, a run fails only for a used-up limit or for want of a plan, or because a
      repair is refused; everything else blocks. */
  predicate PickLeads(c: Config, run: Run, seqno: nat, next: Run) {
    && next.state in {Blocked, Failed} && next.attempts == run.attempts
    && (next.state == Failed && run.state == Building ==> run.attempts.build >= run.budgets.maxBuild)
    && (next.state == Failed && run.state == Validating ==> seqno > c.plans)
    && (next.state == Failed && run.state == Reviewing ==> run.attempts.review >= run.budgets.maxReview)
    && (next.state == Failed ==> run.state in {Building, Validating, Reviewing, Repairing})
  }

  lemma PickAsks(c: Config, sh: Shared, snap: Stored, seqno: nat, req: Request, at: int)
    requires PickedRequests(c, sh, snap, seqno, req)
    requires snap.run.state == Building ==> seqno == snap.run.attempts.build + 1
    requires snap.run.state == Reviewing ==> seqno == snap.run.attempts.review + 1
    requires snap.run.state == Reviewing ==> HasApprovableValidation(sh.journal)
    ensures PickLeads(c, snap.run, seqno, After(snap.run, req, at))
  {
  }

  lemma PickDecides(c: Config, s: System, w: nat, req: Request, now: int)
    requires Asking(c, s, w, req) && s.Of(w).Picked?
    ensures PickLeads(c, s.sh.stored.run, s.Of(w).seqno, NextRun(c, s, w, req, now))
  {
    DecidedRun(c, s, w, req, now);
    PickedFacts(c, s, w);
    PickAsks(c, s.sh, s.sh.stored, s.Of(w).seqno, req, Stamp(s.sh.stored.run, now));
  }

  /** The attempt status of a recorded validation is that of its result. */
  lemma RecordedValidationsAgree(c: Config, s: System, k: nat)
    requires Reachable(c, s) && k < |s.sh.journal|
    requires s.sh.journal[k].stage == Outcome && s.sh.journal[k].id.step == ValidationStep
    requires s.sh.journal[k].evidence.checked.Some?
    ensures var ev := s.sh.journal[k].evidence;
            var st := ev.checked.value.status;
            && ev.checked.value.plan == s.sh.journal[k].id.seqno
            && (ev.status == Completed <==> st == V.Passed || st == V.PassedWithAdvisories)
            && (ev.status == AttemptCancelled <==> st == V.StatusCancelled)
            && (ev.status == AttemptBlocked <==> st == V.StatusBlocked || st == V.Unavailable)
            && (ev.status == AttemptInvalid <==> st == V.Invalid)
            && (ev.status == AttemptFailed <==> st == V.StatusFailed || st == V.TimedOut || st == V.NotRun)
  {
    ReachableHolds(c, s);
    assert RecordOk(c, s.sh.history, s.sh.journal, s.sh.launches, k);
  }
}
