/** Safety and progress over whole runs: any number of workers, any interleaving of their steps,
    any of them lost between two durable writes. */
module CoordinatorTheorems {
  import opened Domain
  import opened Ids
  import opened Coordinator
  import opened CoordinatorHistory
  import opened CoordinatorInvariants
  import opened CoordinatorSteps
  import T = Telemetry
  import V = Validation
  import G = ReviewGate

  ghost predicate Reachable(c: Config, s: System) {
    exists s0: System, schedule: Schedule :: Initial(s0) && Runs(c, s0, schedule, s)
  }

  lemma ReachableHolds(c: Config, s: System)
    requires Reachable(c, s)
    ensures SharedOk(c, s.sh) && forall w: nat :: WorkerOk(c, s.sh, w, s.Of(w))
  {
    var s0: System, schedule: Schedule :| Initial(s0) && Runs(c, s0, schedule, s);
    InitialHolds(c, s0);
    RunsKeep(c, s0, schedule, s);
    assert ViewOk(c, s, 0);
    forall w: nat ensures WorkerOk(c, s.sh, w, s.Of(w)) { assert ViewOk(c, s, w); }
  }

  // ---- At-most-once initiation ----------------------------------------------------------------

  /** An external call was started for an intent that this very worker created. */
  ghost predicate StartedByOwner(sh: Shared, x: Launch) {
    exists k: nat :: IntentOf(sh.journal, k, x.id, x.revision) && sh.journal[k].writer == x.worker
  }

  /** Each revision starts at most one external call, each attempt is started at most once ever,
      and only by the worker whose write created its intent. */
  lemma AtMostOnce(c: Config, s: System)
    requires Reachable(c, s)
    ensures forall i, k :: 0 <= i < k < |s.sh.launches| ==>
              s.sh.launches[i].revision != s.sh.launches[k].revision && s.sh.launches[i].id != s.sh.launches[k].id
    ensures forall i :: 0 <= i < |s.sh.launches| ==> StartedByOwner(s.sh, s.sh.launches[i])
    ensures forall i, k :: 0 <= i < k < |s.sh.journal| ==>
              s.sh.journal[i].id != s.sh.journal[k].id || s.sh.journal[i].stage != s.sh.journal[k].stage
  {
    ReachableHolds(c, s);
    var sh := s.sh;
    forall i | 0 <= i < |sh.launches| ensures StartedByOwner(sh, sh.launches[i]) {
      assert LaunchOk(sh.journal, sh.ledger, sh.launches[i]);
    }
    forall i, k | 0 <= i < k < |sh.launches| ensures sh.launches[i].id != sh.launches[k].id {
      var a: nat :| IntentOf(sh.journal, a, sh.launches[i].id, sh.launches[i].revision);
      var b: nat :| IntentOf(sh.journal, b, sh.launches[k].id, sh.launches[k].revision);
    }
  }

  /** No agent or validation is started without a granted reservation on record. */
  lemma NothingRunsUnfunded(c: Config, s: System, x: Launch)
    requires Reachable(c, s) && x in s.sh.launches && x.id.step != WorkspaceStep
    ensures T.Has(s.sh.ledger, x.id)
  {
    ReachableHolds(c, s);
    var i :| 0 <= i < |s.sh.launches| && s.sh.launches[i] == x;
    assert LaunchOk(s.sh.journal, s.sh.ledger, s.sh.launches[i]);
  }

  // ---- Approval -------------------------------------------------------------------------------

  /** Evidence of an approval at revision `q`: the review recorded there ruled the very gate of the
      run, about the approvable validation of the revision before. */
  ghost predicate ApprovedOn(j: seq<Record>, q: nat, gate: Option<ApprovalGate>, v: nat, r: nat) {
    && q > 0 && At(j, v, ValidationStep, Outcome, q - 1) && At(j, r, ReviewStep, Outcome, q) && v < r
    && j[v].evidence.checked.Some? && j[v].evidence.checked.value.Approvable()
    && j[r].evidence.checked == j[v].evidence.checked
    && j[r].evidence.status == Completed
    && j[r].evidence.ruling.Some? && j[r].evidence.ruling.value.status == G.Approvable
    && j[r].evidence.ruling.value.gate == gate && gate.Some? && gate.value.Satisfied()
  }

  ghost predicate LatestOf(j: seq<Record>, k: nat, step: Step) {
    k < |j| && forall i :: k < i < |j| ==> !(j[i].stage == Outcome && j[i].id.step == step)
  }

  ghost predicate AfterEveryWrite(j: seq<Record>, v: nat) {
    v < |j| && forall i :: 0 <= i < |j| && j[i].stage == Outcome && j[i].id.step in {BuildStep, RepairStep} ==> i < v
  }

  /** The review on which an approved run was approved. */
  lemma ApprovingReview(c: Config, sh: Shared) returns (r: nat)
    requires SharedOk(c, sh) && sh.stored.run.state == Approved
    ensures sh.stored.revision >= 1 && At(sh.journal, r, ReviewStep, Outcome, sh.stored.revision - 1)
    ensures sh.journal[r].evidence.ruling.Some? && sh.journal[r].evidence.ruling.value.status == G.Approvable
    ensures sh.journal[r].evidence.ruling.value.gate == sh.stored.run.gate
  {
    var h, j, n := sh.history, sh.journal, sh.stored.revision;
    HistoryFacts(h, sh.events, n - 1);
    assert LeftAt(c, h, j, n - 1);
    r :| At(j, r, ReviewStep, Outcome, n - 1) && j[r].evidence.ruling.Some?
         && j[r].evidence.ruling.value.status == G.Approvable && j[r].evidence.ruling.value.gate == h[n].gate;
  }

  lemma ApprovalEvidence(c: Config, sh: Shared) returns (v: nat, r: nat)
    requires SharedOk(c, sh) && sh.stored.run.state == Approved
    ensures sh.stored.revision >= 1 && ApprovedOn(sh.journal, sh.stored.revision - 1, sh.stored.run.gate, v, r)
    ensures CleanBefore(sh.journal, sh.stored.revision - 1)
  {
    r := ApprovingReview(c, sh);
    var j, q := sh.journal, sh.stored.revision - 1;
    assert RecordOk(c, sh.history, j, sh.launches, r);
    v :| At(j, v, ValidationStep, Outcome, q - 1) && j[v].evidence.checked == j[r].evidence.checked;
    EarlierRevisionFirst(j, v, r);
  }

  /** Approval safety: an approved run holds a latest validation that is approvable and younger than
      every build and repair, a latest review of that validation, and exactly the satisfied gate that
      the review gate ruled. */
  lemma ApprovalIsFresh(c: Config, s: System) returns (v: nat, r: nat)
    requires Reachable(c, s) && s.sh.stored.run.state == Approved
    ensures s.sh.stored.revision >= 1
    ensures ApprovedOn(s.sh.journal, s.sh.stored.revision - 1, s.sh.stored.run.gate, v, r)
    ensures LatestOf(s.sh.journal, v, ValidationStep) && LatestOf(s.sh.journal, r, ReviewStep)
    ensures AfterEveryWrite(s.sh.journal, v)
  {
    ReachableHolds(c, s);
    v, r := ApprovalEvidence(c, s.sh);
    forall i: nat | i < |s.sh.journal| && s.sh.journal[i].stage == Outcome
      ensures s.sh.journal[i].id.step == ValidationStep ==> i <= v
      ensures s.sh.journal[i].id.step == ReviewStep ==> i <= r
      ensures s.sh.journal[i].id.step in {BuildStep, RepairStep} ==> i < v
    {
      ApprovedRevisions(c, s.sh, v, r, i);
      OutcomePosition(c, s.sh, v, i);
      OutcomePosition(c, s.sh, r, i);
    }
  }

  lemma EarlierRevisionFirst(j: seq<Record>, a: nat, b: nat)
    requires InOrder(j) && a < |j| && b < |j| && j[a].revision < j[b].revision
    ensures a < b
  {
  }

  /** The last three revisions of an approved run. */
  lemma ApprovedRevisions(c: Config, sh: Shared, v: nat, r: nat, i: nat)
    requires SharedOk(c, sh) && sh.stored.run.state == Approved && sh.stored.revision >= 1 && i < |sh.journal|
    requires ApprovedOn(sh.journal, sh.stored.revision - 1, sh.stored.run.gate, v, r)
    ensures sh.journal[i].revision <= sh.stored.revision - 1
    ensures sh.journal[i].id.step != ReviewStep ==> sh.journal[i].revision <= sh.stored.revision - 2
    ensures sh.journal[i].id.step in {BuildStep, RepairStep} ==> sh.journal[i].revision < sh.stored.revision - 2
  {
    assert RecordOk(c, sh.history, sh.journal, sh.launches, i);
    assert RecordOk(c, sh.history, sh.journal, sh.launches, v);
    assert RecordOk(c, sh.history, sh.journal, sh.launches, r);
  }

  /** An outcome stands after another one only if it belongs to a later revision. */
  lemma OutcomePosition(c: Config, sh: Shared, k: nat, i: nat)
    requires SharedOk(c, sh) && k < |sh.journal| && i < |sh.journal|
    requires sh.journal[k].stage == Outcome && sh.journal[i].stage == Outcome && sh.journal[k].id.step != ContextStep
    ensures i < k ==> sh.journal[i].revision <= sh.journal[k].revision
    ensures k < i ==> sh.journal[k].revision < sh.journal[i].revision
    ensures sh.journal[i].revision < sh.journal[k].revision ==> i < k
  {
    if k < i && sh.journal[k].revision == sh.journal[i].revision {
      SameAttempt(c, sh.history, sh.journal, sh.launches, k, i);
    }
  }

  // ---- Ambiguity ------------------------------------------------------------------------------

  lemma SafeIsWorkspace(c: Config, sh: Shared, id: AttemptId)
    requires SharedOk(c, sh) && SafelyReconciled(sh.journal, id)
    ensures id.step == WorkspaceStep
  {
    var i :| 0 <= i < |sh.journal| && sh.journal[i].id == id && sh.journal[i].stage == Reconciliation
             && sh.journal[i].evidence.safe;
    assert RecordOk(c, sh.history, sh.journal, sh.launches, i);
  }

  lemma DirtyWriteIsForever(c: Config, sh: Shared, k: nat, q: nat)
    requires SharedOk(c, sh) && k < |sh.journal| && Dirty(sh.journal[k])
             && sh.journal[k].id.step in {BuildStep, RepairStep}
    requires sh.journal[k].revision < q
    ensures !CleanBefore(sh.journal, q)
  {
    if CleanBefore(sh.journal, q) {
      assert SafelyReconciled(sh.journal, sh.journal[k].id);
      SafeIsWorkspace(c, sh, sh.journal[k].id);
    }
  }

  /** Once a build or a repair left its writes in an unknown state, no continuation, resume or
      reconciliation reaches approval, and none starts another repair. */
  lemma AmbiguityIsAbsorbing(c: Config, s: System, k: nat)
    requires Reachable(c, s) && k < |s.sh.journal|
    requires Dirty(s.sh.journal[k]) && s.sh.journal[k].id.step in {BuildStep, RepairStep}
    ensures s.sh.stored.run.state != Approved
    ensures forall x :: x in s.sh.launches && x.id.step == RepairStep ==> x.revision <= s.sh.journal[k].revision
  {
    ReachableHolds(c, s);
    var sh := s.sh;
    assert RecordOk(c, sh.history, sh.journal, sh.launches, k);
    if sh.stored.run.state == Approved {
      var v, r := ApprovalEvidence(c, sh);
      ApprovedRevisions(c, sh, v, r, k);
      DirtyWriteIsForever(c, sh, k, sh.stored.revision - 1);
    }
    forall x | x in sh.launches && x.id.step == RepairStep ensures x.revision <= sh.journal[k].revision {
      RepairsStartClean(c, sh, x);
      if sh.journal[k].revision < x.revision { DirtyWriteIsForever(c, sh, k, x.revision); }
    }
  }

  lemma RepairsStartClean(c: Config, sh: Shared, x: Launch)
    requires SharedOk(c, sh) && x in sh.launches && x.id.step == RepairStep
    ensures CleanBefore(sh.journal, x.revision)
  {
    var i :| 0 <= i < |sh.launches| && sh.launches[i] == x;
    assert LaunchOk(sh.journal, sh.ledger, sh.launches[i]);
    var k: nat :| IntentOf(sh.journal, k, x.id, x.revision);
    assert RecordOk(c, sh.history, sh.journal, sh.launches, k);
  }

  // ---- Legality of transitions ----------------------------------------------------------------

  function Stamp(run: Run, now: int): int {
    if now < run.updatedAt then run.updatedAt else now
  }

  /** Every transition asked of the current version is accepted, whatever the clock says. */
  lemma CurrentRequestsAreAccepted(c: Config, s: System, w: nat, now: int)
    requires Reachable(c, s) && s.Of(w).Decided? && s.Of(w).snap == s.sh.stored
    ensures TransitionRun(s.sh.stored.run, s.Of(w).req, Stamp(s.sh.stored.run, now)).Ok?
  {
    ReachableHolds(c, s);
    HistoryFacts(s.sh.history, s.sh.events, s.sh.stored.revision);
    TransitionAcceptedExactly(s.sh.stored.run, s.Of(w).req, Stamp(s.sh.stored.run, now));
  }

  /** On any version, stale ones included, counters, limits, timestamps and gates are never the reason
      for a refusal. What is refused is exactly a plain FAILED asked for in one of the three early
      states that do not permit it, and it is only ever asked of a stale version. */
  lemma RequestsFailOnDestinationOnly(c: Config, s: System, w: nat, now: int)
    requires Reachable(c, s) && s.Of(w).Decided?
    ensures var snap, req := s.Of(w).snap, s.Of(w).req;
            && (TransitionRun(snap.run, req, Stamp(snap.run, now)).Err? <==>
                  req == Plain(Failed) && snap.run.state in {Created, Planning, WorkspacePreparing})
            && (TransitionRun(snap.run, req, Stamp(snap.run, now)).Err? ==>
                  && TransitionRun(snap.run, req, Stamp(snap.run, now)) == Err(InvalidTransition)
                  && snap != s.sh.stored)
  {
    ReachableHolds(c, s);
    var snap, req := s.Of(w).snap, s.Of(w).req;
    HistoryFacts(s.sh.history, s.sh.events, snap.revision);
    TransitionAcceptedExactly(snap.run, req, Stamp(snap.run, now));
  }

  // ---- Bounded progress -----------------------------------------------------------------------

  /** The loop pass a worker is in. */
  function PassOf(wk: Worker): nat {
    match wk
    case Between(pass) => pass
    case Looping(_, pass) => pass
    case Picked(_, pass, _) => pass
    case Admitted(_, pass, _, _) => pass
    case Clear(_, pass, _, _) => pass
    case Refusing(_, pass, _) => pass
    case Owning(_, pass, _, _, _, _) => pass
    case Responded(_, pass, _, _, _, _) => pass
    case Settling(_, pass, _, _) => pass
    case Holding(_, pass, _, _, _) => pass
    case Refused(_, pass, _) => pass
    case ContextAt(_, pass, _) => pass
    case ContextSelecting(_, pass, _) => pass
    case ContextFailed(_, pass, _) => pass
    case Decided(_, _, goesOn) => if goesOn.Some? then goesOn.value else 0
    case _ => 0
  }

  /** One call of `execute` makes at most 3R + 8 passes, and the fallback behind the loop is never
      reached. */
  lemma PassesAreBounded(c: Config, s: System, w: nat)
    requires Reachable(c, s)
    ensures !s.Of(w).Exhausted?
    ensures PassOf(s.Of(w)) <= 3 * s.sh.stored.run.budgets.maxRepair + 8
  {
    ReachableHolds(c, s);
    var sh, wk := s.sh, s.Of(w);
    assert WorkerOk(c, sh, w, wk);
    HistoryFacts(sh.history, sh.events, sh.stored.revision);
    if !(wk.Idle? || wk.Between? || wk.Starting?) {
      HistoryFacts(sh.history, sh.events, wk.snap.revision);
    }
  }

  /** A durable transition raises the revision by one and burns potential; the revision never
      exceeds 3R + 7. */
  lemma TransitionsBurnPotential(c: Config, s: System, w: nat, now: int)
    requires Reachable(c, s) && s.Of(w).Decided? && s.Of(w).snap == s.sh.stored
    ensures var next := Apply(c, s, w, Commit(now)).sh.stored;
            && next.revision == s.sh.stored.revision + 1 <= 3 * s.sh.stored.run.budgets.maxRepair + 7
            && 0 <= Measure(next.run) < Measure(s.sh.stored.run)
  {
    ReachableHolds(c, s);
    CurrentRequestsAreAccepted(c, s, w, now);
    StaysReachable(c, s, w, Commit(now));
    CommitAdvances(c, s, w, now);
    LastStepBurns(c, s.sh, Apply(c, s, w, Commit(now)));
  }

  lemma CommitAdvances(c: Config, s: System, w: nat, now: int)
    requires s.Of(w).Decided? && s.Of(w).snap == s.sh.stored
    requires TransitionRun(s.sh.stored.run, s.Of(w).req, Stamp(s.sh.stored.run, now)).Ok?
    ensures var next := TransitionRun(s.sh.stored.run, s.Of(w).req, Stamp(s.sh.stored.run, now)).value;
            Apply(c, s, w, Commit(now)).sh == Advance(s.sh, s.Of(w).req, Stamp(s.sh.stored.run, now), next)
  {
  }

  lemma LastStepBurns(c: Config, sh: Shared, s': System)
    requires Reachable(c, s') && |sh.history| > 0 && sh.stored == Stored(sh.history[|sh.history| - 1], |sh.history| - 1)
    requires s'.sh.history == sh.history + [s'.sh.stored.run] && s'.sh.stored.revision == sh.stored.revision + 1
    ensures s'.sh.stored.revision <= 3 * sh.stored.run.budgets.maxRepair + 7
    ensures 0 <= Measure(s'.sh.stored.run) < Measure(sh.stored.run)
  {
    ReachableHolds(c, s');
    HistoryFacts(s'.sh.history, s'.sh.events, sh.stored.revision);
    HistoryFacts(s'.sh.history, s'.sh.events, sh.stored.revision + 1);
    assert s'.sh.history[sh.stored.revision] == sh.stored.run;
  }

  function StageIndex(st: Stage): nat
    ensures StageIndex(st) < 3
  {
    match st
    case Intent => 0
    case Outcome => 1
    case Reconciliation => 2
  }

  /** How many validations a run with this repair limit can journal: one more than repairs, as far as
      a record can hold their numbers. */
  function Validations(repairs: nat): nat {
    if repairs < MAX_ATTEMPT_SEQUENCE then repairs + 1 else MAX_ATTEMPT_SEQUENCE
  }

  /** The most records a journal can hold: three for each context request, for the worktree, the build,
      each validation, each review and each repair. A context request that a record cannot number is
      never done, and nothing comes after it. */
  function JournalCap(contexts: nat, repairs: nat): nat {
    if contexts > MAX_ATTEMPT_SEQUENCE then 3 * MAX_ATTEMPT_SEQUENCE
    else 3 * (contexts + 2 + 2 * Validations(repairs) + repairs)
  }

  /** The attempts of a step are numbered up to this. */
  function LastNumber(contexts: nat, repairs: nat, step: Step): nat {
    match step
    case ContextStep => contexts
    case WorkspaceStep => 1
    case BuildStep => 1
    case ValidationStep => Validations(repairs)
    case ReviewStep => Validations(repairs)
    case RepairStep => repairs
  }

  /** All attempts in one row, step by step. */
  function Offset(contexts: nat, repairs: nat, step: Step): nat {
    match step
    case ContextStep => 0
    case WorkspaceStep => contexts
    case BuildStep => contexts + 1
    case ValidationStep => contexts + 2
    case ReviewStep => contexts + 2 + Validations(repairs)
    case RepairStep => contexts + 2 + 2 * Validations(repairs)
  }

  function Slot(contexts: nat, repairs: nat, r: Record): int {
    3 * (Offset(contexts, repairs, r.id.step) + r.id.seqno - 1) + StageIndex(r.stage)
  }

  lemma {:induction false} Pigeonhole(xs: seq<int>, n: nat)
    requires forall i :: 0 <= i < |xs| ==> 0 <= xs[i] < n
    requires forall i, k :: 0 <= i < k < |xs| ==> xs[i] != xs[k]
    ensures |xs| <= n
  {
    if |xs| > 0 {
      assert 0 <= xs[0] < n;
      if i :| 0 <= i < |xs| && xs[i] == n - 1 {
        Pigeonhole(xs[..i] + xs[i + 1..], n - 1);
      } else {
        Pigeonhole(xs, n - 1);
      }
    }
  }

  /** Every review follows a validation. */
  lemma {:induction false} ReviewsFollowValidations(h: seq<Run>, ev: seq<Event>, i: nat)
    requires HistoryOk(h, ev) && i < |h|
    ensures Visits(h, i, Reviewing) + (if h[i].state == Reviewing then 1 else 0) <= Visits(h, i, Validating)
  {
    if i > 0 {
      HistoryFacts(h, ev, i - 1);
      ReviewsFollowValidations(h, ev, i - 1);
    }
  }

  lemma OrdinalsAreLimited(h: seq<Run>, ev: seq<Event>, q: nat)
    requires HistoryOk(h, ev) && q < |h| && StepOf(h[q].state).Some? && h[q].state != ContextPreparing
    requires Ordinal(h, q) <= MAX_ATTEMPT_SEQUENCE
    ensures Ordinal(h, q) <= LastNumber(0, h[0].budgets.maxRepair, StepOf(h[q].state).value)
  {
    HistoryFacts(h, ev, q);
    CountersAreVisits(h, ev, q);
    ValidationsFollowWrites(h, ev, q);
    BuildsAtMostOnce(h, ev, q);
    ReviewsFollowValidations(h, ev, q);
    if h[q].state in {WorkspacePreparing, Building} { RankIsRevision(h, ev, q); }
  }

  /** Whatever comes after the context requests was reached by leaving them. */
  lemma {:induction false} ContextsWereLeft(h: seq<Run>, ev: seq<Event>, i: nat) returns (p: nat)
    requires HistoryOk(h, ev) && i < |h| && StepOf(h[i].state).Some? && h[i].state != ContextPreparing
    ensures p < i && h[p].state == ContextPreparing && h[p + 1].state == WorkspacePreparing
  {
    HistoryFacts(h, ev, i - 1);
    p := i - 1;
    if h[i].state != WorkspacePreparing { p := ContextsWereLeft(h, ev, i - 1); }
  }

  lemma NoSuchContext(c: Config, sh: Shared)
    requires SharedOk(c, sh) && c.contexts > MAX_ATTEMPT_SEQUENCE
    ensures !ContextDone(sh.journal, c.contexts)
  {
    forall i: nat | i < |sh.journal| ensures sh.journal[i].id != AttemptId(ContextStep, c.contexts) {
      assert RecordOk(c, sh.history, sh.journal, sh.launches, i);
    }
  }

  /** With more context requests than a record can number, nothing but context is ever journaled. */
  lemma OnlyContexts(c: Config, sh: Shared, k: nat)
    requires SharedOk(c, sh) && k < |sh.journal| && c.contexts > MAX_ATTEMPT_SEQUENCE
    ensures sh.journal[k].id.step == ContextStep
  {
    var h, j := sh.history, sh.journal;
    assert RecordOk(c, h, j, sh.launches, k);
    if j[k].id.step != ContextStep {
      var p := ContextsWereLeft(h, sh.events, j[k].revision);
      assert LeftAt(c, h, j, p);
      NoSuchContext(c, sh);
    }
  }

  lemma RecordsHaveSlots(c: Config, sh: Shared, k: nat)
    requires SharedOk(c, sh) && k < |sh.journal|
    ensures 0 <= Slot(c.contexts, sh.stored.run.budgets.maxRepair, sh.journal[k])
              < JournalCap(c.contexts, sh.stored.run.budgets.maxRepair)
    ensures 1 <= sh.journal[k].id.seqno
              <= LastNumber(c.contexts, sh.stored.run.budgets.maxRepair, sh.journal[k].id.step)
  {
    var h := sh.history;
    assert RecordOk(c, h, sh.journal, sh.launches, k);
    HistoryFacts(h, sh.events, sh.stored.revision);
    if sh.journal[k].id.step != ContextStep { OrdinalsAreLimited(h, sh.events, sh.journal[k].revision); }
    if c.contexts > MAX_ATTEMPT_SEQUENCE { OnlyContexts(c, sh, k); }
  }

  lemma SlotsDiffer(contexts: nat, repairs: nat, a: Record, b: Record)
    requires 1 <= a.id.seqno <= LastNumber(contexts, repairs, a.id.step)
    requires 1 <= b.id.seqno <= LastNumber(contexts, repairs, b.id.step)
    requires Slot(contexts, repairs, a) == Slot(contexts, repairs, b)
    ensures a.id == b.id && a.stage == b.stage
  {
  }

  /** The journal never holds more records than its cap. That the cap is reached, and when the record
      model can number them all, is shown in CoordinatorLongest. */
  lemma JournalIsBounded(c: Config, s: System)
    requires Reachable(c, s)
    ensures |s.sh.journal| <= JournalCap(c.contexts, s.sh.stored.run.budgets.maxRepair)
  {
    ReachableHolds(c, s);
    var j, repairs := s.sh.journal, s.sh.stored.run.budgets.maxRepair;
    var slots := seq(|j|, i requires 0 <= i < |j| => Slot(c.contexts, repairs, j[i]));
    forall i | 0 <= i < |j| ensures 0 <= slots[i] < JournalCap(c.contexts, repairs) {
      RecordsHaveSlots(c, s.sh, i);
    }
    forall i, k | 0 <= i < k < |j| ensures slots[i] != slots[k] {
      RecordsHaveSlots(c, s.sh, i);
      RecordsHaveSlots(c, s.sh, k);
      if slots[i] == slots[k] { SlotsDiffer(c.contexts, repairs, j[i], j[k]); }
    }
    Pigeonhole(slots, JournalCap(c.contexts, repairs));
  }

  // ---- Counters, journal and allocator --------------------------------------------------------

  /** While the run is open, each counter is the number of attempts of earlier revisions, the next
      number of a step continues its intents without a gap, and the repair allowance is not
      overdrawn. */
  lemma CountersAgree(c: Config, s: System)
    requires Reachable(c, s) && !s.sh.stored.run.state.Terminal()
    ensures var j, run := s.sh.journal, s.sh.stored.run;
            var now := (step: Step) => if Recorded(j, step, Intent, s.sh.stored.revision) then 1 else 0;
            && CountIntents(j, BuildStep) == run.attempts.build + now(BuildStep)
            && CountIntents(j, ReviewStep) == run.attempts.review + now(ReviewStep)
            && CountIntents(j, RepairStep) == run.attempts.repair + now(RepairStep)
            && 0 <= RepairsRemaining(s.sh, s.sh.stored)
    ensures forall k :: 0 <= k < |s.sh.journal| ==> NumberAt(s.sh.journal, k)
  {
    ReachableHolds(c, s);
    var h, j, q := s.sh.history, s.sh.journal, s.sh.stored.revision;
    CountersAreVisits(h, s.sh.events, q);
    assert CountAt(h, j, BuildStep) && CountAt(h, j, ReviewStep) && CountAt(h, j, RepairStep);
    HistoryFacts(h, s.sh.events, q);
  }

  /** The number a worker picked is the next one, or at a re-entry of the revision the same one. */
  lemma PickedNumbers(c: Config, s: System, w: nat)
    requires Reachable(c, s) && s.Of(w).Picked? && s.Of(w).snap == s.sh.stored
    ensures StepOf(s.sh.stored.run.state).Some?
    ensures var step := StepOf(s.sh.stored.run.state).value;
            s.Of(w).seqno == CountIntents(s.sh.journal, step)
                           + if Recorded(s.sh.journal, step, Intent, s.sh.stored.revision) then 0 else 1
  {
    ReachableHolds(c, s);
    var wk := s.Of(w);
    assert WorkerOk(c, s.sh, w, wk);
    assert CountAt(s.sh.history, s.sh.journal, StepOf(s.sh.stored.run.state).value);
  }

  /** With one plan more than repairs, a plan always remains. */
  lemma PlansSuffice(c: Config, s: System, w: nat)
    requires Reachable(c, s) && s.Of(w).Picked? && s.Of(w).snap == s.sh.stored && s.sh.stored.run.state == Validating
    requires c.plans >= s.sh.stored.run.budgets.maxRepair + 1
    ensures s.Of(w).seqno <= s.sh.stored.run.budgets.maxRepair + 1 <= c.plans
  {
    ReachableHolds(c, s);
    var h, ev, q := s.sh.history, s.sh.events, s.sh.stored.revision;
    assert WorkerOk(c, s.sh, w, s.Of(w));
    HistoryFacts(h, ev, q);
    ValidationsFollowWrites(h, ev, q);
    CountersAreVisits(h, ev, q);
    BuildsAtMostOnce(h, ev, q);
  }

  /** A current review always finds its passing validation. */
  lemma ReviewFindsValidation(c: Config, s: System, w: nat)
    requires Reachable(c, s) && s.Of(w).Picked? && s.Of(w).snap == s.sh.stored && s.sh.stored.run.state == Reviewing
    ensures HasApprovableValidation(s.sh.journal)
    ensures s.sh.journal[LatestValidation(s.sh.journal).value].revision == s.sh.stored.revision - 1
  {
    ReachableHolds(c, s);
    assert WorkerOk(c, s.sh, w, s.Of(w));
    LatestIsPrevious(c, s.sh, s.sh.stored);
  }

  // ---- Budgets --------------------------------------------------------------------------------

  /** Spent plus promised stays within every limit in every reachable state. */
  lemma BudgetsAreConserved(c: Config, s: System)
    requires Reachable(c, s)
    ensures T.WellFormed(s.sh.ledger) && T.Conserved(s.sh.ledger, LimitsOf(s.sh.stored.run.budgets))
  {
    ReachableHolds(c, s);
    HistoryFacts(s.sh.history, s.sh.events, s.sh.stored.revision);
  }

  predicate WritesLedger(a: Action) {
    a.Settle? || a.SettleUp? || a.Fund?
  }

  lemma OtherStepsKeepLedger(c: Config, s: System, w: nat, a: Action)
    requires Enabled(c, s, w, a) && !WritesLedger(a)
    ensures Apply(c, s, w, a).sh.ledger == s.sh.ledger
  {
  }

  lemma FundIsReserve(c: Config, s: System, w: nat, amount: nat) returns (op: T.Op)
    requires Enabled(c, s, w, Fund(amount))
    ensures op.Reserve? && op.reservation.amount >= 1
    ensures DoFund(s, w, amount).sh.ledger
         in {s.sh.ledger, T.Apply(s.sh.ledger, LimitsOf(s.Of(w).snap.run.budgets), op)}
  {
    var wk := s.Of(w);
    var step := StepOf(wk.snap.run.state).value;
    var reserved := if step == ValidationStep then amount else 1;
    var r := T.Reservation(AttemptId(step, wk.seqno), MetricOf(step), reserved, T.Active);
    op := T.Reserve(s.sh.stored.revision == wk.snap.revision, r);
  }

  lemma SnapBudgets(c: Config, s: System, w: nat, a: Action)
    requires Reachable(c, s) && Enabled(c, s, w, a) && WritesLedger(a)
    ensures s.Of(w).snap.run.budgets == s.sh.stored.run.budgets
  {
    ReachableHolds(c, s);
    assert WorkerOk(c, s.sh, w, s.Of(w));
    HistoryFacts(s.sh.history, s.sh.events, s.Of(w).snap.revision);
    HistoryFacts(s.sh.history, s.sh.events, s.sh.stored.revision);
  }

  function SettleUpOp(wk: Worker, tokens: Option<nat>, ms: nat): T.Op
    requires wk.Settling? && Attempting(wk.snap)
  {
    var id := IdAt(wk.snap, wk.seqno);
    if wk.snap.run.state == Validating then T.SettleDuration(id, ms) else T.SettleAttempt(id, tokens)
  }

  /** Every ledger write of the coordinator is one of the ledger's own operations. */
  lemma LedgerStepIsOp(c: Config, s: System, w: nat, a: Action) returns (op: T.Op)
    requires Enabled(c, s, w, a) && WritesLedger(a)
    ensures Apply(c, s, w, a).sh.ledger in {s.sh.ledger, T.Apply(s.sh.ledger, LimitsOf(s.Of(w).snap.run.budgets), op)}
  {
    match a
    case Settle(o) => op := o;
    case SettleUp(tokens, ms) => op := SettleUpOp(s.Of(w), tokens, ms);
    case Fund(amount) => op := FundIsReserve(c, s, w, amount);
  }

  /** What the invariant says of one worker. */
  lemma WorkerHolds(c: Config, s: System, w: nat)
    requires Reachable(c, s)
    ensures WorkerOk(c, s.sh, w, s.Of(w))
  {
    ReachableHolds(c, s);
  }

  lemma StaysReachable(c: Config, s: System, w: nat, a: Action)
    requires Reachable(c, s) && Enabled(c, s, w, a)
    ensures Reachable(c, Apply(c, s, w, a))
  {
    var s0: System, schedule: Schedule :| Initial(s0) && Runs(c, s0, schedule, s);
    RunsSnoc(c, s0, schedule, s, w, a);
  }

  lemma {:induction false} RunsSnoc(c: Config, s: System, schedule: Schedule, s': System, w: nat, a: Action)
    requires Runs(c, s, schedule, s') && Enabled(c, s', w, a)
    ensures Runs(c, s, schedule + [(w, a)], Apply(c, s', w, a))
    decreases |schedule|
  {
    var longer := schedule + [(w, a)];
    if schedule == [] {
      assert longer[1..] == [];
    } else {
      assert longer[1..] == schedule[1..] + [(w, a)];
      RunsSnoc(c, Apply(c, s, schedule[0].0, schedule[0].1), schedule[1..], s', w, a);
    }
  }

  lemma LatchedAfterStep(c: Config, s: System, w: nat, a: Action, m: T.Metric)
    requires Reachable(c, s) && Enabled(c, s, w, a)
    requires m in LimitsOf(s.sh.stored.run.budgets) && T.Latched(s.sh.ledger, m)
    ensures T.Latched(Apply(c, s, w, a).sh.ledger, m)
    ensures T.IdsOn(Apply(c, s, w, a).sh.ledger, m) == T.IdsOn(s.sh.ledger, m)
  {
    if WritesLedger(a) {
      var op := LedgerStepIsOp(c, s, w, a);
      SnapBudgets(c, s, w, a);
      BudgetsAreConserved(c, s);
      T.LatchStep(s.sh.ledger, LimitsOf(s.sh.stored.run.budgets), op, m);
    } else {
      OtherStepsKeepLedger(c, s, w, a);
    }
  }

  lemma StoredBudgets(c: Config, s: System, w: nat, a: Action)
    requires Enabled(c, s, w, a)
    ensures Apply(c, s, w, a).sh.stored.run.budgets == s.sh.stored.run.budgets
  {
  }

  /** Once capacity on a metric is unresolved, or a validation overran its reservation, no worker is
      ever granted another reservation on it, whatever the rest of the run does. */
  lemma {:induction false} LatchOverRuns(c: Config, s: System, schedule: Schedule, s': System, m: T.Metric)
    requires Reachable(c, s) && Runs(c, s, schedule, s')
    requires m in LimitsOf(s.sh.stored.run.budgets) && T.Latched(s.sh.ledger, m)
    ensures T.Latched(s'.sh.ledger, m) && T.IdsOn(s'.sh.ledger, m) == T.IdsOn(s.sh.ledger, m)
    decreases |schedule|
  {
    if schedule != [] {
      var w, a := schedule[0].0, schedule[0].1;
      LatchedAfterStep(c, s, w, a, m);
      StoredBudgets(c, s, w, a);
      StaysReachable(c, s, w, a);
      LatchOverRuns(c, Apply(c, s, w, a), schedule[1..], s', m);
    }
  }

  // ---- The review gate behind a ruling --------------------------------------------------------

  /** What the coordinator keeps of a validation result, and of a gate decision. */
  function CheckedOf(plan: nat, r: V.PlanResult): Checked {
    Checked(plan, r.status, r.requiredPassed, r.allComplete)
  }

  function RulingOf(d: G.Decision): Ruling {
    Ruling(d.status, d.gate)
  }

  /** The rulings the coordinator works with are exactly as sound as the gate's decisions: an
      approval needs a completed reviewer, approvable validation and reconciled side effects. */
  lemma GateRulingsAreSound(i: G.Input, d: G.Decision, plan: nat, reconciled: bool)
    requires G.IsDecision(i, d) && (i.local.sideEffectsReconciled ==> reconciled)
    ensures CheckedOf(plan, i.validation).Approvable() <==> i.validation.Approvable()
    ensures SoundRuling(RulingOf(d), i.response.status == G.AgentCompleted,
                        CheckedOf(plan, i.validation).Approvable(), reconciled)
  {
    G.DecisionIsValid(i, d);
    if d.status == G.Approvable {
      G.ApprovalGuarantees(i, d);
    }
  }

  // ---- Sequence numbers fit -------------------------------------------------------------------

  lemma {:induction false} BuiltOnce(h: seq<Run>, ev: seq<Event>, i: nat)
    requires HistoryOk(h, ev) && i < |h| && h[i].state in {Validating, Reviewing, Repairing}
    ensures Visits(h, i, Building) == 1
  {
    HistoryFacts(h, ev, i - 1);
    if h[i - 1].state == Building {
      RankIsRevision(h, ev, i - 1);
    } else {
      BuiltOnce(h, ev, i - 1);
    }
  }

  /** A current admitted attempt has a number that a record can hold, with one exception: the
      validation after the hundredth repair. */
  lemma NumbersFit(c: Config, s: System, w: nat)
    requires Reachable(c, s) && s.Of(w).Clear? && s.Of(w).snap == s.sh.stored
    ensures s.Of(w).seqno <= MAX_ATTEMPT_SEQUENCE
       <==> !(s.sh.stored.run.state == Validating && s.sh.stored.run.attempts.repair == 100)
  {
    ReachableHolds(c, s);
    var h, ev, q := s.sh.history, s.sh.events, s.sh.stored.revision;
    assert WorkerOk(c, s.sh, w, s.Of(w));
    HistoryFacts(h, ev, q);
    CountersAreVisits(h, ev, q);
    match s.sh.stored.run.state
    case Validating =>
      BuiltOnce(h, ev, q);
      ValidationsFollowWrites(h, ev, q);
    case WorkspacePreparing => RankIsRevision(h, ev, q);
    case _ =>
  }
}
