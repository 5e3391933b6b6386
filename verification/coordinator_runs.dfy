/** Runs that are built step by step. Worker 1 takes a run through its attempts, each with the whole
    evidence that it can leave: worker 2 reconciles every attempt while worker 1 is at it. All other
    workers stand still. */
module CoordinatorRuns {
  import opened Domain
  import opened Ids
  import opened Coordinator
  import opened CoordinatorHistory
  import opened CoordinatorInvariants
  import opened CoordinatorTheorems
  import opened CoordinatorExecution
  import T = Telemetry

  // ---- Single steps ---------------------------------------------------------------------------

  /** A step whose result is known. */
  lemma Goes(c: Config, s: System, w: nat, a: Action, t: System)
    requires Reachable(c, s) && Enabled(c, s, w, a) && t == Apply(c, s, w, a)
    ensures Reachable(c, t)
  {
    StaysReachable(c, s, w, a);
  }

  /** Budgets under which no agent is denied for what it might spend. */
  predicate Usable(b: Budgets) {
    b.Valid() && b.remoteTokenCeiling.None? && !b.costCeilingSet
  }

  function RunIn(b: Budgets, st: RunState, attempts: Counters): Run {
    Run(b, st, attempts, 0, 0, None)
  }

  /** All but workers 1 and 2 stand still. */
  ghost predicate OthersStand(s: System, t: System) {
    forall v: nat :: v != 1 && v != 2 ==> t.Of(v) == s.Of(v)
  }

  /** A worker enters the loop and reads the run. */
  lemma Enter(c: Config, s: System, w: nat) returns (t: System)
    requires Reachable(c, s) && s.Of(w).Idle? && !s.sh.stored.run.state.Terminal()
    ensures Reachable(c, t) && t.sh == s.sh && t.Of(w) == Looping(s.sh.stored, 1)
    ensures forall v: nat :: v != w ==> t.Of(v) == s.Of(v)
  {
    var a := Starts(c, s, w);
    t := a.Put(w, Looping(s.sh.stored, 1));
    Goes(c, a, w, ReadRun, t);
  }

  lemma Starts(c: Config, s: System, w: nat) returns (t: System)
    requires Reachable(c, s) && s.Of(w).Idle? && !s.sh.stored.run.state.Terminal()
    ensures Reachable(c, t) && t.sh == s.sh && t.Of(w) == Between(0)
    ensures forall v: nat :: v != w ==> t.Of(v) == s.Of(v)
  {
    var a := s.Put(w, Starting(s.sh.stored));
    Goes(c, s, w, StartExecute, a);
    t := a.Put(w, Between(0));
    Goes(c, a, w, FinishPrelude, t);
  }

  lemma Lost(c: Config, s: System, w: nat) returns (t: System)
    requires Reachable(c, s)
    ensures Reachable(c, t) && t.sh == s.sh && t.Of(w).Idle? && forall v: nat :: v != w ==> t.Of(v) == s.Of(v)
  {
    t := s.Put(w, Idle);
    Goes(c, s, w, Crash, t);
  }

  /** Worker 1 asks for a transition of the current version. */
  lemma AskFor(c: Config, s: System, req: Request) returns (t: System)
    requires Reachable(c, s) && Requests(c, s.sh, s.Of(1), req) && s.Of(2).Idle?
    requires s.Of(1).snap == s.sh.stored
    ensures Reachable(c, t) && t.sh == s.sh && t.Of(2).Idle? && OthersStand(s, t)
    ensures t.Of(1) == Decided(s.sh.stored, req, GoesOn(s.Of(1), req.destination))
  {
    t := s.Put(1, Decided(s.sh.stored, req, GoesOn(s.Of(1), req.destination)));
    Goes(c, s, 1, Decide(req), t);
  }

  /** Worker 1 asks for a transition, persists it and is lost. */
  lemma MoveOn(c: Config, s: System, req: Request) returns (t: System)
    requires Reachable(c, s) && Requests(c, s.sh, s.Of(1), req) && s.Of(2).Idle?
    requires s.Of(1).snap == s.sh.stored && s.sh.stored.run.updatedAt == 0
    ensures Reachable(c, t) && t.sh == Advance(s.sh, req, 0, t.sh.stored.run)
    ensures TransitionRun(s.sh.stored.run, req, 0) == Ok(t.sh.stored.run)
    ensures t.Of(1).Idle? && t.Of(2).Idle? && OthersStand(s, t)
  {
    var a := AskFor(c, s, req);
    CurrentRequestsAreAccepted(c, a, 1, 0);
    var next := TransitionRun(s.sh.stored.run, req, 0).value;
    var b := a.PutWith(Advance(s.sh, req, 0, next), 1, AfterCommit(a.Of(1).goesOn));
    Goes(c, a, 1, Commit(0), b);
    t := Lost(c, b, 1);
  }

  // ---- Between two attempts -------------------------------------------------------------------

  predicate KnownIntent(j: seq<Record>, id: AttemptId) {
    Known(j, id, Intent)
  }

  /** Everything spent is settled, and one attempt of each kind was paid for every one that counts. */
  ghost predicate Paid(l: T.Ledger, j: seq<Record>, a: Counters) {
    && (forall r :: r in l.reservations ==> r.status == T.Settled && KnownIntent(j, r.id))
    && (forall u :: u in l.usage ==> !u.overage && KnownIntent(j, u.source))
    && T.UsedIn(l.usage, {T.UsedBuild}) == a.build
    && T.UsedIn(l.usage, {T.UsedReview}) == a.review
    && T.UsedIn(l.usage, {T.UsedRepair}) == a.repair
    && T.UsedIn(l.usage, T.StoreUsageMetrics(T.TotalDuration)) == 0
  }

  /** Every attempt on record has its outcome, with known side effects. */
  ghost predicate Closed(j: seq<Record>) {
    && (forall k :: 0 <= k < |j| && j[k].stage == Intent ==> Known(j, j[k].id, Outcome))
    && (forall k :: 0 <= k < |j| && j[k].stage == Outcome ==> j[k].evidence.effects in {KnownNone, KnownPresent})
  }

  /** Nothing is recorded at the current revision yet. */
  ghost predicate Untouched(sh: Shared) {
    forall k :: 0 <= k < |sh.journal| ==> sh.journal[k].revision < sh.stored.revision
  }

  ghost predicate Rests(c: Config, s: System, b: Budgets, st: RunState, a: Counters) {
    && Reachable(c, s) && Usable(b) && s.sh.stored.run == RunIn(b, st, a)
    && s.Of(1).Idle? && s.Of(2).Idle?
    && Untouched(s.sh) && Closed(s.sh.journal) && Paid(s.sh.ledger, s.sh.journal, a)
  }

  /** The number of the attempt that a state comes to. */
  function Number(st: RunState, a: Counters): nat {
    match st
    case Building => a.build + 1
    case Validating => a.repair + 1
    case Reviewing => a.review + 1
    case Repairing => a.repair + 1
    case _ => 1
  }

  lemma NumberIsOrdinal(c: Config, sh: Shared)
    requires SharedOk(c, sh) && StepOf(sh.stored.run.state).Some? && sh.stored.run.state != ContextPreparing
    ensures Ordinal(sh.history, sh.stored.revision) == Number(sh.stored.run.state, sh.stored.run.attempts)
  {
    var h, ev, q := sh.history, sh.events, sh.stored.revision;
    HistoryFacts(h, ev, q);
    CountersAreVisits(h, ev, q);
    ValidationsFollowWrites(h, ev, q);
    if h[q].state in {WorkspacePreparing, Building} { RankIsRevision(h, ev, q); }
    if h[q].state == Validating { BuiltOnce(h, ev, q); }
  }

  /** The attempt that comes next is in no record. */
  lemma NextIsNew(c: Config, sh: Shared)
    requires SharedOk(c, sh) && Attempting(sh.stored) && Untouched(sh)
    ensures forall k :: 0 <= k < |sh.journal| ==>
              sh.journal[k].id != IdAt(sh.stored, Number(sh.stored.run.state, sh.stored.run.attempts))
  {
    NumberIsOrdinal(c, sh);
    forall k: nat | k < |sh.journal| && sh.journal[k].id.step == StepOf(sh.stored.run.state).value
      ensures sh.journal[k].id.seqno != Ordinal(sh.history, sh.stored.revision)
    {
      assert RecordOk(c, sh.history, sh.journal, sh.launches, k);
      if sh.journal[k].id.seqno == Ordinal(sh.history, sh.stored.revision) {
        OrdinalInjective(sh.history, sh.journal[k].revision, sh.stored.revision);
      }
    }
  }

  // ---- Up to the intent -----------------------------------------------------------------------

  /** The budgets and plans leave room for the next attempt. */
  predicate Allowed(c: Config, b: Budgets, st: RunState, a: Counters) {
    match st
    case WorkspacePreparing => true
    case Building => a.build + 1 <= b.maxBuild
    case Validating => a.repair + 1 <= c.plans
    case Reviewing => a.review + 1 <= b.maxReview
    case Repairing => a.repair + 1 <= b.maxRepair
    case _ => false
  }

  const MECHANICAL := RepairFacts(0, false, false, true, false, true)

  lemma NothingUnresolved(j: seq<Record>)
    requires Closed(j)
    ensures !Unresolved(j)
  {
  }

  /** At an untouched revision, the repairs on record are the repairs that count. */
  lemma RepairsCounted(c: Config, s: System)
    requires Reachable(c, s) && !s.sh.stored.run.state.Terminal()
    requires s.sh.stored.run.state != Repairing || Untouched(s.sh)
    ensures CountIntents(s.sh.journal, RepairStep) == s.sh.stored.run.attempts.repair
  {
    CountersAgree(c, s);
    ReachableHolds(c, s);
    var sh := s.sh;
    forall k: nat | k < |sh.journal| && sh.journal[k].id.step == RepairStep
      ensures sh.journal[k].revision != sh.stored.revision
    {
      assert RecordOk(c, sh.history, sh.journal, sh.launches, k);
    }
  }

  lemma PickNext(c: Config, s: System, b: Budgets, st: RunState, a: Counters) returns (t: System)
    requires Rests(c, s, b, st, a) && Attempting(s.sh.stored)
    ensures Reachable(c, t) && t.sh == s.sh && t.Of(2).Idle? && OthersStand(s, t)
    ensures t.Of(1) == Picked(s.sh.stored, 1, Number(st, a))
  {
    var e := Enter(c, s, 1);
    t := DoPick(e, 1);
    Goes(c, e, 1, Pick, t);
    PickedTheNumber(c, t);
  }

  lemma PickedTheNumber(c: Config, s: System)
    requires Reachable(c, s) && s.Of(1).Picked? && s.Of(1).snap == s.sh.stored
    ensures s.Of(1).seqno == Number(s.sh.stored.run.state, s.sh.stored.run.attempts)
  {
    ReachableHolds(c, s);
    assert WorkerOk(c, s.sh, 1, s.Of(1));
    NumberIsOrdinal(c, s.sh);
  }

  lemma PickedIsAdmissible(c: Config, s: System, b: Budgets, st: RunState, a: Counters)
    requires Reachable(c, s) && s.Of(1) == Picked(s.sh.stored, 1, Number(st, a)) && s.sh.stored.run == RunIn(b, st, a)
    requires Attempting(s.sh.stored) && Untouched(s.sh) && Closed(s.sh.journal) && Allowed(c, b, st, a)
    ensures Admissible(c, s.sh, s.sh.stored, Number(st, a), MECHANICAL)
    ensures BasisFor(s.sh, s.sh.stored).Some? <==> st == Reviewing
  {
    if st == Reviewing { ReviewFindsValidation(c, s, 1); }
    if st == Repairing {
      RepairsCounted(c, s);
      NothingUnresolved(s.sh.journal);
    }
  }

  /** Worker 1 looks an admitted attempt up, and there is none yet. */
  lemma LooksUp(c: Config, s: System) returns (t: System)
    requires Reachable(c, s) && s.Of(1).Admitted? && s.Of(1).snap == s.sh.stored && Attempting(s.sh.stored)
    requires s.Of(2).Idle? && !Known(s.sh.journal, IdAt(s.sh.stored, s.Of(1).seqno), Intent)
    requires Find(s.sh.journal, IdAt(s.sh.stored, s.Of(1).seqno), Outcome).None?
    ensures Reachable(c, t) && t.sh == s.sh && t.Of(2).Idle? && OthersStand(s, t)
    ensures t.Of(1) == Clear(s.sh.stored, s.Of(1).pass, s.Of(1).seqno, s.Of(1).basis)
  {
    t := s.Put(1, Clear(s.sh.stored, s.Of(1).pass, s.Of(1).seqno, s.Of(1).basis));
    Goes(c, s, 1, Look, t);
  }

  lemma AdmitNext(c: Config, s: System, b: Budgets, st: RunState, a: Counters) returns (t: System)
    requires Rests(c, s, b, st, a) && Attempting(s.sh.stored) && Allowed(c, b, st, a)
    ensures Reachable(c, t) && t.sh == s.sh && t.Of(2).Idle? && OthersStand(s, t)
    ensures t.Of(1) == Worker.Admitted(s.sh.stored, 1, Number(st, a), BasisFor(s.sh, s.sh.stored))
    ensures BasisFor(s.sh, s.sh.stored).Some? <==> st == Reviewing
  {
    var p := PickNext(c, s, b, st, a);
    PickedIsAdmissible(c, p, b, st, a);
    t := p.Put(1, Worker.Admitted(s.sh.stored, 1, Number(st, a), BasisFor(s.sh, s.sh.stored)));
    Goes(c, p, 1, Admit(MECHANICAL), t);
  }

  lemma NextIsNowhere(c: Config, s: System)
    requires Reachable(c, s) && Attempting(s.sh.stored) && Untouched(s.sh)
    ensures var id := IdAt(s.sh.stored, Number(s.sh.stored.run.state, s.sh.stored.run.attempts));
            Find(s.sh.journal, id, Outcome).None? && !Known(s.sh.journal, id, Intent)
  {
    ReachableHolds(c, s);
    NextIsNew(c, s.sh);
  }

  lemma LookNext(c: Config, s: System, b: Budgets, st: RunState, a: Counters) returns (t: System)
    requires Rests(c, s, b, st, a) && Attempting(s.sh.stored) && Allowed(c, b, st, a)
    ensures Reachable(c, t) && t.sh == s.sh && t.Of(2).Idle? && OthersStand(s, t)
    ensures t.Of(1) == Clear(s.sh.stored, 1, Number(st, a), BasisFor(s.sh, s.sh.stored))
    ensures BasisFor(s.sh, s.sh.stored).Some? <==> st == Reviewing
  {
    var d := AdmitNext(c, s, b, st, a);
    NextIsNowhere(c, s);
    t := LooksUp(c, d);
  }

  /** Worker 1 claims the attempt it looked up. */
  lemma Own(c: Config, s: System) returns (t: System)
    requires Reachable(c, s) && s.Of(1).Clear? && s.Of(1).snap == s.sh.stored && Attempting(s.sh.stored)
    requires s.Of(1).seqno <= MAX_ATTEMPT_SEQUENCE && s.Of(2).Idle?
    requires !Known(s.sh.journal, IdAt(s.sh.stored, s.Of(1).seqno), Intent)
    ensures Reachable(c, t) && t.Of(2).Idle? && OthersStand(s, t)
    ensures t.sh == Append(s.sh, 1, s.sh.stored, IdAt(s.sh.stored, s.Of(1).seqno), Intent,
                           IntentEvidence(s.Of(1).basis))
    ensures t.Of(1) == Owning(s.sh.stored, s.Of(1).pass, s.Of(1).seqno, |s.sh.journal|, s.Of(1).basis, Confirmed)
  {
    var wk := s.Of(1);
    var sh' := Append(s.sh, 1, s.sh.stored, IdAt(s.sh.stored, wk.seqno), Intent, IntentEvidence(wk.basis));
    var d := s.PutWith(sh', 1, Owning(s.sh.stored, wk.pass, wk.seqno, |s.sh.journal|, wk.basis, Claimed));
    Goes(c, s, 1, Claim, d);
    t := d.Put(1, Owning(s.sh.stored, wk.pass, wk.seqno, |s.sh.journal|, wk.basis, Confirmed));
    Goes(c, d, 1, Confirm, t);
  }

  // ---- The reconciliation in between ----------------------------------------------------------

  lemma {:induction false} OnlyTheLastIsOpen(j: seq<Record>, k: nat)
    requires k < |j| && j[|j| - 1].stage == Intent
    requires forall i :: 0 <= i < |j| - 1 && j[i].stage == Intent ==> Known(j, j[i].id, Outcome)
    requires !Known(j, j[|j| - 1].id, Outcome) && !Known(j, j[|j| - 1].id, Reconciliation)
    ensures FirstIncomplete(j, k) == Some(|j| - 1)
    decreases |j| - k
  {
    if k < |j| - 1 { OnlyTheLastIsOpen(j, k + 1); }
  }

  /** What a reconciliation of an attempt that is still in progress may observe. */
  function Observed(step: Step): Effects {
    if step == WorkspaceStep then KnownPresent else if step == ReviewStep then KnownNone else Ambiguous
  }

  lemma Select2(c: Config, s: System) returns (t: System)
    requires Reachable(c, s) && s.Of(2).Idle? && !s.sh.stored.run.state.Terminal()
    requires FirstIncomplete(s.sh.journal, 0) == Some(|s.sh.journal| - 1)
    ensures Reachable(c, t) && t == s.Put(2, Selected(s.sh.stored, |s.sh.journal| - 1))
  {
    var d := Inspect2(c, s);
    t := s.Put(2, Selected(s.sh.stored, |s.sh.journal| - 1));
    assert d.Put(2, Selected(s.sh.stored, |s.sh.journal| - 1)) == t;
    Goes(c, d, 2, SelectPending, t);
  }

  lemma Inspect2(c: Config, s: System) returns (t: System)
    requires Reachable(c, s) && s.Of(2).Idle? && !s.sh.stored.run.state.Terminal()
    ensures Reachable(c, t) && t == s.Put(2, Inspecting(s.sh.stored))
  {
    t := s.Put(2, Inspecting(s.sh.stored));
    Goes(c, s, 2, StartReconcile, t);
  }

  /** The reconciliation that worker 2 selected is recorded. */
  lemma Record2(c: Config, s: System, at: nat) returns (t: System)
    requires Reachable(c, s) && s.Of(2) == Selected(s.sh.stored, at) && at < |s.sh.journal|
    requires var r := s.sh.journal[at];
             && r.expected == s.sh.stored.run.state && r.revision == s.sh.stored.revision
             && !Known(s.sh.journal, r.id, Reconciliation)
    ensures Reachable(c, t) && t.Of(1) == s.Of(1) && OthersStand(s, t)
    ensures var r := s.sh.journal[at];
            t.sh == Append(s.sh, 2, s.sh.stored, r.id, Reconciliation, ReconciliationEvidence(r, Observed(r.id.step)))
  {
    var r := s.sh.journal[at];
    var ev := ReconciliationEvidence(r, Observed(r.id.step));
    t := s.PutWith(Append(s.sh, 2, s.sh.stored, r.id, Reconciliation, ev), 2, Resolved(s.sh.stored, at, ev.safe));
    Goes(c, s, 2, Reconcile(Observed(r.id.step)), t);
  }

  /** Worker 2 reconciles the attempt at the end of the journal and is lost. */
  lemma Reconciles2(c: Config, s: System) returns (t: System)
    requires Reachable(c, s) && s.Of(2).Idle? && !s.sh.stored.run.state.Terminal() && |s.sh.journal| > 0
    requires var r := s.sh.journal[|s.sh.journal| - 1];
             && r.stage == Intent && r.expected == s.sh.stored.run.state && r.revision == s.sh.stored.revision
             && !Known(s.sh.journal, r.id, Outcome) && !Known(s.sh.journal, r.id, Reconciliation)
    requires forall i :: 0 <= i < |s.sh.journal| - 1 && s.sh.journal[i].stage == Intent ==>
               Known(s.sh.journal, s.sh.journal[i].id, Outcome)
    ensures Reachable(c, t) && t.Of(1) == s.Of(1) && t.Of(2).Idle? && OthersStand(s, t)
    ensures var r := s.sh.journal[|s.sh.journal| - 1];
            t.sh == Append(s.sh, 2, s.sh.stored, r.id, Reconciliation, ReconciliationEvidence(r, Observed(r.id.step)))
  {
    OnlyTheLastIsOpen(s.sh.journal, 0);
    var e := Select2(c, s);
    var f := Record2(c, e, |s.sh.journal| - 1);
    t := Lost(c, f, 2);
    forall v: nat | v != 1 && v != 2 ensures t.Of(v) == s.Of(v) { assert f.Of(v) == e.Of(v); }
  }

  // ---- The ledger of an attempt ---------------------------------------------------------------

  lemma {:induction false} NothingActive(rs: seq<T.Reservation>, m: T.Metric)
    requires forall r :: r in rs ==> r.status == T.Settled
    ensures T.ReservedWith(rs, m, T.Active) == 0
  {
    if rs != [] { NothingActive(rs[..|rs| - 1], m); }
  }

  /** What the next attempt reserves: one attempt, or a validation of one second. */
  function NextReservation(id: AttemptId): T.Reservation {
    T.Reservation(id, MetricOf(id.step), if id.step == ValidationStep then 1_000 else 1, T.Active)
  }

  lemma ReserveIsGranted(l: T.Ledger, j: seq<Record>, b: Budgets, st: RunState, a: Counters, id: AttemptId)
    requires Paid(l, j, a) && Usable(b) && !KnownIntent(j, id)
    requires st in {Building, Validating, Reviewing, Repairing} && Some(id.step) == StepOf(st)
    requires a.build < b.maxBuild || st != Building
    requires a.review < b.maxReview || st != Reviewing
    requires a.repair < b.maxRepair || st != Repairing
    ensures var out := T.ReserveIfAllowed(l, LimitsOf(b), true, NextReservation(id), false);
            out.Reserved? && out.ledger == T.Insert(l, NextReservation(id)) && out.decision.verdict == T.Allow
  {
    NothingActive(l.reservations, MetricOf(id.step));
  }

  /** Settling the last reservation pays for it with usage that is not on record yet. */
  lemma SettlesLast(l: T.Ledger, j: seq<Record>, a: Counters, r: T.Reservation, more: seq<T.Usage>)
    requires Paid(l, j, a) && !KnownIntent(j, r.id) && r.status == T.Active
    requires 1 <= |more| <= 2 && forall u :: u in more ==> u.source == r.id
    requires |more| == 2 ==> more[0].metric != more[1].metric
    ensures T.ApplySettlement(T.Insert(l, r), r.id, T.Settled, more)
         == T.Ledger(l.usage + more, l.reservations + [r.(status := T.Settled)])
  {
    var rs := l.reservations + [r];
    assert rs[|rs| - 1] == r && rs[..|rs| - 1] == l.reservations;
    T.SetStatusElsewhere(l.reservations, r.id, T.Settled);
    assert r in rs;
    assert T.AppendUsage(l.usage, more) == T.AppendUsage(l.usage + [more[0]], more[1..]);
    if |more| == 2 {
      assert more[1..] == [more[1]] && [more[1]][1..] == [];
      assert T.AppendUsage(l.usage + [more[0]], [more[1]]) == T.AppendUsage(l.usage + [more[0]] + [more[1]], []);
      assert l.usage + [more[0]] + [more[1]] == l.usage + more;
    } else {
      assert more[1..] == [] && l.usage + [more[0]] == l.usage + more;
    }
  }

  function SettleOp(id: AttemptId, elapsedMs: nat): T.Op {
    if id.step == ValidationStep then T.SettleDuration(id, elapsedMs) else T.SettleAttempt(id, None)
  }

  function SettledUsage(id: AttemptId, elapsedMs: nat): seq<T.Usage> {
    if id.step == ValidationStep then T.DurationUsage(NextReservation(id), elapsedMs)
    else T.AttemptUsage(NextReservation(id), None)
  }

  lemma SettlementIs(l: T.Ledger, j: seq<Record>, a: Counters, limits: T.Limits, st: RunState, id: AttemptId,
                     elapsedMs: nat)
    requires Paid(l, j, a) && !KnownIntent(j, id)
    requires st in {Building, Validating, Reviewing, Repairing} && Some(id.step) == StepOf(st)
    ensures T.Apply(T.Insert(l, NextReservation(id)), limits, SettleOp(id, elapsedMs))
         == T.Ledger(l.usage + SettledUsage(id, elapsedMs),
                     l.reservations + [NextReservation(id).(status := T.Settled)])
  {
    var r := NextReservation(id);
    var rs := l.reservations + [r];
    assert rs[|rs| - 1] == r && rs[..|rs| - 1] == l.reservations;
    SettlesLast(l, j, a, r, SettledUsage(id, elapsedMs));
  }

  /** The counters once an attempt has counted. */
  function Counting(st: RunState, a: Counters): Counters {
    a.Bump(CounterFor(st))
  }

  lemma UsedInTwo(us: seq<T.Usage>, more: seq<T.Usage>, ms: set<T.UsageMetric>)
    requires |more| == 2
    ensures T.UsedIn(us + more, ms) == T.UsedIn(us, ms) + (if more[0].metric in ms then T.Amount(more[0]) else 0)
                                     + if more[1].metric in ms then T.Amount(more[1]) else 0
  {
    T.UsedInSnoc(us, more[0], ms);
    T.UsedInSnoc(us + [more[0]], more[1], ms);
    assert us + more == us + [more[0]] + [more[1]];
  }

  lemma UsedInSettled(us: seq<T.Usage>, id: AttemptId, ms: set<T.UsageMetric>)
    ensures T.UsedIn(us + SettledUsage(id, 0), ms)
         == T.UsedIn(us, ms) + if id.step != ValidationStep && T.UsageOf(MetricOf(id.step)) in ms then 1 else 0
  {
    if id.step == ValidationStep {
      T.UsedInSnoc(us, SettledUsage(id, 0)[0], ms);
    } else {
      UsedInTwo(us, SettledUsage(id, 0), ms);
    }
  }

  lemma IntentsStayKnown(j: seq<Record>, more: seq<Record>, id: AttemptId)
    ensures KnownIntent(j, id) ==> KnownIntent(j + more, id)
    ensures (exists k :: 0 <= k < |more| && more[k].id == id && more[k].stage == Intent) ==> KnownIntent(j + more, id)
  {
    if KnownIntent(j, id) {
      var k :| 0 <= k < |j| && j[k].id == id && j[k].stage == Intent;
      assert (j + more)[k] == j[k];
    }
    if exists k :: 0 <= k < |more| && more[k].id == id && more[k].stage == Intent {
      var k :| 0 <= k < |more| && more[k].id == id && more[k].stage == Intent;
      assert (j + more)[|j| + k] == more[k];
    }
  }

  lemma PaidIntents(l: T.Ledger, j: seq<Record>, a: Counters, id: AttemptId, more: seq<Record>)
    requires Paid(l, j, a) && |more| > 0 && more[0].id == id && more[0].stage == Intent
    ensures KnownIntent(j + more, id)
    ensures forall r :: r in l.reservations ==> r.status == T.Settled && KnownIntent(j + more, r.id)
    ensures forall u :: u in l.usage ==> !u.overage && KnownIntent(j + more, u.source)
  {
    IntentsStayKnown(j, more, id);
    forall r | r in l.reservations ensures KnownIntent(j + more, r.id) { IntentsStayKnown(j, more, r.id); }
    forall u | u in l.usage ensures KnownIntent(j + more, u.source) { IntentsStayKnown(j, more, u.source); }
  }

  lemma SettledUsageIsPlain(id: AttemptId)
    ensures forall u :: u in SettledUsage(id, 0) ==> u.source == id && !u.overage
  {
  }

  lemma PaidAgain(l: T.Ledger, j: seq<Record>, a: Counters, st: RunState, id: AttemptId, more: seq<Record>)
    requires Paid(l, j, a) && st in {Building, Validating, Reviewing, Repairing} && Some(id.step) == StepOf(st)
    requires |more| > 0 && more[0].id == id && more[0].stage == Intent
    ensures Paid(T.Ledger(l.usage + SettledUsage(id, 0), l.reservations + [NextReservation(id).(status := T.Settled)]),
                 j + more, Counting(st, a))
  {
    PaidIntents(l, j, a, id, more);
    SettledUsageIsPlain(id);
    PaidSums(l.usage, a, st, id);
  }

  lemma PaidSums(us: seq<T.Usage>, a: Counters, st: RunState, id: AttemptId)
    requires st in {Building, Validating, Reviewing, Repairing} && Some(id.step) == StepOf(st)
    requires T.UsedIn(us, {T.UsedBuild}) == a.build && T.UsedIn(us, {T.UsedReview}) == a.review
    requires T.UsedIn(us, {T.UsedRepair}) == a.repair && T.UsedIn(us, T.StoreUsageMetrics(T.TotalDuration)) == 0
    ensures var us', a' := us + SettledUsage(id, 0), Counting(st, a);
            && T.UsedIn(us', {T.UsedBuild}) == a'.build && T.UsedIn(us', {T.UsedReview}) == a'.review
            && T.UsedIn(us', {T.UsedRepair}) == a'.repair && T.UsedIn(us', T.StoreUsageMetrics(T.TotalDuration)) == 0
  {
    UsedInSettled(us, id, {T.UsedBuild});
    UsedInSettled(us, id, {T.UsedReview});
    UsedInSettled(us, id, {T.UsedRepair});
    UsedInSettled(us, id, T.StoreUsageMetrics(T.TotalDuration));
  }

  // ---- From the intent to the outcome ---------------------------------------------------------

  lemma FundNext(c: Config, s: System, b: Budgets, a: Counters, j: seq<Record>) returns (t: System)
    requires Reachable(c, s) && s.Of(1).Owning? && s.Of(1).phase == Confirmed && s.Of(1).snap == s.sh.stored
    requires var st := s.sh.stored.run.state;
             && st in {Building, Validating, Reviewing, Repairing} && s.sh.stored.run == RunIn(b, st, a)
             && (st == Building ==> a.build < b.maxBuild) && (st == Reviewing ==> a.review < b.maxReview)
             && (st == Repairing ==> a.repair < b.maxRepair)
    requires Usable(b) && Paid(s.sh.ledger, j, a) && !KnownIntent(j, IdAt(s.sh.stored, s.Of(1).seqno))
    ensures Reachable(c, t)
    ensures t == s.PutWith(
              s.sh.(ledger := T.Insert(s.sh.ledger,
                                       NextReservation(IdAt(s.sh.stored, s.Of(1).seqno)))),
              1, s.Of(1).(phase := Funded))
  {
    var st, wk := s.sh.stored.run.state, s.Of(1);
    var id := IdAt(s.sh.stored, wk.seqno);
    ReserveIsGranted(s.sh.ledger, j, b, st, a, id);
    t := s.PutWith(s.sh.(ledger := T.Insert(s.sh.ledger, NextReservation(id))), 1, wk.(phase := Funded));
    Goes(c, s, 1, Fund(1_000), t);
  }

  lemma StartNext(c: Config, s: System) returns (t: System)
    requires Reachable(c, s) && s.Of(1).Owning? && Attempting(s.Of(1).snap)
    requires s.Of(1).phase == if s.Of(1).snap.run.state == WorkspacePreparing then Confirmed else Funded
    ensures Reachable(c, t) && t.sh == s.sh.(launches := t.sh.launches)
    ensures t.Of(1) == s.Of(1).(phase := Running) && t.Of(2) == s.Of(2) && OthersStand(s, t)
  {
    t := DoStart(s, 1);
    Goes(c, s, 1, Start, t);
  }

  lemma RespondNext(c: Config, s: System) returns (t: System)
    requires Reachable(c, s) && s.Of(1).Owning? && s.Of(1).snap == s.sh.stored && Attempting(s.sh.stored)
    requires s.Of(1).phase == Running && (s.Of(1).basis.Some? <==> s.sh.stored.run.state == Reviewing)
    ensures Reachable(c, t) && t.sh == s.sh && t.Of(2) == s.Of(2) && OthersStand(s, t)
    ensures var wk := s.Of(1);
            t.Of(1) == Responded(wk.snap, wk.pass, wk.seqno, wk.at,
                                 SomeAnswer(wk.snap.run.state, wk.seqno, wk.basis), None)
  {
    var wk := s.Of(1);
    var answer := SomeAnswer(wk.snap.run.state, wk.seqno, wk.basis);
    t := s.Put(1, Responded(wk.snap, wk.pass, wk.seqno, wk.at, answer, None));
    Goes(c, s, 1, Respond(answer), t);
  }

  /** The external call is started and answers. */
  lemma AnswerNext(c: Config, s: System) returns (t: System)
    requires Reachable(c, s) && s.Of(1).Owning? && s.Of(1).snap == s.sh.stored && Attempting(s.sh.stored)
    requires s.Of(1).phase == if s.sh.stored.run.state == WorkspacePreparing then Confirmed else Funded
    requires s.Of(1).basis.Some? <==> s.sh.stored.run.state == Reviewing
    ensures Reachable(c, t) && t.sh.stored == s.sh.stored && t.sh.journal == s.sh.journal && t.sh.ledger == s.sh.ledger
    ensures t.Of(2) == s.Of(2) && OthersStand(s, t)
    ensures var wk := s.Of(1);
            t.Of(1) == Responded(wk.snap, wk.pass, wk.seqno, wk.at,
                                 SomeAnswer(wk.snap.run.state, wk.seqno, wk.basis), None)
  {
    var d := StartNext(c, s);
    t := RespondNext(c, d);
  }

  lemma PersistNext(c: Config, s: System) returns (t: System)
    requires Reachable(c, s) && s.Of(1).Responded? && s.Of(1).snap == s.sh.stored && Attempting(s.sh.stored)
    requires s.Of(1).denied == None && !Known(s.sh.journal, IdAt(s.sh.stored, s.Of(1).seqno), Outcome)
    ensures Reachable(c, t)
    ensures var wk := s.Of(1);
            t == s.PutWith(Append(s.sh, 1, s.sh.stored, IdAt(s.sh.stored, wk.seqno), Outcome, wk.answer), 1,
                           NewOutcome(s.sh.stored, wk.pass, wk.seqno, |s.sh.journal|, None))
  {
    var wk := s.Of(1);
    t := s.PutWith(Append(s.sh, 1, s.sh.stored, IdAt(s.sh.stored, wk.seqno), Outcome, wk.answer), 1,
                   NewOutcome(s.sh.stored, wk.pass, wk.seqno, |s.sh.journal|, None));
    Goes(c, s, 1, PersistOutcome, t);
  }

  /** The reservation of the attempt is settled; a validation is measured. */
  lemma SettleNext(c: Config, s: System, a: Counters, l: T.Ledger, j: seq<Record>, elapsedMs: nat) returns (t: System)
    requires Reachable(c, s) && s.Of(1).Settling? && s.Of(1).snap == s.sh.stored
    requires s.sh.stored.run.state in {Building, Validating, Reviewing, Repairing}
    requires var id := IdAt(s.sh.stored, s.Of(1).seqno);
             && Paid(l, j, a) && !KnownIntent(j, id)
             && s.sh.ledger == T.Insert(l, NextReservation(id))
    ensures Reachable(c, t)
    ensures var id := IdAt(s.sh.stored, s.Of(1).seqno);
            var r := NextReservation(id);
            t == s.PutWith(
              s.sh.(ledger := T.Ledger(l.usage + SettledUsage(id, elapsedMs),
                                       l.reservations + [r.(status := T.Settled)])),
              1, Holding(s.sh.stored, s.Of(1).pass, s.Of(1).seqno, s.Of(1).at, true))
  {
    var wk := s.Of(1);
    var id := IdAt(s.sh.stored, wk.seqno);
    SettlementIs(l, j, a, LimitsOf(s.sh.stored.run.budgets), s.sh.stored.run.state, id, elapsedMs);
    t := DoSettleUp(s, 1, None, elapsedMs);
    Goes(c, s, 1, SettleUp(None, elapsedMs), t);
  }

  // ---- One attempt ----------------------------------------------------------------------------

  function IntentRecord(sh: Shared, id: AttemptId, basis: Option<Checked>): Record {
    Record(id, Intent, |sh.journal| + 1, sh.stored.revision, sh.stored.run.state, IntentEvidence(basis), 1)
  }

  /** The three records of an attempt that was reconciled while it was in progress. */
  function Trio(sh: Shared, id: AttemptId, basis: Option<Checked>): seq<Record> {
    var st := sh.stored.run.state;
    [IntentRecord(sh, id, basis),
     Record(id, Reconciliation, |sh.journal| + 2, sh.stored.revision, st,
            ReconciliationEvidence(IntentRecord(sh, id, basis), Observed(id.step)), 2),
     Record(id, Outcome, |sh.journal| + 3, sh.stored.revision, st, SomeAnswer(st, id.seqno, basis), 1)]
  }

  lemma OneMore(j: seq<Record>, r: Record, id: AttemptId, stage: Stage)
    ensures Known(j + [r], id, stage) <==> Known(j, id, stage) || (r.id == id && r.stage == stage)
  {
    assert (j + [r])[|j|] == r;
    if Known(j, id, stage) {
      var k :| 0 <= k < |j| && j[k].id == id && j[k].stage == stage;
      assert (j + [r])[k] == j[k];
    }
  }

  /** Only the intent that was just written is open. */
  lemma OnlyNewIsOpen(j: seq<Record>, r: Record)
    requires Closed(j) && !Known(j, r.id, Outcome) && !Known(j, r.id, Reconciliation) && r.stage == Intent
    ensures !Known(j + [r], r.id, Outcome) && !Known(j + [r], r.id, Reconciliation)
    ensures forall i :: 0 <= i < |j| && j[i].stage == Intent ==> Known(j + [r], j[i].id, Outcome)
  {
    OneMore(j, r, r.id, Outcome);
    OneMore(j, r, r.id, Reconciliation);
    forall i | 0 <= i < |j| && j[i].stage == Intent ensures Known(j + [r], j[i].id, Outcome) {
      OneMore(j, r, j[i].id, Outcome);
    }
  }

  lemma OwnNext(c: Config, s: System, b: Budgets, st: RunState, a: Counters) returns (t: System)
    requires Rests(c, s, b, st, a) && Attempting(s.sh.stored) && Allowed(c, b, st, a)
             && Number(st, a) <= MAX_ATTEMPT_SEQUENCE
    ensures Reachable(c, t) && t.Of(2).Idle? && OthersStand(s, t)
    ensures var basis := BasisFor(s.sh, s.sh.stored);
            && (basis.Some? <==> st == Reviewing)
            && t.Of(1) == Owning(s.sh.stored, 1, Number(st, a), |s.sh.journal|, basis, Confirmed)
            && t.sh == s.sh.(journal := s.sh.journal
                                        + [IntentRecord(s.sh, IdAt(s.sh.stored, Number(st, a)), basis)])
  {
    var d := LookNext(c, s, b, st, a);
    NewIsUnknown(c, s, b, st, a);
    t := Own(c, d);
  }

  /** Worker 1 owns the attempt, and worker 2 has reconciled it. */
  lemma ClaimNext(c: Config, s: System, b: Budgets, st: RunState, a: Counters) returns (t: System)
    requires Rests(c, s, b, st, a) && Attempting(s.sh.stored) && Allowed(c, b, st, a)
             && Number(st, a) <= MAX_ATTEMPT_SEQUENCE
    ensures Reachable(c, t) && t.Of(2).Idle? && OthersStand(s, t)
    ensures var basis := BasisFor(s.sh, s.sh.stored);
            && (basis.Some? <==> st == Reviewing)
            && t.Of(1) == Owning(s.sh.stored, 1, Number(st, a), |s.sh.journal|, basis, Confirmed)
            && t.sh == s.sh.(journal := s.sh.journal + Trio(s.sh, IdAt(s.sh.stored, Number(st, a)), basis)[..2])
  {
    var e := OwnNext(c, s, b, st, a);
    var id, basis := IdAt(s.sh.stored, Number(st, a)), BasisFor(s.sh, s.sh.stored);
    NewIsUnknown(c, s, b, st, a);
    OnlyNewIsOpen(s.sh.journal, IntentRecord(s.sh, id, basis));
    t := Reconciles2(c, e);
    assert t.sh.journal == s.sh.journal + Trio(s.sh, id, basis)[..2];
  }

  lemma NewIsUnknown(c: Config, s: System, b: Budgets, st: RunState, a: Counters)
    requires Rests(c, s, b, st, a) && Attempting(s.sh.stored)
    ensures forall stage :: !Known(s.sh.journal, IdAt(s.sh.stored, Number(st, a)), stage)
  {
    ReachableHolds(c, s);
    NextIsNew(c, s.sh);
  }

  lemma FundAttempt(c: Config, s: System, b: Budgets, st: RunState, a: Counters) returns (t: System)
    requires Rests(c, s, b, st, a) && st in {Building, Validating, Reviewing, Repairing}
    requires Allowed(c, b, st, a) && Number(st, a) <= MAX_ATTEMPT_SEQUENCE
    ensures Reachable(c, t) && t.Of(2).Idle? && OthersStand(s, t) && t.sh.stored == s.sh.stored
    ensures var id, basis := IdAt(s.sh.stored, Number(st, a)), BasisFor(s.sh, s.sh.stored);
            && (basis.Some? <==> st == Reviewing)
            && t.Of(1) == Owning(s.sh.stored, 1, Number(st, a), |s.sh.journal|, basis, Funded)
            && t.sh.journal == s.sh.journal + Trio(s.sh, id, basis)[..2]
            && t.sh.ledger == T.Insert(s.sh.ledger, NextReservation(id))
  {
    NewIsUnknown(c, s, b, st, a);
    var d := ClaimNext(c, s, b, st, a);
    t := FundNext(c, d, b, a, s.sh.journal);
  }

  /** The attempt was started and answered; its outcome is on record and its reservation still open. */
  lemma AnswerAttempt(c: Config, s: System, b: Budgets, st: RunState, a: Counters) returns (t: System)
    requires Rests(c, s, b, st, a) && st in {Building, Validating, Reviewing, Repairing}
    requires Allowed(c, b, st, a) && Number(st, a) <= MAX_ATTEMPT_SEQUENCE
    ensures Reachable(c, t) && t.Of(2).Idle? && OthersStand(s, t) && t.sh.stored == s.sh.stored
    ensures t.Of(1) == Settling(s.sh.stored, 1, Number(st, a), |s.sh.journal| + 2)
    ensures var id := IdAt(s.sh.stored, Number(st, a));
            && t.sh.journal == s.sh.journal + Trio(s.sh, id, BasisFor(s.sh, s.sh.stored))
            && t.sh.ledger == T.Insert(s.sh.ledger, NextReservation(id))
  {
    var id := IdAt(s.sh.stored, Number(st, a));
    var trio := Trio(s.sh, id, BasisFor(s.sh, s.sh.stored));
    NewIsUnknown(c, s, b, st, a);
    var d := FundAttempt(c, s, b, st, a);
    var e := AnswerNext(c, d);
    NoOutcomeAmong(s.sh.journal, trio, id);
    t := PersistNext(c, e);
    assert t.sh.journal == s.sh.journal + trio;
  }

  lemma NoOutcomeAmong(j: seq<Record>, trio: seq<Record>, id: AttemptId)
    requires !Known(j, id, Outcome) && |trio| >= 2 && trio[0].stage != Outcome && trio[1].stage != Outcome
    ensures !Known(j + trio[..2], id, Outcome)
  {
    assert j + trio[..2] == j + [trio[0]] + [trio[1]];
    OneMore(j, trio[0], id, Outcome);
    OneMore(j + [trio[0]], trio[1], id, Outcome);
  }

  /** The worktree needs no reservation. */
  lemma PrepareWorkspace(c: Config, s: System, b: Budgets, a: Counters) returns (t: System)
    requires Rests(c, s, b, WorkspacePreparing, a)
    ensures Reachable(c, t) && t.Of(2).Idle? && OthersStand(s, t) && t.sh.stored == s.sh.stored
    ensures t.Of(1) == Holding(s.sh.stored, 1, 1, |s.sh.journal| + 2, true)
    ensures t.sh.journal == s.sh.journal + Trio(s.sh, AttemptId(WorkspaceStep, 1), None) && t.sh.ledger == s.sh.ledger
  {
    var trio := Trio(s.sh, AttemptId(WorkspaceStep, 1), None);
    NewIsUnknown(c, s, b, WorkspacePreparing, a);
    var d := ClaimNext(c, s, b, WorkspacePreparing, a);
    var e := AnswerNext(c, d);
    NoOutcomeAmong(s.sh.journal, trio, AttemptId(WorkspaceStep, 1));
    t := PersistNext(c, e);
    assert t.sh.journal == s.sh.journal + trio;
  }

  lemma ClosedAgain(j: seq<Record>, sh: Shared, id: AttemptId, basis: Option<Checked>)
    requires Closed(j)
    ensures Closed(j + Trio(sh, id, basis))
  {
    var trio := Trio(sh, id, basis);
    var j' := j + trio;
    assert j'[|j| + 2] == trio[2];
    forall k | 0 <= k < |j'| && j'[k].stage == Intent ensures Known(j', j'[k].id, Outcome) {
      if k < |j| {
        var i :| 0 <= i < |j| && j[i].id == j[k].id && j[i].stage == Outcome;
        assert j'[i] == j[i];
      }
    }
  }

  lemma PaidWithout(l: T.Ledger, j: seq<Record>, a: Counters, more: seq<Record>)
    requires Paid(l, j, a)
    ensures Paid(l, j + more, a)
  {
    forall x: AttemptId ensures KnownIntent(j, x) ==> KnownIntent(j + more, x) { IntentsStayKnown(j, more, x); }
  }

  /** One whole attempt. */
  lemma Attempt(c: Config, s: System, b: Budgets, st: RunState, a: Counters) returns (t: System)
    requires Rests(c, s, b, st, a) && Attempting(s.sh.stored)
    requires Allowed(c, b, st, a) && Number(st, a) <= MAX_ATTEMPT_SEQUENCE
    ensures Reachable(c, t) && t.Of(2).Idle? && OthersStand(s, t) && t.sh.stored == s.sh.stored
    ensures t.Of(1) == Holding(s.sh.stored, 1, Number(st, a), |s.sh.journal| + 2, true)
    ensures t.sh.journal == s.sh.journal
                          + Trio(s.sh, IdAt(s.sh.stored, Number(st, a)), BasisFor(s.sh, s.sh.stored))
    ensures Paid(t.sh.ledger, t.sh.journal, Counting(st, a))
  {
    var id := IdAt(s.sh.stored, Number(st, a));
    var trio := Trio(s.sh, id, BasisFor(s.sh, s.sh.stored));
    if st == WorkspacePreparing {
      t := PrepareWorkspace(c, s, b, a);
      PaidWithout(s.sh.ledger, s.sh.journal, a, trio);
    } else {
      NewIsUnknown(c, s, b, st, a);
      var d := AnswerAttempt(c, s, b, st, a);
      t := SettleNext(c, d, a, s.sh.ledger, s.sh.journal, 0);
      PaidAgain(s.sh.ledger, s.sh.journal, a, st, id, trio);
    }
  }

  function NextState(st: RunState): RunState {
    match st
    case WorkspacePreparing => Building
    case Validating => Reviewing
    case Reviewing => Repairing
    case _ => Validating
  }

  function NextRequest(st: RunState): Request {
    Request(NextState(st), CounterFor(st), None)
  }

  lemma LeftUntouched(c: Config, s: System, t: System)
    requires Reachable(c, s) && t.sh.journal == s.sh.journal && t.sh.stored.revision == s.sh.stored.revision + 1
    ensures Untouched(t.sh)
  {
    ReachableHolds(c, s);
    forall k: nat | k < |s.sh.journal| ensures s.sh.journal[k].revision <= s.sh.stored.revision {
      assert RecordOk(c, s.sh.history, s.sh.journal, s.sh.launches, k);
    }
  }

  lemma AsksToGoOn(c: Config, s: System, b: Budgets, st: RunState, a: Counters, at: nat, n: nat, basis: Option<Checked>)
    requires Reachable(c, s) && s.Of(1) == Holding(s.sh.stored, 1, n, at, true) && s.sh.stored.run == RunIn(b, st, a)
    requires at < |s.sh.journal| && s.sh.journal[at].evidence == SomeAnswer(st, n, basis) && Attempting(s.sh.stored)
    requires st == Reviewing ==> a.repair < b.maxRepair
    ensures Requests(c, s.sh, s.Of(1), NextRequest(st))
  {
    if st == Reviewing { RepairsCounted(c, s); }
  }

  /** One whole attempt, and on to the state that follows. */
  lemma Proceed(c: Config, s: System, b: Budgets, st: RunState, a: Counters) returns (t: System)
    requires Rests(c, s, b, st, a) && Attempting(s.sh.stored)
    requires Allowed(c, b, st, a) && Number(st, a) <= MAX_ATTEMPT_SEQUENCE
             && (st == Reviewing ==> a.repair < b.maxRepair)
    ensures Rests(c, t, b, NextState(st), Counting(st, a)) && OthersStand(s, t)
    ensures |t.sh.journal| == |s.sh.journal| + 3
  {
    var basis := BasisFor(s.sh, s.sh.stored);
    var d := Attempt(c, s, b, st, a);
    ClosedAgain(s.sh.journal, s.sh, IdAt(s.sh.stored, Number(st, a)), basis);
    AsksToGoOn(c, d, b, st, a, |s.sh.journal| + 2, Number(st, a), basis);
    t := MoveOn(c, d, NextRequest(st));
    LeftUntouched(c, d, t);
  }

  // ---- The beginning of a run -----------------------------------------------------------------

  const NONE := Counters(0, 0, 0)

  ghost predicate Early(c: Config, s: System, b: Budgets, st: RunState) {
    && Reachable(c, s) && Usable(b) && s.sh.stored.run == RunIn(b, st, NONE) && s.Of(1).Idle? && s.Of(2).Idle?
    && s.sh.journal == [] && s.sh.ledger == T.Ledger([], [])
  }

  lemma Fresh(c: Config, b: Budgets) returns (s: System)
    requires Usable(b)
    ensures Early(c, s, b, Created) && s.sh.stored.revision == 0 && forall v: nat :: s.Of(v).Idle?
  {
    var run := RunIn(b, Created, NONE);
    s := System(Shared(Stored(run, 0), [], [], T.Ledger([], []), [run], []), map[]);
    assert Initial(s) && Runs(c, s, [], s);
  }

  lemma Plans(c: Config, b: Budgets) returns (t: System)
    requires Usable(b)
    ensures Early(c, t, b, Planning) && t.sh.stored.revision == 1 && forall v: nat :: t.Of(v).Idle?
  {
    var s := Fresh(c, b);
    var d := Enter(c, s, 1);
    t := MoveOn(c, d, Plain(Planning));
    forall v: nat ensures t.Of(v).Idle? {
      if v != 1 && v != 2 { assert t.Of(v) == d.Of(v) == s.Of(v); }
    }
  }

  /** Worker 1 is at the `n`-th context request, and those before are done and reconciled. */
  ghost predicate AtContext(c: Config, s: System, b: Budgets, n: nat) {
    && Reachable(c, s) && Usable(b) && s.sh.stored.run == RunIn(b, ContextPreparing, NONE)
    && 1 <= n && s.Of(1) == ContextAt(s.sh.stored, 1, n) && s.Of(2).Idle?
    && |s.sh.journal| == 3 * (n - 1) && Closed(s.sh.journal) && s.sh.ledger == T.Ledger([], [])
    && forall k :: 0 <= k < |s.sh.journal| ==> s.sh.journal[k].id.seqno < n
  }

  lemma LeavePlanning(c: Config, s: System, b: Budgets) returns (t: System)
    requires Early(c, s, b, Planning)
    ensures Early(c, t, b, ContextPreparing) && OthersStand(s, t)
  {
    var d := Enter(c, s, 1);
    t := MoveOn(c, d, Plain(ContextPreparing));
  }

  lemma EnterContexts(c: Config, s: System, b: Budgets) returns (t: System)
    requires Early(c, s, b, Planning)
    ensures AtContext(c, t, b, 1) && OthersStand(s, t)
  {
    var e := LeavePlanning(c, s, b);
    var f := Enter(c, e, 1);
    t := f.Put(1, ContextAt(f.sh.stored, 1, 1));
    Goes(c, f, 1, EnterContext, t);
  }

  function ContextOutcome(): Evidence {
    Evidence(Completed, KnownNone, None, None, false)
  }

  lemma ClaimContext(c: Config, s: System, b: Budgets, n: nat) returns (t: System)
    requires AtContext(c, s, b, n) && n <= c.contexts && n <= MAX_ATTEMPT_SEQUENCE
    ensures Reachable(c, t)
    ensures t == s.PutWith(Append(s.sh, 1, s.sh.stored, AttemptId(ContextStep, n), Intent, IntentEvidence(None)), 1,
                           ContextSelecting(s.sh.stored, 1, n))
  {
    t := s.PutWith(Append(s.sh, 1, s.sh.stored, AttemptId(ContextStep, n), Intent, IntentEvidence(None)), 1,
                   ContextSelecting(s.sh.stored, 1, n));
    Goes(c, s, 1, LookContext, t);
  }

  lemma SelectNext(c: Config, s: System, n: nat) returns (t: System)
    requires Reachable(c, s) && s.sh.stored.run.state == ContextPreparing
             && s.Of(1) == ContextSelecting(s.sh.stored, 1, n)
    requires !Known(s.sh.journal, AttemptId(ContextStep, n), Outcome)
    ensures Reachable(c, t)
    ensures t == s.PutWith(Append(s.sh, 1, s.sh.stored, AttemptId(ContextStep, n), Outcome, ContextOutcome()), 1,
                           ContextAt(s.sh.stored, 1, n + 1))
  {
    t := s.PutWith(Append(s.sh, 1, s.sh.stored, AttemptId(ContextStep, n), Outcome, ContextOutcome()), 1,
                   ContextAt(s.sh.stored, 1, n + 1));
    Goes(c, s, 1, SelectContext(Completed), t);
  }

  lemma ClosesAgain(j: seq<Record>, r0: Record, r1: Record, r2: Record)
    requires Closed(j) && r0.id == r2.id && r2.stage == Outcome && r1.stage == Reconciliation && r0.stage == Intent
    requires r2.evidence.effects == KnownNone
    ensures Closed(j + [r0] + [r1] + [r2])
  {
    var j' := j + [r0] + [r1] + [r2];
    assert j'[|j| + 2] == r2;
    forall k | 0 <= k < |j'| && j'[k].stage == Intent ensures Known(j', j'[k].id, Outcome) {
      if k < |j| {
        var i :| 0 <= i < |j| && j[i].id == j[k].id && j[i].stage == Outcome;
        assert j'[i] == j[i];
      }
    }
  }

  lemma ReconcileContext(c: Config, s: System, b: Budgets, n: nat) returns (t: System, r0: Record, r1: Record)
    requires AtContext(c, s, b, n) && n <= c.contexts && n <= MAX_ATTEMPT_SEQUENCE
    ensures Reachable(c, t) && t.Of(1) == ContextSelecting(s.sh.stored, 1, n) && t.Of(2).Idle? && OthersStand(s, t)
    ensures t.sh == s.sh.(journal := s.sh.journal + [r0] + [r1])
    ensures r0.id == r1.id == AttemptId(ContextStep, n) && r0.stage == Intent && r1.stage == Reconciliation
  {
    var d := ClaimContext(c, s, b, n);
    r0 := d.sh.journal[|s.sh.journal|];
    assert d.sh.journal == s.sh.journal + [r0];
    OneMore(s.sh.journal, r0, r0.id, Outcome);
    OneMore(s.sh.journal, r0, r0.id, Reconciliation);
    forall i | 0 <= i < |s.sh.journal| && s.sh.journal[i].stage == Intent
      ensures Known(d.sh.journal, d.sh.journal[i].id, Outcome)
    {
      OneMore(s.sh.journal, r0, s.sh.journal[i].id, Outcome);
    }
    t := Reconciles2(c, d);
    r1 := t.sh.journal[|s.sh.journal| + 1];
    assert t.sh == s.sh.(journal := s.sh.journal + [r0] + [r1]);
  }

  lemma DoContext(c: Config, s: System, b: Budgets, n: nat) returns (t: System)
    requires AtContext(c, s, b, n) && n <= c.contexts && n <= MAX_ATTEMPT_SEQUENCE
    ensures AtContext(c, t, b, n + 1) && OthersStand(s, t)
  {
    var d, r0, r1 := ReconcileContext(c, s, b, n);
    OneMore(s.sh.journal, r0, r0.id, Outcome);
    OneMore(s.sh.journal + [r0], r1, r0.id, Outcome);
    t := SelectNext(c, d, n);
    ContextIsDone(c, s, b, n, r0, r1, t.sh.journal[|s.sh.journal| + 2], t);
  }

  lemma ContextIsDone(c: Config, s: System, b: Budgets, n: nat, r0: Record, r1: Record, r2: Record, t: System)
    requires AtContext(c, s, b, n) && Reachable(c, t) && t.sh == s.sh.(journal := s.sh.journal + [r0] + [r1] + [r2])
    requires t.Of(1) == ContextAt(s.sh.stored, 1, n + 1) && t.Of(2).Idle?
    requires r0.id == r1.id == r2.id && r0.id.seqno == n && r2.evidence.effects == KnownNone
    requires r0.stage == Intent && r1.stage == Reconciliation && r2.stage == Outcome
    ensures AtContext(c, t, b, n + 1)
  {
    ClosesAgain(s.sh.journal, r0, r1, r2);
  }

  /** The context requests one by one, as far as a record can number them. */
  lemma {:induction false} DoContexts(c: Config, s: System, b: Budgets, n: nat, last: nat) returns (t: System)
    requires AtContext(c, s, b, n) && n <= last + 1 && last <= c.contexts && last <= MAX_ATTEMPT_SEQUENCE
    ensures AtContext(c, t, b, last + 1) && OthersStand(s, t)
    decreases last + 1 - n
  {
    if n == last + 1 {
      t := s;
    } else {
      var d := DoContext(c, s, b, n);
      t := DoContexts(c, d, b, n + 1, last);
    }
  }

  /** All context requests done, and on to the worktree. */
  lemma LeaveContexts(c: Config, s: System, b: Budgets) returns (t: System)
    requires AtContext(c, s, b, c.contexts + 1)
    ensures Rests(c, t, b, WorkspacePreparing, NONE) && OthersStand(s, t) && |t.sh.journal| == 3 * c.contexts
  {
    t := MoveOn(c, s, Plain(WorkspacePreparing));
    LeftUntouched(c, s, t);
  }

  /** From the planning to the first validation. */
  lemma Prepare(c: Config, s: System, b: Budgets) returns (t: System)
    requires Early(c, s, b, Planning) && c.contexts <= MAX_ATTEMPT_SEQUENCE
    ensures Rests(c, t, b, Validating, Counters(1, 0, 0)) && OthersStand(s, t)
    ensures |t.sh.journal| == 3 * (c.contexts + 2)
  {
    var d := EnterContexts(c, s, b);
    var e := DoContexts(c, d, b, 1, c.contexts);
    var f := LeaveContexts(c, e, b);
    var g := Proceed(c, f, b, WorkspacePreparing, NONE);
    t := Proceed(c, g, b, Building, NONE);
  }
}
