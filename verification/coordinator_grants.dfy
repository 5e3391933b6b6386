/** The attempt budgets of a run as the ledger sees them: whatever the counters admit is granted, unless
    capacity is unresolved or an external budget is set (src/revanent/orchestration/service.py). */
module CoordinatorGrants {
  import opened Domain
  import opened Ids
  import opened Coordinator
  import opened CoordinatorInvariants
  import opened CoordinatorTheorems
  import T = Telemetry

  const ATTEMPTS: set<T.Metric> := {T.BuildAttempts, T.ReviewAttempts, T.RepairAttempts}

  /** The budget policy of a valid run can be built: every limit is at least one, as the policy demands,
      and a budget of none is no limit. */
  lemma LimitsArePositive(b: Budgets, m: T.Metric)
    requires b.Valid()
    ensures m in LimitsOf(b) ==> LimitsOf(b)[m] >= 1
    ensures m in {T.BuildAttempts, T.ReviewAttempts, T.TotalDuration} ==> m in LimitsOf(b)
    ensures T.RepairAttempts in LimitsOf(b) <==> b.maxRepair > 0
    ensures T.RemoteTokens in LimitsOf(b) <==> b.remoteTokenCeiling.Some?
  {
    var base := map[T.BuildAttempts := b.maxBuild, T.ReviewAttempts := b.maxReview,
                    T.TotalDuration := b.maxDurationSeconds * 1_000];
    assert m in LimitsOf(b) && m !in base ==> m == T.RepairAttempts || m == T.RemoteTokens;
  }

  // ---- One unit for each reservation ----------------------------------------------------------

  function CountOn(rs: seq<T.Reservation>, m: T.Metric): nat {
    if rs == [] then 0 else CountOn(rs[..|rs| - 1], m) + (if rs[|rs| - 1].metric == m then 1 else 0)
  }

  /** An attempt reserves one unit of the metric of its step. */
  predicate IsUnit(r: T.Reservation) {
    r.metric == MetricOf(r.id.step) && (r.metric in ATTEMPTS ==> r.amount == 1)
  }

  /** Every attempt reservation takes one unit, and no more is spent or promised than was reserved. */
  ghost predicate Units(l: T.Ledger) {
    && (forall r :: r in l.reservations ==> IsUnit(r))
    && (forall m :: m in ATTEMPTS ==> T.Committed(l, m) <= CountOn(l.reservations, m))
  }

  lemma {:induction false} SetStatusKeepsCount(rs: seq<T.Reservation>, id: AttemptId, st: T.ReservationStatus,
                                               m: T.Metric)
    ensures CountOn(T.SetStatus(rs, id, st), m) == CountOn(rs, m)
  {
    if rs != [] {
      SetStatusKeepsCount(rs[..|rs| - 1], id, st, m);
      assert T.SetStatus(rs, id, st)[..|rs| - 1] == T.SetStatus(rs[..|rs| - 1], id, st);
    }
  }

  lemma SetStatusKeepsUnits(rs: seq<T.Reservation>, id: AttemptId, st: T.ReservationStatus)
    requires forall r :: r in rs ==> IsUnit(r)
    ensures forall r :: r in T.SetStatus(rs, id, st) ==> IsUnit(r)
  {
    forall r | r in T.SetStatus(rs, id, st) ensures IsUnit(r) {
      var i :| 0 <= i < |rs| && T.SetStatus(rs, id, st)[i] == r;
      assert IsUnit(rs[i]);
    }
  }

  lemma SettleKeepsUnits(l: T.Ledger, id: AttemptId, st: T.ReservationStatus, more: seq<T.Usage>)
    requires T.WellFormed(l) && Units(l) && st != T.Active
    requires T.IsActive(l, id) ==>
               forall m :: m in ATTEMPTS ==> T.SpendsWithin(T.Find(l.reservations, id).value, st, more, m)
    ensures Units(T.ApplySettlement(l, id, st, more))
  {
    if T.Settle(l, id, st, more).Written? {
      SetStatusKeepsUnits(l.reservations, id, st);
      forall m | m in ATTEMPTS
        ensures T.Committed(T.ApplySettlement(l, id, st, more), m) <= CountOn(T.SetStatus(l.reservations, id, st), m)
      {
        SetStatusKeepsCount(l.reservations, id, st, m);
        T.SettleCommitted(l, CountOn(l.reservations, m), id, st, more, m);
      }
    }
  }

  lemma InsertKeepsUnits(l: T.Ledger, r: T.Reservation)
    requires Units(l) && IsUnit(r) && r.status == T.Active
    ensures Units(T.Insert(l, r))
  {
    var rs := l.reservations + [r];
    assert rs[..|rs| - 1] == l.reservations;
    forall m | m in ATTEMPTS ensures T.Committed(T.Insert(l, r), m) <= CountOn(rs, m) {
      T.ReservedSnoc(l.reservations, r, m, T.Active);
      T.ReservedSnoc(l.reservations, r, m, T.Unresolved);
    }
  }

  lemma AttemptSpendsUnit(r: T.Reservation, tokens: Option<nat>, m: T.Metric)
    requires IsUnit(r) && r.metric in ATTEMPTS && m in ATTEMPTS
    ensures T.SpendsWithin(r, T.Settled, T.AttemptUsage(r, tokens), m)
  {
    T.UsedInSnoc([], T.AttemptUsage(r, tokens)[0], T.StoreUsageMetrics(m));
    T.UsedInSnoc([T.AttemptUsage(r, tokens)[0]], T.AttemptUsage(r, tokens)[1], T.StoreUsageMetrics(m));
    assert T.AttemptUsage(r, tokens) == [T.AttemptUsage(r, tokens)[0]] + [T.AttemptUsage(r, tokens)[1]];
  }

  lemma DurationSpendsNoUnit(r: T.Reservation, ms: nat, m: T.Metric)
    requires m in ATTEMPTS
    ensures T.SpendsWithin(r, T.Settled, T.DurationUsage(r, ms), m)
  {
    T.UsedInSnoc([], T.DurationUsage(r, ms)[0], T.StoreUsageMetrics(m));
  }

  lemma OpKeepsUnits(l: T.Ledger, limits: T.Limits, op: T.Op)
    requires T.WellFormed(l) && Units(l) && !op.RecordContext?
    requires op.Reserve? ==> IsUnit(op.reservation)
    ensures Units(T.Apply(l, limits, op))
  {
    match op
    case Reserve(current, r) =>
      InsertKeepsUnits(l, r.(status := T.Active));
    case SettleAttempt(id, tokens) =>
      var found := T.Find(l.reservations, id);
      if found.Some? && found.value.metric != T.TotalDuration {
        assert IsUnit(found.value);
        forall m | m in ATTEMPTS
          ensures T.SpendsWithin(found.value, T.Settled, T.AttemptUsage(found.value, tokens), m)
        {
          AttemptSpendsUnit(found.value, tokens, m);
        }
        SettleKeepsUnits(l, id, T.Settled, T.AttemptUsage(found.value, tokens));
      }
    case SettleDuration(id, ms) =>
      var found := T.Find(l.reservations, id);
      if found.Some? && found.value.metric == T.TotalDuration {
        forall m | m in ATTEMPTS ensures T.SpendsWithin(found.value, T.Settled, T.DurationUsage(found.value, ms), m) {
          DurationSpendsNoUnit(found.value, ms, m);
        }
        SettleKeepsUnits(l, id, T.Settled, T.DurationUsage(found.value, ms));
      }
    case MarkUnresolved(id) => SettleKeepsUnits(l, id, T.Unresolved, []);
  }

  // ---- Over runs ------------------------------------------------------------------------------

  /** The ledger write behind a step, as an operation on units. */
  lemma StepIsUnitOp(c: Config, s: System, w: nat, a: Action) returns (op: T.Op)
    requires Enabled(c, s, w, a) && WritesLedger(a)
    ensures !op.RecordContext? && (op.Reserve? ==> IsUnit(op.reservation))
    ensures Apply(c, s, w, a).sh.ledger in {s.sh.ledger, T.Apply(s.sh.ledger, LimitsOf(s.Of(w).snap.run.budgets), op)}
  {
    match a
    case Settle(o) => op := o;
    case SettleUp(tokens, ms) => op := SettleUpOp(s.Of(w), tokens, ms);
    case Fund(amount) =>
      var wk := s.Of(w);
      op := T.Reserve(s.sh.stored.revision == wk.snap.revision, UnitOf(wk.snap, wk.seqno, amount));
  }

  /** What an attempt reserves. */
  function UnitOf(snap: Stored, seqno: nat, amount: nat): T.Reservation
    requires Attempting(snap)
  {
    var step := StepOf(snap.run.state).value;
    T.Reservation(AttemptId(step, seqno), MetricOf(step), if step == ValidationStep then amount else 1, T.Active)
  }

  lemma StepKeepsUnits(c: Config, s: System, w: nat, a: Action)
    requires Reachable(c, s) && Enabled(c, s, w, a) && Units(s.sh.ledger)
    ensures Units(Apply(c, s, w, a).sh.ledger)
  {
    if WritesLedger(a) {
      var op := StepIsUnitOp(c, s, w, a);
      BudgetsAreConserved(c, s);
      OpKeepsUnits(s.sh.ledger, LimitsOf(s.Of(w).snap.run.budgets), op);
    } else {
      OtherStepsKeepLedger(c, s, w, a);
    }
  }

  lemma {:induction false} UnitsOverRuns(c: Config, s: System, schedule: Schedule, s': System)
    requires Reachable(c, s) && Runs(c, s, schedule, s') && Units(s.sh.ledger)
    ensures Units(s'.sh.ledger)
    decreases |schedule|
  {
    if schedule != [] {
      var w, a := schedule[0].0, schedule[0].1;
      StepKeepsUnits(c, s, w, a);
      StaysReachable(c, s, w, a);
      UnitsOverRuns(c, Apply(c, s, w, a), schedule[1..], s');
    }
  }

  /** In every reachable state no more attempts are spent or promised than were reserved, one each. */
  lemma AttemptsAreUnits(c: Config, s: System)
    requires Reachable(c, s)
    ensures Units(s.sh.ledger)
  {
    var s0: System, schedule: Schedule :| Initial(s0) && Runs(c, s0, schedule, s);
    assert Runs(c, s0, [], s0);
    UnitsOverRuns(c, s0, schedule, s);
  }

  // ---- Reservations are for claims ------------------------------------------------------------

  function ClaimedIds(j: seq<Record>, step: Step): set<AttemptId> {
    if j == [] then {}
    else
      var last := j[|j| - 1];
      ClaimedIds(j[..|j| - 1], step) + (if last.stage == Intent && last.id.step == step then {last.id} else {})
  }

  lemma {:induction false} ClaimsAreCounted(j: seq<Record>, step: Step)
    ensures |ClaimedIds(j, step)| <= CountIntents(j, step)
  {
    if j != [] {
      ClaimsAreCounted(j[..|j| - 1], step);
      var was, last := ClaimedIds(j[..|j| - 1], step), j[|j| - 1];
      assert |was + {last.id}| <= |was| + 1;
    }
  }

  lemma {:induction false} KnownIsClaimed(j: seq<Record>, id: AttemptId)
    requires Known(j, id, Intent)
    ensures id in ClaimedIds(j, id.step)
  {
    var k :| 0 <= k < |j| && j[k].id == id && j[k].stage == Intent;
    if k < |j| - 1 {
      assert j[..|j| - 1][k] == j[k];
      KnownIsClaimed(j[..|j| - 1], id);
    }
  }

  lemma {:induction false} CountFits(rs: seq<T.Reservation>, m: T.Metric, ids: set<AttemptId>)
    requires forall i, k :: 0 <= i < k < |rs| ==> rs[i].id != rs[k].id
    requires forall i :: 0 <= i < |rs| && rs[i].metric == m ==> rs[i].id in ids
    ensures CountOn(rs, m) <= |ids|
  {
    if rs != [] {
      var last := rs[|rs| - 1];
      CountFits(rs[..|rs| - 1], m, if last.metric == m then ids - {last.id} else ids);
    }
  }

  lemma ReservationsAreClaims(rs: seq<T.Reservation>, j: seq<Record>, l: T.Ledger, m: T.Metric, step: Step)
    requires rs == l.reservations && ReservedForClaims(j, l) && (forall r :: r in rs ==> IsUnit(r))
    requires m in ATTEMPTS && m == MetricOf(step)
    ensures forall i :: 0 <= i < |rs| && rs[i].metric == m ==> rs[i].id in ClaimedIds(j, step)
  {
    forall i | 0 <= i < |rs| && rs[i].metric == m ensures rs[i].id in ClaimedIds(j, step) {
      assert rs[i] in rs && IsUnit(rs[i]) && T.Has(l, rs[i].id);
      KnownIsClaimed(j, rs[i].id);
    }
  }

  /** What a step has spent or promised is less than its intents while one of them has no reservation. */
  lemma UnreservedClaim(j: seq<Record>, l: T.Ledger, id: AttemptId)
    requires MetricOf(id.step) in ATTEMPTS && Known(j, id, Intent) && !T.Has(l, id)
    requires T.WellFormed(l) && Units(l) && ReservedForClaims(j, l)
    ensures T.Committed(l, MetricOf(id.step)) < CountIntents(j, id.step)
  {
    KnownIsClaimed(j, id);
    ClaimsAreCounted(j, id.step);
    ReservationsAreClaims(l.reservations, j, l, MetricOf(id.step), id.step);
    CountFits(l.reservations, MetricOf(id.step), ClaimedIds(j, id.step) - {id});
  }

  lemma FewerThanClaims(c: Config, s: System, id: AttemptId)
    requires Reachable(c, s) && MetricOf(id.step) in ATTEMPTS
    requires Known(s.sh.journal, id, Intent) && !T.Has(s.sh.ledger, id)
    ensures T.Committed(s.sh.ledger, MetricOf(id.step)) < CountIntents(s.sh.journal, id.step)
  {
    AttemptsAreUnits(c, s);
    BudgetsAreConserved(c, s);
    assert ReservedForClaims(s.sh.journal, s.sh.ledger) by { ReachableHolds(c, s); }
    UnreservedClaim(s.sh.journal, s.sh.ledger, id);
  }

  // ---- What the counters admit is granted -----------------------------------------------------

  /** A worker about to reserve the budget of a build, a review or a repair of the current version. */
  ghost predicate Funding(c: Config, s: System, w: nat, amount: nat) {
    && Reachable(c, s) && Enabled(c, s, w, Fund(amount)) && s.Of(w).snap == s.sh.stored
    && s.sh.stored.run.state in {Building, Reviewing, Repairing}
  }

  lemma ClaimIsKnown(c: Config, s: System, w: nat, amount: nat)
    requires Funding(c, s, w, amount)
    ensures Known(s.sh.journal, IdAt(s.sh.stored, s.Of(w).seqno), Intent) && Room(s.sh.stored.run)
  {
    WorkerHolds(c, s, w);
  }

  function LimitOf(b: Budgets, step: Step): nat {
    match step
    case BuildStep => b.maxBuild
    case ReviewStep => b.maxReview
    case _ => b.maxRepair
  }

  /** The claim fits the limit together with all that came before it. */
  lemma ClaimFits(c: Config, s: System, w: nat, amount: nat)
    requires Funding(c, s, w, amount)
    ensures var step := StepOf(s.sh.stored.run.state).value;
            CountIntents(s.sh.journal, step) <= LimitOf(s.sh.stored.run.budgets, step)
  {
    CountersAgree(c, s);
    ClaimIsKnown(c, s, w, amount);
  }

  /** The store grants a new reservation of one unit that fits, unless capacity is unresolved. */
  lemma FittingIsGranted(l: T.Ledger, limits: T.Limits, r: T.Reservation)
    requires r.metric in ATTEMPTS && r.metric in limits && IsUnit(r) && r.status == T.Active
    requires T.Committed(l, r.metric) < limits[r.metric] && !T.Has(l, r.id)
    ensures var out := T.ReserveIfAllowed(l, limits, true, r, false);
            out.Reserved? && out.decision.verdict == if T.HasUnresolved(l, r.metric) then T.DenyUnresolved else T.Allow
  {
  }

  /** A reservation that is there is recognised. */
  lemma RepeatIsGranted(l: T.Ledger, limits: T.Limits, r: T.Reservation)
    requires r.metric in ATTEMPTS && IsUnit(r) && r.status == T.Active && Units(l) && T.Has(l, r.id)
    ensures var out := T.ReserveIfAllowed(l, limits, true, r, false);
            out.Reserved? && out.decision.verdict == T.Allow
  {
    var was :| was in l.reservations && was.id == r.id;
    assert IsUnit(was) && was.(status := T.Active) == r;
  }

  predicate External(b: Budgets) {
    b.remoteTokenCeiling.Some? || b.costCeilingSet
  }

  /** How the worker goes on from the decision of the store. */
  lemma FundFollows(s: System, w: nat, amount: nat)
    requires s.Of(w).Owning? && s.Of(w).snap == s.sh.stored && s.sh.stored.run.state in {Building, Reviewing, Repairing}
    ensures var wk, t, b := s.Of(w), DoFund(s, w, amount).Of(w), s.sh.stored.run.budgets;
            var out := T.ReserveIfAllowed(s.sh.ledger, LimitsOf(b), true, UnitOf(wk.snap, wk.seqno, amount), false);
            && (External(b) ==> t.Responded? && t.denied == Some(T.DenyUsageUnavailable))
            && (!External(b) && out.Reserved? ==>
                  if out.decision.verdict == T.Allow then t == wk.(phase := Funded)
                  else t.Responded? && t.denied == Some(out.decision.verdict))
  {
  }

  lemma UnitLimit(b: Budgets, step: Step)
    requires MetricOf(step) in ATTEMPTS && LimitOf(b, step) > 0
    ensures MetricOf(step) in LimitsOf(b) && LimitsOf(b)[MetricOf(step)] == LimitOf(b, step)
  {
  }

  /** A budget kept outside the ledger denies every agent. Otherwise an attempt that the counters admit
      is denied only for unresolved capacity, never for exhaustion. */
  lemma AdmittedIsFunded(c: Config, s: System, w: nat, amount: nat)
    requires Funding(c, s, w, amount)
    ensures var wk, t := s.Of(w), DoFund(s, w, amount).Of(w);
            var external := External(s.sh.stored.run.budgets);
            var r := UnitOf(s.sh.stored, wk.seqno, amount);
            var free := T.Has(s.sh.ledger, r.id) || !T.HasUnresolved(s.sh.ledger, r.metric);
            && (external ==> t.Responded? && t.denied == Some(T.DenyUsageUnavailable))
            && (!external && free ==> t == wk.(phase := Funded))
            && (!external && !free ==> t.Responded? && t.denied == Some(T.DenyUnresolved))
  {
    var b, l, r := s.sh.stored.run.budgets, s.sh.ledger, UnitOf(s.sh.stored, s.Of(w).seqno, amount);
    FundFollows(s, w, amount);
    if T.Has(l, r.id) {
      AttemptsAreUnits(c, s);
      RepeatIsGranted(l, LimitsOf(b), r);
    } else {
      ClaimIsKnown(c, s, w, amount);
      FewerThanClaims(c, s, r.id);
      ClaimFits(c, s, w, amount);
      UnitLimit(b, r.id.step);
      FittingIsGranted(l, LimitsOf(b), r);
    }
  }
}
