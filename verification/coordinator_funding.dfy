/** The funding of a capped validation within one call: what was left of the duration budget when the
    plan was capped is still left when its time is reserved, as long as no other worker steps in
    (src/revanent/orchestration/service.py). */
module CoordinatorFunding {
  import opened Domain
  import opened Ids
  import opened Coordinator
  import opened CoordinatorHistory
  import opened CoordinatorInvariants
  import opened CoordinatorTheorems
  import opened CoordinatorExecution
  import opened DurationBudget
  import T = Telemetry
  import V = Validation

  /** The schedule is one call of worker `w` going on, undisturbed. */
  predicate OwnSteps(w: nat, schedule: Schedule) {
    forall i :: 0 <= i < |schedule| ==> schedule[i].0 == w && Inside(schedule[i].1)
  }

  /** Every further step of the call brings it closer to its end. */
  lemma {:induction false} OwnStepsAreCloser(c: Config, s: System, w: nat, schedule: Schedule, s': System)
    requires Reachable(c, s) && Runs(c, s, schedule, s') && OwnSteps(w, schedule) && schedule != []
    ensures Closer(c, Bound(s.sh.stored.run), s'.Of(w), s.Of(w))
    decreases |schedule|
  {
    var a := schedule[0].1;
    var t := Apply(c, s, w, a);
    StepIsCloser(c, s, w, a);
    StaysReachable(c, s, w, a);
    StoredBudgets(c, s, w, a);
    if schedule[1..] != [] { OwnStepsAreCloser(c, t, w, schedule[1..], s'); }
  }

  /** The only step from a fresh claim is to confirm it. */
  lemma ClaimedStep(c: Config, s: System, w: nat, a: Action)
    requires Enabled(c, s, w, a) && Inside(a) && s.Of(w).Owning? && s.Of(w).phase == Claimed
    requires s.Of(w).snap.run.state == Validating
    ensures Apply(c, s, w, a).sh == s.sh
    ensures Apply(c, s, w, a).Of(w) in {Idle, s.Of(w).(phase := Confirmed)}
  {
  }

  /** From a clear way the call claims a new attempt, or gives up. */
  lemma ClearStep(c: Config, s: System, w: nat, a: Action)
    requires Enabled(c, s, w, a) && Inside(a) && s.Of(w).Clear? && s.Of(w).snap.run.state == Validating
    ensures var t := Apply(c, s, w, a);
            && t.sh.ledger == s.sh.ledger && t.sh.stored == s.sh.stored
            && (t.Of(w).Owning? ==>
                  && t.Of(w).phase == Claimed && t.Of(w).snap == s.Of(w).snap == s.sh.stored
                  && t.Of(w).pass == s.Of(w).pass && t.Of(w).seqno == s.Of(w).seqno
                  && !Known(s.sh.journal, AttemptId(ValidationStep, s.Of(w).seqno), Intent))
            && (t.Of(w).Owning? || t.Of(w).Idle? || (t.Of(w).Decided? && t.Of(w).goesOn == None))
  {
  }

  /** The call has confirmed its claim and may reserve. */
  predicate AtGoal(wk: Worker, pass: nat) {
    wk.Owning? && wk.pass == pass && wk.phase == Confirmed
  }

  /** No call comes to the goal from its end, or from the goal itself. */
  lemma GoalIsNotBehind(c: Config, bound: nat, wk: Worker, goal: Worker, pass: nat)
    requires AtGoal(goal, pass) && 0 <= PassesLeft(goal, bound)
    requires wk.Idle? || (wk.Decided? && wk.goesOn == None) || AtGoal(wk, pass)
    ensures !Closer(c, bound, goal, wk)
  {
  }

  /** If a call comes to the goal from where it cannot, it is there already. */
  lemma NothingAhead(c: Config, s: System, w: nat, schedule: Schedule, s': System, pass: nat)
    requires Reachable(c, s) && Runs(c, s, schedule, s') && OwnSteps(w, schedule) && AtGoal(s'.Of(w), pass)
    requires s.Of(w).Idle? || (s.Of(w).Decided? && s.Of(w).goesOn == None) || AtGoal(s.Of(w), pass)
    ensures s' == s
  {
    if schedule != [] {
      OwnStepsAreCloser(c, s, w, schedule, s');
      GoalIsNotBehind(c, Bound(s.sh.stored.run), s.Of(w), s'.Of(w), pass);
    }
  }

  lemma AfterClaim(c: Config, s: System, w: nat, schedule: Schedule, s': System) returns (t: System)
    requires Reachable(c, s) && Runs(c, s, schedule, s') && OwnSteps(w, schedule) && schedule != []
    requires s.Of(w).Owning? && s.Of(w).phase == Claimed && s.Of(w).snap.run.state == Validating
    ensures Reachable(c, t) && Runs(c, t, schedule[1..], s') && OwnSteps(w, schedule[1..])
    ensures t.sh == s.sh && t.Of(w) in {Idle, s.Of(w).(phase := Confirmed)}
  {
    var a := schedule[0].1;
    t := Apply(c, s, w, a);
    ClaimedStep(c, s, w, a);
    StaysReachable(c, s, w, a);
  }

  lemma AfterClear(c: Config, s: System, w: nat, schedule: Schedule, s': System) returns (t: System)
    requires Reachable(c, s) && Runs(c, s, schedule, s') && OwnSteps(w, schedule) && schedule != []
    requires s.Of(w).Clear? && s.Of(w).snap.run.state == Validating
    ensures Reachable(c, t) && Runs(c, t, schedule[1..], s') && OwnSteps(w, schedule[1..])
    ensures t.sh.ledger == s.sh.ledger && t.sh.stored == s.sh.stored
    ensures t.Of(w).Owning? || t.Of(w).Idle? || (t.Of(w).Decided? && t.Of(w).goesOn == None)
    ensures t.Of(w).Owning? ==>
              && t.Of(w).phase == Claimed && t.Of(w).snap == s.Of(w).snap == s.sh.stored
              && t.Of(w).pass == s.Of(w).pass && t.Of(w).seqno == s.Of(w).seqno
              && !Known(s.sh.journal, AttemptId(ValidationStep, s.Of(w).seqno), Intent)
  {
    var a := schedule[0].1;
    t := Apply(c, s, w, a);
    ClearStep(c, s, w, a);
    StaysReachable(c, s, w, a);
  }

  /** From the claim, an undisturbed call comes to the confirmed claim only by confirming it. */
  lemma ClaimedToConfirmed(c: Config, s: System, w: nat, schedule: Schedule, s': System)
    requires Reachable(c, s) && Runs(c, s, schedule, s') && OwnSteps(w, schedule)
    requires s.Of(w).Owning? && s.Of(w).phase == Claimed && s.Of(w).snap.run.state == Validating
    requires AtGoal(s'.Of(w), s.Of(w).pass)
    ensures s'.sh == s.sh && s'.Of(w) == s.Of(w).(phase := Confirmed)
  {
    var t := AfterClaim(c, s, w, schedule, s');
    NothingAhead(c, t, w, schedule[1..], s', s.Of(w).pass);
  }

  lemma ClearToClaimed(c: Config, s: System, w: nat, schedule: Schedule, s': System) returns (t: System)
    requires Reachable(c, s) && Runs(c, s, schedule, s') && OwnSteps(w, schedule) && schedule != []
    requires s.Of(w).Clear? && s.Of(w).snap.run.state == Validating && AtGoal(s'.Of(w), s.Of(w).pass)
    ensures Reachable(c, t) && Runs(c, t, schedule[1..], s') && OwnSteps(w, schedule[1..])
    ensures t.sh.ledger == s.sh.ledger && t.sh.stored == s.sh.stored
    ensures t.Of(w).Owning? && t.Of(w).phase == Claimed && t.Of(w).snap == s.Of(w).snap == s.sh.stored
    ensures t.Of(w).pass == s.Of(w).pass && t.Of(w).seqno == s.Of(w).seqno
    ensures !Known(s.sh.journal, AttemptId(ValidationStep, s.Of(w).seqno), Intent)
  {
    t := AfterClear(c, s, w, schedule, s');
    if !t.Of(w).Owning? { NothingAhead(c, t, w, schedule[1..], s', s.Of(w).pass); }
  }

  /** From a clear way, an undisturbed call comes to the confirmed claim of the same pass with the
      ledger, the version and the number it started from. */
  lemma ClearToConfirmed(c: Config, s: System, w: nat, schedule: Schedule, s': System)
    requires Reachable(c, s) && Runs(c, s, schedule, s') && OwnSteps(w, schedule)
    requires s.Of(w).Clear? && s.Of(w).snap.run.state == Validating
    requires AtGoal(s'.Of(w), s.Of(w).pass)
    ensures s'.sh.ledger == s.sh.ledger && s'.sh.stored == s.sh.stored
    ensures s'.Of(w).snap == s.Of(w).snap == s.sh.stored && s'.Of(w).seqno == s.Of(w).seqno
    ensures !Known(s.sh.journal, AttemptId(ValidationStep, s.Of(w).seqno), Intent)
  {
    var t := ClearToClaimed(c, s, w, schedule, s');
    ClaimedToConfirmed(c, t, w, schedule[1..], s');
  }

  /** What a reservation of this time does to a worker that may reserve for its validation. */
  lemma FundingIs(c: Config, s: System, w: nat, amount: nat)
    requires s.Of(w).Owning? && s.Of(w).phase == Confirmed && s.Of(w).snap == s.sh.stored && 1 <= amount
    requires s.sh.stored.run.state == Validating
    requires var r := T.Reservation(AttemptId(ValidationStep, s.Of(w).seqno), T.TotalDuration, amount, T.Active);
             var out := T.ReserveIfAllowed(s.sh.ledger, LimitsOf(s.sh.stored.run.budgets), true, r, false);
             out.Reserved? && out.decision.verdict == T.Allow
    ensures Enabled(c, s, w, Fund(amount)) && Apply(c, s, w, Fund(amount)).Of(w) == s.Of(w).(phase := Funded)
  {
  }

  /** With one worker the reservation for a capped validation is never denied: whatever plan was capped
      to the allowance that the call saw before it claimed the validation, its time is granted when the
      call comes to reserve it. */
  lemma CappedFundingIsGranted(
    c: Config, s: System, w: nat, schedule: Schedule, s': System, now: int, plan: V.Plan, capped: V.Plan)
    requires Reachable(c, s) && Runs(c, s, schedule, s') && OwnSteps(w, schedule)
    requires s.Of(w).Clear? && s.Of(w).snap.run.state == Validating
    requires AtGoal(s'.Of(w), s.Of(w).pass)
    requires s.sh.stored.run.createdAt <= now && plan.Valid()
    requires var run := s.sh.stored.run;
             var allowance := ValidationAllowance(s.sh.ledger, LimitsOf(run.budgets), run.budgets.maxDurationSeconds,
                                                  run.createdAt, now);
             |plan.commands| <= allowance / 1_000 && IsCapOf(plan, capped, allowance / 1_000)
    ensures var amount := SumTimeouts(capped.commands) * 1_000;
            Enabled(c, s', w, Fund(amount)) && Apply(c, s', w, Fund(amount)).Of(w) == s'.Of(w).(phase := Funded)
  {
    ClearToConfirmed(c, s, w, schedule, s');
    ReachableHolds(c, s);
    var run, id := s.sh.stored.run, AttemptId(ValidationStep, s.Of(w).seqno);
    assert ReservedForClaims(s.sh.journal, s.sh.ledger) && !T.Has(s.sh.ledger, id);
    CappedReservationIsGranted(s.sh.ledger, LimitsOf(run.budgets), run.budgets.maxDurationSeconds, run.createdAt, now,
                               plan, capped, id);
    FundingIs(c, s', w, SumTimeouts(capped.commands) * 1_000);
  }
}
