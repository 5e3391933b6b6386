/** A run in which a worker asks for a transition that the state machine refuses.

    Worker 3 reads the run in PLANNING and stalls. Worker 1 takes the run to its first validation, which
    takes longer than the time reserved for it. Worker 3 then finds the duration budget closed by that
    overage and asks, unguarded, for FAILED (src/revanent/orchestration/service.py:232-244), which
    PLANNING does not permit. */
module CoordinatorStale {
  import opened Domain
  import opened Ids
  import opened Coordinator
  import opened CoordinatorTheorems
  import opened CoordinatorRuns
  import T = Telemetry

  const BUDGETS := Budgets(86_400, 1, 1, 0, None, false)
  const CONFIG := Config(1, 1, false)
  const READER := Looping(Stored(RunIn(BUDGETS, Planning, NONE), 1), 1)

  /** Worker 3 has read the run in PLANNING; nothing else has happened. */
  lemma Begin() returns (t: System)
    ensures Early(CONFIG, t, BUDGETS, Planning) && t.Of(3) == READER
  {
    var s := Plans(CONFIG, BUDGETS);
    t := Enter(CONFIG, s, 3);
  }

  /** A validation that overran its reservation closes the duration budget. */
  lemma OverageDenies(l: T.Ledger, limits: T.Limits, u: T.Usage)
    requires u in l.usage && u.overage && u.metric == T.ValidationDuration
    requires T.TotalDuration in limits && !T.HasUnresolved(l, T.TotalDuration)
    ensures T.Decide(l, limits, T.TotalDuration, Some(1), false).verdict == T.DenyLimitExhausted
  {
  }

  /** A validation for which a second was reserved takes a millisecond more. */
  lemma RunsOver(c: Config, s: System, b: Budgets, a: Counters) returns (t: System)
    requires Rests(c, s, b, Validating, a) && Allowed(c, b, Validating, a) && a.repair < MAX_ATTEMPT_SEQUENCE
    ensures Reachable(c, t) && OthersStand(s, t) && DurationDenied(t.sh, b)
  {
    var id := AttemptId(ValidationStep, Number(Validating, a));
    NewIsUnknown(c, s, b, Validating, a);
    var d := AnswerAttempt(c, s, b, Validating, a);
    t := SettleNext(c, d, a, s.sh.ledger, s.sh.journal, 1_001);
    LastUsage(s.sh.ledger.usage, SettledUsage(id, 1_001));
    OverageDenies(t.sh.ledger, LimitsOf(b), SettledUsage(id, 1_001)[0]);
  }

  lemma LastUsage(us: seq<T.Usage>, more: seq<T.Usage>)
    requires more != []
    ensures more[0] in us + more
  {
    assert (us + more)[|us|] == more[0];
  }

  /** The first validation reserves a second and takes a millisecond more. */
  lemma Overrun() returns (t: System)
    ensures Reachable(CONFIG, t) && t.Of(3) == READER && DurationDenied(t.sh, BUDGETS)
  {
    var a := Begin();
    var d := Prepare(CONFIG, a, BUDGETS);
    t := RunsOver(CONFIG, d, BUDGETS, Counters(1, 0, 0));
  }

  /** The request is made and refused: the transition is not in the table, and nothing is written. */
  lemma StaleFailureIsRefused() returns (s: System)
    ensures Reachable(CONFIG, s) && s.Of(3).Decided?
    ensures s.Of(3).snap.run.state == Planning && s.Of(3).req == Plain(Failed)
    ensures forall now: int ::
              TransitionRun(s.Of(3).snap.run, s.Of(3).req, Stamp(s.Of(3).snap.run, now)) == Err(InvalidTransition)
  {
    var t := Overrun();
    s := t.Put(3, Decided(READER.snap, Plain(Failed), None));
    Goes(CONFIG, t, 3, Decide(Plain(Failed)), s);
  }
}
