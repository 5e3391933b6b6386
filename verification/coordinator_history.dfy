/** The run seen over its revisions: what a history of accepted transitions looks like. */
module CoordinatorHistory {
  import opened Domain
  import opened Coordinator

  predicate Halting(st: RunState) {
    st in {Failed, Blocked, Cancelled}
  }

  /** The counter a state increments when the workflow goes on from it. */
  function CounterFor(st: RunState): Option<CounterKind> {
    match st
    case Building => Some(BuildCounter)
    case Reviewing => Some(ReviewCounter)
    case Repairing => Some(RepairCounter)
    case _ => None
  }

  /** How often a state was the current one before revision `n`. */
  function Visits(h: seq<Run>, n: nat, st: RunState): nat
    requires n <= |h|
  {
    if n == 0 then 0 else Visits(h, n - 1, st) + if h[n - 1].state == st then 1 else 0
  }

  /** Revision `r` is the how-manieth visit of its state. */
  function Ordinal(h: seq<Run>, r: nat): nat
    requires r < |h|
  {
    1 + Visits(h, r, h[r].state)
  }

  ghost predicate HistoryStep(a: Run, t: Transition, b: Run) {
    && t.source == a.state && t.destination == b.state
    && TransitionRun(a, Request(b.state, t.increment, b.gate), t.occurredAt) == Ok(b)
    && (!Halting(b.state) ==> t.increment == CounterFor(a.state))
    && (b.state == Repairing ==> a.attempts.repair < a.budgets.maxRepair)
  }

  ghost predicate StepAt(h: seq<Run>, ev: seq<Event>, i: nat)
    requires i < |ev| < |h|
  {
    ev[i].position == i + 1 && HistoryStep(h[i], ev[i].transition, h[i + 1])
  }

  /** One event and one revision per accepted transition, from a fresh run on. */
  ghost predicate HistoryOk(h: seq<Run>, ev: seq<Event>) {
    && |h| == |ev| + 1
    && InitialRun(h[0])
    && forall i :: 0 <= i < |ev| ==> StepAt(h, ev, i)
  }

  // ---- Potential ------------------------------------------------------------------------------

  /** Strictly decreases with every transition: the repairs left, then the place in the workflow. */
  function Measure(run: Run): int {
    var n := 3 * run.budgets.maxRepair;
    var left := n - 3 * run.attempts.repair;
    match run.state
    case Created => n + 7
    case Planning => n + 6
    case ContextPreparing => n + 5
    case WorkspacePreparing => n + 4
    case Building => n + 3
    case Validating => left + 2
    case Reviewing => left + 1
    case Repairing => left
    case _ => 0
  }

  function Bound(run: Run): nat {
    3 * run.budgets.maxRepair + 7
  }

  // ---- Consequences ---------------------------------------------------------------------------

  lemma {:induction false} VisitsPrefix(h: seq<Run>, h': seq<Run>, n: nat, st: RunState)
    requires n <= |h| <= |h'| && h == h'[..|h|]
    ensures Visits(h, n, st) == Visits(h', n, st)
  {
    if n > 0 {
      VisitsPrefix(h, h', n - 1, st);
      assert h[n - 1] == h'[..|h|][n - 1];
    }
  }

  lemma {:induction false} VisitsMonotone(h: seq<Run>, m: nat, n: nat, st: RunState)
    requires m <= n <= |h|
    ensures Visits(h, m, st) <= Visits(h, n, st)
  {
    if m < n {
      VisitsMonotone(h, m, n - 1, st);
    }
  }

  /** Within one state the ordinal identifies the revision. */
  lemma OrdinalInjective(h: seq<Run>, m: nat, n: nat)
    requires m < |h| && n < |h| && h[m].state == h[n].state
    requires Ordinal(h, m) == Ordinal(h, n)
    ensures m == n
  {
    if m < n {
      VisitsMonotone(h, m + 1, n, h[m].state);
    } else if n < m {
      VisitsMonotone(h, n + 1, m, h[m].state);
    }
  }

  /** One transition keeps validity and identity, follows the table, and burns potential. */
  lemma StepFacts(a: Run, t: Transition, b: Run)
    requires a.Valid() && HistoryStep(a, t, b)
    requires a.state == Repairing ==> a.attempts.repair < a.budgets.maxRepair
    ensures b.Valid() && b.budgets == a.budgets && b.createdAt == a.createdAt
    ensures !a.state.Terminal() && b.state in Permitted(a.state)
    ensures !Halting(b.state) ==> b.attempts == a.attempts.Bump(CounterFor(a.state))
    ensures 0 <= Measure(b) < Measure(a)
    ensures b.state == Repairing ==> b.attempts.repair < b.budgets.maxRepair
  {
    TransitionAcceptedExactly(a, Request(b.state, t.increment, b.gate), t.occurredAt);
  }

  lemma {:induction false} HistoryFacts(h: seq<Run>, ev: seq<Event>, i: nat)
    requires HistoryOk(h, ev) && i < |h|
    ensures h[i].Valid() && h[i].budgets == h[0].budgets && h[i].createdAt == h[0].createdAt
    ensures 0 <= Measure(h[i]) && i + Measure(h[i]) <= Bound(h[0])
    ensures h[i].state == Repairing ==> h[i].attempts.repair < h[i].budgets.maxRepair
    ensures i + 1 < |h| ==> !h[i].state.Terminal() && h[i + 1].state in Permitted(h[i].state)
    ensures i + 1 < |h| ==> Measure(h[i + 1]) < Measure(h[i])
  {
    if i > 0 {
      HistoryFacts(h, ev, i - 1);
      assert StepAt(h, ev, i - 1);
      StepFacts(h[i - 1], ev[i - 1].transition, h[i]);
    }
    if i + 1 < |h| {
      assert StepAt(h, ev, i);
      StepFacts(h[i], ev[i].transition, h[i + 1]);
    }
  }

  function Rank(st: RunState): Option<nat> {
    match st
    case Created => Some(0)
    case Planning => Some(1)
    case ContextPreparing => Some(2)
    case WorkspacePreparing => Some(3)
    case Building => Some(4)
    case _ => None
  }

  /** The preparation states and the build are visited once, each at its own revision. */
  lemma {:induction false} RankIsRevision(h: seq<Run>, ev: seq<Event>, i: nat)
    requires HistoryOk(h, ev) && i < |h| && Rank(h[i].state).Some?
    ensures i == Rank(h[i].state).value
    ensures Visits(h, i, h[i].state) == 0
  {
    if i > 0 {
      HistoryFacts(h, ev, i - 1);
      RankIsRevision(h, ev, i - 1);
      NotVisited(h, ev, i, h[i].state);
    }
  }

  lemma {:induction false} NotVisited(h: seq<Run>, ev: seq<Event>, n: nat, st: RunState)
    requires HistoryOk(h, ev) && n < |h| && Rank(st).Some? && n <= Rank(st).value
    ensures Visits(h, n, st) == 0
  {
    if n > 0 {
      NotVisited(h, ev, n - 1, st);
      if h[n - 1].state == st {
        RankIsRevision(h, ev, n - 1);
      }
    }
  }

  /** Before the run halts, every counter is the number of times its state was left. */
  lemma {:induction false} CountersAreVisits(h: seq<Run>, ev: seq<Event>, i: nat)
    requires HistoryOk(h, ev) && i < |h| && !Halting(h[i].state)
    ensures h[i].attempts.build == Visits(h, i, Building)
    ensures h[i].attempts.review == Visits(h, i, Reviewing)
    ensures h[i].attempts.repair == Visits(h, i, Repairing)
  {
    if i > 0 {
      CountersStep(h, ev, i);
      CountersAreVisits(h, ev, i - 1);
    }
  }

  lemma CountersStep(h: seq<Run>, ev: seq<Event>, i: nat)
    requires HistoryOk(h, ev) && 0 < i < |h| && !Halting(h[i].state)
    ensures !Halting(h[i - 1].state)
    ensures h[i].attempts == h[i - 1].attempts.Bump(CounterFor(h[i - 1].state))
  {
    HistoryFacts(h, ev, i - 1);
    assert StepAt(h, ev, i - 1);
    StepFacts(h[i - 1], ev[i - 1].transition, h[i]);
  }

  /** Every validation follows the build or a repair. */
  lemma {:induction false} ValidationsFollowWrites(h: seq<Run>, ev: seq<Event>, i: nat)
    requires HistoryOk(h, ev) && i < |h| && !Halting(h[i].state)
    ensures Visits(h, i, Validating) + (if h[i].state == Validating then 1 else 0)
         == Visits(h, i, Building) + Visits(h, i, Repairing)
  {
    if i > 0 {
      HistoryFacts(h, ev, i - 1);
      ValidationsFollowWrites(h, ev, i - 1);
    }
  }

  lemma {:induction false} BuildsAtMostOnce(h: seq<Run>, ev: seq<Event>, i: nat)
    requires HistoryOk(h, ev) && i < |h|
    ensures Visits(h, i, Building) <= 1
  {
    if i > 0 {
      BuildsAtMostOnce(h, ev, i - 1);
      if h[i - 1].state == Building {
        RankIsRevision(h, ev, i - 1);
      }
    }
  }
}
