/** The status projection over the durable evidence of one run
    (src/revanent/application/workflows.py). */
module Status {
  import opened Domain
  import opened Ids
  import opened Coordinator
  import opened CoordinatorHistory
  import opened CoordinatorInvariants
  import opened CoordinatorSteps
  import opened CoordinatorTheorems

  // ---- The fold over the records --------------------------------------------------------------

  datatype Projection = Projection(
    pending: set<AttemptId>,
    latest: map<Step, AttemptStatus>,
    outcomes: map<Step, nat>,
    validations: nat,
    ambiguous: bool)

  /** An intent after which nothing was heard of its attempt. */
  ghost predicate OpenAt(j: seq<Record>, k: nat) {
    k < |j| && j[k].stage == Intent && forall i :: k < i < |j| ==> j[i].id != j[k].id || j[i].stage == Intent
  }

  ghost predicate Open(j: seq<Record>, id: AttemptId) {
    exists k: nat :: OpenAt(j, k) && j[k].id == id
  }

  ghost predicate LatestOutcome(j: seq<Record>, step: Step, k: nat) {
    && k < |j| && j[k].stage == Outcome && j[k].id.step == step
    && forall i :: k < i < |j| ==> !(j[i].stage == Outcome && j[i].id.step == step)
  }

  function CountValidations(j: seq<Record>): nat {
    if j == [] then 0
    else
      var last := j[|j| - 1];
      CountValidations(j[..|j| - 1]) + if last.stage == Outcome && last.id.step == ValidationStep then 1 else 0
  }

  /** What the projection has to say about a journal. */
  ghost predicate Projects(p: Projection, j: seq<Record>) {
    && (forall id :: id in p.pending <==> Open(j, id))
    && OutcomesOk(p, j)
    && p.validations == CountValidations(j)
    && (p.ambiguous <==> Murky(j))
  }

  lemma OpenSnoc(j: seq<Record>, r: Record, id: AttemptId)
    ensures Open(j + [r], id) <==> if r.id == id then r.stage == Intent else Open(j, id)
  {
    var j' := j + [r];
    if r.id == id && r.stage == Intent {
      assert OpenAt(j', |j|);
    }
    if r.id != id && Open(j, id) {
      var k: nat :| OpenAt(j, k) && j[k].id == id;
      assert OpenAt(j', k) && j'[k].id == id;
    }
    if Open(j', id) {
      var k: nat :| OpenAt(j', k) && j'[k].id == id;
      if k < |j| {
        assert j'[|j|] == r;
        forall i | k < i < |j| ensures j[i].id != j[k].id || j[i].stage == Intent { assert j'[i] == j[i]; }
        if r.id != id { assert OpenAt(j, k) && j[k].id == id; }
      }
    }
  }

  lemma LatestSnoc(j: seq<Record>, r: Record, step: Step, k: nat)
    requires LatestOutcome(j, step, k) && !(r.stage == Outcome && r.id.step == step)
    ensures LatestOutcome(j + [r], step, k) && (j + [r])[k] == j[k]
  {
  }

  lemma ValidationsSnoc(j: seq<Record>, r: Record)
    ensures CountValidations(j + [r])
         == CountValidations(j) + if r.stage == Outcome && r.id.step == ValidationStep then 1 else 0
  {
    assert (j + [r])[..|j|] == j;
  }

  ghost predicate Absorbs(p: Projection, n: nat, r: Record, p': Projection) {
    && p'.pending == (if r.stage == Intent then p.pending + {r.id} else p.pending - {r.id})
    && (r.stage != Outcome ==> p' == p.(pending := p'.pending))
    && (r.stage == Outcome ==>
          && p'.latest == p.latest[r.id.step := r.evidence.status]
          && p'.outcomes == p.outcomes[r.id.step := n]
          && p'.validations == p.validations + (if r.id.step == ValidationStep then 1 else 0)
          && p'.ambiguous == (p.ambiguous || r.evidence.effects in {Ambiguous, Incompatible}))
  }

  ghost predicate Murky(j: seq<Record>) {
    exists k :: 0 <= k < |j| && j[k].stage == Outcome && j[k].evidence.effects in {Ambiguous, Incompatible}
  }

  lemma MurkySnoc(j: seq<Record>, r: Record)
    ensures Murky(j + [r]) <==> Murky(j) || (r.stage == Outcome && r.evidence.effects in {Ambiguous, Incompatible})
  {
    var j' := j + [r];
    assert j'[|j|] == r;
    if Murky(j) {
      var k :| 0 <= k < |j| && j[k].stage == Outcome && j[k].evidence.effects in {Ambiguous, Incompatible};
      assert j'[k] == j[k];
    }
  }

  lemma PendingSnoc(p: Projection, j: seq<Record>, r: Record, p': Projection)
    requires Projects(p, j) && Absorbs(p, |j|, r, p')
    ensures forall id :: id in p'.pending <==> Open(j + [r], id)
  {
    forall id ensures id in p'.pending <==> Open(j + [r], id) { OpenSnoc(j, r, id); }
  }

  ghost predicate OutcomesOk(p: Projection, j: seq<Record>) {
    && p.latest.Keys == p.outcomes.Keys
    && (forall step :: step in p.outcomes ==> OutcomeOf(p, j, step))
    && (forall k :: 0 <= k < |j| && j[k].stage == Outcome ==> j[k].id.step in p.outcomes)
  }

  ghost predicate OutcomeOf(p: Projection, j: seq<Record>, step: Step)
    requires step in p.outcomes && p.latest.Keys == p.outcomes.Keys
  {
    LatestOutcome(j, step, p.outcomes[step]) && p.latest[step] == j[p.outcomes[step]].evidence.status
  }

  lemma OutcomesSnoc(p: Projection, j: seq<Record>, r: Record, p': Projection)
    requires OutcomesOk(p, j) && Absorbs(p, |j|, r, p')
    ensures OutcomesOk(p', j + [r])
  {
    forall step | step in p'.outcomes ensures OutcomeOf(p', j + [r], step) {
      if !(r.stage == Outcome && r.id.step == step) {
        assert OutcomeOf(p, j, step);
        LatestSnoc(j, r, step, p.outcomes[step]);
      }
    }
  }

  /** One more record. */
  lemma ProjectsSnoc(p: Projection, j: seq<Record>, r: Record, p': Projection)
    requires Projects(p, j) && Absorbs(p, |j|, r, p')
    ensures Projects(p', j + [r])
  {
    PendingSnoc(p, j, r, p');
    OutcomesSnoc(p, j, r, p');
    ValidationsSnoc(j, r);
    MurkySnoc(j, r);
  }

  /** The loop of StatusApplicationService.status. */
  method Project(j: seq<Record>) returns (p: Projection)
    ensures Projects(p, j)
  {
    var pending: set<AttemptId> := {};
    var latest: map<Step, AttemptStatus> := map[];
    var outcomes: map<Step, nat> := map[];
    var validations, ambiguous := 0, false;
    for k := 0 to |j|
      invariant Projects(Projection(pending, latest, outcomes, validations, ambiguous), j[..k])
    {
      var r := j[k];
      ghost var before := Projection(pending, latest, outcomes, validations, ambiguous);
      if r.stage == Intent {
        pending := pending + {r.id};
      }
      if r.stage == Outcome {
        pending := pending - {r.id};
        latest := latest[r.id.step := r.evidence.status];
        outcomes := outcomes[r.id.step := k];
        ambiguous := ambiguous || r.evidence.effects in {Ambiguous, Incompatible};
        if r.id.step == ValidationStep {
          validations := validations + 1;
        }
      }
      if r.stage == Reconciliation {
        pending := pending - {r.id};
      }
      ProjectsSnoc(before, j[..k], r, Projection(pending, latest, outcomes, validations, ambiguous));
      assert j[..k + 1] == j[..k] + [r];
    }
    assert j[..|j|] == j;
    p := Projection(pending, latest, outcomes, validations, ambiguous);
  }

  // ---- Contradictions -------------------------------------------------------------------------

  datatype Code =
    | EventRevisionMismatch | TerminalEventStateMismatch | ApprovalGateMissing | OutcomeWithoutIntent
    | AttemptRevisionImpossible | AttemptSequenceImpossible | TerminalIncompleteAttempt | ReviewCorrelationMismatch

  ghost predicate LatestReviewRuled(j: seq<Record>, gate: Option<ApprovalGate>) {
    exists k: nat :: && LatestOutcome(j, ReviewStep, k)
                     && j[k].evidence.ruling.Some? && j[k].evidence.ruling.value.gate == gate
  }

  /** When the evidence contradicts itself. Identities are equal by construction here, so a review
      outcome mismatches exactly when it has neither local evidence nor a decision. */
  ghost predicate Contradicts(code: Code, run: Run, revision: nat, events: seq<Event>, j: seq<Record>) {
    match code
    case EventRevisionMismatch => revision != |events|
    case TerminalEventStateMismatch => events != [] && events[|events| - 1].transition.destination != run.state
    case ApprovalGateMissing =>
      run.state == Approved && !(run.gate.Some? && LatestReviewRuled(j, run.gate))
    case OutcomeWithoutIntent => exists k :: 0 <= k < |j| && j[k].stage == Outcome && !Known(j, j[k].id, Intent)
    case AttemptRevisionImpossible => exists k :: 0 <= k < |j| && j[k].revision > revision
    case AttemptSequenceImpossible => exists k :: 0 <= k < |j| && j[k].position != k + 1
    case TerminalIncompleteAttempt =>
      run.state.Terminal() && exists k :: 0 <= k < |j| && j[k].stage == Intent
                                && !Known(j, j[k].id, Outcome) && !Known(j, j[k].id, Reconciliation)
    case ReviewCorrelationMismatch =>
      exists k :: 0 <= k < |j| && j[k].stage == Outcome && j[k].id.step == ReviewStep && j[k].evidence.ruling.None?
  }

  ghost predicate ExactlyContradicted(codes: set<Code>, run: Run, revision: nat, events: seq<Event>, j: seq<Record>) {
    forall code: Code :: code in codes <==> Contradicts(code, run, revision, events, j)
  }

  /** The review outcomes in journal order, and whether one of them lacks its decision. */
  method ReviewOutcomes(j: seq<Record>) returns (latest: Option<nat>, mismatch: bool)
    ensures latest.Some? ==> LatestOutcome(j, ReviewStep, latest.value)
    ensures latest.None? ==> forall k :: 0 <= k < |j| ==> !(j[k].stage == Outcome && j[k].id.step == ReviewStep)
    ensures mismatch <==> exists k :: 0 <= k < |j| && j[k].stage == Outcome && j[k].id.step == ReviewStep
                                      && j[k].evidence.ruling.None?
  {
    latest, mismatch := None, false;
    for k := 0 to |j|
      invariant latest.Some? ==> LatestOutcome(j[..k], ReviewStep, latest.value)
      invariant latest.None? ==> forall i :: 0 <= i < k ==> !(j[i].stage == Outcome && j[i].id.step == ReviewStep)
      invariant mismatch <==> exists i :: 0 <= i < k && j[i].stage == Outcome && j[i].id.step == ReviewStep
                                          && j[i].evidence.ruling.None?
    {
      if j[k].stage == Outcome && j[k].id.step == ReviewStep {
        latest := Some(k);
        mismatch := mismatch || j[k].evidence.ruling.None?;
      }
    }
    assert j[..|j|] == j;
  }

  /** The codes about the run, its events and its approval. */
  method RunCodes(run: Run, revision: nat, events: seq<Event>, j: seq<Record>) returns (codes: set<Code>)
    ensures forall code: Code :: code in codes <==>
              code in {EventRevisionMismatch, TerminalEventStateMismatch, ApprovalGateMissing,
                       ReviewCorrelationMismatch}
              && Contradicts(code, run, revision, events, j)
  {
    codes := {};
    if revision != |events| {
      codes := codes + {EventRevisionMismatch};
    }
    if events != [] && events[|events| - 1].transition.destination != run.state {
      codes := codes + {TerminalEventStateMismatch};
    }
    var latest, mismatch := ReviewOutcomes(j);
    if run.state == Approved {
      if run.gate.None? || latest.None? || j[latest.value].evidence.ruling.None?
         || j[latest.value].evidence.ruling.value.gate != run.gate {
        codes := codes + {ApprovalGateMissing};
      }
    }
    if mismatch {
      codes := codes + {ReviewCorrelationMismatch};
    }
  }

  /** The codes about the attempts in the journal. */
  method AttemptCodes(run: Run, revision: nat, events: seq<Event>, j: seq<Record>) returns (codes: set<Code>)
    ensures forall code: Code :: code in codes <==>
              code in {OutcomeWithoutIntent, AttemptRevisionImpossible, AttemptSequenceImpossible,
                       TerminalIncompleteAttempt}
              && Contradicts(code, run, revision, events, j)
  {
    codes := {};
    var intents := set k | 0 <= k < |j| && j[k].stage == Intent :: j[k].id;
    IntentIds(j, intents);
    if exists k :: 0 <= k < |j| && j[k].stage == Outcome && j[k].id !in intents {
      codes := codes + {OutcomeWithoutIntent};
    }
    if exists k :: 0 <= k < |j| && j[k].revision > revision {
      codes := codes + {AttemptRevisionImpossible};
    }
    if exists k :: 0 <= k < |j| && j[k].position != k + 1 {
      codes := codes + {AttemptSequenceImpossible};
    }
    var completed := set k | 0 <= k < |j| && j[k].stage in {Outcome, Reconciliation} :: j[k].id;
    CompletedIds(j, completed);
    if run.state.Terminal() && exists id :: id in intents && id !in completed {
      codes := codes + {TerminalIncompleteAttempt};
    }
  }

  /** _contradictions */
  method Contradictions(run: Run, revision: nat, events: seq<Event>, j: seq<Record>) returns (codes: set<Code>)
    ensures ExactlyContradicted(codes, run, revision, events, j)
  {
    var first := RunCodes(run, revision, events, j);
    var second := AttemptCodes(run, revision, events, j);
    codes := first + second;
    forall code: Code ensures code in codes <==> Contradicts(code, run, revision, events, j) {
      assert code in first || code !in first;
    }
  }

  lemma IntentIds(j: seq<Record>, intents: set<AttemptId>)
    requires intents == set k | 0 <= k < |j| && j[k].stage == Intent :: j[k].id
    ensures forall id :: id in intents <==> Known(j, id, Intent)
  {
  }

  lemma CompletedIds(j: seq<Record>, completed: set<AttemptId>)
    requires completed == set k | 0 <= k < |j| && j[k].stage in {Outcome, Reconciliation} :: j[k].id
    ensures forall id :: id in completed <==> Known(j, id, Outcome) || Known(j, id, Reconciliation)
  {
  }

  // ---- What the coordinator produces ----------------------------------------------------------

  lemma LastEvent(c: Config, sh: Shared)
    requires SharedOk(c, sh) && sh.events != []
    ensures sh.events[|sh.events| - 1].transition.destination == sh.stored.run.state
  {
    assert StepAt(sh.history, sh.events, |sh.events| - 1);
  }

  lemma RecordIsSound(c: Config, sh: Shared, k: nat)
    requires SharedOk(c, sh) && k < |sh.journal|
    ensures Known(sh.journal, sh.journal[k].id, Intent)
    ensures sh.journal[k].revision <= sh.stored.revision && sh.journal[k].position == k + 1
  {
    assert RecordOk(c, sh.history, sh.journal, sh.launches, k);
  }

  /** The read path agrees with the write path: on whatever the coordinator left behind, crashes
      included, only two codes can ever appear, and those only for a reason. */
  lemma StatusAgrees(c: Config, s: System, code: Code)
    requires Reachable(c, s)
    requires Contradicts(code, s.sh.stored.run, s.sh.stored.revision, s.sh.events, s.sh.journal)
    ensures code in {TerminalIncompleteAttempt, ReviewCorrelationMismatch}
    ensures s.sh.stored.run.state != Approved
  {
    ReachableHolds(c, s);
    var sh := s.sh;
    match code
    case EventRevisionMismatch =>
    case TerminalEventStateMismatch => LastEvent(c, sh);
    case ApprovalGateMissing => ApprovalFound(c, s);
    case OutcomeWithoutIntent =>
      var k :| 0 <= k < |sh.journal| && sh.journal[k].stage == Outcome && !Known(sh.journal, sh.journal[k].id, Intent);
      RecordIsSound(c, sh, k);
    case AttemptRevisionImpossible =>
      var k :| 0 <= k < |sh.journal| && sh.journal[k].revision > sh.stored.revision;
      RecordIsSound(c, sh, k);
    case AttemptSequenceImpossible =>
      var k :| 0 <= k < |sh.journal| && sh.journal[k].position != k + 1;
      RecordIsSound(c, sh, k);
    case TerminalIncompleteAttempt =>
      var k :| 0 <= k < |sh.journal| && sh.journal[k].stage == Intent
               && !Known(sh.journal, sh.journal[k].id, Outcome) && !Known(sh.journal, sh.journal[k].id, Reconciliation);
      if sh.stored.run.state == Approved { ApprovedIntentsAnswered(c, sh, k); }
    case ReviewCorrelationMismatch =>
      var k :| 0 <= k < |sh.journal| && sh.journal[k].stage == Outcome && sh.journal[k].id.step == ReviewStep
               && sh.journal[k].evidence.ruling.None?;
      if sh.stored.run.state == Approved { ApprovedReviewsRuled(c, sh, k); }
  }

  lemma ApprovalFound(c: Config, s: System)
    requires Reachable(c, s)
    ensures !Contradicts(ApprovalGateMissing, s.sh.stored.run, s.sh.stored.revision, s.sh.events, s.sh.journal)
  {
    if s.sh.stored.run.state == Approved {
      var v, r := ApprovalIsFresh(c, s);
      assert LatestOutcome(s.sh.journal, ReviewStep, r);
    }
  }

  /** Every attempt of an approved run was answered. */
  lemma ApprovedIntentsAnswered(c: Config, sh: Shared, k: nat)
    requires SharedOk(c, sh) && sh.stored.run.state == Approved && k < |sh.journal| && sh.journal[k].stage == Intent
    ensures Known(sh.journal, sh.journal[k].id, Outcome) || Known(sh.journal, sh.journal[k].id, Reconciliation)
  {
    var h, j, q := sh.history, sh.journal, sh.journal[k].revision;
    assert RecordOk(c, h, j, sh.launches, k);
    LeftInApproval(c, sh, q);
    var m: nat;
    if j[k].id.step == ContextStep {
      m := ContextOutcome(j, c.contexts + 1, j[k].id.seqno);
    } else if j[k].id.step == WorkspaceStep && Reconciled(j, q) {
      m :| At(j, m, WorkspaceStep, Reconciliation, q) && j[m].evidence.safe;
      SameAttempt(c, h, j, sh.launches, k, m);
    } else {
      m :| At(j, m, j[k].id.step, Outcome, q);
      SameAttempt(c, h, j, sh.launches, k, m);
    }
  }

  lemma LeftInApproval(c: Config, sh: Shared, q: nat)
    requires SharedOk(c, sh) && sh.stored.run.state == Approved && q < |sh.history| && StepOf(sh.history[q].state).Some?
    ensures q + 1 < |sh.history|
    ensures LeaveOk(c, sh.journal, q, sh.history[q].state, sh.history[q + 1].state, sh.history[q + 1].gate)
  {
    if q + 2 < |sh.history| { HistoryFacts(sh.history, sh.events, q + 1); }
    assert LeftAt(c, sh.history, sh.journal, q);
  }

  lemma {:induction false} ContextOutcome(j: seq<Record>, n: nat, m: nat) returns (k: nat)
    requires ContextsDone(j, n) && 1 <= m < n
    ensures k < |j| && j[k].id == AttemptId(ContextStep, m) && j[k].stage == Outcome
  {
    if m == n - 1 {
      k :| k < |j| && j[k].id == AttemptId(ContextStep, m) && j[k].stage == Outcome
           && j[k].evidence.status == Completed;
    } else {
      k := ContextOutcome(j, n - 1, m);
    }
  }

  /** Every review of an approved run has its decision. */
  lemma ApprovedReviewsRuled(c: Config, sh: Shared, k: nat)
    requires SharedOk(c, sh) && sh.stored.run.state == Approved && k < |sh.journal|
    requires sh.journal[k].stage == Outcome && sh.journal[k].id.step == ReviewStep
    ensures sh.journal[k].evidence.ruling.Some?
  {
    var h, j, q := sh.history, sh.journal, sh.journal[k].revision;
    assert RecordOk(c, h, j, sh.launches, k);
    LeftInApproval(c, sh, q);
    var m: nat :| At(j, m, ReviewStep, Outcome, q) && j[m].evidence.ruling.Some?;
    SameAttempt(c, h, j, sh.launches, k, m);
  }

  /** What the fold calls pending are the intents with neither outcome nor reconciliation. */
  lemma PendingIsIncomplete(c: Config, s: System, p: Projection, id: AttemptId)
    requires Reachable(c, s) && Projects(p, s.sh.journal)
    ensures id in p.pending <==>
              Known(s.sh.journal, id, Intent) && !Known(s.sh.journal, id, Outcome)
              && !Known(s.sh.journal, id, Reconciliation)
    ensures s.sh.stored.run.state == Approved ==> id !in p.pending
  {
    ReachableHolds(c, s);
    var sh, j := s.sh, s.sh.journal;
    if id in p.pending {
      var k: nat :| OpenAt(j, k) && j[k].id == id;
      NoAnswerBefore(c, sh, k);
      if sh.stored.run.state == Approved { ApprovedIntentsAnswered(c, sh, k); }
    }
    if Known(j, id, Intent) && !Known(j, id, Outcome) && !Known(j, id, Reconciliation) {
      var k: nat :| k < |j| && j[k].id == id && j[k].stage == Intent;
      assert OpenAt(j, k);
    }
  }

  lemma NoAnswerBefore(c: Config, sh: Shared, k: nat)
    requires SharedOk(c, sh) && OpenAt(sh.journal, k)
    ensures !Known(sh.journal, sh.journal[k].id, Outcome) && !Known(sh.journal, sh.journal[k].id, Reconciliation)
  {
    var j := sh.journal;
    forall i: nat | i < |j| && j[i].id == j[k].id ensures j[i].stage == Intent {
      if j[i].stage != Intent {
        var b := AnswerFollows(c, sh, i);
      }
    }
  }

  lemma AnswerFollows(c: Config, sh: Shared, i: nat) returns (b: nat)
    requires SharedOk(c, sh) && i < |sh.journal| && sh.journal[i].stage != Intent
    ensures b < i && sh.journal[b].id == sh.journal[i].id && sh.journal[b].stage == Intent
  {
    assert RecordOk(c, sh.history, sh.journal, sh.launches, i);
    b :| b < i && IntentOf(sh.journal, b, sh.journal[i].id, sh.journal[i].revision);
  }
}
