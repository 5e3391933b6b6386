/** Every kind of durable write keeps the shared invariant. */
module CoordinatorWrites {
  import opened Domain
  import opened Ids
  import opened Coordinator
  import opened CoordinatorHistory
  import opened CoordinatorInvariants
  import T = Telemetry
  import G = ReviewGate

  // ---- Reading an append-only journal ---------------------------------------------------------

  ghost predicate Prefix<X>(a: seq<X>, b: seq<X>) {
    |a| <= |b| && a == b[..|a|]
  }

  lemma PrefixAt<X>(a: seq<X>, b: seq<X>, i: nat)
    requires Prefix(a, b) && i < |a|
    ensures a[i] == b[i]
  {
    assert a[i] == b[..|a|][i];
  }

  ghost predicate JournalGrows(j: seq<Record>, j': seq<Record>, q: nat) {
    Prefix(j, j') && forall k :: |j| <= k < |j'| ==> j'[k].revision == q
  }

  lemma SafelyGrows(j: seq<Record>, j': seq<Record>, id: AttemptId)
    requires Prefix(j, j') && SafelyReconciled(j, id)
    ensures SafelyReconciled(j', id)
  {
    var k :| 0 <= k < |j| && j[k].id == id && j[k].stage == Reconciliation && j[k].evidence.safe;
    PrefixAt(j, j', k);
  }

  lemma CleanGrows(j: seq<Record>, j': seq<Record>, q: nat, p: nat)
    requires JournalGrows(j, j', p) && q <= p && CleanBefore(j, q)
    ensures CleanBefore(j', q)
  {
    forall k | 0 <= k < |j'| && Dirty(j'[k]) && j'[k].revision < q ensures SafelyReconciled(j', j'[k].id) {
      PrefixAt(j, j', k);
      SafelyGrows(j, j', j[k].id);
    }
  }

  lemma AtGrows(j: seq<Record>, j': seq<Record>, k: nat, step: Step, stage: Stage, q: nat)
    requires Prefix(j, j') && At(j, k, step, stage, q)
    ensures At(j', k, step, stage, q) && j'[k] == j[k]
  {
    PrefixAt(j, j', k);
  }

  lemma BasisGrows(j: seq<Record>, j': seq<Record>, q: nat, basis: Option<Checked>)
    requires Prefix(j, j') && BasisOk(j, q, basis)
    ensures BasisOk(j', q, basis)
  {
    var k: nat :| At(j, k, ValidationStep, Outcome, q - 1) && j[k].evidence.checked == basis;
    AtGrows(j, j', k, ValidationStep, Outcome, q - 1);
  }

  lemma LaunchedGrows(a: seq<Launch>, b: seq<Launch>, q: nat)
    requires Prefix(a, b) && LaunchedAt(a, q)
    ensures LaunchedAt(b, q)
  {
    var i: nat :| i < |a| && a[i].revision == q;
    PrefixAt(a, b, i);
  }

  lemma EvidenceGrows(j: seq<Record>, j': seq<Record>, ls: seq<Launch>, ls': seq<Launch>,
                      id: AttemptId, stage: Stage, q: nat, ev: Evidence, p: nat)
    requires JournalGrows(j, j', p) && q <= p && Prefix(ls, ls')
    requires EvidenceOk(j, ls, id, stage, q, ev)
    ensures EvidenceOk(j', ls', id, stage, q, ev)
  {
    if CleanBefore(j, q) { CleanGrows(j, j', q, p); }
    if BasisOk(j, q, ev.checked) { BasisGrows(j, j', q, ev.checked); }
    if LaunchedAt(ls, q) { LaunchedGrows(ls, ls', q); }
  }

  lemma RecordedGrows(j: seq<Record>, j': seq<Record>, step: Step, stage: Stage, q: nat)
    requires Prefix(j, j') && Recorded(j, step, stage, q)
    ensures Recorded(j', step, stage, q)
  {
    var k: nat :| At(j, k, step, stage, q);
    AtGrows(j, j', k, step, stage, q);
  }

  lemma ReconciledGrows(j: seq<Record>, j': seq<Record>, q: nat)
    requires Prefix(j, j') && Reconciled(j, q)
    ensures Reconciled(j', q)
  {
    var k: nat :| At(j, k, WorkspaceStep, Reconciliation, q) && j[k].evidence.safe;
    AtGrows(j, j', k, WorkspaceStep, Reconciliation, q);
  }

  lemma ContextDoneGrows(j: seq<Record>, j': seq<Record>, n: nat)
    requires Prefix(j, j') && ContextDone(j, n)
    ensures ContextDone(j', n)
  {
    var k: nat :| k < |j| && j[k].id == AttemptId(ContextStep, n) && j[k].stage == Outcome
                  && j[k].evidence.status == Completed;
    PrefixAt(j, j', k);
  }

  lemma {:induction false} ContextsGrow(j: seq<Record>, j': seq<Record>, n: nat)
    requires Prefix(j, j') && ContextsDone(j, n)
    ensures ContextsDone(j', n)
  {
    if n > 1 {
      ContextsGrow(j, j', n - 1);
      ContextDoneGrows(j, j', n - 1);
    }
  }

  lemma {:induction false} FewerContexts(j: seq<Record>, m: nat, n: nat)
    requires m <= n && ContextsDone(j, n)
    ensures ContextsDone(j, m)
  {
    if m < n && n > 1 {
      FewerContexts(j, m, n - 1);
    }
  }

  lemma LeaveGrows(c: Config, j: seq<Record>, j': seq<Record>, q: nat, st: RunState, d: RunState,
                   g: Option<ApprovalGate>)
    requires Prefix(j, j') && LeaveOk(c, j, q, st, d, g)
    ensures LeaveOk(c, j', q, st, d, g)
  {
    match st
    case ContextPreparing => ContextsGrow(j, j', c.contexts + 1);
    case WorkspacePreparing =>
      if Recorded(j, WorkspaceStep, Outcome, q) { RecordedGrows(j, j', WorkspaceStep, Outcome, q); }
      if Reconciled(j, q) { ReconciledGrows(j, j', q); }
    case Building => RecordedGrows(j, j', BuildStep, Outcome, q);
    case Repairing => RecordedGrows(j, j', RepairStep, Outcome, q);
    case Validating =>
      var k: nat :| At(j, k, ValidationStep, Outcome, q) && j[k].evidence.checked.Some?
                    && (j[k].evidence.checked.value.Approvable() <==> d == Reviewing);
      AtGrows(j, j', k, ValidationStep, Outcome, q);
    case Reviewing =>
      var k: nat :| At(j, k, ReviewStep, Outcome, q) && j[k].evidence.ruling.Some?
                    && (d == Approved ==>
                          j[k].evidence.ruling.value.status == G.Approvable && j[k].evidence.ruling.value.gate == g);
      AtGrows(j, j', k, ReviewStep, Outcome, q);
    case _ =>
  }

  lemma IntentGrows(j: seq<Record>, j': seq<Record>, k: nat, id: AttemptId, q: nat)
    requires Prefix(j, j') && IntentOf(j, k, id, q)
    ensures IntentOf(j', k, id, q) && j'[k] == j[k]
  {
    PrefixAt(j, j', k);
  }

  // ---- Appending a record ---------------------------------------------------------------------

  /** A record that may be written at the current revision. */
  ghost predicate Writable(c: Config, sh: Shared, id: AttemptId, stage: Stage, ev: Evidence)
    requires |sh.history| > 0
  {
    var q := |sh.history| - 1;
    && StepOf(sh.history[q].state) == Some(id.step)
    && 1 <= id.seqno <= MAX_ATTEMPT_SEQUENCE
    && (if id.step == ContextStep then id.seqno <= c.contexts else id.seqno == Ordinal(sh.history, q))
    && EvidenceOk(sh.journal, sh.launches, id, stage, q, ev)
    && (stage != Intent ==> exists k: nat :: IntentOf(sh.journal, k, id, q))
    && !Known(sh.journal, id, stage)
  }

  lemma AppendJournal(c: Config, sh: Shared, w: nat, id: AttemptId, stage: Stage, ev: Evidence)
    requires SharedOk(c, sh) && Writable(c, sh, id, stage, ev)
    ensures JournalOk(c, sh.history, Append(sh, w, sh.stored, id, stage, ev).journal, sh.launches)
  {
    var q := |sh.history| - 1;
    var j, j' := sh.journal, Append(sh, w, sh.stored, id, stage, ev).journal;
    forall k | 0 <= k < |j'| ensures RecordOk(c, sh.history, j', sh.launches, k) {
      if k < |j| {
        assert RecordOk(c, sh.history, j, sh.launches, k);
        OldRecord(c, sh.history, j, j', sh.launches, k, q);
      } else {
        EvidenceGrows(j, j', sh.launches, sh.launches, id, stage, q, ev, q);
        if stage != Intent {
          var i: nat :| IntentOf(j, i, id, q);
          IntentGrows(j, j', i, id, q);
        }
      }
    }
    forall i, k | 0 <= i < k < |j'| ensures j'[i].revision <= j'[k].revision {
      if k == |j| { assert RecordOk(c, sh.history, j, sh.launches, i); }
    }
  }

  lemma OldRecord(c: Config, h: seq<Run>, j: seq<Record>, j': seq<Record>, ls: seq<Launch>, k: nat, p: nat)
    requires JournalGrows(j, j', p) && |h| == p + 1 && k < |j| && RecordOk(c, h, j, ls, k)
    ensures RecordOk(c, h, j', ls, k)
  {
    var r := j[k];
    PrefixAt(j, j', k);
    EvidenceGrows(j, j', ls, ls, r.id, r.stage, r.revision, r.evidence, p);
    if r.stage != Intent {
      var i: nat :| i < k && IntentOf(j, i, r.id, r.revision);
      IntentGrows(j, j', i, r.id, r.revision);
    }
  }

  lemma CountSnoc(j: seq<Record>, r: Record, step: Step)
    ensures CountIntents(j + [r], step)
         == CountIntents(j, step) + if r.stage == Intent && r.id.step == step then 1 else 0
  {
    assert (j + [r])[..|j|] == j;
  }

  /** An intent at the current revision is the intent of the current ordinal. */
  lemma IntentNowIsKnown(c: Config, h: seq<Run>, j: seq<Record>, ls: seq<Launch>, id: AttemptId, stage: Stage)
    requires |h| > 0 && JournalOk(c, h, j, ls)
    requires StepOf(h[|h| - 1].state) == Some(id.step) && id.step != ContextStep && id.seqno == Ordinal(h, |h| - 1)
    requires Recorded(j, id.step, stage, |h| - 1)
    ensures Known(j, id, stage)
  {
    var k: nat :| At(j, k, id.step, stage, |h| - 1);
    assert RecordOk(c, h, j, ls, k);
    assert j[k].id == id;
  }

  lemma AppendCountAt(c: Config, sh: Shared, r: Record, step: Step)
    requires SharedOk(c, sh) && step != ContextStep && CountAt(sh.history, sh.journal, step)
    requires r.revision == |sh.history| - 1 && StepOf(sh.history[|sh.history| - 1].state) == Some(r.id.step)
    requires r.id.step == ContextStep || r.id.seqno == Ordinal(sh.history, |sh.history| - 1)
    requires !Known(sh.journal, r.id, r.stage)
    ensures CountAt(sh.history, sh.journal + [r], step)
  {
    var h, j, q := sh.history, sh.journal, |sh.history| - 1;
    var j' := j + [r];
    CountSnoc(j, r, step);
    if Recorded(j, step, Intent, q) {
      RecordedGrows(j, j', step, Intent, q);
      if step == r.id.step && r.stage == Intent { IntentNowIsKnown(c, h, j, sh.launches, r.id, Intent); }
    } else if Recorded(j', step, Intent, q) {
      var k: nat :| At(j', k, step, Intent, q);
      if k < |j| { assert At(j, k, step, Intent, q); }
      assert step == r.id.step && r.stage == Intent;
    } else if step == r.id.step && r.stage == Intent {
      assert At(j', |j|, step, Intent, q);
    }
  }

  lemma AppendCounts(c: Config, sh: Shared, w: nat, id: AttemptId, stage: Stage, ev: Evidence)
    requires SharedOk(c, sh) && Writable(c, sh, id, stage, ev)
    ensures CountsOk(sh.history, Append(sh, w, sh.stored, id, stage, ev).journal)
  {
    var h, j := sh.history, sh.journal;
    var q := |h| - 1;
    var r := Record(id, stage, |j| + 1, q, sh.stored.run.state, ev, w);
    var j' := j + [r];
    forall step | step != ContextStep ensures CountAt(h, j', step) {
      assert CountAt(h, j, step);
      AppendCountAt(c, sh, r, step);
    }
    HistoryFacts(h, sh.events, q);
    AppendJournal(c, sh, w, id, stage, ev);
    CountsWithinLimit(c, h, sh.events, j', sh.launches);
  }

  /** The claimed repairs never exceed the limit. */
  lemma CountsWithinLimit(c: Config, h: seq<Run>, ev: seq<Event>, j: seq<Record>, ls: seq<Launch>)
    requires HistoryOk(h, ev) && !h[|h| - 1].state.Terminal()
    requires CountAt(h, j, RepairStep) && JournalOk(c, h, j, ls)
    ensures CountIntents(j, RepairStep) <= h[0].budgets.maxRepair
  {
    var q := |h| - 1;
    HistoryFacts(h, ev, q);
    CountersAreVisits(h, ev, q);
    if Recorded(j, RepairStep, Intent, q) {
      var k: nat :| At(j, k, RepairStep, Intent, q);
      assert RecordOk(c, h, j, ls, k);
    }
  }

  lemma AppendNumbers(c: Config, sh: Shared, w: nat, id: AttemptId, stage: Stage, ev: Evidence)
    requires SharedOk(c, sh) && Writable(c, sh, id, stage, ev)
    ensures Numbered(Append(sh, w, sh.stored, id, stage, ev).journal)
  {
    var h, j, j' := sh.history, sh.journal, Append(sh, w, sh.stored, id, stage, ev).journal;
    forall k | 0 <= k < |j'| ensures NumberAt(j', k) {
      assert j'[..k] == j[..k];
      if k < |j| {
        assert NumberAt(j, k);
      } else if stage == Intent && id.step != ContextStep {
        assert j[..k] == j;
        assert CountAt(h, j, id.step);
        if Recorded(j, id.step, Intent, |h| - 1) { IntentNowIsKnown(c, h, j, sh.launches, id, Intent); }
      }
    }
  }

  lemma AppendLeft(c: Config, sh: Shared, w: nat, id: AttemptId, stage: Stage, ev: Evidence)
    requires SharedOk(c, sh)
    ensures LeftOk(c, sh.history, Append(sh, w, sh.stored, id, stage, ev).journal)
  {
    var h, j, j' := sh.history, sh.journal, Append(sh, w, sh.stored, id, stage, ev).journal;
    forall q | 0 <= q < |h| - 1 ensures LeftAt(c, h, j', q) {
      assert LeftAt(c, h, j, q);
      if !Halting(h[q + 1].state) {
        LeaveGrows(c, j, j', q, h[q].state, h[q + 1].state, h[q + 1].gate);
      }
    }
  }

  lemma LaunchesGrow(j: seq<Record>, j': seq<Record>, l: T.Ledger, l': T.Ledger, ls: seq<Launch>)
    requires Prefix(j, j') && LaunchesOk(j, l, ls) && forall id :: T.Has(l, id) ==> T.Has(l', id)
    ensures LaunchesOk(j', l', ls)
  {
    forall i | 0 <= i < |ls| ensures LaunchOk(j', l', ls[i]) {
      var x := ls[i];
      assert LaunchOk(j, l, x);
      var k: nat :| IntentOf(j, k, x.id, x.revision) && j[k].writer == x.worker;
      IntentGrows(j, j', k, x.id, x.revision);
    }
  }

  lemma AppendLedger(h: seq<Run>, j: seq<Record>, j': seq<Record>, l: T.Ledger)
    requires |h| > 0 && Prefix(j, j') && LedgerOk(h, j, l)
    ensures LedgerOk(h, j', l)
  {
    forall id: AttemptId | T.Has(l, id) ensures Known(j', id, Intent) {
      var k :| 0 <= k < |j| && j[k].id == id && j[k].stage == Intent;
      PrefixAt(j, j', k);
    }
    if !NoDuration(l) {
      var k: nat :| k < |j| && j[k].id.step == ValidationStep;
      PrefixAt(j, j', k);
    }
  }

  /** Journaling keeps the invariant. */
  lemma AppendKeeps(c: Config, sh: Shared, w: nat, id: AttemptId, stage: Stage, ev: Evidence)
    requires SharedOk(c, sh) && Writable(c, sh, id, stage, ev)
    ensures SharedOk(c, Append(sh, w, sh.stored, id, stage, ev))
    ensures Grows(sh, Append(sh, w, sh.stored, id, stage, ev))
  {
    var sh' := Append(sh, w, sh.stored, id, stage, ev);
    AppendJournal(c, sh, w, id, stage, ev);
    AppendLeft(c, sh, w, id, stage, ev);
    AppendCounts(c, sh, w, id, stage, ev);
    AppendNumbers(c, sh, w, id, stage, ev);
    LaunchesGrow(sh.journal, sh'.journal, sh.ledger, sh.ledger, sh.launches);
    AppendLedger(sh.history, sh.journal, sh'.journal, sh.ledger);
  }

  // ---- The next revision ----------------------------------------------------------------------

  lemma RecordAtNextRevision(c: Config, h: seq<Run>, h': seq<Run>, j: seq<Record>, ls: seq<Launch>, k: nat)
    requires Prefix(h, h') && k < |j| && RecordOk(c, h, j, ls, k)
    ensures RecordOk(c, h', j, ls, k)
  {
    var q := j[k].revision;
    PrefixAt(h, h', q);
    VisitsPrefix(h, h', q, h[q].state);
  }

  ghost predicate StepsTo(c: Config, sh: Shared, req: Request, at: int, next: Run) {
    && SharedOk(c, sh) && SnapOk(sh, sh.stored) && Justified(c, sh, sh.stored, req)
    && TransitionRun(sh.stored.run, req, at) == Ok(next)
  }

  lemma AdvanceHistory(c: Config, sh: Shared, req: Request, at: int, next: Run)
    requires StepsTo(c, sh, req, at, next)
    ensures var sh' := Advance(sh, req, at, next); HistoryOk(sh'.history, sh'.events) && Prefix(sh.history, sh'.history)
  {
    var sh' := Advance(sh, req, at, next);
    var n := |sh.events|;
    HistoryFacts(sh.history, sh.events, n);
    TransitionAcceptedExactly(sh.stored.run, req, at);
    forall i | 0 <= i < |sh'.events| ensures StepAt(sh'.history, sh'.events, i) {
      if i < n { assert StepAt(sh.history, sh.events, i); }
    }
  }

  lemma AdvanceLeft(c: Config, sh: Shared, req: Request, at: int, next: Run)
    requires StepsTo(c, sh, req, at, next)
    ensures LeftOk(c, Advance(sh, req, at, next).history, sh.journal)
  {
    var h, h', n := sh.history, Advance(sh, req, at, next).history, |sh.events|;
    HistoryFacts(h, sh.events, n);
    TransitionAcceptedExactly(sh.stored.run, req, at);
    forall q | 0 <= q < |h'| - 1 ensures LeftAt(c, h', sh.journal, q) {
      if q < n { assert LeftAt(c, h, sh.journal, q); }
    }
  }

  /** A state that was left on evidence had been claimed. */
  lemma LeftWasClaimed(c: Config, h: seq<Run>, j: seq<Record>, ls: seq<Launch>, q: nat, st: RunState, d: RunState,
                       g: Option<ApprovalGate>)
    requires JournalOk(c, h, j, ls) && LeaveOk(c, j, q, st, d, g)
    requires StepOf(st).Some? && st != ContextPreparing
    ensures Recorded(j, StepOf(st).value, Intent, q)
  {
    var k: nat;
    if st == WorkspacePreparing && Reconciled(j, q) {
      k :| At(j, k, WorkspaceStep, Reconciliation, q) && j[k].evidence.safe;
    } else {
      k :| At(j, k, StepOf(st).value, Outcome, q);
    }
    assert RecordOk(c, h, j, ls, k);
    var i: nat :| i < k && IntentOf(j, i, j[k].id, q);
    assert At(j, i, StepOf(st).value, Intent, q);
  }

  lemma RecordedStep(c: Config, h: seq<Run>, j: seq<Record>, ls: seq<Launch>, step: Step, stage: Stage, q: nat)
    requires JournalOk(c, h, j, ls) && Recorded(j, step, stage, q)
    ensures q < |h| && StepOf(h[q].state) == Some(step)
  {
    var k: nat :| At(j, k, step, stage, q);
    assert RecordOk(c, h, j, ls, k);
  }

  lemma AdvanceCountAt(c: Config, sh: Shared, req: Request, at: int, next: Run, step: Step)
    requires StepsTo(c, sh, req, at, next) && !next.state.Terminal() && step != ContextStep
    ensures CountAt(Advance(sh, req, at, next).history, sh.journal, step)
  {
    var h, h', j, q := sh.history, Advance(sh, req, at, next).history, sh.journal, |sh.events|;
    HistoryFacts(h, sh.events, q);
    TransitionAcceptedExactly(sh.stored.run, req, at);
    assert CountAt(h, j, step);
    VisitsPrefix(h, h', q, StateOf(step));
    if Recorded(j, step, Intent, q + 1) { RecordedStep(c, h, j, sh.launches, step, Intent, q + 1); }
    if Recorded(j, step, Intent, q) { RecordedStep(c, h, j, sh.launches, step, Intent, q); }
    if h[q].state == StateOf(step) {
      LeftWasClaimed(c, h, j, sh.launches, q, h[q].state, req.destination, req.gate);
    }
  }

  lemma AdvanceCounts(c: Config, sh: Shared, req: Request, at: int, next: Run)
    requires StepsTo(c, sh, req, at, next)
    ensures CountsOk(Advance(sh, req, at, next).history, sh.journal)
  {
    var h, h', j, q := sh.history, Advance(sh, req, at, next).history, sh.journal, |sh.events|;
    HistoryFacts(h, sh.events, q);
    TransitionAcceptedExactly(sh.stored.run, req, at);
    if !next.state.Terminal() {
      forall step | step != ContextStep ensures CountAt(h', j, step) {
        AdvanceCountAt(c, sh, req, at, next, step);
      }
    }
  }

  /** A persisted transition keeps the invariant. */
  lemma AdvanceKeeps(c: Config, sh: Shared, req: Request, at: int, next: Run)
    requires StepsTo(c, sh, req, at, next)
    ensures SharedOk(c, Advance(sh, req, at, next)) && Grows(sh, Advance(sh, req, at, next))
  {
    var sh' := Advance(sh, req, at, next);
    AdvanceHistory(c, sh, req, at, next);
    AdvanceLeft(c, sh, req, at, next);
    AdvanceCounts(c, sh, req, at, next);
    forall k | 0 <= k < |sh.journal| ensures RecordOk(c, sh'.history, sh.journal, sh.launches, k) {
      RecordAtNextRevision(c, sh.history, sh'.history, sh.journal, sh.launches, k);
    }
  }

  // ---- Ledger writes and launches -------------------------------------------------------------

  /** A ledger write keeps the invariant: reservations stay, and duration is only promised once a
      validation is claimed. */
  lemma LedgerKeeps(c: Config, sh: Shared, l: T.Ledger)
    requires SharedOk(c, sh)
    requires LedgerOk(sh.history, sh.journal, l) && forall id :: T.Has(sh.ledger, id) ==> T.Has(l, id)
    ensures SharedOk(c, sh.(ledger := l)) && Grows(sh, sh.(ledger := l))
  {
    LaunchesGrow(sh.journal, sh.journal, sh.ledger, l, sh.launches);
  }

  lemma SettlementKeepsIds(l: T.Ledger, id: AttemptId, st: T.ReservationStatus, more: seq<T.Usage>)
    ensures forall x :: T.Has(l, x) <==> T.Has(T.ApplySettlement(l, id, st, more), x)
  {
    var l' := T.ApplySettlement(l, id, st, more);
    if l' != l {
      forall x | T.Has(l, x) ensures T.Has(l', x) {
        var i :| 0 <= i < |l.reservations| && l.reservations[i].id == x;
        assert l'.reservations[i].id == x && l'.reservations[i] in l'.reservations;
      }
      forall x | T.Has(l', x) ensures T.Has(l, x) {
        var i :| 0 <= i < |l'.reservations| && l'.reservations[i].id == x;
        assert l.reservations[i].id == x && l.reservations[i] in l.reservations;
      }
    }
  }

  lemma SettlementAddsNoDuration(l: T.Ledger, id: AttemptId, st: T.ReservationStatus, more: seq<T.Usage>)
    requires NoDuration(l) && forall u :: u in more ==> !MeasuresDuration(u.metric)
    ensures NoDuration(T.ApplySettlement(l, id, st, more))
  {
    var l' := T.ApplySettlement(l, id, st, more);
    if l' != l {
      T.AppendUsageAccounts(l.usage, more, {});
      forall x | x in l'.reservations ensures x.metric != T.TotalDuration {
        var i :| 0 <= i < |l'.reservations| && l'.reservations[i] == x;
        assert l.reservations[i] in l.reservations;
      }
    }
  }

  lemma SettleKeepsIds(l: T.Ledger, limits: T.Limits, op: T.Op)
    requires op.SettleAttempt? || op.SettleDuration? || op.MarkUnresolved?
    ensures forall id :: T.Has(l, id) <==> T.Has(T.Apply(l, limits, op), id)
    ensures NoDuration(l) ==> NoDuration(T.Apply(l, limits, op))
  {
    match op
    case SettleAttempt(id, tokens) =>
      var found := T.Find(l.reservations, id);
      if found.Some? && found.value.metric != T.TotalDuration {
        SettlementKeepsIds(l, id, T.Settled, T.AttemptUsage(found.value, tokens));
        if NoDuration(l) { SettlementAddsNoDuration(l, id, T.Settled, T.AttemptUsage(found.value, tokens)); }
      }
    case SettleDuration(id, ms) =>
      var found := T.Find(l.reservations, id);
      if found.Some? && found.value.metric == T.TotalDuration {
        SettlementKeepsIds(l, id, T.Settled, T.DurationUsage(found.value, ms));
      }
    case MarkUnresolved(id) =>
      SettlementKeepsIds(l, id, T.Unresolved, []);
      if NoDuration(l) { SettlementAddsNoDuration(l, id, T.Unresolved, []); }
  }

  /** Settling or marking a reservation keeps the invariant. */
  lemma SettleKeepsShared(c: Config, sh: Shared, limits: T.Limits, op: T.Op)
    requires SharedOk(c, sh) && (op.SettleAttempt? || op.SettleDuration? || op.MarkUnresolved?)
    requires limits == LimitsOf(sh.history[0].budgets)
    ensures var sh' := sh.(ledger := T.Apply(sh.ledger, limits, op)); SharedOk(c, sh') && Grows(sh, sh')
  {
    SettleKeepsIds(sh.ledger, limits, op);
    T.ApplyKeeps(sh.ledger, limits, op);
    LedgerKeeps(c, sh, T.Apply(sh.ledger, limits, op));
  }

  lemma ReserveKeepsIds(l: T.Ledger, limits: T.Limits, current: bool, r: T.Reservation)
    requires r.status == T.Active && T.ReserveIfAllowed(l, limits, current, r, false).Reserved?
    ensures var l' := T.ReserveIfAllowed(l, limits, current, r, false).ledger;
            && (forall id :: T.Has(l, id) ==> T.Has(l', id))
            && (forall id :: T.Has(l', id) ==> T.Has(l, id) || id == r.id)
            && l' == T.Apply(l, limits, T.Reserve(current, r))
            && (r.metric != T.TotalDuration && NoDuration(l) ==> NoDuration(l'))
            && (T.ReserveIfAllowed(l, limits, current, r, false).decision.verdict == T.Allow ==> T.Has(l', r.id))
  {
    var l' := T.ReserveIfAllowed(l, limits, current, r, false).ledger;
    if l' != l {
      assert l' == T.Insert(l, r);
      forall id | T.Has(l, id) ensures T.Has(l', id) {
        var x :| x in l.reservations && x.id == id;
        assert x in l'.reservations;
      }
      assert r in l'.reservations;
    }
  }

  lemma LaunchedSnoc(ls: seq<Launch>, x: Launch, q: nat)
    ensures LaunchedAt(ls + [x], q) <==> LaunchedAt(ls, q) || x.revision == q
  {
    if LaunchedAt(ls, q) {
      LaunchedGrows(ls, ls + [x], q);
    }
    if x.revision == q { assert (ls + [x])[|ls|].revision == q; }
    if LaunchedAt(ls + [x], q) && x.revision != q {
      var i: nat :| i < |ls + [x]| && (ls + [x])[i].revision == q;
      assert ls[i].revision == q;
    }
  }

  /** Starting the call of an owned, so far unstarted attempt keeps the invariant. */
  lemma LaunchKeeps(c: Config, sh: Shared, x: Launch)
    requires SharedOk(c, sh) && LaunchOk(sh.journal, sh.ledger, x) && !LaunchedAt(sh.launches, x.revision)
    ensures var sh' := sh.(launches := sh.launches + [x]); SharedOk(c, sh') && Grows(sh, sh')
  {
    var ls' := sh.launches + [x];
    forall k | 0 <= k < |sh.journal| ensures RecordOk(c, sh.history, sh.journal, ls', k) {
      assert RecordOk(c, sh.history, sh.journal, sh.launches, k);
      var r := sh.journal[k];
      EvidenceGrows(sh.journal, sh.journal, sh.launches, ls', r.id, r.stage, r.revision, r.evidence, r.revision);
    }
  }
}
