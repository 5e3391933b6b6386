/** Every step of every worker keeps the invariant, for the worker that takes it and for all
    others. */
module CoordinatorSteps {
  import opened Domain
  import opened Ids
  import opened Coordinator
  import opened CoordinatorHistory
  import opened CoordinatorInvariants
  import opened CoordinatorWrites
  import T = Telemetry

  // ---- The other workers ----------------------------------------------------------------------

  lemma {:induction false} MeasureFalls(h: seq<Run>, ev: seq<Event>, i: nat, k: nat)
    requires HistoryOk(h, ev) && i <= k < |h|
    ensures Measure(h[k]) <= Measure(h[i]) && h[k].budgets == h[i].budgets
  {
    HistoryFacts(h, ev, i);
    HistoryFacts(h, ev, k);
    if i < k {
      MeasureFalls(h, ev, i, k - 1);
      HistoryFacts(h, ev, k - 1);
    }
  }

  lemma SnapStable(sh: Shared, sh': Shared, snap: Stored)
    requires Grows(sh, sh') && SnapOk(sh, snap)
    ensures SnapOk(sh', snap)
    ensures Current(sh', snap) ==> Current(sh, snap) && sh'.history == sh.history
  {
    PrefixAt(sh.history, sh'.history, snap.revision);
  }

  lemma GrowsAt(sh: Shared, sh': Shared, snap: Stored)
    requires Grows(sh, sh') && Current(sh, snap)
    ensures JournalGrows(sh.journal, sh'.journal, snap.revision) && Prefix(sh.launches, sh'.launches)
  {
  }

  lemma AdmittedStable(sh: Shared, sh': Shared, snap: Stored, basis: Option<Checked>)
    requires Grows(sh, sh') && SnapOk(sh, snap) && AdmittedOk(sh, snap, basis)
    ensures AdmittedOk(sh', snap, basis)
  {
    SnapStable(sh, sh', snap);
    if Current(sh', snap) {
      GrowsAt(sh, sh', snap);
      if snap.run.state == Reviewing { BasisGrows(sh.journal, sh'.journal, snap.revision, basis); }
      if snap.run.state == Repairing { CleanGrows(sh.journal, sh'.journal, snap.revision, snap.revision); }
    }
  }

  lemma OwnStable(sh: Shared, sh': Shared, w: nat, snap: Stored, n: nat, at: nat)
    requires Grows(sh, sh') && Attempting(snap) && OwnOk(sh, w, snap, n, at)
    ensures OwnOk(sh', w, snap, n, at)
  {
    IntentGrows(sh.journal, sh'.journal, at, IdAt(snap, n), snap.revision);
  }

  lemma AnswerStable(sh: Shared, sh': Shared, snap: Stored, n: nat, answer: Evidence)
    requires Grows(sh, sh') && SnapOk(sh, snap) && Attempting(snap) && AnswerOk(sh, snap, n, answer)
    ensures AnswerOk(sh', snap, n, answer)
  {
    SnapStable(sh, sh', snap);
    if Current(sh', snap) {
      GrowsAt(sh, sh', snap);
      EvidenceGrows(sh.journal, sh'.journal, sh.launches, sh'.launches, IdAt(snap, n), Outcome, snap.revision, answer,
                    snap.revision);
    }
  }

  lemma HoldingStable(sh: Shared, sh': Shared, snap: Stored, at: nat)
    requires Grows(sh, sh') && SnapOk(sh, snap) && StepOf(snap.run.state).Some? && HoldingOk(sh, snap, at)
    ensures HoldingOk(sh', snap, at)
  {
    SnapStable(sh, sh', snap);
    PrefixAt(sh.journal, sh'.journal, at);
  }

  lemma JustifiedStable(c: Config, sh: Shared, sh': Shared, snap: Stored, req: Request)
    requires Grows(sh, sh') && Justified(c, sh, snap, req)
    ensures Justified(c, sh', snap, req)
  {
    if !Halting(req.destination) {
      LeaveGrows(c, sh.journal, sh'.journal, snap.revision, snap.run.state, req.destination, req.gate);
    }
  }

  lemma ContextsStable(sh: Shared, sh': Shared, n: nat)
    requires Grows(sh, sh') && ContextsDone(sh.journal, n)
    ensures ContextsDone(sh'.journal, n)
  {
    ContextsGrow(sh.journal, sh'.journal, n);
  }

  lemma BetweenStable(c: Config, sh: Shared, sh': Shared, w: nat, pass: nat)
    requires SharedOk(c, sh) && SharedOk(c, sh') && Grows(sh, sh') && WorkerOk(c, sh, w, Between(pass))
    ensures WorkerOk(c, sh', w, Between(pass))
  {
    var i, k := |sh.history| - 1, |sh'.history| - 1;
    PrefixAt(sh.history, sh'.history, i);
    MeasureFalls(sh'.history, sh'.events, i, k);
  }

  /** The same for the workers that rely on a claim. */
  lemma ClaimantStable(c: Config, sh: Shared, sh': Shared, w: nat, wk: Worker)
    requires SharedOk(c, sh) && SharedOk(c, sh') && Grows(sh, sh') && WorkerOk(c, sh, w, wk)
    requires wk.Refusing? || wk.Owning? || wk.Responded?
    requires wk.Owning? ==> Quiet(sh, sh', wk.snap.revision)
    ensures WorkerOk(c, sh', w, wk)
  {
    SnapStable(sh, sh', wk.snap);
    match wk
    case Refusing(snap, _, n) =>
      AdmittedStable(sh, sh', snap, None);
      var k: nat :| IntentOf(sh.journal, k, IdAt(snap, n), snap.revision);
      IntentGrows(sh.journal, sh'.journal, k, IdAt(snap, n), snap.revision);
    case Owning(snap, _, n, at, basis, phase) =>
      AdmittedStable(sh, sh', snap, basis);
      OwnStable(sh, sh', w, snap, n, at);
      if LaunchedAt(sh.launches, snap.revision) { LaunchedGrows(sh.launches, sh'.launches, snap.revision); }
    case Responded(snap, _, n, at, answer, _) =>
      OwnStable(sh, sh', w, snap, n, at);
      AnswerStable(sh, sh', snap, n, answer);
  }

  /** The same for the workers at a context request. */
  lemma ContextStable(c: Config, sh: Shared, sh': Shared, w: nat, wk: Worker)
    requires SharedOk(c, sh) && SharedOk(c, sh') && Grows(sh, sh') && WorkerOk(c, sh, w, wk)
    requires wk.ContextAt? || wk.ContextSelecting?
    ensures WorkerOk(c, sh', w, wk)
  {
    SnapStable(sh, sh', wk.snap);
    if Current(sh', wk.snap) {
      ContextsStable(sh, sh', wk.seqno);
      if wk.ContextSelecting? {
        var k: nat :| IntentOf(sh.journal, k, AttemptId(ContextStep, wk.seqno), wk.snap.revision);
        IntentGrows(sh.journal, sh'.journal, k, AttemptId(ContextStep, wk.seqno), wk.snap.revision);
      }
    }
  }

  /** The same for the workers that rely on no claim of their own. */
  lemma AttemptStable(c: Config, sh: Shared, sh': Shared, w: nat, wk: Worker)
    requires SharedOk(c, sh) && SharedOk(c, sh') && Grows(sh, sh') && WorkerOk(c, sh, w, wk)
    requires wk.Picked? || wk.Admitted? || wk.Clear? || wk.Settling? || wk.Holding?
    ensures WorkerOk(c, sh', w, wk)
  {
    SnapStable(sh, sh', wk.snap);
    if wk.Admitted? || wk.Clear? {
      AdmittedStable(sh, sh', wk.snap, wk.basis);
    } else if wk.Settling? || wk.Holding? {
      HoldingStable(sh, sh', wk.snap, wk.at);
    }
  }

  /** The same for the workers that look at a record or a request. */
  lemma DeciderStable(c: Config, sh: Shared, sh': Shared, w: nat, wk: Worker)
    requires SharedOk(c, sh) && SharedOk(c, sh') && Grows(sh, sh') && WorkerOk(c, sh, w, wk)
    requires wk.Selected? || wk.Resolved? || wk.Decided?
    ensures WorkerOk(c, sh', w, wk)
  {
    SnapStable(sh, sh', wk.snap);
    if wk.Selected? {
      PrefixAt(sh.journal, sh'.journal, wk.at);
    } else if wk.Resolved? {
      if wk.safe { ReconciledGrows(sh.journal, sh'.journal, wk.snap.revision); }
      AtGrows(sh.journal, sh'.journal, wk.at, StepOf(wk.snap.run.state).value, Intent, wk.snap.revision);
    } else if Current(sh', wk.snap) {
      JustifiedStable(c, sh, sh', wk.snap, wk.req);
    }
  }

  /** What a worker relies on survives every step of the others. */
  lemma WorkerStable(c: Config, sh: Shared, sh': Shared, w: nat, wk: Worker)
    requires SharedOk(c, sh) && SharedOk(c, sh') && Grows(sh, sh') && WorkerOk(c, sh, w, wk)
    requires wk.Owning? ==> Quiet(sh, sh', wk.snap.revision)
    ensures WorkerOk(c, sh', w, wk)
  {
    if wk.Refusing? || wk.Owning? || wk.Responded? {
      ClaimantStable(c, sh, sh', w, wk);
    } else if wk.ContextAt? || wk.ContextSelecting? {
      ContextStable(c, sh, sh', w, wk);
    } else if wk.Picked? || wk.Admitted? || wk.Clear? || wk.Settling? || wk.Holding? {
      AttemptStable(c, sh, sh', w, wk);
    } else if wk.Selected? || wk.Resolved? || wk.Decided? {
      DeciderStable(c, sh, sh', w, wk);
    } else if wk.Between? {
      BetweenStable(c, sh, sh', w, wk.pass);
    } else if !wk.Idle? && !wk.Exhausted? {
      SnapStable(sh, sh', wk.snap);
    }
  }

  /** One worker moves on; the shared state grew and the others keep what they rely on. */
  lemma PutKeeps(c: Config, s: System, sh': Shared, w: nat, wk: Worker)
    requires Inv(c, s) && SharedOk(c, sh') && Grows(s.sh, sh') && WorkerOk(c, sh', w, wk)
    requires forall v :: v != w && s.Of(v).Owning? ==> Quiet(s.sh, sh', s.Of(v).snap.revision)
    ensures Inv(c, s.PutWith(sh', w, wk))
  {
    assert ViewOk(c, s, w);
    var s' := s.PutWith(sh', w, wk);
    forall v: nat ensures ViewOk(c, s', v) {
      assert ViewOk(c, s, v);
      if v != w { WorkerStable(c, s.sh, sh', v, s.Of(v)); }
    }
  }

  /** The same for a step that starts no external call. */
  lemma PutWriteKeeps(c: Config, s: System, sh': Shared, w: nat, wk: Worker)
    requires Inv(c, s) && SharedOk(c, sh') && Grows(s.sh, sh') && WorkerOk(c, sh', w, wk)
    requires sh'.launches == s.sh.launches
    ensures Inv(c, s.PutWith(sh', w, wk))
  {
    assert ViewOk(c, s, w);
    PutKeeps(c, s, sh', w, wk);
  }

  lemma PutLocalKeeps(c: Config, s: System, w: nat, wk: Worker)
    requires Inv(c, s) && WorkerOk(c, s.sh, w, wk)
    ensures Inv(c, s.Put(w, wk))
  {
    assert ViewOk(c, s, w);
    PutKeeps(c, s, s.sh, w, wk);
    assert s.Put(w, wk) == s.PutWith(s.sh, w, wk);
  }

  // ---- What a current snapshot sees -----------------------------------------------------------

  lemma CurrentIsStored(c: Config, sh: Shared, snap: Stored)
    requires SharedOk(c, sh) && SnapOk(sh, snap)
    ensures snap == sh.stored <==> Current(sh, snap)
  {
  }

  /** The record of the current attempt is a record of the current revision. */
  lemma RecordOfCurrent(c: Config, sh: Shared, snap: Stored, n: nat, k: nat)
    requires SharedOk(c, sh) && SnapOk(sh, snap) && Current(sh, snap) && Attempting(snap)
    requires n == Ordinal(sh.history, snap.revision) && k < |sh.journal| && sh.journal[k].id == IdAt(snap, n)
    ensures sh.journal[k].revision == snap.revision
  {
    assert RecordOk(c, sh.history, sh.journal, sh.launches, k);
    OrdinalInjective(sh.history, sh.journal[k].revision, snap.revision);
  }

  /** Two records of one revision and step, other than context, belong to the same attempt. */
  lemma SameAttempt(c: Config, h: seq<Run>, j: seq<Record>, ls: seq<Launch>, i: nat, k: nat)
    requires JournalOk(c, h, j, ls) && i < |j| && k < |j|
    requires j[i].revision == j[k].revision && j[i].id.step != ContextStep
    ensures j[i].id == j[k].id
  {
    assert RecordOk(c, h, j, ls, i) && RecordOk(c, h, j, ls, k);
  }

  /** A pending intent of an earlier revision: there is none. */
  lemma EarlierIntentsAreAnswered(c: Config, sh: Shared, i: nat)
    requires SharedOk(c, sh) && i < |sh.journal| && sh.journal[i].stage == Intent
    requires sh.journal[i].id.step in {BuildStep, ValidationStep, ReviewStep, RepairStep}
    requires sh.journal[i].revision < |sh.history| - 1 && !Halting(sh.history[sh.journal[i].revision + 1].state)
    ensures Known(sh.journal, sh.journal[i].id, Outcome)
  {
    var h, j, p := sh.history, sh.journal, sh.journal[i].revision;
    assert RecordOk(c, h, j, sh.launches, i);
    assert LeftAt(c, h, j, p);
    var k: nat :| At(j, k, j[i].id.step, Outcome, p);
    SameAttempt(c, h, j, sh.launches, i, k);
  }

  lemma BoundaryIsOrdinal(c: Config, sh: Shared, snap: Stored, k: nat)
    requires SharedOk(c, sh) && SnapOk(sh, snap) && Attempting(snap)
    requires k < |sh.journal| && AtBoundary(sh.journal[k], snap, StepOf(snap.run.state).value)
    ensures sh.journal[k].id.seqno == Ordinal(sh.history, snap.revision)
  {
    assert RecordOk(c, sh.history, sh.journal, sh.launches, k);
  }

  lemma ClaimedIsAtBoundary(c: Config, sh: Shared, snap: Stored)
    requires SharedOk(c, sh) && SnapOk(sh, snap) && Attempting(snap)
    requires Recorded(sh.journal, StepOf(snap.run.state).value, Intent, snap.revision)
    ensures LastAtBoundary(sh.journal, snap, StepOf(snap.run.state).value).Some?
  {
    var k: nat :| At(sh.journal, k, StepOf(snap.run.state).value, Intent, snap.revision);
    assert RecordOk(c, sh.history, sh.journal, sh.launches, k);
    assert AtBoundary(sh.journal[k], snap, StepOf(snap.run.state).value);
  }

  lemma UnclaimedCount(c: Config, sh: Shared, snap: Stored)
    requires SharedOk(c, sh) && SnapOk(sh, snap) && Current(sh, snap) && Attempting(snap)
    requires LastAtBoundary(sh.journal, snap, StepOf(snap.run.state).value).None?
    ensures 1 + CountIntents(sh.journal, StepOf(snap.run.state).value) == Ordinal(sh.history, snap.revision)
  {
    var step := StepOf(snap.run.state).value;
    if Recorded(sh.journal, step, Intent, snap.revision) { ClaimedIsAtBoundary(c, sh, snap); }
    assert CountAt(sh.history, sh.journal, step);
  }

  /** An open intent of the current step is one of the current version. */
  lemma PendingIsCurrent(c: Config, sh: Shared, snap: Stored, i: nat)
    requires SharedOk(c, sh) && SnapOk(sh, snap) && Current(sh, snap) && i < |sh.journal|
    requires Attempting(snap) && snap.run.state != WorkspacePreparing
    requires sh.journal[i].stage == Intent && sh.journal[i].id.step == StepOf(snap.run.state).value
    requires !Known(sh.journal, sh.journal[i].id, Outcome)
    ensures AtBoundary(sh.journal[i], snap, StepOf(snap.run.state).value)
  {
    var j := sh.journal;
    assert RecordOk(c, sh.history, j, sh.launches, i);
    if j[i].revision < snap.revision {
      HistoryFacts(sh.history, sh.events, j[i].revision + 1);
      EarlierIntentsAreAnswered(c, sh, i);
    }
  }

  lemma NothingPending(c: Config, sh: Shared, snap: Stored)
    requires SharedOk(c, sh) && SnapOk(sh, snap) && Current(sh, snap)
    requires Attempting(snap) && snap.run.state != WorkspacePreparing
    requires LastAtBoundary(sh.journal, snap, StepOf(snap.run.state).value).None?
    ensures FirstPending(sh.journal, StepOf(snap.run.state).value, 0).None?
  {
    var j, step := sh.journal, StepOf(snap.run.state).value;
    if FirstPending(j, step, 0).Some? {
      var i: nat :| i < |j| && j[i].stage == Intent && j[i].id.step == step && !Known(j, j[i].id, Outcome);
      PendingIsCurrent(c, sh, snap, i);
    }
  }

  /** The allocator: on the current snapshot the next sequence number of a step is the ordinal of
      the visit, at every re-entry of the same revision. */
  lemma NextIsOrdinal(c: Config, sh: Shared, snap: Stored)
    requires SharedOk(c, sh) && SnapOk(sh, snap) && Current(sh, snap)
    requires Attempting(snap) && snap.run.state != WorkspacePreparing
    ensures NextSequence(sh.journal, snap, StepOf(snap.run.state).value) == Ordinal(sh.history, snap.revision)
  {
    var j, step := sh.journal, StepOf(snap.run.state).value;
    if LastAtBoundary(j, snap, step).Some? {
      var k :| 0 <= k < |j| && AtBoundary(j[k], snap, step) && j[k].id.seqno == LastAtBoundary(j, snap, step).value;
      BoundaryIsOrdinal(c, sh, snap, k);
    } else {
      NothingPending(c, sh, snap);
      UnclaimedCount(c, sh, snap);
    }
  }

  lemma PreviousValidation(c: Config, sh: Shared, snap: Stored) returns (k: nat)
    requires SharedOk(c, sh) && SnapOk(sh, snap) && Current(sh, snap) && snap.run.state == Reviewing
    ensures snap.revision > 0 && At(sh.journal, k, ValidationStep, Outcome, snap.revision - 1)
    ensures sh.journal[k].evidence.checked.Some? && sh.journal[k].evidence.checked.value.Approvable()
  {
    var q := snap.revision;
    HistoryFacts(sh.history, sh.events, q - 1);
    assert LeftAt(c, sh.history, sh.journal, q - 1);
    k :| At(sh.journal, k, ValidationStep, Outcome, q - 1) && sh.journal[k].evidence.checked.Some?
         && (sh.journal[k].evidence.checked.value.Approvable() <==> sh.history[q].state == Reviewing);
  }

  /** In a review the latest validation is the approvable one of the revision before. */
  lemma LatestIsPrevious(c: Config, sh: Shared, snap: Stored)
    requires SharedOk(c, sh) && SnapOk(sh, snap) && Current(sh, snap) && snap.run.state == Reviewing
    ensures HasApprovableValidation(sh.journal) && snap.revision > 0
    ensures var m := LatestValidation(sh.journal).value;
            At(sh.journal, m, ValidationStep, Outcome, snap.revision - 1)
            && BasisOk(sh.journal, snap.revision, sh.journal[m].evidence.checked)
  {
    var k := PreviousValidation(c, sh, snap);
    var m := LatestValidation(sh.journal).value;
    assert RecordOk(c, sh.history, sh.journal, sh.launches, m);
    assert k <= m && sh.journal[k].revision <= sh.journal[m].revision;
    SameAttempt(c, sh.history, sh.journal, sh.launches, k, m);
  }

  lemma CleanWhenReconciled(j: seq<Record>, q: nat)
    requires !Unresolved(j)
    ensures CleanBefore(j, q)
  {
  }

  // ---- Steps that write nothing ---------------------------------------------------------------

  lemma ReadRunKeeps(c: Config, s: System, w: nat)
    requires Inv(c, s) && Enabled(c, s, w, ReadRun)
    ensures Inv(c, DoReadRun(s, w))
  {
    assert ViewOk(c, s, w);
    HistoryFacts(s.sh.history, s.sh.events, |s.sh.events|);
    var wk := s.Of(w);
    var wk' := if s.sh.stored.run.state.Terminal() then Idle
               else if wk.pass < MAX_PASSES then Looping(s.sh.stored, wk.pass + 1)
               else Exhausted(s.sh.stored);
    PutLocalKeeps(c, s, w, wk');
  }

  lemma PickKeeps(c: Config, s: System, w: nat)
    requires Inv(c, s) && Enabled(c, s, w, Pick)
    ensures Inv(c, DoPick(s, w))
  {
    var sh, wk := s.sh, s.Of(w);
    assert ViewOk(c, s, w);
    var n := if wk.snap.run.state == WorkspacePreparing then 1
             else NextSequence(sh.journal, wk.snap, StepOf(wk.snap.run.state).value);
    if Current(sh, wk.snap) {
      if wk.snap.run.state == WorkspacePreparing {
        RankIsRevision(sh.history, sh.events, wk.snap.revision);
      } else {
        NextIsOrdinal(c, sh, wk.snap);
      }
    }
    PutLocalKeeps(c, s, w, Picked(wk.snap, wk.pass, n));
  }

  lemma AdmittedNumber(c: Config, s: System, w: nat, facts: RepairFacts)
    requires ViewOk(c, s, w) && Enabled(c, s, w, Admit(facts))
    ensures NumberOk(s.Of(w).snap, s.Of(w).seqno)
  {
    HistoryFacts(s.sh.history, s.sh.events, s.Of(w).snap.revision);
  }

  lemma AdmitKeeps(c: Config, s: System, w: nat, facts: RepairFacts)
    requires Inv(c, s) && Enabled(c, s, w, Admit(facts))
    ensures Inv(c, Apply(c, s, w, Admit(facts)))
  {
    var wk := s.Of(w);
    assert ViewOk(c, s, w);
    AdmittedIsOk(c, s, w, facts);
    PutLocalKeeps(c, s, w, Admitted(wk.snap, wk.pass, wk.seqno, BasisFor(s.sh, wk.snap)));
  }

  lemma AdmittedIsOk(c: Config, s: System, w: nat, facts: RepairFacts)
    requires ViewOk(c, s, w) && Enabled(c, s, w, Admit(facts))
    ensures var wk := s.Of(w);
            WorkerOk(c, s.sh, w, Admitted(wk.snap, wk.pass, wk.seqno, BasisFor(s.sh, wk.snap)))
  {
    var sh, snap := s.sh, s.Of(w).snap;
    if Current(sh, snap) && snap.run.state == Reviewing { LatestIsPrevious(c, sh, snap); }
    if snap.run.state == Repairing { CleanWhenReconciled(sh.journal, snap.revision); }
    AdmittedNumber(c, s, w, facts);
  }

  lemma LookKeeps(c: Config, s: System, w: nat)
    requires Inv(c, s) && Enabled(c, s, w, Look)
    ensures Inv(c, Apply(c, s, w, Look))
  {
    var sh, wk := s.sh, s.Of(w);
    assert ViewOk(c, s, w);
    var found := Find(sh.journal, IdAt(wk.snap, wk.seqno), Outcome);
    if found.Some? && Current(sh, wk.snap) { RecordOfCurrent(c, sh, wk.snap, wk.seqno, found.value); }
    PutLocalKeeps(c, s, w, LookAt(sh, wk.snap, wk.pass, wk.seqno, wk.basis));
  }

  /** An answer is what may be recorded of the attempt. */
  lemma AnswerIsEvidence(c: Config, s: System, w: nat, answer: Evidence)
    requires Inv(c, s) && Enabled(c, s, w, Respond(answer))
    ensures var wk := s.Of(w);
            WorkerOk(c, s.sh, w, Responded(wk.snap, wk.pass, wk.seqno, wk.at, answer, None))
  {
    assert ViewOk(c, s, w);
    if !Unresolved(s.sh.journal) { CleanWhenReconciled(s.sh.journal, s.Of(w).snap.revision); }
  }

  lemma RespondKeeps(c: Config, s: System, w: nat, answer: Evidence)
    requires Inv(c, s) && Enabled(c, s, w, Respond(answer))
    ensures Inv(c, Apply(c, s, w, Respond(answer)))
  {
    var wk := s.Of(w);
    AnswerIsEvidence(c, s, w, answer);
    PutLocalKeeps(c, s, w, Responded(wk.snap, wk.pass, wk.seqno, wk.at, answer, None));
  }

  /** `execute`, `reconcile` and `cancel` start from the current version, or not at all. */
  lemma StartingKeeps(c: Config, s: System, w: nat, wk: Worker)
    requires Inv(c, s)
    requires wk in {Idle, Starting(s.sh.stored), Inspecting(s.sh.stored), Stopping(s.sh.stored)}
    requires wk.Idle? || !s.sh.stored.run.state.Terminal()
    ensures Inv(c, s.Put(w, wk))
  {
    assert ViewOk(c, s, w);
    PutLocalKeeps(c, s, w, wk);
  }

  lemma FinishPreludeKeeps(c: Config, s: System, w: nat)
    requires Inv(c, s)
    ensures Inv(c, s.Put(w, Between(0)))
  {
    assert ViewOk(c, s, w);
    HistoryFacts(s.sh.history, s.sh.events, |s.sh.events|);
    PutLocalKeeps(c, s, w, Between(0));
  }

  lemma ConfirmKeeps(c: Config, s: System, w: nat)
    requires Inv(c, s) && Enabled(c, s, w, Confirm)
    ensures Inv(c, Apply(c, s, w, Confirm))
  {
    var wk := s.Of(w);
    assert ViewOk(c, s, w);
    PutLocalKeeps(c, s, w, if wk.snap == s.sh.stored then wk.(phase := Confirmed) else Idle);
  }

  lemma EnterContextKeeps(c: Config, s: System, w: nat)
    requires Inv(c, s) && Enabled(c, s, w, EnterContext)
    ensures Inv(c, Apply(c, s, w, EnterContext))
  {
    var wk := s.Of(w);
    assert ViewOk(c, s, w);
    PutLocalKeeps(c, s, w, ContextAt(wk.snap, wk.pass, 1));
  }

  lemma SelectPendingKeeps(c: Config, s: System, w: nat)
    requires Inv(c, s) && Enabled(c, s, w, SelectPending)
    ensures Inv(c, DoSelectPending(s, w))
  {
    var wk := s.Of(w);
    assert ViewOk(c, s, w);
    match FirstIncomplete(s.sh.journal, 0)
    case None => PutLocalKeeps(c, s, w, Idle);
    case Some(at) => PutLocalKeeps(c, s, w, Selected(wk.snap, at));
  }

  // ---- Requests -------------------------------------------------------------------------------

  lemma NotAValidation(c: Config, sh: Shared, k: nat)
    requires SharedOk(c, sh) && Rank(sh.stored.run.state).Some? && k < |sh.journal|
    ensures sh.journal[k].id.step != ValidationStep
  {
    assert RecordOk(c, sh.history, sh.journal, sh.launches, k);
    RankIsRevision(sh.history, sh.events, |sh.events|);
    NoValidationEarly(sh.history, sh.events, sh.journal[k].revision);
  }

  /** Before validation starts, duration is never denied. */
  lemma DurationFree(c: Config, sh: Shared)
    requires SharedOk(c, sh) && Rank(sh.stored.run.state).Some?
    ensures !DurationDenied(sh, sh.stored.run.budgets)
  {
    var h, j, q := sh.history, sh.journal, |sh.events|;
    HistoryFacts(h, sh.events, q);
    forall k: nat | k < |j| ensures j[k].id.step != ValidationStep { NotAValidation(c, sh, k); }
    NothingUsed(sh.ledger.usage, T.PreflightMetrics(T.TotalDuration));
    NothingReserved(sh.ledger.reservations, T.TotalDuration);
  }

  lemma {:induction false} NoValidationEarly(h: seq<Run>, ev: seq<Event>, i: nat)
    requires HistoryOk(h, ev) && i < |h| && i <= 4
    ensures h[i].state != Validating
  {
    if h[i].state == Validating {
      assert i > 0;
      HistoryFacts(h, ev, i - 1);
      if h[i - 1].state == Building {
        RankIsRevision(h, ev, i - 1);
      } else {
        assert h[i - 1].state == Repairing;
        NoRepairEarly(h, ev, i - 1);
      }
    }
  }

  lemma {:induction false} NoRepairEarly(h: seq<Run>, ev: seq<Event>, i: nat)
    requires HistoryOk(h, ev) && i < |h| && i <= 3
    ensures h[i].state !in {Repairing, Reviewing, Validating}
  {
    if i > 0 {
      HistoryFacts(h, ev, i - 1);
      NoRepairEarly(h, ev, i - 1);
      if h[i - 1].state == Building { RankIsRevision(h, ev, i - 1); }
    }
  }

  lemma {:induction false} NothingUsed(us: seq<T.Usage>, ms: set<T.UsageMetric>)
    requires forall u :: u in us ==> u.metric !in ms
    ensures T.UsedIn(us, ms) == 0
  {
    if us != [] {
      NothingUsed(us[..|us| - 1], ms);
    }
  }

  lemma {:induction false} NothingReserved(rs: seq<T.Reservation>, m: T.Metric)
    requires forall r :: r in rs ==> r.metric != m
    ensures T.ReservedWith(rs, m, T.Active) == 0
  {
    if rs != [] {
      NothingReserved(rs[..|rs| - 1], m);
    }
  }

  lemma LoopJustified(c: Config, sh: Shared, snap: Stored, req: Request)
    requires SharedOk(c, sh) && SnapOk(sh, snap) && Current(sh, snap) && LoopRequests(sh, snap, req)
    ensures Justified(c, sh, snap, req)
  {
    if req == Plain(Failed) && Failed !in Permitted(snap.run.state) {
      DurationFree(c, sh);
    }
  }

  lemma RepairsLeft(c: Config, sh: Shared, snap: Stored)
    requires SharedOk(c, sh) && SnapOk(sh, snap) && Current(sh, snap) && snap.run.state in {Validating, Reviewing}
    requires !RepairsUsedUp(sh, snap)
    ensures snap.run.attempts.repair < snap.run.budgets.maxRepair
  {
    CountersAreVisits(sh.history, sh.events, snap.revision);
    assert CountAt(sh.history, sh.journal, RepairStep);
    if Recorded(sh.journal, RepairStep, Intent, snap.revision) {
      RecordedStep(c, sh.history, sh.journal, sh.launches, RepairStep, Intent, snap.revision);
    }
  }

  lemma HoldingJustified(c: Config, sh: Shared, snap: Stored, at: nat, own: bool, req: Request)
    requires SharedOk(c, sh) && SnapOk(sh, snap) && Current(sh, snap) && Attempting(snap)
    requires HoldingOk(sh, snap, at) && OutcomeRequests(sh, snap, sh.journal[at].evidence, own, req)
    ensures Justified(c, sh, snap, req)
  {
    var h, j, q := sh.history, sh.journal, snap.revision;
    HoldingAsks(c, sh, snap, at, own, req);
    assert RecordOk(c, h, j, sh.launches, at);
    assert At(j, at, StepOf(snap.run.state).value, Outcome, q);
    match snap.run.state
    case Validating =>
      if req.destination == Repairing { RepairsLeft(c, sh, snap); }
      if !Halting(req.destination) { assert ValidationLeft(j, q, req.destination); }
    case Reviewing =>
      if req.destination == Repairing { RepairsLeft(c, sh, snap); }
      if !Halting(req.destination) { assert ReviewLeft(j, q, req.destination, req.gate); }
    case _ =>
  }

  lemma ResolvedJustified(c: Config, sh: Shared, snap: Stored, at: nat, safe: bool, req: Request)
    requires SharedOk(c, sh) && SnapOk(sh, snap) && Current(sh, snap) && StepOf(snap.run.state).Some?
    requires At(sh.journal, at, StepOf(snap.run.state).value, Intent, snap.revision)
    requires safe ==> Reconciled(sh.journal, snap.revision)
    requires ResolvedRequests(sh.journal[at], safe, req)
    ensures Justified(c, sh, snap, req)
  {
  }

  lemma ContextJustified(c: Config, sh: Shared, snap: Stored, pass: nat, n: nat, req: Request)
    requires ContextOk(sh, snap, pass) && Current(sh, snap) && ContextsDone(sh.journal, n)
    requires req == Plain(if n > c.contexts then WorkspacePreparing else Blocked)
    ensures Justified(c, sh, snap, req)
  {
    if n > c.contexts { FewerContexts(sh.journal, c.contexts + 1, n); }
  }

  /** Whatever a worker asks of the current version, the state machine accepts, and it goes on
      only on evidence in the journal. */
  lemma RequestsAreJustified(c: Config, sh: Shared, w: nat, wk: Worker, req: Request)
    requires SharedOk(c, sh) && WorkerOk(c, sh, w, wk) && Requests(c, sh, wk, req) && Current(sh, wk.snap)
    ensures Justified(c, sh, wk.snap, req)
  {
    match wk
    case Looping(snap, _) => LoopJustified(c, sh, snap, req);
    case Holding(snap, _, _, at, own) => HoldingJustified(c, sh, snap, at, own, req);
    case Resolved(snap, at, safe) => ResolvedJustified(c, sh, snap, at, safe, req);
    case ContextAt(snap, pass, n) => ContextJustified(c, sh, snap, pass, n, req);
    case _ =>
  }

  lemma HoldingAsks(c: Config, sh: Shared, snap: Stored, at: nat, own: bool, req: Request)
    requires SharedOk(c, sh) && Attempting(snap) && HoldingOk(sh, snap, at)
    requires OutcomeRequests(sh, snap, sh.journal[at].evidence, own, req)
    ensures Acceptable(snap.run, req)
  {
    assert RecordOk(c, sh.history, sh.journal, sh.launches, at);
  }

  /** Even on a stale version a worker asks for what the state machine takes, one case apart. */
  lemma RequestsAreAskable(c: Config, sh: Shared, w: nat, wk: Worker, req: Request)
    requires SharedOk(c, sh) && WorkerOk(c, sh, w, wk) && Requests(c, sh, wk, req)
    ensures Askable(wk.snap, req)
  {
    match wk
    case Holding(snap, _, _, at, own) => HoldingAsks(c, sh, snap, at, own, req);
    case _ =>
  }

  lemma DecidedIsOk(c: Config, s: System, w: nat, req: Request)
    requires Inv(c, s) && Enabled(c, s, w, Decide(req))
    ensures WorkerOk(c, s.sh, w, Decided(s.Of(w).snap, req, GoesOn(s.Of(w), req.destination)))
  {
    var sh, wk := s.sh, s.Of(w);
    assert ViewOk(c, s, w);
    RequestsAreAskable(c, sh, w, wk, req);
    if Current(sh, wk.snap) { RequestsAreJustified(c, sh, w, wk, req); }
  }

  lemma DecideKeeps(c: Config, s: System, w: nat, req: Request)
    requires Inv(c, s) && Enabled(c, s, w, Decide(req))
    ensures Inv(c, Apply(c, s, w, Decide(req)))
  {
    DecidedIsOk(c, s, w, req);
    PutLocalKeeps(c, s, w, Decided(s.Of(w).snap, req, GoesOn(s.Of(w), req.destination)));
  }

  // ---- Journaling -----------------------------------------------------------------------------

  /** What was started at a revision had been claimed there. */
  lemma LaunchedIsClaimed(c: Config, sh: Shared, snap: Stored, n: nat)
    requires SharedOk(c, sh) && SnapOk(sh, snap) && Attempting(snap)
    requires n == Ordinal(sh.history, snap.revision) && LaunchedAt(sh.launches, snap.revision)
    ensures Known(sh.journal, IdAt(snap, n), Intent)
  {
    var i: nat :| i < |sh.launches| && sh.launches[i].revision == snap.revision;
    var x := sh.launches[i];
    assert LaunchOk(sh.journal, sh.ledger, x);
    var k: nat :| IntentOf(sh.journal, k, x.id, x.revision) && sh.journal[k].writer == x.worker;
    assert RecordOk(c, sh.history, sh.journal, sh.launches, k);
    assert sh.journal[k].id == IdAt(snap, n);
  }

  /** An intent is journaled, or found there already. */
  lemma IntentKeeps(c: Config, s: System, w: nat, snap: Stored, pass: nat, n: nat, basis: Option<Checked>)
    requires Inv(c, s) && AttemptOk(s.sh, snap, pass, n) && AdmittedOk(s.sh, snap, basis) && n <= MAX_ATTEMPT_SEQUENCE
    requires TryWrite(s.sh, snap, IdAt(snap, n), Intent, IntentEvidence(basis)) != WriteRefused
    ensures var sh' := Written(s.sh, w, snap, IdAt(snap, n), Intent, IntentEvidence(basis));
            var written := TryWrite(s.sh, snap, IdAt(snap, n), Intent, IntentEvidence(basis));
            var at := if written == NewRecord then |s.sh.journal| else Find(s.sh.journal, IdAt(snap, n), Intent).value;
            SharedOk(c, sh') && Grows(s.sh, sh') && sh'.launches == s.sh.launches
            && AttemptOk(sh', snap, pass, n) && AdmittedOk(sh', snap, basis)
            && IntentOf(sh'.journal, at, IdAt(snap, n), snap.revision)
  {
    assert ViewOk(c, s, w);
    var sh, id, ev := s.sh, IdAt(snap, n), IntentEvidence(basis);
    CurrentIsStored(c, sh, snap);
    if TryWrite(sh, snap, id, Intent, ev) == NewRecord {
      AppendKeeps(c, sh, w, id, Intent, ev);
      AdmittedStable(sh, Append(sh, w, snap, id, Intent, ev), snap, basis);
    } else {
      RecordOfCurrent(c, sh, snap, n, Find(sh.journal, id, Intent).value);
    }
  }

  lemma ClaimKeeps(c: Config, s: System, w: nat)
    requires Inv(c, s) && Enabled(c, s, w, Claim)
    ensures Inv(c, DoClaim(s, w))
  {
    var sh, wk := s.sh, s.Of(w);
    var snap := wk.snap;
    assert ViewOk(c, s, w);
    var id, ev := IdAt(snap, wk.seqno), IntentEvidence(wk.basis);
    if TryWrite(sh, snap, id, Intent, ev) == NewRecord {
      IntentKeeps(c, s, w, snap, wk.pass, wk.seqno, wk.basis);
      if LaunchedAt(sh.launches, snap.revision) { LaunchedIsClaimed(c, sh, snap, wk.seqno); }
      PutWriteKeeps(c, s, Append(sh, w, snap, id, Intent, ev), w,
               Owning(snap, wk.pass, wk.seqno, |sh.journal|, wk.basis, Claimed));
    } else {
      PutLocalKeeps(c, s, w, Idle);
    }
  }

  lemma RefuseIntentKeeps(c: Config, s: System, w: nat)
    requires Inv(c, s) && Enabled(c, s, w, RefuseIntent)
    ensures Inv(c, DoRefuseIntent(s, w))
  {
    var sh, wk := s.sh, s.Of(w);
    var snap := wk.snap;
    assert ViewOk(c, s, w);
    var id, ev := IdAt(snap, wk.seqno), IntentEvidence(None);
    if TryWrite(sh, snap, id, Intent, ev) == WriteRefused {
      PutLocalKeeps(c, s, w, Idle);
    } else {
      IntentKeeps(c, s, w, snap, wk.pass, wk.seqno, None);
      PutWriteKeeps(c, s, Written(sh, w, snap, id, Intent, ev), w, Refusing(snap, wk.pass, wk.seqno));
    }
  }

  /** An outcome is journaled, or found there already. */
  lemma OutcomeKeeps(c: Config, s: System, w: nat, snap: Stored, pass: nat, n: nat, ev: Evidence)
    requires Inv(c, s) && AttemptOk(s.sh, snap, pass, n) && Room(snap.run) && AnswerOk(s.sh, snap, n, ev)
    requires exists k: nat :: IntentOf(s.sh.journal, k, IdAt(snap, n), snap.revision)
    requires TryWrite(s.sh, snap, IdAt(snap, n), Outcome, ev) != WriteRefused
    ensures var sh' := Written(s.sh, w, snap, IdAt(snap, n), Outcome, ev);
            var at := if TryWrite(s.sh, snap, IdAt(snap, n), Outcome, ev) == NewRecord then |s.sh.journal|
                      else Find(s.sh.journal, IdAt(snap, n), Outcome).value;
            SharedOk(c, sh') && Grows(s.sh, sh') && sh'.launches == s.sh.launches
            && AttemptOk(sh', snap, pass, n) && HoldingOk(sh', snap, at)
  {
    assert ViewOk(c, s, w);
    var sh, id := s.sh, IdAt(snap, n);
    CurrentIsStored(c, sh, snap);
    if TryWrite(sh, snap, id, Outcome, ev) == NewRecord {
      var k: nat :| IntentOf(sh.journal, k, id, snap.revision);
      assert RecordOk(c, sh.history, sh.journal, sh.launches, k);
      AppendKeeps(c, sh, w, id, Outcome, ev);
    } else {
      RecordOfCurrent(c, sh, snap, n, Find(sh.journal, id, Outcome).value);
    }
  }

  lemma RefusalIsAnswer(sh: Shared, snap: Stored, n: nat, basis: Option<Checked>)
    requires Attempting(snap) && AdmittedOk(sh, snap, basis)
    ensures AnswerOk(sh, snap, n, RefusalEvidence(if snap.run.state == Reviewing then basis else None))
  {
  }

  lemma RefusalRecordKeeps(c: Config, s: System, w: nat)
    requires Inv(c, s) && Enabled(c, s, w, RefuseOutcome)
    requires var wk := s.Of(w);
             TryWrite(s.sh, wk.snap, IdAt(wk.snap, wk.seqno), Outcome, RefusalEvidence(None)) == NewRecord
    ensures var wk := s.Of(w);
            var sh' := Append(s.sh, w, wk.snap, IdAt(wk.snap, wk.seqno), Outcome, RefusalEvidence(None));
            Inv(c, s.PutWith(sh', w, Holding(wk.snap, wk.pass, wk.seqno, |s.sh.journal|, true)))
  {
    var sh, wk := s.sh, s.Of(w);
    var snap := wk.snap;
    assert ViewOk(c, s, w);
    RefusalIsAnswer(sh, snap, wk.seqno, None);
    OutcomeKeeps(c, s, w, snap, wk.pass, wk.seqno, RefusalEvidence(None));
    PutWriteKeeps(c, s, Append(sh, w, snap, IdAt(snap, wk.seqno), Outcome, RefusalEvidence(None)), w,
                  Holding(snap, wk.pass, wk.seqno, |sh.journal|, true));
  }

  lemma RefuseOutcomeKeeps(c: Config, s: System, w: nat)
    requires Inv(c, s) && Enabled(c, s, w, RefuseOutcome)
    ensures Inv(c, DoRefuseOutcome(s, w))
  {
    var sh, wk := s.sh, s.Of(w);
    var snap := wk.snap;
    assert ViewOk(c, s, w);
    var id, ev := IdAt(snap, wk.seqno), RefusalEvidence(None);
    RefusalIsAnswer(sh, snap, wk.seqno, None);
    match TryWrite(sh, snap, id, Outcome, ev)
    case WriteRefused => PutLocalKeeps(c, s, w, Idle);
    case NewRecord => RefusalRecordKeeps(c, s, w);
    case Existing =>
      OutcomeKeeps(c, s, w, snap, wk.pass, wk.seqno, ev);
      PutLocalKeeps(c, s, w, Holding(snap, wk.pass, wk.seqno, Find(sh.journal, id, Outcome).value, true));
  }

  lemma NewOutcomeOk(c: Config, sh: Shared, w: nat, snap: Stored, pass: nat, n: nat, at: nat, denied: Option<T.Verdict>)
    requires |sh.history| > 0 && AttemptOk(sh, snap, pass, n) && HoldingOk(sh, snap, at)
    ensures WorkerOk(c, sh, w, NewOutcome(snap, pass, n, at, denied))
  {
  }

  lemma PersistOutcomeKeeps(c: Config, s: System, w: nat)
    requires Inv(c, s) && Enabled(c, s, w, PersistOutcome)
    ensures Inv(c, DoPersistOutcome(s, w))
  {
    var sh, wk := s.sh, s.Of(w);
    var snap := wk.snap;
    assert ViewOk(c, s, w);
    var id, ev := IdAt(snap, wk.seqno), wk.answer;
    match TryWrite(sh, snap, id, Outcome, ev)
    case WriteRefused => PutLocalKeeps(c, s, w, Idle);
    case NewRecord =>
      OutcomeKeeps(c, s, w, snap, wk.pass, wk.seqno, ev);
      var sh' := Append(sh, w, snap, id, Outcome, ev);
      NewOutcomeOk(c, sh', w, snap, wk.pass, wk.seqno, |sh.journal|, wk.denied);
      PutWriteKeeps(c, s, sh', w, NewOutcome(snap, wk.pass, wk.seqno, |sh.journal|, wk.denied));
    case Existing =>
      OutcomeKeeps(c, s, w, snap, wk.pass, wk.seqno, ev);
      var at := Find(sh.journal, id, Outcome).value;
      NewOutcomeOk(c, sh, w, snap, wk.pass, wk.seqno, at, wk.denied);
      PutLocalKeeps(c, s, w, NewOutcome(snap, wk.pass, wk.seqno, at, wk.denied));
  }

  // ---- Context --------------------------------------------------------------------------------

  lemma ContextRecord(c: Config, sh: Shared, snap: Stored, k: nat, n: nat)
    requires SharedOk(c, sh) && SnapOk(sh, snap) && snap.run.state == ContextPreparing
    requires k < |sh.journal| && sh.journal[k].id == AttemptId(ContextStep, n)
    ensures sh.journal[k].revision == snap.revision && 1 <= n <= c.contexts && n <= MAX_ATTEMPT_SEQUENCE
  {
    assert RecordOk(c, sh.history, sh.journal, sh.launches, k);
    RankIsRevision(sh.history, sh.events, sh.journal[k].revision);
    RankIsRevision(sh.history, sh.events, snap.revision);
  }

  /** The intent of a context attempt is journaled. */
  lemma ContextClaimKeeps(c: Config, s: System, w: nat, snap: Stored, pass: nat, n: nat)
    requires Inv(c, s) && ContextOk(s.sh, snap, pass) && 1 <= n <= c.contexts && n <= MAX_ATTEMPT_SEQUENCE
    requires Current(s.sh, snap) ==> ContextsDone(s.sh.journal, n)
    requires TryWrite(s.sh, snap, AttemptId(ContextStep, n), Intent, IntentEvidence(None)) == NewRecord
    ensures var sh' := Append(s.sh, w, snap, AttemptId(ContextStep, n), Intent, IntentEvidence(None));
            Inv(c, s.PutWith(sh', w, ContextSelecting(snap, pass, n)))
  {
    assert ViewOk(c, s, w);
    var sh, id, ev := s.sh, AttemptId(ContextStep, n), IntentEvidence(None);
    CurrentIsStored(c, sh, snap);
    AppendKeeps(c, sh, w, id, Intent, ev);
    var sh' := Append(sh, w, snap, id, Intent, ev);
    ContextsStable(sh, sh', n);
    assert IntentOf(sh'.journal, |sh.journal|, id, snap.revision);
    PutWriteKeeps(c, s, sh', w, ContextSelecting(snap, pass, n));
  }

  lemma ContextFound(c: Config, sh: Shared, w: nat, snap: Stored, pass: nat, n: nat)
    requires SharedOk(c, sh) && WorkerOk(c, sh, w, ContextAt(snap, pass, n)) && n <= c.contexts
    ensures Known(sh.journal, AttemptId(ContextStep, n), Intent) ==> WorkerOk(c, sh, w, ContextSelecting(snap, pass, n))
    ensures ContextDone(sh.journal, n) ==> WorkerOk(c, sh, w, ContextAt(snap, pass, n + 1))
  {
    var id := AttemptId(ContextStep, n);
    if Known(sh.journal, id, Intent) {
      var k: nat :| k < |sh.journal| && sh.journal[k].id == id && sh.journal[k].stage == Intent;
      ContextRecord(c, sh, snap, k, n);
      assert IntentOf(sh.journal, k, id, snap.revision);
    }
  }

  lemma LookContextFoundDone(c: Config, s: System, w: nat, at: nat)
    requires Inv(c, s) && Enabled(c, s, w, LookContext)
    requires Find(s.sh.journal, AttemptId(ContextStep, s.Of(w).seqno), Outcome) == Some(at)
    requires s.sh.journal[at].evidence.status == Completed
    ensures Inv(c, DoLookContext(s, w))
  {
    var wk := s.Of(w);
    assert ViewOk(c, s, w);
    assert ContextDone(s.sh.journal, wk.seqno);
    PutLocalKeeps(c, s, w, ContextAt(wk.snap, wk.pass, wk.seqno + 1));
  }

  lemma LookContextFoundBad(c: Config, s: System, w: nat, at: nat)
    requires Inv(c, s) && Enabled(c, s, w, LookContext)
    requires Find(s.sh.journal, AttemptId(ContextStep, s.Of(w).seqno), Outcome) == Some(at)
    requires s.sh.journal[at].evidence.status != Completed
    ensures Inv(c, DoLookContext(s, w))
  {
    var wk := s.Of(w);
    assert ViewOk(c, s, w);
    PutLocalKeeps(c, s, w, ContextFailed(wk.snap, wk.pass, true));
  }

  lemma ContextFoundKeeps(c: Config, s: System, w: nat)
    requires Inv(c, s) && Enabled(c, s, w, LookContext)
    requires Known(s.sh.journal, AttemptId(ContextStep, s.Of(w).seqno), Intent)
    ensures Inv(c, s.Put(w, ContextSelecting(s.Of(w).snap, s.Of(w).pass, s.Of(w).seqno)))
  {
    var wk := s.Of(w);
    assert ViewOk(c, s, w);
    ContextFound(c, s.sh, w, wk.snap, wk.pass, wk.seqno);
    PutLocalKeeps(c, s, w, ContextSelecting(wk.snap, wk.pass, wk.seqno));
  }

  lemma LookContextMissing(c: Config, s: System, w: nat)
    requires Inv(c, s) && Enabled(c, s, w, LookContext)
    requires Find(s.sh.journal, AttemptId(ContextStep, s.Of(w).seqno), Outcome).None?
    ensures Inv(c, DoLookContext(s, w))
  {
    var sh, snap, n := s.sh, s.Of(w).snap, s.Of(w).seqno;
    var id := AttemptId(ContextStep, n);
    if Known(sh.journal, id, Intent) {
      ContextFoundKeeps(c, s, w);
    } else if n <= MAX_ATTEMPT_SEQUENCE && TryWrite(sh, snap, id, Intent, IntentEvidence(None)) == NewRecord {
      assert ViewOk(c, s, w);
      ContextClaimKeeps(c, s, w, snap, s.Of(w).pass, n);
    } else {
      PutLocalKeeps(c, s, w, Idle);
    }
  }

  lemma LookContextKeeps(c: Config, s: System, w: nat)
    requires Inv(c, s) && Enabled(c, s, w, LookContext)
    ensures Inv(c, DoLookContext(s, w))
  {
    assert ViewOk(c, s, w);
    match Find(s.sh.journal, AttemptId(ContextStep, s.Of(w).seqno), Outcome)
    case Some(at) =>
      if s.sh.journal[at].evidence.status == Completed {
        LookContextFoundDone(c, s, w, at);
      } else {
        LookContextFoundBad(c, s, w, at);
      }
    case None => LookContextMissing(c, s, w);
  }

  /** The outcome of a context attempt is journaled, or found there already. */
  lemma ContextOutcomeKeeps(c: Config, s: System, w: nat, snap: Stored, pass: nat, n: nat, ev: Evidence)
    requires Inv(c, s) && WorkerOk(c, s.sh, w, ContextSelecting(snap, pass, n))
    requires ev == Evidence(ev.status, KnownNone, None, None, false) && ev.status != Intended
    requires TryWrite(s.sh, snap, AttemptId(ContextStep, n), Outcome, ev) != WriteRefused
    ensures var sh' := Written(s.sh, w, snap, AttemptId(ContextStep, n), Outcome, ev);
            SharedOk(c, sh') && Grows(s.sh, sh') && sh'.launches == s.sh.launches && ContextsDone(sh'.journal, n)
            && (ev.status == Completed ==> ContextDone(sh'.journal, n))
  {
    assert ViewOk(c, s, w);
    var sh, id := s.sh, AttemptId(ContextStep, n);
    CurrentIsStored(c, sh, snap);
    if TryWrite(sh, snap, id, Outcome, ev) == NewRecord {
      AppendKeeps(c, sh, w, id, Outcome, ev);
      var sh' := Append(sh, w, snap, id, Outcome, ev);
      ContextsStable(sh, sh', n);
      assert sh'.journal[|sh.journal|].id == id;
    } else {
      var at := Find(sh.journal, id, Outcome).value;
      assert sh.journal[at].evidence == ev;
    }
  }

  lemma SelectContextRefused(c: Config, s: System, w: nat, status: AttemptStatus)
    requires Inv(c, s) && Enabled(c, s, w, SelectContext(status))
    requires TryWrite(s.sh, s.Of(w).snap, AttemptId(ContextStep, s.Of(w).seqno), Outcome,
                      Evidence(status, KnownNone, None, None, false)) == WriteRefused
    ensures Inv(c, DoSelectContext(s, w, status))
  {
    assert ViewOk(c, s, w);
    PutLocalKeeps(c, s, w, Idle);
  }

  lemma NextContextKeeps(c: Config, s: System, sh': Shared, w: nat, snap: Stored, pass: nat, n: nat,
                         status: AttemptStatus)
    requires Inv(c, s) && SharedOk(c, sh') && Grows(s.sh, sh') && sh'.launches == s.sh.launches
    requires ContextOk(s.sh, snap, pass) && 1 <= n && ContextsDone(sh'.journal, n)
    requires status == Completed ==> ContextDone(sh'.journal, n)
    ensures Inv(c, s.PutWith(sh', w, NextContext(snap, pass, n, status)))
  {
    assert ViewOk(c, s, w);
    SnapStable(s.sh, sh', snap);
    PutWriteKeeps(c, s, sh', w, NextContext(snap, pass, n, status));
  }

  lemma SelectContextWritten(c: Config, s: System, w: nat, status: AttemptStatus)
    requires Inv(c, s) && Enabled(c, s, w, SelectContext(status))
    requires TryWrite(s.sh, s.Of(w).snap, AttemptId(ContextStep, s.Of(w).seqno), Outcome,
                      Evidence(status, KnownNone, None, None, false)) != WriteRefused
    ensures Inv(c, DoSelectContext(s, w, status))
  {
    var wk := s.Of(w);
    assert ViewOk(c, s, w);
    var ev := Evidence(status, KnownNone, None, None, false);
    ContextOutcomeKeeps(c, s, w, wk.snap, wk.pass, wk.seqno, ev);
    var sh' := Written(s.sh, w, wk.snap, AttemptId(ContextStep, wk.seqno), Outcome, ev);
    NextContextKeeps(c, s, sh', w, wk.snap, wk.pass, wk.seqno, status);
  }

  /** A reconciliation is journaled, or found there already. */
  lemma ReconciliationKeeps(c: Config, s: System, w: nat, snap: Stored, at: nat, ev: Evidence) returns (k: nat)
    requires Inv(c, s) && SnapOk(s.sh, snap) && at < |s.sh.journal| && s.sh.journal[at].stage == Intent
    requires s.sh.journal[at].expected == snap.run.state && s.sh.journal[at].revision == snap.revision
    requires exists effects :: ev == ReconciliationEvidence(s.sh.journal[at], effects)
    requires TryWrite(s.sh, snap, s.sh.journal[at].id, Reconciliation, ev) != WriteRefused
    ensures var sh' := Written(s.sh, w, snap, s.sh.journal[at].id, Reconciliation, ev);
            && SharedOk(c, sh') && Grows(s.sh, sh') && sh'.launches == s.sh.launches
            && k < |sh'.journal| && sh'.journal[k].id == s.sh.journal[at].id && sh'.journal[k].stage == Reconciliation
            && sh'.journal[k].evidence == ev
  {
    assert ViewOk(c, s, w);
    var sh, intent := s.sh, s.sh.journal[at];
    CurrentIsStored(c, sh, snap);
    assert RecordOk(c, sh.history, sh.journal, sh.launches, at);
    assert IntentOf(sh.journal, at, intent.id, snap.revision);
    if TryWrite(sh, snap, intent.id, Reconciliation, ev) == NewRecord {
      AppendKeeps(c, sh, w, intent.id, Reconciliation, ev);
      k := |sh.journal|;
    } else {
      k := Find(sh.journal, intent.id, Reconciliation).value;
    }
  }

  lemma ResolvedOk(c: Config, sh: Shared, sh': Shared, w: nat, snap: Stored, at: nat, k: nat)
    requires SharedOk(c, sh) && SharedOk(c, sh') && Grows(sh, sh') && SnapOk(sh, snap)
    requires at < |sh.journal| && sh.journal[at].stage == Intent
    requires sh.journal[at].expected == snap.run.state && sh.journal[at].revision == snap.revision
    requires k < |sh'.journal| && sh'.journal[k].id == sh.journal[at].id && sh'.journal[k].stage == Reconciliation
    ensures WorkerOk(c, sh', w, Resolved(snap, at, sh'.journal[k].evidence.safe))
  {
    assert RecordOk(c, sh.history, sh.journal, sh.launches, at);
    PrefixAt(sh.journal, sh'.journal, at);
    SnapStable(sh, sh', snap);
    if sh'.journal[k].evidence.safe {
      assert RecordOk(c, sh'.history, sh'.journal, sh'.launches, k);
      assert RecordOk(c, sh'.history, sh'.journal, sh'.launches, at);
      OrdinalInjective(sh'.history, sh'.journal[k].revision, snap.revision);
      assert At(sh'.journal, k, WorkspaceStep, Reconciliation, snap.revision);
    }
  }

  lemma ReconcileKeeps(c: Config, s: System, w: nat, effects: Effects)
    requires Inv(c, s) && Enabled(c, s, w, Reconcile(effects))
    ensures Inv(c, DoReconcile(s, w, effects))
  {
    var sh, wk := s.sh, s.Of(w);
    assert ViewOk(c, s, w);
    var intent := sh.journal[wk.at];
    var ev := ReconciliationEvidence(intent, effects);
    if TryWrite(sh, wk.snap, intent.id, Reconciliation, ev) == WriteRefused {
      PutLocalKeeps(c, s, w, Idle);
    } else {
      var k := ReconciliationKeeps(c, s, w, wk.snap, wk.at, ev);
      ResolvedOk(c, sh, Written(sh, w, wk.snap, intent.id, Reconciliation, ev), w, wk.snap, wk.at, k);
      PutWriteKeeps(c, s, Written(sh, w, wk.snap, intent.id, Reconciliation, ev), w, Resolved(wk.snap, wk.at, ev.safe));
    }
  }

  // ---- Ledger and launches --------------------------------------------------------------------

  lemma SettleStepKeeps(c: Config, s: System, w: nat, op: T.Op, snap: Stored, wk': Worker)
    requires Inv(c, s) && SnapOk(s.sh, snap) && WorkerOk(c, s.sh, w, wk') && !wk'.Owning?
    requires op.SettleAttempt? || op.SettleDuration? || op.MarkUnresolved?
    ensures Inv(c, s.PutWith(s.sh.(ledger := T.Apply(s.sh.ledger, LimitsOf(snap.run.budgets), op)), w, wk'))
  {
    assert ViewOk(c, s, w);
    var limits := LimitsOf(snap.run.budgets);
    HistoryFacts(s.sh.history, s.sh.events, snap.revision);
    SettleKeepsShared(c, s.sh, limits, op);
    var sh' := s.sh.(ledger := T.Apply(s.sh.ledger, limits, op));
    WorkerStable(c, s.sh, sh', w, wk');
    PutWriteKeeps(c, s, sh', w, wk');
  }

  lemma SettleKeeps(c: Config, s: System, w: nat, op: T.Op)
    requires Inv(c, s) && Enabled(c, s, w, Settle(op))
    ensures Inv(c, Apply(c, s, w, Settle(op)))
  {
    assert ViewOk(c, s, w);
    SettleStepKeeps(c, s, w, op, s.Of(w).snap, s.Of(w));
  }

  lemma SettleUpKeeps(c: Config, s: System, w: nat, tokens: Option<nat>, elapsedMs: nat)
    requires Inv(c, s) && Enabled(c, s, w, SettleUp(tokens, elapsedMs))
    ensures Inv(c, DoSettleUp(s, w, tokens, elapsedMs))
  {
    var wk := s.Of(w);
    assert ViewOk(c, s, w);
    var id := IdAt(wk.snap, wk.seqno);
    var op := if wk.snap.run.state == Validating then T.SettleDuration(id, elapsedMs) else T.SettleAttempt(id, tokens);
    SettleStepKeeps(c, s, w, op, wk.snap, Holding(wk.snap, wk.pass, wk.seqno, wk.at, true));
  }

  /** A granted reservation of an owned attempt keeps the ledger invariant. */
  lemma ReserveKeepsShared(c: Config, sh: Shared, w: nat, snap: Stored, n: nat, at: nat, r: T.Reservation,
                           current: bool)
    requires SharedOk(c, sh) && SnapOk(sh, snap) && Attempting(snap) && OwnOk(sh, w, snap, n, at)
    requires r.status == T.Active && 1 <= r.amount && r.metric == MetricOf(StepOf(snap.run.state).value)
    requires r.id == IdAt(snap, n)
    requires snap.run.state != WorkspacePreparing
    requires T.ReserveIfAllowed(sh.ledger, LimitsOf(snap.run.budgets), current, r, false).Reserved?
    ensures var l := T.ReserveIfAllowed(sh.ledger, LimitsOf(snap.run.budgets), current, r, false).ledger;
            SharedOk(c, sh.(ledger := l)) && Grows(sh, sh.(ledger := l))
  {
    var limits := LimitsOf(snap.run.budgets);
    HistoryFacts(sh.history, sh.events, snap.revision);
    ReserveKeepsIds(sh.ledger, limits, current, r);
    T.ApplyKeeps(sh.ledger, limits, T.Reserve(current, r));
    assert sh.journal[at].id.step == StepOf(snap.run.state).value;
    LedgerKeeps(c, sh, T.Apply(sh.ledger, limits, T.Reserve(current, r)));
  }

  /** A reservation that is granted to the owner of an attempt. */
  lemma GrantKeeps(c: Config, s: System, w: nat, r: T.Reservation, current: bool)
    requires Inv(c, s) && s.Of(w).Owning? && s.Of(w).phase == Confirmed && Attempting(s.Of(w).snap)
    requires s.Of(w).snap.run.state != WorkspacePreparing && r.id == IdAt(s.Of(w).snap, s.Of(w).seqno)
    requires r.status == T.Active && 1 <= r.amount && r.metric == MetricOf(r.id.step)
    requires var out := T.ReserveIfAllowed(s.sh.ledger, LimitsOf(s.Of(w).snap.run.budgets), current, r, false);
             out.Reserved? && out.decision.verdict == T.Allow
    ensures var out := T.ReserveIfAllowed(s.sh.ledger, LimitsOf(s.Of(w).snap.run.budgets), current, r, false);
            Inv(c, s.PutWith(s.sh.(ledger := out.ledger), w, s.Of(w).(phase := Funded)))
  {
    var sh, wk := s.sh, s.Of(w);
    assert ViewOk(c, s, w);
    var limits := LimitsOf(wk.snap.run.budgets);
    ReserveKeepsShared(c, sh, w, wk.snap, wk.seqno, wk.at, r, current);
    ReserveKeepsIds(sh.ledger, limits, current, r);
    var l := T.ReserveIfAllowed(sh.ledger, limits, current, r, false).ledger;
    PutWriteKeeps(c, s, sh.(ledger := l), w, wk.(phase := Funded));
  }

  /** A denied reservation leaves the owner with a blocked outcome to record. */
  lemma DenialKeeps(c: Config, s: System, w: nat, verdict: T.Verdict)
    requires Inv(c, s) && s.Of(w).Owning? && s.Of(w).phase == Confirmed && Attempting(s.Of(w).snap)
    requires s.Of(w).snap.run.state != WorkspacePreparing
    ensures var wk := s.Of(w);
            var refused := RefusalEvidence(if wk.snap.run.state == Reviewing then wk.basis else None);
            Inv(c, s.Put(w, Responded(wk.snap, wk.pass, wk.seqno, wk.at, refused, Some(verdict))))
  {
    var wk := s.Of(w);
    assert ViewOk(c, s, w);
    RefusalIsAnswer(s.sh, wk.snap, wk.seqno, wk.basis);
    var refused := RefusalEvidence(if wk.snap.run.state == Reviewing then wk.basis else None);
    PutLocalKeeps(c, s, w, Responded(wk.snap, wk.pass, wk.seqno, wk.at, refused, Some(verdict)));
  }

  lemma FundKeeps(c: Config, s: System, w: nat, amount: nat)
    requires Inv(c, s) && Enabled(c, s, w, Fund(amount))
    ensures Inv(c, DoFund(s, w, amount))
  {
    var sh, wk := s.sh, s.Of(w);
    var b, step := wk.snap.run.budgets, StepOf(wk.snap.run.state).value;
    if step != ValidationStep && (b.remoteTokenCeiling.Some? || b.costCeilingSet) {
      DenialKeeps(c, s, w, T.DenyUsageUnavailable);
    } else {
      var current := sh.stored.revision == wk.snap.revision;
      var r := T.Reservation(AttemptId(step, wk.seqno), MetricOf(step), if step == ValidationStep then amount else 1,
                             T.Active);
      match T.ReserveIfAllowed(sh.ledger, LimitsOf(b), current, r, false)
      case ReserveConflict => PutLocalKeeps(c, s, w, Idle);
      case Reserved(l, d) =>
        if d.verdict == T.Allow {
          GrantKeeps(c, s, w, r, current);
        } else {
          DenialKeeps(c, s, w, d.verdict);
        }
    }
  }

  /** No two workers own attempts of one revision. */
  lemma OwnersDiffer(c: Config, sh: Shared, v: nat, w: nat, snap: Stored, snap': Stored, n: nat, n': nat, at: nat,
                     at': nat)
    requires SharedOk(c, sh) && v != w && Attempting(snap) && Attempting(snap')
    requires OwnOk(sh, v, snap, n, at) && OwnOk(sh, w, snap', n', at')
    ensures snap.revision != snap'.revision
  {
    if snap.revision == snap'.revision {
      SameAttempt(c, sh.history, sh.journal, sh.launches, at, at');
    }
  }

  /** The start of one worker's call is none at the revision of another owner. */
  lemma StartIsQuiet(c: Config, s: System, w: nat, v: nat, x: Launch)
    requires Inv(c, s) && v != w && s.Of(v).Owning? && s.Of(w).Owning? && x.revision == s.Of(w).snap.revision
    ensures Quiet(s.sh, s.sh.(launches := s.sh.launches + [x]), s.Of(v).snap.revision)
  {
    var wk, o := s.Of(w), s.Of(v);
    assert ViewOk(c, s, w) && ViewOk(c, s, v);
    OwnersDiffer(c, s.sh, v, w, o.snap, wk.snap, o.seqno, wk.seqno, o.at, wk.at);
    LaunchedSnoc(s.sh.launches, x, o.snap.revision);
  }

  lemma StartKeeps(c: Config, s: System, w: nat)
    requires Inv(c, s) && Enabled(c, s, w, Start)
    ensures Inv(c, DoStart(s, w))
  {
    var sh, wk := s.sh, s.Of(w);
    var snap := wk.snap;
    assert ViewOk(c, s, w);
    var x := Launch(IdAt(snap, wk.seqno), snap.revision, w);
    assert LaunchOk(sh.journal, sh.ledger, x) by {
      assert IntentOf(sh.journal, wk.at, x.id, x.revision);
    }
    LaunchKeeps(c, sh, x);
    var sh' := sh.(launches := sh.launches + [x]);
    LaunchedSnoc(sh.launches, x, snap.revision);
    AdmittedStable(sh, sh', snap, wk.basis);
    forall v: nat | v != w && s.Of(v).Owning? ensures Quiet(sh, sh', s.Of(v).snap.revision) {
      StartIsQuiet(c, s, w, v, x);
    }
    PutKeeps(c, s, sh', w, wk.(phase := Running));
  }

  /** After a transition the loop goes on with less potential left. */
  lemma GoesOnWithLess(c: Config, sh: Shared, w: nat, snap: Stored, goesOn: Option<nat>)
    requires SharedOk(c, sh) && SnapOk(sh, snap) && sh.stored.revision == snap.revision + 1
    requires goesOn.Some? ==> LoopOk(snap, goesOn.value)
    ensures WorkerOk(c, sh, w, AfterCommit(goesOn))
  {
    HistoryFacts(sh.history, sh.events, snap.revision);
    HistoryFacts(sh.history, sh.events, snap.revision + 1);
  }

  lemma AdvanceStepKeeps(c: Config, s: System, w: nat, req: Request, at: int, next: Run, goesOn: Option<nat>)
    requires Inv(c, s) && StepsTo(c, s.sh, req, at, next)
    requires goesOn.Some? ==> LoopOk(s.sh.stored, goesOn.value)
    ensures Inv(c, s.PutWith(Advance(s.sh, req, at, next), w, AfterCommit(goesOn)))
  {
    assert ViewOk(c, s, w);
    var sh, sh' := s.sh, Advance(s.sh, req, at, next);
    AdvanceKeeps(c, sh, req, at, next);
    SnapStable(sh, sh', sh.stored);
    GoesOnWithLess(c, sh', w, sh.stored, goesOn);
    PutWriteKeeps(c, s, sh', w, AfterCommit(goesOn));
  }

  /** The transition was persisted before, by this worker or by another. */
  lemma RepeatedCommitKeeps(c: Config, s: System, w: nat, goesOn: Option<nat>)
    requires Inv(c, s) && s.Of(w).Decided? && s.Of(w).goesOn == goesOn
    requires s.sh.stored.revision == s.Of(w).snap.revision + 1
    ensures Inv(c, s.Put(w, AfterCommit(goesOn)))
  {
    assert ViewOk(c, s, w);
    GoesOnWithLess(c, s.sh, w, s.Of(w).snap, goesOn);
    PutLocalKeeps(c, s, w, AfterCommit(goesOn));
  }

  lemma CommitKeeps(c: Config, s: System, w: nat, now: int)
    requires Inv(c, s) && Enabled(c, s, w, Commit(now))
    ensures Inv(c, DoCommit(s, w, now))
  {
    var sh, wk := s.sh, s.Of(w);
    var snap, req := wk.snap, wk.req;
    assert ViewOk(c, s, w);
    var at := if now < snap.run.updatedAt then snap.run.updatedAt else now;
    match TransitionRun(snap.run, req, at)
    case Err(_) => PutLocalKeeps(c, s, w, Idle);
    case Ok(next) =>
      if snap == sh.stored {
        AdvanceStepKeeps(c, s, w, req, at, next, wk.goesOn);
      } else if sh.stored == Stored(next, snap.revision + 1) {
        RepeatedCommitKeeps(c, s, w, wk.goesOn);
      } else {
        PutLocalKeeps(c, s, w, Idle);
      }
  }

  // ---- Every step -----------------------------------------------------------------------------

  predicate WritesNothing(a: Action) {
    || a.Crash? || a.StartExecute? || a.FinishPrelude? || a.ReadRun? || a.Pick? || a.Admit? || a.Look?
    || a.Confirm? || a.Respond? || a.EnterContext? || a.StartReconcile? || a.SelectPending? || a.StartCancel?
    || a.Decide?
  }

  predicate Journals(a: Action) {
    || a.Claim? || a.RefuseIntent? || a.RefuseOutcome? || a.PersistOutcome? || a.LookContext?
    || a.SelectContext? || a.Reconcile?
  }

  lemma LocalStepKeeps(c: Config, s: System, w: nat, a: Action)
    requires Inv(c, s) && Enabled(c, s, w, a)
    requires a.Crash? || a.StartExecute? || a.FinishPrelude? || a.StartReconcile? || a.StartCancel?
    ensures Inv(c, Apply(c, s, w, a))
  {
    assert ViewOk(c, s, w);
    var terminal := s.sh.stored.run.state.Terminal();
    match a
    case StartExecute => StartingKeeps(c, s, w, if terminal then Idle else Starting(s.sh.stored));
    case FinishPrelude => FinishPreludeKeeps(c, s, w);
    case StartReconcile => StartingKeeps(c, s, w, if terminal then Idle else Inspecting(s.sh.stored));
    case StartCancel => StartingKeeps(c, s, w, if terminal then Idle else Stopping(s.sh.stored));
    case _ => StartingKeeps(c, s, w, Idle);
  }

  lemma AttemptStepKeeps(c: Config, s: System, w: nat, a: Action)
    requires Inv(c, s) && Enabled(c, s, w, a) && (a.Pick? || a.Admit? || a.Look? || a.Confirm? || a.Respond?)
    ensures Inv(c, Apply(c, s, w, a))
  {
    match a
    case Pick => PickKeeps(c, s, w);
    case Admit(facts) => AdmitKeeps(c, s, w, facts);
    case Look => LookKeeps(c, s, w);
    case Confirm => ConfirmKeeps(c, s, w);
    case Respond(answer) => RespondKeeps(c, s, w, answer);
  }

  lemma LookingStepKeeps(c: Config, s: System, w: nat, a: Action)
    requires Inv(c, s) && Enabled(c, s, w, a) && (a.ReadRun? || a.EnterContext? || a.SelectPending? || a.Decide?)
    ensures Inv(c, Apply(c, s, w, a))
  {
    match a
    case ReadRun => ReadRunKeeps(c, s, w);
    case EnterContext => EnterContextKeeps(c, s, w);
    case SelectPending => SelectPendingKeeps(c, s, w);
    case Decide(req) => DecideKeeps(c, s, w, req);
  }

  lemma ReadingStepKeeps(c: Config, s: System, w: nat, a: Action)
    requires Inv(c, s) && Enabled(c, s, w, a) && WritesNothing(a)
    ensures Inv(c, Apply(c, s, w, a))
  {
    if a.Pick? || a.Admit? || a.Look? || a.Confirm? || a.Respond? {
      AttemptStepKeeps(c, s, w, a);
    } else if a.ReadRun? || a.EnterContext? || a.SelectPending? || a.Decide? {
      LookingStepKeeps(c, s, w, a);
    } else {
      LocalStepKeeps(c, s, w, a);
    }
  }

  lemma JournalStepKeeps(c: Config, s: System, w: nat, a: Action)
    requires Inv(c, s) && Enabled(c, s, w, a) && Journals(a)
    ensures Inv(c, Apply(c, s, w, a))
  {
    assert ViewOk(c, s, w);
    match a
    case Claim => ClaimKeeps(c, s, w);
    case RefuseIntent => RefuseIntentKeeps(c, s, w);
    case RefuseOutcome => RefuseOutcomeKeeps(c, s, w);
    case PersistOutcome => PersistOutcomeKeeps(c, s, w);
    case LookContext => LookContextKeeps(c, s, w);
    case SelectContext(status) =>
      var wk, ev := s.Of(w), Evidence(status, KnownNone, None, None, false);
      if TryWrite(s.sh, wk.snap, AttemptId(ContextStep, wk.seqno), Outcome, ev) == WriteRefused {
        SelectContextRefused(c, s, w, status);
      } else {
        SelectContextWritten(c, s, w, status);
      }
    case Reconcile(effects) => ReconcileKeeps(c, s, w, effects);
  }

  lemma StepKeeps(c: Config, s: System, w: nat, a: Action)
    requires Inv(c, s) && Enabled(c, s, w, a)
    ensures Inv(c, Apply(c, s, w, a))
  {
    assert ViewOk(c, s, w);
    if WritesNothing(a) {
      ReadingStepKeeps(c, s, w, a);
    } else if Journals(a) {
      JournalStepKeeps(c, s, w, a);
    } else {
      match a
      case Settle(op) => SettleKeeps(c, s, w, op);
      case Fund(amount) => FundKeeps(c, s, w, amount);
      case Start => StartKeeps(c, s, w);
      case SettleUp(tokens, ms) => SettleUpKeeps(c, s, w, tokens, ms);
      case Commit(now) => CommitKeeps(c, s, w, now);
    }
  }

  lemma InitialHolds(c: Config, s: System)
    requires Initial(s)
    ensures Inv(c, s)
  {
    T.EmptyIsConserved(LimitsOf(s.sh.stored.run.budgets));
  }

  /** Every reachable state satisfies the invariant. */
  lemma {:induction false} RunsKeep(c: Config, s: System, schedule: Schedule, s': System)
    requires Inv(c, s) && Runs(c, s, schedule, s')
    ensures Inv(c, s')
    decreases |schedule|
  {
    if schedule != [] {
      StepKeeps(c, s, schedule[0].0, schedule[0].1);
      RunsKeep(c, Apply(c, s, schedule[0].0, schedule[0].1), schedule[1..], s');
    }
  }
}
