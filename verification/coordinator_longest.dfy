/** What runs can come to: approval after any number of repairs, the bound on the journal, which tells
    exactly when the journal fits the record model, and the validation after the hundredth repair. */
module CoordinatorLongest {
  import opened Domain
  import opened Ids
  import opened Coordinator
  import opened CoordinatorTheorems
  import opened CoordinatorRuns
  import G = ReviewGate
  import T = Telemetry

  function GenerousBudgets(repairs: nat): Budgets {
    Budgets(86_400, 1, 100, repairs, None, false)
  }

  /** As many plans as the repairs can need. */
  function ConfigFor(contexts: nat, repairs: nat): Config {
    Config(contexts, repairs + 1, false)
  }

  /** A validation, a review that asks for changes, and the repair. */
  lemma Cycle(c: Config, s: System, b: Budgets, k: nat) returns (t: System)
    requires Rests(c, s, b, Validating, Counters(1, k, k)) && k < b.maxRepair && b.maxReview == 100
             && c.plans == b.maxRepair + 1
    ensures Rests(c, t, b, Validating, Counters(1, k + 1, k + 1)) && |t.sh.journal| == |s.sh.journal| + 9
  {
    var d := Proceed(c, s, b, Validating, Counters(1, k, k));
    var e := Proceed(c, d, b, Reviewing, Counters(1, k, k));
    t := Proceed(c, e, b, Repairing, Counters(1, k + 1, k));
  }

  /** A run waiting for the validation after its `k`-th repair, with all the evidence it can have. */
  lemma {:induction false} AfterRepairs(contexts: nat, repairs: nat, k: nat) returns (s: System)
    requires contexts <= MAX_ATTEMPT_SEQUENCE && k <= repairs <= 100
    ensures Rests(ConfigFor(contexts, repairs), s, GenerousBudgets(repairs), Validating, Counters(1, k, k))
    ensures |s.sh.journal| == 3 * (contexts + 2 + 3 * k)
  {
    var c, b := ConfigFor(contexts, repairs), GenerousBudgets(repairs);
    if k == 0 {
      var d := Plans(c, b);
      s := Prepare(c, d, b);
    } else {
      var d := AfterRepairs(contexts, repairs, k - 1);
      s := Cycle(c, d, b, k - 1);
    }
  }

  /** The last validation and its review. */
  lemma LastReview(contexts: nat, repairs: nat) returns (t: System)
    requires contexts <= MAX_ATTEMPT_SEQUENCE && repairs < 100
    ensures Reachable(ConfigFor(contexts, repairs), t) && t.sh.stored.run.budgets.maxRepair == repairs
    ensures |t.sh.journal| == JournalCap(contexts, repairs)
  {
    var c, b := ConfigFor(contexts, repairs), GenerousBudgets(repairs);
    var s := AfterRepairs(contexts, repairs, repairs);
    var d := Proceed(c, s, b, Validating, Counters(1, repairs, repairs));
    t := Attempt(c, d, b, Reviewing, Counters(1, repairs, repairs));
  }

  lemma ContextsOnly(contexts: nat, repairs: nat) returns (t: System)
    requires contexts > MAX_ATTEMPT_SEQUENCE && repairs <= 100
    ensures Reachable(ConfigFor(contexts, repairs), t) && t.sh.stored.run.budgets.maxRepair == repairs
    ensures |t.sh.journal| == JournalCap(contexts, repairs)
  {
    var c, b := ConfigFor(contexts, repairs), GenerousBudgets(repairs);
    var s := Plans(c, b);
    var d := EnterContexts(c, s, b);
    t := DoContexts(c, d, b, 1, MAX_ATTEMPT_SEQUENCE);
  }

  /** For any number of context requests and any repair limit, some run fills the journal to its cap. */
  lemma JournalCapIsReached(contexts: nat, repairs: nat) returns (c: Config, s: System)
    requires repairs <= 100
    ensures Reachable(c, s) && c.contexts == contexts && s.sh.stored.run.budgets.maxRepair == repairs
    ensures |s.sh.journal| == JournalCap(contexts, repairs)
  {
    c := ConfigFor(contexts, repairs);
    if contexts > MAX_ATTEMPT_SEQUENCE {
      s := ContextsOnly(contexts, repairs);
    } else if repairs < 100 {
      s := LastReview(contexts, repairs);
    } else {
      s := AfterRepairs(contexts, repairs, repairs);
    }
  }

  /** No run with these many context requests and repairs asks for more records than there are
      numbers. */
  ghost predicate RecordsFit(contexts: nat, repairs: nat) {
    forall c: Config, s: System ::
      Reachable(c, s) && c.contexts == contexts && s.sh.stored.run.budgets.maxRepair == repairs ==>
        |s.sh.journal| <= MAX_RECORDS
  }

  /** Exactly when every journal fits the record model. */
  lemma RecordsFitExactly(contexts: nat, repairs: nat)
    requires repairs <= 100
    ensures RecordsFit(contexts, repairs) <==>
              || contexts > MAX_ATTEMPT_SEQUENCE
              || (if repairs < 100 then contexts + 3 * repairs <= 337 else contexts <= 39)
  {
    if JournalCap(contexts, repairs) <= MAX_RECORDS {
      forall c: Config, s: System |
        Reachable(c, s) && c.contexts == contexts && s.sh.stored.run.budgets.maxRepair == repairs
        ensures |s.sh.journal| <= MAX_RECORDS
      {
        JournalIsBounded(c, s);
      }
    } else {
      var c, s := JournalCapIsReached(contexts, repairs);
      assert Reachable(c, s);
    }
  }

  /** The attempt that no record can number: with 100 repairs allowed, a worker comes to validation 101
      of the current version. */
  lemma NumberBeyondReached() returns (c: Config, s: System)
    ensures Reachable(c, s) && s.Of(1).Clear? && s.Of(1).snap == s.sh.stored
    ensures s.sh.stored.run.state == Validating && s.sh.stored.run.attempts.repair == 100
    ensures s.Of(1).seqno == MAX_ATTEMPT_SEQUENCE + 1
  {
    c := ConfigFor(1, 100);
    var d := AfterRepairs(1, 100, 100);
    s := LookNext(c, d, GenerousBudgets(100), Validating, Counters(1, 100, 100));
  }

  // ---- Approval -------------------------------------------------------------------------------

  /** A reviewer that completed, and a gate that approves. */
  function Approval(basis: Option<Checked>, gate: ApprovalGate): Evidence {
    Evidence(Completed, KnownNone, basis, Some(Ruling(G.Approvable, Some(gate))), false)
  }

  /** An open review leaves nothing unresolved. */
  lemma OpenReviewIsResolved(j: seq<Record>, more: seq<Record>)
    requires Closed(j) && forall k :: 0 <= k < |more| ==> more[k].id.step == ReviewStep
    ensures !Unresolved(j + more)
  {
    var j' := j + more;
    forall k | 0 <= k < |j'| && j'[k].stage == Intent && Mutating(j'[k].id.step) ensures Known(j', j'[k].id, Outcome) {
      assert k < |j|;
      var i :| 0 <= i < |j| && j[i].id == j[k].id && j[i].stage == Outcome;
      assert j'[i] == j[i];
    }
  }

  lemma ApprovalIsAnAnswer(sh: Shared, basis: Option<Checked>, n: nat, gate: ApprovalGate)
    requires basis.Some? && basis.value.Approvable() && !Unresolved(sh.journal) && gate.Satisfied()
    ensures Answers(sh, ReviewStep, n, basis, Approval(basis, gate))
  {
  }

  /** The review is answered with an approval. */
  lemma Approves(c: Config, s: System, b: Budgets, a: Counters, gate: ApprovalGate) returns (t: System)
    requires Rests(c, s, b, Reviewing, a) && Allowed(c, b, Reviewing, a) && a.review < MAX_ATTEMPT_SEQUENCE
    requires gate.Satisfied()
    ensures Reachable(c, t) && t.sh.stored == s.sh.stored && t.Of(2).Idle?
    ensures var basis, id := BasisFor(s.sh, s.sh.stored), AttemptId(ReviewStep, Number(Reviewing, a));
            && t.Of(1) == Responded(s.sh.stored, 1, Number(Reviewing, a), |s.sh.journal|, Approval(basis, gate), None)
            && t.sh.journal == s.sh.journal + Trio(s.sh, id, basis)[..2]
            && t.sh.ledger == T.Insert(s.sh.ledger, NextReservation(id))
  {
    var d := FundAttempt(c, s, b, Reviewing, a);
    var e := StartNext(c, d);
    var basis, id := BasisFor(s.sh, s.sh.stored), AttemptId(ReviewStep, Number(Reviewing, a));
    OpenReviewIsResolved(s.sh.journal, Trio(s.sh, id, basis)[..2]);
    ApprovalIsAnAnswer(e.sh, basis, Number(Reviewing, a), gate);
    t := Responds(c, e, Approval(basis, gate));
  }

  lemma Responds(c: Config, s: System, answer: Evidence) returns (t: System)
    requires Reachable(c, s) && s.Of(1).Owning? && s.Of(1).phase == Running && s.Of(1).snap.run.state == Reviewing
    requires Answers(s.sh, ReviewStep, s.Of(1).seqno, s.Of(1).basis, answer)
    ensures Reachable(c, t) && t.sh == s.sh && t.Of(2) == s.Of(2)
    ensures t.Of(1) == Responded(s.Of(1).snap, s.Of(1).pass, s.Of(1).seqno, s.Of(1).at, answer, None)
  {
    t := s.Put(1, Responded(s.Of(1).snap, s.Of(1).pass, s.Of(1).seqno, s.Of(1).at, answer, None));
    Goes(c, s, 1, Respond(answer), t);
  }

  /** The approval is recorded and the review settled. */
  lemma RecordsApproval(c: Config, s: System, b: Budgets, a: Counters, gate: ApprovalGate) returns (t: System)
    requires Rests(c, s, b, Reviewing, a) && Allowed(c, b, Reviewing, a) && a.review < MAX_ATTEMPT_SEQUENCE
    requires gate.Satisfied()
    ensures Reachable(c, t) && t.sh.stored == s.sh.stored && t.Of(2).Idle? && t.Of(1).Holding?
    ensures t.Of(1).snap == s.sh.stored && t.Of(1).own && t.Of(1).at < |t.sh.journal|
    ensures t.sh.journal[t.Of(1).at].evidence == Approval(BasisFor(s.sh, s.sh.stored), gate)
  {
    var basis, id := BasisFor(s.sh, s.sh.stored), AttemptId(ReviewStep, Number(Reviewing, a));
    NewIsUnknown(c, s, b, Reviewing, a);
    assert id == IdAt(s.sh.stored, Number(Reviewing, a));
    var d := Approves(c, s, b, a, gate);
    NoOutcomeAmong(s.sh.journal, Trio(s.sh, id, basis), id);
    var e := PersistNext(c, d);
    t := SettleNext(c, e, a, s.sh.ledger, s.sh.journal, 0);
  }

  /** After any number of repairs below the hundredth, with any number of context requests that can be
      recorded, and with any satisfied gate, some run is approved with exactly that gate. */
  lemma ApprovalIsReached(contexts: nat, repairs: nat, k: nat, gate: ApprovalGate) returns (c: Config, s: System)
    requires contexts <= MAX_ATTEMPT_SEQUENCE && k <= repairs <= 100 && k < 100 && gate.Satisfied()
    ensures Reachable(c, s) && c.contexts == contexts && s.sh.stored.run.budgets.maxRepair == repairs
    ensures s.sh.stored.run.state == Approved && s.sh.stored.run.gate == Some(gate)
    ensures s.sh.stored.run.attempts == Counters(1, k + 1, k)
  {
    c := ConfigFor(contexts, repairs);
    var b := GenerousBudgets(repairs);
    var d := AfterRepairs(contexts, repairs, k);
    var e := Proceed(c, d, b, Validating, Counters(1, k, k));
    var f := RecordsApproval(c, e, b, Counters(1, k, k), gate);
    s := MoveOn(c, f, Request(Approved, Some(ReviewCounter), Some(gate)));
  }
}
