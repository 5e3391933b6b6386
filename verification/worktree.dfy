/** The lifecycle of one owned worktree: create and clean-up calls of any number of processes over
    a lease file and a durable ownership record (src/revanent/git/local.py,
    src/revanent/git/ownership.py). A process may disappear at any point. */
module Worktree {
  import opened Domain

  datatype Lifecycle = Creating | Active | Partial | Removed

  /** A durable write that fails before or after the atomic replacement of the record file. */
  datatype Write = Fine | FailsBefore | FailsAfter

  /** Where a process stands; everything from `Leased` to `Releasing` holds the lease. */
  datatype Process =
    | Away
    | Checked
    | Leased
    | Ready
    | Recorded
    | Rechecked
    | Added
    | Verified
    | Failing
    | Succeeded
    | CleanupLeased
    | CleanupActive
    | CleanupVerified
    | CleanupGone
    | Releasing
  {
    predicate HoldsLease() {
      !Away? && !Checked?
    }
  }

  /** `trace` (every status ever recorded), `adds` (how often `git worktree add` was issued) and
      `created` (whether a create call has succeeded) are history variables. */
  datatype State = State(
    record: Option<Lifecycle>,
    locked: bool,
    processes: map<nat, Process>,
    trace: seq<Lifecycle>,
    adds: nat,
    created: bool)
  {
    function Of(p: nat): Process {
      if p in processes then processes[p] else Away
    }

    function Put(p: nat, at: Process): State {
      this.(processes := processes[p := at])
    }

    /** The record file is replaced. */
    function Recording(st: Lifecycle): State {
      this.(record := Some(st), trace := trace + [st])
    }
  }

  datatype Action =
    | Crash
    | CheckCreate
    | AcquireCreate
    | LookRecord
    | WriteCreating(write: Write)
    | Recheck(ok: bool)
    | Add(ok: bool)
    | Verify(ok: bool)
    | WriteActive(write: Write)
    | PreservePartial(write: Write)
    | AcquireCleanup
    | LoadRecord
    | VerifyClean(ok: bool)
    | Remove(ok: bool)
    | WriteRemoved(write: Write)
    | GiveUp
    | Release

  predicate Enabled(s: State, p: nat, a: Action) {
    match a
    case Crash => true
    case CheckCreate => s.Of(p).Away?
    case AcquireCreate => s.Of(p).Checked?
    case LookRecord => s.Of(p).Leased?
    case WriteCreating(_) => s.Of(p).Ready?
    case Recheck(_) => s.Of(p).Recorded?
    case Add(_) => s.Of(p).Rechecked?
    case Verify(_) => s.Of(p).Added?
    case WriteActive(_) => s.Of(p).Verified?
    case PreservePartial(_) => s.Of(p).Failing?
    case AcquireCleanup => s.Of(p).Away?
    case LoadRecord => s.Of(p).CleanupLeased?
    case VerifyClean(_) => s.Of(p).CleanupActive?
    case Remove(_) => s.Of(p).CleanupVerified?
    case WriteRemoved(_) => s.Of(p).CleanupGone?
    case GiveUp => s.Of(p).Leased? || s.Of(p).Ready? || s.Of(p).CleanupLeased?
    case Release => s.Of(p).Releasing? || s.Of(p).Succeeded?
  }

  /** _write_unlocked: whether the record exists must match what the caller expects. */
  function WriteRecord(s: State, st: Lifecycle, replace: bool, write: Write): State {
    if s.record.Some? != replace || write.FailsBefore? then s else s.Recording(st)
  }

  function Wrote(s: State, replace: bool, write: Write): bool {
    s.record.Some? == replace && write.Fine?
  }

  function Apply(s: State, p: nat, a: Action): State
    requires Enabled(s, p, a)
  {
    match a
    case Crash => s.Put(p, Away)
    case CheckCreate => s.Put(p, if s.record.Some? then Away else Checked)
    case AcquireCreate => if s.locked then s.Put(p, Away) else s.(locked := true).Put(p, Leased)
    case LookRecord => s.Put(p, if s.record.Some? then Releasing else Ready)
    case WriteCreating(w) =>
      WriteRecord(s, Creating, false, w).Put(p, if Wrote(s, false, w) then Recorded else Releasing)
    case Recheck(ok) => s.Put(p, if ok then Rechecked else Failing)
    case Add(ok) => s.(adds := s.adds + 1).Put(p, if ok then Added else Failing)
    case Verify(ok) => s.Put(p, if ok then Verified else Failing)
    case WriteActive(w) =>
      WriteRecord(s, Active, true, w).Put(p, if Wrote(s, true, w) then Succeeded else Failing)
    case PreservePartial(w) => WriteRecord(s, Partial, true, w).Put(p, Releasing)
    case AcquireCleanup => if s.locked then s.Put(p, Away) else s.(locked := true).Put(p, CleanupLeased)
    case LoadRecord => s.Put(p, if s.record == Some(Active) then CleanupActive else Releasing)
    case VerifyClean(ok) => s.Put(p, if ok then CleanupVerified else Releasing)
    case Remove(ok) => s.Put(p, if ok then CleanupGone else Releasing)
    case WriteRemoved(w) => WriteRecord(s, Removed, true, w).Put(p, Releasing)
    case GiveUp => s.Put(p, Releasing)
    case Release => s.(locked := false, created := s.created || s.Of(p).Succeeded?).Put(p, Away)
  }

  const INITIAL := State(None, false, map[], [], 0, false)

  type Schedule = seq<(nat, Action)>

  ghost predicate Runs(s: State, schedule: Schedule, s': State)
    decreases |schedule|
  {
    if schedule == [] then s' == s
    else
      && Enabled(s, schedule[0].0, schedule[0].1)
      && Runs(Apply(s, schedule[0].0, schedule[0].1), schedule[1..], s')
  }

  // ---- The invariant --------------------------------------------------------------------------

  /** Every record history there can be: CREATING first, then ACTIVE or PARTIAL, and from ACTIVE
      either PARTIAL or REMOVED. */
  predicate Legal(trace: seq<Lifecycle>) {
    && |trace| <= 3
    && (|trace| >= 1 ==> trace[0] == Creating)
    && (|trace| >= 2 ==> trace[1] in {Active, Partial})
    && (|trace| == 3 ==> trace[1] == Active && trace[2] in {Partial, Removed})
  }

  /** The record is what was last written. */
  predicate LastIs(trace: seq<Lifecycle>, record: Option<Lifecycle>) {
    record == if trace == [] then None else Some(trace[|trace| - 1])
  }

  /** What the holder of the lease knows. */
  predicate HolderKnows(s: State, at: Process) {
    match at
    case Ready => s.record.None?
    case Recorded => s.record == Some(Creating) && s.adds == 0
    case Rechecked => s.record == Some(Creating) && s.adds == 0
    case Added => s.record == Some(Creating)
    case Verified => s.record == Some(Creating)
    case Failing => s.record in {Some(Creating), Some(Active)} && !s.created
    case Succeeded => s.record == Some(Active)
    case CleanupActive => s.record == Some(Active)
    case CleanupVerified => s.record == Some(Active)
    case CleanupGone => s.record == Some(Active)
    case _ => true
  }

  ghost predicate RecordOk(s: State) {
    && Legal(s.trace) && LastIs(s.trace, s.record)
    && (s.record.None? ==> s.adds == 0) && s.adds <= 1
    && (s.created ==> s.record in {Some(Active), Some(Removed)})
  }

  ghost predicate LeaseOk(s: State) {
    && (forall p: nat :: s.Of(p).HoldsLease() ==> s.locked && HolderKnows(s, s.Of(p)))
    && (forall p: nat, q: nat :: s.Of(p).HoldsLease() && s.Of(q).HoldsLease() ==> p == q)
  }

  ghost predicate Inv(s: State) {
    RecordOk(s) && LeaseOk(s)
  }

  predicate WritesRecord(a: Action) {
    a.WriteCreating? || a.WriteActive? || a.PreservePartial? || a.WriteRemoved?
  }

  lemma WriteKeepsRecord(s: State, p: nat, a: Action)
    requires RecordOk(s) && HolderKnows(s, s.Of(p)) && Enabled(s, p, a) && WritesRecord(a)
    ensures RecordOk(Apply(s, p, a))
  {
  }

  lemma OtherStepKeepsRecord(s: State, p: nat, a: Action)
    requires RecordOk(s) && HolderKnows(s, s.Of(p)) && Enabled(s, p, a) && !WritesRecord(a)
    ensures RecordOk(Apply(s, p, a))
  {
  }

  /** What a process knows is still true after its own step. */
  lemma StepKeepsKnowledge(s: State, p: nat, a: Action)
    requires RecordOk(s) && HolderKnows(s, s.Of(p)) && Enabled(s, p, a)
    ensures HolderKnows(Apply(s, p, a), Apply(s, p, a).Of(p))
  {
  }

  /** A process holds the lease after its step only if it held it before or found it free. */
  lemma StepKeepsHolder(s: State, p: nat, a: Action)
    requires Enabled(s, p, a) && (s.Of(p).HoldsLease() ==> s.locked)
    ensures Apply(s, p, a).Of(p).HoldsLease() ==> Apply(s, p, a).locked && (s.Of(p).HoldsLease() || !s.locked)
  {
  }

  /** A step of a process that neither holds nor takes the lease leaves record and lease alone. */
  lemma OutsiderChangesNothing(s: State, p: nat, a: Action)
    requires Enabled(s, p, a) && !s.Of(p).HoldsLease() && !Apply(s, p, a).Of(p).HoldsLease()
    ensures var s' := Apply(s, p, a);
            s'.record == s.record && s'.locked == s.locked && s'.adds == s.adds && s'.created == s.created
  {
  }

  lemma OthersStay(s: State, p: nat, a: Action, q: nat)
    requires Enabled(s, p, a) && q != p
    ensures Apply(s, p, a).Of(q) == s.Of(q)
  {
  }

  lemma StepKeepsLease(s: State, p: nat, a: Action)
    requires Inv(s) && Enabled(s, p, a)
    ensures LeaseOk(Apply(s, p, a))
  {
    var s' := Apply(s, p, a);
    StepKeepsKnowledgeOf(s, p, a);
    StepKeepsHolder(s, p, a);
    forall q: nat | q != p && s'.Of(q).HoldsLease()
      ensures s'.locked && HolderKnows(s', s'.Of(q)) && !s'.Of(p).HoldsLease()
    {
      OthersStay(s, p, a, q);
      OutsiderChangesNothing(s, p, a);
    }
    forall q: nat, r: nat | s'.Of(q).HoldsLease() && s'.Of(r).HoldsLease() ensures q == r {
      if q != p { OthersStay(s, p, a, q); }
      if r != p { OthersStay(s, p, a, r); }
    }
  }

  /** A process that does not hold the lease knows nothing that could become false. */
  lemma StepKeepsKnowledgeOf(s: State, p: nat, a: Action)
    requires Inv(s) && Enabled(s, p, a)
    ensures HolderKnows(s, s.Of(p)) && HolderKnows(Apply(s, p, a), Apply(s, p, a).Of(p))
  {
    assert s.Of(p).HoldsLease() ==> HolderKnows(s, s.Of(p));
    StepKeepsKnowledge(s, p, a);
  }

  lemma StepKeeps(s: State, p: nat, a: Action)
    requires Inv(s) && Enabled(s, p, a)
    ensures Inv(Apply(s, p, a))
  {
    StepKeepsKnowledgeOf(s, p, a);
    if WritesRecord(a) { WriteKeepsRecord(s, p, a); } else { OtherStepKeepsRecord(s, p, a); }
    StepKeepsLease(s, p, a);
  }

  lemma {:induction false} RunsKeep(s: State, schedule: Schedule, s': State)
    requires Inv(s) && Runs(s, schedule, s')
    ensures Inv(s')
    decreases |schedule|
  {
    if schedule != [] {
      StepKeeps(s, schedule[0].0, schedule[0].1);
      RunsKeep(Apply(s, schedule[0].0, schedule[0].1), schedule[1..], s');
    }
  }

  // ---- Theorems over all runs -----------------------------------------------------------------

  /** `git worktree add` is issued at most once, the lease has at most one holder, and the record
      follows one of five histories: it starts as CREATING, and PARTIAL and REMOVED end it. */
  lemma LifecycleIsSafe(schedule: Schedule, s: State)
    requires Runs(INITIAL, schedule, s)
    ensures s.adds <= 1 && Legal(s.trace) && LastIs(s.trace, s.record)
    ensures forall p: nat, q: nat :: s.Of(p).HoldsLease() && s.Of(q).HoldsLease() ==> p == q
  {
    RunsKeep(INITIAL, schedule, s);
  }

  lemma StepExtends(s: State, p: nat, a: Action)
    requires Inv(s) && Enabled(s, p, a)
    ensures var s' := Apply(s, p, a);
            && s.trace <= s'.trace && s.adds <= s'.adds && (s.created ==> s'.created)
            && (s.record in {Some(Partial), Some(Removed)} ==> s'.record == s.record)
            && (s.created && s'.record != s.record ==> s.record == Some(Active) && s'.record == Some(Removed))
  {
    StepKeeps(s, p, a);
  }

  /** From any reachable state on: nothing recorded is ever undone, PARTIAL and REMOVED stay, and
      after a successful create the only change left is the removal. */
  lemma {:induction false} RecordsOnlyAdvance(s: State, schedule: Schedule, s': State)
    requires Inv(s) && Runs(s, schedule, s')
    ensures s.trace <= s'.trace
    ensures s.record.Some? ==> s'.record.Some?
    ensures s.record in {Some(Partial), Some(Removed)} ==> s'.record == s.record
    ensures s.created ==> s'.record in {Some(Active), Some(Removed)} && s'.adds == s.adds
    decreases |schedule|
  {
    if schedule != [] {
      var p, a := schedule[0].0, schedule[0].1;
      StepExtends(s, p, a);
      StepKeeps(s, p, a);
      RecordsOnlyAdvance(Apply(s, p, a), schedule[1..], s');
    }
  }

  predicate Orphaned(s: State) {
    s.locked && forall p: nat :: p in s.processes ==> !s.processes[p].HoldsLease()
  }

  /** A lease whose holder disappeared fails closed: no process ever gets it again, and the record
      stays as it is. */
  lemma {:induction false} OrphanedLeaseFailsClosed(s: State, schedule: Schedule, s': State)
    requires Inv(s) && Orphaned(s) && Runs(s, schedule, s')
    ensures Orphaned(s') && s'.record == s.record && s'.trace == s.trace && s'.adds == s.adds
    decreases |schedule|
  {
    if schedule != [] {
      var p, a := schedule[0].0, schedule[0].1;
      assert !s.Of(p).HoldsLease();
      StepKeeps(s, p, a);
      OrphanedLeaseFailsClosed(Apply(s, p, a), schedule[1..], s');
    }
  }

  // ---- One call at a time ---------------------------------------------------------------------

  datatype CreateOutcome = CreatedNow | CreateRefused | PartialCreation

  datatype CleanupOutcome = RemovedNow | AlreadyRemoved | CleanupRefused

  /** What the environment answers to one create call. */
  datatype CreateAnswers = CreateAnswers(
    sourceSafe: bool, firstWrite: Write, recheck: bool, add: bool, verify: bool, activate: Write, preserve: Write)

  /** The record of a worktree id after a call on an id that was free. */
  datatype Effect = Effect(record: Option<Lifecycle>, trace: seq<Lifecycle>, adds: nat, outcome: CreateOutcome)

  /** A failed create keeps what it recorded, and marks it partial if that write goes through. */
  function Kept(trace: seq<Lifecycle>, adds: nat, preserve: Write): Effect
    requires trace != []
  {
    if preserve.FailsBefore? then Effect(Some(trace[|trace| - 1]), trace, adds, PartialCreation)
    else Effect(Some(Partial), trace + [Partial], adds, PartialCreation)
  }

  function CreateEffect(env: CreateAnswers): Effect {
    if env.firstWrite.FailsBefore? then Effect(None, [], 0, CreateRefused)
    else if env.firstWrite.FailsAfter? then Effect(Some(Creating), [Creating], 0, CreateRefused)
    else if !env.recheck then Kept([Creating], 0, env.preserve)
    else if !env.add || !env.verify || env.activate.FailsBefore? then Kept([Creating], 1, env.preserve)
    else if env.activate.FailsAfter? then Kept([Creating, Active], 1, env.preserve)
    else Effect(Some(Active), [Creating, Active], 1, CreatedNow)
  }

  // ---- The call in the protocol ---------------------------------------------------------------

  /** Process 0 takes one more step. */
  lemma Then(schedule: Schedule, s: State, a: Action) returns (schedule': Schedule, t: State)
    requires Runs(INITIAL, schedule, s) && Enabled(s, 0, a)
    ensures t == Apply(s, 0, a) && Runs(INITIAL, schedule', t) && (OnlyZero(schedule) ==> OnlyZero(schedule'))
  {
    t := Apply(s, 0, a);
    schedule' := schedule + [(0, a)];
    RunsThen(INITIAL, schedule, s, a);
  }

  lemma {:induction false} RunsThen(s: State, schedule: Schedule, t: State, a: Action)
    requires Runs(s, schedule, t) && Enabled(t, 0, a)
    ensures Runs(s, schedule + [(0, a)], Apply(t, 0, a))
    decreases |schedule|
  {
    var longer := schedule + [(0, a)];
    if schedule == [] {
      assert longer[1..] == [];
    } else {
      assert longer[1..] == schedule[1..] + [(0, a)];
      RunsThen(Apply(s, schedule[0].0, schedule[0].1), schedule[1..], t, a);
    }
  }

  /** The lease is taken and the first record written, or not. */
  lemma MachineRecords(env: CreateAnswers) returns (schedule: Schedule, t: State)
    ensures Runs(INITIAL, schedule, t) && t.locked && t.adds == 0 && !t.created
    ensures t.Of(0) == if env.firstWrite.Fine? then Recorded else Releasing
    ensures t.trace == (if env.firstWrite.FailsBefore? then [] else [Creating]) && LastIs(t.trace, t.record)
    ensures OnlyZero(schedule)
  {
    var s3, e := MachineLooks();
    schedule, t := Then(s3, e, WriteCreating(env.firstWrite));
  }

  lemma MachineLooks() returns (schedule: Schedule, t: State)
    ensures Runs(INITIAL, schedule, t) && t.locked && t.adds == 0 && !t.created
    ensures t.Of(0) == Ready && t.trace == [] && t.record.None? && OnlyZero(schedule)
  {
    var s1, b := Then([], INITIAL, CheckCreate);
    var s2, d := Then(s1, b, AcquireCreate);
    schedule, t := Then(s2, d, LookRecord);
  }

  /** From the first record up to the activation, or to where the call fails. */
  lemma MachineAdds(env: CreateAnswers) returns (schedule: Schedule, t: State)
    requires env.firstWrite.Fine?
    ensures Runs(INITIAL, schedule, t) && t.locked && !t.created && LastIs(t.trace, t.record)
    ensures t.adds == (if env.recheck then 1 else 0)
    ensures t.Of(0) == (if env.recheck && env.add && env.verify && env.activate.Fine? then Succeeded else Failing)
    ensures t.trace == (if env.recheck && env.add && env.verify && !env.activate.FailsBefore? then [Creating, Active]
                        else [Creating])
  {
    var s1, a := MachineRecords(env);
    schedule, t := Then(s1, a, Recheck(env.recheck));
    if env.recheck { schedule, t := MachineGoesOn(schedule, t, env); }
  }

  lemma MachineGoesOn(schedule: Schedule, s: State, env: CreateAnswers) returns (schedule': Schedule, t: State)
    requires Runs(INITIAL, schedule, s) && s.Of(0) == Rechecked && s.locked && !s.created && s.adds == 0
    requires s.trace == [Creating] && LastIs(s.trace, s.record)
    ensures Runs(INITIAL, schedule', t) && t.locked && !t.created && LastIs(t.trace, t.record) && t.adds == 1
    ensures t.Of(0) == (if env.add && env.verify && env.activate.Fine? then Succeeded else Failing)
    ensures t.trace == (if env.add && env.verify && !env.activate.FailsBefore? then [Creating, Active] else [Creating])
  {
    schedule', t := Then(schedule, s, Add(env.add));
    if env.add {
      schedule', t := Then(schedule', t, Verify(env.verify));
      if env.verify { schedule', t := Then(schedule', t, WriteActive(env.activate)); }
    }
  }

  /** A create call that nobody disturbs is a run of the protocol with the same effect: for every answer
      of the environment the machine ends with the record, the history and the number of added
      worktrees of the call, and counts a success exactly if the call reports one. */
  lemma MachineCreates(env: CreateAnswers) returns (schedule: Schedule, t: State)
    ensures Runs(INITIAL, schedule, t) && !t.locked && t.Of(0) == Away
    ensures Effect(t.record, t.trace, t.adds, CreateEffect(env).outcome) == CreateEffect(env)
    ensures t.created <==> CreateEffect(env).outcome == CreatedNow
  {
    if env.firstWrite.Fine? {
      var s1, a := MachineAdds(env);
      if a.Of(0) == Succeeded {
        schedule, t := Then(s1, a, Release);
      } else {
        schedule, t := MachineKeeps(s1, a, env.preserve);
      }
    } else {
      var s1, a := MachineRecords(env);
      schedule, t := Then(s1, a, Release);
    }
  }

  /** A failing create preserves what it has and releases the lease. */
  lemma MachineKeeps(schedule: Schedule, s: State, preserve: Write) returns (schedule': Schedule, t: State)
    requires Runs(INITIAL, schedule, s) && s.Of(0) == Failing && !s.created && s.trace != []
             && LastIs(s.trace, s.record)
    ensures Runs(INITIAL, schedule', t) && !t.locked && t.Of(0) == Away && !t.created
    ensures Effect(t.record, t.trace, t.adds, PartialCreation) == Kept(s.trace, s.adds, preserve)
  {
    var s2, b := Then(schedule, s, PreservePartial(preserve));
    schedule', t := Then(s2, b, Release);
  }

  /** A process can be lost at any step, and the lease it held then is orphaned. */
  lemma LeaseCanBeOrphaned(env: CreateAnswers) returns (schedule: Schedule, t: State)
    requires env.firstWrite.Fine?
    ensures Runs(INITIAL, schedule, t) && Orphaned(t) && t.record == Some(Creating)
  {
    var s1, a := MachineRecords(env);
    schedule, t := Then(s1, a, Crash);
    OnlyProcessZero(schedule, INITIAL, t);
    forall p: nat | p in t.processes ensures !t.processes[p].HoldsLease() { assert t.Of(p) == t.processes[p]; }
  }

  /** Runs of process 0 alone leave all others away. */
  lemma {:induction false} OnlyProcessZero(schedule: Schedule, s: State, t: State)
    requires Runs(s, schedule, t) && OnlyZero(schedule) && forall p: nat :: p != 0 ==> s.Of(p) == Away
    ensures forall p: nat :: p != 0 ==> t.Of(p) == Away
    decreases |schedule|
  {
    if schedule != [] {
      var s' := Apply(s, schedule[0].0, schedule[0].1);
      assert schedule[0].0 == 0;
      forall p: nat | p != 0 ensures s'.Of(p) == Away { OthersStay(s, 0, schedule[0].1, p); }
      OnlyProcessZero(schedule[1..], s', t);
    }
  }

  predicate OnlyZero(schedule: Schedule) {
    forall i :: 0 <= i < |schedule| ==> schedule[i].0 == 0
  }

  // ---- The calls ------------------------------------------------------------------------------

  /** The ownership record and lease of one worktree id, updated in place by the calls of a process
      that is not interrupted. */
  class Ownership {
    var record: Option<Lifecycle>
    var locked: bool
    ghost var trace: seq<Lifecycle>
    ghost var adds: nat

    ghost predicate Valid()
      reads this
    {
      && Legal(trace) && LastIs(trace, record)
      && (record.None? ==> adds == 0) && adds <= 1
    }

    constructor ()
      ensures Valid() && record == None && !locked && adds == 0
    {
      record, locked, trace, adds := None, false, [], 0;
    }

    /** The record file is replaced, unless its existence is not as expected or the write fails. */
    method Write(st: Lifecycle, replace: bool, write: Write) returns (ok: bool)
      modifies this`record, this`trace
      ensures ok <==> old(record).Some? == replace && write.Fine?
      ensures if old(record).Some? == replace && !write.FailsBefore?
              then record == Some(st) && trace == old(trace) + [st]
              else record == old(record) && trace == old(trace)
    {
      ok := false;
      if record.Some? != replace || write.FailsBefore? {
        return;
      }
      record := Some(st);
      trace := trace + [st];
      ok := write.Fine?;
    }

    /** create_worktree */
    method CreateWorktree(env: CreateAnswers) returns (outcome: CreateOutcome)
      requires Valid()
      modifies this
      ensures Valid() && locked == old(locked)
      ensures old(locked) || old(record).Some? || !env.sourceSafe ==>
                outcome == CreateRefused && record == old(record) && adds == old(adds)
      ensures outcome == CreatedNow <==>
                && env == CreateAnswers(true, Fine, true, true, true, Fine, env.preserve)
                && !old(locked) && old(record).None?
      ensures !old(locked) && old(record).None? && env.sourceSafe ==>
                Effect(record, trace, adds, outcome) == CreateEffect(env)
      ensures outcome == CreatedNow ==> record == Some(Active) && adds == 1
      ensures outcome == PartialCreation ==> record in {Some(Creating), Some(Active), Some(Partial)}
      ensures outcome == PartialCreation && !env.preserve.FailsBefore? ==> record == Some(Partial)
      ensures old(trace) <= trace
    {
      if !env.sourceSafe || record.Some? || locked {
        return CreateRefused;
      }
      locked := true;
      var ok := Write(Creating, false, env.firstWrite);
      if !ok {
        locked := false;
        return CreateRefused;
      }
      ok := env.recheck;
      if ok {
        adds := adds + 1;
        ok := env.add && env.verify;
      }
      if ok {
        ok := Write(Active, true, env.activate);
      }
      if ok {
        outcome := CreatedNow;
      } else {
        var kept := Write(Partial, true, env.preserve);
        outcome := PartialCreation;
      }
      locked := false;
    }

    /** cleanup_worktree */
    method CleanupWorktree(verified: bool, removed: bool, write: Write) returns (outcome: CleanupOutcome)
      requires Valid()
      modifies this`record, this`locked, this`trace
      ensures Valid() && locked == old(locked)
      ensures outcome == RemovedNow <==>
                !old(locked) && old(record) == Some(Active) && verified && removed && write.Fine?
      ensures record != old(record) ==> old(record) == Some(Active) && record == Some(Removed)
      ensures outcome == RemovedNow ==> record == Some(Removed)
      ensures outcome == AlreadyRemoved <==> !old(locked) && old(record) == Some(Removed) && verified
      ensures var goes := !old(locked) && old(record) == Some(Active) && verified && removed && !write.FailsBefore?;
              && record == (if goes then Some(Removed) else old(record))
              && trace == (if goes then old(trace) + [Removed] else old(trace))
      ensures old(trace) <= trace
    {
      if locked {
        return CleanupRefused;
      }
      locked := true;
      if record == Some(Removed) && verified {
        outcome := AlreadyRemoved;
      } else if record != Some(Active) || !verified || !removed {
        outcome := CleanupRefused;
      } else {
        var ok := Write(Removed, true, write);
        outcome := if ok then RemovedNow else CleanupRefused;
      }
      locked := false;
    }
  }
}
