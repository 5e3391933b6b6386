/** The ordered validation runner (src/revanent/validation/runner.py). */
module ValidationRunner {
  import opened Domain
  import opened Validation

  // ---- What the command runner may answer ---------------------------------------------------

  /** Captured output before translation; `trusted` is the outcome of the file-system checks on a
      reported artifact. */
  datatype CapturedArtifact = CapturedArtifact(
    trusted: bool,
    complete: bool,
    observed: nat,
    sourceRetained: nat,
    redactedObserved: nat,
    stored: nat)

  datatype Captured = Captured(
    text: Bytes,
    observed: nat,
    retained: nat,
    truncated: bool,
    redactionTruncated: bool,
    artifact: Option<CapturedArtifact>)
  {
    predicate WellTyped() {
      retained <= observed && (truncated <==> retained < observed)
    }
  }

  datatype CommandResult = CommandResult(
    correlation: string,
    executable: string,
    resolvedExecutable: Option<string>,
    status: CommandStatus,
    startedAt: int,
    completedAt: int,
    exitCode: Option<int>,
    stdout: Captured,
    stderr: Captured,
    executableUnavailable: bool)
  {
    /** The result's own construction checks. */
    predicate WellTyped() {
      && startedAt <= completedAt
      && (status in {Success, NonzeroExit} ==> exitCode.Some?)
      && (status in {PolicyRejected, LaunchFailed, InternalError} ==> exitCode.None?)
      && stdout.WellTyped() && stderr.WellTyped()
    }
  }

  datatype Answer = Raised | Answered(result: CommandResult)

  /** Environment of one command: was cancellation visible before it, is its working directory
      still inside the workspace, and what did the command runner answer. */
  datatype Probe = Probe(cancelled: bool, directoryOk: bool, answer: Answer) {
    predicate WellTyped() {
      answer.Answered? ==> answer.result.WellTyped()
    }
  }

  // ---- Evidence construction ----------------------------------------------------------------

  /** Evidence of a command that was never handed to the command runner. */
  function Prelaunch(plan: Plan, k: nat, at: int, status: Status, code: string): Evidence
    requires k < |plan.commands|
  {
    var c := plan.commands[k];
    Evidence(plan.id, plan.owner, c.id, k + 1, c.classification, status, None, at, at, 0,
             c.executable, None, Correlate(plan.id, c.id), None, c.expectedExitCodes,
             EMPTY_OUTPUT, EMPTY_OUTPUT, Some(code))
  }

  function NotRunFrom(plan: Plan, k: nat, at: int, code: string): (out: seq<Evidence>)
    requires k <= |plan.commands|
    ensures |out| == |plan.commands| - k
    ensures forall i :: 0 <= i < |out| ==> out[i] == Prelaunch(plan, k + i, at, NotRun, code)
  {
    seq(|plan.commands| - k, i requires 0 <= i < |plan.commands| - k => Prelaunch(plan, k + i, at, NotRun, code))
  }

  /** Whole milliseconds, never negative and at most a day. */
  function DurationMs(startedAt: int, completedAt: int): nat {
    var ms := (completedAt - startedAt) / 1_000;
    if ms < 0 then 0 else if ms > MAX_DURATION_MS then MAX_DURATION_MS else ms
  }

  function InvalidFrom(plan: Plan, k: nat, r: CommandResult, at: Option<int>, code: string): Evidence
    requires k < |plan.commands|
  {
    var c := plan.commands[k];
    var startedAt := if at.Some? then at.value else r.startedAt;
    var ms := if at.Some? then 0 else DurationMs(r.startedAt, r.completedAt);
    Evidence(plan.id, plan.owner, c.id, k + 1, c.classification, Invalid, Some(r.status),
             startedAt, startedAt + ms * 1_000, ms, c.executable,
             if r.resolvedExecutable.Some? && Absolute(r.resolvedExecutable.value) then r.resolvedExecutable else None,
             Correlate(plan.id, c.id), r.exitCode, c.expectedExitCodes, EMPTY_OUTPUT, EMPTY_OUTPUT, Some(code))
  }

  function TranslateOutput(plan: Plan, c: Command, o: Captured, limit: nat): Option<Output> {
    if o.retained > limit || |o.text| > limit + 256 || 0 in o.text then None
    else if o.artifact.Some?
            && (!c.output.captureArtifacts || !plan.artifactsAllowed || !o.artifact.value.trusted) then None
    else
      var translated := Output(
        o.text, o.observed, o.retained, o.truncated, o.redactionTruncated,
        match o.artifact
        case None => None
        case Some(a) => Some(Artifact(Correlate(plan.id, c.id), a.complete, a.observed, a.sourceRetained,
                                      a.redactedObserved, a.stored)));
      if translated.Valid() then Some(translated) else None
  }

  predicate CompleteEnough(required: bool, o: Output) {
    required && (o.truncated || o.redactionTruncated) ==> o.artifact.Some? && o.artifact.value.complete
  }

  function MapStatus(c: Command, r: CommandResult): (Status, Option<string>) {
    match r.status
    case Success =>
      if r.exitCode.Some? && r.exitCode.value in c.expectedExitCodes then (Passed, None)
      else (Invalid, Some("expected_exit_mismatch"))
    case NonzeroExit => (StatusFailed, Some("unexpected_exit_code"))
    case Timeout => (TimedOut, Some("command_timeout"))
    case CommandCancelled => (StatusCancelled, Some("command_cancelled"))
    case PolicyRejected =>
      if r.executableUnavailable then (Unavailable, Some("executable_unavailable"))
      else (StatusBlocked, Some("command_policy_blocked"))
    case LaunchFailed => (StatusBlocked, Some("command_launch_failed"))
    case OutputArtifactFailed => (Invalid, Some("command_artifact_failed"))
    case InternalError => (Invalid, Some("command_internal_error"))
  }

  predicate IdentityRequired(st: CommandStatus) {
    st in {Success, NonzeroExit, Timeout, CommandCancelled, LaunchFailed, OutputArtifactFailed}
  }

  /** Why an answer of the command runner is not taken at face value. */
  function Rejection(plan: Plan, k: nat, r: CommandResult, earliest: int): Option<string>
    requires k < |plan.commands|
  {
    var c := plan.commands[k];
    if r.startedAt < earliest then Some("command_chronology_invalid")
    else if r.correlation != Correlate(plan.id, c.id) || r.executable != c.executable then
      Some("command_correlation_mismatch")
    else if IdentityRequired(r.status) && (r.resolvedExecutable.None? || !Absolute(r.resolvedExecutable.value)) then
      Some("executable_identity_missing")
    else
      var stdout := TranslateOutput(plan, c, r.stdout, c.output.stdoutBytes);
      var stderr := TranslateOutput(plan, c, r.stderr, c.output.stderrBytes);
      if stdout.None? || stderr.None?
         || !CompleteEnough(c.output.requireCompleteStdout, stdout.value)
         || !CompleteEnough(c.output.requireCompleteStderr, stderr.value) then
        Some("invalid_command_output_evidence")
      else None
  }

  /** _normalize_command_result */
  function Normalize(plan: Plan, k: nat, r: CommandResult, earliest: int): Evidence
    requires k < |plan.commands|
  {
    var c := plan.commands[k];
    match Rejection(plan, k, r, earliest)
    case Some(code) =>
      InvalidFrom(plan, k, r, if r.startedAt < earliest then Some(earliest) else None, code)
    case None =>
      var ms := DurationMs(r.startedAt, r.completedAt);
      var (status, failure) := MapStatus(c, r);
      Evidence(plan.id, plan.owner, c.id, k + 1, c.classification, status, Some(r.status),
               r.startedAt, r.startedAt + ms * 1_000, ms, c.executable, r.resolvedExecutable,
               Correlate(plan.id, c.id), r.exitCode, c.expectedExitCodes,
               TranslateOutput(plan, c, r.stdout, c.output.stdoutBytes).value,
               TranslateOutput(plan, c, r.stderr, c.output.stderrBytes).value, failure)
  }

  /** An answer the evidence model can represent: an unsigned 32-bit exit code, and no relative
      executable path on an answer that is taken at face value. */
  predicate Representable(plan: Plan, k: nat, r: CommandResult, earliest: int)
    requires k < |plan.commands|
  {
    && (r.exitCode.Some? ==> 0 <= r.exitCode.value < 0x1_0000_0000)
    && (Rejection(plan, k, r, earliest).None? && r.resolvedExecutable.Some? ==> Absolute(r.resolvedExecutable.value))
  }

  /** _execute_command: the evidence of command `k` when it is attempted at `cursor`. */
  function Attempt(plan: Plan, k: nat, p: Probe, cursor: int): Evidence
    requires k < |plan.commands|
  {
    if !p.directoryOk then Prelaunch(plan, k, cursor, Invalid, "working_directory_outside_workspace")
    else match p.answer
         case Raised => Prelaunch(plan, k, cursor, Invalid, "command_boundary_exception")
         case Answered(r) => Normalize(plan, k, r, cursor)
  }

  predicate ShouldStop(plan: Plan, e: Evidence) {
    if e.status == StatusCancelled then true
    else if !plan.failFast || e.status == Passed then false
    else !(e.classification == Advisory && e.status == StatusFailed && plan.allowAdvisoryFailures)
  }

  // ---- The run as a function ----------------------------------------------------------------

  /** Evidence of commands k, k+1, ... when command k may start no earlier than `cursor`. */
  function RunFrom(plan: Plan, k: nat, cursor: int, env: seq<Probe>): (out: seq<Evidence>)
    requires k <= |plan.commands| == |env|
    ensures |out| == |plan.commands| - k
    decreases |plan.commands| - k
  {
    if k == |plan.commands| then []
    else if env[k].cancelled then
      [Prelaunch(plan, k, cursor, StatusCancelled, "cancelled_before_command")]
      + NotRunFrom(plan, k + 1, cursor, "plan_cancelled")
    else
      var e := Attempt(plan, k, env[k], cursor);
      if ShouldStop(plan, e) then
        [e] + NotRunFrom(plan, k + 1, e.completedAt,
                         if e.status == StatusCancelled then "plan_cancelled" else "fail_fast")
      else [e] + RunFrom(plan, k + 1, e.completedAt, env)
  }

  function RunAll(plan: Plan, startedAt: int, preflight: Option<string>, env: seq<Probe>): (out: seq<Evidence>)
    requires plan.commands != [] && |env| == |plan.commands|
    ensures |out| == |plan.commands|
  {
    if preflight.Some? then
      [Prelaunch(plan, 0, startedAt, Invalid, preflight.value)]
      + NotRunFrom(plan, 1, startedAt, "plan_preflight_failed")
    else RunFrom(plan, 0, startedAt, env)
  }

  // ---- Every piece of evidence is correlated, ordered and valid -------------------------------

  /** Correlated evidence of command `k` that starts no earlier than `cursor`. */
  predicate Fits(plan: Plan, k: nat, e: Evidence, cursor: int)
    requires k < |plan.commands|
  {
    var c := plan.commands[k];
    && cursor <= e.startedAt <= e.completedAt
    && e.status != PassedWithAdvisories
    && e.sequence == k + 1
    && e.commandId == c.id
    && e.planId == plan.id
    && e.owner == plan.owner
    && e.classification == c.classification
    && e.executable == c.executable
    && e.expectedExitCodes == c.expectedExitCodes
    && e.correlation == Correlate(plan.id, c.id)
  }

  lemma PrelaunchFits(plan: Plan, k: nat, at: int, status: Status, code: string)
    requires k < |plan.commands| <= MAX_COMMANDS && status in {NotRun, StatusCancelled, Invalid}
    ensures Fits(plan, k, Prelaunch(plan, k, at, status, code), at)
    ensures Prelaunch(plan, k, at, status, code).Valid()
  {
  }

  lemma NormalizeFits(plan: Plan, k: nat, r: CommandResult, cursor: int)
    requires k < |plan.commands| <= MAX_COMMANDS && r.WellTyped()
    ensures Fits(plan, k, Normalize(plan, k, r, cursor), cursor)
  {
  }

  lemma MappedStatusIsConsistent(c: Command, r: CommandResult)
    ensures var (status, failure) := MapStatus(c, r);
            && status !in {NotRun, PassedWithAdvisories}
            && (status == Passed <==> failure.None?)
            && (status == Passed ==> r.status == Success && r.exitCode.Some? && r.exitCode.value in c.expectedExitCodes)
  {
  }

  /** Evidence built from an answer is valid exactly when the answer is representable; otherwise
      the construction raises. */
  lemma NormalizeValidExactly(plan: Plan, k: nat, r: CommandResult, cursor: int)
    requires k < |plan.commands| <= MAX_COMMANDS && r.WellTyped()
    ensures Normalize(plan, k, r, cursor).Valid() <==> Representable(plan, k, r, cursor)
  {
    MappedStatusIsConsistent(plan.commands[k], r);
  }

  /** Such answers exist: a policy rejection that reports a relative executable is taken at face
      value, and its evidence cannot be constructed. */
  lemma RelativeIdentityRaises(plan: Plan, k: nat, cursor: int)
    requires k < |plan.commands| && !plan.commands[k].output.captureArtifacts
    ensures var c := plan.commands[k];
            var quiet := Captured([], 0, 0, false, false, None);
            var r := CommandResult(Correlate(plan.id, c.id), c.executable, Some("git"), PolicyRejected,
                                   cursor, cursor, None, quiet, quiet, false);
            r.WellTyped() && !Normalize(plan, k, r, cursor).Valid()
  {
  }

  predicate ProbeRepresentable(plan: Plan, k: nat, p: Probe, cursor: int)
    requires k < |plan.commands|
  {
    p.directoryOk && p.answer.Answered? ==> Representable(plan, k, p.answer.result, cursor)
  }

  lemma AttemptFits(plan: Plan, k: nat, p: Probe, cursor: int)
    requires k < |plan.commands| <= MAX_COMMANDS && p.WellTyped()
    ensures Fits(plan, k, Attempt(plan, k, p, cursor), cursor)
    ensures Attempt(plan, k, p, cursor).Valid() <==> ProbeRepresentable(plan, k, p, cursor)
  {
    PrelaunchFits(plan, k, cursor, Invalid, "working_directory_outside_workspace");
    PrelaunchFits(plan, k, cursor, Invalid, "command_boundary_exception");
    if p.directoryOk && p.answer.Answered? {
      NormalizeFits(plan, k, p.answer.result, cursor);
      NormalizeValidExactly(plan, k, p.answer.result, cursor);
    }
  }

  /** Element `i` of the evidence of the last |es| commands fits behind its predecessor. */
  predicate Link(plan: Plan, es: seq<Evidence>, cursor: int, i: nat)
    requires i < |es| <= |plan.commands|
  {
    Fits(plan, |plan.commands| - |es| + i, es[i], if i == 0 then cursor else es[i - 1].completedAt)
  }

  ghost predicate Chain(plan: Plan, es: seq<Evidence>, cursor: int)
    requires |es| <= |plan.commands|
  {
    forall i :: 0 <= i < |es| ==> Link(plan, es, cursor, i)
  }

  lemma NotRunChain(plan: Plan, k: nat, at: int, code: string)
    requires k <= |plan.commands| <= MAX_COMMANDS
    ensures Chain(plan, NotRunFrom(plan, k, at, code), at)
    ensures forall e :: e in NotRunFrom(plan, k, at, code) ==> e.Valid()
  {
    var es := NotRunFrom(plan, k, at, code);
    forall i | 0 <= i < |es| ensures Link(plan, es, at, i) && es[i].Valid() {
      PrelaunchFits(plan, k + i, at, NotRun, code);
    }
  }

  lemma ConsChain(plan: Plan, e: Evidence, rest: seq<Evidence>, cursor: int)
    requires 1 + |rest| <= |plan.commands|
    requires Fits(plan, |plan.commands| - |rest| - 1, e, cursor) && Chain(plan, rest, e.completedAt)
    ensures Chain(plan, [e] + rest, cursor)
  {
    var es := [e] + rest;
    forall i | 0 <= i < |es| ensures Link(plan, es, cursor, i) {
      if i > 0 {
        assert Link(plan, rest, e.completedAt, i - 1);
      }
    }
  }

  lemma {:induction false} RunChain(plan: Plan, k: nat, cursor: int, env: seq<Probe>)
    requires k <= |plan.commands| == |env| <= MAX_COMMANDS
    requires forall p :: p in env ==> p.WellTyped()
    ensures Chain(plan, RunFrom(plan, k, cursor, env), cursor)
    decreases |plan.commands| - k
  {
    if k < |plan.commands| {
      if env[k].cancelled {
        PrelaunchFits(plan, k, cursor, StatusCancelled, "cancelled_before_command");
        NotRunChain(plan, k + 1, cursor, "plan_cancelled");
        ConsChain(plan, Prelaunch(plan, k, cursor, StatusCancelled, "cancelled_before_command"),
                  NotRunFrom(plan, k + 1, cursor, "plan_cancelled"), cursor);
      } else {
        var e := Attempt(plan, k, env[k], cursor);
        AttemptFits(plan, k, env[k], cursor);
        if ShouldStop(plan, e) {
          var code := if e.status == StatusCancelled then "plan_cancelled" else "fail_fast";
          NotRunChain(plan, k + 1, e.completedAt, code);
          ConsChain(plan, e, NotRunFrom(plan, k + 1, e.completedAt, code), cursor);
        } else {
          RunChain(plan, k + 1, e.completedAt, env);
          ConsChain(plan, e, RunFrom(plan, k + 1, e.completedAt, env), cursor);
        }
      }
    }
  }

  /** A chain that starts no earlier than the plan is what the aggregator accepts. */
  lemma ChainIsAccepted(plan: Plan, es: seq<Evidence>, startedAt: int)
    requires |es| == |plan.commands| && plan.createdAt <= startedAt
    requires Chain(plan, es, startedAt)
    ensures Accepts(plan, es)
    ensures forall e :: e in es ==> e.status != PassedWithAdvisories && e.startedAt <= e.completedAt
  {
    forall i | 0 <= i < |es| ensures Correlated(plan, es, i) && InOrder(plan, es, i) {
      assert Link(plan, es, startedAt, i);
      StartsAfter(plan, es, startedAt, i);
    }
    forall e | e in es ensures e.status != PassedWithAdvisories && e.startedAt <= e.completedAt {
      var i :| 0 <= i < |es| && es[i] == e;
      assert Link(plan, es, startedAt, i);
    }
  }

  lemma {:induction false} StartsAfter(plan: Plan, es: seq<Evidence>, startedAt: int, i: nat)
    requires i < |es| == |plan.commands| && Chain(plan, es, startedAt)
    ensures startedAt <= es[i].startedAt
    decreases i
  {
    assert Link(plan, es, startedAt, i);
    if i > 0 {
      StartsAfter(plan, es, startedAt, i - 1);
      assert Link(plan, es, startedAt, i - 1);
    }
  }

  /** Once a command did not run, none after it did. */
  ghost predicate NotRunIsASuffix(es: seq<Evidence>) {
    forall i, j :: 0 <= i < j < |es| && es[i].status == NotRun ==> es[j].status == NotRun
  }

  lemma AttemptWasRun(plan: Plan, k: nat, p: Probe, cursor: int)
    requires k < |plan.commands|
    ensures Attempt(plan, k, p, cursor).status != NotRun
  {
  }

  lemma {:induction false} RunSuffix(plan: Plan, k: nat, cursor: int, env: seq<Probe>)
    requires k <= |plan.commands| == |env|
    ensures NotRunIsASuffix(RunFrom(plan, k, cursor, env))
    decreases |plan.commands| - k
  {
    if k < |plan.commands| && !env[k].cancelled {
      var e := Attempt(plan, k, env[k], cursor);
      AttemptWasRun(plan, k, env[k], cursor);
      if !ShouldStop(plan, e) {
        RunSuffix(plan, k + 1, e.completedAt, env);
      }
    }
  }

  lemma RunAllChain(plan: Plan, startedAt: int, preflight: Option<string>, env: seq<Probe>)
    requires plan.commands != [] && |env| == |plan.commands| <= MAX_COMMANDS
    requires forall p :: p in env ==> p.WellTyped()
    ensures Chain(plan, RunAll(plan, startedAt, preflight, env), startedAt)
  {
    if preflight.Some? {
      PrelaunchFits(plan, 0, startedAt, Invalid, preflight.value);
      NotRunChain(plan, 1, startedAt, "plan_preflight_failed");
      ConsChain(plan, Prelaunch(plan, 0, startedAt, Invalid, preflight.value),
                NotRunFrom(plan, 1, startedAt, "plan_preflight_failed"), startedAt);
    } else {
      RunChain(plan, 0, startedAt, env);
    }
  }

  lemma RunAllSuffix(plan: Plan, startedAt: int, preflight: Option<string>, env: seq<Probe>)
    requires plan.commands != [] && |env| == |plan.commands|
    ensures var es := RunAll(plan, startedAt, preflight, env); NotRunIsASuffix(es) && es[0].status != NotRun
  {
    if preflight.None? {
      RunSuffix(plan, 0, startedAt, env);
      AttemptWasRun(plan, 0, env[0], startedAt);
    }
  }

  /** For every plan, start time, cancellation pattern, preflight outcome and well-typed command
      runner, the evidence of a run is accepted by the strict aggregator, the aggregate satisfies
      its model, and commands that did not run form a suffix behind at least one that did. */
  lemma RunnerSatisfiesAggregator(plan: Plan, startedAt: int, preflight: Option<string>, env: seq<Probe>)
    requires plan.Valid() && plan.createdAt <= startedAt
    requires |env| == |plan.commands| && forall p :: p in env ==> p.WellTyped()
    ensures var es := RunAll(plan, startedAt, preflight, env);
            && Aggregate(plan, es).Ok?
            && Aggregate(plan, es).value.Valid()
            && NotRunIsASuffix(es) && es[0].status != NotRun
  {
    var es := RunAll(plan, startedAt, preflight, env);
    RunAllChain(plan, startedAt, preflight, env);
    ChainIsAccepted(plan, es, startedAt);
    RunAllSuffix(plan, startedAt, preflight, env);
    AggregateIsValid(plan, es);
  }

  // ---- Which runs raise ---------------------------------------------------------------------

  /** The run comes to hand command `i` to the command runner, no earlier than `at`. It is told from
      the commands before: none is cancelled, and none makes the run stop. */
  predicate Reaches(plan: Plan, k: nat, cursor: int, env: seq<Probe>, i: nat, at: int)
    requires k <= |plan.commands| == |env|
    decreases |plan.commands| - k
  {
    && k <= i < |plan.commands| && !env[k].cancelled
    && if i == k then at == cursor
       else
         var e := Attempt(plan, k, env[k], cursor);
         !ShouldStop(plan, e) && Reaches(plan, k + 1, e.completedAt, env, i, at)
  }

  /** The run reaches an answer that no evidence can represent. */
  ghost predicate MeetsUnrepresentable(plan: Plan, k: nat, cursor: int, env: seq<Probe>)
    requires k <= |plan.commands| == |env|
  {
    exists i: nat, at: int :: Reaches(plan, k, cursor, env, i, at) && !ProbeRepresentable(plan, i, env[i], at)
  }

  lemma MeetsStep(plan: Plan, k: nat, cursor: int, env: seq<Probe>)
    requires k < |plan.commands| == |env|
    ensures MeetsUnrepresentable(plan, k, cursor, env) <==>
              && !env[k].cancelled
              && (|| !ProbeRepresentable(plan, k, env[k], cursor)
                  || var e := Attempt(plan, k, env[k], cursor);
                     !ShouldStop(plan, e) && MeetsUnrepresentable(plan, k + 1, e.completedAt, env))
  {
    if !env[k].cancelled {
      var e := Attempt(plan, k, env[k], cursor);
      if !ProbeRepresentable(plan, k, env[k], cursor) {
        assert Reaches(plan, k, cursor, env, k, cursor);
      } else if !ShouldStop(plan, e) && MeetsUnrepresentable(plan, k + 1, e.completedAt, env) {
        var i: nat, at: int :| Reaches(plan, k + 1, e.completedAt, env, i, at)
          && !ProbeRepresentable(plan, i, env[i], at);
        assert Reaches(plan, k, cursor, env, i, at);
      }
    }
  }

  /** How the run continues at command `k`, and that whatever it adds there without attempting a
      command is valid evidence. */
  lemma RunStep(plan: Plan, k: nat, cursor: int, env: seq<Probe>)
    requires k < |plan.commands| == |env| <= MAX_COMMANDS
    ensures env[k].cancelled ==> forall x :: x in RunFrom(plan, k, cursor, env) ==> x.Valid()
    ensures !env[k].cancelled ==>
              var e := Attempt(plan, k, env[k], cursor);
              var code := if e.status == StatusCancelled then "plan_cancelled" else "fail_fast";
              var rest := if ShouldStop(plan, e) then NotRunFrom(plan, k + 1, e.completedAt, code)
                          else RunFrom(plan, k + 1, e.completedAt, env);
              && RunFrom(plan, k, cursor, env) == [e] + rest
              && (ShouldStop(plan, e) ==> forall x :: x in rest ==> x.Valid())
  {
    if env[k].cancelled {
      PrelaunchFits(plan, k, cursor, StatusCancelled, "cancelled_before_command");
      NotRunChain(plan, k + 1, cursor, "plan_cancelled");
    } else {
      var e := Attempt(plan, k, env[k], cursor);
      NotRunChain(plan, k + 1, e.completedAt, if e.status == StatusCancelled then "plan_cancelled" else "fail_fast");
    }
  }

  lemma InvalidInParts(e: Evidence, rest: seq<Evidence>)
    ensures (exists x :: x in [e] + rest && !x.Valid()) <==> !e.Valid() || exists x :: x in rest && !x.Valid()
  {
    if !e.Valid() { assert e in [e] + rest; }
  }

  /** Some evidence of a run cannot be constructed exactly when the run reaches an answer that is not
      representable. */
  lemma {:induction false} RunValidExactly(plan: Plan, k: nat, cursor: int, env: seq<Probe>)
    requires k <= |plan.commands| == |env| <= MAX_COMMANDS
    requires forall p :: p in env ==> p.WellTyped()
    ensures (exists e :: e in RunFrom(plan, k, cursor, env) && !e.Valid())
            <==> MeetsUnrepresentable(plan, k, cursor, env)
    decreases |plan.commands| - k
  {
    if k < |plan.commands| {
      MeetsStep(plan, k, cursor, env);
      RunStep(plan, k, cursor, env);
      if !env[k].cancelled {
        var e := Attempt(plan, k, env[k], cursor);
        AttemptFits(plan, k, env[k], cursor);
        InvalidInParts(e, RunFrom(plan, k, cursor, env)[1..]);
        if !ShouldStop(plan, e) { RunValidExactly(plan, k + 1, e.completedAt, env); }
      }
    }
  }

  // ---- What a run reports ---------------------------------------------------------------------

  /** After this evidence nothing more is run: a cancellation, or under fail-fast anything but a pass
      or an advisory failure that the plan accepts. */
  predicate EndsTheRun(plan: Plan, e: Evidence) {
    || e.status == StatusCancelled
    || (&& plan.failFast && e.status != Passed
        && (e.classification == Required || e.status != StatusFailed || !plan.allowAdvisoryFailures))
  }

  ghost predicate StillRunning(plan: Plan, es: seq<Evidence>, i: nat)
    requires i <= |es|
  {
    forall j :: 0 <= j < i ==> !EndsTheRun(plan, es[j])
  }

  /** When command `i` may start at the earliest. */
  function EarliestStart(es: seq<Evidence>, startedAt: int, i: nat): int
    requires i <= |es|
  {
    if i == 0 then startedAt else es[i - 1].completedAt
  }

  lemma EndsExactly(plan: Plan, e: Evidence)
    ensures EndsTheRun(plan, e) <==> ShouldStop(plan, e)
  {
  }

  lemma SkippedStayNotRun(plan: Plan, k: nat, at: int, code: string, i: nat)
    requires k <= |plan.commands| && i < |plan.commands| - k
    ensures NotRunFrom(plan, k, at, code)[i].status == NotRun
  {
  }

  /** Element `i` of the evidence of commands k, k+1, ...: not run, cancelled or attempted. */
  ghost predicate TellsCommand(plan: Plan, k: nat, cursor: int, env: seq<Probe>, es: seq<Evidence>, i: nat)
    requires k + |es| == |plan.commands| == |env| && i < |es|
  {
    && (es[i].status == NotRun <==> !StillRunning(plan, es, i))
    && (StillRunning(plan, es, i) && env[k + i].cancelled ==>
          es[i] == Prelaunch(plan, k + i, EarliestStart(es, cursor, i), StatusCancelled, "cancelled_before_command"))
    && (StillRunning(plan, es, i) && !env[k + i].cancelled ==>
          es[i] == Attempt(plan, k + i, env[k + i], EarliestStart(es, cursor, i)))
  }

  lemma TellsHead(plan: Plan, k: nat, cursor: int, env: seq<Probe>)
    requires k < |plan.commands| == |env|
    ensures TellsCommand(plan, k, cursor, env, RunFrom(plan, k, cursor, env), 0)
  {
    AttemptWasRun(plan, k, env[k], cursor);
  }

  /** What the rest of the run tells, the whole run tells. */
  lemma TellsTail(plan: Plan, k: nat, cursor: int, env: seq<Probe>, e: Evidence, rest: seq<Evidence>, i: nat)
    requires k + 1 + |rest| == |plan.commands| == |env| && i < |rest|
    requires !EndsTheRun(plan, e) && TellsCommand(plan, k + 1, e.completedAt, env, rest, i)
    ensures TellsCommand(plan, k, cursor, env, [e] + rest, i + 1)
  {
    var es := [e] + rest;
    assert StillRunning(plan, es, i + 1) <==> StillRunning(plan, rest, i) by {
      if StillRunning(plan, es, i + 1) {
        forall j | 0 <= j < i ensures !EndsTheRun(plan, rest[j]) { assert es[j + 1] == rest[j]; }
      }
    }
    assert EarliestStart(es, cursor, i + 1) == EarliestStart(rest, e.completedAt, i);
  }

  lemma {:induction false} RunTells(plan: Plan, k: nat, cursor: int, env: seq<Probe>, i: nat)
    requires k + i < |plan.commands| == |env|
    ensures TellsCommand(plan, k, cursor, env, RunFrom(plan, k, cursor, env), i)
    decreases |plan.commands| - k
  {
    var es := RunFrom(plan, k, cursor, env);
    if i == 0 {
      TellsHead(plan, k, cursor, env);
    } else if env[k].cancelled {
      assert EndsTheRun(plan, es[0]);
      SkippedStayNotRun(plan, k + 1, cursor, "plan_cancelled", i - 1);
    } else {
      var e := Attempt(plan, k, env[k], cursor);
      EndsExactly(plan, e);
      if ShouldStop(plan, e) {
        assert es[0] == e;
      } else {
        RunTells(plan, k + 1, e.completedAt, env, i - 1);
        TellsTail(plan, k, cursor, env, e, RunFrom(plan, k + 1, e.completedAt, env), i - 1);
      }
    }
  }

  /** Captured output that the plan lets pass. */
  predicate OutputMeets(plan: Plan, c: Command, o: Captured, limit: nat, complete: bool) {
    && o.retained <= limit && |o.text| <= limit + 256 && 0 !in o.text
    && |o.text| <= MAX_OUTPUT_BYTES && o.retained <= MAX_OUTPUT_BYTES && o.observed <= MAX_ARTIFACT_BYTES
    && o.retained <= o.observed && (o.truncated <==> o.retained < o.observed)
    && (complete && (o.truncated || o.redactionTruncated) ==> o.artifact.Some? && o.artifact.value.complete)
    && (o.artifact.Some? ==>
          && c.output.captureArtifacts && plan.artifactsAllowed && o.artifact.value.trusted
          && (o.truncated || o.redactionTruncated) && ArtifactMeets(o.artifact.value))
  }

  predicate ArtifactMeets(a: CapturedArtifact) {
    && a.observed <= MAX_ARTIFACT_BYTES && a.redactedObserved <= MAX_ARTIFACT_BYTES
    && a.sourceRetained <= a.observed && a.stored <= a.redactedObserved
    && (a.complete <==> a.sourceRetained == a.observed && a.stored == a.redactedObserved)
  }

  /** An answer that meets the plan's conditions on chronology, correlation, identity and output. */
  predicate AnswerMeets(plan: Plan, k: nat, r: CommandResult, earliest: int)
    requires k < |plan.commands|
  {
    var c := plan.commands[k];
    && earliest <= r.startedAt
    && r.correlation == plan.id + "." + c.id && r.executable == c.executable
    && (r.status != PolicyRejected && r.status != InternalError ==>
          r.resolvedExecutable.Some? && Absolute(r.resolvedExecutable.value))
    && OutputMeets(plan, c, r.stdout, c.output.stdoutBytes, c.output.requireCompleteStdout)
    && OutputMeets(plan, c, r.stderr, c.output.stderrBytes, c.output.requireCompleteStderr)
  }

  lemma OutputTranslates(plan: Plan, c: Command, o: Captured, limit: nat, complete: bool)
    ensures OutputMeets(plan, c, o, limit, complete) <==>
              TranslateOutput(plan, c, o, limit).Some?
              && CompleteEnough(complete, TranslateOutput(plan, c, o, limit).value)
  {
  }

  lemma MeetsExactly(plan: Plan, k: nat, r: CommandResult, earliest: int)
    requires k < |plan.commands|
    ensures AnswerMeets(plan, k, r, earliest) <==> Rejection(plan, k, r, earliest).None?
  {
    var c := plan.commands[k];
    OutputTranslates(plan, c, r.stdout, c.output.stdoutBytes, c.output.requireCompleteStdout);
    OutputTranslates(plan, c, r.stderr, c.output.stderrBytes, c.output.requireCompleteStderr);
  }

  /** The status of evidence says how the command ended. */
  predicate StatusTells(c: Command, r: CommandResult, e: Evidence) {
    && (e.status == Passed <==>
          r.status == Success && r.exitCode.Some? && exists n :: n in c.expectedExitCodes && n == r.exitCode.value)
    && (e.status == StatusFailed <==> r.status == NonzeroExit)
    && (e.status == TimedOut <==> r.status == Timeout)
    && (e.status == StatusCancelled <==> r.status == CommandCancelled)
    && (e.status == Unavailable <==> r.status == PolicyRejected && r.executableUnavailable)
    && (e.status == StatusBlocked <==>
          (r.status == PolicyRejected && !r.executableUnavailable) || r.status == LaunchFailed)
    && (e.status == Invalid <==>
          || r.status == OutputArtifactFailed || r.status == InternalError
          || (r.status == Success
              && !(r.exitCode.Some? && exists n :: n in c.expectedExitCodes && n == r.exitCode.value)))
    && (e.failure.None? <==> e.status == Passed)
  }

  predicate OutputTells(o: Captured, out: Output) {
    && out.text == o.text && out.observed == o.observed && out.retained == o.retained
    && out.truncated == o.truncated && out.redactionTruncated == o.redactionTruncated
    && (out.artifact.Some? <==> o.artifact.Some?)
    && (o.artifact.Some? ==>
          && out.artifact.value.complete == o.artifact.value.complete
          && out.artifact.value.observed == o.artifact.value.observed
          && out.artifact.value.sourceRetained == o.artifact.value.sourceRetained
          && out.artifact.value.redactedObserved == o.artifact.value.redactedObserved
          && out.artifact.value.stored == o.artifact.value.stored)
  }

  /** The rest of the evidence repeats the answer; the time is rounded down to whole milliseconds, at
      most a day. */
  predicate EvidenceTells(r: CommandResult, e: Evidence) {
    && e.commandStatus == Some(r.status) && e.exitCode == r.exitCode && e.resolvedExecutable == r.resolvedExecutable
    && e.startedAt == r.startedAt && e.completedAt == e.startedAt + e.durationMs * 1_000
    && e.durationMs <= MAX_DURATION_MS && e.completedAt <= r.completedAt
    && (r.completedAt - r.startedAt < 1_000 * (e.durationMs + 1) || e.durationMs == MAX_DURATION_MS)
    && OutputTells(r.stdout, e.stdout) && OutputTells(r.stderr, e.stderr)
  }

  lemma NormalizeTells(plan: Plan, k: nat, r: CommandResult, earliest: int)
    requires k < |plan.commands| && r.WellTyped() && AnswerMeets(plan, k, r, earliest)
    ensures StatusTells(plan.commands[k], r, Normalize(plan, k, r, earliest))
    ensures EvidenceTells(r, Normalize(plan, k, r, earliest))
  {
    MeetsExactly(plan, k, r, earliest);
    MappingTells(plan.commands[k], r);
  }

  lemma MappingTells(c: Command, r: CommandResult)
    ensures var (status, failure) := MapStatus(c, r);
            forall e: Evidence :: e.status == status && e.failure == failure ==> StatusTells(c, r, e)
  {
  }

  /** An answer that does not meet the conditions is invalid evidence: no output, and never before the
      earliest time. */
  predicate DoubtTells(r: CommandResult, earliest: int, e: Evidence) {
    && e.status == Invalid && e.failure.Some? && e.commandStatus == Some(r.status)
    && e.stdout == EMPTY_OUTPUT && e.stderr == EMPTY_OUTPUT
    && e.startedAt == (if r.startedAt < earliest then earliest else r.startedAt)
  }

  lemma DoubtIsInvalid(plan: Plan, k: nat, r: CommandResult, earliest: int)
    requires k < |plan.commands| && !AnswerMeets(plan, k, r, earliest)
    ensures DoubtTells(r, earliest, Normalize(plan, k, r, earliest))
  {
    MeetsExactly(plan, k, r, earliest);
  }

  /** What a run reports of each command. It was not run if and only if the run had ended before;
      otherwise it was cancelled if that was visible in time, invalid if it could not be started or its
      answer does not meet the conditions, and else the evidence tells the answer. */
  lemma RunReports(plan: Plan, startedAt: int, env: seq<Probe>, i: nat)
    requires i < |plan.commands| == |env| && forall p :: p in env ==> p.WellTyped()
    ensures RunReported(plan, startedAt, env, RunAll(plan, startedAt, None, env), i)
  {
    RunTells(plan, 0, startedAt, env, i);
    var es := RunAll(plan, startedAt, None, env);
    assert env[i] in env;
    if StillRunning(plan, es, i) { ProbeReports(plan, i, env[i], EarliestStart(es, startedAt, i), es[i]); }
  }

  /** What a run reports of command `i`. */
  ghost predicate RunReported(plan: Plan, startedAt: int, env: seq<Probe>, es: seq<Evidence>, i: nat)
    requires i < |plan.commands| == |env| == |es|
  {
    && (es[i].status == NotRun <==> !StillRunning(plan, es, i))
    && (StillRunning(plan, es, i) ==> Reports(plan, i, env[i], EarliestStart(es, startedAt, i), es[i]))
  }

  /** The evidence of a command that the run came to. */
  predicate Reports(plan: Plan, k: nat, p: Probe, earliest: int, e: Evidence)
    requires k < |plan.commands|
  {
    if p.cancelled then
      e.status == StatusCancelled && e.commandStatus.None? && e.startedAt == e.completedAt == earliest
    else if !p.directoryOk || p.answer.Raised? then
      e.status == Invalid && e.commandStatus.None? && e.startedAt == e.completedAt == earliest
    else if AnswerMeets(plan, k, p.answer.result, earliest) then
      StatusTells(plan.commands[k], p.answer.result, e) && EvidenceTells(p.answer.result, e)
    else DoubtTells(p.answer.result, earliest, e)
  }

  lemma ProbeReports(plan: Plan, k: nat, p: Probe, earliest: int, e: Evidence)
    requires k < |plan.commands| && p.WellTyped()
    requires e == if p.cancelled then Prelaunch(plan, k, earliest, StatusCancelled, "cancelled_before_command")
                  else Attempt(plan, k, p, earliest)
    ensures Reports(plan, k, p, earliest, e)
  {
    if !p.cancelled && p.directoryOk && p.answer.Answered? {
      var r := p.answer.result;
      if AnswerMeets(plan, k, r, earliest) {
        NormalizeTells(plan, k, r, earliest);
      } else {
        DoubtIsInvalid(plan, k, r, earliest);
      }
    }
  }

  /** A plan whose preflight fails runs nothing. */
  lemma PreflightReports(plan: Plan, startedAt: int, code: string, env: seq<Probe>, i: nat)
    requires i < |plan.commands| == |env|
    ensures var es := RunAll(plan, startedAt, Some(code), env);
            es[i].status == (if i == 0 then Invalid else NotRun) && es[i].commandStatus.None?
  {
  }

  // ---- The runner itself --------------------------------------------------------------------

  datatype RunError = EvidenceNotRepresentable

  /** The command loop: it stops with no evidence at the first answer that cannot be represented. */
  method RunCommands(plan: Plan, startedAt: int, env: seq<Probe>) returns (results: seq<Evidence>, raised: bool)
    requires |env| == |plan.commands| <= MAX_COMMANDS
    ensures raised <==> exists e :: e in RunFrom(plan, 0, startedAt, env) && !e.Valid()
    ensures !raised ==> results == RunFrom(plan, 0, startedAt, env)
  {
    ghost var whole := RunFrom(plan, 0, startedAt, env);
    results := [];
    var cursor := startedAt;
    for k := 0 to |plan.commands|
      invariant results + RunFrom(plan, k, cursor, env) == whole
      invariant forall e :: e in results ==> e.Valid()
    {
      RunStep(plan, k, cursor, env);
      if env[k].cancelled {
        results := results + ([Prelaunch(plan, k, cursor, StatusCancelled, "cancelled_before_command")]
                              + NotRunFrom(plan, k + 1, cursor, "plan_cancelled"));
        return results, false;
      }
      var e := Attempt(plan, k, env[k], cursor);
      ghost var rest := RunFrom(plan, k, cursor, env)[1..];
      assert whole == (results + [e]) + rest;
      if !e.Valid() {
        assert e in whole;
        return [], true;
      }
      results := results + [e];
      cursor := e.completedAt;
      if ShouldStop(plan, e) {
        results := results + NotRunFrom(plan, k + 1, cursor,
                                        if e.status == StatusCancelled then "plan_cancelled" else "fail_fast");
        return results, false;
      }
    }
    assert results == whole;
    raised := false;
  }

  /** ValidationRunner.execute. It raises exactly when it comes to an answer that cannot be
      represented as evidence; otherwise the aggregate of the whole run is returned. */
  method Execute(plan: Plan, startedAt: int, preflight: Option<string>, env: seq<Probe>)
    returns (outcome: Result<PlanResult, RunError>)
    requires plan.Valid() && plan.createdAt <= startedAt
    requires |env| == |plan.commands| && forall p :: p in env ==> p.WellTyped()
    ensures outcome.Err? <==> preflight.None? && MeetsUnrepresentable(plan, 0, startedAt, env)
    ensures outcome.Ok? ==>
              && outcome.value.Valid()
              && outcome.value.commands == RunAll(plan, startedAt, preflight, env)
              && Aggregate(plan, outcome.value.commands) == Ok(outcome.value)
    ensures outcome.Ok? && preflight.None? ==>
              forall i: nat :: i < |plan.commands| ==> RunReported(plan, startedAt, env, outcome.value.commands, i)
  {
    RunnerSatisfiesAggregator(plan, startedAt, preflight, env);
    RunValidExactly(plan, 0, startedAt, env);
    forall i: nat | preflight.None? && i < |plan.commands|
      ensures RunReported(plan, startedAt, env, RunAll(plan, startedAt, None, env), i)
    {
      RunReports(plan, startedAt, env, i);
    }
    var results: seq<Evidence>;
    var raised := false;
    if preflight.Some? {
      PrelaunchFits(plan, 0, startedAt, Invalid, preflight.value);
      NotRunChain(plan, 1, startedAt, "plan_preflight_failed");
      results := [Prelaunch(plan, 0, startedAt, Invalid, preflight.value)]
                 + NotRunFrom(plan, 1, startedAt, "plan_preflight_failed");
    } else {
      results, raised := RunCommands(plan, startedAt, env);
    }
    if raised {
      return Err(EvidenceNotRepresentable);
    }
    var aggregate := AggregateResults(plan, results);
    outcome := Ok(aggregate.value);
  }
}
