/** Deterministic repair selection (src/revanent/orchestration/repair_policy.py). */
module RepairPolicy {

  datatype Strategy = LocalBuilder | CodexRepair | NoRepair | RepairBlocked

  datatype Reason =
    | MechanicalFirstFailure | RepeatedDefect | HighRiskDefect | LocalRepairUnavailable
    | CodexRepairUnavailable | CodexRepairNotAuthorized | LimitExhausted | PolicyCancelled
    | SideEffectsUnresolved | ScopeViolation | InvalidEvidence | ExternalRequirement

  datatype Input = Input(
    repeatedDefects: nat,
    highRisk: bool,
    malformedBuilderRepeated: bool,
    localAvailable: bool,
    codexAvailable: bool,
    codexAuthorized: bool,
    repairsRemaining: nat,
    cancelled: bool,
    sideEffectsReconciled: bool,
    scopeValid: bool,
    evidenceValid: bool,
    externalRequirement: bool)

  datatype Decision = Decision(strategy: Strategy, reasons: seq<Reason>)

  predicate Escalated(i: Input) {
    i.highRisk || i.repeatedDefects > 0 || i.malformedBuilderRepeated
  }

  function Decide(i: Input): Decision {
    if i.cancelled then Decision(NoRepair, [PolicyCancelled])
    else if !i.sideEffectsReconciled then Decision(NoRepair, [SideEffectsUnresolved])
    else if !i.scopeValid then Decision(NoRepair, [ScopeViolation])
    else if !i.evidenceValid then Decision(NoRepair, [InvalidEvidence])
    else if i.externalRequirement then Decision(RepairBlocked, [ExternalRequirement])
    else if i.repairsRemaining == 0 then Decision(NoRepair, [LimitExhausted])
    else if Escalated(i) then
      if i.codexAvailable && i.codexAuthorized then
        Decision(CodexRepair, [if i.highRisk then HighRiskDefect else RepeatedDefect])
      else if i.codexAvailable then Decision(RepairBlocked, [CodexRepairNotAuthorized])
      else Decision(RepairBlocked, [CodexRepairUnavailable])
    else if i.localAvailable then Decision(LocalBuilder, [MechanicalFirstFailure])
    else if i.codexAvailable && i.codexAuthorized then Decision(CodexRepair, [LocalRepairUnavailable])
    else if i.codexAvailable then Decision(RepairBlocked, [CodexRepairNotAuthorized])
    else Decision(RepairBlocked, [LocalRepairUnavailable, CodexRepairUnavailable])
  }

  /** Something rules out any repair, by hand or not. */
  predicate Forbidden(i: Input) {
    i.cancelled || !i.sideEffectsReconciled || !i.scopeValid || !i.evidenceValid
  }

  /** Nothing stands in the way of an automatic repair. */
  predicate RepairPermitted(i: Input) {
    !Forbidden(i) && !i.externalRequirement && i.repairsRemaining > 0
  }

  /** A repair starts exactly when nothing forbids it and an adapter with enough authority exists;
      the local builder is used for plain first failures only, and a missing authority blocks the
      run while a forbidden repair refuses it. */
  lemma DecisionIsExact(i: Input)
    ensures Decide(i).strategy == LocalBuilder <==> RepairPermitted(i) && !Escalated(i) && i.localAvailable
    ensures Decide(i).strategy == CodexRepair <==>
              RepairPermitted(i) && (Escalated(i) || !i.localAvailable) && i.codexAvailable && i.codexAuthorized
    ensures Decide(i).strategy == NoRepair <==> Forbidden(i) || (!i.externalRequirement && i.repairsRemaining == 0)
    ensures Decide(i).strategy == RepairBlocked <==>
              && !Forbidden(i)
              && (i.externalRequirement
                  || (i.repairsRemaining > 0 && (Escalated(i) || !i.localAvailable)
                      && !(i.codexAvailable && i.codexAuthorized)))
  {
  }

  /** The reasons name what decided: the first thing that forbids a repair, an external requirement, the
      used-up allowance, the kind of defect, or the adapters and the authority that are missing. */
  lemma ReasonsAreExact(i: Input)
    ensures forall r: Reason :: r in Decide(i).reasons <==> Decides(i, r)
    ensures 1 <= |Decide(i).reasons| <= 2
    ensures |Decide(i).reasons| == 2 ==> Decide(i).reasons == [LocalRepairUnavailable, CodexRepairUnavailable]
  {
  }

  predicate Decides(i: Input, r: Reason) {
    var codex := i.codexAvailable && i.codexAuthorized;
    match r
    case PolicyCancelled => i.cancelled
    case SideEffectsUnresolved => !i.cancelled && !i.sideEffectsReconciled
    case ScopeViolation => !i.cancelled && i.sideEffectsReconciled && !i.scopeValid
    case InvalidEvidence => !i.cancelled && i.sideEffectsReconciled && i.scopeValid && !i.evidenceValid
    case ExternalRequirement => !Forbidden(i) && i.externalRequirement
    case LimitExhausted => !Forbidden(i) && !i.externalRequirement && i.repairsRemaining == 0
    case HighRiskDefect => RepairPermitted(i) && codex && i.highRisk
    case RepeatedDefect =>
      RepairPermitted(i) && codex && !i.highRisk && (i.repeatedDefects > 0 || i.malformedBuilderRepeated)
    case MechanicalFirstFailure => RepairPermitted(i) && !Escalated(i) && i.localAvailable
    case LocalRepairUnavailable =>
      RepairPermitted(i) && !Escalated(i) && !i.localAvailable && (codex || !i.codexAvailable)
    case CodexRepairNotAuthorized =>
      RepairPermitted(i) && (Escalated(i) || !i.localAvailable) && i.codexAvailable && !i.codexAuthorized
    case CodexRepairUnavailable =>
      RepairPermitted(i) && (Escalated(i) || !i.localAvailable) && !i.codexAvailable
  }
}
