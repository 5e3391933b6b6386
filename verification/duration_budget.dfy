/** Capped validation time (src/revanent/orchestration/service.py: _elapsed_milliseconds,
    _cap_validation_plan, _validation_allowance_ms). */
module DurationBudget {
  import opened Domain
  import opened Ids
  import opened Validation
  import T = Telemetry

  /** A conservative duration in milliseconds; times are microseconds. */
  function ElapsedMs(startedAt: int, completedAt: int): Option<nat> {
    if completedAt < startedAt then None else Some((completedAt - startedAt + 999) / 1_000)
  }

  /** The result is the least whole number of milliseconds that covers the interval, so it never
      understates use, and consecutive intervals are never charged less than their union. */
  lemma ElapsedIsCeiling(a: int, b: int, c: int)
    requires a <= b <= c
    ensures var ms := ElapsedMs(a, b).value;
            b - a <= ms * 1_000 && forall n: nat :: b - a <= n * 1_000 ==> ms <= n
    ensures ElapsedMs(a, c).value <= ElapsedMs(a, b).value + ElapsedMs(b, c).value
  {
  }

  function SumTimeouts(cs: seq<Command>): nat {
    if cs == [] then 0 else cs[0].timeoutSeconds + SumTimeouts(cs[1..])
  }

  lemma {:induction false} SumTimeoutsSnoc(cs: seq<Command>, c: Command)
    ensures SumTimeouts(cs + [c]) == SumTimeouts(cs) + c.timeoutSeconds
  {
    if cs == [] {
      assert cs + [c] == [c];
    } else {
      assert (cs + [c])[1..] == cs[1..] + [c];
      SumTimeoutsSnoc(cs[1..], c);
    }
  }

  lemma {:induction false} SumAtLeastCount(cs: seq<Command>)
    requires forall c :: c in cs ==> 1 <= c.timeoutSeconds
    ensures |cs| <= SumTimeouts(cs)
  {
    if cs != [] {
      assert cs[0] in cs;
      SumAtLeastCount(cs[1..]);
    }
  }

  function Min(a: nat, b: nat): nat {
    if a < b then a else b
  }

  /** `out` are the first commands of `cs` with timeouts cut from the back: a command is cut only
      when every later one is down to one second. */
  ghost predicate CutFromBack(cs: seq<Command>, out: seq<Command>) {
    && |out| <= |cs|
    && (forall i :: 0 <= i < |out| ==> CutAt(cs, out, i))
    && (forall i, j :: 0 <= i < j < |out| && Shortened(cs, out, i) ==> out[j].timeoutSeconds == 1)
  }

  predicate CutAt(cs: seq<Command>, out: seq<Command>, i: nat)
    requires i < |out| <= |cs|
  {
    && out[i] == cs[i].(timeoutSeconds := out[i].timeoutSeconds)
    && 1 <= out[i].timeoutSeconds <= cs[i].timeoutSeconds
  }

  predicate Shortened(cs: seq<Command>, out: seq<Command>, i: nat)
    requires i < |out| <= |cs|
  {
    out[i].timeoutSeconds < cs[i].timeoutSeconds
  }

  /** `capped` runs the same commands with timeouts that fit `seconds`. */
  ghost predicate IsCapOf(plan: Plan, capped: Plan, seconds: nat) {
    && capped == plan.(commands := capped.commands)
    && |capped.commands| == |plan.commands|
    && CutFromBack(plan.commands, capped.commands)
    && SumTimeouts(capped.commands) == Min(seconds, SumTimeouts(plan.commands))
  }

  lemma SumSplit(cs: seq<Command>, i: nat)
    requires i < |cs|
    ensures SumTimeouts(cs[i..]) == cs[i].timeoutSeconds + SumTimeouts(cs[i + 1..])
  {
    assert cs[i..][1..] == cs[i + 1..];
  }

  /** The greedy loop: `available` seconds are handed out front to back, keeping one second for
      every command still to come. */
  method CutTimeouts(cs: seq<Command>, available: nat) returns (out: seq<Command>)
    requires forall c :: c in cs ==> 1 <= c.timeoutSeconds
    requires |cs| <= available <= SumTimeouts(cs)
    ensures |out| == |cs| && CutFromBack(cs, out) && SumTimeouts(out) == available
    ensures available == SumTimeouts(cs) ==> out == cs
  {
    var n := |cs|;
    var remaining := available;
    out := [];
    for i := 0 to n
      invariant |out| == i && CutFromBack(cs, out)
      invariant SumTimeouts(out) + remaining == available
      invariant n - i <= remaining <= SumTimeouts(cs[i..])
      invariant forall k :: 0 <= k < i && Shortened(cs, out, k) ==> remaining == n - i
      invariant available == SumTimeouts(cs) ==> out == cs[..i] && remaining == SumTimeouts(cs[i..])
    {
      var after := n - i - 1;
      SumSplit(cs, i);
      SumAtLeastCount(cs[i + 1..]);
      var timeout := Min(cs[i].timeoutSeconds, remaining - after);
      var c := cs[i].(timeoutSeconds := timeout);
      ghost var was := out;
      SumTimeoutsSnoc(out, c);
      out := out + [c];
      remaining := remaining - timeout;
      forall k | 0 <= k < i + 1 ensures CutAt(cs, out, k) {
        if k < i {
          assert CutAt(cs, was, k);
        }
      }
      forall k | 0 <= k < i ensures Shortened(cs, out, k) <==> Shortened(cs, was, k) {}
      assert cs[..i + 1] == cs[..i] + [cs[i]];
    }
    assert cs[..n] == cs && cs[n..] == [];
  }

  lemma CapIsValid(plan: Plan, commands: seq<Command>)
    requires plan.Valid() && |commands| == |plan.commands| && CutFromBack(plan.commands, commands)
    ensures plan.(commands := commands).Valid()
  {
    var cs := plan.commands;
    forall i | 0 <= i < |cs|
      ensures commands[i].id == cs[i].id && commands[i].classification == cs[i].classification
      ensures 1 <= commands[i].timeoutSeconds <= 86_400 && commands[i].expectedExitCodes != []
    {
      assert CutAt(cs, commands, i) && cs[i] in cs;
    }
    var r :| r in cs && r.classification == Required;
    var at :| 0 <= at < |cs| && cs[at] == r;
    assert commands[at] in commands && commands[at].classification == Required;
  }

  /** _cap_validation_plan. Nothing is returned exactly when fewer whole seconds than commands are
      available. Otherwise the timeouts add up exactly to the smaller of the allowance and the
      declared total, and an ample allowance changes nothing. */
  method CapValidationPlan(plan: Plan, allowanceMs: nat) returns (capped: Option<Plan>)
    requires plan.Valid()
    ensures capped.None? <==> allowanceMs / 1_000 < |plan.commands|
    ensures capped.Some? ==> IsCapOf(plan, capped.value, allowanceMs / 1_000) && capped.value.Valid()
    ensures SumTimeouts(plan.commands) * 1_000 <= allowanceMs ==> capped == Some(plan)
  {
    var declared := SumTimeouts(plan.commands);
    SumAtLeastCount(plan.commands);
    var available := Min(allowanceMs / 1_000, declared);
    if available < |plan.commands| {
      return None;
    }
    var commands := CutTimeouts(plan.commands, available);
    CapIsValid(plan, commands);
    capped := Some(plan.(commands := commands));
  }

  /** The greedy cap is determined by its specification. */
  lemma CapIsUnique(plan: Plan, a: Plan, b: Plan, seconds: nat)
    requires |plan.commands| <= seconds
    requires IsCapOf(plan, a, seconds) && IsCapOf(plan, b, seconds)
    ensures a == b
  {
    CapTailsAgree(plan.commands, a.commands, b.commands);
  }

  lemma {:induction false} CapTailsAgree(cs: seq<Command>, a: seq<Command>, b: seq<Command>)
    requires |a| == |b| == |cs| && SumTimeouts(a) == SumTimeouts(b)
    requires CutFromBack(cs, a) && CutFromBack(cs, b)
    ensures a == b
  {
    if cs != [] {
      assert CutAt(cs, a, 0) && CutAt(cs, b, 0);
      CutTail(cs, a);
      CutTail(cs, b);
      if Shortened(cs, a, 0) {
        AllOnes(a[1..]);
      }
      if Shortened(cs, b, 0) {
        AllOnes(b[1..]);
      }
      CapTailsAgree(cs[1..], a[1..], b[1..]);
      assert a == [a[0]] + a[1..] && b == [b[0]] + b[1..];
    }
  }

  lemma CutTail(cs: seq<Command>, out: seq<Command>)
    requires cs != [] && |out| == |cs| && CutFromBack(cs, out)
    ensures CutFromBack(cs[1..], out[1..]) && |out| - 1 <= SumTimeouts(out[1..])
  {
    forall i | 0 <= i < |out| - 1
      ensures CutAt(cs[1..], out[1..], i) && (Shortened(cs[1..], out[1..], i) <==> Shortened(cs, out, i + 1))
    {
      assert CutAt(cs, out, i + 1);
    }
    forall c | c in out[1..] ensures 1 <= c.timeoutSeconds {
      var i :| 0 <= i < |out| - 1 && out[1..][i] == c;
      assert CutAt(cs, out, i + 1);
    }
    SumAtLeastCount(out[1..]);
  }

  lemma {:induction false} AllOnes(cs: seq<Command>)
    requires forall i :: 0 <= i < |cs| ==> cs[i].timeoutSeconds == 1
    ensures SumTimeouts(cs) == |cs|
  {
    if cs != [] {
      AllOnes(cs[1..]);
    }
  }

  /** _validation_allowance_ms: the smaller of the wall clock and the ledger's remaining time. */
  function ValidationAllowance(l: T.Ledger, limits: T.Limits, maxDurationSeconds: nat, createdAt: int, now: int): nat
    requires createdAt <= now
  {
    var d := T.Decide(l, limits, T.TotalDuration, Some(1), false);
    if d.verdict != T.Allow then 0
    else
      var wall: int := maxDurationSeconds * 1_000 - ElapsedMs(createdAt, now).value;
      var left := if d.remaining.Some? then d.remaining.value else 0;
      if wall <= 0 then 0 else Min(wall, left)
  }

  /** The allowance is the most that the wall clock and the ledger both leave: an amount is within it
      exactly if it ends before the maximum duration of the run does and the ledger has it left. */
  lemma AllowanceIsTheMost(l: T.Ledger, limits: T.Limits, maxDurationSeconds: nat, createdAt: int, now: int,
                           amount: nat)
    requires createdAt <= now && 1 <= amount
    ensures amount <= ValidationAllowance(l, limits, maxDurationSeconds, createdAt, now) <==>
              && (now - createdAt) + amount * 1_000 <= maxDurationSeconds * 1_000_000
              && T.TotalDuration in limits && !T.HasUnresolved(l, T.TotalDuration)
              && (forall u :: u in l.usage && T.MetricForUsage(u.metric) == Some(T.TotalDuration) ==> !u.overage)
              && T.UsedIn(l.usage, T.PreflightMetrics(T.TotalDuration))
                 + T.ReservedWith(l.reservations, T.TotalDuration, T.Active) + amount <= limits[T.TotalDuration]
  {
    ElapsedIsCeiling(createdAt, now, now);
  }

  /** The reservation made for a capped plan is never denied while the ledger it was computed from
      is still the current one: in particular never with a single worker. */
  lemma CappedReservationIsGranted(
    l: T.Ledger, limits: T.Limits, maxDurationSeconds: nat, createdAt: int, now: int,
    plan: Plan, capped: Plan, id: AttemptId)
    requires T.WellFormed(l) && !T.Has(l, id) && T.TotalDuration in limits && createdAt <= now
    requires plan.Valid()
    requires var allowance := ValidationAllowance(l, limits, maxDurationSeconds, createdAt, now);
             |plan.commands| <= allowance / 1_000 && IsCapOf(plan, capped, allowance / 1_000)
    ensures var r := T.Reservation(id, T.TotalDuration, SumTimeouts(capped.commands) * 1_000, T.Active);
            && 1 <= r.amount
            && T.ReserveIfAllowed(l, limits, true, r, false).Reserved?
            && T.ReserveIfAllowed(l, limits, true, r, false).decision.verdict == T.Allow
            && T.ReserveIfAllowed(l, limits, true, r, false).ledger == T.Insert(l, r)
  {
    var r := T.Reservation(id, T.TotalDuration, SumTimeouts(capped.commands) * 1_000, T.Active);
    SumAtLeastCount(plan.commands);
    T.PreflightMatchesStore(l, limits, r);
  }
}
