/** Identity of one durable attempt; attempt, invocation and reservation ids are injective in it
    (src/revanent/orchestration/service.py, DeterministicOrchestrationIds). */
module Ids {
  datatype Step = ContextStep | WorkspaceStep | BuildStep | ValidationStep | ReviewStep | RepairStep

  datatype AttemptId = AttemptId(step: Step, seqno: nat)
}

/** The append-only usage ledger and its budget decisions
    (src/revanent/telemetry/service.py, src/revanent/storage/sqlite.py). */
module Telemetry {
  import opened Domain
  import opened Ids

  datatype Metric = BuildAttempts | ReviewAttempts | RepairAttempts | TotalDuration | RemoteTokens

  datatype UsageMetric =
    | UsedBuild | UsedReview | UsedRepair | UsedLocal | UsedRemote
    | CommandDuration | ValidationDuration | ProviderDuration
    | TotalTokens | Unbudgeted

  /** The metric map of the preflight decision. */
  function MetricForUsage(m: UsageMetric): Option<Metric> {
    match m
    case UsedBuild => Some(BuildAttempts)
    case UsedReview => Some(ReviewAttempts)
    case UsedRepair => Some(RepairAttempts)
    case UsedLocal => Some(BuildAttempts)
    case UsedRemote => Some(BuildAttempts)
    case CommandDuration => Some(TotalDuration)
    case ValidationDuration => Some(TotalDuration)
    case ProviderDuration => Some(TotalDuration)
    case TotalTokens => Some(RemoteTokens)
    case Unbudgeted => None
  }

  /** The metric map of the atomic reserve inside the store. It differs from the preflight map:
      local and remote attempt usage is not summed here. */
  function StoreUsageMetrics(m: Metric): set<UsageMetric> {
    match m
    case BuildAttempts => {UsedBuild}
    case ReviewAttempts => {UsedReview}
    case RepairAttempts => {UsedRepair}
    case TotalDuration => {CommandDuration, ValidationDuration, ProviderDuration}
    case RemoteTokens => {TotalTokens}
  }

  datatype ReservationStatus = Active | Settled | Unresolved

  datatype Reservation = Reservation(id: AttemptId, metric: Metric, amount: nat, status: ReservationStatus)

  /** `amount` is absent exactly when the provenance is "unavailable"; (source, metric) is the id. */
  datatype Usage = Usage(source: AttemptId, metric: UsageMetric, amount: Option<nat>, overage: bool)

  datatype Ledger = Ledger(usage: seq<Usage>, reservations: seq<Reservation>)

  type Limits = map<Metric, nat>

  datatype Verdict =
    | Allow
    | DenyLimitExhausted
    | DenyUsageUnavailable
    | DenyUnresolved
    | DenyInvalidRequest
    | DenyStale

  datatype Decision = Decision(verdict: Verdict, remaining: Option<nat>)

  // ---- Sums -------------------------------------------------------------------------------

  function Amount(u: Usage): nat {
    if u.amount.Some? then u.amount.value else 0
  }

  function UsedIn(us: seq<Usage>, ms: set<UsageMetric>): nat {
    if us == [] then 0
    else UsedIn(us[..|us| - 1], ms) + (if us[|us| - 1].metric in ms then Amount(us[|us| - 1]) else 0)
  }

  function ReservedWith(rs: seq<Reservation>, m: Metric, st: ReservationStatus): nat {
    if rs == [] then 0
    else ReservedWith(rs[..|rs| - 1], m, st)
         + (if rs[|rs| - 1].metric == m && rs[|rs| - 1].status == st then rs[|rs| - 1].amount else 0)
  }

  function PreflightMetrics(m: Metric): set<UsageMetric> {
    if m == BuildAttempts then {UsedBuild, UsedLocal, UsedRemote} else StoreUsageMetrics(m)
  }

  predicate HasUnresolved(l: Ledger, m: Metric) {
    exists r :: r in l.reservations && r.metric == m && r.status == Unresolved
  }

  predicate HasOverage(l: Ledger) {
    exists u :: u in l.usage && u.metric == ValidationDuration && u.overage
  }

  // ---- The preflight decision -------------------------------------------------------------

  function Decide(l: Ledger, limits: Limits, m: Metric, requested: Option<nat>, requireKnown: bool): Decision {
    if m !in limits then Decision(Allow, None)
    else if requested.None? then Decision(DenyInvalidRequest, None)
    else if HasUnresolved(l, m) then Decision(DenyUnresolved, None)
    else if requireKnown && exists u :: u in l.usage && u.amount.None? && MetricForUsage(u.metric) == Some(m) then
      Decision(DenyUsageUnavailable, None)
    else if exists u :: u in l.usage && u.overage && MetricForUsage(u.metric) == Some(m) then
      Decision(DenyLimitExhausted, None)
    else
      var remaining := limits[m] - UsedIn(l.usage, PreflightMetrics(m)) - ReservedWith(l.reservations, m, Active);
      if requested.value > remaining then Decision(DenyLimitExhausted, Some(if remaining > 0 then remaining else 0))
      else Decision(Allow, Some(remaining))
  }

  /** The summed set is the preimage of the metric under the preflight map. */
  lemma PreflightMetricsAreThePreimage(m: Metric, u: UsageMetric)
    ensures u in PreflightMetrics(m) <==> MetricForUsage(u) == Some(m)
  {
  }

  // ---- The atomic reserve -----------------------------------------------------------------

  datatype ReserveResult = Reserved(ledger: Ledger, decision: Decision) | ReserveConflict

  predicate Has(l: Ledger, id: AttemptId) {
    exists r :: r in l.reservations && r.id == id
  }

  function Insert(l: Ledger, r: Reservation): Ledger {
    l.(reservations := l.reservations + [r])
  }

  function ReserveIfAllowed(l: Ledger, limits: Limits, current: bool, r: Reservation,
                            requireKnown: bool): ReserveResult {
    var m := r.metric;
    if !current then Reserved(l, Decision(DenyStale, None))
    else if Has(l, r.id) then
      if exists was :: was in l.reservations && was.(status := Active) == r then Reserved(l, Decision(Allow, None))
      else ReserveConflict
    else if m !in limits then Reserved(Insert(l, r), Decision(Allow, None))
    else if HasUnresolved(l, m) then Reserved(l, Decision(DenyUnresolved, None))
    else if requireKnown && exists u :: u in l.usage && u.amount.None? && u.metric in StoreUsageMetrics(m) then
      Reserved(l, Decision(DenyUsageUnavailable, None))
    else if m == TotalDuration && HasOverage(l) then Reserved(l, Decision(DenyLimitExhausted, None))
    else
      var remaining := limits[m] - UsedIn(l.usage, StoreUsageMetrics(m)) - ReservedWith(l.reservations, m, Active);
      if r.amount > remaining then
        Reserved(l, Decision(DenyLimitExhausted, Some(if remaining > 0 then remaining else 0)))
      else Reserved(Insert(l, r), Decision(Allow, Some(remaining)))
  }

  // ---- Settlement -------------------------------------------------------------------------

  /** A settlement is final: on a reservation that is no longer active the store either recognises
      an identical repeat or raises, and changes nothing in both cases. */
  datatype SettleResult = Written(ledger: Ledger) | NotWritten

  function SetStatus(rs: seq<Reservation>, id: AttemptId, st: ReservationStatus): (out: seq<Reservation>)
    ensures |out| == |rs|
    ensures forall i :: 0 <= i < |rs| ==> out[i] == if rs[i].id == id then rs[i].(status := st) else rs[i]
  {
    if rs == [] then []
    else SetStatus(rs[..|rs| - 1], id, st)
         + [if rs[|rs| - 1].id == id then rs[|rs| - 1].(status := st) else rs[|rs| - 1]]
  }

  predicate UsageKnown(us: seq<Usage>, u: Usage) {
    exists was :: was in us && was.source == u.source && was.metric == u.metric
  }

  /** Usage already present under the same id is skipped. */
  function AppendUsage(us: seq<Usage>, more: seq<Usage>): seq<Usage>
    decreases |more|
  {
    if more == [] then us
    else if UsageKnown(us, more[0]) then AppendUsage(us, more[1..])
    else AppendUsage(us + [more[0]], more[1..])
  }

  predicate UsageConflict(us: seq<Usage>, more: seq<Usage>) {
    exists a, b :: a in us && b in more && a.source == b.source && a.metric == b.metric && a != b
  }

  predicate IsActive(l: Ledger, id: AttemptId) {
    exists r :: r in l.reservations && r.id == id && r.status == Active
  }

  function Settle(l: Ledger, id: AttemptId, st: ReservationStatus, more: seq<Usage>): SettleResult {
    if !IsActive(l, id) || UsageConflict(l.usage, more) then NotWritten
    else Written(Ledger(AppendUsage(l.usage, more), SetStatus(l.reservations, id, st)))
  }

  function UsageOf(m: Metric): UsageMetric {
    match m
    case BuildAttempts => UsedBuild
    case ReviewAttempts => UsedReview
    case RepairAttempts => UsedRepair
    case TotalDuration => ValidationDuration
    case RemoteTokens => TotalTokens
  }

  /** What an agent attempt settles: one attempt, plus whatever the provider reported. */
  function AttemptUsage(r: Reservation, tokens: Option<nat>): seq<Usage> {
    [Usage(r.id, UsageOf(r.metric), Some(1), false), Usage(r.id, TotalTokens, tokens, false)]
  }

  /** What a validation settles: its measured time, flagged when it exceeds the reservation. */
  function DurationUsage(r: Reservation, elapsedMs: nat): seq<Usage> {
    [Usage(r.id, ValidationDuration, Some(elapsedMs), elapsedMs > r.amount)]
  }

  // ---- Operations of a run ----------------------------------------------------------------

  /** One durable ledger write of the coordinator. */
  datatype Op =
    | Reserve(current: bool, reservation: Reservation)
    | SettleAttempt(id: AttemptId, tokens: Option<nat>)
    | SettleDuration(id: AttemptId, elapsedMs: nat)
    | MarkUnresolved(id: AttemptId)
    | RecordContext(usage: Usage)

  function Find(rs: seq<Reservation>, id: AttemptId): (r: Option<Reservation>)
    ensures r.Some? ==> r.value in rs && r.value.id == id
    ensures r.None? ==> forall x :: x in rs ==> x.id != id
  {
    if rs == [] then None
    else if rs[|rs| - 1].id == id then Some(rs[|rs| - 1])
    else Find(rs[..|rs| - 1], id)
  }

  function ApplySettlement(l: Ledger, id: AttemptId, st: ReservationStatus, more: seq<Usage>): Ledger {
    match Settle(l, id, st, more)
    case Written(l') => l'
    case NotWritten => l
  }

  function Apply(l: Ledger, limits: Limits, op: Op): Ledger {
    match op
    case Reserve(current, r) =>
      (match ReserveIfAllowed(l, limits, current, r.(status := Active), false)
       case Reserved(l', _) => l'
       case ReserveConflict => l)
    case SettleAttempt(id, tokens) =>
      (match Find(l.reservations, id)
       case Some(r) => if r.metric == TotalDuration then l else ApplySettlement(l, id, Settled, AttemptUsage(r, tokens))
       case None => l)
    case SettleDuration(id, elapsedMs) =>
      (match Find(l.reservations, id)
       case Some(r) =>
         if r.metric == TotalDuration then ApplySettlement(l, id, Settled, DurationUsage(r, elapsedMs)) else l
       case None => l)
    case MarkUnresolved(id) => ApplySettlement(l, id, Unresolved, [])
    case RecordContext(u) =>
      if u.metric == Unbudgeted && !u.overage && !UsageKnown(l.usage, u) then l.(usage := l.usage + [u]) else l
  }

  function ApplyAll(l: Ledger, limits: Limits, ops: seq<Op>): Ledger
    decreases |ops|
  {
    if ops == [] then l else ApplyAll(Apply(l, limits, ops[0]), limits, ops[1..])
  }

  // ---- What every run keeps ---------------------------------------------------------------

  function Committed(l: Ledger, m: Metric): nat {
    UsedIn(l.usage, StoreUsageMetrics(m))
    + ReservedWith(l.reservations, m, Active) + ReservedWith(l.reservations, m, Unresolved)
  }

  ghost predicate WellFormed(l: Ledger) {
    && (forall i, j :: 0 <= i < j < |l.reservations| ==> l.reservations[i].id != l.reservations[j].id)
    && (forall r :: r in l.reservations ==> 1 <= r.amount)
    // usage of local or remote attempts is never written by the coordinator
    && (forall u :: u in l.usage ==> u.metric !in {UsedLocal, UsedRemote})
    && (forall u :: u in l.usage && u.overage ==> u.metric == ValidationDuration)
  }

  /** Spent plus promised never exceeds the limit; measured duration may, and then the overage is
      on record. Remote tokens are never reserved, so nothing is claimed for them. */
  ghost predicate Conserved(l: Ledger, limits: Limits) {
    forall m :: m in limits && m != RemoteTokens ==>
      Committed(l, m) <= limits[m] || (m == TotalDuration && HasOverage(l))
  }

  /** No further reservation on this metric can be granted. */
  ghost predicate Latched(l: Ledger, m: Metric) {
    HasUnresolved(l, m) || (m == TotalDuration && HasOverage(l))
  }

  // ---- Sums under one write ---------------------------------------------------------------

  lemma UsedInSnoc(us: seq<Usage>, u: Usage, ms: set<UsageMetric>)
    ensures UsedIn(us + [u], ms) == UsedIn(us, ms) + if u.metric in ms then Amount(u) else 0
  {
    assert (us + [u])[..|us|] == us;
  }

  lemma ReservedSnoc(rs: seq<Reservation>, r: Reservation, m: Metric, st: ReservationStatus)
    ensures ReservedWith(rs + [r], m, st)
         == ReservedWith(rs, m, st) + if r.metric == m && r.status == st then r.amount else 0
  {
    assert (rs + [r])[..|rs|] == rs;
  }

  lemma {:induction false} SetStatusElsewhere(rs: seq<Reservation>, id: AttemptId, st: ReservationStatus)
    requires forall r :: r in rs ==> r.id != id
    ensures SetStatus(rs, id, st) == rs
  {
  }

  predicate DistinctReservations(rs: seq<Reservation>) {
    forall i, j :: 0 <= i < j < |rs| ==> rs[i].id != rs[j].id
  }

  lemma LastIsNew(rs: seq<Reservation>)
    requires rs != [] && DistinctReservations(rs)
    ensures DistinctReservations(rs[..|rs| - 1])
    ensures forall r :: r in rs[..|rs| - 1] ==> r.id != rs[|rs| - 1].id
  {
  }

  function PartOf(r: Reservation, m: Metric, st: ReservationStatus): nat {
    if r.metric == m && r.status == st then r.amount else 0
  }

  /** Settling moves exactly the amount of the settled reservation between the sums. */
  lemma {:induction false} SetStatusMoves(rs: seq<Reservation>, id: AttemptId, st: ReservationStatus, m: Metric,
                                          which: ReservationStatus)
    requires DistinctReservations(rs)
    requires Find(rs, id).Some? && Find(rs, id).value.status == Active && st != Active
    ensures var r := Find(rs, id).value;
            ReservedWith(SetStatus(rs, id, st), m, which) + PartOf(r, m, which)
              == ReservedWith(rs, m, which) + PartOf(r.(status := st), m, which)
  {
    var front, last := rs[..|rs| - 1], rs[|rs| - 1];
    assert rs == front + [last];
    LastIsNew(rs);
    if last.id == id {
      SettingLast(front, last, id, st, m, which);
    } else {
      SettingEarlier(front, last, id, st, m, which);
      assert Find(front, id) == Find(rs, id);
      SetStatusMoves(front, id, st, m, which);
    }
  }

  lemma SettingLast(front: seq<Reservation>, last: Reservation, id: AttemptId, st: ReservationStatus, m: Metric,
                    which: ReservationStatus)
    requires last.id == id && forall r :: r in front ==> r.id != id
    ensures ReservedWith(front + [last], m, which) == ReservedWith(front, m, which) + PartOf(last, m, which)
    ensures ReservedWith(SetStatus(front + [last], id, st), m, which)
         == ReservedWith(front, m, which) + PartOf(last.(status := st), m, which)
  {
    SetStatusElsewhere(front, id, st);
    assert (front + [last])[..|front|] == front;
    ReservedSnoc(front, last, m, which);
    ReservedSnoc(front, last.(status := st), m, which);
  }

  lemma SettingEarlier(front: seq<Reservation>, last: Reservation, id: AttemptId, st: ReservationStatus, m: Metric,
                       which: ReservationStatus)
    requires last.id != id
    ensures ReservedWith(front + [last], m, which) == ReservedWith(front, m, which) + PartOf(last, m, which)
    ensures ReservedWith(SetStatus(front + [last], id, st), m, which)
         == ReservedWith(SetStatus(front, id, st), m, which) + PartOf(last, m, which)
    ensures Find(front + [last], id) == Find(front, id)
  {
    assert (front + [last])[..|front|] == front;
    ReservedSnoc(front, last, m, which);
    ReservedSnoc(SetStatus(front, id, st), last, m, which);
  }

  lemma {:induction false} UsedInCons(u: Usage, us: seq<Usage>, ms: set<UsageMetric>)
    ensures UsedIn([u] + us, ms) == UsedIn(us, ms) + if u.metric in ms then Amount(u) else 0
  {
    if us == [] {
      assert [u] + us == [] + [u];
      UsedInSnoc([], u, ms);
    } else {
      var front, last := us[..|us| - 1], us[|us| - 1];
      UsedInCons(u, front, ms);
      assert [u] + us == ([u] + front) + [last];
      UsedInSnoc([u] + front, last, ms);
    }
  }

  /** Appending counts every record at most once, keeps the old ones and invents none. */
  lemma {:induction false} AppendUsageAccounts(us: seq<Usage>, more: seq<Usage>, ms: set<UsageMetric>)
    ensures UsedIn(us, ms) <= UsedIn(AppendUsage(us, more), ms) <= UsedIn(us, ms) + UsedIn(more, ms)
    ensures forall u :: u in us ==> u in AppendUsage(us, more)
    ensures forall u :: u in AppendUsage(us, more) ==> u in us || u in more
    decreases |more|
  {
    if more != [] {
      assert more == [more[0]] + more[1..];
      UsedInCons(more[0], more[1..], ms);
      if UsageKnown(us, more[0]) {
        AppendUsageAccounts(us, more[1..], ms);
      } else {
        UsedInSnoc(us, more[0], ms);
        AppendUsageAccounts(us + [more[0]], more[1..], ms);
      }
    }
  }

  lemma UsedInOneOrTwo(a: Usage, b: Usage, ms: set<UsageMetric>)
    ensures UsedIn([a], ms) == if a.metric in ms then Amount(a) else 0
    ensures UsedIn([a, b], ms) == (if a.metric in ms then Amount(a) else 0) + (if b.metric in ms then Amount(b) else 0)
  {
    UsedInSnoc([], a, ms);
    assert [] + [a] == [a];
    UsedInSnoc([a], b, ms);
    assert [a] + [b] == [a, b];
  }

  // ---- One write --------------------------------------------------------------------------

  lemma FindIsTheOne(l: Ledger, id: AttemptId)
    requires WellFormed(l)
    ensures IsActive(l, id) <==>
              Find(l.reservations, id).Some? && Find(l.reservations, id).value.status == Active
  {
  }

  lemma ReserveKeeps(l: Ledger, limits: Limits, current: bool, r: Reservation)
    requires WellFormed(l) && Conserved(l, limits) && 1 <= r.amount
    ensures var l' := Apply(l, limits, Reserve(current, r)); WellFormed(l') && Conserved(l', limits)
  {
    var a := r.(status := Active);
    var l' := Apply(l, limits, Reserve(current, r));
    if l' != l {
      assert l' == Insert(l, a);
      forall m | m in limits && m != RemoteTokens
        ensures Committed(l', m) <= limits[m] || (m == TotalDuration && HasOverage(l'))
      {
        ReservedSnoc(l.reservations, a, m, Active);
        ReservedSnoc(l.reservations, a, m, Unresolved);
        if m == a.metric {
          NoUnresolvedSum(l.reservations, m);
        }
      }
    }
  }

  lemma NoUnresolvedSum(rs: seq<Reservation>, m: Metric)
    requires forall r :: r in rs && r.metric == m ==> r.status != Unresolved
    ensures ReservedWith(rs, m, Unresolved) == 0
  {
  }

  /** What one settlement may spend on a metric: no more than it releases, unless it is a flagged
      duration overage. */
  ghost predicate SpendsWithin(r: Reservation, st: ReservationStatus, more: seq<Usage>, m: Metric) {
    || UsedIn(more, StoreUsageMetrics(m)) + (if st == Unresolved && r.metric == m then r.amount else 0)
         <= (if r.metric == m then r.amount else 0)
    || (m == TotalDuration && |more| == 1 && more[0].metric == ValidationDuration && more[0].overage)
  }

  lemma SettleCommitted(l: Ledger, limit: nat, id: AttemptId, st: ReservationStatus, more: seq<Usage>, m: Metric)
    requires WellFormed(l) && st != Active && IsActive(l, id)
    requires Committed(l, m) <= limit || (m == TotalDuration && HasOverage(l))
    requires SpendsWithin(Find(l.reservations, id).value, st, more, m)
    ensures var l' := Ledger(AppendUsage(l.usage, more), SetStatus(l.reservations, id, st));
            Committed(l', m) <= limit || (m == TotalDuration && HasOverage(l'))
  {
    FindIsTheOne(l, id);
    AppendUsageAccounts(l.usage, more, StoreUsageMetrics(m));
    SetStatusMoves(l.reservations, id, st, m, Active);
    SetStatusMoves(l.reservations, id, st, m, Unresolved);
    var us := AppendUsage(l.usage, more);
    if |more| == 1 && more[0].overage && !UsageKnown(l.usage, more[0]) {
      assert us == AppendUsage(l.usage + [more[0]], more[1..]);
      assert more[0] in us;
    }
  }

  lemma SettleWellFormed(l: Ledger, id: AttemptId, st: ReservationStatus, more: seq<Usage>)
    requires WellFormed(l)
    requires forall u :: u in more ==>
               u.metric !in {UsedLocal, UsedRemote} && (u.overage ==> u.metric == ValidationDuration)
    ensures WellFormed(ApplySettlement(l, id, st, more))
  {
    AppendUsageAccounts(l.usage, more, {});
    var rs, rs' := l.reservations, SetStatus(l.reservations, id, st);
    forall r | r in rs' ensures 1 <= r.amount {
      var i :| 0 <= i < |rs'| && rs'[i] == r;
      assert rs[i] in rs;
    }
  }

  lemma SettleKeeps(l: Ledger, limits: Limits, id: AttemptId, st: ReservationStatus, more: seq<Usage>)
    requires WellFormed(l) && Conserved(l, limits) && st != Active
    requires Find(l.reservations, id).Some?
    requires forall u :: u in more ==>
               u.metric !in {UsedLocal, UsedRemote} && (u.overage ==> u.metric == ValidationDuration)
    requires forall m :: m != RemoteTokens ==> SpendsWithin(Find(l.reservations, id).value, st, more, m)
    ensures var l' := ApplySettlement(l, id, st, more); WellFormed(l') && Conserved(l', limits)
  {
    SettleWellFormed(l, id, st, more);
    if Settle(l, id, st, more).Written? {
      var l' := ApplySettlement(l, id, st, more);
      forall m | m in limits && m != RemoteTokens
        ensures Committed(l', m) <= limits[m] || (m == TotalDuration && HasOverage(l'))
      {
        SettleCommitted(l, limits[m], id, st, more, m);
      }
    }
  }

  lemma AttemptKeeps(l: Ledger, limits: Limits, id: AttemptId, tokens: Option<nat>)
    requires WellFormed(l) && Conserved(l, limits)
    ensures var l' := Apply(l, limits, SettleAttempt(id, tokens)); WellFormed(l') && Conserved(l', limits)
  {
    var found := Find(l.reservations, id);
    if found.Some? && found.value.metric != TotalDuration {
      var more := AttemptUsage(found.value, tokens);
      forall m | m != RemoteTokens ensures SpendsWithin(found.value, Settled, more, m) {
        UsedInOneOrTwo(more[0], more[1], StoreUsageMetrics(m));
      }
      SettleKeeps(l, limits, id, Settled, more);
    }
  }

  lemma DurationKeeps(l: Ledger, limits: Limits, id: AttemptId, elapsedMs: nat)
    requires WellFormed(l) && Conserved(l, limits)
    ensures var l' := Apply(l, limits, SettleDuration(id, elapsedMs)); WellFormed(l') && Conserved(l', limits)
  {
    var found := Find(l.reservations, id);
    if found.Some? && found.value.metric == TotalDuration {
      var more := DurationUsage(found.value, elapsedMs);
      forall m | m != RemoteTokens ensures SpendsWithin(found.value, Settled, more, m) {
        UsedInOneOrTwo(more[0], more[0], StoreUsageMetrics(m));
      }
      SettleKeeps(l, limits, id, Settled, more);
    }
  }

  lemma ContextKeeps(l: Ledger, limits: Limits, u: Usage)
    requires WellFormed(l) && Conserved(l, limits)
    ensures var l' := Apply(l, limits, RecordContext(u)); WellFormed(l') && Conserved(l', limits)
  {
    var l' := Apply(l, limits, RecordContext(u));
    if l' != l {
      forall m | m in limits && m != RemoteTokens
        ensures Committed(l', m) <= limits[m] || (m == TotalDuration && HasOverage(l'))
      {
        UsedInSnoc(l.usage, u, StoreUsageMetrics(m));
      }
    }
  }

  lemma ApplyKeeps(l: Ledger, limits: Limits, op: Op)
    requires WellFormed(l) && Conserved(l, limits)
    requires op.Reserve? ==> 1 <= op.reservation.amount
    ensures WellFormed(Apply(l, limits, op)) && Conserved(Apply(l, limits, op), limits)
  {
    match op
    case Reserve(current, r) => ReserveKeeps(l, limits, current, r);
    case SettleAttempt(id, tokens) => AttemptKeeps(l, limits, id, tokens);
    case SettleDuration(id, elapsedMs) => DurationKeeps(l, limits, id, elapsedMs);
    case MarkUnresolved(id) =>
      if Find(l.reservations, id).Some? {
        SettleKeeps(l, limits, id, Unresolved, []);
      }
    case RecordContext(u) => ContextKeeps(l, limits, u);
  }

  // ---- Whole runs -------------------------------------------------------------------------

  ghost predicate ValidOps(ops: seq<Op>) {
    forall op :: op in ops && op.Reserve? ==> 1 <= op.reservation.amount
  }

  /** Budget conservation over any sequence of writes. */
  lemma {:induction false} ConservedOverRuns(l: Ledger, limits: Limits, ops: seq<Op>)
    requires WellFormed(l) && Conserved(l, limits) && ValidOps(ops)
    ensures WellFormed(ApplyAll(l, limits, ops)) && Conserved(ApplyAll(l, limits, ops), limits)
    decreases |ops|
  {
    if ops != [] {
      assert ops[0] in ops;
      ApplyKeeps(l, limits, ops[0]);
      ConservedOverRuns(Apply(l, limits, ops[0]), limits, ops[1..]);
    }
  }

  lemma EmptyIsConserved(limits: Limits)
    ensures WellFormed(Ledger([], [])) && Conserved(Ledger([], []), limits)
  {
  }

  function MetricIds(rs: seq<Reservation>, m: Metric): set<AttemptId> {
    set r | r in rs && r.metric == m :: r.id
  }

  function IdsOn(l: Ledger, m: Metric): set<AttemptId> {
    MetricIds(l.reservations, m)
  }

  lemma SetStatusKeepsIds(rs: seq<Reservation>, id: AttemptId, st: ReservationStatus, m: Metric)
    ensures MetricIds(SetStatus(rs, id, st), m) == MetricIds(rs, m)
  {
    var rs' := SetStatus(rs, id, st);
    forall x | x in MetricIds(rs, m) ensures x in MetricIds(rs', m) {
      var i :| 0 <= i < |rs| && rs[i].metric == m && rs[i].id == x;
      assert rs'[i] in rs';
    }
    forall x | x in MetricIds(rs', m) ensures x in MetricIds(rs, m) {
      var i :| 0 <= i < |rs'| && rs'[i].metric == m && rs'[i].id == x;
      assert rs[i] in rs;
    }
  }

  lemma SettleKeepsLatch(l: Ledger, id: AttemptId, st: ReservationStatus, more: seq<Usage>, m: Metric)
    requires WellFormed(l) && st != Active
    ensures IdsOn(ApplySettlement(l, id, st, more), m) == IdsOn(l, m)
    ensures Latched(l, m) ==> Latched(ApplySettlement(l, id, st, more), m)
  {
    SetStatusKeepsIds(l.reservations, id, st, m);
    AppendUsageAccounts(l.usage, more, {});
    FindIsTheOne(l, id);
    if Settle(l, id, st, more).Written? && HasUnresolved(l, m) {
      var rs, rs' := l.reservations, SetStatus(l.reservations, id, st);
      var i :| 0 <= i < |rs| && rs[i].metric == m && rs[i].status == Unresolved;
      assert rs'[i].metric == m && rs'[i].status == Unresolved && rs'[i] in rs';
    }
  }

  lemma LatchStep(l: Ledger, limits: Limits, op: Op, m: Metric)
    requires WellFormed(l) && m in limits && Latched(l, m)
    ensures Latched(Apply(l, limits, op), m) && IdsOn(Apply(l, limits, op), m) == IdsOn(l, m)
  {
    match op
    case Reserve(current, r) =>
    case SettleAttempt(id, tokens) =>
      var found := Find(l.reservations, id);
      if found.Some? { SettleKeepsLatch(l, id, Settled, AttemptUsage(found.value, tokens), m); }
    case SettleDuration(id, elapsedMs) =>
      var found := Find(l.reservations, id);
      if found.Some? { SettleKeepsLatch(l, id, Settled, DurationUsage(found.value, elapsedMs), m); }
    case MarkUnresolved(id) => SettleKeepsLatch(l, id, Unresolved, [], m);
    case RecordContext(u) =>
      forall u' | u' in l.usage ensures u' in l.usage + [u] {}
  }

  /** Once capacity is unresolved, or a validation overran its reservation, no later write of the
      run ever grants another reservation on that metric, and the latch never opens. */
  lemma {:induction false} LatchIsForever(l: Ledger, limits: Limits, ops: seq<Op>, m: Metric)
    requires WellFormed(l) && Conserved(l, limits) && ValidOps(ops)
    requires m in limits && Latched(l, m)
    ensures Latched(ApplyAll(l, limits, ops), m)
    ensures IdsOn(ApplyAll(l, limits, ops), m) == IdsOn(l, m)
    decreases |ops|
  {
    if ops != [] {
      assert ops[0] in ops;
      ApplyKeeps(l, limits, ops[0]);
      LatchStep(l, limits, ops[0], m);
      LatchIsForever(Apply(l, limits, ops[0]), limits, ops[1..], m);
    }
  }

  // ---- Preflight and store ----------------------------------------------------------------

  lemma UsedInIgnores(us: seq<Usage>, m: Metric)
    requires forall u :: u in us ==> u.metric !in {UsedLocal, UsedRemote}
    ensures UsedIn(us, PreflightMetrics(m)) == UsedIn(us, StoreUsageMetrics(m))
  {
  }

  /** On every ledger the coordinator can produce, the preflight decision and the atomic reserve
      give the same answer to a fresh reservation at the current revision. */
  lemma PreflightMatchesStore(l: Ledger, limits: Limits, r: Reservation)
    requires WellFormed(l) && !Has(l, r.id)
    ensures ReserveIfAllowed(l, limits, true, r, false).Reserved?
    ensures ReserveIfAllowed(l, limits, true, r, false).decision
         == Decide(l, limits, r.metric, Some(r.amount), false)
  {
    UsedInIgnores(l.usage, r.metric);
  }

  predicate Unavailable(l: Ledger, ms: set<UsageMetric>) {
    exists u :: u in l.usage && u.amount.None? && u.metric in ms
  }

  predicate OverageIn(l: Ledger, ms: set<UsageMetric>) {
    exists u :: u in l.usage && u.overage && u.metric in ms
  }

  /** The overage the store looks for; the preflight decision looks for any on the same metric. */
  predicate StoreOverage(l: Ledger, m: Metric) {
    m == TotalDuration && HasOverage(l)
  }

  /** What a sum over these usage metrics leaves of a limit. */
  function Left(l: Ledger, limit: nat, m: Metric, ms: set<UsageMetric>): int {
    limit - UsedIn(l.usage, ms) - ReservedWith(l.reservations, m, Active)
  }

  lemma {:induction false} UsedInGrows(us: seq<Usage>, few: set<UsageMetric>, many: set<UsageMetric>)
    requires few <= many
    ensures UsedIn(us, few) <= UsedIn(us, many)
  {
    if us != [] { UsedInGrows(us[..|us| - 1], few, many); }
  }

  /** On any ledger at all, the preflight decision and the atomic reserve give a fresh reservation at
      the current revision the same verdict exactly when one of four things holds: there is no limit,
      both refuse it for the same unresolved or unavailable usage, both find too little left, or both
      find enough. Where they differ, the preflight decision is the stricter one. */
  lemma PreflightAgreesExactly(l: Ledger, limits: Limits, r: Reservation, requireKnown: bool)
    requires !Has(l, r.id)
    ensures ReserveIfAllowed(l, limits, true, r, requireKnown).Reserved?
    ensures var m := r.metric;
            var pre, store := PreflightMetrics(m), StoreUsageMetrics(m);
            var agree := ReserveIfAllowed(l, limits, true, r, requireKnown).decision.verdict
                      == Decide(l, limits, m, Some(r.amount), requireKnown).verdict;
            agree <==>
              || m !in limits || HasUnresolved(l, m) || (requireKnown && Unavailable(l, store))
              || (!(requireKnown && Unavailable(l, pre))
                  && (|| StoreOverage(l, m) || r.amount > Left(l, limits[m], m, store)
                      || (!OverageIn(l, pre) && r.amount <= Left(l, limits[m], m, pre))))
    ensures ReserveIfAllowed(l, limits, true, r, requireKnown).decision.verdict != Allow ==>
              Decide(l, limits, r.metric, Some(r.amount), requireKnown).verdict != Allow
  {
    var m := r.metric;
    UsedInGrows(l.usage, StoreUsageMetrics(m), PreflightMetrics(m));
    forall u: UsageMetric ensures u in PreflightMetrics(m) <==> MetricForUsage(u) == Some(m) {
      PreflightMetricsAreThePreimage(m, u);
    }
    if StoreOverage(l, m) {
      assert OverageIn(l, PreflightMetrics(m));
    }
  }

  /** Such ledgers exist: usage of a local attempt is counted by the preflight decision only, so the
      store grants here what the preflight denies. */
  lemma PreflightStricterOnLocalUsage()
    ensures var id := AttemptId(BuildStep, 1);
            var l := Ledger([Usage(id, UsedLocal, Some(1), false)], []);
            var limits := map[BuildAttempts := 1];
            var r := Reservation(id, BuildAttempts, 1, Active);
            && Decide(l, limits, BuildAttempts, Some(1), false).verdict == DenyLimitExhausted
            && ReserveIfAllowed(l, limits, true, r, false).decision.verdict == Allow
  {
    var id := AttemptId(BuildStep, 1);
    var u := Usage(id, UsedLocal, Some(1), false);
    UsedInOneOrTwo(u, u, PreflightMetrics(BuildAttempts));
    UsedInOneOrTwo(u, u, StoreUsageMetrics(BuildAttempts));
  }

  // ---- What a settlement charges --------------------------------------------------------------

  /** Nothing was charged to this attempt yet. */
  predicate Uncharged(l: Ledger, id: AttemptId) {
    forall u :: u in l.usage ==> u.source != id
  }

  /** The active reservation of this attempt. */
  predicate ActiveOf(l: Ledger, id: AttemptId, r: Reservation) {
    r in l.reservations && r.id == id && r.status == Active
  }

  /** The sums of all other metrics stay, and on this one `amount` moves from active to `st`. */
  ghost predicate Releases(l: Ledger, l': Ledger, r: Reservation, st: ReservationStatus) {
    && |l'.reservations| == |l.reservations|
    && (forall i :: 0 <= i < |l.reservations| ==>
          l'.reservations[i] == if l.reservations[i] == r then r.(status := st) else l.reservations[i])
    && (forall m: Metric ::
          ReservedWith(l'.reservations, m, Active) + (if m == r.metric then r.amount else 0)
            == ReservedWith(l.reservations, m, Active))
    && (forall m: Metric ::
          ReservedWith(l'.reservations, m, Unresolved)
            == ReservedWith(l.reservations, m, Unresolved) + if m == r.metric && st == Unresolved then r.amount else 0)
  }

  /** Nothing but these usage metrics is charged. */
  ghost predicate ChargesOnly(l: Ledger, l': Ledger, ms: set<UsageMetric>) {
    forall m: UsageMetric :: m !in ms ==> UsedIn(l'.usage, {m}) == UsedIn(l.usage, {m})
  }

  lemma FindsIt(l: Ledger, r: Reservation)
    requires WellFormed(l) && r in l.reservations
    ensures Find(l.reservations, r.id) == Some(r)
  {
    var i :| 0 <= i < |l.reservations| && l.reservations[i] == r;
    var found := Find(l.reservations, r.id).value;
    var k :| 0 <= k < |l.reservations| && l.reservations[k] == found;
  }

  lemma SetStatusAt(l: Ledger, r: Reservation, st: ReservationStatus, i: nat)
    requires WellFormed(l) && r in l.reservations && i < |l.reservations|
    ensures SetStatus(l.reservations, r.id, st)[i] == if l.reservations[i] == r
            then r.(status := st) else l.reservations[i]
  {
    var k :| 0 <= k < |l.reservations| && l.reservations[k] == r;
  }

  lemma SumsRelease(l: Ledger, r: Reservation, st: ReservationStatus, m: Metric)
    requires WellFormed(l) && ActiveOf(l, r.id, r) && st != Active
    ensures var rs' := SetStatus(l.reservations, r.id, st);
            && ReservedWith(rs', m, Active) + (if m == r.metric then r.amount else 0)
               == ReservedWith(l.reservations, m, Active)
            && ReservedWith(rs', m, Unresolved)
               == ReservedWith(l.reservations, m, Unresolved)
                  + if m == r.metric && st == Unresolved then r.amount else 0
  {
    FindsIt(l, r);
    SetStatusMoves(l.reservations, r.id, st, m, Active);
    SetStatusMoves(l.reservations, r.id, st, m, Unresolved);
  }

  lemma SetStatusReleases(l: Ledger, us: seq<Usage>, r: Reservation, st: ReservationStatus)
    requires WellFormed(l) && ActiveOf(l, r.id, r) && st != Active
    ensures Releases(l, Ledger(us, SetStatus(l.reservations, r.id, st)), r, st)
  {
    var rs' := SetStatus(l.reservations, r.id, st);
    forall i: nat | i < |l.reservations|
      ensures rs'[i] == if l.reservations[i] == r then r.(status := st) else l.reservations[i]
    {
      SetStatusAt(l, r, st, i);
    }
    forall m: Metric
      ensures ReservedWith(rs', m, Active) + (if m == r.metric then r.amount else 0)
           == ReservedWith(l.reservations, m, Active)
      ensures ReservedWith(rs', m, Unresolved)
           == ReservedWith(l.reservations, m, Unresolved) + if m == r.metric && st == Unresolved then r.amount else 0
    {
      SumsRelease(l, r, st, m);
    }
  }

  /** A settlement with new usage writes exactly that. */
  lemma SettlesExactly(l: Ledger, r: Reservation, st: ReservationStatus, more: seq<Usage>)
    requires WellFormed(l) && ActiveOf(l, r.id, r) && st != Active && Uncharged(l, r.id)
    requires |more| <= 2 && forall u :: u in more ==> u.source == r.id
    requires |more| == 2 ==> more[0].metric != more[1].metric
    ensures Settle(l, r.id, st, more).Written?
    ensures ApplySettlement(l, r.id, st, more) == Ledger(l.usage + more, SetStatus(l.reservations, r.id, st))
    ensures Releases(l, ApplySettlement(l, r.id, st, more), r, st)
  {
    AppendsNew(l.usage, more);
    SetStatusReleases(l, l.usage + more, r, st);
  }

  lemma AppendsNew(us: seq<Usage>, more: seq<Usage>)
    requires |more| <= 2 && forall u, v :: u in us && v in more ==> u.source != v.source
    requires |more| == 2 ==> more[0].metric != more[1].metric
    ensures AppendUsage(us, more) == us + more
  {
    if |more| == 1 {
      assert more[1..] == [];
      assert AppendUsage(us, more) == AppendUsage(us + [more[0]], []);
    } else if |more| == 2 {
      assert more[1..] == [more[1]] && [more[1]][1..] == [];
      assert AppendUsage(us, more) == AppendUsage(us + [more[0]], [more[1]]);
      assert AppendUsage(us + [more[0]], [more[1]]) == AppendUsage(us + [more[0]] + [more[1]], []);
      assert us + [more[0]] + [more[1]] == us + more;
    }
  }

  /** The ledger after a validation with this reservation took `elapsedMs`. */
  ghost predicate DurationCharged(l: Ledger, l': Ledger, r: Reservation, elapsedMs: nat) {
    && UsedIn(l'.usage, {ValidationDuration}) == UsedIn(l.usage, {ValidationDuration}) + elapsedMs
    && UsedIn(l'.usage, StoreUsageMetrics(TotalDuration)) == UsedIn(l.usage,
                                                                    StoreUsageMetrics(TotalDuration)) + elapsedMs
    && ChargesOnly(l, l', {ValidationDuration})
    && Releases(l, l', r, Settled)
    && ((exists u :: u in l'.usage && u.source == r.id && u.overage) <==> elapsedMs > r.amount)
    && (exists u :: u in l'.usage && u.source == r.id && u.metric == ValidationDuration && u.amount == Some(elapsedMs))
  }

  /** The ledger after an agent attempt of this kind that reported `tokens`. */
  ghost predicate AttemptCharged(l: Ledger, l': Ledger, r: Reservation, tokens: Option<nat>, kind: UsageMetric) {
    && UsedIn(l'.usage, {kind}) == UsedIn(l.usage, {kind}) + 1
    && UsedIn(l'.usage, StoreUsageMetrics(r.metric)) == UsedIn(l.usage, StoreUsageMetrics(r.metric)) + 1
    && UsedIn(l'.usage, {TotalTokens})
       == UsedIn(l.usage, {TotalTokens}) + (if tokens.Some? then tokens.value else 0)
    && ChargesOnly(l, l', {kind, TotalTokens})
    && Releases(l, l', r, Settled)
    && (exists u :: u in l'.usage && u.source == r.id && u.metric == TotalTokens && u.amount == tokens)
    && (forall u :: u in l'.usage && u.source == r.id ==> !u.overage)
  }

  /** A validation is charged the time it took, and its reservation is released. The overrun is on
      record exactly if it took longer than was reserved. */
  lemma DurationIsCharged(l: Ledger, limits: Limits, id: AttemptId, elapsedMs: nat, r: Reservation)
    requires WellFormed(l) && ActiveOf(l, id, r) && r.metric == TotalDuration && Uncharged(l, id)
    ensures IsActive(l, id) && !IsActive(Apply(l, limits, SettleDuration(id, elapsedMs)), id)
    ensures DurationCharged(l, Apply(l, limits, SettleDuration(id, elapsedMs)), r, elapsedMs)
  {
    var l' := Apply(l, limits, SettleDuration(id, elapsedMs));
    FindsIt(l, r);
    var more := DurationUsage(r, elapsedMs);
    SettlesExactly(l, r, Settled, more);
    UsedInSnoc(l.usage, more[0], {ValidationDuration});
    UsedInSnoc(l.usage, more[0], StoreUsageMetrics(TotalDuration));
    forall m: UsageMetric | m !in {ValidationDuration} ensures UsedIn(l'.usage, {m}) == UsedIn(l.usage, {m}) {
      UsedInSnoc(l.usage, more[0], {m});
    }
    assert l'.usage[|l.usage|] == more[0];
  }

  /** The usage metric of an attempt metric. */
  predicate Counts(m: Metric, u: UsageMetric) {
    || (m == BuildAttempts && u == UsedBuild) || (m == ReviewAttempts && u == UsedReview)
    || (m == RepairAttempts && u == UsedRepair)
  }

  lemma UsedInTwoMore(us: seq<Usage>, more: seq<Usage>, ms: set<UsageMetric>)
    requires |more| == 2
    ensures UsedIn(us + more, ms) == UsedIn(us, ms) + (if more[0].metric in ms then Amount(more[0]) else 0)
                                   + if more[1].metric in ms then Amount(more[1]) else 0
  {
    UsedInSnoc(us, more[0], ms);
    UsedInSnoc(us + [more[0]], more[1], ms);
    assert us + more == us + [more[0]] + [more[1]];
  }

  lemma AttemptSums(us: seq<Usage>, r: Reservation, tokens: Option<nat>, kind: UsageMetric)
    requires Counts(r.metric, kind)
    ensures var us' := us + AttemptUsage(r, tokens);
            && UsedIn(us', {kind}) == UsedIn(us, {kind}) + 1
            && UsedIn(us', StoreUsageMetrics(r.metric)) == UsedIn(us, StoreUsageMetrics(r.metric)) + 1
            && UsedIn(us', {TotalTokens}) == UsedIn(us, {TotalTokens}) + (if tokens.Some? then tokens.value else 0)
            && forall m: UsageMetric :: m !in {kind, TotalTokens} ==> UsedIn(us', {m}) == UsedIn(us, {m})
  {
    var more := AttemptUsage(r, tokens);
    UsedInTwoMore(us, more, {kind});
    UsedInTwoMore(us, more, {TotalTokens});
    UsedInTwoMore(us, more, StoreUsageMetrics(r.metric));
    forall m: UsageMetric | m !in {kind, TotalTokens} ensures UsedIn(us + more, {m}) == UsedIn(us, {m}) {
      UsedInTwoMore(us, more, {m});
    }
  }

  /** An agent attempt is charged as one attempt of its kind, plus the tokens the provider reported;
      an unknown number of tokens is recorded as unknown. */
  lemma AttemptIsCharged(l: Ledger, limits: Limits, id: AttemptId, tokens: Option<nat>, r: Reservation,
                         kind: UsageMetric)
    requires WellFormed(l) && ActiveOf(l, id, r) && Counts(r.metric, kind) && Uncharged(l, id)
    ensures IsActive(l, id) && !IsActive(Apply(l, limits, SettleAttempt(id, tokens)), id)
    ensures AttemptCharged(l, Apply(l, limits, SettleAttempt(id, tokens)), r, tokens, kind)
  {
    var l' := Apply(l, limits, SettleAttempt(id, tokens));
    FindsIt(l, r);
    var more := AttemptUsage(r, tokens);
    SettlesExactly(l, r, Settled, more);
    AttemptSums(l.usage, r, tokens, kind);
    assert l'.usage[|l.usage| + 1] == more[1];
  }

  /** Marking a reservation charges nothing; its capacity stays taken, as unresolved. */
  lemma MarkingChargesNothing(l: Ledger, limits: Limits, id: AttemptId, r: Reservation)
    requires WellFormed(l) && ActiveOf(l, id, r)
    ensures var l' := Apply(l, limits, MarkUnresolved(id));
            l'.usage == l.usage && Releases(l, l', r, Unresolved) && HasUnresolved(l', r.metric)
  {
    var l' := Apply(l, limits, MarkUnresolved(id));
    SetStatusReleases(l, l.usage, r, Unresolved);
    var i :| 0 <= i < |l.reservations| && l.reservations[i] == r;
    assert l'.reservations[i] == r.(status := Unresolved) && l'.reservations[i] in l'.reservations;
  }

  /** A duration settles validations, an attempt everything else, and anything can be marked. */
  predicate Settles(op: Op, m: Metric) {
    op.MarkUnresolved? || (op.SettleDuration? && m == TotalDuration) || (op.SettleAttempt? && m != TotalDuration)
  }

  /** What each kind of settlement charges for a reservation. */
  ghost predicate Charged(l: Ledger, l': Ledger, op: Op, r: Reservation) {
    && (op.SettleDuration? ==> DurationCharged(l, l', r, op.elapsedMs))
    && (op.SettleAttempt? ==>
          forall kind: UsageMetric :: Counts(r.metric, kind) ==> AttemptCharged(l, l', r, op.tokens, kind))
    && (op.MarkUnresolved? ==> l'.usage == l.usage && Releases(l, l', r, Unresolved) && HasUnresolved(l', r.metric))
  }

  /** Every settlement of an attempt that was not charged yet is final and charges exactly its due. */
  lemma SettlementCharges(l: Ledger, limits: Limits, op: Op, r: Reservation)
    requires WellFormed(l) && (op.SettleAttempt? || op.SettleDuration? || op.MarkUnresolved?)
    requires ActiveOf(l, op.id, r) && Uncharged(l, op.id)
    ensures IsActive(l, op.id) && (!IsActive(Apply(l, limits, op), op.id) <==> Settles(op, r.metric))
    ensures Settles(op, r.metric) ==> Charged(l, Apply(l, limits, op), op, r)
  {
    FindsIt(l, r);
    if Settles(op, r.metric) {
      match op
      case SettleDuration(id, ms) => DurationIsCharged(l, limits, id, ms, r);
      case SettleAttempt(id, tokens) => AgentIsCharged(l, limits, id, tokens, r);
      case MarkUnresolved(id) => MarkingChargesNothing(l, limits, id, r);
    }
  }

  /** The effect of a settlement on whatever reservation is active for its attempt. */
  ghost predicate ChargesWhenWritten(l: Ledger, l': Ledger, op: Op, r: Reservation)
    requires op.SettleAttempt? || op.SettleDuration? || op.MarkUnresolved?
  {
    Settles(op, r.metric) ==> Charged(l, l', op, r)
  }

  lemma SettlementsCharge(l: Ledger, limits: Limits, op: Op)
    requires WellFormed(l) && (op.SettleAttempt? || op.SettleDuration? || op.MarkUnresolved?)
    ensures Uncharged(l, op.id) ==> forall r :: ActiveOf(l, op.id, r) ==>
              && IsActive(l, op.id) && (!IsActive(Apply(l, limits, op), op.id) <==> Settles(op, r.metric))
              && ChargesWhenWritten(l, Apply(l, limits, op), op, r)
  {
    forall r | Uncharged(l, op.id) && ActiveOf(l, op.id, r)
      ensures IsActive(l, op.id) && (!IsActive(Apply(l, limits, op), op.id) <==> Settles(op, r.metric))
      ensures ChargesWhenWritten(l, Apply(l, limits, op), op, r)
    {
      SettlementCharges(l, limits, op, r);
    }
  }

  lemma AgentIsCharged(l: Ledger, limits: Limits, id: AttemptId, tokens: Option<nat>, r: Reservation)
    requires WellFormed(l) && ActiveOf(l, id, r) && r.metric != TotalDuration && Uncharged(l, id)
    ensures !IsActive(Apply(l, limits, SettleAttempt(id, tokens)), id)
    ensures forall kind: UsageMetric :: Counts(r.metric, kind) ==>
              AttemptCharged(l, Apply(l, limits, SettleAttempt(id, tokens)), r, tokens, kind)
  {
    forall kind: UsageMetric | Counts(r.metric, kind)
      ensures AttemptCharged(l, Apply(l, limits, SettleAttempt(id, tokens)), r, tokens, kind)
    {
      AttemptIsCharged(l, limits, id, tokens, r, kind);
    }
    FindsIt(l, r);
    if r.metric == RemoteTokens {
      assert AttemptUsage(r, tokens)[0].metric == TotalTokens;
    }
  }

  /** Room for a reservation: no limit, or no latch and enough left. */
  predicate HasRoom(l: Ledger, limits: Limits, m: Metric, amount: nat) {
    || m !in limits
    || (&& (forall r :: r in l.reservations && r.metric == m ==> r.status != Unresolved)
        && (m == TotalDuration ==> forall u :: u in l.usage && u.metric == ValidationDuration ==> !u.overage)
        && UsedIn(l.usage, StoreUsageMetrics(m)) + ReservedWith(l.reservations, m, Active) + amount <= limits[m])
  }

  // ---- The durable ledger as the coordinator mutates it ------------------------------------

  class BudgetLedger {
    var usage: seq<Usage>
    var reservations: seq<Reservation>
    const limits: Limits

    ghost predicate Valid()
      reads this
    {
      WellFormed(Value()) && Conserved(Value(), limits)
    }

    function Value(): Ledger
      reads this
    {
      Ledger(usage, reservations)
    }

    constructor (limits: Limits)
      ensures Valid() && Value() == Ledger([], []) && this.limits == limits
    {
      usage, reservations := [], [];
      this.limits := limits;
    }

    /** Reserve: the decision and the insertion are one atomic write. Nothing is inserted unless
        the reservation is allowed, and an allowed one still fits. */
    method ReserveBudget(id: AttemptId, metric: Metric, amount: nat, current: bool) returns (verdict: Option<Verdict>)
      requires Valid() && 1 <= amount
      modifies this
      ensures Valid()
      ensures Value() == Apply(old(Value()), limits, Reserve(current, Reservation(id, metric, amount, Active)))
      ensures Value() != old(Value()) ==>
                && verdict == Some(Allow) && current
                && Value() == Insert(old(Value()), Reservation(id, metric, amount, Active))
                && (metric in limits ==> !Latched(old(Value()), metric))
      ensures old(!Has(Value(), id)) ==>
                (verdict == Some(Allow) <==> current && old(HasRoom(Value(), limits, metric, amount)))
                && (verdict == Some(Allow) <==> Value() != old(Value()))
      ensures verdict != Some(Allow) ==> unchanged(this)
    {
      var r := Reservation(id, metric, amount, Active);
      ReserveKeeps(Value(), limits, current, r);
      var result := ReserveIfAllowed(Value(), limits, current, r, false);
      match result {
        case Reserved(l, decision) =>
          usage, reservations := l.usage, l.reservations;
          verdict := Some(decision.verdict);
        case ReserveConflict =>
          verdict := None;
      }
    }

    /** Settle an agent attempt or a validation; only an active reservation can be settled. */
    method SettleWith(op: Op) returns (written: bool)
      requires Valid() && (op.SettleAttempt? || op.SettleDuration? || op.MarkUnresolved?)
      modifies this
      ensures Valid() && Value() == Apply(old(Value()), limits, op)
      ensures written ==> old(IsActive(Value(), op.id)) && !IsActive(Value(), op.id)
      ensures old(Uncharged(Value(), op.id)) ==>
                forall r :: old(ActiveOf(Value(), op.id, r)) ==> (written <==> Settles(op, r.metric))
      ensures old(Uncharged(Value(), op.id)) && written ==>
                forall r :: old(ActiveOf(Value(), op.id, r)) ==> ChargesWhenWritten(old(Value()), Value(), op, r)
      ensures !written ==> unchanged(this)
      ensures forall m :: m in limits && old(Latched(Value(), m)) ==> Latched(Value(), m)
    {
      ghost var before := Value();
      var was := IsActive(Value(), op.id);
      var after := Apply(Value(), limits, op);
      ApplyKeeps(before, limits, op);
      forall m | m in limits && Latched(before, m) ensures Latched(after, m) {
        LatchStep(before, limits, op, m);
      }
      SettlementsCharge(before, limits, op);
      written := was && !IsActive(after, op.id);
      if written {
        usage, reservations := after.usage, after.reservations;
      } else {
        UnwrittenIsUnchanged(before, limits, op);
      }
    }
  }

  lemma UnwrittenIsUnchanged(l: Ledger, limits: Limits, op: Op)
    requires WellFormed(l) && (op.SettleAttempt? || op.SettleDuration? || op.MarkUnresolved?)
    requires !(IsActive(l, op.id) && !IsActive(Apply(l, limits, op), op.id))
    ensures Apply(l, limits, op) == l
  {
  }
}
