/** Bounded deterministic context selection (src/revanent/context/selection.py,
    src/revanent/ports/context.py). What reading, redaction and scope rules make of an entry is part
    of the input. */
module Selection {
  import opened Domain
  import opened Ordering

  const MAX_AGENT_BYTES: nat := 1_048_576
  const MAX_AGENT_REFERENCES: nat := 64
  const MAX_UNTRUSTED_ITEMS: nat := 63

  datatype Importance = Required | Preferred | Optional {
    function Rank(): nat {
      match this
      case Required => 0
      case Preferred => 1
      case Optional => 2
    }
  }

  datatype Kind = RepositoryFile | LocalEvidence | Artifact

  datatype ContentState = Whole | Cut | Referenced

  /** Items with equal keys carry the same content under the same authority and trust. */
  datatype Key = Key(digest: string, authority: nat, trust: nat)

  datatype Item = Item(
    id: string, kind: Kind, importance: Importance, key: Key,
    source: nat, retained: nat, state: ContentState, duplicateOf: Option<string>)
  {
    /** The accounting conditions of the item model. */
    predicate Valid() {
      && (state != Referenced ==> retained <= source && duplicateOf.None?)
      && (state == Whole ==> retained == source)
      && (state == Cut ==> retained < source)
      && (state == Referenced ==> retained == 0 && duplicateOf.Some?)
    }

    /** The bytes that truncation left out. */
    function Truncated(): nat {
      if state == Referenced || source < retained then 0 else source - retained
    }
  }

  datatype Reason = ItemLimit | AggregateLimit | Unavailable(blocking: bool)

  /** What preparing an entry gives: a refusal, or an item and the bytes that were read. */
  datatype Preparation = Refused(reason: Reason, bytes: Option<nat>) | Ready(item: Item, observed: nat)

  datatype Entry = Entry(
    importance: Importance, priority: nat, source: string, reference: string,
    requiresComplete: bool, prepared: Preparation)

  datatype Limits = Limits(
    maxCandidates: nat, maxItems: nat, maxExclusions: nat, maxItemBytes: nat, maxTotalBytes: nat, maxArtifactTotal: nat)

  datatype Exclusion = Exclusion(entry: Entry, reason: Reason, bytes: Option<nat>)

  datatype Failure = ControlLimit | CandidateLimit | RequiredUnavailable(reason: Reason) | InvalidBaseline

  /** What preparation guarantees about a ready entry: its own importance, fresh content that fits an
      item and is cut only where the whole would not fit, and complete content where that is demanded. */
  predicate Sensible(e: Entry, limits: Limits) {
    e.prepared.Ready? ==>
      var item := e.prepared.item;
      && item.importance == e.importance && item.Valid() && item.state != Referenced
      && item.retained <= limits.maxItemBytes
      && (item.state == Whole <==> item.source <= limits.maxItemBytes)
      && (e.requiresComplete ==> item.state == Whole)
  }

  // ---- Order ----------------------------------------------------------------------------------

  /** The order of both passes: importance, priority, source, reference. */
  predicate EntryLeq(a: Entry, b: Entry) {
    if a.importance != b.importance then a.importance.Rank() < b.importance.Rank()
    else if a.priority != b.priority then a.priority < b.priority
    else if a.source != b.source then StringLeq(a.source, b.source)
    else StringLeq(a.reference, b.reference)
  }

  /** The order written out: required before preferred before optional, then by ascending priority, then
      by source, then by reference. */
  predicate Precedes(a: Entry, b: Entry) {
    || (a.importance == Required && b.importance != Required)
    || (a.importance == Preferred && b.importance == Optional)
    || (a.importance == b.importance
        && (|| a.priority < b.priority
            || (a.priority == b.priority
                && (|| (a.source != b.source && StringLeq(a.source, b.source))
                    || (a.source == b.source && StringLeq(a.reference, b.reference))))))
  }

  ghost predicate InOrder(es: seq<Entry>) {
    forall i, k :: 0 <= i < k < |es| ==> Precedes(es[i], es[k])
  }

  lemma OrderedIsInOrder(es: seq<Entry>)
    requires Ordered(EntryLeq, es)
    ensures InOrder(es)
  {
    forall i, k | 0 <= i < k < |es| ensures Precedes(es[i], es[k]) { assert EntryLeq(es[i], es[k]); }
  }

  lemma EntryOrder()
    ensures TotalOrder(EntryLeq)
  {
    forall a: Entry, b: Entry ensures EntryLeq(a, b) || EntryLeq(b, a) {
      StringLeqTotal(a.source, b.source);
      StringLeqTotal(a.reference, b.reference);
    }
    forall a: Entry, b: Entry, c: Entry | EntryLeq(a, b) && EntryLeq(b, c) ensures EntryLeq(a, c) {
      EntryLeqTransitive(a, b, c);
    }
  }

  lemma EntryLeqTransitive(a: Entry, b: Entry, c: Entry)
    requires EntryLeq(a, b) && EntryLeq(b, c)
    ensures EntryLeq(a, c)
  {
    if a.importance == b.importance == c.importance && a.priority == b.priority == c.priority {
      if a.source == b.source == c.source {
        StringLeqTransitive(a.reference, b.reference, c.reference);
      } else if a.source != b.source && b.source != c.source {
        StringLeqTransitive(a.source, b.source, c.source);
        if a.source == c.source { StringLeqAntisymmetric(a.source, b.source); }
      }
    }
  }

  // ---- Sums -----------------------------------------------------------------------------------

  function Retained(items: seq<Item>): nat {
    if items == [] then 0 else Retained(items[..|items| - 1]) + items[|items| - 1].retained
  }

  function ArtifactBytes(es: seq<Entry>): nat {
    if es == [] then 0
    else
      var last := es[|es| - 1];
      ArtifactBytes(es[..|es| - 1])
      + if last.prepared.Ready? && last.prepared.item.kind == Artifact then last.prepared.observed else 0
  }

  function Bytes(p: Preparation): nat {
    match p
    case Refused(_, bytes) => if bytes.Some? then bytes.value else 0
    case Ready(_, observed) => observed
  }

  function Considered(es: seq<Entry>): nat {
    if es == [] then 0 else Considered(es[..|es| - 1]) + Bytes(es[|es| - 1].prepared)
  }

  function EntriesOf(xs: seq<Exclusion>): seq<Entry> {
    seq(|xs|, i requires 0 <= i < |xs| => xs[i].entry)
  }

  ghost predicate NoneRequired(xs: seq<Exclusion>) {
    forall i :: 0 <= i < |xs| ==> xs[i].entry.importance != Required
  }

  // ---- First pass -----------------------------------------------------------------------------

  /** Every entry is prepared or excluded, none twice; nothing required is excluded; the prepared
      artifacts stay within their cap. */
  ghost predicate Divided(entries: seq<Entry>, limits: Limits, prepared: seq<Entry>, excluded: seq<Exclusion>) {
    && multiset(prepared) + multiset(EntriesOf(excluded)) == multiset(entries)
    && (forall i :: 0 <= i < |prepared| ==> prepared[i].prepared.Ready?)
    && NoneRequired(excluded)
    && (forall i :: 0 <= i < |excluded| ==>
          || excluded[i].entry.prepared.Refused?
          || (excluded[i].entry.prepared.item.kind == Artifact && excluded[i].reason == AggregateLimit
              && ArtifactBytes(entries) > limits.maxArtifactTotal))
    && ArtifactBytes(prepared) <= limits.maxArtifactTotal
  }

  lemma EntriesSnoc(xs: seq<Exclusion>, x: Exclusion)
    ensures EntriesOf(xs + [x]) == EntriesOf(xs) + [x.entry]
  {
  }

  lemma ArtifactsSnoc(es: seq<Entry>, e: Entry)
    ensures ArtifactBytes(es + [e])
         == ArtifactBytes(es) + if e.prepared.Ready? && e.prepared.item.kind == Artifact then e.prepared.observed else 0
  {
    assert (es + [e])[..|es|] == es;
  }

  lemma ConsideredSnoc(es: seq<Entry>, e: Entry)
    ensures Considered(es + [e]) == Considered(es) + Bytes(e.prepared)
  {
    assert (es + [e])[..|es|] == es;
  }

  lemma DividedPrepared(es: seq<Entry>, limits: Limits, prepared: seq<Entry>, excluded: seq<Exclusion>, e: Entry)
    requires Divided(es, limits, prepared, excluded) && e.prepared.Ready?
    requires ArtifactBytes(prepared + [e]) <= limits.maxArtifactTotal
    ensures Divided(es + [e], limits, prepared + [e], excluded)
  {
    ArtifactsSnoc(es, e);
  }

  lemma DividedExcluded(es: seq<Entry>, limits: Limits, prepared: seq<Entry>, excluded: seq<Exclusion>, x: Exclusion)
    requires Divided(es, limits, prepared, excluded) && x.entry.importance != Required
    requires || x.entry.prepared.Refused?
             || (x.entry.prepared.item.kind == Artifact && x.reason == AggregateLimit
                 && ArtifactBytes(es + [x.entry]) > limits.maxArtifactTotal)
    ensures Divided(es + [x.entry], limits, prepared, excluded + [x])
  {
    ArtifactsSnoc(es, x.entry);
    EntriesSnoc(excluded, x);
  }

  /** An entry that the first pass cannot keep. */
  predicate Unkeepable(entries: seq<Entry>, limits: Limits, k: nat)
    requires k < |entries|
  {
    || entries[k].prepared.Refused?
    || (entries[k].prepared.item.kind == Artifact && ArtifactBytes(entries[..k + 1]) > limits.maxArtifactTotal)
  }

  /** What the first pass keeps of the sorted entries. */
  function Kept(entries: seq<Entry>, limits: Limits): (kept: seq<Entry>)
    ensures forall i :: 0 <= i < |kept| ==> kept[i].prepared.Ready?
  {
    if entries == [] then []
    else
      var last := |entries| - 1;
      Kept(entries[..last], limits) + if Unkeepable(entries, limits, last) then [] else [entries[last]]
  }

  lemma KeptStep(entries: seq<Entry>, limits: Limits, k: nat)
    requires k < |entries|
    ensures Kept(entries[..k + 1], limits)
         == Kept(entries[..k], limits) + if Unkeepable(entries, limits, k) then [] else [entries[k]]
  {
    assert entries[..k + 1][..k] == entries[..k];
    assert entries[..k + 1][..k + 1] == entries[..k + 1];
  }

  function ArtifactPart(p: Preparation): nat {
    if p.Ready? && p.item.kind == Artifact then p.observed else 0
  }

  /** What becomes of one entry when `artifacts` counts the artifact bytes up to and with it. */
  function Verdict(e: Entry, artifacts: nat, limits: Limits): Option<Exclusion> {
    match e.prepared
    case Refused(reason, bytes) => Some(Exclusion(e, reason, bytes))
    case Ready(item, observed) =>
      if item.kind == Artifact && artifacts > limits.maxArtifactTotal then
        Some(Exclusion(e, AggregateLimit, Some(observed)))
      else None
  }

  lemma VerdictIsExact(entries: seq<Entry>, limits: Limits, k: nat)
    requires k < |entries|
    ensures Verdict(entries[k], ArtifactBytes(entries[..k + 1]), limits).Some? <==> Unkeepable(entries, limits, k)
  {
  }

  lemma Divide(entries: seq<Entry>, limits: Limits, k: nat, prepared: seq<Entry>, excluded: seq<Exclusion>)
    requires k < |entries| && Divided(entries[..k], limits, prepared, excluded)
    requires ArtifactBytes(prepared) <= ArtifactBytes(entries[..k])
    ensures ArtifactBytes(entries[..k + 1]) == ArtifactBytes(entries[..k]) + ArtifactPart(entries[k].prepared)
    ensures Considered(entries[..k + 1]) == Considered(entries[..k]) + Bytes(entries[k].prepared)
    ensures var v := Verdict(entries[k], ArtifactBytes(entries[..k + 1]), limits);
            && (v.None? ==> Divided(entries[..k + 1], limits, prepared + [entries[k]], excluded)
                            && ArtifactBytes(prepared + [entries[k]]) <= ArtifactBytes(entries[..k + 1]))
            && (v.Some? && entries[k].importance != Required ==>
                  Divided(entries[..k + 1], limits, prepared, excluded + [v.value]))
  {
    var e := entries[k];
    assert entries[..k + 1] == entries[..k] + [e];
    ConsideredSnoc(entries[..k], e);
    ArtifactsSnoc(entries[..k], e);
    ArtifactsSnoc(prepared, e);
    var v := Verdict(e, ArtifactBytes(entries[..k + 1]), limits);
    if v.None? {
      DividedPrepared(entries[..k], limits, prepared, excluded, e);
    } else if e.importance != Required {
      DividedExcluded(entries[..k], limits, prepared, excluded, v.value);
    }
  }

  ghost predicate RequiredUnkeepable(entries: seq<Entry>, limits: Limits, k: nat)
    requires k < |entries|
  {
    entries[k].importance == Required && Unkeepable(entries, limits, k)
  }

  ghost predicate NoneUnkeepable(entries: seq<Entry>, limits: Limits, n: nat)
    requires n <= |entries|
  {
    forall k: nat :: k < n ==> !RequiredUnkeepable(entries, limits, k)
  }

  /** The first pass refused this entry at its place in the order. */
  ghost predicate RefusedHere(entries: seq<Entry>, limits: Limits, x: Exclusion) {
    && (exists k: nat :: k < |entries| && entries[k] == x.entry && Unkeepable(entries, limits, k))
    && (match x.entry.prepared
        case Refused(reason, bytes) => x.reason == reason && x.bytes == bytes
        case Ready(_, observed) => x.reason == AggregateLimit && x.bytes == Some(observed))
  }

  ghost predicate AllRefused(entries: seq<Entry>, limits: Limits, excluded: seq<Exclusion>) {
    forall i :: 0 <= i < |excluded| ==> RefusedHere(entries, limits, excluded[i])
  }

  /** What the first pass keeps after `k` entries. */
  ghost predicate Dividing(entries: seq<Entry>, limits: Limits, k: nat, prepared: seq<Entry>, excluded: seq<Exclusion>,
                           considered: nat, artifacts: nat)
    requires k <= |entries|
  {
    && Divided(entries[..k], limits, prepared, excluded)
    && prepared == Kept(entries[..k], limits)
    && considered == Considered(entries[..k])
    && artifacts == ArtifactBytes(entries[..k]) && ArtifactBytes(prepared) <= artifacts
  }

  lemma KeepsDividing(entries: seq<Entry>, limits: Limits, k: nat, prepared: seq<Entry>, excluded: seq<Exclusion>,
                      considered: nat, artifacts: nat)
    requires k < |entries| && Dividing(entries, limits, k, prepared, excluded, considered, artifacts)
    requires !Unkeepable(entries, limits, k)
    ensures Dividing(entries, limits, k + 1, prepared + [entries[k]], excluded,
                     considered + Bytes(entries[k].prepared), artifacts + ArtifactPart(entries[k].prepared))
  {
    Divide(entries, limits, k, prepared, excluded);
    VerdictIsExact(entries, limits, k);
    KeptStep(entries, limits, k);
  }

  lemma DropsDividing(entries: seq<Entry>, limits: Limits, k: nat, prepared: seq<Entry>, excluded: seq<Exclusion>,
                      considered: nat, artifacts: nat, x: Exclusion)
    requires k < |entries| && Dividing(entries, limits, k, prepared, excluded, considered, artifacts)
    requires entries[k].importance != Required
    requires Verdict(entries[k], artifacts + ArtifactPart(entries[k].prepared), limits) == Some(x)
    ensures Dividing(entries, limits, k + 1, prepared, excluded + [x],
                     considered + Bytes(entries[k].prepared), artifacts + ArtifactPart(entries[k].prepared))
  {
    Divide(entries, limits, k, prepared, excluded);
    VerdictIsExact(entries, limits, k);
    KeptStep(entries, limits, k);
  }

  lemma VerdictNow(entries: seq<Entry>, limits: Limits, k: nat, artifacts: nat)
    requires k < |entries| && artifacts == ArtifactBytes(entries[..k])
    ensures Verdict(entries[k], artifacts + ArtifactPart(entries[k].prepared), limits).Some?
            <==> Unkeepable(entries, limits, k)
  {
    assert entries[..k + 1] == entries[..k] + [entries[k]];
    ArtifactsSnoc(entries[..k], entries[k]);
    VerdictIsExact(entries, limits, k);
  }

  /** One entry of the first pass. */
  method TakeEntry(ghost entries: seq<Entry>, limits: Limits, ghost k: nat, e: Entry, prepared0: seq<Entry>,
                   excluded0: seq<Exclusion>,
                   considered0: nat, artifacts0: nat)
    returns (refused: Option<Reason>, prepared: seq<Entry>, excluded: seq<Exclusion>, considered: nat, artifacts: nat)
    requires k < |entries| && e == entries[k]
    requires Dividing(entries, limits, k, prepared0, excluded0, considered0, artifacts0)
    requires AllRefused(entries, limits, excluded0)
    ensures AllRefused(entries, limits, excluded)
    ensures refused.Some? <==> RequiredUnkeepable(entries, limits, k)
    ensures refused.None? ==> Dividing(entries, limits, k + 1, prepared, excluded, considered, artifacts)
  {
    VerdictNow(entries, limits, k, artifacts0);
    refused, prepared, excluded := None, prepared0, excluded0;
    considered := considered0 + Bytes(e.prepared);
    artifacts := artifacts0 + ArtifactPart(e.prepared);
    var exclusion := Verdict(e, artifacts, limits);
    if exclusion.None? {
      KeepsDividing(entries, limits, k, prepared, excluded, considered0, artifacts0);
      prepared := prepared + [e];
    } else if e.importance == Required {
      refused := Some(exclusion.value.reason);
    } else {
      DropsDividing(entries, limits, k, prepared, excluded, considered0, artifacts0, exclusion.value);
      assert RefusedHere(entries, limits, exclusion.value);
      excluded := excluded + [exclusion.value];
    }
  }

  /** The first pass over the sorted entries. It fails exactly when a required entry cannot be kept. */
  method Prepare(entries: seq<Entry>, limits: Limits)
    returns (failure: Option<Reason>, prepared: seq<Entry>, excluded: seq<Exclusion>, considered: nat)
    ensures failure.None? ==> Divided(entries, limits, prepared, excluded) && considered == Considered(entries)
    ensures failure.None? ==> prepared == Kept(entries, limits) && AllRefused(entries, limits, excluded)
    ensures failure.None? <==> NoneUnkeepable(entries, limits, |entries|)
  {
    failure, prepared, excluded, considered := None, [], [], 0;
    var artifacts := 0;
    for k := 0 to |entries|
      invariant failure.None? && Dividing(entries, limits, k, prepared, excluded, considered, artifacts)
      invariant AllRefused(entries, limits, excluded)
      invariant NoneUnkeepable(entries, limits, k)
    {
      failure, prepared, excluded, considered, artifacts :=
        TakeEntry(entries, limits, k, entries[k], prepared, excluded, considered, artifacts);
      if failure.Some? {
        return;
      }
    }
    assert entries[..|entries|] == entries;
  }

  // ---- Second pass ----------------------------------------------------------------------------

  function AsReference(item: Item, target: string): Item {
    item.(retained := 0, state := Referenced, duplicateOf := Some(target))
  }

  predicate SeenKey(es: seq<Entry>, key: Key) {
    exists i :: 0 <= i < |es| && es[i].prepared.Ready? && es[i].prepared.item.key == key
  }

  /** The bytes of the distinct contents. */
  function DistinctBytes(es: seq<Entry>): nat
    requires forall i :: 0 <= i < |es| ==> es[i].prepared.Ready?
  {
    if es == [] then 0
    else
      var front, item := es[..|es| - 1], es[|es| - 1].prepared.item;
      DistinctBytes(front) + if SeenKey(front, item.key) then 0 else item.retained
  }

  ghost predicate AllReady(es: seq<Entry>) {
    forall i :: 0 <= i < |es| ==> es[i].prepared.Ready?
  }

  /** A selected item is the item of its entry, in full or as a reference to the first entry with the
      same content; for a required entry that one is selected before it, in full. */
  ghost predicate Faithful(picked: seq<Entry>, selected: seq<Item>, i: nat)
    requires i < |picked| == |selected| && AllReady(picked)
  {
    var item := picked[i].prepared.item;
    && (|| selected[i] == item
        || (selected[i].duplicateOf.Some? && selected[i] == AsReference(item, selected[i].duplicateOf.value)))
    && (picked[i].importance == Required && selected[i] != item ==> Represented(selected, i))
  }

  ghost predicate Represented(selected: seq<Item>, i: nat)
    requires i < |selected|
  {
    exists k :: 0 <= k < i && selected[k].key == selected[i].key && selected[k].state != Referenced
                && selected[i].duplicateOf == Some(selected[k].id)
  }

  /** Why an item was dropped: what was selected in the end leaves no room for it. */
  ghost predicate NoRoom(x: Exclusion, selected: seq<Item>, limit: nat, budget: nat) {
    && x.entry.prepared.Ready?
    && (x.reason == ItemLimit ==> |selected| == limit)
    && (x.reason == AggregateLimit ==> Retained(selected) + x.entry.prepared.item.retained > budget)
    && x.reason in {ItemLimit, AggregateLimit}
  }

  ghost predicate Chosen(es: seq<Entry>, limit: nat, budget: nat, selected: seq<Item>, picked: seq<Entry>,
                         dropped: seq<Exclusion>) {
    && multiset(picked) + multiset(EntriesOf(dropped)) == multiset(es)
    && |picked| == |selected| && AllReady(picked)
    && (forall i: nat :: i < |picked| ==> Faithful(picked, selected, i))
    && |selected| <= limit && Retained(selected) <= budget
    && NoneRequired(dropped)
    && (forall i :: 0 <= i < |dropped| ==> NoRoom(dropped[i], selected, limit, budget))
  }

  lemma RetainedSnoc(items: seq<Item>, x: Item)
    ensures Retained(items + [x]) == Retained(items) + x.retained
  {
    assert (items + [x])[..|items|] == items;
  }

  lemma FaithfulGrows(picked: seq<Entry>, selected: seq<Item>, e: Entry, item: Item, i: nat)
    requires i < |picked| == |selected| && AllReady(picked) && e.prepared.Ready? && Faithful(picked, selected, i)
    ensures Faithful(picked + [e], selected + [item], i)
  {
    if picked[i].importance == Required && selected[i] != picked[i].prepared.item {
      var k :| 0 <= k < i && selected[k].key == selected[i].key && selected[k].state != Referenced
               && selected[i].duplicateOf == Some(selected[k].id);
      assert (selected + [item])[k] == selected[k];
    }
  }

  lemma ChosenPicked(es: seq<Entry>, limit: nat, budget: nat, selected: seq<Item>, picked: seq<Entry>,
                     dropped: seq<Exclusion>, e: Entry, item: Item)
    requires Chosen(es, limit, budget, selected, picked, dropped) && e.prepared.Ready?
    requires |selected| < limit && Retained(selected) + item.retained <= budget
    requires AllReady(picked + [e]) && Faithful(picked + [e], selected + [item], |picked|)
    ensures Chosen(es + [e], limit, budget, selected + [item], picked + [e], dropped)
  {
    RetainedSnoc(selected, item);
    forall i: nat | i < |picked + [e]| ensures Faithful(picked + [e], selected + [item], i) {
      if i < |picked| { FaithfulGrows(picked, selected, e, item, i); }
    }
    forall i | 0 <= i < |dropped| ensures NoRoom(dropped[i], selected + [item], limit, budget) {
      assert NoRoom(dropped[i], selected, limit, budget);
    }
  }

  lemma ChosenDropped(es: seq<Entry>, limit: nat, budget: nat, selected: seq<Item>, picked: seq<Entry>,
                      dropped: seq<Exclusion>, x: Exclusion)
    requires Chosen(es, limit, budget, selected, picked, dropped) && x.entry.importance != Required
    requires NoRoom(x, selected, limit, budget)
    ensures Chosen(es + [x.entry], limit, budget, selected, picked, dropped + [x])
  {
    EntriesSnoc(dropped, x);
  }

  /** Representatives: the first item of every content seen so far. A representative that is not
      selected was dropped, so it is not required. */
  ghost predicate RepresentativesOk(es: seq<Entry>, reps: map<Key, Item>, selected: seq<Item>) {
    && (forall key :: key in reps <==> SeenKey(es, key))
    && (forall key :: key in reps ==> RepresentativeOk(es, key, reps[key], selected))
  }

  ghost predicate RepresentativeOk(es: seq<Entry>, key: Key, rep: Item, selected: seq<Item>) {
    && rep.key == key && rep.state != Referenced
    && (exists i :: 0 <= i < |es| && es[i].prepared.Ready? && es[i].prepared.item == rep)
    && (rep.importance == Required ==> exists k :: 0 <= k < |selected| && selected[k] == rep)
  }

  lemma RepsGrow(es: seq<Entry>, reps: map<Key, Item>, selected: seq<Item>, e: Entry, more: seq<Item>,
                 reps': map<Key, Item>)
    requires RepresentativesOk(es, reps, selected) && e.prepared.Ready? && e.prepared.item.state != Referenced
    requires reps' == Remember(reps, e.prepared.item)
    requires more == [] || |more| == 1
    requires e.prepared.item.key !in reps && e.prepared.item.importance == Required ==> more == [e.prepared.item]
    ensures RepresentativesOk(es + [e], reps', selected + more)
  {
    forall key ensures SeenKey(es + [e], key) <==> SeenKey(es, key) || key == e.prepared.item.key {
      SeenSnoc(es, e, key);
    }
    forall key | key in reps' ensures RepresentativeOk(es + [e], key, reps'[key], selected + more) {
      if key in reps {
        RepresentativeGrows(es, key, reps[key], selected, e, more);
      } else {
        assert (es + [e])[|es|].prepared.item == reps'[key];
        if e.prepared.item.importance == Required { assert (selected + more)[|selected|] == e.prepared.item; }
      }
    }
  }

  lemma SeenSnoc(es: seq<Entry>, e: Entry, key: Key)
    requires e.prepared.Ready?
    ensures SeenKey(es + [e], key) <==> SeenKey(es, key) || key == e.prepared.item.key
  {
    assert (es + [e])[|es|] == e;
    if SeenKey(es, key) {
      var i :| 0 <= i < |es| && es[i].prepared.Ready? && es[i].prepared.item.key == key;
      assert (es + [e])[i] == es[i];
    }
  }

  lemma RepresentativeGrows(es: seq<Entry>, key: Key, rep: Item, selected: seq<Item>, e: Entry, more: seq<Item>)
    requires RepresentativeOk(es, key, rep, selected)
    ensures RepresentativeOk(es + [e], key, rep, selected + more)
  {
    var i :| 0 <= i < |es| && es[i].prepared.Ready? && es[i].prepared.item == rep;
    assert (es + [e])[i] == es[i];
    if rep.importance == Required {
      var k :| 0 <= k < |selected| && selected[k] == rep;
      assert (selected + more)[k] == rep;
    }
  }

  /** A required entry that cannot be selected within the limits. */
  ghost predicate Crowded(es: seq<Entry>, limit: nat, budget: nat, k: nat)
    requires k < |es| && AllReady(es)
  {
    es[k].importance == Required && (k >= limit || DistinctBytes(es[..k + 1]) > budget)
  }

  ghost predicate AnyCrowded(es: seq<Entry>, limit: nat, budget: nat)
    requires AllReady(es)
  {
    exists k: nat :: k < |es| && Crowded(es, limit, budget, k)
  }

  ghost predicate NoneCrowded(es: seq<Entry>, limit: nat, budget: nat, n: nat)
    requires AllReady(es) && n <= |es|
  {
    forall k: nat :: k < n ==> !Crowded(es, limit, budget, k)
  }

  /** While only required entries were seen, all of them are selected. */
  ghost predicate AllSelected(es: seq<Entry>, selected: seq<Item>)
    requires AllReady(es)
  {
    (forall i :: 0 <= i < |es| ==> es[i].importance == Required) ==>
      |selected| == |es| && Retained(selected) == DistinctBytes(es)
  }

  function ItemBytes(es: seq<Entry>): nat {
    if es == [] then 0
    else
      ItemBytes(es[..|es| - 1]) + if es[|es| - 1].prepared.Ready? then es[|es| - 1].prepared.item.retained else 0
  }

  lemma DistinctSnoc(es: seq<Entry>, e: Entry)
    requires AllReady(es) && e.prepared.Ready?
    ensures AllReady(es + [e])
    ensures DistinctBytes(es + [e])
         == DistinctBytes(es) + if SeenKey(es, e.prepared.item.key) then 0 else e.prepared.item.retained
    ensures ItemBytes(es + [e]) == ItemBytes(es) + e.prepared.item.retained
  {
    assert (es + [e])[..|es|] == es;
  }

  /** The item as it enters the selection. */
  function Entering(item: Item, reps: map<Key, Item>): Item {
    if item.key in reps then AsReference(item, reps[item.key].id) else item
  }

  /** No room is left for the item. */
  predicate Exceeds(limit: nat, budget: nat, selected: seq<Item>, item: Item) {
    |selected| >= limit || Retained(selected) + item.retained > budget
  }

  /** The first item of a content represents it, whether it is selected or not. */
  function Remember(reps: map<Key, Item>, item: Item): map<Key, Item> {
    if item.key in reps then reps else reps[item.key := item]
  }

  datatype Pass = Pass(selected: seq<Item>, reps: map<Key, Item>)

  /** The second pass as a function: what is selected, and who represents which content, after these
      entries. */
  function PassOver(es: seq<Entry>, limit: nat, budget: nat): Pass
    requires AllReady(es)
  {
    if es == [] then Pass([], map[])
    else
      var front := PassOver(es[..|es| - 1], limit, budget);
      var item := Entering(es[|es| - 1].prepared.item, front.reps);
      Pass(front.selected + if Exceeds(limit, budget, front.selected, item) then [] else [item],
           Remember(front.reps, es[|es| - 1].prepared.item))
  }

  /** The entries that the second pass selects. */
  function PickedBy(es: seq<Entry>, limit: nat, budget: nat): seq<Entry>
    requires AllReady(es)
  {
    if es == [] then []
    else
      var front := PassOver(es[..|es| - 1], limit, budget);
      var item := Entering(es[|es| - 1].prepared.item, front.reps);
      PickedBy(es[..|es| - 1], limit, budget)
      + if Exceeds(limit, budget, front.selected, item) then [] else [es[|es| - 1]]
  }

  /** The entry at `k` found no room at its turn. */
  ghost predicate DroppedAt(es: seq<Entry>, limit: nat, budget: nat, x: Exclusion, k: nat)
    requires AllReady(es)
  {
    && k < |es| && es[k] == x.entry
    && var front := PassOver(es[..k], limit, budget);
       && Exceeds(limit, budget, front.selected, Entering(es[k].prepared.item, front.reps))
       && x.reason == (if |front.selected| >= limit then ItemLimit else AggregateLimit)
       && x.bytes == Some(es[k].prepared.observed)
  }

  ghost predicate AllDropped(es: seq<Entry>, limit: nat, budget: nat, dropped: seq<Exclusion>)
    requires AllReady(es)
  {
    forall i :: 0 <= i < |dropped| ==> WasDropped(es, limit, budget, dropped[i])
  }

  ghost predicate WasDropped(es: seq<Entry>, limit: nat, budget: nat, x: Exclusion)
    requires AllReady(es)
  {
    exists k: nat :: DroppedAt(es, limit, budget, x, k)
  }

  lemma PickedSnoc(es: seq<Entry>, e: Entry, limit: nat, budget: nat)
    requires AllReady(es) && e.prepared.Ready?
    ensures AllReady(es + [e])
    ensures var front := PassOver(es, limit, budget);
            PickedBy(es + [e], limit, budget)
              == PickedBy(es, limit, budget)
                 + if Exceeds(limit, budget, front.selected, Entering(e.prepared.item, front.reps)) then [] else [e]
  {
    assert (es + [e])[..|es|] == es;
  }

  lemma DroppedGrows(es: seq<Entry>, e: Entry, limit: nat, budget: nat, dropped: seq<Exclusion>)
    requires AllReady(es) && e.prepared.Ready? && AllDropped(es, limit, budget, dropped)
    ensures AllReady(es + [e]) && AllDropped(es + [e], limit, budget, dropped)
  {
    forall i | 0 <= i < |dropped| ensures WasDropped(es + [e], limit, budget, dropped[i]) {
      DropGrows(es, e, limit, budget, dropped[i]);
    }
  }

  lemma DropGrows(es: seq<Entry>, e: Entry, limit: nat, budget: nat, x: Exclusion)
    requires AllReady(es) && e.prepared.Ready? && WasDropped(es, limit, budget, x)
    ensures AllReady(es + [e]) && WasDropped(es + [e], limit, budget, x)
  {
    var k: nat :| DroppedAt(es, limit, budget, x, k);
    assert (es + [e])[..k] == es[..k];
    assert DroppedAt(es + [e], limit, budget, x, k);
  }

  lemma DroppedNow(es: seq<Entry>, limit: nat, budget: nat, dropped: seq<Exclusion>, x: Exclusion)
    requires AllReady(es) && x.entry.prepared.Ready? && AllDropped(es, limit, budget, dropped)
    requires var front := PassOver(es, limit, budget);
             && Exceeds(limit, budget, front.selected, Entering(x.entry.prepared.item, front.reps))
             && x.reason == (if |front.selected| >= limit then ItemLimit else AggregateLimit)
             && x.bytes == Some(x.entry.prepared.observed)
    ensures AllReady(es + [x.entry]) && AllDropped(es + [x.entry], limit, budget, dropped + [x])
  {
    DroppedGrows(es, x.entry, limit, budget, dropped);
    LastIsDropped(es, limit, budget, x);
  }

  lemma LastIsDropped(es: seq<Entry>, limit: nat, budget: nat, x: Exclusion)
    requires AllReady(es) && x.entry.prepared.Ready?
    requires var front := PassOver(es, limit, budget);
             && Exceeds(limit, budget, front.selected, Entering(x.entry.prepared.item, front.reps))
             && x.reason == (if |front.selected| >= limit then ItemLimit else AggregateLimit)
             && x.bytes == Some(x.entry.prepared.observed)
    ensures AllReady(es + [x.entry]) && WasDropped(es + [x.entry], limit, budget, x)
  {
    assert (es + [x.entry])[..|es|] == es;
    assert DroppedAt(es + [x.entry], limit, budget, x, |es|);
  }

  lemma PassSnoc(es: seq<Entry>, e: Entry, limit: nat, budget: nat)
    requires AllReady(es) && e.prepared.Ready?
    ensures AllReady(es + [e])
    ensures var front := PassOver(es, limit, budget);
            var item := Entering(e.prepared.item, front.reps);
            PassOver(es + [e], limit, budget)
              == Pass(front.selected + if Exceeds(limit, budget, front.selected, item) then [] else [item],
                      Remember(front.reps, e.prepared.item))
  {
    assert (es + [e])[..|es|] == es;
  }

  /** The parts of what the loop keeps. */
  datatype Part =
    AllAreReady | IsChosen | HasRepresentatives | RequiredAreSelected | BytesAddUp | IsThePass | IsPicked | AreDropped

  ghost predicate PartOk(part: Part, es: seq<Entry>, limit: nat, budget: nat, selected: seq<Item>, picked: seq<Entry>,
                         dropped: seq<Exclusion>, reps: map<Key, Item>, duplicateBytes: nat)
  {
    match part
    case AllAreReady => AllReady(es)
    case IsChosen => Chosen(es, limit, budget, selected, picked, dropped)
    case HasRepresentatives => RepresentativesOk(es, reps, selected)
    case RequiredAreSelected => AllReady(es) && AllSelected(es, selected)
    case BytesAddUp => AllReady(es) && duplicateBytes + DistinctBytes(es) == ItemBytes(es)
    case IsThePass => AllReady(es) && Pass(selected, reps) == PassOver(es, limit, budget)
    case IsPicked => AllReady(es) && picked == PickedBy(es, limit, budget)
    case AreDropped => AllReady(es) && AllDropped(es, limit, budget, dropped)
  }

  /** What the loop keeps. */
  ghost predicate Choosing(es: seq<Entry>, limit: nat, budget: nat, selected: seq<Item>, picked: seq<Entry>,
                           dropped: seq<Exclusion>, reps: map<Key, Item>, duplicateBytes: nat)
  {
    forall part: Part :: PartOk(part, es, limit, budget, selected, picked, dropped, reps, duplicateBytes)
  }

  lemma ChoosingParts(es: seq<Entry>, limit: nat, budget: nat, selected: seq<Item>, picked: seq<Entry>,
                      dropped: seq<Exclusion>, reps: map<Key, Item>, duplicateBytes: nat)
    requires Choosing(es, limit, budget, selected, picked, dropped, reps, duplicateBytes)
    ensures AllReady(es) && Chosen(es, limit, budget, selected, picked, dropped)
            && RepresentativesOk(es, reps, selected)
    ensures AllSelected(es, selected) && duplicateBytes + DistinctBytes(es) == ItemBytes(es)
    ensures Pass(selected, reps) == PassOver(es, limit, budget)
    ensures picked == PickedBy(es, limit, budget) && AllDropped(es, limit, budget, dropped)
  {
    assert PartOk(AllAreReady, es, limit, budget, selected, picked, dropped, reps, duplicateBytes);
    assert PartOk(IsChosen, es, limit, budget, selected, picked, dropped, reps, duplicateBytes);
    assert PartOk(HasRepresentatives, es, limit, budget, selected, picked, dropped, reps, duplicateBytes);
    assert PartOk(RequiredAreSelected, es, limit, budget, selected, picked, dropped, reps, duplicateBytes);
    assert PartOk(BytesAddUp, es, limit, budget, selected, picked, dropped, reps, duplicateBytes);
    assert PartOk(IsThePass, es, limit, budget, selected, picked, dropped, reps, duplicateBytes);
    assert PartOk(IsPicked, es, limit, budget, selected, picked, dropped, reps, duplicateBytes);
    assert PartOk(AreDropped, es, limit, budget, selected, picked, dropped, reps, duplicateBytes);
  }

  lemma RequiredRepresentative(es: seq<Entry>, limits: Limits, e: Entry, reps: map<Key, Item>, selected: seq<Item>)
    requires AllReady(es) && RepresentativesOk(es, reps, selected) && e.prepared.Ready? && Sensible(e, limits)
    requires forall i :: 0 <= i < |es| ==> Sensible(es[i], limits) && EntryLeq(es[i], e)
    requires e.importance == Required && e.prepared.item.key in reps
    ensures Represented(selected + [Entering(e.prepared.item, reps)], |selected|)
  {
    var key := e.prepared.item.key;
    var rep := reps[key];
    assert RepresentativeOk(es, key, rep, selected);
    var i :| 0 <= i < |es| && es[i].prepared.Ready? && es[i].prepared.item == rep;
    assert Sensible(es[i], limits) && EntryLeq(es[i], e);
    var k :| 0 <= k < |selected| && selected[k] == rep;
    assert (selected + [Entering(e.prepared.item, reps)])[k] == rep;
  }

  lemma EnterFaithfully(es: seq<Entry>, limits: Limits, e: Entry, reps: map<Key, Item>, selected: seq<Item>,
                        picked: seq<Entry>)
    requires AllReady(es) && RepresentativesOk(es, reps, selected) && e.prepared.Ready? && Sensible(e, limits)
    requires forall i :: 0 <= i < |es| ==> Sensible(es[i], limits) && EntryLeq(es[i], e)
    requires |picked| == |selected| && AllReady(picked)
    ensures AllReady(picked + [e]) && Faithful(picked + [e], selected + [Entering(e.prepared.item, reps)], |picked|)
  {
    var item := e.prepared.item;
    if e.importance == Required && item.key in reps {
      RequiredRepresentative(es, limits, e, reps, selected);
    }
  }

  /** A required entry comes after required entries only. */
  lemma RequiredFirst(es: seq<Entry>, k: nat)
    requires Ordered(EntryLeq, es) && k < |es| && es[k].importance == Required
    ensures forall i :: 0 <= i < k ==> es[i].importance == Required
  {
    forall i | 0 <= i < k ensures es[i].importance == Required {
      assert EntryLeq(es[i], es[k]);
    }
  }

  lemma Pick(es: seq<Entry>, limits: Limits, limit: nat, budget: nat, selected: seq<Item>, picked: seq<Entry>,
             dropped: seq<Exclusion>, reps: map<Key, Item>, duplicateBytes: nat, e: Entry)
    requires Choosing(es, limit, budget, selected, picked, dropped, reps, duplicateBytes)
    requires e.prepared.Ready? && Sensible(e, limits)
    requires forall i :: 0 <= i < |es| ==> Sensible(es[i], limits) && EntryLeq(es[i], e)
    requires |selected| < limit && Retained(selected) + Entering(e.prepared.item, reps).retained <= budget
    ensures var item := e.prepared.item;
            Choosing(es + [e], limit, budget, selected + [Entering(item, reps)], picked + [e], dropped,
                     Remember(reps, item), duplicateBytes + if item.key in reps then item.retained else 0)
  {
    var item := e.prepared.item;
    ChoosingParts(es, limit, budget, selected, picked, dropped, reps, duplicateBytes);
    DistinctSnoc(es, e);
    PickChooses(es, limits, limit, budget, selected, picked, dropped, reps, e);
    KeepAllSelected(es, selected, e, Entering(item, reps));
    PassSnoc(es, e, limit, budget);
    PickedSnoc(es, e, limit, budget);
    DroppedGrows(es, e, limit, budget, dropped);
    MakeChoosing(es + [e], limit, budget, selected + [Entering(item, reps)], picked + [e], dropped,
                 Remember(reps, item), duplicateBytes + if item.key in reps then item.retained else 0);
  }

  lemma PickChooses(es: seq<Entry>, limits: Limits, limit: nat, budget: nat, selected: seq<Item>, picked: seq<Entry>,
                    dropped: seq<Exclusion>, reps: map<Key, Item>, e: Entry)
    requires AllReady(es) && Chosen(es, limit, budget, selected, picked, dropped)
             && RepresentativesOk(es, reps, selected)
    requires e.prepared.Ready? && Sensible(e, limits)
    requires forall i :: 0 <= i < |es| ==> Sensible(es[i], limits) && EntryLeq(es[i], e)
    requires |selected| < limit && Retained(selected) + Entering(e.prepared.item, reps).retained <= budget
    ensures var item := e.prepared.item;
            && Chosen(es + [e], limit, budget, selected + [Entering(item, reps)], picked + [e], dropped)
            && RepresentativesOk(es + [e], Remember(reps, item), selected + [Entering(item, reps)])
  {
    var item := e.prepared.item;
    EnterFaithfully(es, limits, e, reps, selected, picked);
    ChosenPicked(es, limit, budget, selected, picked, dropped, e, Entering(item, reps));
    RepsGrow(es, reps, selected, e, [Entering(item, reps)], Remember(reps, item));
  }

  lemma MakeChoosing(es: seq<Entry>, limit: nat, budget: nat, selected: seq<Item>, picked: seq<Entry>,
                     dropped: seq<Exclusion>, reps: map<Key, Item>, duplicateBytes: nat)
    requires AllReady(es) && Chosen(es, limit, budget, selected, picked, dropped)
             && RepresentativesOk(es, reps, selected)
    requires AllSelected(es, selected) && duplicateBytes + DistinctBytes(es) == ItemBytes(es)
    requires Pass(selected, reps) == PassOver(es, limit, budget)
    requires picked == PickedBy(es, limit, budget) && AllDropped(es, limit, budget, dropped)
    ensures Choosing(es, limit, budget, selected, picked, dropped, reps, duplicateBytes)
  {
  }

  lemma KeepAllSelected(es: seq<Entry>, selected: seq<Item>, e: Entry, item: Item)
    requires AllReady(es) && AllSelected(es, selected) && e.prepared.Ready?
    requires item.retained == if SeenKey(es, e.prepared.item.key) then 0 else e.prepared.item.retained
    ensures AllReady(es + [e]) && AllSelected(es + [e], selected + [item])
  {
    DistinctSnoc(es, e);
    RetainedSnoc(selected, item);
    if forall i :: 0 <= i < |es + [e]| ==> (es + [e])[i].importance == Required {
      forall i | 0 <= i < |es| ensures es[i].importance == Required { assert (es + [e])[i] == es[i]; }
    }
  }

  lemma Drop(es: seq<Entry>, limits: Limits, limit: nat, budget: nat, selected: seq<Item>, picked: seq<Entry>,
             dropped: seq<Exclusion>, reps: map<Key, Item>, duplicateBytes: nat, x: Exclusion)
    requires Choosing(es, limit, budget, selected, picked, dropped, reps, duplicateBytes)
    requires x.entry.prepared.Ready? && Sensible(x.entry, limits) && x.entry.importance != Required
    requires NoRoom(x, selected, limit, budget)
    requires Exceeds(limit, budget, selected, Entering(x.entry.prepared.item, reps))
    requires x.reason == if |selected| >= limit then ItemLimit else AggregateLimit
    requires x.bytes == Some(x.entry.prepared.observed)
    ensures var item := x.entry.prepared.item;
            Choosing(es + [x.entry], limit, budget, selected, picked, dropped + [x],
                     Remember(reps, item), duplicateBytes + if item.key in reps then item.retained else 0)
  {
    var item := x.entry.prepared.item;
    ChoosingParts(es, limit, budget, selected, picked, dropped, reps, duplicateBytes);
    DropCounts(es, x.entry, reps, selected, duplicateBytes);
    DropPasses(es, limit, budget, selected, picked, dropped, reps, x);
    DropChooses(es, limit, budget, selected, picked, dropped, reps, x);
    MakeChoosing(es + [x.entry], limit, budget, selected, picked, dropped + [x],
                 Remember(reps, item), duplicateBytes + if item.key in reps then item.retained else 0);
  }

  lemma DropCounts(es: seq<Entry>, e: Entry, reps: map<Key, Item>, selected: seq<Item>, duplicateBytes: nat)
    requires AllReady(es) && RepresentativesOk(es, reps, selected) && e.prepared.Ready? && e.importance != Required
    requires duplicateBytes + DistinctBytes(es) == ItemBytes(es)
    ensures AllReady(es + [e]) && AllSelected(es + [e], selected)
    ensures var more := if e.prepared.item.key in reps then e.prepared.item.retained else 0;
            duplicateBytes + more + DistinctBytes(es + [e]) == ItemBytes(es + [e])
  {
    DistinctSnoc(es, e);
    assert (es + [e])[|es|].importance != Required;
  }

  lemma DropPasses(es: seq<Entry>, limit: nat, budget: nat, selected: seq<Item>, picked: seq<Entry>,
                   dropped: seq<Exclusion>, reps: map<Key, Item>, x: Exclusion)
    requires AllReady(es) && x.entry.prepared.Ready? && Pass(selected, reps) == PassOver(es, limit, budget)
    requires picked == PickedBy(es, limit, budget) && AllDropped(es, limit, budget, dropped)
    requires Exceeds(limit, budget, selected, Entering(x.entry.prepared.item, reps))
    requires x.reason == if |selected| >= limit then ItemLimit else AggregateLimit
    requires x.bytes == Some(x.entry.prepared.observed)
    ensures AllReady(es + [x.entry])
    ensures Pass(selected, Remember(reps, x.entry.prepared.item)) == PassOver(es + [x.entry], limit, budget)
    ensures picked == PickedBy(es + [x.entry], limit, budget)
    ensures AllDropped(es + [x.entry], limit, budget, dropped + [x])
  {
    PassSnoc(es, x.entry, limit, budget);
    PickedSnoc(es, x.entry, limit, budget);
    DroppedNow(es, limit, budget, dropped, x);
  }

  lemma DropChooses(es: seq<Entry>, limit: nat, budget: nat, selected: seq<Item>, picked: seq<Entry>,
                    dropped: seq<Exclusion>, reps: map<Key, Item>, x: Exclusion)
    requires AllReady(es) && Chosen(es, limit, budget, selected, picked, dropped)
             && RepresentativesOk(es, reps, selected)
    requires x.entry.prepared.Ready? && x.entry.prepared.item.state != Referenced && NoRoom(x, selected, limit, budget)
    requires x.entry.importance != Required && x.entry.prepared.item.importance != Required
    ensures Chosen(es + [x.entry], limit, budget, selected, picked, dropped + [x])
    ensures RepresentativesOk(es + [x.entry], Remember(reps, x.entry.prepared.item), selected)
  {
    ChosenDropped(es, limit, budget, selected, picked, dropped, x);
    RepsGrow(es, reps, selected, x.entry, [], Remember(reps, x.entry.prepared.item));
    assert selected + [] == selected;
  }

  /** When a required entry is looked at, only the limits can refuse it. */
  lemma RequiredFits(es: seq<Entry>, k: nat, limit: nat, budget: nat, selected: seq<Item>, reps: map<Key, Item>)
    requires AllReady(es) && Ordered(EntryLeq, es) && k < |es| && es[k].importance == Required
    requires AllSelected(es[..k], selected) && RepresentativesOk(es[..k], reps, selected)
    ensures Crowded(es, limit, budget, k) <==>
              |selected| >= limit || Retained(selected) + Entering(es[k].prepared.item, reps).retained > budget
  {
    RequiredFirst(es, k);
    assert es[..k + 1] == es[..k] + [es[k]];
    DistinctSnoc(es[..k], es[k]);
    var key := es[k].prepared.item.key;
    assert key in reps <==> SeenKey(es[..k], key);
  }

  lemma CrowdedExactly(es: seq<Entry>, k: nat, limit: nat, budget: nat, selected: seq<Item>, picked: seq<Entry>,
                       dropped: seq<Exclusion>, reps: map<Key, Item>, duplicateBytes: nat)
    requires AllReady(es) && Ordered(EntryLeq, es) && k < |es|
    requires Choosing(es[..k], limit, budget, selected, picked, dropped, reps, duplicateBytes)
    ensures Crowded(es, limit, budget, k) <==>
              es[k].importance == Required && Exceeds(limit, budget, selected, Entering(es[k].prepared.item, reps))
    ensures |selected| <= limit
  {
    ChoosingParts(es[..k], limit, budget, selected, picked, dropped, reps, duplicateBytes);
    if es[k].importance == Required { RequiredFits(es, k, limit, budget, selected, reps); }
  }

  /** One entry of the second pass. */
  method Consider(ghost all: seq<Entry>, ghost k: nat, limits: Limits, limit: nat, budget: nat, selected0: seq<Item>,
                  ghost picked0: seq<Entry>,
                  dropped0: seq<Exclusion>, reps0: map<Key, Item>, duplicateBytes0: nat, e: Entry)
    returns (refused: Option<Reason>, selected: seq<Item>, ghost picked: seq<Entry>, dropped: seq<Exclusion>,
             reps: map<Key, Item>, duplicateBytes: nat)
    requires AllReady(all) && Ordered(EntryLeq, all) && forall i :: 0 <= i < |all| ==> Sensible(all[i], limits)
    requires k < |all| && e == all[k]
    requires Choosing(all[..k], limit, budget, selected0, picked0, dropped0, reps0, duplicateBytes0)
    ensures refused.Some? <==> Crowded(all, limit, budget, k)
    ensures refused.None? ==> Choosing(all[..k + 1], limit, budget, selected, picked, dropped, reps, duplicateBytes)
  {
    Before(all, limits, k);
    CrowdedExactly(all, k, limit, budget, selected0, picked0, dropped0, reps0, duplicateBytes0);
    ghost var es := all[..k];
    refused, selected, picked, dropped := None, selected0, picked0, dropped0;
    reps, duplicateBytes := reps0, duplicateBytes0;
    var item := Entering(e.prepared.item, reps);
    var exceedsCount := |selected| >= limit;
    var exceedsBytes := Retained(selected) + item.retained > budget;
    if exceedsCount || exceedsBytes {
      var x := Exclusion(e, if exceedsCount then ItemLimit else AggregateLimit, Some(e.prepared.observed));
      if e.importance == Required {
        refused := Some(x.reason);
        return;
      }
      Drop(es, limits, limit, budget, selected, picked, dropped, reps, duplicateBytes, x);
      dropped := dropped + [x];
    } else {
      Pick(es, limits, limit, budget, selected, picked, dropped, reps, duplicateBytes, e);
      selected, picked := selected + [item], picked + [e];
    }
    if e.prepared.item.key in reps {
      duplicateBytes := duplicateBytes + e.prepared.item.retained;
    } else {
      reps := reps[e.prepared.item.key := e.prepared.item];
    }
  }

  lemma Before(es: seq<Entry>, limits: Limits, k: nat)
    requires AllReady(es) && Ordered(EntryLeq, es) && k < |es| && forall i :: 0 <= i < |es| ==> Sensible(es[i], limits)
    ensures es[..k + 1] == es[..k] + [es[k]]
    ensures forall i :: 0 <= i < |es[..k]| ==> Sensible(es[..k][i], limits) && EntryLeq(es[..k][i], es[k])
  {
  }

  /** The second pass over the sorted prepared entries. It fails exactly when a required entry is
      crowded out. */
  method Choose(es: seq<Entry>, limits: Limits, budget: nat)
    returns (failure: Option<Reason>, selected: seq<Item>, dropped: seq<Exclusion>, duplicateBytes: nat,
             ghost picked: seq<Entry>)
    requires AllReady(es) && Ordered(EntryLeq, es) && forall i :: 0 <= i < |es| ==> Sensible(es[i], limits)
    ensures failure.None? ==> Chosen(es, ItemCap(limits), budget, selected, picked, dropped)
    ensures failure.None? ==> duplicateBytes + DistinctBytes(es) == ItemBytes(es)
    ensures failure.None? ==> selected == PassOver(es, ItemCap(limits), budget).selected
    ensures failure.None? ==>
              picked == PickedBy(es, ItemCap(limits), budget) && AllDropped(es, ItemCap(limits), budget, dropped)
    ensures failure.Some? <==> AnyCrowded(es, ItemCap(limits), budget)
  {
    var limit := ItemCap(limits);
    failure, selected, dropped, duplicateBytes, picked := None, [], [], 0, [];
    var reps: map<Key, Item> := map[];
    for k := 0 to |es|
      invariant failure.None?
      invariant Choosing(es[..k], limit, budget, selected, picked, dropped, reps, duplicateBytes)
      invariant NoneCrowded(es, limit, budget, k)
    {
      failure, selected, picked, dropped, reps, duplicateBytes :=
        Consider(es, k, limits, limit, budget, selected, picked, dropped, reps, duplicateBytes, es[k]);
      if failure.Some? {
        return;
      }
    }
    assert es[..|es|] == es;
    ChoosingParts(es, limit, budget, selected, picked, dropped, reps, duplicateBytes);
  }

  function ItemCap(limits: Limits): nat {
    if limits.maxItems < MAX_UNTRUSTED_ITEMS then limits.maxItems else MAX_UNTRUSTED_ITEMS
  }

  // ---- What a reference refers to -------------------------------------------------------------

  /** `f` is the first entry with this content. */
  ghost predicate IsFirst(es: seq<Entry>, key: Key, f: nat)
    requires AllReady(es)
  {
    f < |es| && es[f].prepared.item.key == key && !SeenKey(es[..f], key)
  }

  /** There was room for entry `f` in full when it was looked at. */
  predicate Admitted(es: seq<Entry>, limit: nat, budget: nat, f: nat)
    requires AllReady(es) && f < |es|
  {
    !Exceeds(limit, budget, PassOver(es[..f], limit, budget).selected, es[f].prepared.item)
  }

  /** Some selected item carries this content in full. */
  ghost predicate Carried(selected: seq<Item>, key: Key) {
    exists k :: 0 <= k < |selected| && selected[k].state != Referenced && selected[k].key == key
  }

  ghost predicate NoReferences(es: seq<Entry>)
    requires AllReady(es)
  {
    forall i :: 0 <= i < |es| ==> es[i].prepared.item.state != Referenced
  }

  /** A selected item is the representative of its content, or a reference to it; whatever carries
      the content stands before the references. */
  ghost predicate Placed(pass: Pass, i: nat)
    requires i < |pass.selected|
  {
    var item := pass.selected[i];
    && item.key in pass.reps
    && (item.state != Referenced ==> item == pass.reps[item.key])
    && (item.state == Referenced ==>
          && item.duplicateOf == Some(pass.reps[item.key].id)
          && forall k :: i < k < |pass.selected| && pass.selected[k].key == item.key ==>
               pass.selected[k].state == Referenced)
  }

  lemma {:induction false} PassIsPlaced(es: seq<Entry>, limit: nat, budget: nat)
    requires AllReady(es) && NoReferences(es)
    ensures forall key :: key in PassOver(es, limit, budget).reps <==> SeenKey(es, key)
    ensures forall i: nat :: i < |PassOver(es, limit, budget).selected| ==> Placed(PassOver(es, limit, budget), i)
  {
    if es != [] {
      var front, e := es[..|es| - 1], es[|es| - 1];
      PassIsPlaced(front, limit, budget);
      assert es == front + [e];
      PassSnoc(front, e, limit, budget);
      var was, now := PassOver(front, limit, budget), PassOver(es, limit, budget);
      forall key ensures key in now.reps <==> SeenKey(es, key) { SeenSnoc(front, e, key); }
      forall i: nat | i < |now.selected| ensures Placed(now, i) {
        if i < |was.selected| { assert Placed(was, i); }
      }
    }
  }

  /** A content is represented by the first item that has it, and carried exactly if that one found
      room. */
  lemma {:induction false} FirstDecides(es: seq<Entry>, limit: nat, budget: nat, key: Key, f: nat)
    requires AllReady(es) && NoReferences(es) && IsFirst(es, key, f)
    ensures var pass := PassOver(es, limit, budget);
            && key in pass.reps && pass.reps[key] == es[f].prepared.item
            && (Carried(pass.selected, key) <==> Admitted(es, limit, budget, f))
  {
    var front, e := es[..|es| - 1], es[|es| - 1];
    assert es == front + [e];
    PassSnoc(front, e, limit, budget);
    PassIsPlaced(front, limit, budget);
    var was, now := PassOver(front, limit, budget), PassOver(es, limit, budget);
    assert front[..f] == es[..f];
    if f < |front| {
      FirstDecides(front, limit, budget, key, f);
      CarriedSnoc(was.selected, now.selected, key);
    } else {
      if Carried(was.selected, key) {
        var k :| 0 <= k < |was.selected| && was.selected[k].state != Referenced && was.selected[k].key == key;
        assert Placed(was, k);
      }
      CarriedSnoc(was.selected, now.selected, key);
    }
  }

  lemma CarriedSnoc(was: seq<Item>, now: seq<Item>, key: Key)
    requires was <= now && |now| <= |was| + 1
    ensures Carried(now, key) <==>
              Carried(was, key) || (|now| > |was| && now[|was|].state != Referenced && now[|was|].key == key)
  {
    if Carried(was, key) {
      var k :| 0 <= k < |was| && was[k].state != Referenced && was[k].key == key;
      assert now[k] == was[k];
    }
  }

  predicate DistinctItemIds(es: seq<Entry>) {
    forall i, k :: 0 <= i < k < |es| && es[i].prepared.Ready? && es[k].prepared.Ready? ==>
      es[i].prepared.item.id != es[k].prepared.item.id
  }

  /** The item at `i` names the id of some selected item. */
  ghost predicate Named(selected: seq<Item>, i: nat)
    requires i < |selected|
  {
    exists k :: 0 <= k < |selected| && selected[i].duplicateOf == Some(selected[k].id)
  }

  /** A selected item comes from an entry, and is a reference exactly if its content was seen before. */
  ghost predicate ComesFrom(es: seq<Entry>, item: Item, j: nat)
    requires AllReady(es)
  {
    && j < |es| && item.id == es[j].prepared.item.id && item.key == es[j].prepared.item.key
    && (item.state == Referenced <==> SeenKey(es[..j], item.key))
  }

  lemma {:induction false} SelectedComeFrom(es: seq<Entry>, limit: nat, budget: nat, k: nat) returns (j: nat)
    requires AllReady(es) && NoReferences(es) && k < |PassOver(es, limit, budget).selected|
    ensures ComesFrom(es, PassOver(es, limit, budget).selected[k], j)
  {
    var front, e := es[..|es| - 1], es[|es| - 1];
    assert es == front + [e];
    PassSnoc(front, e, limit, budget);
    if k < |PassOver(front, limit, budget).selected| {
      j := SelectedComeFrom(front, limit, budget, k);
      assert front[..j] == es[..j];
    } else {
      j := |es| - 1;
      LastComesFrom(front, e, limit, budget);
    }
  }

  /** The item of an entry as it enters after these entries. */
  lemma LastComesFrom(front: seq<Entry>, e: Entry, limit: nat, budget: nat)
    requires AllReady(front) && NoReferences(front) && e.prepared.Ready? && e.prepared.item.state != Referenced
    ensures AllReady(front + [e])
    ensures ComesFrom(front + [e], Entering(e.prepared.item, PassOver(front, limit, budget).reps), |front|)
  {
    PassIsPlaced(front, limit, budget);
    assert (front + [e])[..|front|] == front;
  }

  lemma {:induction false} FirstExists(es: seq<Entry>, key: Key) returns (f: nat)
    requires AllReady(es) && SeenKey(es, key)
    ensures IsFirst(es, key, f)
  {
    var front := es[..|es| - 1];
    assert es == front + [es[|es| - 1]];
    SeenSnoc(front, es[|es| - 1], key);
    if SeenKey(front, key) {
      f := FirstExists(front, key);
      assert front[..f] == es[..f];
    } else {
      f := |es| - 1;
    }
  }

  /** A reference names the first item with its content. It finds that content among the items
      selected before it exactly when there was room for that first item at its own turn; and if ids
      are distinct, then otherwise nothing selected has the id it names. */
  lemma ReferencesResolveExactly(es: seq<Entry>, limit: nat, budget: nat, i: nat) returns (f: nat)
    requires AllReady(es) && NoReferences(es)
    requires var selected := PassOver(es, limit, budget).selected; i < |selected| && selected[i].state == Referenced
    ensures var selected := PassOver(es, limit, budget).selected;
            && IsFirst(es, selected[i].key, f)
            && selected[i].duplicateOf == Some(es[f].prepared.item.id)
            && (Represented(selected, i) <==> Admitted(es, limit, budget, f))
            && (DistinctItemIds(es) ==> (Named(selected, i) <==> Admitted(es, limit, budget, f)))
  {
    var pass := PassOver(es, limit, budget);
    var item := pass.selected[i];
    PassIsPlaced(es, limit, budget);
    assert Placed(pass, i);
    f := FirstExists(es, item.key);
    FirstDecides(es, limit, budget, item.key, f);
    if Carried(pass.selected, item.key) {
      var k :| 0 <= k < |pass.selected| && pass.selected[k].state != Referenced && pass.selected[k].key == item.key;
      assert Placed(pass, k);
      assert Represented(pass.selected, i);
    }
    if DistinctItemIds(es) && Named(pass.selected, i) {
      var k :| 0 <= k < |pass.selected| && item.duplicateOf == Some(pass.selected[k].id);
      var j := SelectedComeFrom(es, limit, budget, k);
      assert j == f;
      assert Carried(pass.selected, item.key);
    }
  }

  // ---- The whole selection --------------------------------------------------------------------

  datatype Request = Request(entries: seq<Entry>, limits: Limits, controlBytes: nat, baseline: Option<nat>)

  datatype Package = Package(
    items: seq<Item>, excluded: seq<Exclusion>, listed: nat, overflow: nat,
    candidates: nat, retained: nat, considered: nat, baseline: nat, duplicateBytes: nat)

  function Budget(r: Request): nat
    requires r.controlBytes <= MAX_AGENT_BYTES
  {
    var rest := MAX_AGENT_BYTES - r.controlBytes;
    if r.limits.maxTotalBytes < rest then r.limits.maxTotalBytes else rest
  }

  /** The entries of the second pass, in its order. */
  function Second(r: Request): (es: seq<Entry>)
    ensures AllReady(es) && multiset(es) == multiset(Kept(Sort(EntryLeq, r.entries), r.limits))
  {
    var kept := Kept(Sort(EntryLeq, r.entries), r.limits);
    EntryOrder();
    SortCorrect(EntryLeq, kept);
    SortedAreReady(kept, Sort(EntryLeq, kept));
    Sort(EntryLeq, kept)
  }

  /** The items a selection delivers, unless it fails. */
  function Delivered(r: Request): seq<Item>
    requires r.controlBytes <= MAX_AGENT_BYTES
  {
    PassOver(Second(r), ItemCap(r.limits), Budget(r)).selected
  }

  /** Some required entry cannot be kept, or is crowded out. */
  ghost predicate RequiredMissing(r: Request)
    requires r.controlBytes <= MAX_AGENT_BYTES
  {
    var sorted := Sort(EntryLeq, r.entries);
    !NoneUnkeepable(sorted, r.limits, |sorted|) || AnyCrowded(Second(r), ItemCap(r.limits), Budget(r))
  }

  predicate Admissible(r: Request) {
    r.controlBytes <= MAX_AGENT_BYTES && |r.entries| <= r.limits.maxCandidates
  }

  /** Conservation and limits of a successful selection: every discovered entry is included or
      excluded, exactly once; nothing required is missing. `picked` are the included entries. */
  ghost predicate Conserves(r: Request, p: Package, picked: seq<Entry>) {
    && multiset(picked) + multiset(EntriesOf(p.excluded)) == multiset(r.entries)
    && |picked| == |p.items| && AllReady(picked)
    && (forall i: nat :: i < |picked| ==> Faithful(picked, p.items, i))
    && NoneRequired(p.excluded)
    && p.candidates == |r.entries| <= r.limits.maxCandidates
    && p.candidates == |p.items| + p.listed + p.overflow
    && p.listed <= r.limits.maxExclusions && (p.overflow > 0 ==> p.listed == r.limits.maxExclusions)
    && |p.items| <= ItemCap(r.limits)
    && r.controlBytes <= MAX_AGENT_BYTES && p.retained == Retained(p.items) <= Budget(r)
    && p.retained <= p.baseline
    && p.considered == Considered(Sort(EntryLeq, r.entries))
    && (r.baseline.Some? ==> p.baseline == r.baseline.value)
    && (r.baseline.None? ==> p.baseline == p.considered || p.baseline == p.retained)
    && (r.baseline.None? ==> p.considered <= p.baseline)
    && ArtifactBytes(picked) <= r.limits.maxArtifactTotal
  }

  /** Beside the included entries that come before it in the order there was no room for this one; the
      others come after it. */
  ghost predicate HadNoRoom(items: seq<Item>, picked: seq<Entry>, limit: nat, budget: nat, x: Exclusion, n: nat)
    requires x.entry.prepared.Ready?
  {
    && n <= |picked| == |items|
    && (forall i :: 0 <= i < n ==> Precedes(picked[i], x.entry))
    && (forall i :: n <= i < |picked| ==> Precedes(x.entry, picked[i]))
    && (if n >= limit then x.reason == ItemLimit
        else x.reason == AggregateLimit && Retained(items[..n]) + x.entry.prepared.item.retained > budget)
  }

  /** The artifacts up to and with this one, in the order, exceed their cap. */
  ghost predicate ArtifactsFull(r: Request, e: Entry, es: seq<Entry>, k: nat) {
    && e.prepared.Ready? && e.prepared.item.kind == Artifact
    && InOrder(es) && multiset(es) == multiset(r.entries) && k < |es| && es[k] == e
    && ArtifactBytes(es[..k + 1]) > r.limits.maxArtifactTotal
  }

  function Lesser(a: nat, b: nat): nat {
    if a <= b then a else b
  }

  ghost predicate NoRoomAt(r: Request, p: Package, picked: seq<Entry>, x: Exclusion, n: nat)
    requires r.controlBytes <= MAX_AGENT_BYTES && x.entry.prepared.Ready?
  {
    HadNoRoom(p.items, picked, Lesser(r.limits.maxItems, 63),
              Lesser(r.limits.maxTotalBytes, 1_048_576 - r.controlBytes), x, n)
  }

  /** Why an entry was left out. */
  ghost predicate ExclusionTells(r: Request, p: Package, picked: seq<Entry>, x: Exclusion)
    requires r.controlBytes <= MAX_AGENT_BYTES
  {
    match x.entry.prepared
    case Refused(reason, bytes) => x.reason == reason && x.bytes == bytes
    case Ready(_, observed) =>
      && x.bytes == Some(observed)
      && (|| (x.reason == AggregateLimit && exists es: seq<Entry>, k: nat :: ArtifactsFull(r, x.entry, es, k))
          || exists n: nat :: NoRoomAt(r, p, picked, x, n))
  }

  datatype Side = Included | LeftOut

  ghost predicate SideTells(side: Side, r: Request, p: Package, picked: seq<Entry>)
    requires r.controlBytes <= MAX_AGENT_BYTES
  {
    match side
    case Included => InOrder(picked)
    case LeftOut => forall i :: 0 <= i < |p.excluded| ==> ExclusionTells(r, p, picked, p.excluded[i])
  }

  /** The included entries stand in the written-out order, and none that was left out was displaced by
      one that comes after it. */
  ghost predicate OrderTells(r: Request, p: Package, picked: seq<Entry>)
    requires r.controlBytes <= MAX_AGENT_BYTES
  {
    forall side: Side :: SideTells(side, r, p, picked)
  }

  lemma {:induction false} PickedIsSorted(es: seq<Entry>, limit: nat, budget: nat)
    requires AllReady(es) && Ordered(EntryLeq, es)
    ensures Ordered(EntryLeq, PickedBy(es, limit, budget))
    ensures forall e :: e in PickedBy(es, limit, budget) ==> e in es
  {
    if es != [] {
      var front, last := es[..|es| - 1], es[|es| - 1];
      PickedIsSorted(front, limit, budget);
      var picked := PickedBy(front, limit, budget);
      forall i | 0 <= i < |picked| ensures EntryLeq(picked[i], last) {
        assert picked[i] in front;
      }
    }
  }

  lemma {:induction false} PickedCounts(es: seq<Entry>, limit: nat, budget: nat)
    requires AllReady(es)
    ensures |PickedBy(es, limit, budget)| == |PassOver(es, limit, budget).selected|
  {
    if es != [] { PickedCounts(es[..|es| - 1], limit, budget); }
  }

  /** What was selected before position `k` stays in front. */
  lemma {:induction false} PassesExtend(es: seq<Entry>, limit: nat, budget: nat, k: nat)
    requires AllReady(es) && k <= |es|
    ensures PassOver(es[..k], limit, budget).selected <= PassOver(es, limit, budget).selected
    ensures PickedBy(es[..k], limit, budget) <= PickedBy(es, limit, budget)
  {
    if k == |es| {
      assert es[..k] == es;
    } else {
      var front, last := es[..|es| - 1], es[|es| - 1];
      PassesExtend(front, limit, budget, k);
      assert front[..k] == es[..k] && es == front + [last];
      PassSnoc(front, last, limit, budget);
      PickedSnoc(front, last, limit, budget);
    }
  }

  lemma PrecedesItself(e: Entry)
    ensures Precedes(e, e)
  {
    StringLeqTotal(e.reference, e.reference);
  }

  lemma PickedBefore(es: seq<Entry>, limit: nat, budget: nat, k: nat, i: nat)
    requires AllReady(es) && InOrder(es) && k < |es| && i < |PickedBy(es[..k], limit, budget)|
    ensures i < |PickedBy(es, limit, budget)| && Precedes(PickedBy(es, limit, budget)[i], es[k])
  {
    PassesExtend(es, limit, budget, k);
    PickedAreEntries(es[..k], limit, budget, i);
    var e := PickedBy(es[..k], limit, budget)[i];
    var m :| 0 <= m < k && es[m] == e;
  }

  lemma {:induction false} PickedAreEntries(es: seq<Entry>, limit: nat, budget: nat, i: nat)
    requires AllReady(es) && i < |PickedBy(es, limit, budget)|
    ensures PickedBy(es, limit, budget)[i] in es
  {
    if es != [] {
      var front, last := es[..|es| - 1], es[|es| - 1];
      assert es == front + [last];
      PickedSnoc(front, last, limit, budget);
      if i < |PickedBy(front, limit, budget)| { PickedAreEntries(front, limit, budget, i); }
    }
  }

  lemma FrontIsInOrder(front: seq<Entry>, last: Entry)
    requires AllReady(front + [last]) && InOrder(front + [last])
    ensures AllReady(front) && last.prepared.Ready? && InOrder(front)
    ensures forall i :: 0 <= i < |front| ==> Precedes(front[i], last)
  {
    var es := front + [last];
    assert es[|front|] == last;
    forall i | 0 <= i < |front| ensures front[i].prepared.Ready?
      && Precedes(front[i], last) { assert es[i] == front[i]; }
    forall i, k | 0 <= i < k < |front| ensures Precedes(front[i], front[k]) {
      assert es[i] == front[i] && es[k] == front[k];
    }
  }

  lemma {:induction false} PickedBehind(es: seq<Entry>, limit: nat, budget: nat, k: nat, i: nat)
    requires AllReady(es) && InOrder(es) && k < |es|
    requires |PickedBy(es[..k], limit, budget)| <= i < |PickedBy(es, limit, budget)|
    ensures Precedes(es[k], PickedBy(es, limit, budget)[i])
  {
    var front, last := es[..|es| - 1], es[|es| - 1];
    assert es == front + [last];
    FrontIsInOrder(front, last);
    PickedSnoc(front, last, limit, budget);
    assert front[..k] == es[..k];
    if k < |front| {
      if i < |PickedBy(front, limit, budget)| { PickedBehind(front, limit, budget, k, i); }
    } else {
      assert front[..k] == front;
      PrecedesItself(last);
    }
  }

  lemma DropIsTold(es: seq<Entry>, limit: nat, budget: nat, x: Exclusion)
    requires AllReady(es) && InOrder(es) && WasDropped(es, limit, budget, x)
    ensures x.entry.prepared.Ready? && x.bytes == Some(x.entry.prepared.observed)
    ensures exists n: nat ::
              HadNoRoom(PassOver(es, limit, budget).selected, PickedBy(es, limit, budget), limit, budget, x, n)
  {
    var k: nat :| DroppedAt(es, limit, budget, x, k);
    var front := PassOver(es[..k], limit, budget);
    var items, picked := PassOver(es, limit, budget).selected, PickedBy(es, limit, budget);
    var n := |front.selected|;
    PassesExtend(es, limit, budget, k);
    PickedCounts(es, limit, budget);
    PickedCounts(es[..k], limit, budget);
    forall i: nat | i < n ensures Precedes(picked[i], x.entry) { PickedBefore(es, limit, budget, k, i); }
    forall i: nat | n <= i < |picked| ensures Precedes(x.entry, picked[i]) { PickedBehind(es, limit, budget, k, i); }
    assert items[..n] == front.selected;
    assert HadNoRoom(items, picked, limit, budget, x, n);
  }

  lemma RefusalIsTold(r: Request, entries: seq<Entry>, x: Exclusion)
    requires InOrder(entries) && multiset(entries) == multiset(r.entries) && RefusedHere(entries, r.limits, x)
    ensures x.entry.prepared.Ready? ==>
              && x.reason == AggregateLimit && x.bytes == Some(x.entry.prepared.observed)
              && exists es: seq<Entry>, k: nat :: ArtifactsFull(r, x.entry, es, k)
  {
    var k: nat :| k < |entries| && entries[k] == x.entry && Unkeepable(entries, r.limits, k);
    if x.entry.prepared.Ready? {
      assert ArtifactsFull(r, x.entry, entries, k);
    }
  }

  lemma OrderIsTold(r: Request, p: Package, picked: seq<Entry>, entries: seq<Entry>, refused: seq<Exclusion>,
                    dropped: seq<Exclusion>)
    requires r.controlBytes <= MAX_AGENT_BYTES && p.excluded == refused + dropped && p.items == Delivered(r)
    requires Ordered(EntryLeq, entries) && multiset(entries) == multiset(r.entries)
    requires AllRefused(entries, r.limits, refused)
    requires Ordered(EntryLeq, Second(r)) && picked == PickedBy(Second(r), ItemCap(r.limits), Budget(r))
    requires AllDropped(Second(r), ItemCap(r.limits), Budget(r), dropped)
    ensures OrderTells(r, p, picked)
  {
    PickedIsSorted(Second(r), ItemCap(r.limits), Budget(r));
    OrderedIsInOrder(picked);
    OrderedIsInOrder(entries);
    OrderedIsInOrder(Second(r));
    assert Lesser(r.limits.maxItems, 63) == ItemCap(r.limits);
    assert Lesser(r.limits.maxTotalBytes, 1_048_576 - r.controlBytes) == Budget(r);
    forall i | 0 <= i < |p.excluded| ensures ExclusionTells(r, p, picked, p.excluded[i]) {
      if i < |refused| {
        assert RefusedHere(entries, r.limits, refused[i]);
        RefusalIsTold(r, entries, refused[i]);
      } else {
        assert WasDropped(Second(r), ItemCap(r.limits), Budget(r), dropped[i - |refused|]);
        DropIsTold(Second(r), ItemCap(r.limits), Budget(r), dropped[i - |refused|]);
        var n: nat :| HadNoRoom(p.items, picked, ItemCap(r.limits), Budget(r), dropped[i - |refused|], n);
        assert NoRoomAt(r, p, picked, dropped[i - |refused|], n);
      }
    }
  }

  lemma SplitCounts(a: seq<Entry>, b: seq<Entry>, es: seq<Entry>)
    requires multiset(a) + multiset(b) == multiset(es)
    ensures |a| + |b| == |es|
  {
    assert |multiset(a)| + |multiset(b)| == |multiset(es)|;
  }

  lemma EntriesConcat(xs: seq<Exclusion>, ys: seq<Exclusion>)
    ensures EntriesOf(xs + ys) == EntriesOf(xs) + EntriesOf(ys)
  {
  }

  /** Prepared entries are entries of the request. */
  lemma PreparedAreSensible(entries: seq<Entry>, limits: Limits, prepared: seq<Entry>, excluded: seq<Exclusion>)
    requires Divided(entries, limits, prepared, excluded)
    requires forall i :: 0 <= i < |entries| ==> Sensible(entries[i], limits)
    ensures forall i :: 0 <= i < |prepared| ==> Sensible(prepared[i], limits)
  {
    forall i | 0 <= i < |prepared| ensures Sensible(prepared[i], limits) {
      assert prepared[i] in multiset(prepared);
      assert prepared[i] in multiset(entries);
    }
  }

  lemma SortedAreSensible(entries: seq<Entry>, limits: Limits, sorted: seq<Entry>)
    requires multiset(sorted) == multiset(entries)
    requires forall i :: 0 <= i < |entries| ==> Sensible(entries[i], limits)
    ensures forall i :: 0 <= i < |sorted| ==> Sensible(sorted[i], limits)
  {
    forall i | 0 <= i < |sorted| ensures Sensible(sorted[i], limits) {
      assert sorted[i] in multiset(sorted);
      assert sorted[i] in multiset(entries);
    }
  }

  lemma SortedAreReady(es: seq<Entry>, sorted: seq<Entry>)
    requires AllReady(es) && multiset(sorted) == multiset(es)
    ensures AllReady(sorted)
  {
    forall i | 0 <= i < |sorted| ensures sorted[i].prepared.Ready? {
      assert sorted[i] in multiset(sorted);
      assert sorted[i] in multiset(es);
    }
  }

  /** select: two sorted passes and the final accounting. */
  method Select(r: Request) returns (out: Result<Package, Failure>, ghost picked: seq<Entry>)
    requires forall i :: 0 <= i < |r.entries| ==> Sensible(r.entries[i], r.limits)
    ensures out.Ok? ==> Conserves(r, out.value, picked)
    ensures out == Err(ControlLimit) <==> r.controlBytes > MAX_AGENT_BYTES
    ensures out == Err(CandidateLimit) <==> r.controlBytes <= MAX_AGENT_BYTES && |r.entries| > r.limits.maxCandidates
    ensures out.Err? && out.error.RequiredUnavailable? <==> Admissible(r) && RequiredMissing(r)
    ensures out == Err(InvalidBaseline) <==>
              && Admissible(r) && !RequiredMissing(r)
              && r.baseline.Some? && r.baseline.value < Retained(Delivered(r))
    ensures out.Ok? ==> out.value.items == Delivered(r) && OrderTells(r, out.value, picked)
    ensures out.Ok? ==> out.value.duplicateBytes + DistinctBytes(Second(r)) == ItemBytes(Second(r))
  {
    picked := [];
    if r.controlBytes > MAX_AGENT_BYTES {
      return Err(ControlLimit), [];
    }
    if |r.entries| > r.limits.maxCandidates {
      return Err(CandidateLimit), [];
    }
    EntryOrder();
    SortCorrect(EntryLeq, r.entries);
    var entries := Sort(EntryLeq, r.entries);
    SortedAreSensible(r.entries, r.limits, entries);
    var failure, prepared, refused, considered := Prepare(entries, r.limits);
    if failure.Some? {
      return Err(RequiredUnavailable(failure.value)), [];
    }
    PreparedAreSensible(entries, r.limits, prepared, refused);
    SortCorrect(EntryLeq, prepared);
    var ordered := Sort(EntryLeq, prepared);
    SortedAreReady(prepared, ordered);
    assert ordered == Second(r);
    SortedAreSensible(prepared, r.limits, ordered);
    var failure2, items, dropped, duplicateBytes, chosen := Choose(ordered, r.limits, Budget(r));
    if failure2.Some? {
      return Err(RequiredUnavailable(failure2.value)), [];
    }
    picked := chosen;
    out := Account(r, items, refused, dropped, considered, duplicateBytes, prepared, ordered, picked);
    if out.Ok? {
      OrderIsTold(r, out.value, picked, entries, refused, dropped);
    }
  }

  lemma {:induction false} ArtifactsConcat(a: seq<Entry>, b: seq<Entry>)
    ensures ArtifactBytes(a + b) == ArtifactBytes(a) + ArtifactBytes(b)
  {
    if b == [] {
      assert a + b == a;
    } else {
      var front, last := b[..|b| - 1], b[|b| - 1];
      ArtifactsConcat(a, front);
      assert a + b == (a + front) + [last] && b == front + [last];
      ArtifactsSnoc(a + front, last);
      ArtifactsSnoc(front, last);
    }
  }

  /** Fewer entries hold no more artifact bytes. */
  lemma {:induction false} FewerArtifacts(a: seq<Entry>, b: seq<Entry>)
    requires multiset(a) <= multiset(b)
    ensures ArtifactBytes(a) <= ArtifactBytes(b)
  {
    if a != [] {
      var front, last := a[..|a| - 1], a[|a| - 1];
      assert a == front + [last];
      assert last in multiset(a) && last in multiset(b);
      var i :| 0 <= i < |b| && b[i] == last;
      var rest := b[..i] + b[i + 1..];
      assert b == b[..i] + [last] + b[i + 1..];
      assert multiset(a) == multiset(front) + multiset{last};
      assert multiset(b) == multiset(rest) + multiset{last};
      forall e ensures multiset(front)[e] <= multiset(rest)[e] {
        assert multiset(a)[e] <= multiset(b)[e];
      }
      FewerArtifacts(front, rest);
      ArtifactsSnoc(front, last);
      ArtifactsConcat(b[..i] + [last], b[i + 1..]);
      ArtifactsConcat(b[..i], b[i + 1..]);
      ArtifactsSnoc(b[..i], last);
    }
  }

  /** The ledger of exclusions and the baseline. */
  method Account(r: Request, items: seq<Item>, refused: seq<Exclusion>, dropped: seq<Exclusion>, considered: nat,
                 duplicateBytes: nat,
                 ghost prepared: seq<Entry>, ghost ordered: seq<Entry>, ghost picked: seq<Entry>)
    returns (out: Result<Package, Failure>)
    requires r.controlBytes <= MAX_AGENT_BYTES && |r.entries| <= r.limits.maxCandidates
    requires multiset(prepared) + multiset(EntriesOf(refused)) == multiset(r.entries) && NoneRequired(refused)
    requires multiset(ordered) == multiset(prepared) && ArtifactBytes(prepared) <= r.limits.maxArtifactTotal
    requires Chosen(ordered, ItemCap(r.limits), Budget(r), items, picked, dropped)
    requires considered == Considered(Sort(EntryLeq, r.entries))
    ensures out.Ok? ==> Conserves(r, out.value, picked) && out.value.items == items
    ensures out.Ok? ==> out.value.excluded == refused + dropped && out.value.duplicateBytes == duplicateBytes
    ensures out.Err? <==> r.baseline.Some? && r.baseline.value < Retained(items)
    ensures out.Err? ==> out == Err(InvalidBaseline)
  {
    var excluded := refused + dropped;
    EntriesConcat(refused, dropped);
    SplitCounts(picked, EntriesOf(excluded), r.entries);
    FewerArtifacts(picked, prepared);
    var listed := if |excluded| < r.limits.maxExclusions then |excluded| else r.limits.maxExclusions;
    var retained := Retained(items);
    var largest := if considered > retained then considered else retained;
    var baseline := if r.baseline.Some? then r.baseline.value else largest;
    if baseline < retained {
      return Err(InvalidBaseline);
    }
    out := Ok(Package(items, excluded, listed, |excluded| - listed, |r.entries|, retained, considered, baseline,
                      duplicateBytes));
  }

  // ---- The manifest and the agent request -----------------------------------------------------

  datatype ManifestItem = ManifestItem(sequence: nat, item: Item)

  datatype Manifest = Manifest(
    items: seq<ManifestItem>, listed: nat, overflow: nat, candidates: nat, included: nat, excluded: nat,
    retained: nat, truncated: nat, baseline: nat, ratio: real)

  function TruncatedBytes(items: seq<Item>): nat {
    if items == [] then 0 else TruncatedBytes(items[..|items| - 1]) + items[|items| - 1].Truncated()
  }

  function Ratio(retained: nat, baseline: nat): real {
    if baseline == 0 then 0.0 else retained as real / baseline as real
  }

  /** The manifest built from a selection. */
  function ManifestOf(p: Package): Manifest {
    Manifest(seq(|p.items|, i requires 0 <= i < |p.items| => ManifestItem(i + 1, p.items[i])),
             p.listed, p.overflow, p.candidates, |p.items|, |p.excluded|,
             p.retained, TruncatedBytes(p.items), p.baseline, Ratio(p.retained, p.baseline))
  }

  function ItemsOf(items: seq<ManifestItem>): seq<Item> {
    seq(|items|, i requires 0 <= i < |items| => items[i].item)
  }

  predicate DistinctIds(items: seq<Item>) {
    forall i, k :: 0 <= i < k < |items| ==> items[i].id != items[k].id
  }

  /** The canonical conditions of the manifest model. */
  predicate ManifestValid(m: Manifest, limits: Limits) {
    && m.included == |m.items|
    && m.excluded == m.listed + m.overflow
    && m.candidates == m.included + m.excluded
    && m.retained == Retained(ItemsOf(m.items))
    && m.truncated == TruncatedBytes(ItemsOf(m.items))
    && (forall i :: 0 <= i < |m.items| ==> m.items[i].sequence == i + 1)
    && DistinctIds(ItemsOf(m.items))
    && |m.items| <= limits.maxItems && m.listed <= limits.maxExclusions
    && m.retained <= limits.maxTotalBytes
    && m.ratio == Ratio(m.retained, m.baseline) && 0.0 <= m.ratio <= 1.0
  }

  lemma RatioIsBounded(retained: nat, baseline: nat)
    requires retained <= baseline
    ensures 0.0 <= Ratio(retained, baseline) <= 1.0
  {
  }

  /** The manifest of a selection is canonical exactly when no two included entries have the same id;
      in particular when no two entries of the request have. */
  lemma ManifestIsCanonical(r: Request, p: Package, picked: seq<Entry>)
    requires Conserves(r, p, picked)
    ensures ManifestValid(ManifestOf(p), r.limits) <==> DistinctItemIds(picked)
    ensures DistinctItemIds(r.entries) ==> DistinctItemIds(picked)
  {
    assert ItemsOf(ManifestOf(p).items) == p.items;
    SplitCounts(picked, EntriesOf(p.excluded), r.entries);
    RatioIsBounded(p.retained, p.baseline);
    forall i: nat | i < |picked| ensures p.items[i].id == picked[i].prepared.item.id {
      assert Faithful(picked, p.items, i);
    }
    if DistinctItemIds(r.entries) { PickedAreDistinct(r.entries, picked, EntriesOf(p.excluded)); }
  }

  lemma PickedAreDistinct(es: seq<Entry>, picked: seq<Entry>, rest: seq<Entry>)
    requires multiset(picked) + multiset(rest) == multiset(es) && DistinctItemIds(es) && AllReady(picked)
    ensures DistinctItemIds(picked)
  {
    forall i, k | 0 <= i < k < |picked| ensures picked[i].prepared.item.id != picked[k].prepared.item.id {
      if picked[i].prepared.item.id == picked[k].prepared.item.id {
        SameIdSameEntry(es, picked[i], picked[k], multiset(picked) + multiset(rest));
        Twice(picked, i, k);
        TwiceIsTwice(es, picked[i]);
      }
    }
  }

  lemma SameIdSameEntry(es: seq<Entry>, a: Entry, b: Entry, all: multiset<Entry>)
    requires DistinctItemIds(es) && all == multiset(es) && a in all && b in all
    requires a.prepared.Ready? && b.prepared.Ready? && a.prepared.item.id == b.prepared.item.id
    ensures a == b
  {
    var i :| 0 <= i < |es| && es[i] == a;
    var k :| 0 <= k < |es| && es[k] == b;
  }

  lemma Twice<T>(xs: seq<T>, i: nat, k: nat)
    requires i < k < |xs| && xs[i] == xs[k]
    ensures multiset(xs)[xs[i]] >= 2
  {
    assert xs == xs[..k] + xs[k..];
    assert xs[i] in xs[..k] && xs[i] in xs[k..];
    assert multiset(xs) == multiset(xs[..k]) + multiset(xs[k..]);
  }

  lemma {:induction false} TwiceIsTwice(es: seq<Entry>, e: Entry)
    requires multiset(es)[e] >= 2 && e.prepared.Ready?
    ensures !DistinctItemIds(es)
  {
    var front, last := es[..|es| - 1], es[|es| - 1];
    assert es == front + [last];
    assert multiset(es) == multiset(front) + multiset{last};
    if last == e {
      assert e in multiset(front);
      var i :| 0 <= i < |front| && front[i] == e;
      assert es[i].prepared.item.id == es[|es| - 1].prepared.item.id;
    } else {
      TwiceIsTwice(front, e);
      var i, k :| 0 <= i < k < |front| && front[i].prepared.Ready? && front[k].prepared.Ready?
                  && front[i].prepared.item.id == front[k].prepared.item.id;
      assert es[i] == front[i] && es[k] == front[k];
    }
  }

  /** The references of the agent request: the controls, then every item with content of its own. */
  function References(items: seq<Item>): seq<Item> {
    if items == [] then []
    else
      References(items[..|items| - 1]) + if items[|items| - 1].state == Referenced then [] else [items[|items| - 1]]
  }

  lemma {:induction false} ReferencesCarryAll(items: seq<Item>)
    requires forall i :: 0 <= i < |items| && items[i].state == Referenced ==> items[i].retained == 0
    ensures |References(items)| <= |items| && Retained(References(items)) == Retained(items)
  {
    if items != [] {
      var front, last := items[..|items| - 1], items[|items| - 1];
      ReferencesCarryAll(front);
      if last.state != Referenced {
        RetainedSnoc(References(front), last);
      } else {
        assert References(front) + [] == References(front);
      }
    }
  }

  /** The agent request that follows stays within 64 references and one mebibyte. */
  lemma AgentRequestFits(r: Request, p: Package, picked: seq<Entry>)
    requires Conserves(r, p, picked) && forall i :: 0 <= i < |picked| ==> Sensible(picked[i], r.limits)
    ensures 1 + |References(p.items)| <= MAX_AGENT_REFERENCES
    ensures r.controlBytes + Retained(References(p.items)) <= MAX_AGENT_BYTES
    ensures forall i :: 0 <= i < |p.items| ==> p.items[i].retained <= r.limits.maxItemBytes
  {
    forall i | 0 <= i < |p.items|
      ensures p.items[i].state == Referenced ==> p.items[i].retained == 0
      ensures p.items[i].retained <= r.limits.maxItemBytes
    {
      assert Faithful(picked, p.items, i);
      assert Sensible(picked[i], r.limits);
    }
    ReferencesCarryAll(p.items);
  }

  /** The content of a required entry is delivered: by its own item, or by the earlier item of the same
      content that its reference names. */
  lemma RequiredContentIsPresent(r: Request, p: Package, picked: seq<Entry>, i: nat)
    requires Conserves(r, p, picked) && i < |picked| && picked[i].importance == Required
    requires Sensible(picked[i], r.limits)
    ensures exists k :: 0 <= k <= i && p.items[k].state != Referenced && p.items[k].key == picked[i].prepared.item.key
                   && (k < i ==> p.items[i].duplicateOf == Some(p.items[k].id))
  {
    assert Faithful(picked, p.items, i);
    if p.items[i] != picked[i].prepared.item {
      var k :| 0 <= k < i && p.items[k].key == p.items[i].key && p.items[k].state != Referenced
               && p.items[i].duplicateOf == Some(p.items[k].id);
    }
  }

  /** Equal digests stand for equal content. */
  ghost predicate SameContent(es: seq<Entry>) {
    forall i, k :: 0 <= i < |es| && 0 <= k < |es| && es[i].prepared.Ready? && es[k].prepared.Ready?
                   && es[i].prepared.item.key == es[k].prepared.item.key ==>
      es[i].prepared.item.source == es[k].prepared.item.source
  }

  /** A required entry that must be complete is delivered completely. */
  lemma CompleteContentIsWhole(r: Request, p: Package, picked: seq<Entry>, i: nat)
    requires Conserves(r, p, picked) && i < |picked| && picked[i].importance == Required && picked[i].requiresComplete
    requires SameContent(picked) && forall k :: 0 <= k < |picked| ==> Sensible(picked[k], r.limits)
    ensures exists k :: 0 <= k <= i && p.items[k].state == Whole && p.items[k].key == picked[i].prepared.item.key
                   && (k < i ==> p.items[i].duplicateOf == Some(p.items[k].id))
  {
    RequiredContentIsPresent(r, p, picked, i);
    var k :| 0 <= k <= i && p.items[k].state != Referenced && p.items[k].key == picked[i].prepared.item.key
             && (k < i ==> p.items[i].duplicateOf == Some(p.items[k].id));
    assert Faithful(picked, p.items, k);
  }

  // ---- A reference to a dropped item ----------------------------------------------------------

  function Big(reference: string, id: string): Entry {
    Entry(Preferred, 1, "DIFF", reference, false,
          Ready(Item(id, RepositoryFile, Preferred, Key("d", 0, 0), 40, 40, Whole, None), 40))
  }

  const TIGHT := Limits(8, 8, 8, 64, 32, 64)

  const CROWDED := Request.Request([Big("a", "ctx_a"), Big("b", "ctx_b")], TIGHT, 0, None)

  lemma CrowdedInOrder()
    ensures Sort(EntryLeq, CROWDED.entries) == CROWDED.entries && Second(CROWDED) == CROWDED.entries
  {
    var a, b := Big("a", "ctx_a"), Big("b", "ctx_b");
    assert EntryLeq(a, b);
    assert CROWDED.entries[1..] == [b] && [b][1..] == [];
    assert Sort(EntryLeq, [b]) == [b];
    assert Sort(EntryLeq, [a, b]) == [a, b];
    assert [a, b][..1] == [a] && [a][..0] == [];
    assert Kept([a], TIGHT) == [a] && Kept([a, b], TIGHT) == [a, b];
  }

  lemma CrowdedMissesNothing()
    ensures !RequiredMissing(CROWDED)
  {
    CrowdedInOrder();
    assert forall k: nat :: k < 2 ==> CROWDED.entries[k].importance == Preferred;
  }

  /** Of two entries with the same content, larger than the budget, the second is selected as a reference
      to the first. */
  lemma TwoTooLarge(a: Entry, b: Entry, limit: nat, budget: nat)
    requires a.prepared.Ready? && b.prepared.Ready? && a.prepared.item.key == b.prepared.item.key
    requires a.prepared.item.retained > budget && limit >= 1
    ensures PassOver([a, b], limit, budget).selected == [AsReference(b.prepared.item, a.prepared.item.id)]
  {
    PassSnoc([], a, limit, budget);
    assert [] + [a] == [a];
    PassSnoc([a], b, limit, budget);
    assert [a] + [b] == [a, b];
  }

  lemma CrowdedPasses()
    ensures Delivered(CROWDED) == [AsReference(Big("b", "ctx_b").prepared.item, "ctx_a")]
  {
    CrowdedInOrder();
    TwoTooLarge(Big("a", "ctx_a"), Big("b", "ctx_b"), ItemCap(TIGHT), Budget(CROWDED));
  }

  lemma OtherId()
    ensures "ctx_b" != "ctx_a"
  {
    assert "ctx_b"[4] != "ctx_a"[4];
  }

  lemma CrowdedIsSensible()
    ensures forall i :: 0 <= i < |CROWDED.entries| ==> Sensible(CROWDED.entries[i], CROWDED.limits)
  {
  }

  /** A selection in which nothing required is missing delivers what the passes select. */
  method Selects(r: Request) returns (out: Result<Package, Failure>)
    requires forall i :: 0 <= i < |r.entries| ==> Sensible(r.entries[i], r.limits)
    requires Admissible(r) && !RequiredMissing(r) && r.baseline.None?
    ensures out.Ok? && out.value.items == Delivered(r)
  {
    ghost var picked;
    out, picked := Select(r);
  }

  /** Without room for the first item, the reference is to nothing: of two preferred entries with the
      same content, larger than the whole budget, the first is dropped and the second selected as a
      reference to it. */
  method ReferenceToDropped() returns (out: Result<Package, Failure>)
    ensures out.Ok? && out.value.items == [AsReference(Big("b", "ctx_b").prepared.item, "ctx_a")]
    ensures forall k :: 0 <= k < |out.value.items| ==> out.value.items[k].id != "ctx_a"
  {
    CrowdedMissesNothing();
    CrowdedPasses();
    OtherId();
    CrowdedIsSensible();
    out := Selects(CROWDED);
  }
}
