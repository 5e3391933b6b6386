/** Parsing `git worktree list --porcelain -z` (src/revanent/git/parsing.py). */
module Porcelain {
  import opened Domain
  import opened Ordering

  const NUL: char := '\0'

  const UNDECODABLE: char := '\U{FFFD}'

  datatype Malformed = Malformed

  /** Path.resolve, as the environment answers it. */
  type Resolver = string -> Option<string>

  datatype Worktree = Worktree(
    path: string,
    head: string,
    branch: Option<string>,
    detached: bool,
    locked: Option<string>,
    prunable: Option<string>)

  // ---- Records --------------------------------------------------------------------------------

  /** str.split on NUL: one more piece than there are separators. */
  function Split(s: string): (rs: seq<string>)
    ensures rs != []
  {
    if s == "" then [""]
    else
      var rest := Split(s[1..]);
      if s[0] == NUL then [""] + rest else [[s[0]] + rest[0]] + rest[1..]
  }

  /** Records as Git writes them, each one terminated. */
  function Join(rs: seq<string>): string {
    if rs == [] then "" else rs[0] + [NUL] + Join(rs[1..])
  }

  /** _records */
  function Records(text: string): Result<seq<string>, Malformed> {
    if UNDECODABLE in text then Err(Malformed)
    else if text == "" || text[|text| - 1] != NUL then Err(Malformed)
    else Ok(Split(text[..|text| - 1]))
  }

  lemma {:induction false} SplitPiece(r: string, s: string)
    requires NUL !in r
    ensures Split(r + [NUL] + s) == [r] + Split(s)
    ensures Split(r) == [r]
  {
    if r == "" {
      assert r + [NUL] + s == [NUL] + s;
    } else {
      assert (r + [NUL] + s)[1..] == r[1..] + [NUL] + s;
      SplitPiece(r[1..], s);
      assert r == [r[0]] + r[1..];
    }
  }

  lemma {:induction false} SplitJoin(rs: seq<string>)
    requires rs != [] && forall r :: r in rs ==> NUL !in r
    ensures |Join(rs)| > 0 && Join(rs)[|Join(rs)| - 1] == NUL
    ensures Split(Join(rs)[..|Join(rs)| - 1]) == rs
  {
    var text := Join(rs);
    if |rs| == 1 {
      assert text[..|text| - 1] == rs[0];
      SplitPiece(rs[0], "");
    } else {
      SplitJoin(rs[1..]);
      var rest := Join(rs[1..]);
      assert text[..|text| - 1] == rs[0] + [NUL] + rest[..|rest| - 1];
      SplitPiece(rs[0], rest[..|rest| - 1]);
    }
  }

  lemma {:induction false} JoinSplit(s: string)
    ensures Join(Split(s)) == s + [NUL]
    ensures forall r :: r in Split(s) ==> NUL !in r
  {
    if s != "" {
      JoinSplit(s[1..]);
      var rest := Split(s[1..]);
      assert s == [s[0]] + s[1..];
      if s[0] == NUL {
        assert ([""] + rest)[1..] == rest;
      } else {
        assert ([[s[0]] + rest[0]] + rest[1..])[1..] == rest[1..];
        calc {
          Join(Split(s));
          ([s[0]] + rest[0]) + [NUL] + Join(rest[1..]);
          [s[0]] + (rest[0] + [NUL] + Join(rest[1..]));
          [s[0]] + Join(rest);
          s + [NUL];
        }
      }
    }
  }

  /** Reading records is the exact inverse of writing them. */
  lemma RecordsExactly(text: string, rs: seq<string>)
    ensures Records(text) == Ok(rs) <==>
              UNDECODABLE !in text && rs != [] && (forall r :: r in rs ==> NUL !in r) && text == Join(rs)
  {
    if UNDECODABLE !in text && rs != [] && (forall r :: r in rs ==> NUL !in r) && text == Join(rs) {
      WrittenIsRead(rs);
    }
    if Records(text) == Ok(rs) {
      ReadIsWritten(text);
    }
  }

  lemma WrittenIsRead(rs: seq<string>)
    requires rs != [] && (forall r :: r in rs ==> NUL !in r) && UNDECODABLE !in Join(rs)
    ensures Records(Join(rs)) == Ok(rs)
  {
    SplitJoin(rs);
  }

  lemma ReadIsWritten(text: string)
    requires Records(text).Ok?
    ensures var rs := Records(text).value;
            UNDECODABLE !in text && rs != [] && (forall r :: r in rs ==> NUL !in r) && text == Join(rs)
  {
    JoinSplit(text[..|text| - 1]);
  }

  // ---- Fields ---------------------------------------------------------------------------------

  /** The key of a record: everything before the first blank. */
  function Key(r: string): (k: string)
    ensures ' ' !in k && k <= r
  {
    if r == "" || r[0] == ' ' then "" else [r[0]] + Key(r[1..])
  }

  predicate HasValue(r: string) {
    |Key(r)| < |r|
  }

  function Value(r: string): string {
    if HasValue(r) then r[|Key(r)| + 1..] else ""
  }

  datatype Field = Opener | Head | Branch | Bare | Detached | Locked | Prunable | Unknown

  function FieldOf(r: string): Field {
    var key := Key(r);
    if key == "worktree" then Opener
    else if key == "HEAD" then Head
    else if key == "branch" then Branch
    else if key == "bare" then Bare
    else if key == "detached" then Detached
    else if key == "locked" then Locked
    else if key == "prunable" then Prunable
    else Unknown
  }

  /** A record that opens an entry. */
  predicate Opens(r: string) {
    FieldOf(r) == Opener && Value(r) != ""
  }

  /** A record that may stand inside an entry. */
  predicate FieldOk(r: string) {
    match FieldOf(r)
    case Opener => false
    case Unknown => false
    case Bare => !HasValue(r)
    case Detached => !HasValue(r)
    case Head => Value(r) != ""
    case Branch => Value(r) != ""
    case _ => true
  }

  predicate FieldsDistinct(block: seq<string>) {
    forall i, k :: 0 <= i < k < |block| ==> FieldOf(block[i]) != FieldOf(block[k])
  }

  /** An entry: opened once, then known fields, none repeated. */
  predicate Good(block: seq<string>) {
    && block != [] && Opens(block[0])
    && (forall i :: 1 <= i < |block| ==> FieldOk(block[i]))
    && FieldsDistinct(block)
  }

  predicate Holds(block: seq<string>, field: Field) {
    exists i :: 0 <= i < |block| && FieldOf(block[i]) == field
  }

  function Lookup(block: seq<string>, field: Field): (v: Option<string>)
    ensures v.Some? <==> Holds(block, field)
  {
    if block == [] then None
    else if FieldOf(block[|block| - 1]) == field then Some(Value(block[|block| - 1]))
    else Lookup(block[..|block| - 1], field)
  }

  const LOCAL_HEADS := "refs/heads/"
  const NO_REASON := "registered without a reason"

  function Reason(block: seq<string>, field: Field): Option<string> {
    match Lookup(block, field)
    case None => None
    case Some(v) => Some(if v == "" then NO_REASON else v)
  }

  function Finish(path: string, head: Option<string>, raw: Option<string>, bare: bool, detached: bool,
                  locked: Option<string>, prunable: Option<string>, resolve: Resolver): Option<Worktree>
  {
    if head.None? || resolve(path).None? then None
    else if raw.Some? && !(LOCAL_HEADS <= raw.value) then None
    else if bare || detached == raw.Some? then None
    else Some(Worktree(resolve(path).value, head.value,
                       if raw.Some? then Some(raw.value[|LOCAL_HEADS|..]) else None, detached, locked, prunable))
  }

  /** What an entry means: it depends on its fields, not on their order. */
  function Meaning(block: seq<string>, resolve: Resolver): Option<Worktree> {
    match Lookup(block, Opener)
    case None => None
    case Some(path) =>
      Finish(path, Lookup(block, Head), Lookup(block, Branch), Holds(block, Bare), Holds(block, Detached),
             Reason(block, Locked), Reason(block, Prunable), resolve)
  }

  /** In an entry each field is found wherever it stands. */
  lemma {:induction false} LookupFinds(block: seq<string>, i: nat)
    requires FieldsDistinct(block) && i < |block|
    ensures Lookup(block, FieldOf(block[i])) == Some(Value(block[i]))
  {
    var n := |block| - 1;
    if i < n {
      assert block[..n][i] == block[i];
      LookupFinds(block[..n], i);
    }
  }

  lemma LookupIgnoresOrder(a: seq<string>, b: seq<string>, field: Field)
    requires FieldsDistinct(a) && FieldsDistinct(b) && multiset(a) == multiset(b)
    ensures Lookup(a, field) == Lookup(b, field) && Holds(a, field) == Holds(b, field)
  {
    if i :| 0 <= i < |a| && FieldOf(a[i]) == field {
      assert a[i] in multiset(b);
      var k :| 0 <= k < |b| && b[k] == a[i];
      LookupFinds(a, i);
      LookupFinds(b, k);
    } else if k :| 0 <= k < |b| && FieldOf(b[k]) == field {
      assert b[k] in multiset(a);
    }
  }

  /** Entries with the same fields in another order mean the same. */
  lemma MeaningIgnoresOrder(a: seq<string>, b: seq<string>, resolve: Resolver)
    requires FieldsDistinct(a) && FieldsDistinct(b) && multiset(a) == multiset(b)
    ensures Meaning(a, resolve) == Meaning(b, resolve)
  {
    LookupIgnoresOrder(a, b, Opener);
    LookupIgnoresOrder(a, b, Head);
    LookupIgnoresOrder(a, b, Branch);
    LookupIgnoresOrder(a, b, Bare);
    LookupIgnoresOrder(a, b, Detached);
    LookupIgnoresOrder(a, b, Locked);
    LookupIgnoresOrder(a, b, Prunable);
  }

  // ---- Grouping records into entries ----------------------------------------------------------

  datatype Groups = Groups(closed: seq<seq<string>>, open: seq<string>)

  /** Runs of non-empty records; an empty record ends a run. */
  function Group(rs: seq<string>): Groups {
    if rs == [] then Groups([], [])
    else
      var g := Group(rs[..|rs| - 1]);
      var last := rs[|rs| - 1];
      if last != "" then g.(open := g.open + [last])
      else if g.open == [] then g
      else Groups(g.closed + [g.open], [])
  }

  function Blocks(rs: seq<string>): seq<seq<string>> {
    var g := Group(rs);
    if g.open == [] then g.closed else g.closed + [g.open]
  }

  predicate DistinctPaths(ws: seq<Worktree>) {
    forall i, k :: 0 <= i < k < |ws| ==> ws[i].path != ws[k].path
  }

  predicate PathLeq(a: Worktree, b: Worktree) {
    StringLeq(a.path, b.path)
  }

  /** The worktrees that a list of entries means. */
  ghost predicate Means(blocks: seq<seq<string>>, resolve: Resolver, ws: seq<Worktree>) {
    && |ws| == |blocks|
    && forall i :: 0 <= i < |blocks| ==> Good(blocks[i]) && Meaning(blocks[i], resolve) == Some(ws[i])
  }

  /** What the output of Git means, if it means anything. */
  ghost predicate Denotes(text: string, resolve: Resolver, ws: seq<Worktree>) {
    && Records(text).Ok?
    && Means(Blocks(Records(text).value), resolve, ws)
    && ws != [] && DistinctPaths(ws)
  }

  // ---- Rejection ------------------------------------------------------------------------------

  /** An entry with a field before its path, or with a repeated field. */
  predicate Misplaced(block: seq<string>) {
    block == [] || !Opens(block[0]) || !FieldsDistinct(block)
  }

  /** Text that is not terminated or not decodable, a field outside an entry, or a repeated one. */
  predicate Defective(text: string) {
    || text == "" || text[|text| - 1] != NUL
    || UNDECODABLE in text
    || exists b :: b in Blocks(Records(text).value) && Misplaced(b)
  }

  lemma DefectiveDenotesNothing(text: string, resolve: Resolver, ws: seq<Worktree>)
    requires Defective(text)
    ensures !Denotes(text, resolve, ws)
  {
    if Records(text).Ok? {
      var blocks := Blocks(Records(text).value);
      var b :| b in blocks && Misplaced(b);
      var i :| 0 <= i < |blocks| && blocks[i] == b;
      assert !Good(blocks[i]);
    }
  }

  // ---- The parser -----------------------------------------------------------------------------

  lemma GroupSnoc(rs: seq<string>, r: string)
    ensures Group(rs + [r]) ==
              (var g := Group(rs);
               if r != "" then g.(open := g.open + [r])
               else if g.open == [] then g
               else Groups(g.closed + [g.open], []))
  {
    assert (rs + [r])[..|rs|] == rs;
  }

  /** Closed entries stay, and the open one only grows. */
  lemma {:induction false} GroupsGrow(rs: seq<string>, more: seq<string>)
    ensures Group(rs).closed <= Group(rs + more).closed
    ensures Group(rs).open != [] ==> exists b :: b in Blocks(rs + more) && Group(rs).open <= b
    decreases |more|
  {
    if more == [] {
      assert rs + more == rs;
      if Group(rs).open != [] {
        assert Group(rs).open in Blocks(rs + more) && Group(rs).open <= Group(rs).open;
      }
    } else {
      GroupSnoc(rs, more[0]);
      assert rs + more == (rs + [more[0]]) + more[1..];
      GroupsGrow(rs + [more[0]], more[1..]);
      var g, g' := Group(rs), Group(rs + [more[0]]);
      if g.open != [] {
        if more[0] == "" {
          assert g'.closed[|g.closed|] == g.open;
          assert Group(rs + more).closed[|g.closed|] == g.open;
          assert g.open in Blocks(rs + more);
        } else {
          var b :| b in Blocks(rs + more) && g'.open <= b;
          assert g.open <= b;
        }
      }
    }
  }

  lemma GoodPrefix(a: seq<string>, b: seq<string>)
    requires a <= b && a != [] && Good(b)
    ensures Good(a)
  {
    assert forall i :: 0 <= i < |a| ==> a[i] == b[i];
  }

  /** A bad open entry makes the whole output meaningless. */
  lemma BadEntryIsFatal(rs: seq<string>, k: nat, resolve: Resolver, ws: seq<Worktree>)
    requires k <= |rs| && Group(rs[..k]).open != [] && !Good(Group(rs[..k]).open)
    ensures !Means(Blocks(rs), resolve, ws)
  {
    assert rs == rs[..k] + rs[k..];
    GroupsGrow(rs[..k], rs[k..]);
    var b :| b in Blocks(rs) && Group(rs[..k]).open <= b;
    if Good(b) { GoodPrefix(Group(rs[..k]).open, b); }
    var i :| 0 <= i < |Blocks(rs)| && Blocks(rs)[i] == b;
  }

  lemma UnfinishedIsFatal(rs: seq<string>, k: nat, i: nat, resolve: Resolver, ws: seq<Worktree>)
    requires k <= |rs| && i < |Group(rs[..k]).closed| && Meaning(Group(rs[..k]).closed[i], resolve).None?
    ensures !Means(Blocks(rs), resolve, ws)
  {
    assert rs == rs[..k] + rs[k..];
    GroupsGrow(rs[..k], rs[k..]);
    assert Blocks(rs)[i] == Group(rs[..k]).closed[i];
  }

  datatype FieldValue = Flag | Literal(text: string)

  function Stored(field: Field, v: string): FieldValue {
    match field
    case Bare => Flag
    case Detached => Flag
    case Locked => Literal(if v == "" then NO_REASON else v)
    case Prunable => Literal(if v == "" then NO_REASON else v)
    case _ => Literal(v)
  }

  /** The fields collected so far mirror the open entry. */
  ghost predicate Mirrors(current: map<Field, FieldValue>, block: seq<string>) {
    && Good(block)
    && (forall f :: f in current <==> Lookup(block, f).Some?)
    && (forall f :: f in current ==> current[f] == Stored(f, Lookup(block, f).value))
  }

  lemma LookupSnoc(block: seq<string>, r: string, field: Field)
    ensures Lookup(block + [r], field) == if FieldOf(r) == field then Some(Value(r)) else Lookup(block, field)
  {
    assert (block + [r])[..|block|] == block;
  }

  lemma OpeningMirrors(r: string)
    requires Opens(r)
    ensures Mirrors(map[Opener := Literal(Value(r))], [r])
  {
    forall f: Field ensures Lookup([r], f) == if FieldOf(r) == f then Some(Value(r)) else None {
      LookupSnoc([], r, f);
      assert [] + [r] == [r];
    }
  }

  lemma GoodSnoc(block: seq<string>, r: string)
    requires Good(block)
    ensures Good(block + [r]) <==> FieldOk(r) && !Holds(block, FieldOf(r))
  {
    var block' := block + [r];
    assert block'[|block|] == r;
    assert forall i :: 0 <= i < |block| ==> block'[i] == block[i];
    if Holds(block, FieldOf(r)) {
      var i :| 0 <= i < |block| && FieldOf(block[i]) == FieldOf(r);
      assert FieldOf(block'[i]) == FieldOf(block'[|block|]);
    }
  }

  lemma FieldMirrors(current: map<Field, FieldValue>, block: seq<string>, r: string)
    requires Mirrors(current, block) && FieldOk(r) && FieldOf(r) !in current
    ensures Mirrors(current[FieldOf(r) := Stored(FieldOf(r), Value(r))], block + [r])
  {
    GoodSnoc(block, r);
    var next := current[FieldOf(r) := Stored(FieldOf(r), Value(r))];
    forall f: Field
      ensures f in next <==> Lookup(block + [r], f).Some?
      ensures f in next ==> next[f] == Stored(f, Lookup(block + [r], f).value)
    {
      LookupSnoc(block, r, f);
    }
  }

  function TextOf(current: map<Field, FieldValue>, field: Field): Option<string> {
    if field in current && current[field].Literal? then Some(current[field].text) else None
  }

  lemma MirrorRead(current: map<Field, FieldValue>, block: seq<string>, f: Field)
    requires Mirrors(current, block)
    ensures f in {Opener, Head, Branch} ==> TextOf(current, f) == Lookup(block, f)
    ensures f in {Locked, Prunable} ==> TextOf(current, f) == Reason(block, f)
    ensures f in current <==> Holds(block, f)
  {
  }

  /** Reading the collected fields is reading the entry. */
  lemma MirrorReads(current: map<Field, FieldValue>, block: seq<string>)
    requires Mirrors(current, block)
    ensures TextOf(current, Opener).Some? && TextOf(current, Opener) == Lookup(block, Opener)
    ensures TextOf(current, Head) == Lookup(block, Head) && TextOf(current, Branch) == Lookup(block, Branch)
    ensures TextOf(current, Locked) == Reason(block, Locked) && TextOf(current, Prunable) == Reason(block, Prunable)
    ensures (Bare in current <==> Holds(block, Bare)) && (Detached in current <==> Holds(block, Detached))
  {
    assert Holds(block, Opener) by { assert FieldOf(block[0]) == Opener; }
    MirrorRead(current, block, Opener);
    MirrorRead(current, block, Head);
    MirrorRead(current, block, Branch);
    MirrorRead(current, block, Locked);
    MirrorRead(current, block, Prunable);
    MirrorRead(current, block, Bare);
    MirrorRead(current, block, Detached);
  }

  method FinishFields(path: string, head: Option<string>, raw: Option<string>, bare: bool, detached: bool,
                      locked: Option<string>, prunable: Option<string>, resolve: Resolver) returns (w: Option<Worktree>)
    ensures w == Finish(path, head, raw, bare, detached, locked, prunable, resolve)
  {
    if head.None? {
      return None;
    }
    var resolved := resolve(path);
    if resolved.None? {
      return None;
    }
    var branch: Option<string> := None;
    if raw.Some? {
      if !(LOCAL_HEADS <= raw.value) {
        return None;
      }
      branch := Some(raw.value[|LOCAL_HEADS|..]);
    }
    if bare {
      return None;
    }
    if detached == branch.Some? {
      return None;
    }
    w := Some(Worktree(resolved.value, head.value, branch, detached, locked, prunable));
  }

  /** _finish_worktree */
  method FinishWorktree(current: map<Field, FieldValue>, resolve: Resolver, ghost block: seq<string>)
    returns (w: Option<Worktree>)
    requires Mirrors(current, block)
    ensures w == Meaning(block, resolve)
  {
    MirrorReads(current, block);
    w := FinishFields(TextOf(current, Opener).value, TextOf(current, Head), TextOf(current, Branch), Bare in current,
                      Detached in current, TextOf(current, Locked), TextOf(current, Prunable), resolve);
  }

  /** The entries closed so far are exactly the worktrees found so far. */
  ghost predicate Found(g: Groups, resolve: Resolver, worktrees: seq<Worktree>,
                        current: Option<map<Field, FieldValue>>) {
    && Means(g.closed, resolve, worktrees)
    && (current.Some? <==> g.open != [])
    && (current.Some? ==> Mirrors(current.value, g.open))
  }

  /** One record inside or outside an entry. */
  method TakeRecord(r: string, current: Option<map<Field, FieldValue>>, ghost open: seq<string>)
    returns (next: Option<map<Field, FieldValue>>)
    requires r != "" && (current.Some? <==> open != []) && (current.Some? ==> Mirrors(current.value, open))
    ensures next.Some? ==> Mirrors(next.value, open + [r])
    ensures next.None? ==> !Good(open + [r])
  {
    var field := FieldOf(r);
    if current.Some? {
      GoodSnoc(open, r);
      assert Holds(open, Opener) by { assert FieldOf(open[0]) == Opener; }
    } else {
      assert (open + [r])[0] == r;
    }
    if field == Opener {
      if !HasValue(r) || Value(r) == "" || current.Some? {
        return None;
      }
      OpeningMirrors(r);
      assert open + [r] == [r];
      return Some(map[Opener := Literal(Value(r))]);
    }
    if current.None? {
      return None;
    }
    if field in current.value {
      return None;
    }
    var fields := current.value;
    if field in {Bare, Detached} {
      if HasValue(r) {
        return None;
      }
      next := Some(fields[field := Flag]);
    } else if field in {Head, Branch} {
      if !HasValue(r) || Value(r) == "" {
        return None;
      }
      next := Some(fields[field := Literal(Value(r))]);
    } else if field in {Locked, Prunable} {
      next := Some(fields[field := Literal(if HasValue(r) && Value(r) != "" then Value(r) else NO_REASON)]);
    } else {
      return None;
    }
    FieldMirrors(fields, open, r);
  }

  /** The groups after one more record. */
  lemma NextGroup(records: seq<string>, k: nat)
    requires k < |records|
    ensures var g := Group(records[..k]);
            Group(records[..k + 1]) == (if records[k] != "" then g.(open := g.open + [records[k]])
                                        else if g.open == [] then g
                                        else Groups(g.closed + [g.open], []))
  {
    assert records[..k + 1] == records[..k] + [records[k]];
    GroupSnoc(records[..k], records[k]);
  }

  /** An empty record closes the open entry, if there is one. */
  method CloseEntry(ghost records: seq<string>, ghost k: nat, resolve: Resolver, worktrees: seq<Worktree>,
                    current: Option<map<Field, FieldValue>>)
    returns (closed: Option<seq<Worktree>>)
    requires k < |records| && records[k] == "" && Found(Group(records[..k]), resolve, worktrees, current)
    ensures closed.Some? ==> Found(Group(records[..k + 1]), resolve, closed.value, None)
    ensures closed.None? ==> forall ws: seq<Worktree> :: !Means(Blocks(records), resolve, ws)
  {
    NextGroup(records, k);
    if current.None? {
      return Some(worktrees);
    }
    ghost var before := Group(records[..k]);
    var w := FinishWorktree(current.value, resolve, before.open);
    if w.None? {
      NeverMeans(records, k + 1, |before.closed|, resolve);
      return None;
    }
    ClosedMeans(before, resolve, worktrees, current, w.value);
    closed := Some(worktrees + [w.value]);
  }

  lemma ClosedMeans(g: Groups, resolve: Resolver, worktrees: seq<Worktree>, current: Option<map<Field, FieldValue>>,
                    w: Worktree)
    requires Found(g, resolve, worktrees, current) && current.Some? && Meaning(g.open, resolve) == Some(w)
    ensures Means(g.closed + [g.open], resolve, worktrees + [w])
  {
    MeansSnoc(g.closed, resolve, worktrees, g.open, w);
  }

  /** Any other record opens or extends an entry. */
  method ExtendEntry(ghost records: seq<string>, ghost k: nat, r: string, resolve: Resolver,
                     ghost worktrees: seq<Worktree>, current: Option<map<Field, FieldValue>>)
    returns (next: Option<map<Field, FieldValue>>)
    requires k < |records| && r == records[k] != "" && Found(Group(records[..k]), resolve, worktrees, current)
    ensures next.Some? ==> Found(Group(records[..k + 1]), resolve, worktrees, next)
    ensures next.None? ==> forall ws: seq<Worktree> :: !Means(Blocks(records), resolve, ws)
  {
    NextGroup(records, k);
    next := TakeRecord(r, current, Group(records[..k]).open);
    if next.None? {
      NeverGood(records, k + 1, resolve);
    }
  }

  /** The end of the output closes the last entry. */
  method CloseLast(ghost records: seq<string>, resolve: Resolver, worktrees: seq<Worktree>,
                   current: Option<map<Field, FieldValue>>)
    returns (out: Option<seq<Worktree>>)
    requires Found(Group(records), resolve, worktrees, current)
    ensures out.Some? ==> Means(Blocks(records), resolve, out.value)
    ensures out.None? ==> forall ws: seq<Worktree> :: !Means(Blocks(records), resolve, ws)
  {
    if current.None? {
      return Some(worktrees);
    }
    var w := FinishWorktree(current.value, resolve, Group(records).open);
    if w.None? {
      LastNeverMeans(records, resolve);
      return None;
    }
    ClosedMeans(Group(records), resolve, worktrees, current, w.value);
    out := Some(worktrees + [w.value]);
  }

  /** The loop over the records. */
  method ScanRecords(records: seq<string>, resolve: Resolver) returns (out: Option<seq<Worktree>>)
    ensures out.Some? ==> Means(Blocks(records), resolve, out.value)
    ensures out.None? ==> forall ws: seq<Worktree> :: !Means(Blocks(records), resolve, ws)
  {
    var worktrees: seq<Worktree> := [];
    var current: Option<map<Field, FieldValue>> := None;
    for k := 0 to |records|
      invariant Found(Group(records[..k]), resolve, worktrees, current)
    {
      if records[k] == "" {
        var closed := CloseEntry(records, k, resolve, worktrees, current);
        if closed.None? {
          return None;
        }
        worktrees, current := closed.value, None;
      } else {
        var next := ExtendEntry(records, k, records[k], resolve, worktrees, current);
        if next.None? {
          return None;
        }
        current := next;
      }
    }
    assert records[..|records|] == records;
    out := CloseLast(records, resolve, worktrees, current);
  }

  /** parse_worktree_porcelain. It succeeds exactly on output that denotes worktrees, and returns
      those sorted by path. Unterminated text and misplaced or repeated fields are always rejected. */
  method ParseWorktreePorcelain(text: string, resolve: Resolver)
    returns (r: Result<seq<Worktree>, Malformed>, ghost found: seq<Worktree>)
    ensures r.Ok? ==> Denotes(text, resolve, found)
    ensures r.Ok? ==> Ordered(PathLeq, r.value) && multiset(r.value) == multiset(found)
    ensures r.Err? ==> forall ws: seq<Worktree> :: !Denotes(text, resolve, ws)
    ensures Defective(text) ==> r.Err?
  {
    forall ws: seq<Worktree> | Defective(text) ensures !Denotes(text, resolve, ws) {
      DefectiveDenotesNothing(text, resolve, ws);
    }
    found := [];
    var records := Records(text);
    if records.Err? {
      return Err(Malformed), [];
    }
    var worktrees := ScanRecords(records.value, resolve);
    if worktrees.None? {
      return Err(Malformed), [];
    }
    found := worktrees.value;
    MeansIsUnique(Blocks(records.value), resolve, found);
    if worktrees.value == [] || !DistinctPaths(worktrees.value) {
      return Err(Malformed), found;
    }
    PathOrder();
    SortCorrect(PathLeq, found);
    r := Ok(Sort(PathLeq, worktrees.value));
  }

  lemma PathOrder()
    ensures TotalOrder(PathLeq)
  {
    forall a: Worktree, b: Worktree ensures PathLeq(a, b) || PathLeq(b, a) {
      StringLeqTotal(a.path, b.path);
    }
    forall a: Worktree, b: Worktree, c: Worktree | PathLeq(a, b) && PathLeq(b, c) ensures PathLeq(a, c) {
      StringLeqTransitive(a.path, b.path, c.path);
    }
  }

  lemma NeverGood(rs: seq<string>, k: nat, resolve: Resolver)
    requires k <= |rs| && Group(rs[..k]).open != [] && !Good(Group(rs[..k]).open)
    ensures forall ws: seq<Worktree> :: !Means(Blocks(rs), resolve, ws)
  {
    forall ws: seq<Worktree> ensures !Means(Blocks(rs), resolve, ws) { BadEntryIsFatal(rs, k, resolve, ws); }
  }

  lemma NeverMeans(rs: seq<string>, k: nat, i: nat, resolve: Resolver)
    requires k <= |rs| && i < |Group(rs[..k]).closed| && Meaning(Group(rs[..k]).closed[i], resolve).None?
    ensures forall ws: seq<Worktree> :: !Means(Blocks(rs), resolve, ws)
  {
    forall ws: seq<Worktree> ensures !Means(Blocks(rs), resolve, ws) { UnfinishedIsFatal(rs, k, i, resolve, ws); }
  }

  lemma LastNeverMeans(rs: seq<string>, resolve: Resolver)
    requires Group(rs).open != [] && Meaning(Group(rs).open, resolve).None?
    ensures forall ws: seq<Worktree> :: !Means(Blocks(rs), resolve, ws)
  {
    assert Blocks(rs)[|Group(rs).closed|] == Group(rs).open;
  }

  lemma MeansIsUnique(blocks: seq<seq<string>>, resolve: Resolver, ws: seq<Worktree>)
    requires Means(blocks, resolve, ws)
    ensures forall vs: seq<Worktree> :: Means(blocks, resolve, vs) ==> vs == ws
  {
  }

  // ---- Round trip -----------------------------------------------------------------------------

  /** The text of an entry that Git can print and a path check cannot change. */
  ghost predicate WellFormed(w: Worktree, resolve: Resolver) {
    && resolve(w.path) == Some(w.path) && w.path != "" && w.head != ""
    && (w.detached <==> w.branch.None?)
    && w.locked != Some("") && w.prunable != Some("")
    && Clean(w.path) && Clean(w.head)
    && (w.branch.Some? ==> Clean(w.branch.value))
    && (w.locked.Some? ==> Clean(w.locked.value))
    && (w.prunable.Some? ==> Clean(w.prunable.value))
  }

  ghost predicate Clean(s: string) {
    NUL !in s && UNDECODABLE !in s
  }

  function Pair(key: string, v: string): string {
    key + " " + v
  }

  function Optional(key: string, v: Option<string>): seq<string> {
    if v.Some? then [Pair(key, v.value)] else []
  }

  function PathRecord(w: Worktree): string {
    Pair("worktree", w.path)
  }

  function HeadRecord(w: Worktree): string {
    Pair("HEAD", w.head)
  }

  function RenderState(w: Worktree): string {
    if w.branch.Some? then Pair("branch", LOCAL_HEADS + w.branch.value) else "detached"
  }

  function RenderEntry(w: Worktree): seq<string> {
    [PathRecord(w), HeadRecord(w), RenderState(w)]
    + Optional("locked", w.locked) + Optional("prunable", w.prunable)
  }

  function RenderRecords(ws: seq<Worktree>): seq<string> {
    if ws == [] then [] else RenderRecords(ws[..|ws| - 1]) + RenderEntry(ws[|ws| - 1]) + [""]
  }

  function Render(ws: seq<Worktree>): string {
    Join(RenderRecords(ws))
  }

  lemma {:induction false} KeyOfPair(key: string, v: string)
    requires ' ' !in key
    ensures Key(key) == key && !HasValue(key)
    ensures Key(Pair(key, v)) == key && HasValue(Pair(key, v)) && Value(Pair(key, v)) == v
  {
    if key == "" {
      assert Pair(key, v) == " " + v;
    } else {
      KeyOfPair(key[1..], v);
      assert Pair(key, v)[1..] == Pair(key[1..], v);
      assert key == [key[0]] + key[1..];
    }
    assert Pair(key, v)[|key| + 1..] == v;
  }

  lemma PairField(key: string, v: string, field: Field)
    requires || (key == "worktree" && field == Opener) || (key == "HEAD" && field == Head)
             || (key == "branch" && field == Branch) || (key == "locked" && field == Locked)
             || (key == "prunable" && field == Prunable)
    ensures FieldOf(Pair(key, v)) == field && HasValue(Pair(key, v)) && Value(Pair(key, v)) == v
  {
    KeyOfPair(key, v);
  }

  /** Adding a field that is not there yet keeps the entry and the other fields. */
  lemma AddField(block: seq<string>, r: string)
    requires Good(block) && FieldOk(r) && !Holds(block, FieldOf(r))
    ensures Good(block + [r]) && Lookup(block + [r], FieldOf(r)) == Some(Value(r))
    ensures forall f: Field :: f != FieldOf(r) ==> Lookup(block + [r], f) == Lookup(block, f)
  {
    GoodSnoc(block, r);
    forall f: Field
      ensures Lookup(block + [r], f) == if FieldOf(r) == f then Some(Value(r)) else Lookup(block, f)
    {
      LookupSnoc(block, r, f);
    }
  }

  lemma AddReason(block: seq<string>, key: string, field: Field, v: Option<string>)
    requires Good(block) && Lookup(block, field).None? && v != Some("")
    requires (key == "locked" && field == Locked) || (key == "prunable" && field == Prunable)
    ensures Good(block + Optional(key, v)) && Reason(block + Optional(key, v), field) == v
    ensures forall f: Field :: f != field ==> Lookup(block + Optional(key, v), f) == Lookup(block, f)
  {
    if v.Some? {
      PairField(key, v.value, field);
      AddField(block, Pair(key, v.value));
    } else {
      assert block + [] == block;
    }
  }

  lemma AddReasons(block: seq<string>, locked: Option<string>, prunable: Option<string>)
    requires Good(block) && Lookup(block, Locked).None? && Lookup(block, Prunable).None?
    requires locked != Some("") && prunable != Some("")
    ensures var e := block + Optional("locked", locked) + Optional("prunable", prunable);
            && Good(e) && Reason(e, Locked) == locked && Reason(e, Prunable) == prunable
            && forall f: Field :: f != Locked && f != Prunable ==> Lookup(e, f) == Lookup(block, f)
  {
    AddReason(block, "locked", Locked, locked);
    AddReason(block + Optional("locked", locked), "prunable", Prunable, prunable);
  }

  lemma OneField(r: string)
    requires Opens(r)
    ensures Good([r]) && forall f: Field :: Lookup([r], f) == if f == Opener then Some(Value(r)) else None
  {
    forall f: Field ensures Lookup([r], f) == if f == Opener then Some(Value(r)) else None {
      LookupSnoc([], r, f);
      assert [] + [r] == [r];
    }
  }

  lemma ThreeFields(r0: string, r1: string, r2: string)
    requires Opens(r0) && FieldOk(r1) && FieldOf(r1) == Head && FieldOk(r2) && FieldOf(r2) in {Branch, Detached}
    ensures Good([r0, r1, r2])
    ensures forall f: Field :: Lookup([r0, r1, r2], f) ==
              if f == Opener then Some(Value(r0)) else if f == Head then Some(Value(r1))
              else if f == FieldOf(r2) then Some(Value(r2)) else None
  {
    OneField(r0);
    AddField([r0], r1);
    AddField([r0] + [r1], r2);
    assert [r0] + [r1] + [r2] == [r0, r1, r2];
  }

  lemma StateField(w: Worktree)
    ensures FieldOk(RenderState(w)) && FieldOf(RenderState(w)) == if w.branch.Some? then Branch else Detached
    ensures w.branch.Some? ==> Value(RenderState(w)) == LOCAL_HEADS + w.branch.value
  {
    if w.branch.Some? {
      PairField("branch", LOCAL_HEADS + w.branch.value, Branch);
    } else {
      DetachedField();
    }
  }

  lemma DetachedField()
    ensures FieldOf("detached") == Detached && FieldOk("detached")
  {
    KeyOfPair("detached", "");
    var key := "detached";
    assert |key| == 8 && |"HEAD"| == 4 && |"branch"| == 6 && |"bare"| == 4;
    assert key[0] == 'd' && "worktree"[0] == 'w';
  }

  lemma LeadingFields(w: Worktree)
    requires w.path != "" && w.head != ""
    ensures Opens(PathRecord(w)) && Value(PathRecord(w)) == w.path
    ensures FieldOk(HeadRecord(w)) && FieldOf(HeadRecord(w)) == Head && Value(HeadRecord(w)) == w.head
  {
    PairField("worktree", w.path, Opener);
    PairField("HEAD", w.head, Head);
  }

  lemma FirstFields(w: Worktree, e: seq<string>)
    requires w.path != "" && w.head != "" && (w.detached <==> w.branch.None?)
    requires e == [PathRecord(w), HeadRecord(w), RenderState(w)]
    ensures Good(e) && Lookup(e, Opener) == Some(w.path) && Lookup(e, Head) == Some(w.head)
    ensures Lookup(e, Branch) == (if w.branch.Some? then Some(LOCAL_HEADS + w.branch.value) else None)
    ensures Lookup(e, Bare).None? && (Lookup(e, Detached).Some? <==> w.detached)
    ensures Lookup(e, Locked).None? && Lookup(e, Prunable).None?
  {
    LeadingFields(w);
    StateField(w);
    ThreeFields(PathRecord(w), HeadRecord(w), RenderState(w));
  }

  /** The fields of an entry are those of a worktree. */
  ghost predicate HasFields(e: seq<string>, w: Worktree) {
    && Good(e) && Lookup(e, Opener) == Some(w.path) && Lookup(e, Head) == Some(w.head)
    && Lookup(e, Branch) == (if w.branch.Some? then Some(LOCAL_HEADS + w.branch.value) else None)
    && Lookup(e, Bare).None? && (Lookup(e, Detached).Some? <==> w.detached)
    && Reason(e, Locked) == w.locked && Reason(e, Prunable) == w.prunable
  }

  lemma EntryFields(w: Worktree, resolve: Resolver)
    requires WellFormed(w, resolve)
    ensures HasFields(RenderEntry(w), w)
  {
    var e := [PathRecord(w), HeadRecord(w), RenderState(w)];
    FirstFields(w, e);
    AddReasons(e, w.locked, w.prunable);
  }

  lemma FieldsMean(e: seq<string>, w: Worktree, resolve: Resolver)
    requires HasFields(e, w) && resolve(w.path) == Some(w.path) && (w.detached <==> w.branch.None?)
    ensures Meaning(e, resolve) == Some(w)
  {
    if w.branch.Some? { DropHead(w.branch.value); }
  }

  lemma DropHead(name: string)
    ensures LOCAL_HEADS <= LOCAL_HEADS + name && (LOCAL_HEADS + name)[|LOCAL_HEADS|..] == name
  {
  }

  /** An entry rendered field by field means itself. */
  lemma EntryMeansItself(w: Worktree, resolve: Resolver)
    requires WellFormed(w, resolve)
    ensures Good(RenderEntry(w)) && Meaning(RenderEntry(w), resolve) == Some(w)
  {
    EntryFields(w, resolve);
    FieldsMean(RenderEntry(w), w, resolve);
  }

  lemma BareReasonField(key: string, field: Field)
    requires (key == "locked" && field == Locked) || (key == "prunable" && field == Prunable)
    ensures FieldOf(key) == field && FieldOk(key) && Value(key) == ""
  {
    KeyOfPair(key, "");
  }

  lemma AddBareReason(e: seq<string>, w: Worktree, key: string)
    requires HasFields(e, w) && FieldOk(key) && Value(key) == ""
    ensures FieldOf(key) == Locked && w.locked.None? ==> HasFields(e + [key], w.(locked := Some(NO_REASON)))
    ensures FieldOf(key) == Prunable && w.prunable.None? ==> HasFields(e + [key], w.(prunable := Some(NO_REASON)))
  {
    if !Holds(e, FieldOf(key)) { AddField(e, key); }
  }

  /** A worktree that is locked without a reason is read as locked, with a text that says so. */
  lemma LockedWithoutReason(w: Worktree, resolve: Resolver)
    requires WellFormed(w, resolve) && w.locked.None?
    ensures Good(RenderEntry(w) + ["locked"])
    ensures Meaning(RenderEntry(w) + ["locked"], resolve) == Some(w.(locked := Some(NO_REASON)))
  {
    BareReasonField("locked", Locked);
    BareReasonMeans(w, resolve, "locked");
  }

  lemma PrunableWithoutReason(w: Worktree, resolve: Resolver)
    requires WellFormed(w, resolve) && w.prunable.None?
    ensures Good(RenderEntry(w) + ["prunable"])
    ensures Meaning(RenderEntry(w) + ["prunable"], resolve) == Some(w.(prunable := Some(NO_REASON)))
  {
    BareReasonField("prunable", Prunable);
    BareReasonMeans(w, resolve, "prunable");
  }

  lemma BareReasonMeans(w: Worktree, resolve: Resolver, key: string)
    requires WellFormed(w, resolve) && FieldOk(key) && Value(key) == ""
    ensures FieldOf(key) == Locked && w.locked.None? ==>
              Good(RenderEntry(w) + [key]) && Meaning(RenderEntry(w) + [key],
                                                      resolve) == Some(w.(locked := Some(NO_REASON)))
    ensures FieldOf(key) == Prunable && w.prunable.None? ==>
              Good(RenderEntry(w) + [key]) && Meaning(RenderEntry(w) + [key],
                                                      resolve) == Some(w.(prunable := Some(NO_REASON)))
  {
    EntryFields(w, resolve);
    AddBareReason(RenderEntry(w), w, key);
    if FieldOf(key) == Locked && w.locked.None? {
      FieldsMean(RenderEntry(w) + [key], w.(locked := Some(NO_REASON)), resolve);
    }
    if FieldOf(key) == Prunable && w.prunable.None? {
      FieldsMean(RenderEntry(w) + [key], w.(prunable := Some(NO_REASON)), resolve);
    }
  }

  lemma EntryRecordsAreClean(w: Worktree, resolve: Resolver)
    requires WellFormed(w, resolve)
    ensures forall r :: r in RenderEntry(w) ==> r != "" && Clean(r)
  {
  }

  lemma GroupField(rs: seq<string>, r: string)
    requires r != ""
    ensures Group(rs + [r]) == Groups(Group(rs).closed, Group(rs).open + [r])
  {
    GroupSnoc(rs, r);
  }

  lemma {:induction false} GroupEntry(rs: seq<string>, e: seq<string>)
    requires forall i :: 0 <= i < |e| ==> e[i] != ""
    ensures Group(rs + e) == Groups(Group(rs).closed, Group(rs).open + e)
    decreases |e|
  {
    if e == [] {
      assert rs + e == rs && Group(rs).open + e == Group(rs).open;
    } else {
      var front, last := e[..|e| - 1], e[|e| - 1];
      assert e == front + [last];
      GroupEntry(rs, front);
      GroupField(rs + front, last);
      assert rs + e == (rs + front) + [last];
      assert Group(rs).open + e == (Group(rs).open + front) + [last];
    }
  }

  lemma RenderedEntry(rs: seq<string>, w: Worktree, resolve: Resolver)
    requires WellFormed(w, resolve) && Group(rs).open == []
    ensures Group(rs + RenderEntry(w) + [""]) == Groups(Group(rs).closed + [RenderEntry(w)], [])
  {
    var e := RenderEntry(w);
    EntryRecordsAreClean(w, resolve);
    GroupEntry(rs, e);
    GroupSnoc(rs + e, "");
    assert Group(rs).open + e == e;
  }

  /** Rendered records group back into the rendered entries. */
  lemma {:induction false} RenderedGroups(ws: seq<Worktree>, resolve: Resolver)
    requires forall w :: w in ws ==> WellFormed(w, resolve)
    ensures Group(RenderRecords(ws)).open == [] && Means(Group(RenderRecords(ws)).closed, resolve, ws)
  {
    if ws != [] {
      var n := |ws| - 1;
      RenderedGroups(ws[..n], resolve);
      EntryMeansItself(ws[n], resolve);
      RenderedEntry(RenderRecords(ws[..n]), ws[n], resolve);
      MeansSnoc(Group(RenderRecords(ws[..n])).closed, resolve, ws[..n], RenderEntry(ws[n]), ws[n]);
      assert ws == ws[..n] + [ws[n]];
    }
  }

  lemma MeansSnoc(blocks: seq<seq<string>>, resolve: Resolver, ws: seq<Worktree>, block: seq<string>, w: Worktree)
    requires Means(blocks, resolve, ws) && Good(block) && Meaning(block, resolve) == Some(w)
    ensures Means(blocks + [block], resolve, ws + [w])
  {
  }

  lemma {:induction false} RenderedAreClean(ws: seq<Worktree>, resolve: Resolver)
    requires forall w :: w in ws ==> WellFormed(w, resolve)
    ensures forall r :: r in RenderRecords(ws) ==> Clean(r)
  {
    if ws != [] {
      var n := |ws| - 1;
      RenderedAreClean(ws[..n], resolve);
      EntryRecordsAreClean(ws[n], resolve);
    }
  }

  lemma {:induction false} JoinIsClean(rs: seq<string>)
    requires forall r :: r in rs ==> Clean(r)
    ensures UNDECODABLE !in Join(rs)
  {
    if rs != [] {
      JoinIsClean(rs[1..]);
      assert rs[0] in rs;
    }
  }

  /** Round trip: rendering well-formed worktrees with distinct canonical paths gives output that
      denotes exactly them, whatever their paths and reasons contain. */
  lemma RoundTrip(ws: seq<Worktree>, resolve: Resolver)
    requires ws != [] && DistinctPaths(ws) && forall w :: w in ws ==> WellFormed(w, resolve)
    ensures Denotes(Render(ws), resolve, ws)
    ensures forall vs: seq<Worktree> :: Denotes(Render(ws), resolve, vs) ==> vs == ws
  {
    RenderedGroups(ws, resolve);
    RenderedAreClean(ws, resolve);
    JoinIsClean(RenderRecords(ws));
    RecordsExactly(Render(ws), RenderRecords(ws));
    MeansIsUnique(Blocks(RenderRecords(ws)), resolve, ws);
  }

  /** Reading back what was rendered gives the same worktrees, sorted by path. */
  method ReadBack(ws: seq<Worktree>, resolve: Resolver) returns (r: Result<seq<Worktree>, Malformed>)
    requires ws != [] && DistinctPaths(ws) && forall w :: w in ws ==> WellFormed(w, resolve)
    ensures r.Ok? && Ordered(PathLeq, r.value) && multiset(r.value) == multiset(ws)
  {
    RoundTrip(ws, resolve);
    ghost var found;
    r, found := ParseWorktreePorcelain(Render(ws), resolve);
  }
}
