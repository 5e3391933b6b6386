/** Bounded breadth-first expansion of Python imports (src/revanent/context/discovery.py). */
module Discovery {

  type Path = string

  /** What the reader and the import scan answer: the imports of a file in order (none when the file
      cannot be read or parsed), and which files exist. */
  datatype Project = Project(imports: Path -> seq<Path>, present: Path -> bool)

  datatype Found = Found(path: Path, distance: nat, parent: Path, priority: nat)

  const BASE_PRIORITY: nat := 120

  // ---- Import distance ------------------------------------------------------------------------

  predicate Edge(g: Project, p: Path, q: Path) {
    q in g.imports(p) && g.present(q)
  }

  function Targets(g: Project, p: Path): (out: set<Path>)
    ensures forall q :: q in out <==> Edge(g, p, q)
  {
    set q | q in g.imports(p) && g.present(q) :: q
  }

  /** The files within `n` imports of the seeds. */
  function Within(g: Project, seeds: set<Path>, n: nat): set<Path> {
    if n == 0 then seeds
    else
      var near := Within(g, seeds, n - 1);
      near + set p, q | p in near && q in Targets(g, p) :: q
  }

  /** `n` is the shortest import distance of `p`. */
  predicate At(g: Project, seeds: set<Path>, p: Path, n: nat) {
    p in Within(g, seeds, n) && (n > 0 ==> p !in Within(g, seeds, n - 1))
  }

  lemma {:induction false} WithinMonotone(g: Project, seeds: set<Path>, m: nat, n: nat)
    requires m <= n
    ensures Within(g, seeds, m) <= Within(g, seeds, n)
  {
    if m < n {
      WithinMonotone(g, seeds, m, n - 1);
    }
  }

  /** Distances are unique. */
  lemma DistanceIsUnique(g: Project, seeds: set<Path>, p: Path, m: nat, n: nat)
    requires At(g, seeds, p, m) && At(g, seeds, p, n)
    ensures m == n
  {
    if m < n { WithinMonotone(g, seeds, m, n - 1); }
    if n < m { WithinMonotone(g, seeds, n, m - 1); }
  }

  lemma {:induction false} HasDistance(g: Project, seeds: set<Path>, p: Path, n: nat) returns (d: nat)
    requires p in Within(g, seeds, n)
    ensures d <= n && At(g, seeds, p, d)
  {
    if n == 0 || p !in Within(g, seeds, n - 1) {
      d := n;
    } else {
      d := HasDistance(g, seeds, p, n - 1);
    }
  }

  // ---- What the expansion promises ------------------------------------------------------------

  function Paths(found: seq<Found>): set<Path> {
    set i | 0 <= i < |found| :: found[i].path
  }

  ghost predicate Sound(g: Project, seeds: set<Path>, maxDepth: nat, found: seq<Found>) {
    && (forall i, k :: 0 <= i < k < |found| ==>
          found[i].path != found[k].path && found[i].distance <= found[k].distance)
    && (forall i :: 0 <= i < |found| ==> Placed(g, seeds, maxDepth, found[i]))
  }

  /** A file is listed at its shortest distance, through an import of a file one step closer. */
  ghost predicate Placed(g: Project, seeds: set<Path>, maxDepth: nat, f: Found) {
    && f.path !in seeds && 1 <= f.distance <= maxDepth
    && At(g, seeds, f.path, f.distance)
    && At(g, seeds, f.parent, f.distance - 1) && Edge(g, f.parent, f.path)
    && f.priority == BASE_PRIORITY + (f.distance - 1)
  }

  /** No omitted file within the depth is closer than an included one. */
  ghost predicate NearestFirst(g: Project, seeds: set<Path>, maxDepth: nat, found: seq<Found>) {
    forall q, d: nat, i :: d <= maxDepth && At(g, seeds, q, d) && q !in seeds && q !in Paths(found) && 0 <= i < |found|
                        ==> found[i].distance <= d
  }

  // ---- The queue ------------------------------------------------------------------------------

  type Queue = seq<(Path, nat)>

  ghost predicate QueueOk(g: Project, seeds: set<Path>, maxDepth: nat, queue: Queue, depth: nat) {
    && (forall i :: 0 <= i < |queue| ==> At(g, seeds, queue[i].0, queue[i].1) && queue[i].1 <= maxDepth)
    && (forall i :: 0 <= i < |queue| ==> depth <= queue[i].1 <= depth + 1)
    && (forall i, k :: 0 <= i < k < |queue| ==> queue[i].1 <= queue[k].1)
  }

  ghost predicate Queued(queue: Queue, p: Path) {
    exists i :: 0 <= i < |queue| && queue[i].0 == p
  }

  /** All imports of a file were taken up, unless it lies on the rim. */
  ghost predicate Done(g: Project, seeds: set<Path>, maxDepth: nat, visited: set<Path>, p: Path) {
    Targets(g, p) <= visited || At(g, seeds, p, maxDepth)
  }

  ghost predicate Settled(g: Project, seeds: set<Path>, maxDepth: nat, visited: set<Path>, queue: Queue,
                          busy: set<Path>, p: Path) {
    p in visited && !Queued(queue, p) && p !in busy ==> Done(g, seeds, maxDepth, visited, p)
  }

  ghost predicate Progress(g: Project, seeds: set<Path>, maxDepth: nat, visited: set<Path>, queue: Queue, depth: nat,
                           busy: set<Path>) {
    && Within(g, seeds, depth) <= visited
    && forall p: Path :: Settled(g, seeds, maxDepth, visited, queue, busy, p)
  }

  /** When the queue has moved on to the next depth, every file of that depth is known. */
  lemma NextDepth(g: Project, seeds: set<Path>, maxDepth: nat, visited: set<Path>, queue: Queue, depth: nat)
    requires QueueOk(g, seeds, maxDepth, queue, depth) && Progress(g, seeds, maxDepth, visited, queue, depth, {})
    requires depth < maxDepth && (queue == [] || queue[0].1 == depth + 1)
    ensures Within(g, seeds, depth + 1) <= visited
  {
    forall q | q in Within(g, seeds, depth + 1) ensures q in visited {
      if q !in Within(g, seeds, depth) {
        var p :| p in Within(g, seeds, depth) && q in Targets(g, p);
        var d := HasDistance(g, seeds, p, depth);
        if Queued(queue, p) {
          var i :| 0 <= i < |queue| && queue[i].0 == p;
          DistanceIsUnique(g, seeds, p, d, queue[i].1);
        } else {
          assert Settled(g, seeds, maxDepth, visited, queue, {}, p);
          if At(g, seeds, p, maxDepth) { DistanceIsUnique(g, seeds, p, d, maxDepth); }
        }
      }
    }
  }

  /** An empty queue means that nothing within the depth is missing. */
  lemma {:induction false} EmptyQueueIsComplete(g: Project, seeds: set<Path>, maxDepth: nat, visited: set<Path>,
                                                depth: nat)
    requires depth <= maxDepth && Progress(g, seeds, maxDepth, visited, [], depth, {})
    ensures Within(g, seeds, maxDepth) <= visited
    decreases maxDepth - depth
  {
    if depth < maxDepth {
      NextDepth(g, seeds, maxDepth, visited, [], depth);
      EmptyQueueIsComplete(g, seeds, maxDepth, visited, depth + 1);
    }
  }

  // ---- The expansion --------------------------------------------------------------------------

  ghost predicate FoundOk(g: Project, seeds: set<Path>, maxDepth: nat, visited: set<Path>, found: seq<Found>,
                          depth: nat) {
    && visited == seeds + Paths(found)
    && Sound(g, seeds, maxDepth, found)
    && (forall i :: 0 <= i < |found| ==> found[i].distance <= depth + 1)
    && Within(g, seeds, depth) <= visited
  }

  ghost predicate Known(queue: Queue, visited: set<Path>) {
    forall i :: 0 <= i < |queue| ==> queue[i].0 in visited
  }

  /** Everything the expansion keeps, also in the middle of a file. */
  ghost predicate State(g: Project, seeds: set<Path>, maxDepth: nat, queue: Queue, visited: set<Path>,
                        found: seq<Found>, depth: nat) {
    && depth <= maxDepth
    && QueueOk(g, seeds, maxDepth, queue, depth) && Known(queue, visited)
    && FoundOk(g, seeds, maxDepth, visited, found, depth)
  }

  lemma PathsSnoc(found: seq<Found>, f: Found)
    ensures Paths(found + [f]) == Paths(found) + {f.path}
  {
    assert (found + [f])[|found|] == f;
    forall p | p in Paths(found) ensures p in Paths(found + [f]) {
      var i :| 0 <= i < |found| && found[i].path == p;
      assert (found + [f])[i].path == p;
    }
  }

  lemma SoundSnoc(g: Project, seeds: set<Path>, maxDepth: nat, found: seq<Found>, f: Found)
    requires Sound(g, seeds, maxDepth, found) && Placed(g, seeds, maxDepth, f) && f.path !in Paths(found)
    requires forall i :: 0 <= i < |found| ==> found[i].distance <= f.distance
    ensures Sound(g, seeds, maxDepth, found + [f])
  {
    forall i | 0 <= i < |found| ensures found[i].path != f.path {
      assert found[i].path in Paths(found);
    }
  }

  lemma QueueSnoc(g: Project, seeds: set<Path>, maxDepth: nat, queue: Queue, depth: nat, q: Path)
    requires QueueOk(g, seeds, maxDepth, queue, depth) && depth < maxDepth && At(g, seeds, q, depth + 1)
    ensures QueueOk(g, seeds, maxDepth, queue + [(q, depth + 1)], depth)
  {
  }

  lemma NewTarget(g: Project, seeds: set<Path>, depth: nat, parent: Path, q: Path)
    requires At(g, seeds, parent, depth) && Edge(g, parent, q) && q !in Within(g, seeds, depth)
    ensures At(g, seeds, q, depth + 1)
  {
    assert q in Targets(g, parent);
  }

  lemma PlaceNew(g: Project, seeds: set<Path>, maxDepth: nat, depth: nat, parent: Path, q: Path)
    requires depth < maxDepth && At(g, seeds, parent, depth) && Edge(g, parent, q) && At(g, seeds, q, depth + 1)
             && q !in seeds
    ensures Placed(g, seeds, maxDepth, Found(q, depth + 1, parent, BASE_PRIORITY + depth))
  {
  }

  lemma FoundSnoc(g: Project, seeds: set<Path>, maxDepth: nat, visited: set<Path>, found: seq<Found>, depth: nat,
                  f: Found)
    requires FoundOk(g, seeds, maxDepth, visited, found, depth) && Placed(g, seeds, maxDepth, f)
    requires f.distance == depth + 1 && f.path !in visited
    ensures FoundOk(g, seeds, maxDepth, visited + {f.path}, found + [f], depth)
  {
    PathsSnoc(found, f);
    SoundSnoc(g, seeds, maxDepth, found, f);
    assert seeds + Paths(found + [f]) == visited + {f.path};
  }

  lemma KnownSnoc(queue: Queue, visited: set<Path>, q: Path, n: nat)
    requires Known(queue, visited)
    ensures Known(queue + [(q, n)], visited + {q})
  {
  }

  lemma Discover(g: Project, seeds: set<Path>, maxDepth: nat, queue: Queue, visited: set<Path>, found: seq<Found>,
                 depth: nat, parent: Path, q: Path)
    requires State(g, seeds, maxDepth, queue, visited, found, depth) && depth < maxDepth
    requires At(g, seeds, parent, depth) && Edge(g, parent, q) && q !in visited
    ensures State(g, seeds, maxDepth, queue + [(q, depth + 1)], visited + {q},
                  found + [Found(q, depth + 1, parent, BASE_PRIORITY + depth)], depth)
  {
    NewTarget(g, seeds, depth, parent, q);
    PlaceNew(g, seeds, maxDepth, depth, parent, q);
    QueueSnoc(g, seeds, maxDepth, queue, depth, q);
    KnownSnoc(queue, visited, q, depth + 1);
    FoundSnoc(g, seeds, maxDepth, visited, found, depth, Found(q, depth + 1, parent, BASE_PRIORITY + depth));
  }

  /** The inner loop over the imports of one file. */
  method TakeImports(g: Project, ghost seeds: set<Path>, maxDepth: nat, maxDependencies: nat,
                     queue0: Queue, visited0: set<Path>, found0: seq<Found>, parent: Path, depth: nat)
    returns (queue: Queue, visited: set<Path>, found: seq<Found>)
    requires State(g, seeds, maxDepth, queue0, visited0, found0, depth) && depth < maxDepth
    requires At(g, seeds, parent, depth) && parent in visited0 && |found0| < maxDependencies
    requires Progress(g, seeds, maxDepth, visited0, queue0, depth, {parent})
    ensures State(g, seeds, maxDepth, queue, visited, found, depth) && |found0| <= |found| <= maxDependencies
    ensures |found| < maxDependencies ==> Progress(g, seeds, maxDepth, visited, queue, depth, {})
    ensures |found| == |found0| ==> queue == queue0
  {
    queue, visited, found := queue0, visited0, found0;
    var imports := g.imports(parent);
    for k := 0 to |imports|
      invariant State(g, seeds, maxDepth, queue, visited, found, depth)
      invariant |found0| <= |found| < maxDependencies
      invariant |found| == |found0| ==> queue == queue0
      invariant Progress(g, seeds, maxDepth, visited, queue, depth, {parent})
      invariant forall i :: 0 <= i < k && g.present(imports[i]) ==> imports[i] in visited
      invariant parent in visited
    {
      var q := imports[k];
      if q in visited {
        continue;
      }
      if !g.present(q) {
        continue;
      }
      Discover(g, seeds, maxDepth, queue, visited, found, depth, parent, q);
      ProgressGrows(g, seeds, maxDepth, visited, queue, depth, parent, q);
      visited := visited + {q};
      found := found + [Found(q, depth + 1, parent, BASE_PRIORITY + depth)];
      queue := queue + [(q, depth + 1)];
      if |found| >= maxDependencies {
        return;
      }
    }
    assert Done(g, seeds, maxDepth, visited, parent);
    forall p: Path ensures Settled(g, seeds, maxDepth, visited, queue, {}, p) {
      assert Settled(g, seeds, maxDepth, visited, queue, {parent}, p);
    }
  }

  lemma QueuedGrows(queue: Queue, e: (Path, nat), p: Path)
    requires Queued(queue, p)
    ensures Queued(queue + [e], p)
  {
    var i :| 0 <= i < |queue| && queue[i].0 == p;
    assert (queue + [e])[i].0 == p;
  }

  lemma QueuedBehind(queue: Queue, p: Path)
    requires queue != [] && Queued(queue, p) && p != queue[0].0
    ensures Queued(queue[1..], p)
  {
    var i :| 0 <= i < |queue| && queue[i].0 == p;
    assert queue[1..][i - 1].0 == p;
  }

  lemma ProgressGrows(g: Project, seeds: set<Path>, maxDepth: nat, visited: set<Path>, queue: Queue, depth: nat,
                      parent: Path, q: Path)
    requires Progress(g, seeds, maxDepth, visited, queue, depth, {parent})
    ensures Progress(g, seeds, maxDepth, visited + {q}, queue + [(q, depth + 1)], depth, {parent})
  {
    var queue' := queue + [(q, depth + 1)];
    assert queue'[|queue|].0 == q;
    forall p: Path ensures Settled(g, seeds, maxDepth, visited + {q}, queue', {parent}, p) {
      if Queued(queue, p) { QueuedGrows(queue, (q, depth + 1), p); }
      assert Settled(g, seeds, maxDepth, visited, queue, {parent}, p);
    }
  }

  /** The expansion promises: distinct new files at their shortest distance, nearest first, all of
      them unless the cap was reached, and then none farther than an omitted one. */
  ghost predicate Expansion(g: Project, seeds: set<Path>, maxDepth: nat, maxDependencies: nat, found: seq<Found>) {
    && Sound(g, seeds, maxDepth, found)
    && |found| <= maxDependencies
    && (|found| < maxDependencies ==> Paths(found) == Within(g, seeds, maxDepth) - seeds)
    && NearestFirst(g, seeds, maxDepth, found)
  }

  lemma StateIsNearest(g: Project, seeds: set<Path>, maxDepth: nat, queue: Queue, visited: set<Path>,
                       found: seq<Found>, depth: nat)
    requires State(g, seeds, maxDepth, queue, visited, found, depth)
    ensures NearestFirst(g, seeds, maxDepth, found)
  {
    forall q, d: nat, i | d <= maxDepth && At(g, seeds, q, d) && q !in seeds && q !in Paths(found) && 0 <= i < |found|
      ensures found[i].distance <= d
    {
      if d <= depth { WithinMonotone(g, seeds, d, depth); }
    }
  }

  lemma FoundIsWithin(g: Project, seeds: set<Path>, maxDepth: nat, found: seq<Found>)
    requires Sound(g, seeds, maxDepth, found)
    ensures Paths(found) <= Within(g, seeds, maxDepth) - seeds
  {
    forall p | p in Paths(found) ensures p in Within(g, seeds, maxDepth) - seeds {
      var i :| 0 <= i < |found| && found[i].path == p;
      assert Placed(g, seeds, maxDepth, found[i]);
      WithinMonotone(g, seeds, found[i].distance, maxDepth);
    }
  }

  function SetOf(ps: seq<Path>): set<Path> {
    set p | p in ps
  }

  lemma Advance(g: Project, seeds: set<Path>, maxDepth: nat, queue: Queue, visited: set<Path>, found: seq<Found>,
                depth: nat)
    requires State(g, seeds, maxDepth, queue, visited, found, depth) && queue != [] && queue[0].1 != depth
    requires Progress(g, seeds, maxDepth, visited, queue, depth, {})
    ensures State(g, seeds, maxDepth, queue, visited, found, depth + 1)
    ensures Progress(g, seeds, maxDepth, visited, queue, depth + 1, {})
  {
    NextDepth(g, seeds, maxDepth, visited, queue, depth);
  }

  lemma First(g: Project, seeds: set<Path>, maxDepth: nat, queue: Queue, visited: set<Path>, found: seq<Found>,
              depth: nat)
    requires State(g, seeds, maxDepth, queue, visited, found, depth) && queue != []
    ensures queue[0].0 in visited && At(g, seeds, queue[0].0, queue[0].1)
    ensures depth <= queue[0].1 <= depth + 1 && queue[0].1 <= maxDepth
  {
  }

  /** The first file of the queue. */
  method ExpandFirst(g: Project, ghost seeds: set<Path>, maxDepth: nat, maxDependencies: nat,
                     queue0: Queue, visited0: set<Path>, found0: seq<Found>, ghost depth: nat)
    returns (queue: Queue, visited: set<Path>, found: seq<Found>)
    requires State(g, seeds, maxDepth, queue0, visited0, found0, depth) && queue0 != [] && |found0| < maxDependencies
    requires Progress(g, seeds, maxDepth, visited0, queue0, depth, {}) && queue0[0].1 == depth
    ensures State(g, seeds, maxDepth, queue, visited, found, depth) && |found0| <= |found| <= maxDependencies
    ensures |found| < maxDependencies ==> Progress(g, seeds, maxDepth, visited, queue, depth, {})
    ensures |found| == |found0| ==> |queue| < |queue0|
  {
    First(g, seeds, maxDepth, queue0, visited0, found0, depth);
    var parent, d := queue0[0].0, queue0[0].1;
    Pop(g, seeds, maxDepth, queue0, visited0, found0, depth);
    PopProgress(g, seeds, maxDepth, visited0, queue0, depth);
    queue, visited, found := queue0[1..], visited0, found0;
    if d >= maxDepth {
      assert d == maxDepth;
      return;
    }
    queue, visited, found := TakeImports(g, seeds, maxDepth, maxDependencies, queue, visited, found, parent, d);
  }

  /** _expand_python_dependencies */
  method Expand(g: Project, initial: seq<Path>, maxDepth: nat, maxDependencies: nat) returns (found: seq<Found>)
    ensures Expansion(g, SetOf(initial), maxDepth, maxDependencies, found)
  {
    ghost var seeds := SetOf(initial);
    found := [];
    if maxDepth == 0 || maxDependencies == 0 {
      return;
    }
    var queue: Queue := seq(|initial|, i requires 0 <= i < |initial| => (initial[i], 0));
    var visited := SetOf(initial);
    ghost var depth: nat := 0;
    Start(g, initial, maxDepth, queue);
    while queue != [] && |found| < maxDependencies
      invariant State(g, seeds, maxDepth, queue, visited, found, depth)
      invariant |found| <= maxDependencies
      invariant |found| < maxDependencies ==> Progress(g, seeds, maxDepth, visited, queue, depth, {})
      decreases maxDependencies - |found|, |queue|
    {
      First(g, seeds, maxDepth, queue, visited, found, depth);
      if queue[0].1 != depth {
        Advance(g, seeds, maxDepth, queue, visited, found, depth);
        depth := depth + 1;
      }
      queue, visited, found := ExpandFirst(g, seeds, maxDepth, maxDependencies, queue, visited, found, depth);
    }
    StateIsNearest(g, seeds, maxDepth, queue, visited, found, depth);
    FoundIsWithin(g, seeds, maxDepth, found);
    if |found| < maxDependencies {
      EmptyQueueIsComplete(g, seeds, maxDepth, visited, depth);
    }
  }

  lemma PopQueue(g: Project, seeds: set<Path>, maxDepth: nat, queue: Queue, depth: nat)
    requires queue != [] && QueueOk(g, seeds, maxDepth, queue, depth)
    ensures QueueOk(g, seeds, maxDepth, queue[1..], depth)
  {
  }

  lemma PopProgress(g: Project, seeds: set<Path>, maxDepth: nat, visited: set<Path>, queue: Queue, depth: nat)
    requires queue != [] && Progress(g, seeds, maxDepth, visited, queue, depth, {})
    ensures Progress(g, seeds, maxDepth, visited, queue[1..], depth, {queue[0].0})
    ensures At(g, seeds, queue[0].0, maxDepth) ==> Progress(g, seeds, maxDepth, visited, queue[1..], depth, {})
  {
    forall p: Path
      ensures Settled(g, seeds, maxDepth, visited, queue[1..], {queue[0].0}, p)
      ensures At(g, seeds, queue[0].0, maxDepth) ==> Settled(g, seeds, maxDepth, visited, queue[1..], {}, p)
    {
      if Queued(queue, p) && p != queue[0].0 { QueuedBehind(queue, p); }
      assert Settled(g, seeds, maxDepth, visited, queue, {}, p);
    }
  }

  lemma Pop(g: Project, seeds: set<Path>, maxDepth: nat, queue: Queue, visited: set<Path>, found: seq<Found>,
            depth: nat)
    requires State(g, seeds, maxDepth, queue, visited, found, depth) && queue != []
    ensures State(g, seeds, maxDepth, queue[1..], visited, found, depth)
  {
    PopQueue(g, seeds, maxDepth, queue, depth);
  }

  lemma Start(g: Project, initial: seq<Path>, maxDepth: nat, queue: Queue)
    requires |queue| == |initial| && forall i :: 0 <= i < |initial| ==> queue[i] == (initial[i], 0)
    ensures State(g, SetOf(initial), maxDepth, queue, SetOf(initial), [], 0)
    ensures Progress(g, SetOf(initial), maxDepth, SetOf(initial), queue, 0, {})
  {
    assert Paths([]) == {};
    forall p | p in SetOf(initial) ensures Queued(queue, p) {
      var i :| 0 <= i < |initial| && initial[i] == p;
      assert queue[i].0 == p;
    }
  }
}
