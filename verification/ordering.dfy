/** Code-point order of strings, and sorting by a total order. */
module Ordering {
  predicate StringLeq(a: string, b: string) {
    if a == "" then true
    else if b == "" then false
    else if a[0] != b[0] then a[0] < b[0]
    else StringLeq(a[1..], b[1..])
  }

  lemma StringLeqTotal(a: string, b: string)
    ensures StringLeq(a, b) || StringLeq(b, a)
  {
  }

  /** What the order means: one is a prefix of the other, or the first difference decides. */
  lemma {:induction false} StringLeqIsLexicographic(a: string, b: string)
    ensures StringLeq(a, b) <==>
              a <= b || exists k :: 0 <= k < |a| && k < |b| && a[..k] == b[..k] && a[k] < b[k]
  {
    if a != "" && b != "" {
      var p, q := a[1..], b[1..];
      assert a == [a[0]] + p && b == [b[0]] + q;
      if a[0] != b[0] {
        assert a[..0] == b[..0];
        forall k | 0 < k <= |a| && k <= |b| ensures a[..k] != b[..k] {
          assert a[..k][0] != b[..k][0];
        }
      } else {
        StringLeqIsLexicographic(p, q);
        if k :| 0 <= k < |p| && k < |q| && p[..k] == q[..k] && p[k] < q[k] {
          assert a[..k + 1] == [a[0]] + p[..k] && b[..k + 1] == [b[0]] + q[..k];
          assert a[k + 1] < b[k + 1];
        }
        if k :| 0 <= k < |a| && k < |b| && a[..k] == b[..k] && a[k] < b[k] {
          assert k > 0 && p[..k - 1] == a[..k][1..] && q[..k - 1] == b[..k][1..];
          assert p[k - 1] < q[k - 1];
        }
      }
    }
  }

  lemma {:induction false} StringLeqTransitive(a: string, b: string, c: string)
    requires StringLeq(a, b) && StringLeq(b, c)
    ensures StringLeq(a, c)
    decreases |a|
  {
    if a != "" && a[0] == b[0] && b[0] == c[0] {
      StringLeqTransitive(a[1..], b[1..], c[1..]);
    }
  }

  lemma {:induction false} StringLeqAntisymmetric(a: string, b: string)
    requires StringLeq(a, b) && StringLeq(b, a)
    ensures a == b
    decreases |a|
  {
    if a != "" {
      StringLeqAntisymmetric(a[1..], b[1..]);
      assert a == [a[0]] + a[1..] && b == [b[0]] + b[1..];
    }
  }

  ghost predicate TotalOrder<T(!new)>(leq: (T, T) -> bool) {
    && (forall a, b :: leq(a, b) || leq(b, a))
    && (forall a, b, c :: leq(a, b) && leq(b, c) ==> leq(a, c))
  }

  ghost predicate Ordered<T>(leq: (T, T) -> bool, xs: seq<T>) {
    forall i, j :: 0 <= i < j < |xs| ==> leq(xs[i], xs[j])
  }

  function Insert<T>(leq: (T, T) -> bool, x: T, xs: seq<T>): seq<T> {
    if xs == [] then [x]
    else if leq(x, xs[0]) then [x] + xs
    else [xs[0]] + Insert(leq, x, xs[1..])
  }

  function Sort<T>(leq: (T, T) -> bool, xs: seq<T>): seq<T> {
    if xs == [] then [] else Insert(leq, xs[0], Sort(leq, xs[1..]))
  }

  lemma {:induction false} InsertKeepsElements<T(!new)>(leq: (T, T) -> bool, x: T, xs: seq<T>)
    ensures multiset(Insert(leq, x, xs)) == multiset{x} + multiset(xs) && |Insert(leq, x, xs)| == |xs| + 1
  {
    if xs != [] {
      assert xs == [xs[0]] + xs[1..];
      if !leq(x, xs[0]) { InsertKeepsElements(leq, x, xs[1..]); }
    }
  }

  lemma OrderedCons<T(!new)>(leq: (T, T) -> bool, x: T, xs: seq<T>)
    requires Ordered(leq, xs) && forall i :: 0 <= i < |xs| ==> leq(x, xs[i])
    ensures Ordered(leq, [x] + xs)
  {
  }

  lemma {:induction false} InsertKeepsOrder<T(!new)>(leq: (T, T) -> bool, x: T, xs: seq<T>)
    requires TotalOrder(leq) && Ordered(leq, xs)
    ensures Ordered(leq, Insert(leq, x, xs))
  {
    if xs != [] {
      if leq(x, xs[0]) {
        forall i | 0 <= i < |xs| ensures leq(x, xs[i]) {
          if i > 0 { assert leq(xs[0], xs[i]); }
        }
        OrderedCons(leq, x, xs);
      } else {
        InsertKeepsOrder(leq, x, xs[1..]);
        InsertKeepsElements(leq, x, xs[1..]);
        var rest := Insert(leq, x, xs[1..]);
        forall i | 0 <= i < |rest| ensures leq(xs[0], rest[i]) {
          assert rest[i] in multiset(rest);
          assert rest[i] == x || rest[i] in xs[1..];
        }
        OrderedCons(leq, xs[0], rest);
      }
    }
  }

  /** The sorted sequence is ordered and holds the same elements. */
  lemma {:induction false} SortCorrect<T(!new)>(leq: (T, T) -> bool, xs: seq<T>)
    requires TotalOrder(leq)
    ensures Ordered(leq, Sort(leq, xs)) && multiset(Sort(leq, xs)) == multiset(xs)
    ensures |Sort(leq, xs)| == |xs|
  {
    if xs != [] {
      SortCorrect(leq, xs[1..]);
      InsertKeepsOrder(leq, xs[0], Sort(leq, xs[1..]));
      InsertKeepsElements(leq, xs[0], Sort(leq, xs[1..]));
      assert xs == [xs[0]] + xs[1..];
    }
  }
}
