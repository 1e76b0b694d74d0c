/** Sequence operations shared by the pages: `Array.prototype.filter`, `find`,
    the index-dropping filter, sums by `reduce`, and the sublist relation. */
module Seqs {
  import opened Wrappers

  /** `s.filter(p)`: the elements of `s` satisfying `p`, in their original order. */
  function Filter<T>(s: seq<T>, p: T -> bool): (r: seq<T>)
    ensures |r| <= |s|
    ensures forall i :: 0 <= i < |r| ==> r[i] in s && p(r[i])
    ensures forall i :: 0 <= i < |s| && p(s[i]) ==> s[i] in r
  {
    if s == [] then []
    else (if p(s[0]) then [s[0]] else []) + Filter(s[1..], p)
  }

  /** The filter keeps every copy of a value satisfying `p` and no copy of any other:
      repeated entries keep their multiplicity. */
  lemma {:induction false} FilterMultiset<T>(s: seq<T>, p: T -> bool)
    ensures forall x :: multiset(Filter(s, p))[x] == if p(x) then multiset(s)[x] else 0
  {
    if s != [] {
      FilterMultiset(s[1..], p);
      assert s == [s[0]] + s[1..];
    }
  }

  /** `a` is obtained from `b` by deleting elements, keeping the order of the rest. */
  predicate IsSublist<T(==)>(a: seq<T>, b: seq<T>)
    decreases |b|
  {
    if a == [] then true
    else if b == [] then false
    else if a[0] == b[0] then IsSublist(a[1..], b[1..])
    else IsSublist(a, b[1..])
  }

  lemma {:induction false} SublistOfTail<T>(a: seq<T>, b: seq<T>)
    requires b != [] && IsSublist(a, b[1..])
    ensures IsSublist(a, b)
    decreases |b|, 0
  {
    if a != [] && a[0] == b[0] {
      SublistDropHead(a, b[1..]);
    }
  }

  lemma {:induction false} SublistDropHead<T>(a: seq<T>, b: seq<T>)
    requires a != [] && IsSublist(a, b)
    ensures IsSublist(a[1..], b)
    decreases |b|, 1
  {
    if a[0] == b[0] {
      if a[1..] != [] { SublistOfTail(a[1..], b); }
    } else {
      SublistDropHead(a, b[1..]);
      if a[1..] != [] { SublistOfTail(a[1..], b); }
    }
  }

  /** Filtering keeps an order-preserving sublist. */
  lemma {:induction false} FilterIsSublist<T>(s: seq<T>, p: T -> bool)
    ensures IsSublist(Filter(s, p), s)
  {
    if s != [] {
      FilterIsSublist(s[1..], p);
      if p(s[0]) {
        assert Filter(s, p) == [s[0]] + Filter(s[1..], p);
        assert Filter(s, p)[1..] == Filter(s[1..], p);
      } else {
        assert Filter(s, p) == Filter(s[1..], p);
        if Filter(s, p) != [] { SublistOfTail(Filter(s, p), s); }
      }
    }
  }

  /** A filter that every element passes keeps the whole sequence. */
  lemma {:induction false} FilterAll<T>(s: seq<T>, p: T -> bool)
    requires forall i :: 0 <= i < |s| ==> p(s[i])
    ensures Filter(s, p) == s
  {
    if s != [] {
      FilterAll(s[1..], p);
    }
  }

  lemma {:induction false} FilterAppend<T>(s: seq<T>, x: T, p: T -> bool)
    ensures Filter(s + [x], p) == Filter(s, p) + (if p(x) then [x] else [])
  {
    if s == [] {
      assert [x][1..] == [];
    } else {
      assert (s + [x])[1..] == s[1..] + [x];
      FilterAppend(s[1..], x, p);
    }
  }

  predicate Distinct<T(==)>(s: seq<T>)
  {
    forall i, j :: 0 <= i < j < |s| ==> s[i] != s[j]
  }

  /** Filtering a list without repetitions gives a list without repetitions. */
  lemma {:induction false} FilterDistinct<T>(s: seq<T>, p: T -> bool)
    requires Distinct(s)
    ensures Distinct(Filter(s, p))
  {
    if s != [] {
      FilterDistinct(s[1..], p);
      var t := Filter(s[1..], p);
      assert s[0] !in s[1..];
      assert s[0] !in t;
      var r := (if p(s[0]) then [s[0]] else []) + t;
      forall i, j | 0 <= i < j < |r|
        ensures r[i] != r[j]
      {
        if p(s[0]) && i == 0 {
          assert r[j] == t[j - 1];
        }
      }
    }
  }

  lemma {:induction false} FilterNone<T>(s: seq<T>, p: T -> bool)
    requires forall i :: 0 <= i < |s| ==> !p(s[i])
    ensures Filter(s, p) == []
  {
    if s != [] { FilterNone(s[1..], p); }
  }

  /** Filtering keeps the length exactly when every element satisfies `p`. */
  lemma {:induction false} FilterKeepsLength<T>(s: seq<T>, p: T -> bool)
    ensures |Filter(s, p)| == |s| <==> forall i :: 0 <= i < |s| ==> p(s[i])
  {
    if s != [] {
      FilterKeepsLength(s[1..], p);
      if forall i :: 0 <= i < |s| ==> p(s[i]) {
        assert forall i :: 0 <= i < |s[1..]| ==> p(s[1..][i]) by {
          forall i | 0 <= i < |s[1..]| ensures p(s[1..][i]) { assert s[1..][i] == s[i + 1]; }
        }
      } else if p(s[0]) {
        var k :| 0 <= k < |s| && !p(s[k]);
        assert s[1..][k - 1] == s[k];
      }
    }
  }

  /** Where in `s` the `i`-th element of `Filter(s, p)` sits, or -1 when there is none. */
  function FilterIndex<T>(s: seq<T>, p: T -> bool, i: int): int
  {
    if s == [] then -1
    else if p(s[0]) && i == 0 then 0
    else
      var j := FilterIndex(s[1..], p, if p(s[0]) then i - 1 else i);
      if j < 0 then -1 else j + 1
  }

  /** The position found holds exactly the `i`-th kept element; -1 means `i` is not an
      index of the filtered list. */
  lemma {:induction false} FilterIndexSpec<T>(s: seq<T>, p: T -> bool, i: int)
    ensures 0 <= i < |Filter(s, p)| ==>
              0 <= FilterIndex(s, p, i) < |s| && s[FilterIndex(s, p, i)] == Filter(s, p)[i]
    ensures !(0 <= i < |Filter(s, p)|) ==> FilterIndex(s, p, i) == -1
  {
    if s != [] {
      var i' := if p(s[0]) then i - 1 else i;
      FilterIndexSpec(s[1..], p, i');
      var ft := Filter(s[1..], p);
      assert Filter(s, p) == (if p(s[0]) then [s[0]] else []) + ft;
      if p(s[0]) && 0 < i <= |ft| {
        assert Filter(s, p)[i] == ft[i - 1];
      } else if !p(s[0]) && 0 <= i < |ft| {
        assert Filter(s, p)[i] == ft[i];
      }
    }
  }

  lemma FilterCons<T>(x: T, t: seq<T>, p: T -> bool)
    ensures Filter([x] + t, p) == (if p(x) then [x] else []) + Filter(t, p)
  {
    assert ([x] + t)[0] == x && ([x] + t)[1..] == t;
  }

  lemma DropIndexCons<T>(x: T, t: seq<T>, k: int)
    requires k != 0
    ensures DropIndex([x] + t, k) == [x] + DropIndex(t, k - 1)
  {
    assert ([x] + t)[0] == x && ([x] + t)[1..] == t;
  }

  /** The first kept element sits first: dropping it from `s` drops it from the
      filtered list. */
  lemma FilterDropHead<T>(s: seq<T>, p: T -> bool)
    requires s != [] && p(s[0])
    ensures Filter(DropIndex(s, 0), p) == DropIndex(Filter(s, p), 0)
  {
    var t := s[1..];
    var ft := Filter(t, p);
    DropIndexSpec(t, -1);
    DropIndexSpec(ft, -1);
    assert DropIndex(s, 0) == t;
    assert Filter(s, p) == [s[0]] + ft;
    assert ([s[0]] + ft)[1..] == ft;
  }

  /** A position found in the tail: the head stays on both sides. */
  lemma FilterDropTail<T>(s: seq<T>, p: T -> bool, i: int, j: int)
    requires s != [] && 0 <= j && !(p(s[0]) && i == 0)
    requires Filter(DropIndex(s[1..], j), p) == DropIndex(Filter(s[1..], p), if p(s[0]) then i - 1 else i)
    ensures Filter(DropIndex(s, j + 1), p) == DropIndex(Filter(s, p), i)
  {
    var t := s[1..];
    var ft := Filter(t, p);
    var d := DropIndex(t, j);
    assert DropIndex(s, j + 1) == [s[0]] + d;
    FilterCons(s[0], d, p);
    if p(s[0]) {
      assert Filter(s, p) == [s[0]] + ft;
      DropIndexCons(s[0], ft, i);
    } else {
      assert Filter(s, p) == ft;
    }
  }

  /** Dropping the position of the `i`-th kept element from `s` drops exactly the
      `i`-th element of the filtered list. */
  lemma {:induction false} FilterDropIndex<T>(s: seq<T>, p: T -> bool, i: int)
    ensures Filter(DropIndex(s, FilterIndex(s, p, i)), p) == DropIndex(Filter(s, p), i)
  {
    var k := FilterIndex(s, p, i);
    if k < 0 {
      FilterIndexSpec(s, p, i);
      DropIndexSpec(s, k);
      DropIndexSpec(Filter(s, p), i);
    } else if p(s[0]) && i == 0 {
      FilterDropHead(s, p);
    } else {
      var i' := if p(s[0]) then i - 1 else i;
      FilterDropIndex(s[1..], p, i');
      FilterDropTail(s, p, i, FilterIndex(s[1..], p, i'));
    }
  }

  /** `s.map(f)`. */
  function Map<A, B>(f: A -> B, s: seq<A>): (r: seq<B>)
    ensures |r| == |s|
    ensures forall i :: 0 <= i < |s| ==> r[i] == f(s[i])
  {
    if s == [] then [] else Map(f, s[..|s| - 1]) + [f(s[|s| - 1])]
  }

  lemma MapPush<A, B>(f: A -> B, s: seq<A>, x: A)
    ensures Map(f, s + [x]) == Map(f, s) + [f(x)]
  {
    assert (s + [x])[..|s|] == s;
  }

  /** `s.find(p)`: the first element satisfying `p`, if any. */
  function Find<T>(s: seq<T>, p: T -> bool): (r: Option<T>)
    ensures r.None? <==> forall i :: 0 <= i < |s| ==> !p(s[i])
    ensures r.Some? ==> (exists i :: 0 <= i < |s| && s[i] == r.value && p(s[i])
                                     && forall j :: 0 <= j < i ==> !p(s[j]))
  {
    if s == [] then None
    else if p(s[0]) then Some(s[0])
    else
      var r := Find(s[1..], p);
      assert r.Some? ==> (exists i :: 0 <= i < |s| - 1 && s[1..][i] == r.value && p(s[1..][i])
                                       && forall j :: 0 <= j < i ==> !p(s[1..][j]));
      r
  }

  /** `s.filter((_, j) => j !== i)`: every element whose index is not `i`. */
  function DropIndex<T>(s: seq<T>, i: int): (r: seq<T>)
    ensures |r| == if 0 <= i < |s| then |s| - 1 else |s|
  {
    if s == [] then []
    else (if i == 0 then [] else [s[0]]) + DropIndex(s[1..], i - 1)
  }

  /** Dropping index `i` removes exactly that element and keeps the rest in order;
      an index outside the sequence changes nothing. */
  lemma {:induction false} DropIndexSpec<T>(s: seq<T>, i: int)
    ensures DropIndex(s, i) == if 0 <= i < |s| then s[..i] + s[i + 1..] else s
  {
    if s != [] {
      DropIndexSpec(s[1..], i - 1);
      if 0 < i < |s| {
        assert s[1..][..i - 1] == s[1..i];
        assert s[1..][i..] == s[i + 1..];
        assert [s[0]] + s[1..i] == s[..i];
      } else if i != 0 {
        assert [s[0]] + s[1..] == s;
      }
    }
  }

  /** `xs.reduce((acc, x) => acc + x, 0)`: folded from the left, so defined on the last element. */
  function Sum(xs: seq<real>): real
  {
    if xs == [] then 0.0 else Sum(xs[..|xs| - 1]) + xs[|xs| - 1]
  }

  function SumInt(xs: seq<int>): int
  {
    if xs == [] then 0 else SumInt(xs[..|xs| - 1]) + xs[|xs| - 1]
  }

  lemma SumAppend(xs: seq<real>, x: real)
    ensures Sum(xs + [x]) == Sum(xs) + x
  {
    assert (xs + [x])[..|xs|] == xs;
  }

  lemma SumIntAppend(xs: seq<int>, x: int)
    ensures SumInt(xs + [x]) == SumInt(xs) + x
  {
    assert (xs + [x])[..|xs|] == xs;
  }

  /** Adding `d` to one entry adds `d` to the sum. */
  lemma {:induction false} SumAdd(xs: seq<real>, j: int, d: real)
    requires 0 <= j < |xs|
    ensures Sum(xs[j := xs[j] + d]) == Sum(xs) + d
    decreases |xs|
  {
    var n := |xs| - 1;
    var ys := xs[j := xs[j] + d];
    assert ys[..n] == if j < n then xs[..n][j := xs[j] + d] else xs[..n];
    if j < n { SumAdd(xs[..n], j, d); }
  }

  lemma {:induction false} SumIntAdd(xs: seq<int>, j: int, d: int)
    requires 0 <= j < |xs|
    ensures SumInt(xs[j := xs[j] + d]) == SumInt(xs) + d
    decreases |xs|
  {
    var n := |xs| - 1;
    var ys := xs[j := xs[j] + d];
    assert ys[..n] == if j < n then xs[..n][j := xs[j] + d] else xs[..n];
    if j < n { SumIntAdd(xs[..n], j, d); }
  }

  /** A sum of non-negative terms is non-negative. */
  lemma {:induction false} SumNonNegative(xs: seq<real>)
    requires forall i :: 0 <= i < |xs| ==> xs[i] >= 0.0
    ensures Sum(xs) >= 0.0
  {
    if xs != [] { SumNonNegative(xs[..|xs| - 1]); }
  }
}
