// Array operations of JavaScript (filter, indexOf, slice, reverse, Set
// insertion order) over Dafny sequences, with the facts the rest of the
// model relies on.
module Seqs {
  /** `s.filter(p)`: the elements satisfying `p`, in their order. */
  function Filter<T(!new)>(s: seq<T>, p: T -> bool): (r: seq<T>)
    ensures |r| <= |s|
    ensures forall x :: x in r <==> x in s && p(x)
    ensures forall i :: 0 <= i < |r| ==> p(r[i])
    decreases |s|
  {
    if s == [] then []
    else Filter(s[..|s| - 1], p) + (if p(s[|s| - 1]) then [s[|s| - 1]] else [])
  }

  /** Number of occurrences of `x` in `s`. */
  function Count<T(==)>(s: seq<T>, x: T): (n: nat)
    ensures n <= |s|
    ensures n == 0 <==> x !in s
    decreases |s|
  {
    if s == [] then 0
    else Count(s[..|s| - 1], x) + (if s[|s| - 1] == x then 1 else 0)
  }

  /** `s.indexOf(x)`: the first index holding `x`, or -1. */
  function IndexOf<T(==)>(s: seq<T>, x: T): (r: int)
    ensures -1 <= r < |s|
    ensures r < 0 <==> x !in s
    ensures r >= 0 ==> s[r] == x && forall j :: 0 <= j < r ==> s[j] != x
    decreases |s|
  {
    if s == [] then -1
    else if s[0] == x then 0
    else
      var k := IndexOf(s[1..], x);
      if k < 0 then -1 else k + 1
  }

  predicate Distinct<T(==)>(s: seq<T>)
  {
    forall i, j :: 0 <= i < j < |s| ==> s[i] != s[j]
  }

  /** Add `x` to an insertion-ordered set (a JavaScript `Set.add`). */
  function Add<T(==)>(acc: seq<T>, x: T): seq<T>
  {
    if x in acc then acc else acc + [x]
  }

  /** The distinct elements of `s` in order of first occurrence, the order a
      JavaScript `Set` or `Map` built from `s` iterates in. */
  function Dedup<T(==,!new)>(s: seq<T>): (r: seq<T>)
    ensures forall x :: x in r <==> x in s
    ensures Distinct(r)
    ensures |r| <= |s|
    decreases |s|
  {
    if s == [] then [] else Add(Dedup(s[..|s| - 1]), s[|s| - 1])
  }

  /** `s.slice(0, n)`. */
  function Take<T>(s: seq<T>, n: nat): (r: seq<T>)
    ensures |r| == if n < |s| then n else |s|
    ensures forall i :: 0 <= i < |r| ==> r[i] == s[i]
  {
    if n < |s| then s[..n] else s
  }

  /** `[...s].reverse()`. */
  function Reverse<T>(s: seq<T>): (r: seq<T>)
    ensures |r| == |s|
    ensures forall i :: 0 <= i < |s| ==> r[i] == s[|s| - 1 - i]
    decreases |s|
  {
    if s == [] then [] else [s[|s| - 1]] + Reverse(s[..|s| - 1])
  }

  /** A duplicate-free sequence is its own `Dedup`. */
  lemma {:induction false} DedupDistinct<T(!new)>(s: seq<T>)
    requires Distinct(s)
    ensures Dedup(s) == s
    decreases |s|
  {
    if s != [] {
      var init := s[..|s| - 1];
      assert Distinct(init);
      DedupDistinct(init);
      assert s[|s| - 1] !in init;
      assert init + [s[|s| - 1]] == s;
    }
  }

  lemma {:induction false} FilterPreservesDistinct<T(!new)>(s: seq<T>, p: T -> bool)
    requires Distinct(s)
    ensures Distinct(Filter(s, p))
    decreases |s|
  {
    if s != [] {
      var init := s[..|s| - 1];
      assert Distinct(init);
      FilterPreservesDistinct(init, p);
      assert s[|s| - 1] !in init;
    }
  }

  /** Two filters that agree on the elements give the same result. */
  lemma {:induction false} FilterExt<T(!new)>(s: seq<T>, p: T -> bool, q: T -> bool)
    requires forall i :: 0 <= i < |s| ==> p(s[i]) == q(s[i])
    ensures Filter(s, p) == Filter(s, q)
    decreases |s|
  {
    if s != [] {
      FilterExt(s[..|s| - 1], p, q);
    }
  }

  /** A filter and its complement split the elements between them. */
  lemma {:induction false} FilterComplementLength<T(!new)>(s: seq<T>, p: T -> bool, q: T -> bool)
    requires forall i :: 0 <= i < |s| ==> q(s[i]) == !p(s[i])
    ensures |Filter(s, p)| + |Filter(s, q)| == |s|
    decreases |s|
  {
    if s != [] {
      FilterComplementLength(s[..|s| - 1], p, q);
    }
  }

  /** Extending `s` does not move the first occurrence of its elements. */
  lemma IndexOfSnoc<T>(s: seq<T>, x: T, y: T)
    ensures IndexOf(s + [x], y) == if y in s then IndexOf(s, y) else if y == x then |s| else -1
  {
    var i := IndexOf(s + [x], y);
    if y in s {
      var k := IndexOf(s, y);
      assert (s + [x])[k] == y;
    } else if y == x {
      assert (s + [x])[|s|] == y;
    }
  }

  /** `Dedup` lists the elements in order of their first occurrence. */
  lemma {:induction false} DedupOrder<T(!new)>(s: seq<T>)
    ensures forall i, j :: 0 <= i < j < |Dedup(s)| ==> IndexOf(s, Dedup(s)[i]) < IndexOf(s, Dedup(s)[j])
    decreases |s|
  {
    if s != [] {
      var init, x := s[..|s| - 1], s[|s| - 1];
      assert s == init + [x];
      DedupOrder(init);
      var d := Dedup(init);
      forall y | y in d
        ensures IndexOf(s, y) == IndexOf(init, y) < |init|
      {
        IndexOfSnoc(init, x, y);
      }
      IndexOfSnoc(init, x, x);
    }
  }

  /** `s.map(x => sel(x) ? f(x) : x)`. */
  function MapWhere<T>(s: seq<T>, sel: T -> bool, f: T -> T): (r: seq<T>)
    ensures |r| == |s|
    ensures forall i :: 0 <= i < |s| ==> r[i] == if sel(s[i]) then f(s[i]) else s[i]
    decreases |s|
  {
    if s == [] then []
    else
      var last := s[|s| - 1];
      MapWhere(s[..|s| - 1], sel, f) + [if sel(last) then f(last) else last]
  }

  /** Filtering out the one position `k` that fails `p` is deleting `k`. */
  lemma {:induction false} FilterDropsOne<T(!new)>(s: seq<T>, p: T -> bool, k: nat)
    requires k < |s|
    requires forall i :: 0 <= i < |s| ==> (p(s[i]) <==> i != k)
    ensures Filter(s, p) == s[..k] + s[k + 1..]
    decreases |s|
  {
    var init, last := s[..|s| - 1], s[|s| - 1];
    assert forall i :: 0 <= i < |init| ==> init[i] == s[i];
    if k == |s| - 1 {
      assert Filter(s, p) == Filter(init, p);
      assert Filter(init, p) == init by {
        FilterAll(init, p);
      }
      assert s[k + 1..] == [];
    } else {
      assert Filter(s, p) == Filter(init, p) + [last];
      assert Filter(init, p) == s[..k] + init[k + 1..] by {
        FilterDropsOne(init, p, k);
        assert init[..k] == s[..k];
      }
      SliceSnoc(s, k + 1);
      Assoc(s[..k], init[k + 1..], [last]);
    }
  }

  lemma Unsnoc<T>(s: seq<T>)
    requires s != []
    ensures s[..|s| - 1] + [s[|s| - 1]] == s
  {
  }

  /** A suffix of `s` ends in the last element of `s`. */
  lemma SliceSnoc<T>(s: seq<T>, i: nat)
    requires i < |s|
    ensures s[i..] == s[..|s| - 1][i..] + [s[|s| - 1]]
  {
  }

  /** Filtering with a predicate every element satisfies changes nothing. */
  lemma {:induction false} FilterAll<T(!new)>(s: seq<T>, p: T -> bool)
    requires forall i :: 0 <= i < |s| ==> p(s[i])
    ensures Filter(s, p) == s
    decreases |s|
  {
    if s != [] {
      var init, last := s[..|s| - 1], s[|s| - 1];
      assert forall i :: 0 <= i < |init| ==> init[i] == s[i];
      FilterAll(init, p);
      assert Filter(s, p) == init + [last];
      Unsnoc(s);
    }
  }

  /** Dedup of a sequence extended by one element. */
  lemma DedupSnoc<T(!new)>(s: seq<T>, x: T)
    ensures Dedup(s + [x]) == Add(Dedup(s), x)
  {
    assert (s + [x])[..|s + [x]| - 1] == s;
  }

  /** Filter of a sequence extended by one element. */
  lemma FilterSnoc<T(!new)>(s: seq<T>, x: T, p: T -> bool)
    ensures Filter(s + [x], p) == Filter(s, p) + if p(x) then [x] else []
  {
    assert (s + [x])[..|s + [x]| - 1] == s;
  }

  /** Count of a sequence extended by one element. */
  lemma CountSnoc<T>(s: seq<T>, x: T, y: T)
    ensures Count(s + [x], y) == Count(s, y) + if x == y then 1 else 0
  {
    assert (s + [x])[..|s + [x]| - 1] == s;
  }

  /** A position of an element of `s`. */
  lemma Position<T>(s: seq<T>, x: T) returns (p: nat)
    requires x in s
    ensures p < |s| && s[p] == x
  {
    p :| 0 <= p < |s| && s[p] == x;
  }

  /** Count of every element in a sequence extended by one element. */
  lemma CountSnocAll<T>(s: seq<T>, x: T)
    ensures forall y :: Count(s + [x], y) == Count(s, y) + if x == y then 1 else 0
  {
    forall y ensures Count(s + [x], y) == Count(s, y) + if x == y then 1 else 0 {
      CountSnoc(s, x, y);
    }
  }

  /** `s.filter((x, i, self) => p(x) && self.indexOf(x) === i)` over the
      first `n` positions of `s`. */
  function FirstOccurrences<T(==)>(s: seq<T>, p: T -> bool, n: nat): (r: seq<T>)
    requires n <= |s|
    decreases n
  {
    if n == 0 then []
    else FirstOccurrences(s, p, n - 1) + (if p(s[n - 1]) && IndexOf(s, s[n - 1]) == n - 1 then [s[n - 1]] else [])
  }

  /** Position `n - 1` is the first occurrence of its element exactly when
      the element does not occur earlier. */
  lemma FirstIndexIff<T>(s: seq<T>, n: nat)
    requires 0 < n <= |s|
    ensures IndexOf(s, s[n - 1]) == n - 1 <==> s[n - 1] !in s[..n - 1]
  {
    var x := s[n - 1];
    if x in s[..n - 1] {
      var k :| 0 <= k < n - 1 && s[..n - 1][k] == x;
      assert s[k] == x;
    } else {
      forall j | 0 <= j < n - 1 ensures s[j] != x { assert s[..n - 1][j] == s[j]; }
    }
  }

  /** The index filter keeps the elements satisfying `p`, each once, at its
      first occurrence. */
  lemma {:induction false} FirstOccurrencesIsDedup<T(!new)>(s: seq<T>, p: T -> bool, n: nat)
    requires n <= |s|
    ensures FirstOccurrences(s, p, n) == Dedup(Filter(s[..n], p))
    decreases n
  {
    if n == 0 {
      assert s[..0] == [];
    } else {
      var x := s[n - 1];
      var pre := s[..n - 1];
      assert s[..n] == pre + [x];
      FilterSnoc(pre, x, p);
      var f := Filter(pre, p);
      FirstOccurrencesIsDedup(s, p, n - 1);
      FirstIndexIff(s, n);
      var tail := if p(x) && IndexOf(s, x) == n - 1 then [x] else [];
      assert FirstOccurrences(s, p, n) == FirstOccurrences(s, p, n - 1) + tail;
      if p(x) {
        DedupSnoc(f, x);
        assert Filter(s[..n], p) == f + [x];
        assert x in Dedup(f) <==> x in pre;
        assert tail == if x in pre then [] else [x];
      } else {
        assert Filter(s[..n], p) == f;
        assert FirstOccurrences(s, p, n) == Dedup(f);
      }
    }
  }

  /** Filtering distributes over concatenation. */
  lemma {:induction false} FilterConcat<T(!new)>(a: seq<T>, b: seq<T>, p: T -> bool)
    ensures Filter(a + b, p) == Filter(a, p) + Filter(b, p)
    decreases |b|
  {
    if b == [] {
      assert a + b == a;
    } else {
      var init, x := b[..|b| - 1], b[|b| - 1];
      var t := if p(x) then [x] else [];
      FilterConcat(a, init, p);
      LastOfConcat(a, b);
      assert Filter(a + b, p) == Filter(a + init, p) + t;
      assert Filter(b, p) == Filter(init, p) + t;
      Assoc(Filter(a, p), Filter(init, p), t);
    }
  }

  /** The last element of `a + b`, for a non-empty `b`, and what precedes it. */
  lemma LastOfConcat<T>(a: seq<T>, b: seq<T>)
    requires b != []
    ensures (a + b)[..|a + b| - 1] == a + b[..|b| - 1]
    ensures (a + b)[|a + b| - 1] == b[|b| - 1]
  {
  }

  /** Concatenation is associative. */
  lemma Assoc<T>(a: seq<T>, b: seq<T>, c: seq<T>)
    ensures (a + b) + c == a + (b + c)
  {
  }

  /** Two filters in a row are one filter by the conjunction. */
  lemma {:induction false} FilterFilter<T(!new)>(s: seq<T>, p: T -> bool, q: T -> bool, pq: T -> bool)
    requires forall x :: pq(x) == (p(x) && q(x))
    ensures Filter(Filter(s, p), q) == Filter(s, pq)
    decreases |s|
  {
    if s != [] {
      var init, x := s[..|s| - 1], s[|s| - 1];
      assert s == init + [x];
      FilterFilter(init, p, q, pq);
      FilterSnoc(init, x, p);
      FilterSnoc(init, x, pq);
      if p(x) {
        assert Filter(s, p) == Filter(init, p) + [x];
        FilterSnoc(Filter(init, p), x, q);
      } else {
        assert Filter(s, p) == Filter(init, p);
      }
    }
  }

  /** `s.map(f)`. */
  function Map<A, B>(s: seq<A>, f: A -> B): (r: seq<B>)
    ensures |r| == |s|
    ensures forall i :: 0 <= i < |s| ==> r[i] == f(s[i])
    decreases |s|
  {
    if s == [] then [] else Map(s[..|s| - 1], f) + [f(s[|s| - 1])]
  }

  /** Map of a sequence extended by one element. */
  lemma MapSnoc<A, B>(s: seq<A>, x: A, f: A -> B)
    ensures Map(s + [x], f) == Map(s, f) + [f(x)]
  {
    assert (s + [x])[..|s + [x]| - 1] == s;
  }

  /** Filtering a duplicate-free sequence keeps its order: the survivors
      appear at increasing positions of `s`. */
  lemma {:induction false} FilterKeepsOrder<T(!new)>(s: seq<T>, p: T -> bool)
    requires Distinct(s)
    ensures forall i, j :: 0 <= i < j < |Filter(s, p)| ==> IndexOf(s, Filter(s, p)[i]) < IndexOf(s, Filter(s, p)[j])
    decreases |s|
  {
    if s != [] {
      var init, x := s[..|s| - 1], s[|s| - 1];
      assert s == init + [x];
      assert Distinct(init);
      FilterKeepsOrder(init, p);
      var fi := Filter(init, p);
      var f := Filter(s, p);
      FilterSnoc(init, x, p);
      forall y | y in init
        ensures IndexOf(s, y) == IndexOf(init, y)
      {
        IndexOfSnoc(init, x, y);
      }
      assert x !in init;
      IndexOfSnoc(init, x, x);
      forall i, j | 0 <= i < j < |f|
        ensures IndexOf(s, f[i]) < IndexOf(s, f[j])
      {
        assert f[i] == fi[i] && f[i] in init;
        if j < |fi| {
          assert f[j] == fi[j] && f[j] in init;
        } else {
          assert f[j] == x;
        }
      }
    }
  }

  /** Filtering the distinct elements keeps their order of first
      occurrence. */
  lemma FilterDedupInOrder<T(!new)>(raw: seq<T>, p: T -> bool, i: int, j: int)
    requires 0 <= i < j < |Filter(Dedup(raw), p)|
    ensures IndexOf(raw, Filter(Dedup(raw), p)[i]) < IndexOf(raw, Filter(Dedup(raw), p)[j])
  {
    var dd := Dedup(raw);
    var f := Filter(dd, p);
    FilterKeepsOrder(dd, p);
    assert f[i] in f && f[j] in f;
    var a, b := IndexOf(dd, f[i]), IndexOf(dd, f[j]);
    assert 0 <= a < b;
    DedupOrder(raw);
    assert IndexOf(raw, dd[a]) < IndexOf(raw, dd[b]);
  }
}
