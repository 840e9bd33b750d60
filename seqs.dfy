/** Sequence operations with the meaning JavaScript's `Array.prototype`
    gives them (`filter`, `findIndex`/`find`, `slice(0, end)`), and the
    subsequence relation used to say that a filter keeps its input order. */
module Seqs {

  datatype Option<+T> = None | Some(value: T)

  /** `a` is obtained from `s` by deleting elements; the order is kept. */
  ghost predicate IsSubseq<T>(a: seq<T>, s: seq<T>)
    decreases |s|
  {
    if a == [] then true
    else if s == [] then false
    else (a[0] == s[0] && IsSubseq(a[1..], s[1..])) || IsSubseq(a, s[1..])
  }

  lemma {:induction false} SubseqTransitive<T>(a: seq<T>, b: seq<T>, c: seq<T>)
    requires IsSubseq(a, b) && IsSubseq(b, c)
    ensures IsSubseq(a, c)
    decreases |c|
  {
    if a != [] {
      if IsSubseq(b, c[1..]) {
        SubseqTransitive(a, b, c[1..]);
      } else if a[0] == b[0] && IsSubseq(a[1..], b[1..]) {
        SubseqTransitive(a[1..], b[1..], c[1..]);
      } else {
        SubseqTransitive(a, b[1..], c[1..]);
      }
    }
  }

  lemma {:induction false} SubseqReflexive<T>(s: seq<T>)
    ensures IsSubseq(s, s)
  {
    if s != [] {
      SubseqReflexive(s[1..]);
    }
  }

  lemma {:induction false} PrefixIsSubseq<T>(s: seq<T>, k: nat)
    requires k <= |s|
    ensures IsSubseq(s[..k], s)
  {
    if k > 0 {
      PrefixIsSubseq(s[1..], k - 1);
      assert s[..k][1..] == s[1..][..k - 1];
    }
  }

  /** `filter`: the elements satisfying `p`, each as often as in `s`,
      in their order in `s`. */
  function Filter<T(!new)>(s: seq<T>, p: T -> bool): (r: seq<T>)
    ensures forall x :: multiset(r)[x] == if p(x) then multiset(s)[x] else 0
    ensures forall i | 0 <= i < |r| :: p(r[i])
  {
    if s == [] then []
    else
      assert s == [s[0]] + s[1..];
      if p(s[0]) then [s[0]] + Filter(s[1..], p) else Filter(s[1..], p)
  }

  /** A filter keeps the order of what it keeps. */
  lemma {:induction false} FilterIsSubseq<T(!new)>(s: seq<T>, p: T -> bool)
    ensures IsSubseq(Filter(s, p), s)
  {
    if s != [] {
      FilterIsSubseq(s[1..], p);
      assert s == [s[0]] + s[1..];
    }
  }

  /** A filter whose predicate holds everywhere returns its input. */
  lemma {:induction false} FilterKeepsAll<T(!new)>(s: seq<T>, p: T -> bool)
    requires forall i | 0 <= i < |s| :: p(s[i])
    ensures Filter(s, p) == s
  {
    if s != [] {
      FilterKeepsAll(s[1..], p);
    }
  }

  /** An element appended after `s` that the predicate rejects does not
      change the filter's result. */
  lemma {:induction false} FilterDropsRejectedLast<T(!new)>(s: seq<T>, x: T, p: T -> bool)
    requires !p(x)
    ensures Filter(s + [x], p) == Filter(s, p)
  {
    if s == [] {
      assert s + [x] == [x] + [];
      FilterCons(x, [], p);
    } else {
      var u := s[1..];
      assert s == [s[0]] + u;
      assert s + [x] == [s[0]] + (u + [x]);
      FilterDropsRejectedLast(u, x, p);
      FilterCons(s[0], u + [x], p);
      FilterCons(s[0], u, p);
    }
  }

  /** No two elements of `s` have the same key. */
  ghost predicate DistinctBy<T, K>(s: seq<T>, key: T -> K)
  {
    forall i, j | 0 <= i < j < |s| :: key(s[i]) != key(s[j])
  }

  /** A filter keeps keys distinct. */
  lemma {:induction false} FilterKeepsDistinct<T(!new), K>(s: seq<T>, key: T -> K, p: T -> bool)
    requires DistinctBy(s, key)
    ensures DistinctBy(Filter(s, p), key)
  {
    if s != [] {
      var t := s[1..];
      assert s == [s[0]] + t;
      FilterKeepsDistinct(t, key, p);
      FilterCons(s[0], t, p);
      var ft := Filter(t, p);
      forall m | 0 <= m < |t| ensures key(t[m]) != key(s[0]) {
        assert t[m] == s[m + 1];
      }
      forall j | 0 <= j < |ft| ensures key(ft[j]) != key(s[0]) {
        assert multiset(ft)[ft[j]] > 0;
        assert ft[j] in t;
      }
    }
  }

  lemma FilterCons<T(!new)>(x: T, s: seq<T>, p: T -> bool)
    ensures Filter([x] + s, p) == (if p(x) then [x] else []) + Filter(s, p)
  {
    assert ([x] + s)[1..] == s;
  }

  /** `findIndex`: the first index whose element satisfies `p`, or -1. */
  function FindIndex<T>(s: seq<T>, p: T -> bool): (k: int)
    ensures -1 <= k < |s|
    ensures k >= 0 ==> p(s[k])
    ensures forall j | 0 <= j < |s| && (k < 0 || j < k) :: !p(s[j])
  {
    if s == [] then -1
    else if p(s[0]) then 0
    else
      var k := FindIndex(s[1..], p);
      if k < 0 then -1 else k + 1
  }

  /** `find`: the first element satisfying `p`, or `undefined` (None). */
  function Find<T>(s: seq<T>, p: T -> bool): (r: Option<T>)
    ensures r.None? <==> forall j | 0 <= j < |s| :: !p(s[j])
    ensures r.Some? ==> r.value == s[FindIndex(s, p)]
  {
    var k := FindIndex(s, p);
    if k < 0 then None else Some(s[k])
  }

  lemma FindCons<T>(x: T, s: seq<T>, p: T -> bool)
    ensures Find([x] + s, p) == if p(x) then Some(x) else Find(s, p)
  {
    assert ([x] + s)[1..] == s;
  }

  /** Searching `s + [x]` finds the first match in `s`, or else `x`. */
  lemma {:induction false} FindIndexAppend<T>(s: seq<T>, x: T, p: T -> bool)
    ensures FindIndex(s + [x], p) == if FindIndex(s, p) >= 0 then FindIndex(s, p) else if p(x) then |s| else -1
  {
    if s != [] {
      FindIndexAppend(s[1..], x, p);
      assert (s + [x])[1..] == s[1..] + [x];
    }
  }

  /** `map`: `f` applied to every element, in order. */
  function Map<T, U>(s: seq<T>, f: T -> U): (r: seq<U>)
    ensures |r| == |s|
    ensures forall i | 0 <= i < |s| :: r[i] == f(s[i])
  {
    if s == [] then [] else [f(s[0])] + Map(s[1..], f)
  }

  /** Searching a mapped array with `q` finds what searching the original
      with `p` finds, when `q` sees through `f` exactly what `p` sees. */
  lemma {:induction false} FindAfterMap<T, U>(s: seq<T>, f: T -> U, p: T -> bool, q: U -> bool)
    requires forall i | 0 <= i < |s| :: q(f(s[i])) == p(s[i])
    ensures FindIndex(Map(s, f), q) == FindIndex(s, p)
    ensures Find(Map(s, f), q) == match Find(s, p) case None => None case Some(x) => Some(f(x))
  {
    if s != [] {
      FindAfterMap(s[1..], f, p, q);
      assert Map(s, f)[1..] == Map(s[1..], f);
    }
  }

  /** Filtering with a predicate that every match of `q` satisfies does not
      change the first match of `q`. */
  lemma {:induction false} FindAfterFilter<T(!new)>(s: seq<T>, p: T -> bool, q: T -> bool)
    requires forall x :: q(x) ==> p(x)
    ensures Find(Filter(s, p), q) == Find(s, q)
  {
    if s != [] {
      var t := s[1..];
      assert s == [s[0]] + t;
      FindAfterFilter(t, p, q);
      FilterCons(s[0], t, p);
      FindCons(s[0], t, q);
      if p(s[0]) {
        FindCons(s[0], Filter(t, p), q);
      }
    }
  }

  /** The end index that `slice(0, end)` uses on an array of length `n`:
      a negative `end` counts back from the end of the array. */
  function SliceEnd(n: nat, end: int): (k: nat)
    ensures k <= n
    ensures end >= 0 ==> k <= end && (k < end ==> k == n)
    ensures end < 0 ==> k <= n + end || k == 0
    ensures end < 0 && n + end >= 0 ==> k == n + end
  {
    if end < 0 then (if n + end > 0 then n + end else 0)
    else if end < n then end
    else n
  }

  /** `slice(0, end)`: the prefix of the length `SliceEnd` gives. */
  function SliceTo<T>(s: seq<T>, end: int): (r: seq<T>)
    ensures |r| <= |s| && r == s[..|r|]
    ensures end >= 0 ==> |r| <= end && (|r| < end ==> r == s)
  {
    s[..SliceEnd(|s|, end)]
  }
}
