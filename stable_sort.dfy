/** `Array.prototype.sort(compare)` on a fresh copy. ECMA-262 (10th edition,
    section 22.1.3.27) requires the sort to be stable, so its result is
    determined by the comparator: it is modelled here as insertion sort.
    A comparator `compare` is represented by the relation
    `le(a, b) == (compare(a, b) <= 0)`, "a may stay before b". */
module StableSort {
  import opened Seqs

  /** The relation a consistent comparator induces: total and transitive. */
  ghost predicate TotalPreorder<T(!new)>(le: (T, T) -> bool)
  {
    && (forall a, b :: le(a, b) || le(b, a))
    && (forall a, b, c :: le(a, b) && le(b, c) ==> le(a, c))
  }

  ghost predicate Sorted<T>(s: seq<T>, le: (T, T) -> bool)
  {
    forall i, j | 0 <= i < j < |s| :: le(s[i], s[j])
  }

  /** The elements whose sort key equals that of `k`. */
  function SameKeyAs<T>(le: (T, T) -> bool, k: T): T -> bool
  {
    y => le(y, k) && le(k, y)
  }

  /** Inserts `x` before the first element it may precede. */
  function Insert<T>(x: T, s: seq<T>, le: (T, T) -> bool): (r: seq<T>)
    ensures |r| == |s| + 1
    ensures multiset(r) == multiset(s) + multiset{x}
  {
    if s == [] || le(x, s[0]) then [x] + s
    else
      assert s == [s[0]] + s[1..];
      [s[0]] + Insert(x, s[1..], le)
  }

  /** The stable sort of `s` under `le`; the input is not changed. */
  function SortBy<T>(s: seq<T>, le: (T, T) -> bool): (r: seq<T>)
    ensures |r| == |s|
    ensures multiset(r) == multiset(s)
  {
    if s == [] then []
    else
      assert s == [s[0]] + s[1..];
      Insert(s[0], SortBy(s[1..], le), le)
  }

  lemma {:induction false} InsertSorted<T(!new)>(x: T, s: seq<T>, le: (T, T) -> bool)
    requires TotalPreorder(le) && Sorted(s, le)
    ensures Sorted(Insert(x, s, le), le)
  {
    if s == [] || le(x, s[0]) {
      var r := [x] + s;
      forall i, j | 0 <= i < j < |r| ensures le(r[i], r[j]) {
        if i == 0 && j > 1 {
          assert le(x, s[0]) && le(s[0], s[j - 1]);
        }
      }
    } else {
      var t := Insert(x, s[1..], le);
      InsertSorted(x, s[1..], le);
      assert le(s[0], x);
      forall j | 0 <= j < |t| ensures le(s[0], t[j]) {
        assert t[j] in multiset(t);
        if t[j] != x {
          assert t[j] in multiset(s[1..]);
          var m :| 0 <= m < |s[1..]| && s[1..][m] == t[j];
          assert s[m + 1] == t[j];
        }
      }
      var r := [s[0]] + t;
      forall i, j | 0 <= i < j < |r| ensures le(r[i], r[j]) {
        if i > 0 {
          assert le(t[i - 1], t[j - 1]);
        }
      }
    }
  }

  /** The result is in order: every element may precede every later one. */
  lemma {:induction false} SortBySorted<T(!new)>(s: seq<T>, le: (T, T) -> bool)
    requires TotalPreorder(le)
    ensures Sorted(SortBy(s, le), le)
  {
    if s != [] {
      SortBySorted(s[1..], le);
      InsertSorted(s[0], SortBy(s[1..], le), le);
    }
  }

  lemma {:induction false} InsertStable<T(!new)>(x: T, s: seq<T>, le: (T, T) -> bool, k: T)
    requires TotalPreorder(le)
    ensures Filter(Insert(x, s, le), SameKeyAs(le, k)) == Filter([x] + s, SameKeyAs(le, k))
  {
    var p := SameKeyAs(le, k);
    if s != [] && !le(x, s[0]) {
      var t := s[1..];
      assert s == [s[0]] + t;
      InsertStable(x, t, le, k);
      FilterCons(s[0], Insert(x, t, le), p);
      FilterCons(x, t, p);
      FilterCons(x, s, p);
      FilterCons(s[0], t, p);
    }
  }

  /** Stability: the elements with any one key appear in the result in the
      order they have in the input. */
  lemma {:induction false} SortByStable<T(!new)>(s: seq<T>, le: (T, T) -> bool, k: T)
    requires TotalPreorder(le)
    ensures Filter(SortBy(s, le), SameKeyAs(le, k)) == Filter(s, SameKeyAs(le, k))
  {
    if s != [] {
      var p := SameKeyAs(le, k);
      SortByStable(s[1..], le, k);
      InsertStable(s[0], SortBy(s[1..], le), le, k);
      FilterCons(s[0], SortBy(s[1..], le), p);
      FilterCons(s[0], s[1..], p);
      assert s == [s[0]] + s[1..];
    }
  }

  /** A comparator that always answers 0 leaves the order as it is. */
  lemma {:induction false} SortByAllEqual<T(!new)>(s: seq<T>, le: (T, T) -> bool)
    requires forall a, b :: le(a, b)
    ensures SortBy(s, le) == s
  {
    if s != [] {
      SortByAllEqual(s[1..], le);
      assert s == [s[0]] + s[1..];
    }
  }
}
