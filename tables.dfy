/** Operations on flat tables (sequences of rows) that both scripts
    perform through pandas or SQL: sort by a column, keep the first n
    rows, and keep the rows a boolean mask selects. */
module Tables {

  /** Rows are in non-decreasing order of `key`. */
  ghost predicate SortedBy<T>(s: seq<T>, key: T -> int)
  {
    forall i, j :: 0 <= i < j < |s| ==> key(s[i]) <= key(s[j])
  }

  /** Inserts `x` before the first row whose key is not smaller. */
  function Insert<T>(x: T, s: seq<T>, key: T -> int): (r: seq<T>)
    ensures multiset(r) == multiset(s) + multiset{x}
    ensures SortedBy(s, key) ==> SortedBy(r, key)
  {
    if s == [] || key(x) <= key(s[0]) then
      PrependSorted(x, s, key);
      [x] + s
    else
      var tail := Insert(x, s[1..], key);
      assert s == [s[0]] + s[1..];
      InsertPastHead(x, s, tail, key);
      [s[0]] + tail
  }

  /** Inserting past the head of a sorted table keeps the head in front. */
  lemma InsertPastHead<T>(x: T, s: seq<T>, tail: seq<T>, key: T -> int)
    requires s != [] && key(s[0]) < key(x)
    requires multiset(tail) == multiset(s[1..]) + multiset{x}
    requires SortedBy(s[1..], key) ==> SortedBy(tail, key)
    ensures SortedBy(s, key) ==> SortedBy([s[0]] + tail, key)
  {
    if SortedBy(s, key) {
      assert SortedBy(s[1..], key);
      forall k | 0 <= k < |s[1..]| ensures key(s[0]) <= key(s[1..][k]) {
        assert s[1..][k] == s[k + 1];
      }
      LowerBound(tail, s[1..], x, key(s[0]), key);
      PrependSorted(s[0], tail, key);
    }
  }

  /** Putting a row no larger than the first in front of a sorted table keeps it sorted. */
  lemma PrependSorted<T>(h: T, t: seq<T>, key: T -> int)
    requires t == [] || key(h) <= key(t[0])
    ensures SortedBy(t, key) ==> SortedBy([h] + t, key)
  {
  }

  /** The rows of `t`, which are those of `s` plus `x`, all have a key of at least `lo`
      when those of `s` and `x` do. */
  lemma LowerBound<T>(t: seq<T>, s: seq<T>, x: T, lo: int, key: T -> int)
    requires multiset(t) == multiset(s) + multiset{x}
    requires lo <= key(x)
    requires forall k :: 0 <= k < |s| ==> lo <= key(s[k])
    ensures forall k :: 0 <= k < |t| ==> lo <= key(t[k])
  {
    forall k | 0 <= k < |t| ensures lo <= key(t[k]) {
      assert t[k] in multiset(t);
      if t[k] != x {
        assert t[k] in multiset(s);
        var j :| 0 <= j < |s| && s[j] == t[k];
      }
    }
  }

  /** The table ordered by `key`, as pandas `sort_values` or SQL
      `ORDER BY` gives it: a reordering of the rows, sorted. */
  function SortBy<T>(s: seq<T>, key: T -> int): (r: seq<T>)
    ensures multiset(r) == multiset(s)
    ensures |r| == |s|
    ensures SortedBy(r, key)
  {
    if s == [] then []
    else
      assert s == [s[0]] + s[1..];
      var r := Insert(s[0], SortBy(s[1..], key), key);
      assert |r| == |multiset(r)|;
      r
  }

  /** A table whose keys strictly increase is left as it is: with no two
      rows sharing a key there is no tie whose order a sort could change. */
  lemma {:induction false} SortBySortedIsIdentity<T>(s: seq<T>, key: T -> int)
    requires forall i, j :: 0 <= i < j < |s| ==> key(s[i]) < key(s[j])
    ensures SortBy(s, key) == s
  {
    if s != [] {
      assert forall i, j :: 0 <= i < j < |s| - 1 ==> key(s[1..][i]) < key(s[1..][j]) by {
        assert forall i :: 0 <= i < |s| - 1 ==> s[1..][i] == s[i + 1];
      }
      SortBySortedIsIdentity(s[1..], key);
    }
  }

  function Min(a: int, b: int): int
  {
    if a <= b then a else b
  }

  /** pandas `head(n)`: the first `n` rows, or all of them when there are fewer. */
  function Head<T>(s: seq<T>, n: nat): (r: seq<T>)
    ensures |r| == Min(n, |s|)
    ensures forall i :: 0 <= i < |r| ==> r[i] == s[i]
  {
    if |s| <= n then s else s[..n]
  }

  /** The head of a sorted table holds rows whose keys are no larger than
      the key of any row left out of it. */
  lemma HeadOfSortedIsSmallest<T>(s: seq<T>, n: nat, key: T -> int)
    requires SortedBy(s, key)
    ensures forall i, j :: 0 <= i < |Head(s, n)| <= j < |s| ==> key(Head(s, n)[i]) <= key(s[j])
  {
  }

  /** `a` is `b` with some rows dropped, the others kept in their order. */
  predicate IsSubsequence<T(==)>(a: seq<T>, b: seq<T>)
    decreases |b|
  {
    if a == [] then true
    else if b == [] then false
    else (a[0] == b[0] && IsSubsequence(a[1..], b[1..])) || IsSubsequence(a, b[1..])
  }

  lemma {:induction false} SubsequenceReflexive<T>(s: seq<T>)
    ensures IsSubsequence(s, s)
  {
    if s != [] {
      SubsequenceReflexive(s[1..]);
    }
  }

  /** pandas `df[mask]`: the rows satisfying `p`, in table order. */
  function Filter<T(==)>(s: seq<T>, p: T -> bool): (r: seq<T>)
    ensures forall k :: 0 <= k < |r| ==> r[k] in s && p(r[k])
    ensures forall k :: 0 <= k < |s| && p(s[k]) ==> s[k] in r
    ensures IsSubsequence(r, s)
  {
    if s == [] then []
    else if p(s[0]) then
      var tail := Filter(s[1..], p);
      assert ([s[0]] + tail)[1..] == tail;
      [s[0]] + tail
    else
      Filter(s[1..], p)
  }

  lemma {:induction false} FilterAppend<T>(a: seq<T>, b: seq<T>, p: T -> bool)
    ensures Filter(a + b, p) == Filter(a, p) + Filter(b, p)
  {
    if a == [] {
      assert a + b == b;
    } else {
      var ab := a + b;
      assert ab != [] && ab[0] == a[0] && ab[1..] == a[1..] + b;
      FilterAppend(a[1..], b, p);
      if p(a[0]) {
        calc {
          Filter(ab, p);
          [a[0]] + Filter(a[1..] + b, p);
          [a[0]] + (Filter(a[1..], p) + Filter(b, p));
          ([a[0]] + Filter(a[1..], p)) + Filter(b, p);
        }
      } else {
        assert Filter(ab, p) == Filter(a[1..] + b, p);
      }
    }
  }

  /** A mask that selects every row keeps the table as it is. */
  lemma {:induction false} FilterKeepsAll<T>(s: seq<T>, p: T -> bool)
    requires forall k :: 0 <= k < |s| ==> p(s[k])
    ensures Filter(s, p) == s
  {
    if s != [] {
      FilterKeepsAll(s[1..], p);
    }
  }

  /** A mask that selects no row gives the empty table. */
  lemma FilterKeepsNone<T>(s: seq<T>, p: T -> bool)
    requires forall k :: 0 <= k < |s| ==> !p(s[k])
    ensures Filter(s, p) == []
  {
  }

  /** Applying two masks one after the other is the same as applying their conjunction. */
  lemma {:induction false} FilterThen<T>(s: seq<T>, p: T -> bool, q: T -> bool)
    ensures Filter(Filter(s, p), q) == Filter(s, x => p(x) && q(x))
  {
    if s != [] {
      FilterThen(s[1..], p, q);
      if p(s[0]) {
        assert Filter(s, p)[1..] == Filter(s[1..], p);
      }
    }
  }

  /** The rows a mask selects and the rows a complementary mask selects
      together make up the table. */
  lemma {:induction false} FilterSplit<T>(s: seq<T>, p: T -> bool, q: T -> bool)
    requires forall x :: q(x) == !p(x)
    ensures multiset(Filter(s, p)) + multiset(Filter(s, q)) == multiset(s)
  {
    if s != [] {
      var h, t := s[0], s[1..];
      FilterSplit(t, p, q);
      assert s == [h] + t;
      if p(h) {
        calc {
          multiset(Filter(s, p)) + multiset(Filter(s, q));
          multiset([h] + Filter(t, p)) + multiset(Filter(t, q));
          multiset{h} + (multiset(Filter(t, p)) + multiset(Filter(t, q)));
          multiset{h} + multiset(t);
          multiset(s);
        }
      } else {
        calc {
          multiset(Filter(s, p)) + multiset(Filter(s, q));
          multiset(Filter(t, p)) + multiset([h] + Filter(t, q));
          multiset{h} + (multiset(Filter(t, p)) + multiset(Filter(t, q)));
          multiset{h} + multiset(t);
          multiset(s);
        }
      }
    }
  }
}
