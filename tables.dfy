/**
 * Generic helpers for in-memory tables kept as sequences of rows in
 * primary-key order: the first match of a query, sums and counts over a
 * column, filtering, row removal and fresh primary keys.
 */
module Tables {

  datatype Option<+T> = None | Some(value: T)

  /** Index of the first row satisfying `p` (a query's `.first()`), or None. */
  function FindFirst<T>(s: seq<T>, p: T -> bool): (r: Option<nat>)
    ensures r.Some? ==> r.value < |s| && p(s[r.value])
    ensures r.Some? ==> forall j :: 0 <= j < r.value ==> !p(s[j])
    ensures r.None? <==> forall j :: 0 <= j < |s| ==> !p(s[j])
  {
    if |s| == 0 then None
    else if p(s[0]) then Some(0)
    else match FindFirst(s[1..], p)
      case None => None
      case Some(k) => Some(k + 1)
  }

  /** Sum of a column (SQL SUM, with an empty table giving 0). */
  function SumOf<T>(s: seq<T>, f: T -> int): int
  {
    if |s| == 0 then 0 else SumOf(s[..|s| - 1], f) + f(s[|s| - 1])
  }

  /** Number of rows satisfying `p` (SQL COUNT over a filter). */
  function CountOf<T>(s: seq<T>, p: T -> bool): nat
  {
    if |s| == 0 then 0 else CountOf(s[..|s| - 1], p) + (if p(s[|s| - 1]) then 1 else 0)
  }

  /** The rows satisfying `p`, in table order (SQL WHERE). */
  function Filter<T(!new)>(s: seq<T>, p: T -> bool): (r: seq<T>)
    ensures |r| == CountOf(s, p)
    ensures forall x :: x in r <==> x in s && p(x)
  {
    if |s| == 0 then []
    else
      var r := Filter(s[..|s| - 1], p) + (if p(s[|s| - 1]) then [s[|s| - 1]] else []);
      assert forall x :: x in s <==> x in s[..|s| - 1] || x == s[|s| - 1];
      r
  }

  /** The table with row `i` deleted. */
  function RemoveAt<T>(s: seq<T>, i: nat): (r: seq<T>)
    requires i < |s|
    ensures |r| == |s| - 1
    ensures forall j :: 0 <= j < i ==> r[j] == s[j]
    ensures forall j :: i <= j < |r| ==> r[j] == s[j + 1]
  {
    s[..i] + s[i + 1..]
  }

  /** Primary keys strictly increase along the table. */
  ghost predicate StrictlyIncreasing<T>(s: seq<T>, key: T -> int)
  {
    forall i, j :: 0 <= i < j < |s| ==> key(s[i]) < key(s[j])
  }

  /** The key the store hands to the next inserted row: one past the largest key, 1 when empty. */
  function NextKey<T>(s: seq<T>, key: T -> int): (k: int)
    requires StrictlyIncreasing(s, key)
    ensures forall i :: 0 <= i < |s| ==> key(s[i]) < k
  {
    if |s| == 0 then 1 else key(s[|s| - 1]) + 1
  }

  lemma AppendFreshKey<T>(s: seq<T>, key: T -> int, x: T)
    requires StrictlyIncreasing(s, key)
    requires key(x) == NextKey(s, key)
    ensures StrictlyIncreasing(s + [x], key)
  {
  }

  lemma RemoveKeepsIncreasing<T>(s: seq<T>, key: T -> int, i: nat)
    requires StrictlyIncreasing(s, key) && i < |s|
    ensures StrictlyIncreasing(RemoveAt(s, i), key)
  {
    var r := RemoveAt(s, i);
    forall a, b | 0 <= a < b < |r| ensures key(r[a]) < key(r[b]) {
      var a' := if a < i then a else a + 1;
      var b' := if b < i then b else b + 1;
      assert r[a] == s[a'] && r[b] == s[b'];
    }
  }

  lemma UpdateKeepsIncreasing<T>(s: seq<T>, key: T -> int, i: nat, x: T)
    requires StrictlyIncreasing(s, key) && i < |s| && key(x) == key(s[i])
    ensures StrictlyIncreasing(s[i := x], key)
  {
  }

  lemma {:induction false} SumAppend<T>(s: seq<T>, f: T -> int, x: T)
    ensures SumOf(s + [x], f) == SumOf(s, f) + f(x)
  {
    assert (s + [x])[..|s|] == s;
  }

  /** Overwriting one row changes a column sum by exactly the difference at that row. */
  lemma {:induction false} SumUpdate<T>(s: seq<T>, f: T -> int, i: nat, x: T)
    requires i < |s|
    ensures SumOf(s[i := x], f) == SumOf(s, f) - f(s[i]) + f(x)
  {
    var n := |s| - 1;
    if i == n {
      assert s[i := x][..n] == s[..n];
    } else {
      SumUpdate(s[..n], f, i, x);
      assert s[i := x][..n] == s[..n][i := x];
    }
  }

  /** Deleting one row lowers a column sum by exactly that row's value. */
  lemma {:induction false} SumRemove<T>(s: seq<T>, f: T -> int, i: nat)
    requires i < |s|
    ensures SumOf(RemoveAt(s, i), f) == SumOf(s, f) - f(s[i])
  {
    var n := |s| - 1;
    if i == n {
      assert RemoveAt(s, i) == s[..n];
    } else {
      SumRemove(s[..n], f, i);
      assert RemoveAt(s, i) == RemoveAt(s[..n], i) + [s[n]];
      SumAppend(RemoveAt(s[..n], i), f, s[n]);
    }
  }

  lemma {:induction false} CountAppend<T>(s: seq<T>, p: T -> bool, x: T)
    ensures CountOf(s + [x], p) == CountOf(s, p) + (if p(x) then 1 else 0)
  {
    assert (s + [x])[..|s|] == s;
  }

  /** Overwriting one row changes a count by the change of that row's membership only. */
  lemma {:induction false} CountUpdate<T>(s: seq<T>, p: T -> bool, i: nat, x: T)
    requires i < |s|
    ensures CountOf(s[i := x], p) == CountOf(s, p) - (if p(s[i]) then 1 else 0) + (if p(x) then 1 else 0)
  {
    var n := |s| - 1;
    if i == n {
      assert s[i := x][..n] == s[..n];
    } else {
      CountUpdate(s[..n], p, i, x);
      assert s[i := x][..n] == s[..n][i := x];
    }
  }

  /** A count is zero exactly when no row satisfies the filter. */
  lemma {:induction false} CountZero<T>(s: seq<T>, p: T -> bool)
    ensures CountOf(s, p) == 0 <==> forall j :: 0 <= j < |s| ==> !p(s[j])
  {
    if |s| > 0 {
      var n := |s| - 1;
      CountZero(s[..n], p);
      assert forall j :: 0 <= j < n ==> s[..n][j] == s[j];
    }
  }
  /** Counts under two filters that agree on every row are equal. */
  lemma {:induction false} CountAgree<T>(s: seq<T>, p: T -> bool, q: T -> bool)
    requires forall i :: 0 <= i < |s| ==> p(s[i]) == q(s[i])
    ensures CountOf(s, p) == CountOf(s, q)
  {
    if |s| > 0 {
      var n := |s| - 1;
      assert forall i :: 0 <= i < n ==> s[..n][i] == s[i];
      CountAgree(s[..n], p, q);
    }
  }

  /**
   * A sum over a column that is zero outside a filter is the sum over the
   * filtered rows: `SUM(CASE WHEN p THEN q ELSE 0 END)` is `SUM(q) WHERE p`.
   */
  lemma {:induction false} SumOfFilter<T(!new)>(s: seq<T>, f: T -> int, p: T -> bool, q: T -> int)
    requires forall i :: 0 <= i < |s| ==> f(s[i]) == (if p(s[i]) then q(s[i]) else 0)
    ensures SumOf(s, f) == SumOf(Filter(s, p), q)
  {
    if |s| > 0 {
      var n := |s| - 1;
      assert forall i :: 0 <= i < n ==> s[..n][i] == s[i];
      SumOfFilter(s[..n], f, p, q);
      var rest := Filter(s[..n], p);
      if p(s[n]) {
        assert Filter(s, p) == rest + [s[n]];
        SumAppend(rest, q, s[n]);
      } else {
        assert Filter(s, p) == rest + [];
        assert rest + [] == rest;
      }
    }
  }

  /** Rows in ascending order of `key` (SQL ORDER BY key ASC). */
  ghost predicate SortedBy<T>(s: seq<T>, key: T -> int)
  {
    forall i, j :: 0 <= i < j < |s| ==> key(s[i]) <= key(s[j])
  }

  /** Inserts `x` into a sorted sequence before the first row with a key at least as large. */
  function InsertBy<T>(x: T, s: seq<T>, key: T -> int): (r: seq<T>)
    requires SortedBy(s, key)
    ensures SortedBy(r, key)
    ensures multiset(r) == multiset(s) + multiset{x}
    ensures |r| == |s| + 1 && (r[0] == x || (|s| > 0 && r[0] == s[0]))
  {
    if |s| == 0 then [x]
    else if key(x) <= key(s[0]) then [x] + s
    else
      var rest := InsertBy(x, s[1..], key);
      assert s == [s[0]] + s[1..];
      assert key(s[0]) <= key(rest[0]);
      [s[0]] + rest
  }

  /** The rows ordered by ascending `key`; rows with equal keys keep no particular order. */
  function SortBy<T>(s: seq<T>, key: T -> int): (r: seq<T>)
    ensures SortedBy(r, key)
    ensures multiset(r) == multiset(s)
  {
    if |s| == 0 then []
    else
      var n := |s| - 1;
      assert s == s[..n] + [s[n]];
      InsertBy(s[n], SortBy(s[..n], key), key)
  }
}
