/**
 * Rows of a table keyed by a serial id. `SortedIds` lists a set of ids in
 * ascending order, which is the order serial ids were handed out; the SQL
 * reads that pick "the latest row" or list rows use it.
 */
module Tables {
  import opened Wrappers
  import Text

  predicate StrictlyIncreasing(s: seq<int>)
  {
    forall i, j :: 0 <= i < j < |s| ==> s[i] < s[j]
  }

  lemma MinExists(s: set<int>)
    requires s != {}
    ensures exists k :: k in s && forall j :: j in s ==> k <= j
  {
    var k := Least(s);
  }

  /** The smallest member of a non-empty set. */
  lemma {:induction false} Least(s: set<int>) returns (k: int)
    requires s != {}
    ensures k in s && forall j :: j in s ==> k <= j
    decreases |s|
  {
    var x := PickOne(s);
    if s == {x} {
      k := x;
    } else {
      var t := s - {x};
      assert |t| < |s|;
      var m := Least(t);
      k := if x < m then x else m;
      forall j | j in s ensures k <= j {
        if j != x { assert j in t; }
      }
    }
  }

  lemma NonEmpty(s: set<int>)
    requires s != {}
    ensures exists y :: y in s
  {
    if forall y :: y !in s {
      assert false;
    }
  }

  lemma PickOne(s: set<int>) returns (x: int)
    requires s != {}
    ensures x in s
  {
    NonEmpty(s);
    var y :| y in s;
    x := y;
  }

  /** The ids of `s`, smallest first. */
  function SortedIds(s: set<int>): (r: seq<int>)
    ensures StrictlyIncreasing(r)
    ensures forall k :: k in r <==> k in s
    ensures |r| == |s|
    decreases |s|
  {
    if s == {} then []
    else
      MinExists(s);
      var k :| k in s && forall j :: j in s ==> k <= j;
      var rest := SortedIds(s - {k});
      LessThanRest(k, s, rest);
      [k] + rest
  }

  predicate StrictlyDecreasing(s: seq<int>)
  {
    forall i, j :: 0 <= i < j < |s| ==> s[i] > s[j]
  }

  /** The members of `s`, largest first (`ORDER BY ... DESC`). */
  function Descending(s: set<int>): (r: seq<int>)
    ensures StrictlyDecreasing(r)
    ensures forall k :: k in r <==> k in s
    ensures |r| == |s|
  {
    var up := SortedIds(s);
    var r := seq(|up|, i requires 0 <= i < |up| => up[|up| - 1 - i]);
    ReversedSorted(up, r);
    r
  }

  lemma ReversedSorted(up: seq<int>, r: seq<int>)
    requires StrictlyIncreasing(up) && |r| == |up|
    requires forall i :: 0 <= i < |r| ==> r[i] == up[|up| - 1 - i]
    ensures StrictlyDecreasing(r)
    ensures forall k :: k in r <==> k in up
  {
    forall k | k in up ensures k in r {
      var i :| 0 <= i < |up| && up[i] == k;
      assert r[|up| - 1 - i] == k;
    }
  }

  lemma LessThanRest(k: int, s: set<int>, rest: seq<int>)
    requires forall j :: j in s ==> k <= j
    requires forall j :: j in rest ==> j in s && j != k
    ensures forall i :: 0 <= i < |rest| ==> k < rest[i]
  {
    forall i | 0 <= i < |rest| ensures k < rest[i] {
      assert rest[i] in rest;
    }
  }

  /** The greatest id of a non-empty set. */
  function MaxId(s: set<int>): (m: int)
    requires s != {}
    ensures m in s && forall k :: k in s ==> k <= m
  {
    var ids := SortedIds(s);
    assert ids[|ids| - 1] in s;
    ids[|ids| - 1]
  }

  /** A fresh serial id: one past every id in use. */
  function NextId(s: set<int>): (n: int)
    ensures n !in s && forall k :: k in s ==> k < n
  {
    if s == {} then 1 else MaxId(s) + 1
  }

  /** The rows of `m` at `ids`, in that order. */
  function RowsAt<T>(m: map<int, T>, ids: seq<int>): (rows: seq<T>)
    requires forall i :: 0 <= i < |ids| ==> ids[i] in m
    ensures |rows| == |ids| && forall i :: 0 <= i < |ids| ==> rows[i] == m[ids[i]]
  {
    if ids == [] then [] else [m[ids[0]]] + RowsAt(m, ids[1..])
  }

  /** `SELECT * ... WHERE p ORDER BY id`: the rows satisfying `p`, oldest first. */
  function Select<T(==)>(m: map<int, T>, p: T -> bool): (rows: seq<T>)
    ensures forall k :: k in m && p(m[k]) ==> m[k] in rows
    ensures forall r :: r in rows ==> r in m.Values && p(r)
  {
    var ids := SortedIds(set k | k in m && p(m[k]));
    assert forall i :: 0 <= i < |ids| ==> ids[i] in ids;
    assert forall i :: 0 <= i < |ids| ==> ids[i] in m && p(m[ids[i]]);
    var rows := RowsAt(m, ids);
    SelectFacts(m, p, ids, rows);
    rows
  }

  lemma SelectFacts<T>(m: map<int, T>, p: T -> bool, ids: seq<int>, rows: seq<T>)
    requires forall k :: k in m && p(m[k]) ==> k in ids
    requires forall i :: 0 <= i < |ids| ==> ids[i] in m && p(m[ids[i]])
    requires |rows| == |ids| && forall i :: 0 <= i < |ids| ==> ids[i] in m && rows[i] == m[ids[i]]
    ensures forall k :: k in m && p(m[k]) ==> m[k] in rows
    ensures forall r :: r in rows ==> r in m.Values && p(r)
  {
    forall k | k in m && p(m[k]) ensures m[k] in rows {
      var i :| 0 <= i < |ids| && ids[i] == k;
      assert rows[i] == m[k];
    }
    forall r | r in rows ensures r in m.Values && p(r) {
      var i :| 0 <= i < |rows| && rows[i] == r;
      assert r == m[ids[i]];
    }
  }

  /** `LIMIT n`: the first `n` rows, or all of them when there are fewer. */
  function Limit<T>(s: seq<T>, n: nat): (r: seq<T>)
    ensures |r| == if |s| <= n then |s| else n
    ensures r == s[..|r|]
  {
    if |s| <= n then s else s[..n]
  }

  // ---------------------------------------------------------------------------
  // ORDER BY.

  /**
   * `before` orders the rows of `s` as an `ORDER BY` does: any two can be
   * compared, and the comparison is transitive.
   */
  predicate TotalPreorder<T(==)>(s: seq<T>, before: (T, T) -> bool)
  {
    (forall a, b :: a in s && b in s ==> before(a, b) || before(b, a))
    && (forall a, b, c :: a in s && b in s && c in s && before(a, b) && before(b, c) ==> before(a, c))
  }

  /** Every row may come before every later one. */
  predicate SortedBy<T>(s: seq<T>, before: (T, T) -> bool)
  {
    forall i, j :: 0 <= i < j < |s| ==> before(s[i], s[j])
  }

  /** `x` placed ahead of the first row it may come before. */
  function InsertBy<T>(x: T, s: seq<T>, before: (T, T) -> bool): (r: seq<T>)
    ensures multiset(r) == multiset(s) + multiset{x}
  {
    if s == [] || before(x, s[0]) then [x] + s
    else
      assert s == [s[0]] + s[1..];
      [s[0]] + InsertBy(x, s[1..], before)
  }

  /** `ORDER BY`: the same rows, rearranged by insertion. */
  function SortBy<T>(s: seq<T>, before: (T, T) -> bool): (r: seq<T>)
    ensures multiset(r) == multiset(s)
  {
    if s == [] then []
    else
      assert s == [s[0]] + s[1..];
      InsertBy(s[0], SortBy(s[1..], before), before)
  }

  lemma PreorderWithin<T>(s: seq<T>, t: seq<T>, before: (T, T) -> bool)
    requires TotalPreorder(s, before)
    requires forall x :: x in t ==> x in s
    ensures TotalPreorder(t, before)
  {
  }

  /** `x` may come before every row of a sorted `s` when it may come before the first. */
  lemma AheadOfAll<T>(x: T, s: seq<T>, before: (T, T) -> bool)
    requires TotalPreorder([x] + s, before)
    requires SortedBy(s, before) && s != [] && before(x, s[0])
    ensures SortedBy([x] + s, before)
  {
    var t := [x] + s;
    forall j | 0 < j < |t| ensures before(x, t[j]) {
      if j > 1 {
        assert t[1] in t && t[j] in t && before(t[1], t[j]);
      }
    }
  }

  lemma {:induction false} InsertBySorted<T>(x: T, s: seq<T>, before: (T, T) -> bool)
    requires TotalPreorder([x] + s, before)
    requires SortedBy(s, before)
    ensures SortedBy(InsertBy(x, s, before), before)
  {
    if s == [] {
    } else if before(x, s[0]) {
      AheadOfAll(x, s, before);
    } else {
      var t := [x] + s;
      assert s[0] in t && x in t;
      PreorderWithin(t, [x] + s[1..], before);
      InsertBySorted(x, s[1..], before);
      FirstAheadOfInserted(x, s, before);
      ConsSorted(s[0], InsertBy(x, s[1..], before), before);
    }
  }

  /** The first row of a sorted `s` that `x` does not precede stays ahead once `x` joins the rest. */
  lemma FirstAheadOfInserted<T>(x: T, s: seq<T>, before: (T, T) -> bool)
    requires TotalPreorder([x] + s, before)
    requires SortedBy(s, before) && s != [] && !before(x, s[0])
    ensures forall y :: y in InsertBy(x, s[1..], before) ==> before(s[0], y)
  {
    var t := [x] + s;
    assert s[0] in t && x in t;
    var rest := InsertBy(x, s[1..], before);
    forall y | y in rest ensures before(s[0], y) {
      assert y in multiset(rest);
      if y != x {
        assert y in multiset(s[1..]);
        var k :| 0 <= k < |s[1..]| && s[1..][k] == y;
        assert s[k + 1] == y;
      }
    }
  }

  lemma ConsSorted<T>(a: T, rest: seq<T>, before: (T, T) -> bool)
    requires SortedBy(rest, before)
    requires forall y :: y in rest ==> before(a, y)
    ensures SortedBy([a] + rest, before)
  {
    var r := [a] + rest;
    forall i, j | 0 <= i < j < |r| ensures before(r[i], r[j]) {
      if i == 0 { assert r[j] == rest[j - 1] && rest[j - 1] in rest; }
      else { assert r[i] == rest[i - 1] && r[j] == rest[j - 1]; }
    }
  }

  /** Sorting by a total preorder leaves every row ahead of the ones it may come before. */
  lemma {:induction false} SortBySorted<T>(s: seq<T>, before: (T, T) -> bool)
    requires TotalPreorder(s, before)
    ensures SortedBy(SortBy(s, before), before)
  {
    if s != [] {
      var rest := SortBy(s[1..], before);
      PreorderWithin(s, s[1..], before);
      SortBySorted(s[1..], before);
      forall y | y in [s[0]] + rest ensures y in s {
        if y != s[0] {
          assert y in multiset(rest);
        }
      }
      PreorderWithin(s, [s[0]] + rest, before);
      InsertBySorted(s[0], rest, before);
    }
  }

  /** A sorted row set holds exactly the rows it was sorted from. */
  lemma SortByRows<T>(s: seq<T>, before: (T, T) -> bool)
    ensures forall x :: x in SortBy(s, before) ==> x in s
    ensures forall x :: x in s ==> x in SortBy(s, before)
    ensures |SortBy(s, before)| == |s|
  {
    var r := SortBy(s, before);
    forall x | x in r ensures x in s {
      assert x in multiset(r);
    }
    forall x | x in s ensures x in r {
      assert x in multiset(s);
    }
    assert |r| == |multiset(r)|;
  }

  /**
   * `ORDER BY`: the same rows, each ahead of every row it may come before
   * once `before` is a total preorder on them.
   */
  function OrderBy<T(==)>(s: seq<T>, before: (T, T) -> bool): (r: seq<T>)
    ensures multiset(r) == multiset(s) && |r| == |s|
    ensures (forall x :: x in r ==> x in s) && (forall x :: x in s ==> x in r)
    ensures TotalPreorder(s, before) ==> SortedBy(r, before)
  {
    SortByRows(s, before);
    if TotalPreorder(s, before) then
      SortBySorted(s, before);
      SortBy(s, before)
    else SortBy(s, before)
  }

  /** `ORDER BY col ASC` on a nullable text column: code-point order, NULLs last. */
  predicate TextAscending(a: Option<string>, b: Option<string>)
  {
    b.None? || (a.Some? && Text.AtMost(a.value, b.value))
  }

  /** Ordering rows by a nullable text key is an `ORDER BY`. */
  lemma TextAscendingPreorder<T>(s: seq<T>, key: T -> Option<string>, before: (T, T) -> bool)
    requires forall x, y :: before(x, y) == TextAscending(key(x), key(y))
    ensures TotalPreorder(s, before)
  {
    forall x, y | x in s && y in s ensures before(x, y) || before(y, x) {
      if key(x).Some? && key(y).Some? {
        Text.AtMostTotal(key(x).value, key(y).value);
      }
    }
    forall x, y, z | x in s && y in s && z in s && before(x, y) && before(y, z)
      ensures before(x, z)
    {
      if key(x).Some? && key(y).Some? && key(z).Some? {
        Text.AtMostTransitive(key(x).value, key(y).value, key(z).value);
      }
    }
  }
}
