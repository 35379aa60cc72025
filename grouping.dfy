/**
 * Folds over a sequence of records, the shape every report query of the
 * system takes: `count(*)` and `sum(...)` over the rows with a given key,
 * `GROUP BY key` in first-occurrence order, and the fact that the groups
 * partition the rows.
 */
module Grouping {
  /** `sum(w)` over all rows. */
  function Total<T>(s: seq<T>, w: T -> real): real
  {
    if s == [] then 0.0 else w(s[0]) + Total(s[1..], w)
  }

  /** `count(*) ... WHERE key = k`. */
  function CountKey<T, K(==)>(s: seq<T>, key: T -> K, k: K): nat
  {
    if s == [] then 0 else (if key(s[0]) == k then 1 else 0) + CountKey(s[1..], key, k)
  }

  /** `sum(w) ... WHERE key = k`, 0 when no row has the key. */
  function SumKey<T, K(==)>(s: seq<T>, key: T -> K, k: K, w: T -> real): real
  {
    if s == [] then 0.0 else (if key(s[0]) == k then w(s[0]) else 0.0) + SumKey(s[1..], key, k, w)
  }

  /** The rows with key `k`, in order. */
  function WithKey<T, K(==)>(s: seq<T>, key: T -> K, k: K): (r: seq<T>)
    ensures |r| == CountKey(s, key, k)
    ensures forall i :: 0 <= i < |r| ==> key(r[i]) == k
  {
    if s == [] then [] else (if key(s[0]) == k then [s[0]] else []) + WithKey(s[1..], key, k)
  }

  /** `s.filter(keep)`, or `WHERE keep`: the rows that satisfy `keep`, in order. */
  function Where<T(!new)>(s: seq<T>, keep: T -> bool): (r: seq<T>)
    ensures forall x :: x in r <==> x in s && keep(x)
    ensures |r| <= |s|
  {
    if s == [] then [] else (if keep(s[0]) then [s[0]] else []) + Where(s[1..], keep)
  }

  /** Filtering a concatenation filters each part, so the kept rows stay in order. */
  lemma {:induction false} WhereAppend<T(!new)>(a: seq<T>, b: seq<T>, keep: T -> bool)
    ensures Where(a + b, keep) == Where(a, keep) + Where(b, keep)
  {
    if a == [] {
      assert a + b == b;
    } else {
      assert (a + b)[0] == a[0] && (a + b)[1..] == a[1..] + b;
      WhereAppend(a[1..], b, keep);
    }
  }

  /** Two tests that agree on every row keep the same rows. */
  lemma {:induction false} WhereSame<T(!new)>(s: seq<T>, keep: T -> bool, same: T -> bool)
    requires forall x :: x in s ==> keep(x) == same(x)
    ensures Where(s, keep) == Where(s, same)
  {
    if s != [] {
      assert s[0] in s;
      assert forall x :: x in s[1..] ==> x in s;
      WhereSame(s[1..], keep, same);
    }
  }

  /** A test every row passes keeps the whole sequence. */
  lemma {:induction false} WhereAll<T(!new)>(s: seq<T>, keep: T -> bool)
    requires forall x :: x in s ==> keep(x)
    ensures Where(s, keep) == s
  {
    if s != [] {
      assert s[0] in s;
      assert forall x :: x in s[1..] ==> x in s;
      WhereAll(s[1..], keep);
    }
  }

  predicate Distinct<K(==)>(ks: seq<K>)
  {
    forall i, j :: 0 <= i < j < |ks| ==> ks[i] != ks[j]
  }

  /** The distinct keys of `s`, each placed where it first occurs. */
  function Keys<T, K(==)>(s: seq<T>, key: T -> K): (ks: seq<K>)
    ensures Distinct(ks)
    ensures forall i :: 0 <= i < |s| ==> key(s[i]) in ks
  {
    if s == [] then []
    else
      var init := s[..|s| - 1];
      var earlier := Keys(init, key);
      assert forall i :: 0 <= i < |init| ==> init[i] == s[i];
      if key(s[|s| - 1]) in earlier then earlier else earlier + [key(s[|s| - 1])]
  }

  /** Appending an element adds its key at the end when it is new and leaves the keys alone otherwise. */
  lemma KeysSnoc<T, K>(s: seq<T>, x: T, key: T -> K)
    ensures Keys(s + [x], key) == if key(x) in Keys(s, key) then Keys(s, key) else Keys(s, key) + [key(x)]
  {
    var t := s + [x];
    assert t[..|t| - 1] == s;
  }

  /** Every key of `Keys` names a non-empty group. */
  lemma {:induction false} KeysCounted<T, K>(s: seq<T>, key: T -> K)
    ensures forall k :: k in Keys(s, key) ==> CountKey(s, key, k) > 0
  {
    if s != [] {
      var init := s[..|s| - 1];
      KeysCounted(init, key);
      CountKeyLast(s, key);
      var ks := Keys(s, key);
      assert ks == Keys(init, key) || ks == Keys(init, key) + [key(s[|s| - 1])];
      forall k | k in ks ensures CountKey(s, key, k) > 0 {
        assert CountKey(s, key, k) == CountKey(init, key, k) + (if key(s[|s| - 1]) == k then 1 else 0);
        if k in Keys(init, key) {
          assert CountKey(init, key, k) > 0;
        } else {
          assert k == key(s[|s| - 1]);
        }
      }
    }
  }

  lemma CountKeyLast<T, K>(s: seq<T>, key: T -> K)
    requires s != []
    ensures forall k :: CountKey(s, key, k) == CountKey(s[..|s| - 1], key, k) + (if key(s[|s| - 1]) == k then 1 else 0)
  {
    CountKeySnoc(s[..|s| - 1], s[|s| - 1], key);
    assert s[..|s| - 1] + [s[|s| - 1]] == s;
  }

  lemma {:induction false} CountKeySnoc<T, K>(s: seq<T>, x: T, key: T -> K)
    ensures forall k :: CountKey(s + [x], key, k) == CountKey(s, key, k) + (if key(x) == k then 1 else 0)
  {
    if s == [] {
      assert [x][1..] == [];
    } else {
      assert (s + [x])[1..] == s[1..] + [x];
      CountKeySnoc(s[1..], x, key);
    }
  }

  /** Appending a row adds its weight to its own key's sum and to no other. */
  lemma {:induction false} SumKeySnoc<T, K>(s: seq<T>, x: T, key: T -> K, k: K, w: T -> real)
    ensures SumKey(s + [x], key, k, w) == SumKey(s, key, k, w) + (if key(x) == k then w(x) else 0.0)
  {
    if s == [] {
      assert [x][1..] == [];
    } else {
      assert (s + [x])[1..] == s[1..] + [x];
      SumKeySnoc(s[1..], x, key, k, w);
    }
  }

  /** Appending a row appends it to its own key's group and leaves the others alone. */
  lemma {:induction false} WithKeySnoc<T, K>(s: seq<T>, x: T, key: T -> K, k: K)
    ensures WithKey(s + [x], key, k) == WithKey(s, key, k) + (if key(x) == k then [x] else [])
  {
    if s == [] {
      assert [x][1..] == [];
    } else {
      assert (s + [x])[1..] == s[1..] + [x];
      WithKeySnoc(s[1..], x, key, k);
    }
  }

  /** The group of `k` in two runs of rows is the group in the first followed by the group in the second. */
  lemma {:induction false} WithKeyAppend<T, K>(a: seq<T>, b: seq<T>, key: T -> K, k: K)
    ensures WithKey(a + b, key, k) == WithKey(a, key, k) + WithKey(b, key, k)
  {
    if a != [] {
      assert (a + b)[1..] == a[1..] + b;
      WithKeyAppend(a[1..], b, key, k);
    } else {
      assert a + b == b;
    }
  }

  /** The group of `k` holds exactly the rows whose key is `k`. */
  lemma {:induction false} WithKeyMembers<T, K>(s: seq<T>, key: T -> K, k: K)
    ensures forall x :: x in WithKey(s, key, k) <==> x in s && key(x) == k
  {
    if s != [] {
      WithKeyMembers(s[1..], key, k);
      assert forall x :: x in s <==> x == s[0] || x in s[1..];
    }
  }

  /** A key no row carries has an empty group and a zero sum. */
  lemma {:induction false} AbsentKey<T, K>(s: seq<T>, key: T -> K, k: K, w: T -> real)
    requires forall i :: 0 <= i < |s| ==> key(s[i]) != k
    ensures WithKey(s, key, k) == [] && SumKey(s, key, k, w) == 0.0
  {
    if s != [] {
      AbsentKey(s[1..], key, k, w);
    }
  }

  /** Σ over the keys `ks` of the per-key counts. */
  function CountsOver<T, K(==)>(s: seq<T>, key: T -> K, ks: seq<K>): nat
  {
    if ks == [] then 0 else CountKey(s, key, ks[0]) + CountsOver(s, key, ks[1..])
  }

  /** Σ over the keys `ks` of the per-key sums. */
  function SumsOver<T, K(==)>(s: seq<T>, key: T -> K, ks: seq<K>, w: T -> real): real
  {
    if ks == [] then 0.0 else SumKey(s, key, ks[0], w) + SumsOver(s, key, ks[1..], w)
  }

  /** How often `k` occurs in `ks`. */
  function Occurrences<K(==)>(ks: seq<K>, k: K): nat
  {
    if ks == [] then 0 else (if ks[0] == k then 1 else 0) + Occurrences(ks[1..], k)
  }

  lemma {:induction false} OccursOnce<K>(ks: seq<K>, k: K)
    requires Distinct(ks) && k in ks
    ensures Occurrences(ks, k) == 1
  {
    if ks[0] == k {
      OccursNot(ks[1..], k);
    } else {
      OccursOnce(ks[1..], k);
    }
  }

  lemma {:induction false} OccursNot<K>(ks: seq<K>, k: K)
    requires k !in ks
    ensures Occurrences(ks, k) == 0
  {
    if ks != [] {
      OccursNot(ks[1..], k);
    }
  }

  lemma {:induction false} CountsOverCons<T, K>(x: T, s: seq<T>, key: T -> K, ks: seq<K>)
    ensures CountsOver([x] + s, key, ks) == Occurrences(ks, key(x)) + CountsOver(s, key, ks)
  {
    if ks != [] {
      assert ([x] + s)[1..] == s;
      CountsOverCons(x, s, key, ks[1..]);
    }
  }

  lemma {:induction false} SumsOverCons<T, K>(x: T, s: seq<T>, key: T -> K, ks: seq<K>, w: T -> real)
    ensures SumsOver([x] + s, key, ks, w) == (Occurrences(ks, key(x)) as real) * w(x) + SumsOver(s, key, ks, w)
  {
    if ks != [] {
      assert ([x] + s)[1..] == s;
      SumsOverCons(x, s, key, ks[1..], w);
    }
  }

  /**
   * `GROUP BY` partitions the rows: over distinct keys that cover every row,
   * the group counts add up to the number of rows.
   */
  lemma {:induction false} CountsPartition<T, K>(s: seq<T>, key: T -> K, ks: seq<K>)
    requires Distinct(ks)
    requires forall i :: 0 <= i < |s| ==> key(s[i]) in ks
    ensures CountsOver(s, key, ks) == |s|
  {
    if s == [] {
      CountsOverEmpty(key, ks);
    } else {
      assert [s[0]] + s[1..] == s;
      CountsOverCons(s[0], s[1..], key, ks);
      OccursOnce(ks, key(s[0]));
      CountsPartition(s[1..], key, ks);
    }
  }

  /** ... and the group sums add up to the sum over all rows. */
  lemma {:induction false} SumsPartition<T, K>(s: seq<T>, key: T -> K, ks: seq<K>, w: T -> real)
    requires Distinct(ks)
    requires forall i :: 0 <= i < |s| ==> key(s[i]) in ks
    ensures SumsOver(s, key, ks, w) == Total(s, w)
  {
    if s == [] {
      SumsOverEmpty(key, ks, w);
    } else {
      assert [s[0]] + s[1..] == s;
      SumsOverCons(s[0], s[1..], key, ks, w);
      OccursOnce(ks, key(s[0]));
      SumsPartition(s[1..], key, ks, w);
    }
  }

  lemma {:induction false} CountsOverEmpty<T, K>(key: T -> K, ks: seq<K>)
    ensures CountsOver([], key, ks) == 0
  {
    if ks != [] {
      CountsOverEmpty(key, ks[1..]);
    }
  }

  lemma {:induction false} SumsOverEmpty<T, K>(key: T -> K, ks: seq<K>, w: T -> real)
    ensures SumsOver([], key, ks, w) == 0.0
  {
    if ks != [] {
      SumsOverEmpty(key, ks[1..], w);
    }
  }

  /** A smaller weight per row gives a smaller sum per key. */
  lemma {:induction false} SumKeyMonotone<T, K>(s: seq<T>, key: T -> K, k: K, small: T -> real, large: T -> real)
    requires forall x :: x in s ==> small(x) <= large(x)
    ensures SumKey(s, key, k, small) <= SumKey(s, key, k, large)
  {
    if s != [] {
      assert s[0] in s;
      SumKeyMonotone(s[1..], key, k, small, large);
    }
  }

  /** Non-negative weights give a non-negative sum. */
  lemma {:induction false} SumKeyNonNegative<T, K>(s: seq<T>, key: T -> K, k: K, w: T -> real)
    requires forall x :: x in s ==> w(x) >= 0.0
    ensures SumKey(s, key, k, w) >= 0.0
  {
    if s != [] {
      assert s[0] in s;
      SumKeyNonNegative(s[1..], key, k, w);
    }
  }

  /** The sum over the rows with key `k` is the total of `WithKey`. */
  lemma {:induction false} SumKeyIsTotal<T, K>(s: seq<T>, key: T -> K, k: K, w: T -> real)
    ensures SumKey(s, key, k, w) == Total(WithKey(s, key, k), w)
  {
    if s != [] {
      SumKeyIsTotal(s[1..], key, k, w);
      TotalAppend(if key(s[0]) == k then [s[0]] else [], WithKey(s[1..], key, k), w);
    }
  }

  lemma {:induction false} TotalAppend<T>(a: seq<T>, b: seq<T>, w: T -> real)
    ensures Total(a + b, w) == Total(a, w) + Total(b, w)
  {
    if a == [] {
      assert a + b == b;
    } else {
      assert (a + b)[1..] == a[1..] + b;
      TotalAppend(a[1..], b, w);
    }
  }
}
