/** Filters and sums over finite tables, as the ORM's `filter` and `Sum` aggregate and the
    report loops compute them, and the regrouping law that ties per-group subtotals to a
    grand total. */
module Folds {

  /** The rows of `s` that satisfy `p`, in their order: `queryset.filter(...)`. */
  function Select<T(==)>(s: seq<T>, p: T -> bool): (r: seq<T>)
    ensures |r| <= |s|
    ensures forall i :: 0 <= i < |r| ==> r[i] in s && p(r[i])
    ensures forall i :: 0 <= i < |s| && p(s[i]) ==> s[i] in r
  {
    if |s| == 0 then []
    else
      assert s == s[..|s| - 1] + [s[|s| - 1]];
      Select(s[..|s| - 1], p) + (if p(s[|s| - 1]) then [s[|s| - 1]] else [])
  }

  /** Sum of `val` over the rows of `s` (0 for no rows, like `Sum(...) or 0`). */
  function SumOf<T>(s: seq<T>, val: T -> int): int
  {
    if |s| == 0 then 0 else SumOf(s[..|s| - 1], val) + val(s[|s| - 1])
  }

  /** Sum of `val` over the rows of `s` whose key is `k`: one GROUP BY bucket. */
  function SumWhere<T, K(==)>(s: seq<T>, key: T -> K, val: T -> int, k: K): int
  {
    if |s| == 0 then 0
    else SumWhere(s[..|s| - 1], key, val, k) + (if key(s[|s| - 1]) == k then val(s[|s| - 1]) else 0)
  }

  /** Sum, over a list of keys, of each key's bucket. */
  function SumOverKeys<T, K(==)>(keys: seq<K>, s: seq<T>, key: T -> K, val: T -> int): int
  {
    if |keys| == 0 then 0
    else SumOverKeys(keys[..|keys| - 1], s, key, val) + SumWhere(s, key, val, keys[|keys| - 1])
  }

  predicate Distinct<K(==)>(keys: seq<K>)
  {
    forall i, j :: 0 <= i < j < |keys| ==> keys[i] != keys[j]
  }

  lemma SumOfAppend<T>(s: seq<T>, x: T, val: T -> int)
    ensures SumOf(s + [x], val) == SumOf(s, val) + val(x)
  {
    assert (s + [x])[..|s|] == s;
  }

  lemma SumWhereAppend<T, K>(s: seq<T>, x: T, key: T -> K, val: T -> int, k: K)
    ensures SumWhere(s + [x], key, val, k) == SumWhere(s, key, val, k) + (if key(x) == k then val(x) else 0)
  {
    assert (s + [x])[..|s|] == s;
  }

  lemma {:induction false} SumWhereConcat<T, K>(s: seq<T>, t: seq<T>, key: T -> K, val: T -> int, k: K)
    ensures SumWhere(s + t, key, val, k) == SumWhere(s, key, val, k) + SumWhere(t, key, val, k)
  {
    if |t| == 0 {
      assert s + t == s;
    } else {
      var front := t[..|t| - 1];
      SumWhereConcat(s, front, key, val, k);
      assert (s + t)[..|s + t| - 1] == s + front;
    }
  }

  /** A bucket does not depend on the order in which the rows are visited. */
  lemma {:induction false} SumWherePermutation<T, K>(s: seq<T>, t: seq<T>, key: T -> K, val: T -> int, k: K)
    requires multiset(s) == multiset(t)
    ensures SumWhere(s, key, val, k) == SumWhere(t, key, val, k)
    decreases |s|
  {
    if |s| > 0 {
      var front, x := s[..|s| - 1], s[|s| - 1];
      assert s == front + [x];
      assert x in multiset(t);
      var j :| 0 <= j < |t| && t[j] == x;
      var rest := t[..j] + t[j + 1..];
      assert t == t[..j] + [x] + t[j + 1..];
      assert multiset(t) == multiset(t[..j]) + multiset{x} + multiset(t[j + 1..]);
      assert multiset(rest) == multiset(t[..j]) + multiset(t[j + 1..]);
      assert multiset(s) == multiset(front) + multiset{x};
      assert multiset(front) == multiset(s) - multiset{x};
      assert multiset(rest) == multiset(t) - multiset{x};
      SumWherePermutation(front, rest, key, val, k);
      SumWhereConcat(t[..j] + [x], t[j + 1..], key, val, k);
      SumWhereConcat(t[..j], t[j + 1..], key, val, k);
      SumWhereAppend(t[..j], x, key, val, k);
    }
  }

  /** A bucket of no rows is empty, whatever the keys. */
  lemma {:induction false} SumOverKeysOfNothing<T, K>(keys: seq<K>, s: seq<T>, key: T -> K, val: T -> int)
    requires |s| == 0
    ensures SumOverKeys(keys, s, key, val) == 0
  {
    if |keys| > 0 {
      SumOverKeysOfNothing(keys[..|keys| - 1], s, key, val);
    }
  }

  /** Appending one row adds its value to exactly one bucket of a duplicate-free key
      list, and to none when its key is not listed. */
  lemma {:induction false} SumOverKeysAppend<T, K>(keys: seq<K>, s: seq<T>, x: T, key: T -> K, val: T -> int)
    requires Distinct(keys)
    ensures SumOverKeys(keys, s + [x], key, val)
         == SumOverKeys(keys, s, key, val) + (if key(x) in keys then val(x) else 0)
  {
    if |keys| > 0 {
      var front, last := keys[..|keys| - 1], keys[|keys| - 1];
      assert keys == front + [last];
      SumOverKeysAppend(front, s, x, key, val);
      SumWhereAppend(s, x, key, val, last);
      assert key(x) in keys <==> key(x) in front || key(x) == last;
      if key(x) == last {
        assert key(x) !in front;
      }
    }
  }

  /** Regrouping: when every row's key appears exactly once in `keys`, the per-key
      subtotals add up to the grand total. */
  lemma {:induction false} Regroup<T, K>(keys: seq<K>, s: seq<T>, key: T -> K, val: T -> int)
    requires Distinct(keys)
    requires forall i :: 0 <= i < |s| ==> key(s[i]) in keys
    ensures SumOverKeys(keys, s, key, val) == SumOf(s, val)
  {
    if |s| == 0 {
      SumOverKeysOfNothing(keys, s, key, val);
    } else {
      var front, last := s[..|s| - 1], s[|s| - 1];
      assert s == front + [last];
      Regroup(keys, front, key, val);
      SumOverKeysAppend(keys, front, last, key, val);
      SumOfAppend(front, last, val);
    }
  }
}
