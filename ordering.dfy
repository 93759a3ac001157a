/** Descending order by an integer key, as the ORM's `order_by('-field')` returns rows. */
module Ordering {

  predicate SortedDesc<T>(s: seq<T>, key: T -> int)
  {
    forall i, j :: 0 <= i < j < |s| ==> key(s[i]) >= key(s[j])
  }

  /** Every row of a permutation of `s + [x]` is `x` or a row of `s`. */
  lemma RowsOfPermutation<T>(r: seq<T>, s: seq<T>, x: T, i: int)
    requires multiset(r) == multiset(s) + multiset{x}
    requires 0 <= i < |r|
    ensures r[i] == x || r[i] in s
  {
    assert r[i] in multiset(r);
  }

  /** Places `x` before the first row whose key it is not below. */
  function InsertDesc<T>(x: T, s: seq<T>, key: T -> int): (r: seq<T>)
    requires SortedDesc(s, key)
    ensures SortedDesc(r, key)
    ensures multiset(r) == multiset(s) + multiset{x}
  {
    if |s| == 0 then [x]
    else if key(x) >= key(s[0]) then [x] + s
    else
      assert s == [s[0]] + s[1..];
      var rest := InsertDesc(x, s[1..], key);
      assert forall i :: 0 <= i < |rest| ==> key(rest[i]) <= key(s[0]) by {
        forall i | 0 <= i < |rest| ensures key(rest[i]) <= key(s[0]) {
          RowsOfPermutation(rest, s[1..], x, i);
        }
      }
      [s[0]] + rest
  }

  /** The rows of `s`, rearranged so that keys never increase. */
  function SortDesc<T>(s: seq<T>, key: T -> int): (r: seq<T>)
    ensures SortedDesc(r, key)
    ensures multiset(r) == multiset(s)
  {
    if |s| == 0 then []
    else
      assert s == [s[0]] + s[1..];
      InsertDesc(s[0], SortDesc(s[1..], key), key)
  }
}
