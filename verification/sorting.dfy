/**
 `df.sort_values(by=['Trans Date', 'Transaction Sequence'])` (tree.py):
 rows are reordered by their parsed date, then by their sequence number
 within the raw date. The result is a permutation of the input in which
 every earlier row has a key no greater than every later row.
 */
module Sorting {

  /** The sort key: the parsed date's ordering key, then the sequence number. */
  datatype SortKey = SortKey(stamp: int, sequence: int)

  /** Lexicographic order on keys. */
  predicate KeyLe(a: SortKey, b: SortKey) {
    a.stamp < b.stamp || (a.stamp == b.stamp && a.sequence <= b.sequence)
  }

  ghost predicate SortedBy<T>(s: seq<T>, key: T -> SortKey) {
    forall i, j :: 0 <= i < j < |s| ==> KeyLe(key(s[i]), key(s[j]))
  }

  /** Inserts `x` into a sorted sequence, before the first element it does not follow. */
  function Insert<T>(x: T, s: seq<T>, key: T -> SortKey): (r: seq<T>)
    requires SortedBy(s, key)
    ensures SortedBy(r, key)
    ensures multiset(r) == multiset(s) + multiset{x}
    ensures |r| == |s| + 1
  {
    if |s| == 0 then [x]
    else if KeyLe(key(x), key(s[0])) then [x] + s
    else
      var tail := Insert(x, s[1..], key);
      assert s == [s[0]] + s[1..];
      assert forall j :: 0 <= j < |tail| ==> KeyLe(key(s[0]), key(tail[j])) by {
        forall j | 0 <= j < |tail|
          ensures KeyLe(key(s[0]), key(tail[j]))
        {
          assert tail[j] in multiset(tail);
          if tail[j] in multiset(s[1..]) {
            var k :| 0 <= k < |s[1..]| && s[1..][k] == tail[j];
            assert s[k + 1] == tail[j];
          }
        }
      }
      [s[0]] + tail
  }

  /** Insertion sort: a sorted permutation of `s`. */
  function SortBy<T>(s: seq<T>, key: T -> SortKey): (r: seq<T>)
    ensures SortedBy(r, key)
    ensures multiset(r) == multiset(s)
    ensures |r| == |s|
  {
    if |s| == 0 then []
    else
      assert s == [s[0]] + s[1..];
      Insert(s[0], SortBy(s[1..], key), key)
  }
}
