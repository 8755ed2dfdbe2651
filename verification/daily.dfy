/**
 The per-date columns of `load_csv` (tree.py): `groupby('Trans Date')` with
 `transform('count')`, `transform('sum')` and `cumcount() + 1`. Rows are
 grouped by the raw date text, because the grouping happens before the
 dates are parsed.

 The reference definitions below count and sum over a prefix of the rows.
 `DailyColumns` is an alternative formulation, with one pass that keeps
 running per-date tallies in maps, proved equal to the reference
 definitions.
 */
module Daily {

  /** The positions of `keys` holding `d`: one date group. */
  ghost function Group(keys: seq<string>, d: string): set<nat> {
    set j: nat | j < |keys| && keys[j] == d
  }

  /** How many entries of `keys` equal `d`. */
  function CountOf(keys: seq<string>, d: string): nat {
    if |keys| == 0 then 0
    else CountOf(keys[..|keys| - 1], d) + (if keys[|keys| - 1] == d then 1 else 0)
  }

  /** The sum of the amounts `xs` at the positions where `keys` holds `d`. */
  function SumOf(keys: seq<string>, xs: seq<real>, d: string): real
    requires |xs| == |keys|
  {
    if |keys| == 0 then 0.0
    else SumOf(keys[..|keys| - 1], xs[..|xs| - 1], d) + (if keys[|keys| - 1] == d then xs[|xs| - 1] else 0.0)
  }

  /** `cumcount() + 1`: one more than the number of earlier rows with the same key. */
  function SequenceAt(keys: seq<string>, i: nat): nat
    requires i < |keys|
  {
    1 + CountOf(keys[..i], keys[i])
  }

  /** The counted entries are exactly the members of the group. */
  lemma {:induction false} CountIsGroupSize(keys: seq<string>, d: string)
    ensures CountOf(keys, d) == |Group(keys, d)|
    decreases |keys|
  {
    if |keys| > 0 {
      var n := |keys| - 1;
      var front := keys[..n];
      CountIsGroupSize(front, d);
      if keys[n] == d {
        assert Group(keys, d) == Group(front, d) + {n};
        assert n !in Group(front, d);
      } else {
        assert Group(keys, d) == Group(front, d);
      }
    }
  }

  /** Counting over a longer prefix never counts fewer. */
  lemma {:induction false} CountPrefixMonotone(keys: seq<string>, m: nat, n: nat, d: string)
    requires m <= n <= |keys|
    ensures CountOf(keys[..m], d) <= CountOf(keys[..n], d)
    decreases n - m
  {
    if m < n {
      assert keys[..n][..n - 1] == keys[..n - 1];
      CountPrefixMonotone(keys, m, n - 1, d);
    }
  }

  /** A row's sequence number lies between 1 and the size of its date group. */
  lemma SequenceWithinGroup(keys: seq<string>, i: nat)
    requires i < |keys|
    ensures 1 <= SequenceAt(keys, i) <= |Group(keys, keys[i])|
  {
    assert keys[..i + 1][..i] == keys[..i];
    CountPrefixMonotone(keys, i + 1, |keys|, keys[i]);
    assert keys[..|keys|] == keys;
    CountIsGroupSize(keys, keys[i]);
  }

  /** Within a date group, a later row has a larger sequence number. */
  lemma SequenceIncreasesInGroup(keys: seq<string>, i: nat, j: nat)
    requires i < j < |keys| && keys[i] == keys[j]
    ensures SequenceAt(keys, i) < SequenceAt(keys, j)
  {
    assert keys[..i + 1][..i] == keys[..i];
    CountPrefixMonotone(keys, i + 1, j, keys[i]);
  }

  /** Every number from 1 to the group's size is some row's sequence number. */
  lemma {:induction false} SequenceCoversGroup(keys: seq<string>, d: string, k: nat)
    requires 1 <= k <= |Group(keys, d)|
    ensures exists i: nat :: i < |keys| && keys[i] == d && SequenceAt(keys, i) == k
    decreases |keys|
  {
    CountIsGroupSize(keys, d);
    var n := |keys| - 1;
    var front := keys[..n];
    CountIsGroupSize(front, d);
    if k <= CountOf(front, d) {
      SequenceCoversGroup(front, d, k);
      var i: nat :| i < |front| && front[i] == d && SequenceAt(front, i) == k;
      assert keys[..i] == front[..i];
      assert SequenceAt(keys, i) == k;
    } else {
      assert keys[n] == d;
      assert keys[..n] == front;
      assert SequenceAt(keys, n) == k;
    }
  }

  /** Reads a running tally, with zero for a key not seen yet. */
  function Tally<V>(m: map<string, V>, d: string, zero: V): V {
    if d in m then m[d] else zero
  }

  /** Extending a prefix by one row adds that row to its own group's tally. */
  lemma PrefixStep(keys: seq<string>, xs: seq<real>, i: nat, d: string)
    requires i < |keys| == |xs|
    ensures CountOf(keys[..i + 1], d) == CountOf(keys[..i], d) + (if keys[i] == d then 1 else 0)
    ensures SumOf(keys[..i + 1], xs[..i + 1], d) == SumOf(keys[..i], xs[..i], d) + (if keys[i] == d then xs[i] else 0.0)
  {
    assert keys[..i + 1][..i] == keys[..i];
    assert xs[..i + 1][..i] == xs[..i];
  }

  /**
   The first pass: numbers each row within its date while accumulating the
   per-date counts and debit and credit totals seen so far.
   */
  method RunningTallies(dates: seq<string>, debits: seq<real>, credits: seq<real>)
    returns (sequence: seq<nat>, seen: map<string, nat>, debitSum: map<string, real>, creditSum: map<string, real>)
    requires |debits| == |dates| && |credits| == |dates|
    ensures |sequence| == |dates|
    ensures forall k :: 0 <= k < |dates| ==> sequence[k] == SequenceAt(dates, k)
    ensures forall d :: Tally(seen, d, 0) == CountOf(dates, d)
    ensures forall d :: Tally(debitSum, d, 0.0) == SumOf(dates, debits, d)
    ensures forall d :: Tally(creditSum, d, 0.0) == SumOf(dates, credits, d)
  {
    seen, debitSum, creditSum := map[], map[], map[];
    sequence := [];
    var i := 0;
    while i < |dates|
      invariant 0 <= i <= |dates|
      invariant |sequence| == i
      invariant forall d :: Tally(seen, d, 0) == CountOf(dates[..i], d)
      invariant forall d :: Tally(debitSum, d, 0.0) == SumOf(dates[..i], debits[..i], d)
      invariant forall d :: Tally(creditSum, d, 0.0) == SumOf(dates[..i], credits[..i], d)
      invariant forall k :: 0 <= k < i ==> sequence[k] == SequenceAt(dates, k)
    {
      var d := dates[i];
      var seen', debitSum', creditSum' :=
        seen[d := Tally(seen, d, 0) + 1],
        debitSum[d := Tally(debitSum, d, 0.0) + debits[i]],
        creditSum[d := Tally(creditSum, d, 0.0) + credits[i]];
      forall e
        ensures Tally(seen', e, 0) == CountOf(dates[..i + 1], e)
        ensures Tally(debitSum', e, 0.0) == SumOf(dates[..i + 1], debits[..i + 1], e)
        ensures Tally(creditSum', e, 0.0) == SumOf(dates[..i + 1], credits[..i + 1], e)
      {
        PrefixStep(dates, debits, i, e);
        PrefixStep(dates, credits, i, e);
      }
      sequence := sequence + [Tally(seen, d, 0) + 1];
      seen, debitSum, creditSum := seen', debitSum', creditSum';
      i := i + 1;
    }
    assert dates[..|dates|] == dates;
    assert debits[..|debits|] == debits;
    assert credits[..|credits|] == credits;
  }

  /**
   The per-date columns in two passes: the first numbers each row within its
   date while accumulating per-date counts and totals, the second reads the
   final totals back for every row.
   */
  method DailyColumns(dates: seq<string>, debits: seq<real>, credits: seq<real>)
    returns (count: seq<nat>, debitTotal: seq<real>, creditTotal: seq<real>, sequence: seq<nat>)
    requires |debits| == |dates| && |credits| == |dates|
    ensures |count| == |dates| && |debitTotal| == |dates| && |creditTotal| == |dates| && |sequence| == |dates|
    ensures forall i :: 0 <= i < |dates| ==> count[i] == CountOf(dates, dates[i])
    ensures forall i :: 0 <= i < |dates| ==> sequence[i] == SequenceAt(dates, i)
    ensures forall i :: 0 <= i < |dates| ==> debitTotal[i] == SumOf(dates, debits, dates[i])
    ensures forall i :: 0 <= i < |dates| ==> creditTotal[i] == SumOf(dates, credits, dates[i])
  {
    var seen, debitSum, creditSum;
    sequence, seen, debitSum, creditSum := RunningTallies(dates, debits, credits);
    count, debitTotal, creditTotal := [], [], [];
    var i := 0;
    while i < |dates|
      invariant 0 <= i <= |dates|
      invariant |count| == i && |debitTotal| == i && |creditTotal| == i
      invariant forall k :: 0 <= k < i ==> count[k] == CountOf(dates, dates[k])
      invariant forall k :: 0 <= k < i ==> debitTotal[k] == SumOf(dates, debits, dates[k])
      invariant forall k :: 0 <= k < i ==> creditTotal[k] == SumOf(dates, credits, dates[k])
    {
      count := count + [Tally(seen, dates[i], 0)];
      debitTotal := debitTotal + [Tally(debitSum, dates[i], 0.0)];
      creditTotal := creditTotal + [Tally(creditSum, dates[i], 0.0)];
      i := i + 1;
    }
  }
}
