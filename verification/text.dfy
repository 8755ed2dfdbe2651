/**
 The two string operations the enrichment step relies on: Python's
 substring test `sub in s`, and pandas' `str.replace(',', '')`.
 */
module Text {

  /** `sub` occurs in `s` starting at index `i`. */
  ghost predicate OccursAt(s: string, sub: string, i: int) {
    0 <= i && i + |sub| <= |s| && s[i..i + |sub|] == sub
  }

  /** `sub` occurs somewhere in `s`. */
  ghost predicate Mentions(s: string, sub: string) {
    exists i :: OccursAt(s, sub, i)
  }

  /** An occurrence in the tail of `s` is an occurrence in `s`, one place on. */
  lemma ShiftOccurrence(s: string, sub: string)
    requires |s| > 0
    ensures forall i :: 0 <= i ==> (OccursAt(s[1..], sub, i) <==> OccursAt(s, sub, i + 1))
  {
    forall i | 0 <= i
      ensures OccursAt(s[1..], sub, i) <==> OccursAt(s, sub, i + 1)
    {
      if i + |sub| <= |s| - 1 {
        assert s[1..][i..i + |sub|] == s[i + 1..i + 1 + |sub|];
      }
    }
  }

  /** Python's `sub in s`, by scanning the start positions left to right. */
  function Contains(s: string, sub: string): (b: bool)
    ensures b <==> Mentions(s, sub)
    decreases |s|
  {
    if |sub| > |s| then
      false
    else if s[..|sub|] == sub then
      assert OccursAt(s, sub, 0);
      true
    else
      ShiftOccurrence(s, sub);
      assert !OccursAt(s, sub, 0);
      assert Mentions(s, sub) ==> Mentions(s[1..], sub) by {
        if Mentions(s, sub) {
          var i :| OccursAt(s, sub, i);
          assert OccursAt(s[1..], sub, i - 1);
        }
      }
      Contains(s[1..], sub)
  }

  /** `str.replace(',', '')`: the string with every comma removed. */
  function StripCommas(s: string): (r: string)
    ensures ',' !in r
    ensures |r| <= |s|
    ensures ',' !in s ==> r == s
  {
    if |s| == 0 then ""
    else if s[0] == ',' then StripCommas(s[1..])
    else [s[0]] + StripCommas(s[1..])
  }

  /**
   Removing commas works piecewise; with `StripCommas` leaving comma-free
   text unchanged, this pins it down as deletion of exactly the commas.
   */
  lemma {:induction false} StripCommasAppend(a: string, b: string)
    ensures StripCommas(a + b) == StripCommas(a) + StripCommas(b)
    decreases |a|
  {
    if |a| == 0 {
      assert a + b == b;
    } else {
      assert (a + b)[1..] == a[1..] + b;
      StripCommasAppend(a[1..], b);
    }
  }

  /**
   Stripping twice is stripping once: a corollary of the two facts
   `StripCommas` promises, that its result has no commas and that
   comma-free text is left unchanged.
   */
  lemma StripCommasIdempotent(s: string)
    ensures StripCommas(StripCommas(s)) == StripCommas(s)
  {
  }

  /** Every non-comma character is kept, as often as it occurs. */
  lemma {:induction false} StripCommasKeepsOthers(s: string, c: char)
    requires c != ','
    ensures multiset(StripCommas(s))[c] == multiset(s)[c]
    decreases |s|
  {
    if |s| > 0 {
      assert s == [s[0]] + s[1..];
      StripCommasKeepsOthers(s[1..], c);
    }
  }
}
