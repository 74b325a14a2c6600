/** Searching a string for a separator character. */
module Strings {

  /** The index of the first occurrence of `c` in `s`, or `|s|` when there is none. */
  function FirstIndex(s: string, c: char): (k: nat)
    ensures k <= |s|
    ensures k < |s| ==> s[k] == c
    ensures forall j :: 0 <= j < k ==> s[j] != c
  {
    if s == [] then 0
    else if s[0] == c then 0
    else 1 + FirstIndex(s[1..], c)
  }

  /** In `a + [c] + rest`, the first `c` is the one after `a` when `a` holds none. */
  lemma FirstIndexAfter(a: string, c: char, rest: string)
    requires forall j :: 0 <= j < |a| ==> a[j] != c
    ensures FirstIndex(a + [c] + rest, c) == |a|
  {
    var s := a + [c] + rest;
    assert s[|a|] == c;
    assert forall j :: 0 <= j < |a| ==> s[j] == a[j];
  }

  /** Regrouping text appended piece by piece. */
  lemma AppendRegroup5(w: string, a: string, b: string, c: string, d: string, e: string)
    ensures w + a + b + c + d + e == w + (a + b + c + d + e)
  {
  }

  lemma AppendRegroup3(w: string, a: string, b: string, c: string)
    ensures w + a + b + c == w + (a + b + c)
  {
  }
}
