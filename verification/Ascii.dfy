/** Comparing text without regard to ASCII case. */
module Ascii {

  function Folded(c: char): char {
    if 'A' <= c <= 'Z' then c - 'A' + 'a' else c
  }

  predicate SameText(a: string, b: string) {
    |a| == |b| && forall i :: 0 <= i < |a| ==> Folded(a[i]) == Folded(b[i])
  }
}
