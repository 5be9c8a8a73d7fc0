/** Lists without repetition: free lists, descriptor chains, blocks of a file. */
module Sequences {
  predicate NoDup(s: seq<nat>) {
    forall i, j :: 0 <= i < j < |s| ==> s[i] != s[j]
  }
}
