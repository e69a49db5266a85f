/** Definitions shared by every component: optional values and repetition-free sequences. */
module Prelude {

  datatype Option<+T> = None | Some(value: T)

  /** No element occurs twice. */
  ghost predicate Distinct<T>(s: seq<T>) {
    forall i, j :: 0 <= i < j < |s| ==> s[i] != s[j]
  }

  /** Taking the front element off a repetition-free sequence. */
  lemma TailOfDistinct<T>(s: seq<T>)
    requires Distinct(s) && s != []
    ensures Distinct(s[1..])
    ensures forall x :: x in s[1..] <==> x in s && x != s[0]
  {
    forall x | x in s && x != s[0] ensures x in s[1..] {
      var i :| 0 <= i < |s| && s[i] == x;
      assert s[1..][i - 1] == x;
    }
  }
}
