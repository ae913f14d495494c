/** What both halves of the model share. */
module Basics {

  const TWO32: int := 0x1_0000_0000

  /** Pairwise distinct elements. */
  ghost predicate Distinct<T>(s: seq<T>) {
    forall i, j :: 0 <= i < j < |s| ==> s[i] != s[j]
  }

  /** `s` without the element at `i`. */
  function DropAt<T>(s: seq<T>, i: nat): (t: seq<T>)
    requires i < |s|
    ensures |t| == |s| - 1
    ensures forall j :: 0 <= j < i ==> t[j] == s[j]
    ensures forall j :: i <= j < |t| ==> t[j] == s[j + 1]
  {
    s[..i] + s[i + 1..]
  }

  lemma {:induction false} SubsetSize<T>(a: set<T>, s: set<T>)
    requires a <= s
    ensures |a| <= |s|
    ensures |a| == |s| ==> a == s
    decreases |s|
  {
    if s != {} {
      var x :| x in s;
      if x in a {
        SubsetSize(a - {x}, s - {x});
        assert |a| == |s| ==> a == a - {x} + {x} == s - {x} + {x} == s;
      } else {
        SubsetSize(a, s - {x});
      }
    }
  }
}
