/**
 * Python's `sorted` on a list of strings. Only the outcome is modelled:
 * an ascending arrangement of the same strings. The arrangement is built by
 * insertion, and SortedUnique shows that no other algorithm (Timsort among
 * them) could produce a different sequence.
 */
module Sorting {
  import opened Text

  /** Ascending in Python's string order, neighbour by neighbour. */
  ghost predicate Sorted(s: seq<string>)
  {
    forall i :: 0 <= i < |s| - 1 ==> LessEq(s[i], s[i + 1])
  }

  /** Neighbourwise order extends to every pair of positions. */
  lemma {:induction false} SortedPairwise(s: seq<string>)
    requires Sorted(s)
    ensures forall i, j :: 0 <= i <= j < |s| ==> LessEq(s[i], s[j])
    decreases |s|
  {
    if |s| > 0 {
      var t := s[..|s| - 1];
      assert Sorted(t) by {
        forall i | 0 <= i < |t| - 1 ensures LessEq(t[i], t[i + 1]) {
          assert t[i] == s[i] && t[i + 1] == s[i + 1];
        }
      }
      SortedPairwise(t);
      forall i, j | 0 <= i <= j < |s| ensures LessEq(s[i], s[j]) {
        if j < |s| - 1 {
          assert t[i] == s[i] && t[j] == s[j];
        } else if i == j {
          LessEqReflexive(s[i]);
        } else {
          assert t[i] == s[i] && t[|s| - 2] == s[|s| - 2];
          LessEqTransitive(s[i], s[|s| - 2], s[|s| - 1]);
        }
      }
    }
  }

  /** Insert `x` into the sorted `s` before the first element that is not below it. */
  function Insert(x: string, s: seq<string>): (r: seq<string>)
    requires Sorted(s)
    ensures |r| == |s| + 1
    ensures Sorted(r)
    ensures multiset(r) == multiset(s) + multiset{x}
    ensures r[0] == x || (|s| > 0 && r[0] == s[0])
  {
    if s == [] then [x]
    else if LessEq(x, s[0]) then [x] + s
    else
      LessEqTotal(x, s[0]);
      assert s == [s[0]] + s[1..];
      [s[0]] + Insert(x, s[1..])
  }

  /** `sorted(s)`: insertion sort. */
  function SortStrings(s: seq<string>): (r: seq<string>)
    ensures Sorted(r)
    ensures multiset(r) == multiset(s)
    ensures |r| == |s|
  {
    if s == [] then []
    else
      assert s == [s[0]] + s[1..];
      Insert(s[0], SortStrings(s[1..]))
  }

  /** Dropping the first element keeps a sequence ascending. */
  lemma SortedTail(s: seq<string>)
    requires Sorted(s) && |s| > 0
    ensures Sorted(s[1..])
  {
  }

  /** The first element of an ascending sequence is below every element. */
  lemma HeadIsLeast(s: seq<string>, x: string)
    requires Sorted(s) && x in s
    ensures LessEq(s[0], x)
  {
    SortedPairwise(s);
    var k :| 0 <= k < |s| && s[k] == x;
  }

  /** Being sorted and a permutation of the input determines the output completely. */
  lemma {:induction false} SortedUnique(a: seq<string>, b: seq<string>)
    requires Sorted(a) && Sorted(b)
    requires multiset(a) == multiset(b)
    ensures a == b
    decreases |a|
  {
    assert |a| == |multiset(a)| == |multiset(b)| == |b|;
    if |a| > 0 {
      assert a[0] in multiset(b) && b[0] in multiset(a);
      HeadIsLeast(a, b[0]);
      HeadIsLeast(b, a[0]);
      LessEqAntisymmetric(a[0], b[0]);
      assert a == [a[0]] + a[1..] && b == [b[0]] + b[1..];
      assert multiset(a[1..]) == multiset(a) - multiset{a[0]};
      assert multiset(b[1..]) == multiset(b) - multiset{b[0]};
      SortedTail(a);
      SortedTail(b);
      SortedUnique(a[1..], b[1..]);
    }
  }
}
