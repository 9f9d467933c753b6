/**
 * Removing repeats from a sequence while keeping the first occurrence of
 * each element, in the order the elements were first seen. This is the
 * reference behaviour of the accumulator the industry listing builds: an
 * object key added on first sight, and `companies.includes(code)` checked
 * before each `push`.
 */
module Dedup {

  /** `s` with every element after its first occurrence dropped. */
  function Distinct<T(==)>(s: seq<T>): seq<T>
    decreases |s|
  {
    if |s| == 0 then []
    else
      var d := Distinct(s[..|s| - 1]);
      if s[|s| - 1] in d then d else d + [s[|s| - 1]]
  }

  predicate NoDuplicates<T(==)>(s: seq<T>) {
    forall i, j :: 0 <= i < j < |s| ==> s[i] != s[j]
  }

  /** The position of the first occurrence of `x` in `s`. */
  function FirstIndex<T(==)>(s: seq<T>, x: T): (k: nat)
    requires x in s
    ensures k < |s| && s[k] == x
    ensures forall j :: 0 <= j < k ==> s[j] != x
  {
    if s[0] == x then 0 else 1 + FirstIndex(s[1..], x)
  }

  /** Appending an element leaves the first occurrence of earlier elements where it was. */
  lemma FirstIndexAppend<T>(s: seq<T>, x: T, y: T)
    requires y in s
    ensures y in s + [x]
    ensures FirstIndex(s + [x], y) == FirstIndex(s, y)
  {
    assert (s + [x])[FirstIndex(s, y)] == y;
  }

  /** Nothing is lost and nothing is invented. */
  lemma {:induction false} DistinctMembers<T>(s: seq<T>)
    ensures forall x :: x in Distinct(s) <==> x in s
  {
    if |s| > 0 {
      var p := s[..|s| - 1];
      DistinctMembers(p);
      assert s == p + [s[|s| - 1]];
    }
  }

  /** Every element is kept exactly once. */
  lemma {:induction false} DistinctNoDuplicates<T>(s: seq<T>)
    ensures NoDuplicates(Distinct(s))
  {
    if |s| > 0 {
      DistinctNoDuplicates(s[..|s| - 1]);
    }
  }

  /** The kept elements come in the order of their first occurrences in `s`. */
  lemma {:induction false} DistinctFirstSeenOrder<T>(s: seq<T>)
    ensures forall x :: x in Distinct(s) ==> x in s
    ensures forall i, j :: 0 <= i < j < |Distinct(s)| ==>
      FirstIndex(s, Distinct(s)[i]) < FirstIndex(s, Distinct(s)[j])
  {
    DistinctMembers(s);
    if |s| > 0 {
      var p, x := s[..|s| - 1], s[|s| - 1];
      var d, d' := Distinct(s), Distinct(p);
      assert s == p + [x];
      DistinctFirstSeenOrder(p);
      DistinctMembers(p);
      forall y | y in d'
        ensures FirstIndex(s, y) == FirstIndex(p, y) < |p|
      {
        FirstIndexAppend(p, x, y);
      }
      if x !in d' {
        assert FirstIndex(s, x) == |p|;
        assert d == d' + [x];
        forall i, j | 0 <= i < j < |d|
          ensures FirstIndex(s, d[i]) < FirstIndex(s, d[j])
        {
          assert d[i] == d'[i];
          if j < |d'| {
            assert d[j] == d'[j];
          }
        }
      }
    }
  }
}
