/**
 * The order-preserving filter that the source writes as `array.filter(p)`,
 * with the facts about it that the due selection and the dashboard use.
 */
module Collections {

  /** The elements of `s` that satisfy `p`, in their original order. */
  function Filter<T>(s: seq<T>, p: T -> bool): (r: seq<T>)
    ensures |r| <= |s|
    decreases |s|
  {
    if s == [] then []
    else if p(s[0]) then [s[0]] + Filter(s[1..], p)
    else Filter(s[1..], p)
  }

  /** The filtered sequence holds exactly the elements of `s` that pass `p`. */
  lemma {:induction false} FilterMembers<T>(s: seq<T>, p: T -> bool)
    ensures forall i :: 0 <= i < |Filter(s, p)| ==> p(Filter(s, p)[i]) && Filter(s, p)[i] in s
    ensures forall x :: x in Filter(s, p) <==> x in s && p(x)
    decreases |s|
  {
    if s != [] {
      FilterMembers(s[1..], p);
      assert s == [s[0]] + s[1..];
    }
  }

  /** The multiplicity of every value in the filtered sequence is exactly its
      multiplicity in the input when it passes the test, and zero otherwise. */
  lemma {:induction false} FilterMultiset<T>(s: seq<T>, p: T -> bool, x: T)
    ensures multiset(Filter(s, p))[x] == if p(x) then multiset(s)[x] else 0
    decreases |s|
  {
    if s != [] {
      FilterMultiset(s[1..], p, x);
      assert s == [s[0]] + s[1..];
    }
  }

  /** When `whole` holds exactly where one of two mutually exclusive tests
      holds, its count is the sum of their counts. */
  lemma {:induction false} FilterCountSplit<T>(s: seq<T>, whole: T -> bool, left: T -> bool, right: T -> bool)
    requires forall x :: whole(x) <==> (left(x) || right(x))
    requires forall x :: !(left(x) && right(x))
    ensures |Filter(s, whole)| == |Filter(s, left)| + |Filter(s, right)|
    decreases |s|
  {
    if s != [] {
      FilterCountSplit(s[1..], whole, left, right);
    }
  }
}
