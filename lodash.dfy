/**
 * The two lodash helpers the draw pages rely on: `difference`, and the
 * tokens `uniqueId` hands out.
 */
module Lodash {
  import Numerals

  /**
   * `_.difference(xs, excluded)`: the elements of xs that do not occur in
   * excluded, in their order in xs and with their repeats, compared by
   * identity (SameValueZero).
   */
  function Difference<T(==)>(xs: seq<T>, excluded: seq<T>): (r: seq<T>)
    ensures |r| <= |xs|
    ensures forall x :: x in r ==> x in xs && x !in excluded
    ensures forall x :: x in xs && x !in excluded ==> x in r
    ensures forall x :: x in xs ==> multiset(r)[x] == if x in excluded then 0 else multiset(xs)[x]
  {
    if xs == [] then []
    else
      var rest := Difference(xs[1..], excluded);
      assert xs == [xs[0]] + xs[1..];
      if xs[0] in excluded then
        assert multiset(rest)[xs[0]] == 0;
        rest
      else
        [xs[0]] + rest
  }

  /** r can be obtained from xs by deleting elements, keeping the order of the rest. */
  ghost predicate IsSubsequence<T>(r: seq<T>, xs: seq<T>)
    decreases |xs|
  {
    r == [] || (xs != [] && ((r[0] == xs[0] && IsSubsequence(r[1..], xs[1..])) || IsSubsequence(r, xs[1..])))
  }

  lemma {:induction false} DifferenceIsSubsequence<T>(xs: seq<T>, excluded: seq<T>)
    ensures IsSubsequence(Difference(xs, excluded), xs)
    decreases |xs|
  {
    if xs != [] {
      DifferenceIsSubsequence(xs[1..], excluded);
      if xs[0] !in excluded {
        assert ([xs[0]] + Difference(xs[1..], excluded))[1..] == Difference(xs[1..], excluded);
      }
    }
  }

  /** Nothing is removed exactly when no element of xs occurs in excluded. */
  lemma {:induction false} DifferenceKeepsAllIff<T>(xs: seq<T>, excluded: seq<T>)
    ensures |Difference(xs, excluded)| == |xs| <==> forall x :: x in xs ==> x !in excluded
    decreases |xs|
  {
    if xs != [] {
      DifferenceKeepsAllIff(xs[1..], excluded);
      assert forall x :: x in xs <==> x == xs[0] || x in xs[1..];
    }
  }

  /** The string `uniqueId()` returns once its counter has reached n. */
  function UniqueIdToken(n: nat): (s: string)
    ensures Numerals.AllDigits(s)
  {
    Numerals.NatToString(n)
  }

  /** A token differs from every token handed out before it. */
  lemma UniqueIdTokenFresh(n: nat, earlier: nat)
    requires earlier < n
    ensures UniqueIdToken(earlier) != UniqueIdToken(n)
  {
    Numerals.NatToStringInjective(earlier, n);
  }
}
