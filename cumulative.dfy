/** Running totals of a per-year cost list, as the two list comprehensions
    `[sum(xs[:i + 1]) for i in range(years)]` build them. */
module Cumulative {

  /** Sum of a list, peeled from the back. */
  function Sum(s: seq<real>): real
  {
    if s == [] then 0.0 else Sum(s[..|s| - 1]) + s[|s| - 1]
  }

  /** Entry i is the sum of the first i + 1 entries of s. */
  function CumSum(s: seq<real>): (r: seq<real>)
    ensures |r| == |s|
  {
    seq(|s|, i requires 0 <= i < |s| => Sum(s[..i + 1]))
  }

  /** The sum of a one-longer prefix adds exactly the next entry. */
  lemma SumPrefixStep(s: seq<real>, i: nat)
    requires i < |s|
    ensures Sum(s[..i + 1]) == Sum(s[..i]) + s[i]
  {
    assert s[..i + 1][..i] == s[..i];
  }

  /** The running totals start with the first entry and grow by one entry
      at a time: they are the prefix sums computed incrementally. */
  lemma CumSumRecurrence(s: seq<real>, i: nat)
    requires i < |s|
    ensures i == 0 ==> CumSum(s)[0] == s[0]
    ensures i > 0 ==> CumSum(s)[i] == CumSum(s)[i - 1] + s[i]
  {
    SumPrefixStep(s, i);
    if i == 0 {
      assert s[..0] == [];
    }
  }

  /** The last running total is the total of the whole list. */
  lemma CumSumLast(s: seq<real>)
    requires s != []
    ensures CumSum(s)[|s| - 1] == Sum(s)
  {
    assert s[..|s|] == s;
  }

  /** Running totals of a list with no negative entry never decrease. */
  lemma {:induction false} CumSumMonotone(s: seq<real>, i: nat, j: nat)
    requires i <= j < |s|
    requires forall k :: 0 <= k < |s| ==> s[k] >= 0.0
    ensures CumSum(s)[i] <= CumSum(s)[j]
  {
    if i < j {
      CumSumMonotone(s, i, j - 1);
      CumSumRecurrence(s, j);
    }
  }

  /** A constant list of c's has running totals (i + 1) * c. */
  lemma {:induction false} CumSumConstant(s: seq<real>, c: real, i: nat)
    requires i < |s|
    requires forall k :: 0 <= k < |s| ==> s[k] == c
    ensures CumSum(s)[i] == ((i + 1) as real) * c
  {
    CumSumRecurrence(s, i);
    if i > 0 {
      CumSumConstant(s, c, i - 1);
    }
  }
}
