/**
 * The consecutive net-buy counter: how many of the most recent days, counted
 * back from the last one, have a strictly positive value.
 */
module Consec {

  /** The length of the trailing run of strictly positive values. */
  function TrailingPositives(s: seq<int>): (n: nat)
    ensures n <= |s|
    ensures forall k :: |s| - n <= k < |s| ==> s[k] > 0
    ensures n < |s| ==> s[|s| - 1 - n] <= 0
  {
    if s == [] || s[|s| - 1] <= 0 then 0
    else 1 + TrailingPositives(s[..|s| - 1])
  }

  /**
   * The three properties above determine the count: any n that satisfies
   * them is the trailing-run length.
   */
  lemma {:induction false} TrailingPositivesUnique(s: seq<int>, n: nat)
    requires n <= |s|
    requires forall k :: |s| - n <= k < |s| ==> s[k] > 0
    requires n < |s| ==> s[|s| - 1 - n] <= 0
    ensures n == TrailingPositives(s)
  {
    if n > 0 {
      var p := s[..|s| - 1];
      assert forall k :: |p| - (n - 1) <= k < |p| ==> p[k] == s[k];
      assert n - 1 < |p| ==> p[|p| - 1 - (n - 1)] == s[|s| - 1 - n];
      TrailingPositivesUnique(p, n - 1);
    }
  }

  /** A non-positive value at index k bounds the run to the days after k. */
  lemma NonPositiveBreaksRun(s: seq<int>, k: nat)
    requires k < |s| && s[k] <= 0
    ensures TrailingPositives(s) <= |s| - 1 - k
  {
  }

  /** count_consec: walk the series from the end, stopping at the first value <= 0. */
  method CountConsec(vals: seq<int>) returns (cnt: nat)
    ensures cnt == TrailingPositives(vals)
  {
    cnt := 0;
    var k := |vals|;
    while k > 0
      invariant 0 <= k <= |vals|
      invariant cnt == |vals| - k
      invariant TrailingPositives(vals) == cnt + TrailingPositives(vals[..k])
    {
      if vals[k - 1] > 0 {
        assert vals[..k][..k - 1] == vals[..k - 1];
        cnt := cnt + 1;
        k := k - 1;
      } else {
        break;
      }
    }
  }

  /** The worked examples: [5, -1, 3, 2, 4] gives 3, [1, 2, 3] gives 3, [] gives 0, [0, 1, 2] gives 2. */
  lemma CountConsecExamples()
    ensures TrailingPositives([5, -1, 3, 2, 4]) == 3
    ensures TrailingPositives([1, 2, 3]) == 3
    ensures TrailingPositives([]) == 0
    ensures TrailingPositives([0, 1, 2]) == 2
  {
    TrailingPositivesUnique([5, -1, 3, 2, 4], 3);
    TrailingPositivesUnique([1, 2, 3], 3);
    TrailingPositivesUnique([0, 1, 2], 2);
  }
}
