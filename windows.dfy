/**
 * Trailing-window arithmetic: the exact-arithmetic meaning of pandas'
 * rolling(n).sum() and rolling(n).mean() evaluated at the last row.
 */
module Windows {
  import opened Options

  /** Sum of a sequence of integers. */
  function Sum(s: seq<int>): int {
    if s == [] then 0 else Sum(s[..|s| - 1]) + s[|s| - 1]
  }

  /** The last n elements of s. */
  function Last<T>(s: seq<T>, n: nat): seq<T>
    requires n <= |s|
  {
    s[|s| - n..]
  }

  /** Mean of the last n elements (a full window, as rolling(n) requires). */
  function MeanLast(s: seq<int>, n: nat): real
    requires 0 < n <= |s|
  {
    Sum(Last(s, n)) as real / n as real
  }

  /** A sum of non-negative integers is zero exactly when every term is zero. */
  lemma {:induction false} SumNonNegZero(s: seq<int>)
    requires forall i :: 0 <= i < |s| ==> s[i] >= 0
    ensures Sum(s) >= 0
    ensures Sum(s) == 0 <==> forall i :: 0 <= i < |s| ==> s[i] == 0
  {
    if s != [] {
      var p := s[..|s| - 1];
      assert forall i :: 0 <= i < |p| ==> p[i] == s[i];
      SumNonNegZero(p);
      if Sum(s) == 0 {
        forall i | 0 <= i < |s| ensures s[i] == 0 {
          if i < |p| { assert p[i] == s[i]; }
        }
      }
    }
  }

  /** Sum of a sequence of reals. */
  function RSum(s: seq<real>): real {
    if s == [] then 0.0 else RSum(s[..|s| - 1]) + s[|s| - 1]
  }

  /** The values of a sequence whose entries are all defined. */
  function Values(s: seq<Option<real>>): (v: seq<real>)
    requires forall i :: 0 <= i < |s| ==> s[i].Some?
    ensures |v| == |s| && forall i :: 0 <= i < |s| ==> v[i] == s[i].value
  {
    seq(|s|, i requires 0 <= i < |s| => s[i].value)
  }

  /**
   * pandas' rolling(n).sum() with its default min_periods = n: the window
   * sum is defined only when every value in it is defined (not NaN), and
   * is then the sum of those values.
   */
  function SumDefined(s: seq<Option<real>>): (r: Option<real>)
    ensures r.Some? <==> forall i :: 0 <= i < |s| ==> s[i].Some?
    ensures r.Some? ==> r.value == RSum(Values(s))
  {
    if s == [] then Some(0.0)
    else
      match SumDefined(s[..|s| - 1])
      case None => None
      case Some(p) =>
        match s[|s| - 1]
        case None => None
        case Some(x) =>
          assert Values(s)[..|s| - 1] == Values(s[..|s| - 1]);
          Some(p + x)
  }
}
