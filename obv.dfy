/**
 * On-balance volume: a running total that adds the day's volume on an up
 * close, subtracts it on a down close and carries it on an unchanged close.
 */
module Obv {
  import opened MarketData

  /** The change of OBV from the bar `prev` to the bar `cur`. */
  function ObvStep(prev: Bar, cur: Bar): int {
    if cur.close > prev.close then cur.volume
    else if cur.close < prev.close then -(cur.volume as int)
    else 0
  }

  /** The OBV column, one entry per bar, starting at 0 on the first bar. */
  function ObvSeries(bars: seq<Bar>): (obv: seq<int>)
    requires |bars| >= 1
    ensures |obv| == |bars|
  {
    if |bars| == 1 then [0]
    else
      var prior := ObvSeries(bars[..|bars| - 1]);
      prior + [prior[|prior| - 1] + ObvStep(bars[|bars| - 2], bars[|bars| - 1])]
  }

  /** The OBV column of a prefix of the bars is the prefix of the OBV column. */
  lemma {:induction false} ObvPrefix(bars: seq<Bar>, k: nat)
    requires 1 <= k <= |bars|
    ensures ObvSeries(bars[..k]) == ObvSeries(bars)[..k]
  {
    if k < |bars| {
      var p := bars[..|bars| - 1];
      assert p[..k] == bars[..k];
      ObvPrefix(p, k);
      assert ObvSeries(bars)[..|bars| - 1] == ObvSeries(p);
    } else {
      assert bars[..k] == bars;
    }
  }

  /**
   * The OBV recurrence: obv[0] = 0, and each later entry differs from the
   * one before it by +volume, -volume or 0 as the close rose, fell or held.
   */
  lemma {:induction false} ObvRecurrence(bars: seq<Bar>, i: nat)
    requires 1 <= i < |bars|
    ensures ObvSeries(bars)[0] == 0
    ensures ObvSeries(bars)[i] - ObvSeries(bars)[i - 1] ==
            if bars[i].close > bars[i - 1].close then bars[i].volume
            else if bars[i].close < bars[i - 1].close then -(bars[i].volume as int)
            else 0
  {
    ObvPrefix(bars, i + 1);
    ObvPrefix(bars, 1);
    var q := bars[..i + 1];
    assert q[..|q| - 1] == bars[..i];
    ObvPrefix(bars, i);
  }

  /** The loop that builds the OBV list, appending one entry per later bar. */
  method ComputeObv(bars: seq<Bar>) returns (obv: seq<int>)
    requires |bars| >= 1
    ensures obv == ObvSeries(bars)
  {
    obv := [0];
    var i := 1;
    while i < |bars|
      invariant 1 <= i <= |bars|
      invariant obv == ObvSeries(bars[..i])
    {
      var last := obv[|obv| - 1];
      if bars[i].close > bars[i - 1].close {
        obv := obv + [last + bars[i].volume];
      } else if bars[i].close < bars[i - 1].close {
        obv := obv + [last - bars[i].volume];
      } else {
        obv := obv + [last];
      }
      assert bars[..i + 1][..i] == bars[..i];
      i := i + 1;
    }
    assert bars[..i] == bars;
  }
}
