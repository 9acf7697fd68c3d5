/**
 * The indicator values of the latest bar: volume ratio, muges ratio, OBV
 * against its 20-day mean, the day's close-over-close change and SMP.
 * Each degenerate case the code guards (a zero or undefined mean, a
 * non-positive market cap) takes the code's default.
 */
module Indicators {
  import opened Options
  import opened MarketData
  import opened Windows

  const MaWindow: nat := 20
  const SmpWindow: nat := 10

  /**
   * The closes of the last 20 bars are positive: the muges values of the
   * 20-day window and the day's change divide by them.
   */
  predicate RecentClosesPositive(bars: seq<Bar>) {
    forall k :: 0 <= k < |bars| && k >= |bars| - MaWindow ==> bars[k].close > 0
  }

  /** The volume column. */
  function Volumes(bars: seq<Bar>): (v: seq<int>)
    ensures |v| == |bars| && forall i :: 0 <= i < |bars| ==> v[i] == bars[i].volume
  {
    seq(|bars|, i requires 0 <= i < |bars| => bars[i].volume as int)
  }

  /** vol_ma20 at the last bar: the mean volume of the last 20 bars. */
  function VolMa20(bars: seq<Bar>): real
    requires |bars| >= MaWindow
  {
    MeanLast(Volumes(bars), MaWindow)
  }

  /** The 20-day mean volume is zero exactly when all of the last 20 volumes are zero. */
  lemma VolMa20Zero(bars: seq<Bar>)
    requires |bars| >= MaWindow
    ensures VolMa20(bars) >= 0.0
    ensures VolMa20(bars) == 0.0 <==> forall k :: |bars| - MaWindow <= k < |bars| ==> bars[k].volume == 0
  {
    var w := Last(Volumes(bars), MaWindow);
    assert forall i :: 0 <= i < |w| ==> w[i] == bars[|bars| - MaWindow + i].volume;
    SumNonNegZero(w);
    if forall i :: 0 <= i < |w| ==> w[i] == 0 {
      forall k | |bars| - MaWindow <= k < |bars| ensures bars[k].volume == 0 {
        assert w[k - (|bars| - MaWindow)] == bars[k].volume;
      }
    }
  }

  /**
   * vol_r: the last volume over the 20-day mean volume, and 1 when that mean
   * is zero (the NaN the code maps to 1).
   */
  function VolRatio(bars: seq<Bar>): real
    requires |bars| >= MaWindow
  {
    var ma := VolMa20(bars);
    if ma == 0.0 then 1.0 else bars[|bars| - 1].volume as real / ma
  }

  /**
   * vol_r times the 20-day mean volume is the last volume, unless the mean
   * is zero (all 20 volumes zero), when vol_r is 1; vol_r is never negative.
   */
  lemma VolRatioMeaning(bars: seq<Bar>)
    requires |bars| >= MaWindow
    ensures VolRatio(bars) >= 0.0
    ensures VolMa20(bars) == 0.0 <==> forall k :: |bars| - MaWindow <= k < |bars| ==> bars[k].volume == 0
    ensures VolMa20(bars) == 0.0 ==> VolRatio(bars) == 1.0
    ensures VolMa20(bars) != 0.0 ==> VolRatio(bars) * VolMa20(bars) == bars[|bars| - 1].volume as real
  {
    VolMa20Zero(bars);
    var ma := VolMa20(bars);
    if ma != 0.0 {
      var v := bars[|bars| - 1].volume as real;
      assert v / ma * ma == v;
    }
  }

  /**
   * Per-day muges: turnover approximated as (high + low + close) / 3 times
   * volume, over close times volume.
   */
  function MugesValue(b: Bar): real
    requires b.close > 0 && b.volume != 0
  {
    var avgPrice := (b.high + b.low + b.close) as real / 3.0;
    var trVal := avgPrice * b.volume as real;
    trVal / (b.close as real * b.volume as real)
  }

  /** The muges value is the average of high, low and close over the close. */
  lemma MugesValueMeaning(b: Bar)
    requires b.close > 0 && b.volume != 0
    ensures MugesValue(b) * 3.0 * b.close as real == (b.high + b.low + b.close) as real
  {
    var avgPrice := (b.high + b.low + b.close) as real / 3.0;
    var trVal := avgPrice * b.volume as real;
    var denom := b.close as real * b.volume as real;
    assert trVal / denom * denom == trVal;
  }

  /** The muges column entry: undefined (NaN) on a zero-volume day. */
  function MugesAt(b: Bar): (m: Option<real>)
    requires b.close > 0
    ensures m.Some? <==> b.volume != 0
  {
    if b.volume == 0 then None else Some(MugesValue(b))
  }

  /** The muges values of the last 20 bars, when none of their volumes is zero. */
  function MugesWindow(bars: seq<Bar>): (w: seq<real>)
    requires |bars| >= MaWindow && RecentClosesPositive(bars)
    requires forall k :: |bars| - MaWindow <= k < |bars| ==> bars[k].volume != 0
    ensures |w| == MaWindow
  {
    seq(MaWindow, i requires 0 <= i < MaWindow => MugesValue(bars[|bars| - MaWindow + i]))
  }

  /**
   * muges_ma20 at the last bar: the mean of the last 20 muges values, and
   * undefined when any of them is (rolling(20) needs a full window).
   */
  function MugesMa20(bars: seq<Bar>): (r: Option<real>)
    requires |bars| >= MaWindow && RecentClosesPositive(bars)
    ensures r.Some? <==> forall k :: |bars| - MaWindow <= k < |bars| ==> bars[k].volume != 0
    ensures r.Some? ==> r.value * MaWindow as real == RSum(MugesWindow(bars))
  {
    var w := seq(MaWindow, i requires 0 <= i < MaWindow => MugesAt(bars[|bars| - MaWindow + i]));
    assert forall k :: |bars| - MaWindow <= k < |bars| ==> w[k - (|bars| - MaWindow)] == MugesAt(bars[k]);
    match SumDefined(w)
    case None => None
    case Some(total) =>
      assert Values(w) == MugesWindow(bars);
      Some(total / MaWindow as real)
  }

  /** Python's `x or 1` on a number that is not NaN: zero becomes 1. */
  function OrOne(x: real): real {
    if x == 0.0 then 1.0 else x
  }

  /**
   * muges_r: today's muges over its 20-day mean, after both pass through
   * `or 1`; 1 when the mean is undefined or not positive.
   */
  function MugesRatio(bars: seq<Bar>): real
    requires |bars| >= MaWindow && RecentClosesPositive(bars)
  {
    match MugesMa20(bars)
    case None => 1.0
    case Some(avg) =>
      var a := OrOne(avg);
      if a > 0.0 then OrOne(MugesValue(bars[|bars| - 1])) / a else 1.0
  }

  /**
   * muges_r is 1 when the 20-day mean is undefined or, after `or 1`, negative;
   * otherwise muges_r times that mean is today's muges (after `or 1`).
   */
  lemma MugesRatioMeaning(bars: seq<Bar>)
    requires |bars| >= MaWindow && RecentClosesPositive(bars)
    ensures MugesMa20(bars).None? ==> MugesRatio(bars) == 1.0
    ensures MugesMa20(bars).Some? && OrOne(MugesMa20(bars).value) < 0.0 ==> MugesRatio(bars) == 1.0
    ensures MugesMa20(bars).Some? && OrOne(MugesMa20(bars).value) > 0.0 ==>
              bars[|bars| - 1].volume != 0 &&
              MugesRatio(bars) * OrOne(MugesMa20(bars).value) == OrOne(MugesValue(bars[|bars| - 1]))
  {
    if MugesMa20(bars).Some? && OrOne(MugesMa20(bars).value) > 0.0 {
      var a := OrOne(MugesMa20(bars).value);
      var m := OrOne(MugesValue(bars[|bars| - 1]));
      assert m / a * a == m;
    }
  }

  /** obv_ma20 at the last bar: the mean of the last 20 OBV values. */
  function ObvMa20(obv: seq<int>): real
    requires |obv| >= MaWindow
  {
    MeanLast(obv, MaWindow)
  }

  /** obv_above_ma: the last OBV value against its 20-day mean. */
  function ObvAboveMa(obv: seq<int>): (above: bool)
    requires |obv| >= MaWindow
    ensures above <==> 20 * obv[|obv| - 1] > Sum(Last(obv, MaWindow))
  {
    obv[|obv| - 1] as real > ObvMa20(obv)
  }

  /** chg_r: the last close's percentage change against the close before it. */
  function ChangeRate(bars: seq<Bar>): real
    requires |bars| >= 2 && RecentClosesPositive(bars)
  {
    (bars[|bars| - 1].close - bars[|bars| - 2].close) as real / bars[|bars| - 2].close as real * 100.0
  }

  /**
   * chg_r times the previous close is 100 times the close-over-close
   * difference, so chg_r <= 0 exactly when the close did not rise.
   */
  lemma ChangeRateMeaning(bars: seq<Bar>)
    requires |bars| >= 2 && RecentClosesPositive(bars)
    ensures ChangeRate(bars) * bars[|bars| - 2].close as real ==
            100.0 * (bars[|bars| - 1].close - bars[|bars| - 2].close) as real
    ensures ChangeRate(bars) <= 0.0 <==> bars[|bars| - 1].close <= bars[|bars| - 2].close
  {
    var prev := bars[|bars| - 2].close as real;
    var diff := (bars[|bars| - 1].close - bars[|bars| - 2].close) as real;
    assert diff / prev * prev == diff;
  }

  /**
   * SMP: the 10-day sum of foreign plus institutional net-buy amounts as a
   * percentage of the market cap (given in units of 10^8), and 0 when the
   * market cap is not positive.
   */
  function Smp(smartMoney: seq<int>, mktcap: int): real
    requires |smartMoney| >= SmpWindow
  {
    if mktcap > 0 then
      Sum(Last(smartMoney, SmpWindow)) as real / (mktcap as real * 100000000.0) * 100.0
    else 0.0
  }

  /**
   * SMP is 0 for a non-positive market cap; otherwise SMP times the market
   * cap (in units of 10^8, over 100) is the 10-day sum, so SMP is positive
   * exactly when the market cap and the 10-day sum both are.
   */
  lemma SmpMeaning(smartMoney: seq<int>, mktcap: int)
    requires |smartMoney| >= SmpWindow
    ensures mktcap <= 0 ==> Smp(smartMoney, mktcap) == 0.0
    ensures mktcap > 0 ==>
              Smp(smartMoney, mktcap) * (mktcap as real * 1000000.0) == Sum(Last(smartMoney, SmpWindow)) as real
    ensures Smp(smartMoney, mktcap) > 0.0 <==> mktcap > 0 && Sum(Last(smartMoney, SmpWindow)) > 0
  {
    if mktcap > 0 {
      var total := Sum(Last(smartMoney, SmpWindow)) as real;
      var scale := mktcap as real * 100000000.0;
      assert total / scale * scale == total;
    }
  }
}
