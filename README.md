# market-radar signal engine, modelled in Dafny

market-radar's `scripts/fetch_market.py` collects daily OHLCV bars and
investor-flow rows (foreign, institutional and individual net buys) for a
watch list of Korean equities. For each stock, `calc_phase_signals`
classifies the latest day into one accumulation/distribution phase:
GOLDEN, P1 (accumulation), P2 (early rise), P3 (distribution warning) or
none. It also reports the indicators behind that phase: SMP (smart-money
proportion), the muges ratio, OBV against its 20-day mean, the volume ratio
and the two consecutive-net-buy streaks. `check_new_high` flags prices close
to the 52-week high, and `main` tallies the phase keys into `phase_stats`.

This project models that signal engine:

- `options.dfy`, `market_data.dfy`: the bar, flow-row and joined-row records,
  plus `Option`, which stands for the pandas NaN.
- `windows.dfy`: sums, windows and the "every entry is defined" test that
  `rolling(20).mean()` applies.
- `obv.dfy`: the OBV series as a recursive definition, and the OBV loop as a
  method proved equal to it.
- `consec.dfy`: `count_consec` as a backward loop with `break`, proved equal to
  the trailing run of positive values.
- `align.dfy`: the left join on date, with `fillna(0)`, and the joined columns.
- `indicators.dfy`: vol_r, muges and its 20-day mean, muges_r with Python's
  `or 1`, obv_above_ma, chg_r and SMP.
- `classifier.dfy`: the nine named conditions, the if/elif cascade, and
  a reference "first rule that holds in priority order" proved equal to the
  cascade.
- `flow_side.dfy`: the flow branch of `calc_phase_signals` (join, SMP, two
  streak walks), or all zeros when there are no flow rows. The functions
  `FlowStatsOf` and `RowStats` define it. The methods `FlowStatsByWalks` and
  `WalkRows` are the imperative counterparts: they run `count_consec` as its
  loop and are proved to return the same values.
- `phase_signals.dfy`: `calc_phase_signals` as a method proved equal to a
  specification function, and the properties of the record it returns.
- `new_high.dfy`: `check_new_high` and its three bands.
- `phase_tally.dfy`: the `phase_stats` counts.

Integers and fractions are exact (`int`, `real`). Three inputs are taken as
preconditions; the code does not defend against any of them:

- the 20 most recent closes are positive, since the muges and chg_r
  divisions use them;
- volumes are non-negative;
- flow-row dates are unique, since a duplicate would make the pandas merge
  duplicate bar rows.

## Model

| member | source | states |
|---|---|---|
| PhaseSignals.CalcPhaseSignals | scripts/fetch_market.py:240-392 | The method (history guard, OBV loop, join, two count_consec walks, cascade) returns exactly the record the specification function `PhaseSignalsOf` defines. |
| PhaseSignals.InsufficientHistory | scripts/fetch_market.py:245-246 | The short record is returned exactly when there are fewer than 21 bars (an empty list included); it has phase "" and detail "데이터 부족". |
| Obv.ComputeObv | scripts/fetch_market.py:262-270 | The OBV loop builds exactly `ObvSeries`, one value per bar. |
| Obv.ObvRecurrence | scripts/fetch_market.py:262-269 | obv[0] = 0. Each later entry differs from the one before by +volume, -volume or 0, as the close rose, fell or held. |
| Obv.ObvPrefix | scripts/fetch_market.py:263-269 | The OBV of a prefix of the bars is the prefix of the OBV: a later bar never changes earlier values. |
| Consec.CountConsec | scripts/fetch_market.py:297-306 | The backward walk that stops at the first value <= 0 returns the length of the trailing run of strictly positive values. |
| Consec.TrailingPositives | scripts/fetch_market.py:297-306 | The count is at most the length; the last n values are positive; the value just before them, if any, is <= 0. |
| Consec.TrailingPositivesUnique | scripts/fetch_market.py:301-305 | Those three properties determine the count: any n that has them is the trailing-run length. |
| Consec.NonPositiveBreaksRun | scripts/fetch_market.py:302-305 | A non-positive value at index k limits the count to the days after k. |
| Consec.CountConsecExamples | scripts/fetch_market.py:297-306 | [5,-1,3,2,4] gives 3, [1,2,3] gives 3, [] gives 0, [0,1,2] gives 2. |
| Align.FindFlow | scripts/fetch_market.py:282-283 | A flow row is found exactly when some row has the date; it then has that date. With unique dates it is the one row with that date. |
| Align.LeftJoinRows | scripts/fetch_market.py:282-285 | Row i of the join holds bar i, with the flow fields of the same-date row, or zeros when no row has that date. |
| Align.JoinWithoutFlows | scripts/fetch_market.py:284-285 | Joining onto no flow rows gives every bar zero flow fields. |
| FlowSide.FlowStatsByWalks | scripts/fetch_market.py:278-315 | The flow branch returns `FlowStatsOf`. With flow rows, that is SMP and the two streaks over the join. With none, everything is zero. |
| FlowSide.WalkRows | scripts/fetch_market.py:287-309 | Over the joined rows, the two count_consec walks and the SMP give `RowStats`: the trailing-positive runs of the foreign and institutional columns. |
| Windows.SumNonNegZero | scripts/fetch_market.py:274-275 | A sum of non-negative values is non-negative, and zero exactly when every value is zero. This is the fact behind the zero 20-day volume mean. |
| Windows.SumDefined | scripts/fetch_market.py:259 | A window sum is defined exactly when every entry is defined, as in `rolling(20)`, which needs a full window. When defined, it is the sum of the entries' values. |
| Indicators.VolMa20Zero | scripts/fetch_market.py:274 | The 20-day volume mean is non-negative, and zero exactly when all 20 volumes are zero. |
| Indicators.VolRatioMeaning | scripts/fetch_market.py:274-275 | vol_r >= 0. It is 1 when the 20-day mean is zero, which happens exactly when all 20 volumes are zero. Otherwise vol_r times the mean is the last volume. |
| Indicators.MugesValueMeaning | scripts/fetch_market.py:256-258 | muges times 3 times the close is high + low + close. |
| Indicators.MugesAt | scripts/fetch_market.py:258 | A day's muges is defined exactly when its volume is not zero. |
| Indicators.MugesMa20 | scripts/fetch_market.py:259 | The 20-day muges mean is defined exactly when none of the last 20 volumes is zero. Its value times 20 is then the sum of the last 20 daily muges values. |
| Indicators.MugesRatioMeaning | scripts/fetch_market.py:321-323 | muges_r is 1 when the mean is undefined or, after `or 1`, negative. Otherwise muges_r times the mean is today's muges (after `or 1`), and today's volume is non-zero. |
| Indicators.ObvAboveMa | scripts/fetch_market.py:324-325 | obv_above_ma holds exactly when 20 times the last OBV exceeds the sum of the last 20 OBV values. |
| Indicators.ChangeRateMeaning | scripts/fetch_market.py:327-328 | chg_r times the previous close is 100 times the close change, so chg_r <= 0 exactly when the close did not rise. |
| Indicators.SmpMeaning | scripts/fetch_market.py:288-294 | SMP is 0 for a non-positive market cap. Otherwise SMP times market cap times 10^6 is the 10-day sum of foreign plus institutional amounts. SMP > 0 exactly when both are positive. |
| Classifier.CascadePriority | scripts/fetch_market.py:360-379 | Rule r is chosen exactly when its condition holds and no earlier rule's does. No rule is chosen exactly when no condition holds. |
| Classifier.CascadeSound | scripts/fetch_market.py:360-379 | The chosen rule's condition holds and no earlier rule's does. With none chosen, no condition holds. |
| Classifier.CascadeIsFirstMatch | scripts/fetch_market.py:359-379 | The if/elif cascade equals the first holding rule of the priority list golden, p2_break, p2_accel, p2_early, p1_supply, p1_quiet, p1_obv, p3_spread, p3_change. |
| Classifier.FirstMatchSpec | scripts/fetch_market.py:359-379 | The first-match scan finds nothing exactly when no rule holds. Otherwise it finds a holding rule with no holding rule before it. |
| Classifier.Rank | scripts/fetch_market.py:360-377 | Each rule's rank is its position in the priority list. |
| Classifier.NoPhaseIffNoBranch | scripts/fetch_market.py:378-379 | The key is "none" exactly when no branch is taken, which is exactly when the label is empty. |
| Classifier.GoldenBeforeP1Supply | scripts/fetch_market.py:333-343 | golden implies p1_supply, and the key is then golden. A P1 composite-flow result has muges_r >= 0.8 or vol_r >= 1.5. |
| Classifier.P3MeansForeignSelling | scripts/fetch_market.py:356-357 | A P3 key always has a negative foreign net buy on the day. |
| Classifier.NoFlowsOnlyObvRule | scripts/fetch_market.py:342-379 | With SMP, foreign streak and both day flows at zero, the key is p1 exactly when OBV is above its mean and chg_r <= 0, through the OBV rule. Otherwise the key is none. |
| PhaseSignals.PhaseIsFirstHoldingRule | scripts/fetch_market.py:332-379 | The reported phase is rule r's label exactly when r's condition holds on the last day's indicators and no earlier rule's does. The key is "none" exactly when no condition holds. |
| PhaseSignals.LabelInjective | scripts/fetch_market.py:360-379 | Different cascade outcomes have different phase labels. |
| PhaseSignals.EmptyFlows | scripts/fetch_market.py:310-315 | Without flow rows: SMP 0, both streaks 0, no day buying. The key is p1 ("🔵 P1 OBV매집") exactly when OBV is above its mean and the close did not rise; otherwise it is none. |
| PhaseSignals.ReportedMetrics | scripts/fetch_market.py:381-392 | Past the guard, every field of the record is the indicator of the same name: vol_r, muges_r, obv_above_ma, SMP, the streaks and the two day-buy flags. |
| PhaseSignals.ZeroVolumeDefault | scripts/fetch_market.py:326 | With all of the last 20 volumes zero, vol_r is 1. |
| PhaseSignals.MissingMugesDefault | scripts/fetch_market.py:321-323 | With any of the last 20 volumes zero, muges_r is 1. |
| PhaseSignals.ZeroCapDefault | scripts/fetch_market.py:293-294 | With a non-positive market cap, SMP is 0. |
| PhaseSignals.MissingFlowBreaksStreak | scripts/fetch_market.py:282-309 | A bar date with no flow row counts as zero net buying, so neither streak reaches back past it. |
| PhaseSignals.P3ImpliesForeignSelling | scripts/fetch_market.py:355-377 | A P3 record has a negative foreign net buy on the last day and f_today_buy false. |
| NewHigh.NewHighBands | scripts/fetch_market.py:401-406 | For a positive 52-week high: "🔥신고가" exactly when 200·price >= 199·high52; "📍신고가근접" exactly when 100·price >= 97·high52 but not the first band; no flag below that. |
| NewHigh.ZeroHighNoFlag | scripts/fetch_market.py:399-400 | A zero 52-week high gives the empty flag. |
| PhaseTally.CountKey | scripts/fetch_market.py:477-480 | A phase count never exceeds the number of stocks. |
| PhaseTally.CountNewHigh | scripts/fetch_market.py:481 | The new-high count never exceeds the number of stocks. |
| PhaseTally.CountKeyIsMultiplicity | scripts/fetch_market.py:477-480 | Each phase count is the number of stocks whose phase_key equals that key. |
| PhaseTally.CountNewHighIsMultiplicity | scripts/fetch_market.py:481 | The new_high count is the number of stocks whose nh_flag is "🔥신고가". |
| PhaseTally.CountKeyAppend | scripts/fetch_market.py:477-480 | The count over two lists in turn is the sum of the counts over each. |
| PhaseTally.KeysPartitionStocks | scripts/fetch_market.py:476-480 | Every stock is counted under exactly one key. The golden/p1/p2/p3/none counts plus the short records (no phase_key) add up to the number of stocks. |
| PhaseTally.StatsBound | scripts/fetch_market.py:476-482 | The four phase tallies together, and the new-high tally, are each at most the number of stocks. |

## Left out

- The KIS API access: access token, `kis_get`, and the fetch functions for
  indices, price, daily bars, investor flow and market-wide flow. These are
  network I/O. Their records arrive here as the sequences the engine reads.
- `main`'s orchestration: the watch-list loop, the `time.sleep` pauses,
  printing, the clock and the market-hours flag, the JSON write, and the
  per-stock exception skip. Only its `phase_stats` tally is modelled.
- Floating point. pandas computes in IEEE doubles; the model uses exact
  rationals. So `round(·, 2)` on smp, muges_ratio and vol_ratio is not
  modelled, and neither are rounding differences at the band edges (99.5%,
  97%, 0.8, 1.5, ...).
- Zero or negative closes among the last 20 bars: excluded by
  `RecentClosesPositive`. A zero previous close makes the chg_r division
  at line 327, between two plain Python floats, raise ZeroDivisionError.
  `main` catches it, and the stock is dropped from the list and from
  `phase_stats` (465-466). A zero close elsewhere in the window makes that
  day's muges inf or NaN (258). A negative close gives finite but
  meaningless values. Negative volumes are excluded by the `nat` type.
- Duplicate flow dates, where the merge would multiply bar rows: excluded by
  precondition. Duplicate bar dates are not excluded; each bar row joins on
  its own, as the code does. The code does not keep only the last occurrence
  of a repeated bar date.
- The `individual` flow column is joined and zero-filled, but nothing reads
  it, so no property mentions it.
- The snapshot history store (a bounded per-date record of past results)
  has no code in `scripts/fetch_market.py` and is not part of this model.
- Smp: stated for a series of at least 10 values, the only case
  `calc_phase_signals` reaches. pandas `rolling(10).sum()` on a shorter
  series is not modelled.
- NewHighBands: stated for a positive 52-week high only. A negative high
  goes through the same code path but is not characterised.
- Behaviours of the code that the model keeps as they are:
  - too little history returns only `phase` and `detail`, no indicator
    values (245-246);
  - a zero-volume day in the 20-day muges window makes `muges_ma20` NaN,
    so `muges_r` is 1 (258-259, 321-323);
  - a muges mean of exactly 0 becomes 1 through `or 1`, so `muges_r` is
    then today's muges (322-323);
  - SMP divides by market cap in units of 10^8 (291).
