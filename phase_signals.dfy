/**
 * calc_phase_signals: from the daily bars, the flow rows and the market cap,
 * the phase of the latest day and the auxiliary metrics reported with it.
 */
module PhaseSignals {
  import opened Options
  import opened MarketData
  import opened Windows
  import opened Obv
  import opened Consec
  import opened Align
  import opened Indicators
  import opened Classifier
  import opened FlowSide

  /** Fewer bars than this and no classification is made. */
  const MinBars: nat := 21

  /** The result record; `Insufficient` is the short record returned for too little history. */
  datatype Signals =
    | Insufficient
    | Computed(phase: string, phaseKey: PhaseKey, smp: real, mugesRatio: real,
               obvAboveMa: bool, volRatio: real, fConsec: nat, iConsec: nat,
               fTodayBuy: bool, iTodayBuy: bool)
  {
    /** The "phase" field, present in both records. */
    function Phase(): string {
      if Insufficient? then "" else phase
    }

    /** The "detail" field, present only in the short record. */
    function Detail(): Option<string> {
      if Insufficient? then Some("데이터 부족") else None
    }
  }

  /** The values the rules read, for enough history. */
  function InputsOf(bars: seq<Bar>, fs: FlowStats): Inputs
    requires |bars| >= MinBars && RecentClosesPositive(bars)
  {
    Inputs(fs.smp, MugesRatio(bars), ObvAboveMa(ObvSeries(bars)), ChangeRate(bars),
           VolRatio(bars), fs.fConsec, fs.fToday, fs.iToday)
  }

  /** The record for inputs, flow values and cascade outcome past the history guard. */
  function Assemble(x: Inputs, fs: FlowStats, c: Option<Rule>): Signals {
    Computed(Label(c), Key(c), x.smp, x.mugesR, x.obvAboveMa, x.volR,
             fs.fConsec, fs.iConsec, fs.fToday > 0, fs.iToday > 0)
  }

  /** What calc_phase_signals returns. */
  function PhaseSignalsOf(bars: seq<Bar>, flows: seq<FlowRow>, mktcap: int): Signals
    requires (|bars| < MinBars || RecentClosesPositive(bars)) && UniqueFlowDates(flows)
  {
    if |bars| < MinBars then Insufficient
    else
      var fs := FlowStatsOf(bars, flows, mktcap);
      var x := InputsOf(bars, fs);
      Assemble(x, fs, Classify(x))
  }

  /**
   * calc_phase_signals as the code runs it: the history guard, the OBV loop,
   * the join and the two count_consec walks, then the cascade.
   */
  method CalcPhaseSignals(bars: seq<Bar>, flows: seq<FlowRow>, mktcap: int) returns (r: Signals)
    requires (|bars| < MinBars || RecentClosesPositive(bars)) && UniqueFlowDates(flows)
    ensures r == PhaseSignalsOf(bars, flows, mktcap)
  {
    if |bars| < MinBars {
      return Insufficient;
    }
    var obv := ComputeObv(bars);
    var fs := FlowStatsByWalks(bars, flows, mktcap);
    var x := Inputs(fs.smp, MugesRatio(bars), ObvAboveMa(obv), ChangeRate(bars),
                    VolRatio(bars), fs.fConsec, fs.fToday, fs.iToday);
    assert x == InputsOf(bars, fs);
    r := Assemble(x, fs, Classify(x));
  }

  /**
   * Fewer than 21 bars (an empty list included) give the short record with
   * phase "" and detail "데이터 부족"; 21 or more give a classified record.
   */
  lemma InsufficientHistory(bars: seq<Bar>, flows: seq<FlowRow>, mktcap: int)
    requires (|bars| < MinBars || RecentClosesPositive(bars)) && UniqueFlowDates(flows)
    ensures PhaseSignalsOf(bars, flows, mktcap).Insufficient? <==> |bars| < 21
    ensures |bars| < 21 ==> PhaseSignalsOf(bars, flows, mktcap).Phase() == "" &&
                            PhaseSignalsOf(bars, flows, mktcap).Detail() == Some("데이터 부족")
  {
  }

  /**
   * The reported phase is the one the cascade picks over the last day's
   * indicator values: the first rule in priority order that holds.
   */
  lemma PhaseIsFirstHoldingRule(bars: seq<Bar>, flows: seq<FlowRow>, mktcap: int, rule: Rule)
    requires |bars| >= MinBars && RecentClosesPositive(bars) && UniqueFlowDates(flows)
    ensures var f := FlagsOf(InputsOf(bars, FlowStatsOf(bars, flows, mktcap)));
            var r := PhaseSignalsOf(bars, flows, mktcap);
            (r.phase == Label(Some(rule)) <==>
               Fires(rule, f) && forall q: Rule :: Rank(q) < Rank(rule) ==> !Fires(q, f)) &&
            (r.phaseKey == NoPhase <==> forall q: Rule :: !Fires(q, f))
  {
    var fs := FlowStatsOf(bars, flows, mktcap);
    var x := InputsOf(bars, fs);
    var c := Classify(x);
    assert PhaseSignalsOf(bars, flows, mktcap) == Assemble(x, fs, c);
    CascadePriority(FlagsOf(x), rule);
    NoPhaseIffNoBranch(c);
    LabelInjective(c, Some(rule));
  }

  /** Different cascade outcomes have different labels. */
  lemma LabelInjective(a: Option<Rule>, b: Option<Rule>)
    ensures Label(a) == Label(b) ==> a == b
  {
  }

  /**
   * Without flow rows: SMP 0, both streaks 0, no day buying, and the phase is
   * p1 through the OBV rule or none.
   */
  lemma EmptyFlows(bars: seq<Bar>, mktcap: int)
    requires |bars| >= MinBars && RecentClosesPositive(bars)
    ensures var r := PhaseSignalsOf(bars, [], mktcap);
            r.smp == 0.0 && r.fConsec == 0 && r.iConsec == 0 && !r.fTodayBuy && !r.iTodayBuy &&
            (r.phaseKey == P1 || r.phaseKey == NoPhase) &&
            (r.phaseKey == P1 <==> r.obvAboveMa && bars[|bars| - 1].close <= bars[|bars| - 2].close) &&
            (r.phaseKey == P1 ==> r.phase == "🔵 P1 OBV매집")
  {
    var fs := FlowStatsOf(bars, [], mktcap);
    var x := InputsOf(bars, fs);
    assert PhaseSignalsOf(bars, [], mktcap) == Assemble(x, fs, Classify(x));
    NoFlowsOnlyObvRule(x);
    ChangeRateMeaning(bars);
  }

  /** Past the history guard, each reported metric is the indicator of the same name. */
  lemma ReportedMetrics(bars: seq<Bar>, flows: seq<FlowRow>, mktcap: int)
    requires |bars| >= MinBars && RecentClosesPositive(bars) && UniqueFlowDates(flows)
    ensures var r := PhaseSignalsOf(bars, flows, mktcap);
            var fs := FlowStatsOf(bars, flows, mktcap);
            r.Computed? && r.volRatio == VolRatio(bars) && r.mugesRatio == MugesRatio(bars) &&
            r.obvAboveMa == ObvAboveMa(ObvSeries(bars)) && r.smp == fs.smp &&
            r.fConsec == fs.fConsec && r.iConsec == fs.iConsec &&
            r.fTodayBuy == (fs.fToday > 0) && r.iTodayBuy == (fs.iToday > 0)
  {
    var fs := FlowStatsOf(bars, flows, mktcap);
    var x := InputsOf(bars, fs);
    assert PhaseSignalsOf(bars, flows, mktcap) == Assemble(x, fs, Classify(x));
  }

  /** vol_r falls back to 1 when every volume of the last 20 days is zero. */
  lemma ZeroVolumeDefault(bars: seq<Bar>, flows: seq<FlowRow>, mktcap: int)
    requires |bars| >= MinBars && RecentClosesPositive(bars) && UniqueFlowDates(flows)
    requires forall k :: |bars| - 20 <= k < |bars| ==> bars[k].volume == 0
    ensures PhaseSignalsOf(bars, flows, mktcap).volRatio == 1.0
  {
    ReportedMetrics(bars, flows, mktcap);
    VolRatioMeaning(bars);
  }

  /** muges_r falls back to 1 when any volume of the last 20 days is zero. */
  lemma MissingMugesDefault(bars: seq<Bar>, flows: seq<FlowRow>, mktcap: int, k: int)
    requires |bars| >= MinBars && RecentClosesPositive(bars) && UniqueFlowDates(flows)
    requires |bars| - 20 <= k < |bars| && bars[k].volume == 0
    ensures PhaseSignalsOf(bars, flows, mktcap).mugesRatio == 1.0
  {
    ReportedMetrics(bars, flows, mktcap);
    MugesRatioMeaning(bars);
  }

  /** SMP is 0 for a market cap that is not positive. */
  lemma ZeroCapDefault(bars: seq<Bar>, flows: seq<FlowRow>, mktcap: int)
    requires |bars| >= MinBars && RecentClosesPositive(bars) && UniqueFlowDates(flows)
    requires mktcap <= 0
    ensures PhaseSignalsOf(bars, flows, mktcap).smp == 0.0
  {
    ReportedMetrics(bars, flows, mktcap);
    if |flows| > 0 {
      SmpMeaning(SmartMoneyColumn(LeftJoin(bars, flows)), mktcap);
    }
  }

  /**
   * A bar date with no flow row reads as zero net buying, so neither streak
   * can reach back past it; a missing last day leaves both streaks at 0.
   */
  lemma MissingFlowBreaksStreak(bars: seq<Bar>, flows: seq<FlowRow>, mktcap: int, k: nat)
    requires |bars| >= MinBars && RecentClosesPositive(bars) && UniqueFlowDates(flows)
    requires k < |bars| && bars[k].date !in FlowDates(flows)
    ensures var r := PhaseSignalsOf(bars, flows, mktcap);
            r.fConsec <= |bars| - 1 - k && r.iConsec <= |bars| - 1 - k
  {
    if |flows| > 0 {
      var rows := LeftJoin(bars, flows);
      LeftJoinRows(bars, flows, k);
      NonPositiveBreaksRun(ForeignColumn(rows), k);
      NonPositiveBreaksRun(InstColumn(rows), k);
    }
  }

  /** A P3 phase always means the last day's foreign net buy is negative. */
  lemma P3ImpliesForeignSelling(bars: seq<Bar>, flows: seq<FlowRow>, mktcap: int)
    requires |bars| >= MinBars && RecentClosesPositive(bars) && UniqueFlowDates(flows)
    ensures PhaseSignalsOf(bars, flows, mktcap).phaseKey == P3 ==>
              FlowStatsOf(bars, flows, mktcap).fToday < 0 && !PhaseSignalsOf(bars, flows, mktcap).fTodayBuy
  {
    var fs := FlowStatsOf(bars, flows, mktcap);
    var x := InputsOf(bars, fs);
    assert PhaseSignalsOf(bars, flows, mktcap) == Assemble(x, fs, Classify(x));
    P3MeansForeignSelling(x);
  }
}
