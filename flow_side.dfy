/**
 * The flow side of calc_phase_signals: the left join of the flow rows onto
 * the bars, SMP over it, and the two count_consec streaks.
 */
module FlowSide {
  import opened MarketData
  import opened Consec
  import opened Align
  import opened Indicators

  /** The flow-derived values of the last day: SMP, the two streaks and the day's two net buys. */
  datatype FlowStats = FlowStats(smp: real, fConsec: nat, iConsec: nat, fToday: int, iToday: int)

  /**
   * With flow rows: the left join, SMP over it and the streaks of its foreign
   * and institutional columns. Without any: all zero.
   */
  function FlowStatsOf(bars: seq<Bar>, flows: seq<FlowRow>, mktcap: int): FlowStats
    requires |bars| >= SmpWindow && UniqueFlowDates(flows)
  {
    if |flows| > 0 then RowStats(LeftJoin(bars, flows), mktcap)
    else FlowStats(0.0, 0, 0, 0, 0)
  }

  /** The flow values read from the joined rows (the branch taken when there are flow rows). */
  function RowStats(rows: seq<MergedRow>, mktcap: int): FlowStats
    requires |rows| >= SmpWindow
  {
    FlowStats(Smp(SmartMoneyColumn(rows), mktcap),
              TrailingPositives(ForeignColumn(rows)), TrailingPositives(InstColumn(rows)),
              rows[|rows| - 1].foreign, rows[|rows| - 1].inst)
  }

  /** The flow branch of calc_phase_signals, with count_consec run as its loop. */
  method FlowStatsByWalks(bars: seq<Bar>, flows: seq<FlowRow>, mktcap: int) returns (fs: FlowStats)
    requires |bars| >= SmpWindow && UniqueFlowDates(flows)
    ensures fs == FlowStatsOf(bars, flows, mktcap)
  {
    if |flows| > 0 {
      var rows := LeftJoin(bars, flows);
      fs := WalkRows(rows, mktcap);
    } else {
      fs := FlowStats(0.0, 0, 0, 0, 0);
    }
  }

  /** SMP and the foreign and institutional count_consec walks over the joined rows. */
  method WalkRows(rows: seq<MergedRow>, mktcap: int) returns (fs: FlowStats)
    requires |rows| >= SmpWindow
    ensures fs == RowStats(rows, mktcap)
  {
    var fConsec := CountConsec(ForeignColumn(rows));
    var iConsec := CountConsec(InstColumn(rows));
    var last := rows[|rows| - 1];
    fs := FlowStats(Smp(SmartMoneyColumn(rows), mktcap), fConsec, iConsec, last.foreign, last.inst);
  }
}
