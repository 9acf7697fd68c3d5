/**
 * The two input feeds of the signal engine: daily price bars and daily
 * investor-flow rows, both oldest first, plus the row that a left join of
 * the two produces.
 */
module MarketData {

  /** One daily bar (fields stck_bsop_date, stck_oprc, stck_hgpr, stck_lwpr, stck_clpr, acml_vol). */
  datatype Bar = Bar(date: string, open: int, high: int, low: int, close: int, volume: nat)

  /** One daily investor-flow row: net-buy quantities and net-buy amounts per investor class. */
  datatype FlowRow = FlowRow(date: string, foreign: int, inst: int, individual: int,
                             foreignAmt: int, instAmt: int)

  /** A bar with the flow fields of the same date (zero when no flow row has that date). */
  datatype MergedRow = MergedRow(bar: Bar, foreign: int, inst: int, individual: int,
                                 foreignAmt: int, instAmt: int)

  /** No two flow rows share a date, so the left join cannot duplicate a bar. */
  predicate UniqueFlowDates(flows: seq<FlowRow>) {
    forall i, j :: 0 <= i < j < |flows| ==> flows[i].date != flows[j].date
  }

  /** The dates that have a flow row. */
  function FlowDates(flows: seq<FlowRow>): set<string> {
    set i | 0 <= i < |flows| :: flows[i].date
  }
}
