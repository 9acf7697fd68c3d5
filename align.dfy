/**
 * The left join of the flow rows onto the bar dates, with missing flow
 * fields filled with zero, and the flow columns read from the joined table.
 */
module Align {
  import opened Options
  import opened MarketData

  /** The flow row with the given date, if there is one (the first, scanning oldest first). */
  function FindFlow(flows: seq<FlowRow>, date: string): (r: Option<FlowRow>)
    ensures r.None? <==> date !in FlowDates(flows)
    ensures r.Some? ==> r.value.date == date && r.value in flows
    ensures UniqueFlowDates(flows) ==>
              forall j :: 0 <= j < |flows| && flows[j].date == date ==> r == Some(flows[j])
  {
    if flows == [] then None
    else if flows[0].date == date then Some(flows[0])
    else
      var rest := flows[1..];
      assert FlowDates(flows) == {flows[0].date} + FlowDates(rest) by {
        forall d | d in FlowDates(flows) ensures d in {flows[0].date} + FlowDates(rest) {
          var i :| 0 <= i < |flows| && flows[i].date == d;
          if i > 0 { assert rest[i - 1] == flows[i]; }
        }
      }
      assert UniqueFlowDates(flows) ==> UniqueFlowDates(rest);
      FindFlow(rest, date)
  }

  /** A bar with the fields of its flow row, or zeros when there is none (fillna(0)). */
  function Fill(b: Bar, f: Option<FlowRow>): MergedRow {
    match f
    case None => MergedRow(b, 0, 0, 0, 0, 0)
    case Some(x) => MergedRow(b, x.foreign, x.inst, x.individual, x.foreignAmt, x.instAmt)
  }

  /** One row per bar, in bar order, carrying the bar and its date's flow fields. */
  function LeftJoin(bars: seq<Bar>, flows: seq<FlowRow>): (rows: seq<MergedRow>)
    requires UniqueFlowDates(flows)
    ensures |rows| == |bars|
  {
    seq(|bars|, i requires 0 <= i < |bars| => Fill(bars[i], FindFlow(flows, bars[i].date)))
  }

  /**
   * The joined table has exactly one row per bar, in bar order, holding that
   * bar; its flow fields are those of the flow row of the same date, or zero
   * when no flow row has that date.
   */
  lemma LeftJoinRows(bars: seq<Bar>, flows: seq<FlowRow>, i: nat)
    requires UniqueFlowDates(flows) && i < |bars|
    ensures LeftJoin(bars, flows)[i].bar == bars[i]
    ensures forall j :: 0 <= j < |flows| && flows[j].date == bars[i].date ==>
              LeftJoin(bars, flows)[i] ==
                MergedRow(bars[i], flows[j].foreign, flows[j].inst, flows[j].individual,
                          flows[j].foreignAmt, flows[j].instAmt)
    ensures bars[i].date !in FlowDates(flows) ==> LeftJoin(bars, flows)[i] == MergedRow(bars[i], 0, 0, 0, 0, 0)
  {
  }

  /** The joined foreign net-buy quantity column. */
  function ForeignColumn(rows: seq<MergedRow>): (c: seq<int>)
    ensures |c| == |rows| && forall i :: 0 <= i < |rows| ==> c[i] == rows[i].foreign
  {
    seq(|rows|, i requires 0 <= i < |rows| => rows[i].foreign)
  }

  /** The joined institutional net-buy quantity column. */
  function InstColumn(rows: seq<MergedRow>): (c: seq<int>)
    ensures |c| == |rows| && forall i :: 0 <= i < |rows| ==> c[i] == rows[i].inst
  {
    seq(|rows|, i requires 0 <= i < |rows| => rows[i].inst)
  }

  /** The joined column of foreign plus institutional net-buy amounts. */
  function SmartMoneyColumn(rows: seq<MergedRow>): (c: seq<int>)
    ensures |c| == |rows| && forall i :: 0 <= i < |rows| ==> c[i] == rows[i].foreignAmt + rows[i].instAmt
  {
    seq(|rows|, i requires 0 <= i < |rows| => rows[i].foreignAmt + rows[i].instAmt)
  }

  /** With no flow rows at all, every joined flow field is zero. */
  lemma JoinWithoutFlows(bars: seq<Bar>)
    ensures forall i :: 0 <= i < |bars| ==> LeftJoin(bars, [])[i] == MergedRow(bars[i], 0, 0, 0, 0, 0)
  {
    forall i | 0 <= i < |bars| ensures LeftJoin(bars, [])[i] == MergedRow(bars[i], 0, 0, 0, 0, 0) {
      LeftJoinRows(bars, [], i);
    }
  }
}
