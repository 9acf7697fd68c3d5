/**
 * The phase_stats block of market.json: how many stocks got each phase key,
 * and how many are flagged as a new 52-week high.
 */
module PhaseTally {
  import opened Options
  import opened Classifier
  import opened PhaseSignals
  import opened NewHigh

  /** The part of one stock's record that the tally reads. */
  datatype StockSummary = StockSummary(signals: Signals, nhFlag: NewHighFlag)

  /** The phase_key field of a stock record; the short record has none. */
  function StockKey(s: StockSummary): Option<PhaseKey> {
    match s.signals
    case Insufficient => None
    case Computed(_, key, _, _, _, _, _, _, _, _) => Some(key)
  }

  /** The phase_stats record. */
  datatype Stats = Stats(golden: nat, p1: nat, p2: nat, p3: nat, newHigh: nat)

  /** The number of stocks whose phase_key field equals `key` (None: no such field). */
  function CountKey(stocks: seq<StockSummary>, key: Option<PhaseKey>): (n: nat)
    ensures n <= |stocks|
  {
    if stocks == [] then 0
    else (if StockKey(stocks[0]) == key then 1 else 0) + CountKey(stocks[1..], key)
  }

  /** The number of stocks flagged "🔥신고가". */
  function CountNewHigh(stocks: seq<StockSummary>): (n: nat)
    ensures n <= |stocks|
  {
    if stocks == [] then 0
    else (if stocks[0].nhFlag == NewHigh then 1 else 0) + CountNewHigh(stocks[1..])
  }

  function StatsOf(stocks: seq<StockSummary>): Stats {
    Stats(CountKey(stocks, Some(Golden)), CountKey(stocks, Some(P1)), CountKey(stocks, Some(P2)),
          CountKey(stocks, Some(P3)), CountNewHigh(stocks))
  }

  /** The phase_key column of the stock list. */
  function Keys(stocks: seq<StockSummary>): (ks: seq<Option<PhaseKey>>)
    ensures |ks| == |stocks| && forall i :: 0 <= i < |stocks| ==> ks[i] == StockKey(stocks[i])
  {
    seq(|stocks|, i requires 0 <= i < |stocks| => StockKey(stocks[i]))
  }

  /** Each count is the multiplicity of its key among the stocks' keys. */
  lemma {:induction false} CountKeyIsMultiplicity(stocks: seq<StockSummary>, key: Option<PhaseKey>)
    ensures CountKey(stocks, key) == multiset(Keys(stocks))[key]
  {
    if stocks != [] {
      CountKeyIsMultiplicity(stocks[1..], key);
      assert Keys(stocks) == [StockKey(stocks[0])] + Keys(stocks[1..]);
    }
  }

  /** The nh_flag column of the stock list. */
  function NhFlags(stocks: seq<StockSummary>): (fs: seq<NewHighFlag>)
    ensures |fs| == |stocks| && forall i :: 0 <= i < |stocks| ==> fs[i] == stocks[i].nhFlag
  {
    seq(|stocks|, i requires 0 <= i < |stocks| => stocks[i].nhFlag)
  }

  /** The new-high count is the multiplicity of "🔥신고가" among the stocks' flags. */
  lemma {:induction false} CountNewHighIsMultiplicity(stocks: seq<StockSummary>)
    ensures CountNewHigh(stocks) == multiset(NhFlags(stocks))[NewHigh]
  {
    if stocks != [] {
      CountNewHighIsMultiplicity(stocks[1..]);
      assert NhFlags(stocks) == [stocks[0].nhFlag] + NhFlags(stocks[1..]);
    }
  }

  /** Counting over two lists in turn adds up (the tally is a sum over the stocks). */
  lemma {:induction false} CountKeyAppend(a: seq<StockSummary>, b: seq<StockSummary>, key: Option<PhaseKey>)
    ensures CountKey(a + b, key) == CountKey(a, key) + CountKey(b, key)
  {
    if a != [] {
      assert (a + b)[1..] == a[1..] + b;
      CountKeyAppend(a[1..], b, key);
    } else {
      assert a + b == b;
    }
  }

  /**
   * Every stock is counted under exactly one key: the four tallies, the "none"
   * count and the short records together make up the whole list.
   */
  lemma {:induction false} KeysPartitionStocks(stocks: seq<StockSummary>)
    ensures CountKey(stocks, Some(Golden)) + CountKey(stocks, Some(P1)) + CountKey(stocks, Some(P2)) +
            CountKey(stocks, Some(P3)) + CountKey(stocks, Some(NoPhase)) + CountKey(stocks, None) == |stocks|
  {
    if stocks != [] {
      KeysPartitionStocks(stocks[1..]);
      match StockKey(stocks[0])
      case None =>
      case Some(k) => assert k == Golden || k == P1 || k == P2 || k == P3 || k == NoPhase;
    }
  }

  /** The four phase tallies together never exceed the number of stocks. */
  lemma StatsBound(stocks: seq<StockSummary>)
    ensures var st := StatsOf(stocks);
            st.golden + st.p1 + st.p2 + st.p3 <= |stocks| && st.newHigh <= |stocks|
  {
    KeysPartitionStocks(stocks);
  }
}
