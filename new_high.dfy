/** check_new_high: how close the current price is to the 52-week high. */
module NewHigh {

  datatype NewHighFlag = NewHigh | NearHigh | NoFlag

  /** The nh_flag strings of the output record. */
  function FlagText(f: NewHighFlag): string {
    match f
    case NewHigh => "🔥신고가"
    case NearHigh => "📍신고가근접"
    case NoFlag => ""
  }

  /** A ratio of at least 99.5% is a new high, at least 97% is near one; a zero high gives no flag. */
  function CheckNewHigh(price: int, high52: int): NewHighFlag {
    if high52 == 0 then NoFlag
    else
      var ratio := price as real / high52 as real * 100.0;
      if ratio >= 99.5 then NewHigh
      else if ratio >= 97.0 then NearHigh
      else NoFlag
  }

  /**
   * For a positive 52-week high the three flags are the three integer bands
   * 200 * price >= 199 * high52 (99.5%), 100 * price >= 97 * high52 (97%)
   * and below.
   */
  lemma {:induction false} NewHighBands(price: int, high52: int)
    requires high52 > 0
    ensures CheckNewHigh(price, high52) == NewHigh <==> 200 * price >= 199 * high52
    ensures CheckNewHigh(price, high52) == NearHigh <==>
              100 * price >= 97 * high52 && 200 * price < 199 * high52
    ensures CheckNewHigh(price, high52) == NoFlag <==> 100 * price < 97 * high52
  {
    var h := high52 as real;
    var p := price as real;
    var ratio := p / h * 100.0;
    assert ratio * h == 100.0 * p;
    ScaleByPositive(ratio, 99.5, h);
    ScaleByPositive(ratio, 97.0, h);
    assert ratio >= 99.5 <==> 100.0 * p >= 99.5 * h;
    assert ratio >= 97.0 <==> 100.0 * p >= 97.0 * h;
    assert (200 * price) as real == 200.0 * p && (199 * high52) as real == 199.0 * h;
    assert (100 * price) as real == 100.0 * p && (97 * high52) as real == 97.0 * h;
  }

  /** Multiplying both sides by a positive number keeps a comparison. */
  lemma ScaleByPositive(x: real, c: real, h: real)
    requires h > 0.0
    ensures x >= c <==> x * h >= c * h
  {
    if x >= c {
      assert x * h - c * h == (x - c) * h;
    } else {
      assert c * h - x * h == (c - x) * h;
    }
  }

  /** A zero 52-week high never flags. */
  lemma ZeroHighNoFlag(price: int)
    ensures CheckNewHigh(price, 0) == NoFlag && FlagText(CheckNewHigh(price, 0)) == ""
  {
  }
}
