/**
 * The arithmetic behind the KPI cards (`display_kpi_metrics`): current and
 * previous close, absolute and percentage change, the 24-period high and
 * low, and the up/down indicator. An empty frame makes the first lookup raise,
 * which the handler at app.py:394-395 catches and reports with `st.error`,
 * showing no metrics: `None` here.
 */
module Kpi {
  import opened Wrappers
  import opened Market

  datatype Metrics = Metrics(currentPrice: real, previousPrice: real, priceChange: real,
                             priceChangePct: real, high24h: real, low24h: real,
                             changeUp: bool)

  /** The rows the 24-period high and low look at. */
  function Window(data: seq<Bar>): (w: seq<Bar>)
    ensures |w| == if |data| >= 24 then 24 else |data|
    ensures w == data[|data| - |w|..]
  {
    if |data| >= 24 then data[|data| - 24..] else data
  }

  /** The largest value of a non-empty column. */
  function SeqMax(s: seq<real>): (m: real)
    requires |s| > 0
    ensures exists k :: 0 <= k < |s| && s[k] == m
    ensures forall k :: 0 <= k < |s| ==> s[k] <= m
  {
    if |s| == 1 then s[0] else Max(s[0], SeqMax(s[1..]))
  }

  /** The smallest value of a non-empty column. */
  function SeqMin(s: seq<real>): (m: real)
    requires |s| > 0
    ensures exists k :: 0 <= k < |s| && s[k] == m
    ensures forall k :: 0 <= k < |s| ==> m <= s[k]
  {
    if |s| == 1 then s[0] else Min(s[0], SeqMin(s[1..]))
  }

  /**
   * The percentage change from `previous` to `current`, or 0 when `previous`
   * is 0: the percentage times the previous price is 100 times the change, and
   * for a positive previous price it is positive exactly when the price rose.
   */
  function ChangePct(current: real, previous: real): (pct: real)
    ensures previous != 0.0 ==> pct * previous == 100.0 * (current - previous)
    ensures previous == 0.0 ==> pct == 0.0
    ensures previous > 0.0 ==> (pct > 0.0 <==> current > previous)
  {
    var change := current - previous;
    if previous != 0.0 then
      var q := change / previous;
      assert q * previous == change;
      assert previous > 0.0 ==> (q > 0.0 <==> change > 0.0);
      q * 100.0
    else 0.0
  }

  /** The largest High of the window. */
  function High24(data: seq<Bar>): (high: real)
    requires |data| > 0
    ensures exists k :: 0 <= k < |Window(data)| && Window(data)[k].high == high
    ensures forall k :: 0 <= k < |Window(data)| ==> Window(data)[k].high <= high
  {
    HighOfRows(Window(data));
    SeqMax(Highs(Window(data)))
  }

  /** The smallest Low of the window. */
  function Low24(data: seq<Bar>): (low: real)
    requires |data| > 0
    ensures exists k :: 0 <= k < |Window(data)| && Window(data)[k].low == low
    ensures forall k :: 0 <= k < |Window(data)| ==> low <= Window(data)[k].low
  {
    LowOfRows(Window(data));
    SeqMin(Lows(Window(data)))
  }

  /** The largest value of the High column is the High of one of the rows, and no row's High exceeds it. */
  lemma HighOfRows(w: seq<Bar>)
    requires |w| > 0
    ensures exists k :: 0 <= k < |w| && w[k].high == SeqMax(Highs(w))
    ensures forall k :: 0 <= k < |w| ==> w[k].high <= SeqMax(Highs(w))
  {
    var col := Highs(w);
    var j :| 0 <= j < |col| && col[j] == SeqMax(col);
    assert w[j].high == col[j];
    forall k | 0 <= k < |w| ensures w[k].high <= SeqMax(col) {
      assert w[k].high == col[k];
    }
  }

  /** The smallest value of the Low column is the Low of one of the rows, and no row's Low is below it. */
  lemma LowOfRows(w: seq<Bar>)
    requires |w| > 0
    ensures exists k :: 0 <= k < |w| && w[k].low == SeqMin(Lows(w))
    ensures forall k :: 0 <= k < |w| ==> SeqMin(Lows(w)) <= w[k].low
  {
    var col := Lows(w);
    var j :| 0 <= j < |col| && col[j] == SeqMin(col);
    assert w[j].low == col[j];
    forall k | 0 <= k < |w| ensures SeqMin(col) <= w[k].low {
      assert w[k].low == col[k];
    }
  }

  function KpiMetrics(data: seq<Bar>): (r: Option<Metrics>)
    ensures r.Some? <==> |data| > 0
  {
    if |data| == 0 then None
    else
      var currentPrice := data[|data| - 1].close;
      var previousPrice := if |data| > 1 then data[|data| - 2].close else currentPrice;
      var priceChangePct := ChangePct(currentPrice, previousPrice);
      Some(Metrics(currentPrice, previousPrice, currentPrice - previousPrice, priceChangePct,
                   High24(data), Low24(data), priceChangePct > 0.0))
  }

  /**
   * The current price is the last close and the previous price the close
   * before it (the current price itself for a single row); the change is their
   * difference, the percentage is `ChangePct` of the two prices, and the
   * indicator is green exactly when that percentage is positive.
   */
  lemma KpiChange(data: seq<Bar>)
    requires |data| > 0
    ensures var m := KpiMetrics(data).value;
      m.currentPrice == data[|data| - 1].close &&
      m.previousPrice == (if |data| > 1 then data[|data| - 2].close else m.currentPrice) &&
      m.previousPrice + m.priceChange == m.currentPrice &&
      m.priceChangePct == ChangePct(m.currentPrice, m.previousPrice) &&
      (m.changeUp <==> m.priceChangePct > 0.0)
  {
  }

  /** With a positive previous price the indicator is green exactly when the price rose. */
  lemma KpiUpIffRose(data: seq<Bar>)
    requires |data| > 0
    requires (if |data| > 1 then data[|data| - 2] else data[|data| - 1]).close > 0.0
    ensures var m := KpiMetrics(data).value;
      m.changeUp <==> m.currentPrice > m.previousPrice
  {
  }

  /** A single row has no change and shows the red indicator. */
  lemma KpiSingleRow(row: Bar)
    ensures var m := KpiMetrics([row]).value;
      m.previousPrice == m.currentPrice == row.close &&
      m.priceChange == 0.0 && m.priceChangePct == 0.0 && !m.changeUp
  {
  }

  /** Closes of 100 then 110 give a 10% rise. */
  lemma KpiTenPercent(a: Bar, b: Bar)
    requires a.close == 100.0 && b.close == 110.0
    ensures var m := KpiMetrics([a, b]).value;
      m.priceChange == 10.0 && m.priceChangePct == 10.0 && m.changeUp
  {
  }

  /** The window's High column, read back as rows of the frame. */
  lemma HighsOfWindow(data: seq<Bar>)
    requires |data| > 0
    ensures var from := |data| - |Window(data)|;
      (exists k :: from <= k < |data| && data[k].high == High24(data)) &&
      (forall k :: from <= k < |data| ==> data[k].high <= High24(data))
  {
    var w := Window(data);
    var from := |data| - |w|;
    var kh :| 0 <= kh < |w| && Highs(w)[kh] == High24(data);
    assert data[from + kh].high == High24(data);
    forall k | from <= k < |data| ensures data[k].high <= High24(data) {
      assert Highs(w)[k - from] == data[k].high;
    }
  }

  /** The window's Low column, read back as rows of the frame. */
  lemma LowsOfWindow(data: seq<Bar>)
    requires |data| > 0
    ensures var from := |data| - |Window(data)|;
      (exists k :: from <= k < |data| && data[k].low == Low24(data)) &&
      (forall k :: from <= k < |data| ==> Low24(data) <= data[k].low)
  {
    var w := Window(data);
    var from := |data| - |w|;
    var kl :| 0 <= kl < |w| && Lows(w)[kl] == Low24(data);
    assert data[from + kl].low == Low24(data);
    forall k | from <= k < |data| ensures Low24(data) <= data[k].low {
      assert Lows(w)[k - from] == data[k].low;
    }
  }

  /**
   * The 24-period high is the largest High of the last min(24, n) rows and is
   * one of them; the low likewise the smallest Low; and when every one of those
   * rows has Low <= High, the low does not exceed the high.
   */
  lemma KpiWindowExtremes(data: seq<Bar>)
    requires |data| > 0
    ensures var m := KpiMetrics(data).value;
      var from := |data| - (if |data| < 24 then |data| else 24);
      (exists k :: from <= k < |data| && data[k].high == m.high24h) &&
      (forall k :: from <= k < |data| ==> data[k].high <= m.high24h) &&
      (exists k :: from <= k < |data| && data[k].low == m.low24h) &&
      (forall k :: from <= k < |data| ==> m.low24h <= data[k].low) &&
      ((forall k :: from <= k < |data| ==> data[k].low <= data[k].high) ==> m.low24h <= m.high24h)
  {
    var m := KpiMetrics(data).value;
    assert m.high24h == High24(data) && m.low24h == Low24(data);
    var from := |data| - |Window(data)|;
    HighsOfWindow(data);
    LowsOfWindow(data);
    var kl :| from <= kl < |data| && data[kl].low == m.low24h;
    if forall k :: from <= k < |data| ==> data[k].low <= data[k].high {
      assert m.low24h <= data[kl].high <= m.high24h;
    }
  }
}
