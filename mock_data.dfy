/**
 * The synthetic series generator (`generate_mock_data`): the last tier of the
 * data chain. Every random draw it makes is an input here: one `Draw` per row.
 */
module MockData {
  import opened Market

  /** One calendar day, the step between two generated timestamps. */
  const DayMs: real := 86400000.0

  const BasePrices: map<string, real> :=
    map["BTC-USD" := 42500.0, "ETH-USD" := 2300.0, "SOL-USD" := 105.0]

  /** The starting price for a ticker; unknown tickers start at 1000. */
  function BasePrice(ticker: string): (p: real)
    ensures p > 0.0
    ensures ticker in BasePrices ==> p == BasePrices[ticker]
    ensures ticker !in BasePrices ==> p == 1000.0
  {
    if ticker in BasePrices then BasePrices[ticker] else 1000.0
  }

  /** Number of generated rows for an interval; anything but 1d, 1h and 5m is read as 1m. */
  function RowCount(interval: string): (n: nat)
    ensures n == 365 <==> interval == "1d"
    ensures n >= 365
  {
    if interval == "1d" then 365
    else if interval == "1h" then 24 * 60
    else if interval == "5m" then 24 * 12 * 7
    else 24 * 60 * 7
  }

  lemma RowCountTable(interval: string)
    ensures RowCount("1d") == 365 && RowCount("1h") == 1440 && RowCount("5m") == 2016
    ensures interval !in {"1d", "1h", "5m"} ==> RowCount(interval) == 10080
    ensures RowCount(interval) >= 365
  {
  }

  /**
   * The generated index: `n` days before `now` up to one day before `now`,
   * one day apart.
   */
  function MockDates(now: real, n: nat): (d: seq<real>)
    ensures |d| == n
    ensures Increasing(d)
    ensures forall i :: 0 <= i < n - 1 ==> d[i + 1] == d[i] + DayMs
    ensures forall i :: 0 <= i < n ==> now - (n as real) * DayMs <= d[i] <= now - DayMs
    ensures n > 0 ==> d[0] == now - (n as real) * DayMs && d[n - 1] == now - DayMs
  {
    seq(n, i requires 0 <= i < n => now - ((n - i) as real) * DayMs)
  }

  /**
   * The random draws behind one row: the daily return (normal, mean 0.002,
   * deviation 0.03), the open, close, high and low jitters and the volume.
   */
  datatype Draw = Draw(ret: real, openJitter: real, closeJitter: real,
                       highJitter: real, lowJitter: real, volume: real)

  /** The ranges of the uniform draws. */
  predicate InRange(d: Draw) {
    0.98 <= d.openJitter <= 1.02 && 0.98 <= d.closeJitter <= 1.02 &&
    1.0 <= d.highJitter <= 1.02 && 0.98 <= d.lowJitter <= 1.0 &&
    1000000000.0 <= d.volume <= 5000000000.0
  }

  /** Draws in range whose returns never wipe the running price out (return above -100%). */
  predicate Sound(draws: seq<Draw>) {
    forall k :: 0 <= k < |draws| ==> InRange(draws[k]) && draws[k].ret > -1.0
  }

  /** With `x` positive and `a` in [lo, hi], the product `p == x * a` lies in [lo * x, hi * x]. */
  lemma Between(x: real, a: real, lo: real, hi: real, p: real)
    requires x > 0.0 && lo <= a <= hi && p == x * a
    ensures lo * x <= p <= hi * x
  {
    assert x * (a - lo) >= 0.0;
    assert x * (hi - a) >= 0.0;
  }

  /** A positive price jittered by a factor in [0.98, 1.02] stays within 2% of itself. */
  lemma Jittered(price: real, jitter: real, p: real)
    ensures price > 0.0 && 0.98 <= jitter <= 1.02 && p == price * jitter ==>
      0.98 * price <= p <= 1.02 * price
  {
    if price > 0.0 && 0.98 <= jitter <= 1.02 && p == price * jitter {
      Between(price, jitter, 0.98, 1.02, p);
    }
  }

  /** The random walk with drift: the running price after one period's return. */
  function NextPrice(price: real, d: Draw): (next: real)
    ensures price > 0.0 && d.ret > -1.0 ==> next > 0.0
  {
    price * (1.0 + d.ret)
  }

  /** The open: the running price jittered by up to 2% either way. */
  function OpenPrice(price: real, d: Draw): (o: real)
    ensures price > 0.0 && 0.98 <= d.openJitter <= 1.02 ==> 0.98 * price <= o <= 1.02 * price
  {
    Jittered(price, d.openJitter, price * d.openJitter);
    price * d.openJitter
  }

  /** The close: the running price jittered by up to 2% either way. */
  function ClosePrice(price: real, d: Draw): (c: real)
    ensures price > 0.0 && 0.98 <= d.closeJitter <= 1.02 ==> 0.98 * price <= c <= 1.02 * price
  {
    Jittered(price, d.closeJitter, price * d.closeJitter);
    price * d.closeJitter
  }

  /**
   * The row derived from the running price after this period's return: the
   * high is the larger of open and close raised by up to 2%, the low the
   * smaller lowered by up to 2%.
   */
  function MockRow(price: real, time: real, d: Draw): (b: Bar)
    ensures b.time == time && b.volume == d.volume
  {
    Bar(time, OpenPrice(price, d),
        Max(OpenPrice(price, d), ClosePrice(price, d)) * d.highJitter,
        Min(OpenPrice(price, d), ClosePrice(price, d)) * d.lowJitter,
        ClosePrice(price, d), d.volume)
  }

  /**
   * With a positive running price and draws in range a row is ordered, and its
   * low and high stay within 0.9604 and 1.0404 times the running price.
   */
  lemma MockRowOrdered(price: real, time: real, d: Draw)
    requires price > 0.0 && InRange(d)
    ensures var b := MockRow(price, time, d);
      Ordered(b) && 0.9604 * price <= b.low && b.high <= 1.0404 * price
  {
    var b := MockRow(price, time, d);
    assert b.low == Min(b.open, b.close) * d.lowJitter;
    assert b.high == Max(b.open, b.close) * d.highJitter;
    JitterBand(price, b, d.lowJitter, d.highJitter);
  }

  /**
   * A row whose open and close lie within 2% of the price, whose low is the
   * smaller of them lowered by up to 2% and whose high the larger raised by up
   * to 2%, is ordered and stays within 4.04% of the price.
   */
  lemma JitterBand(price: real, b: Bar, lowJitter: real, highJitter: real)
    requires price > 0.0
    requires 0.98 * price <= b.open <= 1.02 * price && 0.98 * price <= b.close <= 1.02 * price
    requires 0.98 <= lowJitter <= 1.0 && 1.0 <= highJitter <= 1.02
    requires b.low == Min(b.open, b.close) * lowJitter
    requires b.high == Max(b.open, b.close) * highJitter
    ensures Ordered(b) && 0.9604 * price <= b.low && b.high <= 1.0404 * price
  {
    var lo, hi := Min(b.open, b.close), Max(b.open, b.close);
    assert 0.98 * price <= lo <= hi <= 1.02 * price;
    Between(lo, lowJitter, 0.98, 1.0, b.low);
    Between(hi, highJitter, 1.0, 1.02, b.high);
  }

  /** The rows of the random walk that starts from `price`. */
  function MockBars(price: real, dates: seq<real>, draws: seq<Draw>): (r: seq<Bar>)
    requires |dates| == |draws|
    ensures |r| == |draws|
    ensures Times(r) == dates
    decreases |draws|
  {
    if draws == [] then []
    else
      var p := NextPrice(price, draws[0]);
      [MockRow(p, dates[0], draws[0])] + MockBars(p, dates[1..], draws[1..])
  }

  /** The synthetic series for a ticker and interval; `period` is accepted and ignored. */
  function MockSeries(ticker: string, period: string, interval: string, now: real,
                      draws: seq<Draw>): (r: seq<Bar>)
    requires |draws| == RowCount(interval)
    ensures |r| == RowCount(interval)
    ensures Times(r) == MockDates(now, RowCount(interval))
  {
    MockBars(BasePrice(ticker), MockDates(now, |draws|), draws)
  }

  /** Every row of a walk from a positive price over sound draws satisfies the OHLC invariant. */
  lemma {:induction false} MockBarsOrdered(price: real, dates: seq<real>, draws: seq<Draw>)
    requires price > 0.0 && |dates| == |draws| && Sound(draws)
    ensures forall k :: 0 <= k < |draws| ==>
      Ordered(MockBars(price, dates, draws)[k]) && MockBars(price, dates, draws)[k].low > 0.0
      && MockBars(price, dates, draws)[k].volume == draws[k].volume
    decreases |draws|
  {
    if draws != [] {
      var p := NextPrice(price, draws[0]);
      MockRowOrdered(p, dates[0], draws[0]);
      assert Sound(draws[1..]) by {
        forall k | 0 <= k < |draws[1..]| ensures InRange(draws[1..][k]) && draws[1..][k].ret > -1.0 {
          assert draws[1..][k] == draws[k + 1];
        }
      }
      MockBarsOrdered(p, dates[1..], draws[1..]);
      var r := MockBars(price, dates, draws);
      forall k | 0 <= k < |draws|
        ensures Ordered(r[k]) && r[k].low > 0.0 && r[k].volume == draws[k].volume
      {
        if k > 0 {
          assert r[k] == MockBars(p, dates[1..], draws[1..])[k - 1];
        }
      }
    }
  }

  /**
   * The generated series has one row per draw, strictly increasing timestamps
   * before `now`, and with sound draws every row is ordered with positive prices
   * and a volume in [1e9, 5e9].
   */
  lemma MockSeriesProperties(ticker: string, period: string, interval: string, now: real,
                             draws: seq<Draw>)
    requires |draws| == RowCount(interval)
    ensures var r := MockSeries(ticker, period, interval, now, draws);
      Increasing(Times(r)) && forall k :: 0 <= k < |r| ==> r[k].time < now
    ensures Sound(draws) ==> var r := MockSeries(ticker, period, interval, now, draws);
      forall k :: 0 <= k < |r| ==>
        Ordered(r[k]) && r[k].low > 0.0 &&
        1000000000.0 <= r[k].volume <= 5000000000.0
  {
    var r := MockSeries(ticker, period, interval, now, draws);
    var n := RowCount(interval);
    forall k | 0 <= k < |r| ensures r[k].time < now {
      assert r[k].time == Times(r)[k] == MockDates(now, n)[k];
    }
    if Sound(draws) {
      MockBarsOrdered(BasePrice(ticker), MockDates(now, n), draws);
    }
  }

  /**
   * One step of the walk: if `data` followed by the walk from `price` over the
   * entries from `i` on is the whole walk, so is `data` extended by row `i`
   * followed by the walk from the updated price over the entries after `i`.
   */
  lemma WalkStep(base: real, price: real, data: seq<Bar>, dates: seq<real>, draws: seq<Draw>,
                 i: nat)
    requires |dates| == |draws| && i < |draws|
    requires data + MockBars(price, dates[i..], draws[i..]) == MockBars(base, dates, draws)
    ensures var p := NextPrice(price, draws[i]);
      data + [MockRow(p, dates[i], draws[i])] + MockBars(p, dates[i + 1..], draws[i + 1..])
        == MockBars(base, dates, draws)
  {
    assert dates[i..][1..] == dates[i + 1..] && draws[i..][1..] == draws[i + 1..];
    var p := NextPrice(price, draws[i]);
    var row := MockRow(p, dates[i], draws[i]);
    var rest := MockBars(p, dates[i + 1..], draws[i + 1..]);
    assert MockBars(price, dates[i..], draws[i..]) == [row] + rest;
    assert data + [row] + rest == data + ([row] + rest);
  }

  /** `generate_mock_data`: walks the dates, updating the running price and appending one row each. */
  method GenerateMockData(ticker: string, period: string, interval: string, now: real,
                          draws: seq<Draw>) returns (df: seq<Bar>)
    requires |draws| == RowCount(interval)
    ensures df == MockSeries(ticker, period, interval, now, draws)
  {
    var numPeriods := RowCount(interval);
    var dates := MockDates(now, numPeriods);
    var data: seq<Bar> := [];
    var price := BasePrice(ticker);
    for i := 0 to numPeriods
      invariant data + MockBars(price, dates[i..], draws[i..])
             == MockBars(BasePrice(ticker), dates, draws)
    {
      var d := draws[i];
      WalkStep(BasePrice(ticker), price, data, dates, draws, i);
      price := NextPrice(price, d);
      var row := MockRow(price, dates[i], d);
      data := data + [row];
    }
    assert dates[numPeriods..] == [] && draws[numPeriods..] == [];
    df := data;
  }
}
