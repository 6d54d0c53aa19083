/**
 * The data-acquisition chain (`get_data`): CoinGecko for the three mapped
 * tickers, then Yahoo Finance, then the synthetic series. Each provider's
 * outcome is an input: `coinGecko(coin_id, days)` is the response of the
 * CoinGecko request and `yahoo(ticker, period, interval)` the result of the
 * Yahoo history query (`None` when either raised).
 */
module Acquisition {
  import opened Wrappers
  import opened Market
  import opened MockData
  import opened CoinGecko

  const CoinGeckoIds: map<string, string> :=
    map["BTC-USD" := "bitcoin", "ETH-USD" := "ethereum", "SOL-USD" := "solana"]

  /** Days of history asked of CoinGecko. */
  const CoinGeckoDays: int := 365

  /** The Yahoo look-back period for an interval; unknown intervals get one year. */
  function PeriodFor(interval: string): (period: string)
    ensures period == "7d" <==> interval == "1m" || interval == "5m"
    ensures period == "60d" <==> interval == "1h"
    ensures period == "1y" <==> interval !in {"1m", "5m", "1h"}
  {
    if interval == "1m" || interval == "5m" then "7d"
    else if interval == "1h" then "60d"
    else "1y"
  }

  lemma PeriodTable(interval: string)
    ensures PeriodFor("1m") == "7d" && PeriodFor("5m") == "7d"
    ensures PeriodFor("1h") == "60d" && PeriodFor("1d") == "1y"
    ensures interval !in {"1m", "5m", "1h"} ==> PeriodFor(interval) == "1y"
  {
  }

  /** A Yahoo history table: the columns it holds and its rows. */
  datatype Table = Table(columns: set<string>, rows: seq<Bar>)

  /** Pandas' `empty`: no rows or no columns. */
  predicate Empty(t: Table) {
    |t.rows| == 0 || t.columns == {}
  }

  const RequiredColumns: seq<string> := ["Open", "High", "Low", "Close"]

  /** The Yahoo tier answers: a non-empty table holding all of Open, High, Low and Close. */
  predicate YahooUsable(history: Option<Table>)
    ensures YahooUsable(history) <==>
      history.Some? && |history.value.rows| > 0 &&
      {"Open", "High", "Low", "Close"} <= history.value.columns
  {
    history.Some? && !Empty(history.value) &&
    forall col :: col in RequiredColumns ==> col in history.value.columns
  }

  /** What `get_data` returns: the frame and whether it came from a live source. */
  datatype Fetched = Fetched(data: seq<Bar>, isLive: bool)

  /** The outcome of the CoinGecko tier, when the ticker has a CoinGecko id. */
  function PrimaryResult(ticker: string, coinGecko: (string, int) -> Option<seq<Candle>>,
                         volumes: nat -> real): (p: Option<(Option<seq<Bar>>, bool)>)
    ensures p.Some? <==> ticker in {"BTC-USD", "ETH-USD", "SOL-USD"}
    ensures p.Some? ==> p.value == CoinGeckoData(coinGecko(CoinGeckoIds[ticker], 365), volumes)
    ensures p.Some? ==> (p.value.1 <==> p.value.0.Some?)
    ensures p.Some? && p.value.0.Some? ==>
      coinGecko(CoinGeckoIds[ticker], 365).Some? &&
      ToCandles(p.value.0.value) == coinGecko(CoinGeckoIds[ticker], 365).value
  {
    if ticker in CoinGeckoIds then
      var response := coinGecko(CoinGeckoIds[ticker], CoinGeckoDays);
      ParsedFrameReadsBack(response, volumes);
      Some(CoinGeckoData(response, volumes))
    else None
  }

  /** A frame parsed from a response reads back as that response's candles. */
  lemma ParsedFrameReadsBack(response: Option<seq<Candle>>, volumes: nat -> real)
    ensures CoinGeckoData(response, volumes).0.Some? ==>
      response.Some? && ToCandles(CoinGeckoData(response, volumes).0.value) == response.value
  {
    if CoinGeckoData(response, volumes).0.Some? {
      CoinGeckoRoundTrip(response.value, volumes);
    }
  }

  /** The CoinGecko tier answers: the ticker is mapped and the parsed frame is not empty. */
  predicate PrimaryUsable(ticker: string, coinGecko: (string, int) -> Option<seq<Candle>>,
                          volumes: nat -> real)
    ensures PrimaryUsable(ticker, coinGecko, volumes) <==>
      ticker in CoinGeckoIds &&
      var response := coinGecko(CoinGeckoIds[ticker], 365);
      response.Some? && |response.value| >= 2 && WellShaped(response.value)
  {
    var p := PrimaryResult(ticker, coinGecko, volumes);
    p.Some? && p.value.0.Some? && |p.value.0.value| > 0
  }

  /** `get_data`: the first tier that answers wins. */
  function GetData(ticker: string, interval: string,
                   coinGecko: (string, int) -> Option<seq<Candle>>, volumes: nat -> real,
                   yahoo: (string, string, string) -> Option<Table>,
                   now: real, draws: seq<Draw>): (r: Fetched)
    requires |draws| == RowCount(interval)
    ensures |r.data| > 0
  {
    var primary := PrimaryResult(ticker, coinGecko, volumes);
    if primary.Some? && primary.value.0.Some? && |primary.value.0.value| > 0 then
      Fetched(primary.value.0.value, primary.value.1)
    else
      var history := yahoo(ticker, PeriodFor(interval), interval);
      if YahooUsable(history) then Fetched(history.value.rows, true)
      else Fetched(MockSeries(ticker, PeriodFor(interval), interval, now, draws), false)
  }

  /** An unmapped ticker never reaches CoinGecko: its response and volume draws do not matter. */
  lemma UnmappedTickerSkipsCoinGecko(ticker: string, interval: string,
                                     g1: (string, int) -> Option<seq<Candle>>, v1: nat -> real,
                                     g2: (string, int) -> Option<seq<Candle>>, v2: nat -> real,
                                     yahoo: (string, string, string) -> Option<Table>,
                                     now: real, draws: seq<Draw>)
    requires |draws| == RowCount(interval)
    requires ticker !in {"BTC-USD", "ETH-USD", "SOL-USD"}
    ensures GetData(ticker, interval, g1, v1, yahoo, now, draws)
         == GetData(ticker, interval, g2, v2, yahoo, now, draws)
  {
  }

  /** CoinGecko is asked only for the coin's id and 365 days. */
  lemma CoinGeckoRequest(ticker: string, interval: string,
                         g1: (string, int) -> Option<seq<Candle>>,
                         g2: (string, int) -> Option<seq<Candle>>, volumes: nat -> real,
                         yahoo: (string, string, string) -> Option<Table>,
                         now: real, draws: seq<Draw>)
    requires |draws| == RowCount(interval)
    requires ticker in CoinGeckoIds
    requires g1(CoinGeckoIds[ticker], 365) == g2(CoinGeckoIds[ticker], 365)
    ensures GetData(ticker, interval, g1, volumes, yahoo, now, draws)
         == GetData(ticker, interval, g2, volumes, yahoo, now, draws)
  {
  }

  /**
   * A usable CoinGecko frame is returned unchanged and live, and no later tier
   * matters: any other Yahoo outcome or mock draws give the same answer.
   */
  lemma CoinGeckoWins(ticker: string, interval: string,
                      coinGecko: (string, int) -> Option<seq<Candle>>, volumes: nat -> real,
                      y1: (string, string, string) -> Option<Table>, now1: real, d1: seq<Draw>,
                      y2: (string, string, string) -> Option<Table>, now2: real, d2: seq<Draw>)
    requires |d1| == RowCount(interval) && |d2| == RowCount(interval)
    requires PrimaryUsable(ticker, coinGecko, volumes)
    ensures ticker in {"BTC-USD", "ETH-USD", "SOL-USD"}
    ensures var parsed := CoinGeckoData(coinGecko(CoinGeckoIds[ticker], 365), volumes);
      GetData(ticker, interval, coinGecko, volumes, y1, now1, d1) == Fetched(parsed.0.value, true)
    ensures GetData(ticker, interval, coinGecko, volumes, y1, now1, d1)
         == GetData(ticker, interval, coinGecko, volumes, y2, now2, d2)
  {
  }

  /**
   * Below CoinGecko, a usable Yahoo table is returned live, and otherwise the
   * synthetic series for the interval's period is returned, not live.
   */
  lemma FallbackTiers(ticker: string, interval: string,
                      coinGecko: (string, int) -> Option<seq<Candle>>, volumes: nat -> real,
                      yahoo: (string, string, string) -> Option<Table>,
                      now: real, draws: seq<Draw>)
    requires |draws| == RowCount(interval)
    requires !PrimaryUsable(ticker, coinGecko, volumes)
    ensures var history := yahoo(ticker, PeriodFor(interval), interval);
      GetData(ticker, interval, coinGecko, volumes, yahoo, now, draws)
      == if YahooUsable(history) then Fetched(history.value.rows, true)
         else Fetched(MockSeries(ticker, PeriodFor(interval), interval, now, draws), false)
  {
  }

  /** The data is flagged not live exactly when both providers failed, and then it is the mock series. */
  lemma NotLiveIffMock(ticker: string, interval: string,
                       coinGecko: (string, int) -> Option<seq<Candle>>, volumes: nat -> real,
                       yahoo: (string, string, string) -> Option<Table>,
                       now: real, draws: seq<Draw>)
    requires |draws| == RowCount(interval)
    ensures var r := GetData(ticker, interval, coinGecko, volumes, yahoo, now, draws);
      !r.isLive <==>
        !PrimaryUsable(ticker, coinGecko, volumes) &&
        !YahooUsable(yahoo(ticker, PeriodFor(interval), interval))
    ensures var r := GetData(ticker, interval, coinGecko, volumes, yahoo, now, draws);
      !r.isLive ==>
        r.data == MockSeries(ticker, PeriodFor(interval), interval, now, draws) &&
        |r.data| == RowCount(interval)
  {
    if PrimaryUsable(ticker, coinGecko, volumes) {
      CoinGeckoWins(ticker, interval, coinGecko, volumes, yahoo, now, draws, yahoo, now, draws);
    }
  }

  /**
   * Every answer holds at least one row; a CoinGecko answer at least two, a
   * mock answer at least 365. A one-row Yahoo table is passed through as it is.
   */
  lemma FetchedLength(ticker: string, interval: string,
                      coinGecko: (string, int) -> Option<seq<Candle>>, volumes: nat -> real,
                      yahoo: (string, string, string) -> Option<Table>,
                      now: real, draws: seq<Draw>)
    requires |draws| == RowCount(interval)
    ensures var r := GetData(ticker, interval, coinGecko, volumes, yahoo, now, draws);
      (PrimaryUsable(ticker, coinGecko, volumes) ==> |r.data| >= 2) &&
      (!r.isLive ==> |r.data| >= 365)
  {
    RowCountTable(interval);
  }

  lemma OneRowYahooTable(interval: string, volumes: nat -> real, now: real, draws: seq<Draw>,
                         row: Bar)
    requires |draws| == RowCount(interval)
    ensures var yahoo := (t: string, p: string, i: string) => Some(Table({"Open", "High", "Low", "Close"}, [row]));
      var coinGecko := (id: string, days: int) => None;
      GetData("BTC-USD", interval, coinGecko, volumes, yahoo, now, draws) == Fetched([row], true)
  {
  }
}
