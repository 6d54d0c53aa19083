# Crypto dashboard core, modelled in Dafny

A model of the decision and arithmetic logic inside `app.py` of a Streamlit
cryptocurrency dashboard. The dashboard fetches OHLC price history through a
three-tier fallback chain: CoinGecko, then Yahoo Finance, then a locally
generated synthetic series. It derives KPI figures from that series and
computes a mocked headline-sentiment score. The model covers the following:

- `MockData` (`mock_data.dfy`): `generate_mock_data`. This covers the base price
  table, the interval-to-row-count table, the day-spaced timestamps and the
  running-price loop. That loop derives open, close, high and low from jitter
  factors.
- `CoinGecko` (`coingecko.dfy`): the parsing part of `get_coingecko_data`. A
  JSON list of `[timestamp_ms, open, high, low, close]` candles is filled into
  five columns, with a failure result for short or malformed payloads.
- `Acquisition` (`acquisition.dfy`): `get_data`. This is the tier order, the
  CoinGecko id map, the Yahoo usability test (non-empty, holding all of Open,
  High, Low and Close) and the interval-to-period table.
- `Kpi` (`kpi.dfy`): the figures behind `display_kpi_metrics`. These are the
  current and previous close, the absolute and percentage change, the high and
  low of the last `min(24, n)` rows, and the up/down indicator.
- `Sentiment` (`sentiment.dfy`): `get_sentiment`. It averages the polarities,
  rescales to 0..100, applies the three-way thresholds and falls back to the
  neutral default. The display colour chosen from the score is also modelled.
- `Market` (`market.dfy`) holds the row type shared by all of them.
  `Wrappers` (`wrappers.dfy`) holds `Option`.

I/O and randomness are parameters:
- The CoinGecko request is a function `(coin_id, days) -> Option<candles>`,
  where `None` means the request raised, timed out or returned an error status.
- The Yahoo history query is a function `(ticker, period, interval) -> Option<Table>`.
- The polarity analyser is a function `headline -> Option<real>`, where `None`
  means analysing that headline raised.
- The clock is a value `now`, in milliseconds.
- The synthetic generator's normal and uniform draws are one `Draw` record per row.
- CoinGecko's random volumes are a stream `volumes(0), volumes(1), ...`.
- The headline sample is a sequence.

Prices are `real`. Timestamps are milliseconds, also `real`.

Behaviour of `app.py` that the model states explicitly:
- app.py:205-208 returns a CoinGecko frame with `is_live = True`.
  app.py:222-225 does the same for any non-empty Yahoo table that holds Open,
  High, Low and Close. Only the synthetic series of app.py:237 has
  `is_live = False` (`Acquisition.NotLiveIffMock`).
- The Yahoo tier accepts a one-row table (app.py:222-225), so not every
  answer of `get_data` has two rows (`Acquisition.OneRowYahooTable`).
  CoinGecko answers have at least two rows (app.py:109-110) and synthetic
  answers at least 365.
- With jitters in their ranges and every return above -100%, app.py:67-73
  keeps `low <= min(open, close) <= max(open, close) <= high` by construction
  (`MockData.MockBarsOrdered`).
- Synthetic timestamps step by whole days whatever the interval
  (app.py:60, `MockData.MockDates`).

## Model

| member | source | states |
|---|---|---|
| `MockData.BasePrice` | app.py:41-47 | start price is the table's entry for BTC/ETH/SOL and 1000 for any other ticker; always positive |
| `MockData.RowCount` | app.py:50-57 | the row count is 365 exactly for the 1d interval and at least 365 for every interval |
| `MockData.RowCountTable` | app.py:50-57 | 365 rows for 1d, 1440 for 1h, 2016 for 5m, 10080 for every other interval |
| `MockData.MockDates` | app.py:60 | `n` timestamps, each exactly one day after the previous, from `now - n` days to `now - 1` day |
| `MockData.NextPrice` | app.py:67-68 | the running price after a return above -100% stays positive |
| `MockData.OpenPrice` | app.py:70 | with a positive price and a jitter in [0.98, 1.02] the open lies within 2% of the running price |
| `MockData.ClosePrice` | app.py:71 | with a positive price and a jitter in [0.98, 1.02] the close lies within 2% of the running price |
| `MockData.MockBars` | app.py:62-82 | the walk yields one row per draw, each stamped with its own date, in order |
| `MockData.MockSeries` | app.py:47-86 | the synthetic frame has exactly `RowCount(interval)` rows, indexed by the generated dates |
| `MockData.MockRow` | app.py:70-82 | the appended row is stamped with its own date and carries the drawn volume |
| `MockData.MockRowOrdered` | app.py:70-73 | from a positive running price and jitters in range, a row has low <= min(open,close) <= max(open,close) <= high, with the low at least 0.9604 and the high at most 1.0404 times the running price |
| `MockData.MockBarsOrdered` | app.py:65-82 | from a positive start, with returns above -100% and jitters in range, every row is ordered, has positive prices and carries its drawn volume |
| `MockData.MockSeriesProperties` | app.py:60-86 | the synthetic frame's timestamps strictly increase and are all before `now`; with sound draws every row is ordered, positive and has a volume in [1e9, 5e9] |
| `MockData.GenerateMockData` | app.py:28-86 | the imperative loop, which updates the running price and appends rows, returns exactly the specified synthetic series |
| `CoinGecko.CoinGeckoData` | app.py:102-140 | the flag is true exactly when a frame is returned; a frame is returned exactly when the request succeeded with at least 2 candles of 5 fields each; it has one row per candle |
| `CoinGecko.CandleBar` | app.py:119-125 | a row holds its candle's timestamp, open, high, low and close in that order, plus its volume draw |
| `CoinGecko.CoinGeckoRoundTrip` | app.py:119-134 | a parsed frame turns back into the payload candle for candle (time, open, high, low, close), in input order, and row `k` carries volume draw `k` |
| `CoinGecko.GetCoinGeckoData` | app.py:107-137 | the five-column filling loop with its early failure returns yields exactly the specified result pair |
| `Acquisition.PeriodTable` | app.py:212-218 | period is 7d for 1m and 5m, 60d for 1h, 1y for 1d and for every other interval (the copy at app.py:230-236 is identical) |
| `Acquisition.PeriodFor` | app.py:212-218 | the period is 7d exactly for 1m and 5m, 60d exactly for 1h, and 1y exactly for every other interval |
| `Acquisition.GetData` | app.py:181-237 | the chain always returns at least one row |
| `Acquisition.PrimaryResult` | app.py:196-206 | CoinGecko is consulted exactly for BTC-USD, ETH-USD and SOL-USD, for the coin id and 365 days; its liveness flag is true exactly when it yields a frame, and such a frame reads back as the candles of a successful response |
| `Acquisition.PrimaryUsable` | app.py:205-208 | the CoinGecko tier answers exactly when the ticker is mapped and the response holds at least 2 candles of 5 fields each |
| `Acquisition.YahooUsable` | app.py:222-225 | the Yahoo tier answers exactly when the query returned a table with rows and all of Open, High, Low and Close among its columns |
| `Acquisition.UnmappedTickerSkipsCoinGecko` | app.py:196-205 | a ticker outside BTC-USD, ETH-USD, SOL-USD gets the same answer whatever CoinGecko would have returned |
| `Acquisition.CoinGeckoRequest` | app.py:202-206 | CoinGecko is consulted only for the ticker's coin id and 365 days |
| `Acquisition.CoinGeckoWins` | app.py:205-208 | a non-empty CoinGecko frame is returned unchanged with `is_live` true, only for a mapped ticker, and the Yahoo outcome and mock draws then do not matter |
| `Acquisition.FallbackTiers` | app.py:211-237 | below CoinGecko, a non-empty Yahoo table with all of Open/High/Low/Close is returned live; otherwise the mock series is returned not live |
| `Acquisition.NotLiveIffMock` | app.py:204-237 | `is_live` is false exactly when neither CoinGecko nor Yahoo answered, and then the data is the mock series with `RowCount(interval)` rows |
| `Acquisition.FetchedLength` | app.py:109-110 | a CoinGecko answer has at least 2 rows, a not-live answer at least 365 |
| `Acquisition.OneRowYahooTable` | app.py:222-225 | a one-row Yahoo table with the four columns is returned as it is, live |
| `Kpi.Window` | app.py:357-358 | the window is the last `min(24, n)` rows |
| `Kpi.SeqMax` | app.py:357 | the maximum is one of the values and no value exceeds it |
| `Kpi.SeqMin` | app.py:358 | the minimum is one of the values and no value is below it |
| `Kpi.High24` | app.py:357 | the 24-period high is the High of one of the last `min(24, n)` rows and no High among them exceeds it |
| `Kpi.Low24` | app.py:358 | the 24-period low is the Low of one of the last `min(24, n)` rows and no Low among them is below it |
| `Kpi.ChangePct` | app.py:355 | percentage times previous price is 100 times the change; 0 when the previous price is 0; with a positive previous price it is positive exactly when the price rose |
| `Kpi.KpiMetrics` | app.py:352-361 | metrics exist exactly when the frame is non-empty (an empty frame raises and shows nothing) |
| `Kpi.KpiChange` | app.py:352-361 | current = last close; previous = second-to-last close, or current for one row; change = current - previous; the percentage is `ChangePct` of them; the indicator is green iff the percentage is positive |
| `Kpi.KpiUpIffRose` | app.py:355-361 | with a positive previous price the indicator is green exactly when the price rose |
| `Kpi.KpiSingleRow` | app.py:353-355 | a single row gives change 0, percentage 0, red indicator |
| `Kpi.KpiTenPercent` | app.py:352-355 | closes 100 then 110 give change 10 and 10% |
| `Kpi.KpiWindowExtremes` | app.py:357-358 | the 24-period high is the largest High of the last `min(24, n)` rows and occurs among them; the low is likewise the smallest Low; if those rows have Low <= High then low <= high |
| `Sentiment.LabelFor` | app.py:277-282 | BULLISH iff score >= 60, NEUTRAL iff 40 <= score < 60, BEARISH iff score < 40 |
| `Sentiment.LabelText` | app.py:277-294 | each label has its own text: "🟢 BULLISH", "🟡 NEUTRAL" or "🔴 BEARISH" |
| `Sentiment.SumBounds` | app.py:271 | a sum of `n` values in [-1, 1] lies in [-n, n] |
| `Sentiment.Percentage` | app.py:274 | an average in [-1, 1] maps into [0, 100]; the score is >= 60 iff the average is >= 0.2, and < 40 iff it is < -0.2 |
| `Sentiment.SentimentOf` | app.py:262-296 | the result is the fallback (50, NEUTRAL, []) exactly when a polarity is missing or the sample is empty; otherwise it reports the sample, scores it as `Percentage` of the left-to-right mean polarity, and its label always follows `LabelFor` of its score |
| `Sentiment.GetSentiment` | app.py:248-296 | the polarity-collecting loop, with its exception paths, yields exactly the specified result |
| `Sentiment.ScoreInRange` | app.py:271-274 | with every polarity in [-1, 1] the score lies in [0, 100] |
| `Sentiment.LabelMatchesScore` | app.py:277-296 | every result's label follows the thresholds of its score, the fallback included |
| `Sentiment.FailureGivesFallback` | app.py:290-296 | an analyser failure, or nothing to average, gives score 50, NEUTRAL and no headlines |
| `Sentiment.SampleIsScored` | app.py:262-288 | a 3 to 5 headline sample from the pool that was fully analysed takes the scoring path and reports its own headlines in order |
| `Sentiment.ScoredLabel` | app.py:271-282 | on the scoring path the label is BULLISH exactly when the polarity total is at least 0.2 per headline, and BEARISH exactly when it is below -0.2 per headline |
| `Sentiment.DisplayedLabel` | app.py:277-296 | the shown label text is "🟢 BULLISH" iff score >= 60, "🟡 NEUTRAL" iff 40 <= score < 60, "🔴 BEARISH" iff score < 40, and "🟡 NEUTRAL" on the fallback path |
| `Sentiment.ScoreColor` | app.py:552 | the display colour of a score is the colour of the label the score gets |
| `Sentiment.ColorMatchesLabel` | app.py:552 | the display colour picked from the score is the label's colour (green, gold, red) |

## Left out

- Streamlit UI is not modelled: page configuration, CSS, sidebar, buttons, badges, the `st.metric` cards, the data table, the footer, and the `st.warning`/`st.error` messages on failure paths. It is presentation only.
- The Plotly candlestick chart (`create_candlestick_chart`) is not modelled. It is a thin wrapper over a charting library.
- The HTTP request to CoinGecko and the `yf.Ticker(...).history` call are inputs. They are network I/O. Their outcomes, including exceptions, are parameters.
- `st.cache_data` caching, cache clearing and the auto-refresh loop are not modelled. They are framework and wall-clock behaviour.
- `np.random` and `random.sample` draws are inputs, not randomness. The sample's shape (3 to 5 distinct pool headlines) appears only as the hypothesis of `Sentiment.SampleIsScored`.
- TextBlob polarity and the NLTK downloads are outside the model. They are a foreign NLP library.
- Floating-point rounding is not modelled: prices are exact reals. `datetime.fromtimestamp` is not modelled either, because timestamps stay in milliseconds. So the model drops one failure path: at app.py:121 a timestamp out of the platform's range makes `fromtimestamp` raise and app.py:139-140 answer `(None, False)`, whereas `CoinGecko.CoinGeckoData` returns a frame for any real timestamp.
- Each `datetime.now()` call in the date list is taken as one instant `now`. The successive calls could differ by microseconds.
- A CoinGecko body that is not a JSON list of numeric arrays (for example an error object) is not modelled. Candles are sequences of reals, and only their arity is checked, as the tuple unpacking does.
- The Yahoo table's extra columns and NaN cells are not modelled. Pandas' NaN-skipping `max`/`min` is not modelled either.
- `MockData.MockSeriesProperties`: ordering and positivity are proved only for returns above -100% and jitters in their ranges. The normal draw is unbounded, and a return of -100% or less would make the running price non-positive.
