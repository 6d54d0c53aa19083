/**
 * The parsing half of the CoinGecko tier (`get_coingecko_data`): the HTTP
 * response body, a JSON array of candles, becomes a data frame. The request
 * itself is an input (`None` when it raised, timed out or had an error
 * status); the volumes, which the endpoint does not supply, are the random
 * draws `volumes(0)`, `volumes(1)`, ...
 */
module CoinGecko {
  import opened Wrappers
  import opened Market

  /** One JSON candle; a well-formed one is `[timestamp_ms, open, high, low, close]`. */
  type Candle = seq<real>

  /** Every candle unpacks into exactly five values. */
  predicate WellShaped(payload: seq<Candle>) {
    forall k :: 0 <= k < |payload| ==> |payload[k]| == 5
  }

  /** The row a well-formed candle stands for, with the `k`-th volume draw. */
  function CandleBar(c: Candle, volume: real): (b: Bar)
    requires |c| == 5
    ensures [b.time, b.open, b.high, b.low, b.close] == c && b.volume == volume
  {
    Bar(c[0], c[1], c[2], c[3], c[4], volume)
  }

  /** The result pair of `get_coingecko_data`: the frame, if any, and the liveness flag. */
  function CoinGeckoData(response: Option<seq<Candle>>, volumes: nat -> real)
    : (r: (Option<seq<Bar>>, bool))
    ensures r.1 <==> r.0.Some?
    ensures r.0.Some? <==>
      response.Some? && |response.value| >= 2 && WellShaped(response.value)
    ensures r.0.Some? ==> |r.0.value| == |response.value|
  {
    match response
    case None => (None, false)
    case Some(payload) =>
      if |payload| < 2 then (None, false)
      else if !WellShaped(payload) then (None, false)
      else (Some(seq(|payload|, k requires 0 <= k < |payload| => CandleBar(payload[k], volumes(k)))), true)
  }

  /** The candles a frame would be served as: the volume column is not part of them. */
  function ToCandles(f: seq<Bar>): (cs: seq<Candle>)
    ensures |cs| == |f|
  {
    seq(|f|, k requires 0 <= k < |f| => [f[k].time, f[k].open, f[k].high, f[k].low, f[k].close])
  }

  /**
   * A parsed frame keeps the candles in input order, field for field: turning
   * it back into candles gives the payload, and row `k` carries volume draw `k`.
   */
  lemma CoinGeckoRoundTrip(payload: seq<Candle>, volumes: nat -> real)
    requires CoinGeckoData(Some(payload), volumes).0.Some?
    ensures ToCandles(CoinGeckoData(Some(payload), volumes).0.value) == payload
    ensures forall k :: 0 <= k < |payload| ==>
      CoinGeckoData(Some(payload), volumes).0.value[k].volume == volumes(k)
  {
    var f := CoinGeckoData(Some(payload), volumes).0.value;
    forall k | 0 <= k < |payload| ensures ToCandles(f)[k] == payload[k] {
      var c := payload[k];
      assert f[k] == CandleBar(c, volumes(k));
      assert ToCandles(f)[k] == [c[0], c[1], c[2], c[3], c[4]];
    }
  }

  /** `get_coingecko_data` after the request: five column lists filled candle by candle. */
  method GetCoinGeckoData(response: Option<seq<Candle>>, volumes: nat -> real)
    returns (df: Option<seq<Bar>>, ok: bool)
    ensures (df, ok) == CoinGeckoData(response, volumes)
  {
    if response.None? {
      return None, false;
    }
    var data := response.value;
    if |data| == 0 || |data| < 2 {
      return None, false;
    }
    var dates, opens, highs, lows, closes := [], [], [], [], [];
    for i := 0 to |data|
      invariant |dates| == |opens| == |highs| == |lows| == |closes| == i
      invariant forall k :: 0 <= k < i ==>
        |data[k]| == 5 && dates[k] == data[k][0] && opens[k] == data[k][1] &&
        highs[k] == data[k][2] && lows[k] == data[k][3] && closes[k] == data[k][4]
    {
      var candle := data[i];
      if |candle| != 5 {
        // the tuple unpacking raises, and the exception handler answers (None, False)
        assert !WellShaped(data);
        return None, false;
      }
      dates := dates + [candle[0]];
      opens := opens + [candle[1]];
      highs := highs + [candle[2]];
      lows := lows + [candle[3]];
      closes := closes + [candle[4]];
    }
    var vols := seq(|dates|, k requires 0 <= k < |dates| => volumes(k));
    var frame := FromColumns(dates, opens, highs, lows, closes, vols);
    assert WellShaped(data);
    ghost var parsed := CoinGeckoData(response, volumes).0.value;
    forall k | 0 <= k < |data| ensures frame[k] == parsed[k] {
      assert frame[k] == Bar(dates[k], opens[k], highs[k], lows[k], closes[k], volumes(k));
    }
    assert |frame| == |parsed|;
    assert frame == parsed;
    df, ok := Some(frame), true;
  }
}
