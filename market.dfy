/**
 * The price rows shared by every data source of the dashboard: one OHLCV row
 * per period, indexed by its timestamp. A data frame is a sequence of rows.
 */
module Market {
  /** One OHLCV row; `time` is the row's timestamp in milliseconds since the epoch. */
  datatype Bar = Bar(time: real, open: real, high: real, low: real, close: real, volume: real)

  /** Python's `min` of two prices. */
  function Min(a: real, b: real): (m: real)
  {
    if a <= b then a else b
  }

  /** Python's `max` of two prices. */
  function Max(a: real, b: real): (m: real)
  {
    if a >= b then a else b
  }

  /** The OHLC invariant of a well-formed row. */
  predicate Ordered(b: Bar) {
    b.low <= Min(b.open, b.close) <= Max(b.open, b.close) <= b.high
  }

  predicate Increasing(s: seq<real>) {
    forall i, j :: 0 <= i < j < |s| ==> s[i] < s[j]
  }

  /** The data frame built from parallel columns, one row per index entry. */
  function FromColumns(dates: seq<real>, opens: seq<real>, highs: seq<real>,
                       lows: seq<real>, closes: seq<real>, volumes: seq<real>): (f: seq<Bar>)
    requires |opens| == |highs| == |lows| == |closes| == |volumes| == |dates|
    ensures |f| == |dates|
  {
    seq(|dates|, i requires 0 <= i < |dates| =>
      Bar(dates[i], opens[i], highs[i], lows[i], closes[i], volumes[i]))
  }

  /** The index column of a frame. */
  function Times(f: seq<Bar>): (col: seq<real>) {
    seq(|f|, i requires 0 <= i < |f| => f[i].time)
  }

  /** The `High` column of a frame. */
  function Highs(f: seq<Bar>): (col: seq<real>) {
    seq(|f|, i requires 0 <= i < |f| => f[i].high)
  }

  /** The `Low` column of a frame. */
  function Lows(f: seq<Bar>): (col: seq<real>) {
    seq(|f|, i requires 0 <= i < |f| => f[i].low)
  }
}
