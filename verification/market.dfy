/** Market data as the trading page holds it: candles, the points derived
    from them, and the conversion of the rows returned by the klines
    endpoint into candles. */
module Market {

  datatype Option<T> = None | Some(value: T)

  /** One OHLCV sample. `time` is in epoch seconds; prices and volume are
      modelled as exact reals. */
  datatype Candle = Candle(time: int, open: real, high: real, low: real, close: real, volume: real)

  /** The two colours a coloured point can take: up when the candle closed
      at or above its open, down otherwise. */
  datatype Tone = Up | Down

  /** `{time, value}`: a point of a line, area or baseline series. */
  datatype LinePoint = LinePoint(time: int, value: real)

  /** `{time, value, color}`: a bar of a histogram series. */
  datatype HistogramPoint = HistogramPoint(time: int, value: real, tone: Tone)

  /** One element handed to the primary series: the candle itself, or a
      value point, or a coloured column. */
  datatype PriceDatum = Bar(candle: Candle) | Point(point: LinePoint) | Column(column: HistogramPoint)

  /** A kline row after its fields have been parsed to numbers:
      `[timeMillis, open, high, low, close, volume]`. */
  datatype Row = Row(timeMillis: int, open: real, high: real, low: real, close: real, volume: real)

  /** `Math.floor(ms / 1000)`: the whole second that contains `ms`. */
  function EpochSeconds(ms: int): (s: int)
    ensures s * 1000 <= ms < s * 1000 + 1000
  {
    ms / 1000
  }

  function FormatRow(row: Row): Candle
  {
    Candle(EpochSeconds(row.timeMillis), row.open, row.high, row.low, row.close, row.volume)
  }

  /** The `result.data.map(...)` of a fetch: one candle per row, in order,
      with the time truncated to seconds and every price copied. */
  function FormatRows(rows: seq<Row>): (candles: seq<Candle>)
    ensures |candles| == |rows|
    ensures forall i :: 0 <= i < |rows| ==>
      && candles[i].time * 1000 <= rows[i].timeMillis < candles[i].time * 1000 + 1000
      && candles[i].open == rows[i].open && candles[i].high == rows[i].high
      && candles[i].low == rows[i].low && candles[i].close == rows[i].close
      && candles[i].volume == rows[i].volume
  {
    if rows == [] then [] else [FormatRow(rows[0])] + FormatRows(rows[1..])
  }

  /** Candle times are non-decreasing. */
  ghost predicate TimesNonDecreasing(candles: seq<Candle>)
  {
    forall i, j :: 0 <= i < j < |candles| ==> candles[i].time <= candles[j].time
  }

  /** Row times are non-decreasing. */
  ghost predicate MillisNonDecreasing(rows: seq<Row>)
  {
    forall i, j :: 0 <= i < j < |rows| ==> rows[i].timeMillis <= rows[j].timeMillis
  }

  /** Truncating to seconds keeps rows in time order: rows sorted by
      milliseconds give candles sorted by seconds. */
  lemma {:induction false} FormatRowsKeepsOrder(rows: seq<Row>)
    requires MillisNonDecreasing(rows)
    ensures TimesNonDecreasing(FormatRows(rows))
  {
    var candles := FormatRows(rows);
    forall i, j | 0 <= i < j < |candles|
      ensures candles[i].time <= candles[j].time
    {
      var a, b := candles[i].time, candles[j].time;
      assert a * 1000 <= rows[i].timeMillis <= rows[j].timeMillis < b * 1000 + 1000;
    }
  }
}
