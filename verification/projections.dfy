/** The per-style projections of the candles: what the primary series is
    given for each chart style, and the coloured volume bars. */
module Projections {
  import opened Market

  /** `d.close >= d.open`: a tie counts as up. */
  function ToneOf(c: Candle): (t: Tone)
    ensures t == Up <==> c.close >= c.open
  {
    if c.close >= c.open then Up else Down
  }

  /** The styles whose primary series is given `{time, value: close}`. */
  predicate IsValueStyle(style: string)
  {
    style == "Line" || style == "Step line" || style == "Area" || style == "Baseline"
  }

  /** How one candle is shown for a style: the chain of `if`s inside
      `candleData.map`. */
  function ProjectCandle(style: string, d: Candle): PriceDatum
  {
    if style == "Line" || style == "Step line" then
      Point(LinePoint(d.time, d.close))
    else if style == "Area" || style == "Baseline" then
      Point(LinePoint(d.time, d.close))
    else if style == "Columns" then
      Column(HistogramPoint(d.time, d.close, ToneOf(d)))
    else
      Bar(d)
  }

  /** The price projection handed to the primary series. */
  function PriceProjection(style: string, data: seq<Candle>): (r: seq<PriceDatum>)
    ensures |r| == |data|
  {
    if data == [] then [] else [ProjectCandle(style, data[0])] + PriceProjection(style, data[1..])
  }

  /** The candles handed over unchanged, as `setData(candleData)` does. */
  function Raw(data: seq<Candle>): (r: seq<PriceDatum>)
    ensures |r| == |data|
  {
    if data == [] then [] else [Bar(data[0])] + Raw(data[1..])
  }

  function VolumePoint(d: Candle): HistogramPoint
  {
    HistogramPoint(d.time, d.volume, ToneOf(d))
  }

  /** The volume projection: `{time, value: volume, color}` per candle. */
  function VolumeProjection(data: seq<Candle>): (r: seq<HistogramPoint>)
    ensures |r| == |data|
  {
    if data == [] then [] else [VolumePoint(data[0])] + VolumeProjection(data[1..])
  }

  /** Element `i` of the price projection comes from candle `i`: a value
      point of its close for the line, step-line, area and baseline styles,
      a column of its close coloured up iff close >= open for `Columns`,
      and the candle itself for every other style. */
  lemma {:induction false} PriceProjectionAt(style: string, data: seq<Candle>, i: nat)
    requires i < |data|
    ensures IsValueStyle(style) ==>
      PriceProjection(style, data)[i] == Point(LinePoint(data[i].time, data[i].close))
    ensures style == "Columns" ==>
      PriceProjection(style, data)[i] == Column(HistogramPoint(data[i].time, data[i].close,
                                                               if data[i].close >= data[i].open then Up else Down))
    ensures !IsValueStyle(style) && style != "Columns" ==>
      PriceProjection(style, data)[i] == Bar(data[i])
  {
    if i > 0 {
      PriceProjectionAt(style, data[1..], i - 1);
    }
  }

  /** Element `i` of the raw hand-over is candle `i`. */
  lemma {:induction false} RawAt(data: seq<Candle>, i: nat)
    requires i < |data|
    ensures Raw(data)[i] == Bar(data[i])
  {
    if i > 0 {
      RawAt(data[1..], i - 1);
    }
  }

  /** Bar `i` of the volume projection carries candle `i`'s time and
      volume, coloured up iff close >= open; so `{open: 10, close: 10}` is
      up and `{open: 10, close: 8}` is down. */
  lemma {:induction false} VolumeProjectionAt(data: seq<Candle>, i: nat)
    requires i < |data|
    ensures VolumeProjection(data)[i].time == data[i].time
    ensures VolumeProjection(data)[i].value == data[i].volume
    ensures VolumeProjection(data)[i].tone == Up <==> data[i].close >= data[i].open
  {
    if i > 0 {
      VolumeProjectionAt(data[1..], i - 1);
    }
  }

  /** For every candle-drawn style (`Candles`, `Hollow candles` and any
      unknown style) the price projection hands the candles over unchanged. */
  lemma CandleStylesPassThrough(style: string, data: seq<Candle>)
    requires !IsValueStyle(style) && style != "Columns"
    ensures PriceProjection(style, data) == Raw(data)
  {
    forall i | 0 <= i < |data|
      ensures PriceProjection(style, data)[i] == Raw(data)[i]
    {
      PriceProjectionAt(style, data, i);
      RawAt(data, i);
    }
  }

  /** The `Columns` style colours each column exactly as the volume bar of
      the same candle is coloured. */
  lemma ColumnsToneMatchesVolume(data: seq<Candle>, i: nat)
    requires i < |data|
    ensures PriceProjection("Columns", data)[i].Column?
    ensures PriceProjection("Columns", data)[i].column.tone == VolumeProjection(data)[i].tone
  {
    PriceProjectionAt("Columns", data, i);
    VolumeProjectionAt(data, i);
  }
}
