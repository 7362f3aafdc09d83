/** `createChartSeries`' choice of series kind for a chart style. */
module Dispatch {

  /** The series constructors the chart offers. */
  datatype SeriesKind = CandlestickSeries | LineSeries | AreaSeries | BaselineSeries | HistogramSeries

  /** The `switch (type)`: every string maps to a kind, and anything not
      named in the switch falls back to candlesticks. */
  function SeriesKindFor(style: string): (k: SeriesKind)
    ensures k == LineSeries <==> style == "Line" || style == "Step line"
    ensures k == AreaSeries <==> style == "Area"
    ensures k == BaselineSeries <==> style == "Baseline"
    ensures k == HistogramSeries <==> style == "Columns"
    ensures k == CandlestickSeries <==>
      style != "Line" && style != "Step line" && style != "Area" && style != "Baseline" && style != "Columns"
  {
    if style == "Candles" then CandlestickSeries
    else if style == "Hollow candles" then CandlestickSeries
    else if style == "Line" then LineSeries
    else if style == "Step line" then LineSeries
    else if style == "Area" then AreaSeries
    else if style == "Baseline" then BaselineSeries
    else if style == "Columns" then HistogramSeries
    else CandlestickSeries
  }

  /** The kind `createChartSeries` ends up adding: the switch's choice, or
      the candlestick series of its `catch` when the `try` block throws. */
  function PrimaryKind(style: string, createThrows: bool): (k: SeriesKind)
    ensures !createThrows ==> k == SeriesKindFor(style)
    ensures k == CandlestickSeries <==> createThrows || SeriesKindFor(style) == CandlestickSeries
  {
    if createThrows then CandlestickSeries else SeriesKindFor(style)
  }
}
