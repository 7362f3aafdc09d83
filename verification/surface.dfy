/** A stand-in for the charting surface: a chart that records which series
    are bound to it and what data each holds, its visible logical window,
    and the resize observer that watches its container. */
module Surface {
  import opened Market
  import opened Dispatch
  import opened Projections

  /** What `setData` was last given for a series. */
  datatype Payload =
    | NoData
    | Prices(data: seq<PriceDatum>)
    | Overlay(points: seq<LinePoint>)
    | Volumes(bars: seq<HistogramPoint>)

  datatype BoundSeries = BoundSeries(kind: SeriesKind, payload: Payload)

  /** The time scale's visible logical range: never set, set to
      `[from, to)`, or fitted to all of the data by `fitContent`. */
  datatype Viewport = Unset | Window(from: int, to: int) | Fitted

  /** The logical window over the last `span` of `n` points:
      `{from: Math.max(0, n - span), to: n}`. */
  function TailWindow(n: nat, span: nat): (w: Viewport)
    ensures w.Window?
    ensures 0 <= w.from <= w.to == n
    ensures w.to - w.from == if n < span then n else span
  {
    Window(if n > span then n - span else 0, n)
  }

  /** A series of kind `kind` can draw the element `d`: a candlestick
      series needs the open/high/low/close of a candle, every other kind
      needs a `value`. */
  predicate Draws(kind: SeriesKind, d: PriceDatum)
  {
    (kind == CandlestickSeries) == d.Bar?
  }

  /** Every element of the payload is one the series kind can draw. */
  predicate Accepts(kind: SeriesKind, p: Payload)
  {
    match p
    case NoData => true
    case Prices(data) => forall i :: 0 <= i < |data| ==> Draws(kind, data[i])
    case Overlay(_) => kind != CandlestickSeries
    case Volumes(_) => kind != CandlestickSeries
  }

  /** The style table is consistent: the series kind chosen for a style
      can draw every element of that style's price projection. */
  lemma ProjectionFitsSeries(style: string, data: seq<Candle>)
    ensures Accepts(SeriesKindFor(style), Prices(PriceProjection(style, data)))
  {
    var k := SeriesKindFor(style);
    var r := PriceProjection(style, data);
    forall i | 0 <= i < |r|
      ensures Draws(k, r[i])
    {
      PriceProjectionAt(style, data, i);
    }
  }

  /** The fake chart. Series handles are indices into `bound`; a removed
      chart ignores `setData`. */
  class Chart {
    var bound: map<nat, BoundSeries>
    var nextId: nat
    var removed: bool
    var viewport: Viewport
    var width: int
    var height: int

    /** `createChart(container, {width, height, ...})`. */
    constructor (width: int, height: int)
      ensures bound == map[] && nextId == 0 && !removed && viewport == Unset
      ensures this.width == width && this.height == height
    {
      bound := map[];
      nextId := 0;
      removed := false;
      viewport := Unset;
      this.width := width;
      this.height := height;
    }

    /** `chart.add...Series(options)`: binds a new, empty series. */
    method AddSeries(kind: SeriesKind) returns (id: nat)
      modifies this`bound, this`nextId
      ensures id == old(nextId) && nextId == old(nextId) + 1
      ensures bound == old(bound)[id := BoundSeries(kind, NoData)]
    {
      id := nextId;
      bound := bound[id := BoundSeries(kind, NoData)];
      nextId := nextId + 1;
    }

    /** `chart.removeSeries(series)`. */
    method RemoveSeries(id: nat)
      modifies this`bound
      ensures bound == old(bound) - {id}
    {
      bound := bound - {id};
    }

    /** `series.setData(data)` on the series `id` of this chart. */
    method SetData(id: nat, p: Payload)
      modifies this`bound
      ensures bound == if id in old(bound) && !removed then old(bound)[id := BoundSeries(old(bound)[id].kind, p)] else old(bound)
    {
      if id in bound && !removed {
        bound := bound[id := BoundSeries(bound[id].kind, p)];
      }
    }

    /** `chart.timeScale().setVisibleLogicalRange(range)`; the window moves
        whether or not the chart has been removed. */
    method SetVisibleRange(w: Viewport)
      modifies this`viewport
      ensures viewport == w
    {
      viewport := w;
    }

    /** `applyOptions({width, height})` followed by `timeScale().fitContent()`. */
    method ResizeAndFit(w: int, h: int)
      modifies this`width, this`height, this`viewport
      ensures width == w && height == h && viewport == Fitted
    {
      width, height := w, h;
      viewport := Fitted;
    }

    /** `chart.remove()`; removing twice is harmless. */
    method Remove()
      modifies this`removed
      ensures removed
    {
      removed := true;
    }
  }

  /** A series handle: the chart it was added to and its index there. */
  datatype SeriesRef = SeriesRef(chart: Chart, id: nat)

  /** The container's `ResizeObserver`. */
  class ResizeObserver {
    var connected: bool

    constructor ()
      ensures !connected
    {
      connected := false;
    }

    /** `resizeObserver.observe(container)`. */
    method Observe()
      modifies this
      ensures connected
    {
      connected := true;
    }

    /** `resizeObserver.disconnect()`. */
    method Disconnect()
      modifies this
      ensures !connected
    {
      connected := false;
    }
  }
}
