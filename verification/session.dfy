/** The trading page's chart session: the refs it keeps to the chart and
    its series, the effect that rebuilds the chart, the effect that rebinds
    data when the coin or timeframe changes, the fetch that fills the
    candles, and the fullscreen flag. React's scheduling is left to the
    caller, which calls `ChartEffect` whenever the candles, the chart style
    or the fullscreen flag change, `SelectionEffect` whenever the coin or
    the timeframe change, and `RunPendingCleanup` when the page goes away. */
module Session {
  import opened Market
  import opened Averages
  import opened Projections
  import opened Dispatch
  import opened Surface
  import opened Fullscreen

  /** The teardown a run of the chart effect returns: it captures that
      run's resize observer and chart. */
  datatype Cleanup = Cleanup(observer: ResizeObserver, chart: Chart)

  /** The series a successful chart build leaves on its fresh chart, by
      index: the primary series of kind `kind` holding the style's price
      projection, and for `Candles` only the volume histogram and the MA7,
      MA25 and MA99 lines. */
  function BuiltSeries(style: string, kind: SeriesKind, data: seq<Candle>): map<nat, BoundSeries>
  {
    var primary := map[0 := BoundSeries(kind, Prices(PriceProjection(style, data)))];
    if style == "Candles" then
      primary[1 := BoundSeries(HistogramSeries, Volumes(VolumeProjection(data)))]
             [2 := BoundSeries(LineSeries, Overlay(MovingAverage(data, 7)))]
             [3 := BoundSeries(LineSeries, Overlay(MovingAverage(data, 25)))]
             [4 := BoundSeries(LineSeries, Overlay(MovingAverage(data, 99)))]
    else
      primary
  }

  /** Every series of the map can draw what it was given. */
  predicate AllDrawable(m: map<nat, BoundSeries>)
  {
    forall id :: id in m ==> Accepts(m[id].kind, m[id].payload)
  }

  /** A build binds exactly one series holding price data (the primary
      one); it adds the volume histogram and the three moving averages, of
      periods 7, 25 and 99, if and only if the style is `Candles`. */
  lemma BuiltSeriesShape(style: string, kind: SeriesKind, data: seq<Candle>)
    ensures 0 in BuiltSeries(style, kind, data)
    ensures BuiltSeries(style, kind, data)[0].kind == kind
    ensures (set id | id in BuiltSeries(style, kind, data) && BuiltSeries(style, kind, data)[id].payload.Prices?) == {0}
    ensures |BuiltSeries(style, kind, data)| == if style == "Candles" then 5 else 1
    ensures style == "Candles" <==> 1 in BuiltSeries(style, kind, data)
    ensures style == "Candles" ==>
      && BuiltSeries(style, kind, data)[1] == BoundSeries(HistogramSeries, Volumes(VolumeProjection(data)))
      && BuiltSeries(style, kind, data)[2].payload == Overlay(MovingAverage(data, 7))
      && BuiltSeries(style, kind, data)[3].payload == Overlay(MovingAverage(data, 25))
      && BuiltSeries(style, kind, data)[4].payload == Overlay(MovingAverage(data, 99))
  {
    var m := BuiltSeries(style, kind, data);
    if style == "Candles" {
      assert m.Keys == {0, 1, 2, 3, 4};
      assert (set id | id in m && m[id].payload.Prices?) == {0};
    } else {
      assert m.Keys == {0};
    }
  }

  /** With candles to show, every series of a build can draw its data
      exactly when the primary series is of the kind the style asks for, or
      the style is drawn with candles anyway: a `createChartSeries` that
      falls back to candlesticks for a value style leaves a series that
      cannot draw its data. */
  lemma BuiltSeriesDrawable(style: string, createThrows: bool, data: seq<Candle>)
    requires |data| > 0
    ensures AllDrawable(BuiltSeries(style, PrimaryKind(style, createThrows), data))
        <==> !createThrows || SeriesKindFor(style) == CandlestickSeries
  {
    var kind := PrimaryKind(style, createThrows);
    var m := BuiltSeries(style, kind, data);
    ProjectionFitsSeries(style, data);
    PriceProjectionAt(style, data, 0);
    if !createThrows || SeriesKindFor(style) == CandlestickSeries {
      assert kind == SeriesKindFor(style);
      forall id | id in m
        ensures Accepts(m[id].kind, m[id].payload)
      {
      }
    } else {
      assert !Draws(kind, PriceProjection(style, data)[0]);
      assert !Accepts(m[0].kind, m[0].payload);
    }
  }

  /** Series `r` (if its chart is still live and it is still bound)
      holds `p`. */
  ghost predicate Holds(r: SeriesRef, p: Payload)
    reads r.chart
  {
    r.id in r.chart.bound && !r.chart.removed ==> r.chart.bound[r.id].payload == p
  }

  /** `series.setData(p)` through a handle: only that series' data can
      change, and only if its chart is live and it is still bound. */
  method SetSeriesData(r: SeriesRef, p: Payload, ghost charts: set<Chart>)
    modifies r.chart`bound
    ensures Holds(r, p)
    ensures forall id :: id in r.chart.bound && id != r.id ==> id in old(r.chart.bound) && r.chart.bound[id] == old(r.chart.bound[id])
    ensures forall c :: c in charts ==> KeepsOthers(c, {r})
  {
    r.chart.SetData(r.id, p);
  }

  /** Between `before` and `now`, chart `c` has the same series of the same
      kinds; every series not named in `named` has the same data; and if
      `c` is removed nothing changed at all. */
  ghost predicate Keeps(c: Chart, now: map<nat, BoundSeries>, before: map<nat, BoundSeries>, named: set<SeriesRef>)
    reads c
  {
    && now.Keys == before.Keys
    && (c.removed ==> now == before)
    && (forall id :: id in now ==> now[id].kind == before[id].kind)
    && (forall id :: id in now && SeriesRef(c, id) !in named ==> now[id] == before[id])
  }

  /** `Keeps` across one call: the series of `c` other than those in `named`
      are as they were. */
  twostate predicate KeepsOthers(c: Chart, named: set<SeriesRef>)
    reads c
  {
    Keeps(c, c.bound, old(c.bound), named)
  }

  lemma KeepsTrans(c: Chart, a: map<nat, BoundSeries>, b: map<nat, BoundSeries>, d: map<nat, BoundSeries>,
                   n1: set<SeriesRef>, n2: set<SeriesRef>)
    requires Keeps(c, b, a, n1) && Keeps(c, d, b, n2)
    ensures Keeps(c, d, a, n1 + n2)
  {
  }

  /** The bound series of every chart of `charts`. */
  ghost function Bounds(charts: set<Chart>): map<Chart, map<nat, BoundSeries>>
    reads charts
  {
    map c | c in charts :: c.bound
  }

  /** Lines 356-364: the four `setData` calls, through four handles that
      name four different series. */
  method RebindSeries(primary: SeriesRef, ma7: SeriesRef, ma25: SeriesRef, ma99: SeriesRef, data: seq<Candle>, ghost charts: set<Chart>)
    requires primary != ma7 && primary != ma25 && primary != ma99 && ma7 != ma25 && ma7 != ma99 && ma25 != ma99
    modifies primary.chart`bound, ma7.chart`bound, ma25.chart`bound, ma99.chart`bound
    ensures Holds(primary, Prices(Raw(data)))
    ensures Holds(ma7, Overlay(MovingAverage(data, 7)))
    ensures Holds(ma25, Overlay(MovingAverage(data, 25)))
    ensures Holds(ma99, Overlay(MovingAverage(data, 99)))
    ensures forall c :: c in charts ==> KeepsOthers(c, {primary, ma7, ma25, ma99})
  {
    ghost var all := charts + {primary.chart};
    ghost var b0 := Bounds(all);
    SetSeriesData(primary, Prices(Raw(data)), all);
    ghost var b1 := Bounds(all);
    RebindOverlays(ma7, ma25, ma99, data, all);
    forall c | c in all
      ensures Keeps(c, c.bound, b0[c], {primary, ma7, ma25, ma99})
    {
      assert Keeps(c, b1[c], b0[c], {primary});
      assert Keeps(c, c.bound, b1[c], {ma7, ma25, ma99});
      KeepsTrans(c, b0[c], b1[c], c.bound, {primary}, {ma7, ma25, ma99});
      assert {primary} + {ma7, ma25, ma99} == {primary, ma7, ma25, ma99};
    }
    assert SeriesRef(primary.chart, primary.id) !in {ma7, ma25, ma99};
  }

  /** Lines 358-364: the three moving averages computed and handed to the
      overlay series. */
  method RebindOverlays(ma7: SeriesRef, ma25: SeriesRef, ma99: SeriesRef, data: seq<Candle>, ghost charts: set<Chart>)
    requires ma7 != ma25 && ma7 != ma99 && ma25 != ma99
    modifies ma7.chart`bound, ma25.chart`bound, ma99.chart`bound
    ensures Holds(ma7, Overlay(MovingAverage(data, 7)))
    ensures Holds(ma25, Overlay(MovingAverage(data, 25)))
    ensures Holds(ma99, Overlay(MovingAverage(data, 99)))
    ensures forall c :: c in charts ==> KeepsOthers(c, {ma7, ma25, ma99})
  {
    ghost var b0 := Bounds(charts);
    var ma7Data := CalculateMA(data, 7);
    var ma25Data := CalculateMA(data, 25);
    var ma99Data := CalculateMA(data, 99);
    SetSeriesData(ma7, Overlay(ma7Data), charts);
    ghost var b1 := Bounds(charts);
    SetSeriesData(ma25, Overlay(ma25Data), charts);
    ghost var b2 := Bounds(charts);
    SetSeriesData(ma99, Overlay(ma99Data), charts);
    forall c | c in charts
      ensures Keeps(c, c.bound, b0[c], {ma7, ma25, ma99})
    {
      assert Keeps(c, b1[c], b0[c], {ma7});
      assert Keeps(c, b2[c], b1[c], {ma25});
      assert Keeps(c, c.bound, b2[c], {ma99});
      KeepsTrans(c, b0[c], b1[c], b2[c], {ma7}, {ma25});
      KeepsTrans(c, b0[c], b2[c], c.bound, {ma7, ma25}, {ma99});
      assert {ma7} + {ma25} + {ma99} == {ma7, ma25, ma99};
    }
  }

  /** `r`, if set, names a series of one of `charts`. */
  ghost predicate RefIn(r: Option<SeriesRef>, charts: set<Chart>)
  {
    r.Some? ==> r.value.chart in charts
  }

  function ChartOf(r: Option<SeriesRef>): set<Chart>
  {
    if r.Some? then {r.value.chart} else {}
  }

  function ChartsOf(a: Option<SeriesRef>, b: Option<SeriesRef>, c: Option<SeriesRef>, d: Option<SeriesRef>): set<Chart>
  {
    ChartOf(a) + ChartOf(b) + ChartOf(c) + ChartOf(d)
  }

  /** The series `r` names, if it is still bound, is of kind `kind`. */
  ghost predicate KindAt(r: Option<SeriesRef>, kind: SeriesKind)
    reads ChartOf(r)
  {
    r.Some? && r.value.id in r.value.chart.bound ==> r.value.chart.bound[r.value.id].kind == kind
  }

  /** The moving-average refs name line series; when the MA7 ref shares its
      chart with the primary ref, the primary series is a candlestick
      series. */
  ghost predicate OverlayKindsOf(primary: Option<SeriesRef>, ma7: Option<SeriesRef>, ma25: Option<SeriesRef>, ma99: Option<SeriesRef>)
    reads ChartsOf(primary, ma7, ma25, ma99)
  {
    && KindAt(ma7, LineSeries) && KindAt(ma25, LineSeries) && KindAt(ma99, LineSeries)
    && (primary.Some? && ma7.Some? && primary.value.chart == ma7.value.chart ==> KindAt(primary, CandlestickSeries))
  }

  /** Lines 330-336: the three moving averages computed and handed to the
      line series 2, 3 and 4. */
  method FillOverlays(chart: Chart, data: seq<Candle>)
    requires !chart.removed && {2, 3, 4} <= chart.bound.Keys
    requires chart.bound[2].kind == chart.bound[3].kind == chart.bound[4].kind == LineSeries
    modifies chart`bound
    ensures chart.bound == old(chart.bound)
      [2 := BoundSeries(LineSeries, Overlay(MovingAverage(data, 7)))]
      [3 := BoundSeries(LineSeries, Overlay(MovingAverage(data, 25)))]
      [4 := BoundSeries(LineSeries, Overlay(MovingAverage(data, 99)))]
  {
    var ma7Data := CalculateMA(data, 7);
    var ma25Data := CalculateMA(data, 25);
    var ma99Data := CalculateMA(data, 99);
    chart.SetData(2, Overlay(ma7Data));
    chart.SetData(3, Overlay(ma25Data));
    chart.SetData(4, Overlay(ma99Data));
  }

  /** The kinds of a `Candles` build, by index. */
  lemma CandleBuildKinds(kind: SeriesKind, data: seq<Candle>)
    ensures {0, 2, 3, 4} <= BuiltSeries("Candles", kind, data).Keys
    ensures BuiltSeries("Candles", kind, data)[0].kind == kind
    ensures BuiltSeries("Candles", kind, data)[2].kind == LineSeries
    ensures BuiltSeries("Candles", kind, data)[3].kind == LineSeries
    ensures BuiltSeries("Candles", kind, data)[4].kind == LineSeries
  {
  }

  predicate Apart(a: Option<SeriesRef>, b: Option<SeriesRef>)
  {
    a.None? || b.None? || a.value != b.value
  }

  class ChartSession {
    /** Whether `chartContainerRef.current` is set. */
    const hasContainer: bool
    var candleData: seq<Candle>
    var chartType: string
    var isFullscreen: bool
    var chartRef: Chart?
    var seriesRef: Option<SeriesRef>
    var ma7Ref: Option<SeriesRef>
    var ma25Ref: Option<SeriesRef>
    var ma99Ref: Option<SeriesRef>
    /** The teardown React keeps from the last run of the chart effect. */
    var pendingCleanup: Option<Cleanup>
    /** Every chart and resize observer the session has created. */
    ghost var Charts: set<Chart>
    ghost var Observers: set<ResizeObserver>

    /** No two refs name the same series. */
    ghost predicate RefsDistinct()
      reads this
    {
      && Apart(seriesRef, ma7Ref) && Apart(seriesRef, ma25Ref) && Apart(seriesRef, ma99Ref)
      && Apart(ma7Ref, ma25Ref) && Apart(ma7Ref, ma99Ref) && Apart(ma25Ref, ma99Ref)
    }

    ghost predicate OverlayKinds()
      reads this, ChartsOf(seriesRef, ma7Ref, ma25Ref, ma99Ref)
    {
      OverlayKindsOf(seriesRef, ma7Ref, ma25Ref, ma99Ref)
    }

    /** The session's invariant: the refs name series of charts it
        created, no two refs alias, and the only chart still alive (and
        the only observer still connected) is the one whose teardown is
        pending. */
    ghost predicate Valid()
      reads this, Charts, Observers
    {
      && (chartRef != null ==> chartRef in Charts)
      && RefIn(seriesRef, Charts) && RefIn(ma7Ref, Charts) && RefIn(ma25Ref, Charts) && RefIn(ma99Ref, Charts)
      && RefsDistinct()
      && OverlayKinds()
      && (pendingCleanup.Some? ==>
            pendingCleanup.value.chart == chartRef && pendingCleanup.value.observer in Observers)
      && (forall c :: c in Charts && !c.removed ==> pendingCleanup.Some? && c == chartRef)
      && (forall o :: o in Observers && o.connected ==> pendingCleanup.Some? && o == pendingCleanup.value.observer)
    }

    /** The first render: no candles, the `Candles` style, not fullscreen,
        every ref empty. */
    constructor (hasContainer: bool)
      ensures Valid()
      ensures this.hasContainer == hasContainer
      ensures candleData == [] && chartType == "Candles" && !isFullscreen
      ensures chartRef == null && seriesRef.None? && ma7Ref.None? && ma25Ref.None? && ma99Ref.None?
      ensures pendingCleanup.None? && Charts == {} && Observers == {}
    {
      this.hasContainer := hasContainer;
      candleData := [];
      chartType := "Candles";
      isFullscreen := false;
      chartRef := null;
      seriesRef, ma7Ref, ma25Ref, ma99Ref := None, None, None, None;
      pendingCleanup := None;
      Charts, Observers := {}, {};
    }

    /** `setSelectedChartType(style)`. */
    method SelectChartType(style: string)
      requires Valid()
      modifies this`chartType
      ensures Valid() && chartType == style
    {
      chartType := style;
    }

    /** `fetchData`: a response (its rows already parsed) replaces the
        candles with the formatted rows; a failed fetch, `None`, leaves the
        candles as they were. */
    method FetchData(response: Option<seq<Row>>)
      requires Valid()
      modifies this`candleData
      ensures Valid()
      ensures candleData == if response.Some? then FormatRows(response.value) else old(candleData)
    {
      if response.Some? {
        candleData := FormatRows(response.value);
      }
    }

    /** `createChartSeries(chart, style)`: removes the primary series if it
        is bound to `chart`, then adds a series of the kind the style asks
        for, or a candlestick series when that throws, and points
        `seriesRef` at it. */
    method CreateChartSeries(chart: Chart, style: string, createThrows: bool) returns (series: SeriesRef)
      modifies this`seriesRef, chart`bound, chart`nextId
      ensures series == SeriesRef(chart, old(chart.nextId)) && seriesRef == Some(series)
      ensures chart.nextId == old(chart.nextId) + 1
      ensures chart.bound ==
        (old(chart.bound) - (if old(seriesRef).Some? && old(seriesRef).value.chart == chart then {old(seriesRef).value.id} else {}))
          [series.id := BoundSeries(PrimaryKind(style, createThrows), NoData)]
    {
      if seriesRef.Some? && seriesRef.value.chart == chart && seriesRef.value.id in chart.bound {
        chart.RemoveSeries(seriesRef.value.id);
      }
      var id;
      if createThrows {
        // the switch's add throws; the catch adds the default candlestick series
        id := chart.AddSeries(CandlestickSeries);
      } else {
        id := chart.AddSeries(SeriesKindFor(style));
      }
      series := SeriesRef(chart, id);
      seriesRef := Some(series);
    }

    /** The returned teardown: disconnect the observer, remove the chart. */
    static method Teardown(cleanup: Cleanup)
      modifies cleanup.observer, cleanup.chart`removed
      ensures !cleanup.observer.connected && cleanup.chart.removed
    {
      cleanup.observer.Disconnect();
      cleanup.chart.Remove();
    }

    /** React runs the teardown kept from the previous run of the chart
        effect before running it again, and when the page unmounts:
        afterwards no chart the session created is alive and no observer is
        connected. It can run in any valid state, and running it again
        changes nothing. */
    method RunPendingCleanup()
      requires Valid()
      modifies this`pendingCleanup, Charts, Observers
      ensures Valid() && pendingCleanup.None?
      ensures forall c :: c in Charts ==> c.removed && c.bound == old(c.bound) && c.viewport == old(c.viewport)
      ensures forall c :: c in Charts ==> c.width == old(c.width) && c.height == old(c.height) && c.nextId == old(c.nextId)
      ensures forall o :: o in Observers ==> !o.connected
      ensures old(pendingCleanup).None? ==> unchanged(Charts) && unchanged(Observers)
    {
      if pendingCleanup.Some? {
        Teardown(pendingCleanup.value);
        pendingCleanup := None;
      }
    }

    /** Lines 286-305, run for `Candles` only: a volume histogram holding
        the volume projection. */
    method AttachVolume(chart: Chart)
      requires !chart.removed && chart.nextId == 1 && chart.bound.Keys == {0}
      modifies chart`bound, chart`nextId
      ensures chart.nextId == 2
      ensures chart.bound == old(chart.bound)[1 := BoundSeries(HistogramSeries, Volumes(VolumeProjection(candleData)))]
    {
      var volume := chart.AddSeries(HistogramSeries);
      chart.SetData(volume, Volumes(VolumeProjection(candleData)));
    }

    /** Lines 307-337, run for `Candles` only: the MA7, MA25 and MA99
        lines, the refs pointing at them, each holding its moving average. */
    method AttachMovingAverages(chart: Chart)
      requires !chart.removed && chart.nextId == 2 && chart.bound.Keys == {0, 1}
      modifies this`ma7Ref, this`ma25Ref, this`ma99Ref, chart`bound, chart`nextId
      ensures chart.bound == old(chart.bound)
        [2 := BoundSeries(LineSeries, Overlay(MovingAverage(candleData, 7)))]
        [3 := BoundSeries(LineSeries, Overlay(MovingAverage(candleData, 25)))]
        [4 := BoundSeries(LineSeries, Overlay(MovingAverage(candleData, 99)))]
      ensures ma7Ref == Some(SeriesRef(chart, 2)) && ma25Ref == Some(SeriesRef(chart, 3)) && ma99Ref == Some(SeriesRef(chart, 4))
    {
      AddOverlaySeries(chart);
      FillOverlays(chart, candleData);
    }

    /** Lines 308-328: three line series, the refs pointing at them. */
    method AddOverlaySeries(chart: Chart)
      requires chart.nextId == 2 && chart.bound.Keys == {0, 1}
      modifies this`ma7Ref, this`ma25Ref, this`ma99Ref, chart`bound, chart`nextId
      ensures chart.nextId == 5
      ensures chart.bound == old(chart.bound)
        [2 := BoundSeries(LineSeries, NoData)][3 := BoundSeries(LineSeries, NoData)][4 := BoundSeries(LineSeries, NoData)]
      ensures ma7Ref == Some(SeriesRef(chart, 2)) && ma25Ref == Some(SeriesRef(chart, 3)) && ma99Ref == Some(SeriesRef(chart, 4))
    {
      var ma7 := chart.AddSeries(LineSeries);
      var ma25 := chart.AddSeries(LineSeries);
      var ma99 := chart.AddSeries(LineSeries);
      ma7Ref, ma25Ref, ma99Ref := Some(SeriesRef(chart, ma7)), Some(SeriesRef(chart, ma25)), Some(SeriesRef(chart, ma99));
    }

    /** Lines 261-343 on a fresh chart: the primary series with the style's
        projection, for `Candles` the volume bars and the three moving
        averages, and the window over the last 50 points. */
    method PopulateChart(chart: Chart, createThrows: bool)
      requires chart.bound == map[] && chart.nextId == 0 && !chart.removed
      modifies this`seriesRef, this`ma7Ref, this`ma25Ref, this`ma99Ref, chart`bound, chart`nextId, chart`viewport
      ensures chart.bound == BuiltSeries(chartType, PrimaryKind(chartType, createThrows), candleData)
      ensures chart.viewport == TailWindow(|candleData|, 50)
      ensures seriesRef == Some(SeriesRef(chart, 0))
      ensures chartType == "Candles" ==>
        ma7Ref == Some(SeriesRef(chart, 2)) && ma25Ref == Some(SeriesRef(chart, 3)) && ma99Ref == Some(SeriesRef(chart, 4))
      ensures chartType != "Candles" ==>
        ma7Ref == old(ma7Ref) && ma25Ref == old(ma25Ref) && ma99Ref == old(ma99Ref)
    {
      var series := CreateChartSeries(chart, chartType, createThrows);
      chart.SetData(series.id, Prices(PriceProjection(chartType, candleData)));
      assert chart.bound == map[0 := BoundSeries(PrimaryKind(chartType, createThrows), Prices(PriceProjection(chartType, candleData)))];
      if chartType == "Candles" {
        AttachVolume(chart);
      }
      if chartType == "Candles" {
        AttachMovingAverages(chart);
      }
      chart.SetVisibleRange(TailWindow(|candleData|, 50));
    }

    /** Lines 206-258: remove the old chart (a second removal if the
        previous teardown already did), create a fresh chart of the
        container's size and a resize observer watching the container;
        then populate the chart. */
    method MountFreshChart(width: int, height: int, createThrows: bool) returns (chart: Chart, observer: ResizeObserver)
      modifies this`seriesRef, this`ma7Ref, this`ma25Ref, this`ma99Ref, (if chartRef != null then {chartRef} else {})`removed
      ensures fresh(chart) && fresh(observer) && observer.connected
      ensures old(chartRef) != null ==> old(chartRef).removed && old(chartRef).bound == old(chartRef.bound)
      ensures !chart.removed && chart.width == width && chart.height == height
      ensures chart.bound == BuiltSeries(chartType, PrimaryKind(chartType, createThrows), candleData)
      ensures chart.viewport == TailWindow(|candleData|, 50)
      ensures seriesRef == Some(SeriesRef(chart, 0))
      ensures chartType == "Candles" ==>
        ma7Ref == Some(SeriesRef(chart, 2)) && ma25Ref == Some(SeriesRef(chart, 3)) && ma99Ref == Some(SeriesRef(chart, 4))
      ensures chartType == "Candles" ==>
        chart.bound[0].kind == CandlestickSeries && chart.bound[2].kind == chart.bound[3].kind == chart.bound[4].kind == LineSeries
      ensures chartType != "Candles" ==>
        ma7Ref == old(ma7Ref) && ma25Ref == old(ma25Ref) && ma99Ref == old(ma99Ref)
      ensures old(Valid()) ==>
        && RefIn(seriesRef, Charts + {chart}) && RefIn(ma7Ref, Charts + {chart})
        && RefIn(ma25Ref, Charts + {chart}) && RefIn(ma99Ref, Charts + {chart})
        && RefsDistinct() && OverlayKinds()
    {
      if chartRef != null {
        chartRef.Remove();
      }
      chart := new Chart(width, height);
      observer := new ResizeObserver();
      observer.Observe();
      PopulateChart(chart, createThrows);
      if chartType == "Candles" {
        CandleBuildKinds(PrimaryKind(chartType, createThrows), candleData);
      }
    }

    /** The chart effect once the previous teardown has run and there are
        a container and candles: mount and populate a fresh chart and leave
        its teardown (lines 348-351) pending. */
    method BuildChart(width: int, height: int, createThrows: bool)
      requires Valid() && pendingCleanup.None?
      modifies this, Charts
      ensures Valid()
      ensures candleData == old(candleData) && chartType == old(chartType) && isFullscreen == old(isFullscreen)
      ensures forall c :: c in old(Charts) ==> c.removed
      ensures forall c :: c in old(Charts) ==>
        c.bound == old(c.bound) && c.viewport == old(c.viewport)
        && c.width == old(c.width) && c.height == old(c.height) && c.nextId == old(c.nextId)
      ensures chartRef != null && fresh(chartRef) && Charts == old(Charts) + {chartRef}
      ensures !chartRef.removed && chartRef.width == width && chartRef.height == height
      ensures chartRef.bound == BuiltSeries(chartType, PrimaryKind(chartType, createThrows), candleData)
      ensures chartRef.viewport == TailWindow(|candleData|, 50)
      ensures seriesRef == Some(SeriesRef(chartRef, 0))
      ensures chartType == "Candles" ==>
        ma7Ref == Some(SeriesRef(chartRef, 2)) && ma25Ref == Some(SeriesRef(chartRef, 3)) && ma99Ref == Some(SeriesRef(chartRef, 4))
      ensures chartType != "Candles" ==>
        ma7Ref == old(ma7Ref) && ma25Ref == old(ma25Ref) && ma99Ref == old(ma99Ref)
      ensures pendingCleanup.Some? && pendingCleanup.value.chart == chartRef
      ensures fresh(pendingCleanup.value.observer) && pendingCleanup.value.observer.connected
      ensures Observers == old(Observers) + {pendingCleanup.value.observer}
    {
      var chart, observer := MountFreshChart(width, height, createThrows);
      Adopt(chart, observer);
    }

    /** Lines 345-351: keep the fresh chart in `chartRef` and return its
        teardown, which React keeps pending. */
    method Adopt(chart: Chart, observer: ResizeObserver)
      requires !chart.removed && observer.connected
      requires forall c :: c in Charts ==> c.removed
      requires forall o :: o in Observers ==> !o.connected
      requires RefIn(seriesRef, Charts + {chart}) && RefIn(ma7Ref, Charts + {chart})
      requires RefIn(ma25Ref, Charts + {chart}) && RefIn(ma99Ref, Charts + {chart})
      requires RefsDistinct() && OverlayKinds()
      modifies this`Charts, this`Observers, this`chartRef, this`pendingCleanup
      ensures Valid()
      ensures Charts == old(Charts) + {chart} && Observers == old(Observers) + {observer}
      ensures chartRef == chart && pendingCleanup == Some(Cleanup(observer, chart))
    {
      Charts := Charts + {chart};
      Observers := Observers + {observer};
      chartRef := chart;
      pendingCleanup := Some(Cleanup(observer, chart));
    }

    /** One run of the chart effect (lines 203-352), preceded by the
        teardown React kept from the previous run. With no container or no
        candles it stops there; otherwise it builds a fresh chart. */
    method ChartEffect(width: int, height: int, createThrows: bool)
      requires Valid()
      modifies this, Charts, Observers
      ensures Valid()
      ensures candleData == old(candleData) && chartType == old(chartType) && isFullscreen == old(isFullscreen)
      ensures forall c :: c in old(Charts) ==> c.removed
      ensures forall o :: o in old(Observers) ==> !o.connected
      ensures forall c :: c in old(Charts) ==>
        c.bound == old(c.bound) && c.viewport == old(c.viewport)
        && c.width == old(c.width) && c.height == old(c.height) && c.nextId == old(c.nextId)
      ensures !hasContainer || |candleData| == 0 ==>
        && chartRef == old(chartRef) && seriesRef == old(seriesRef)
        && ma7Ref == old(ma7Ref) && ma25Ref == old(ma25Ref) && ma99Ref == old(ma99Ref)
        && pendingCleanup.None? && Charts == old(Charts) && Observers == old(Observers)
      ensures hasContainer && |candleData| > 0 ==>
        && chartRef != null && fresh(chartRef) && Charts == old(Charts) + {chartRef}
        && !chartRef.removed && chartRef.width == width && chartRef.height == height
        && chartRef.bound == BuiltSeries(chartType, PrimaryKind(chartType, createThrows), candleData)
        && chartRef.viewport == TailWindow(|candleData|, 50)
        && seriesRef == Some(SeriesRef(chartRef, 0))
        && (chartType == "Candles" ==>
              ma7Ref == Some(SeriesRef(chartRef, 2)) && ma25Ref == Some(SeriesRef(chartRef, 3))
              && ma99Ref == Some(SeriesRef(chartRef, 4)))
        && (chartType != "Candles" ==>
              ma7Ref == old(ma7Ref) && ma25Ref == old(ma25Ref) && ma99Ref == old(ma99Ref))
        && pendingCleanup.Some? && pendingCleanup.value.chart == chartRef
        && fresh(pendingCleanup.value.observer) && pendingCleanup.value.observer.connected
        && Observers == old(Observers) + {pendingCleanup.value.observer}
    {
      RunPendingCleanup();
      if !hasContainer || |candleData| == 0 {
        return;
      }
      BuildChart(width, height, createThrows);
    }

    /** The guard of the coin/timeframe effect: the primary ref, the chart
        ref and the three moving-average refs are all set. */
    predicate RefsSet()
      reads this
    {
      seriesRef.Some? && chartRef != null && ma7Ref.Some? && ma25Ref.Some? && ma99Ref.Some?
    }

    /** The coin/timeframe effect (lines 354-372) as written: when every ref
        is set, hand the raw candles to the primary series and the three
        moving averages to the overlay series, wherever those refs point,
        and show the last 100 points. */
    method SelectionEffect()
      requires Valid()
      modifies Charts
      ensures Valid()
      ensures !RefsSet() ==> unchanged(Charts)
      ensures RefsSet() ==>
        && Holds(seriesRef.value, Prices(Raw(candleData)))
        && Holds(ma7Ref.value, Overlay(MovingAverage(candleData, 7)))
        && Holds(ma25Ref.value, Overlay(MovingAverage(candleData, 25)))
        && Holds(ma99Ref.value, Overlay(MovingAverage(candleData, 99)))
        && chartRef.viewport == TailWindow(|candleData|, 100)
      ensures forall c :: c in Charts ==> c.bound.Keys == old(c.bound.Keys) && c.removed == old(c.removed)
      ensures forall c, id :: c in Charts && id in c.bound ==> c.bound[id].kind == old(c.bound[id].kind)
      ensures forall c, id :: c in Charts && id in c.bound && Some(SeriesRef(c, id)) !in {seriesRef, ma7Ref, ma25Ref, ma99Ref} ==>
        id in old(c.bound) && c.bound[id] == old(c.bound[id])
      ensures forall c :: c in Charts ==> c.width == old(c.width) && c.height == old(c.height) && c.nextId == old(c.nextId)
      ensures forall c :: c in Charts && c != chartRef ==> c.viewport == old(c.viewport)
      ensures forall c :: c in Charts && c.removed ==> c.bound == old(c.bound)
    {
      if RefsSet() {
        RebindRefs();
      }
    }

    /** The body of the coin/timeframe effect, once every ref is set:
        lines 356-370. Only the four named series and the current chart's
        window change. */
    method RebindRefs()
      requires Valid() && RefsSet()
      modifies Charts
      ensures Valid()
      ensures Holds(seriesRef.value, Prices(Raw(candleData)))
      ensures Holds(ma7Ref.value, Overlay(MovingAverage(candleData, 7)))
      ensures Holds(ma25Ref.value, Overlay(MovingAverage(candleData, 25)))
      ensures Holds(ma99Ref.value, Overlay(MovingAverage(candleData, 99)))
      ensures chartRef.viewport == TailWindow(|candleData|, 100)
      ensures forall c :: c in Charts ==> c.bound.Keys == old(c.bound.Keys) && c.removed == old(c.removed)
      ensures forall c, id :: c in Charts && id in c.bound ==> c.bound[id].kind == old(c.bound[id].kind)
      ensures forall c, id :: c in Charts && id in c.bound && Some(SeriesRef(c, id)) !in {seriesRef, ma7Ref, ma25Ref, ma99Ref} ==>
        id in old(c.bound) && c.bound[id] == old(c.bound[id])
      ensures forall c :: c in Charts ==> c.width == old(c.width) && c.height == old(c.height) && c.nextId == old(c.nextId)
      ensures forall c :: c in Charts && c != chartRef ==> c.viewport == old(c.viewport)
      ensures forall c :: c in Charts && c.removed ==> c.bound == old(c.bound)
    {
      var data := candleData;
      RebindSeries(seriesRef.value, ma7Ref.value, ma25Ref.value, ma99Ref.value, data, Charts);
      chartRef.SetVisibleRange(TailWindow(|data|, 100));
    }

    /** The refs all name series of the current chart: true only after a
        `Candles` build of that chart. */
    predicate RefsOnCurrentChart()
      reads this
    {
      && RefsSet()
      && seriesRef.value.chart == chartRef && ma7Ref.value.chart == chartRef
      && ma25Ref.value.chart == chartRef && ma99Ref.value.chart == chartRef
    }

    /** The coin/timeframe effect with the guard it evidently intends:
        rebind only when the overlay refs belong to the current chart.
        Every series of the current chart that could draw its data still
        can afterwards. */
    method RebindSelection()
      requires Valid()
      modifies Charts
      ensures Valid()
      ensures !RefsOnCurrentChart() ==> unchanged(Charts)
      ensures RefsOnCurrentChart() ==>
        && Holds(seriesRef.value, Prices(Raw(candleData)))
        && Holds(ma7Ref.value, Overlay(MovingAverage(candleData, 7)))
        && Holds(ma25Ref.value, Overlay(MovingAverage(candleData, 25)))
        && Holds(ma99Ref.value, Overlay(MovingAverage(candleData, 99)))
        && chartRef.viewport == TailWindow(|candleData|, 100)
      ensures chartRef != null && old(AllDrawable(chartRef.bound)) ==> AllDrawable(chartRef.bound)
      ensures forall c :: c in Charts ==> c.bound.Keys == old(c.bound.Keys) && c.removed == old(c.removed)
      ensures forall c, id :: c in Charts && id in c.bound ==> c.bound[id].kind == old(c.bound[id].kind)
      ensures forall c, id :: c in Charts && id in c.bound && Some(SeriesRef(c, id)) !in {seriesRef, ma7Ref, ma25Ref, ma99Ref} ==>
        id in old(c.bound) && c.bound[id] == old(c.bound[id])
      ensures forall c :: c in Charts ==> c.width == old(c.width) && c.height == old(c.height) && c.nextId == old(c.nextId)
      ensures forall c :: c in Charts && c != chartRef ==> c.viewport == old(c.viewport)
      ensures forall c :: c in Charts && c.removed ==> c.bound == old(c.bound)
    {
      if RefsOnCurrentChart() {
        var data := candleData;
        var chart := chartRef;
        ghost var before := chart.bound;
        ghost var drawable := AllDrawable(before);
        RebindRefs();
        if drawable {
          forall id | id in chart.bound
            ensures Accepts(chart.bound[id].kind, chart.bound[id].payload)
          {
            if id == seriesRef.value.id && !chart.removed {
              // the primary shares its chart with the MA7 line, so it is a candlestick series
              assert before[id].kind == CandlestickSeries;
              RawDrawnByCandles(data);
            } else if chart.removed || SeriesRef(chart, id) !in {seriesRef.value, ma7Ref.value, ma25Ref.value, ma99Ref.value} {
              assert chart.bound[id] == before[id];
            }
          }
        }
      }
    }

    /** The resize observer's callback: a connected observer resizes the
        current chart and refits its time scale; no series and no data
        change. */
    method OnResize(observer: ResizeObserver, width: int, height: int)
      requires Valid() && observer in Observers
      modifies Charts
      ensures Valid()
      ensures observer.connected ==>
        chartRef != null && chartRef.width == width && chartRef.height == height && chartRef.viewport == Fitted
      ensures !observer.connected ==> unchanged(Charts)
      ensures forall c :: c in Charts ==> c.bound == old(c.bound) && c.removed == old(c.removed) && c.nextId == old(c.nextId)
      ensures forall c :: c in Charts && c != chartRef ==>
        c.viewport == old(c.viewport) && c.width == old(c.width) && c.height == old(c.height)
    {
      if observer.connected && chartRef != null {
        chartRef.ResizeAndFit(width, height);
      }
    }

    /** `toggleFullscreen`, given whether the platform reports a
        fullscreen element: returns the platform call it makes. */
    method ToggleFullscreen(fullscreenElement: bool) returns (request: Request)
      requires Valid()
      modifies this`isFullscreen
      ensures Valid()
      ensures request == ToggleRequest(fullscreenElement, hasContainer)
      ensures isFullscreen == AfterToggle(old(isFullscreen), fullscreenElement, hasContainer)
    {
      if !fullscreenElement {
        if hasContainer {
          request := RequestEnter;
          isFullscreen := true;
        } else {
          request := NoRequest;
        }
      } else {
        request := RequestExit;
        isFullscreen := false;
      }
    }

    /** The `fullscreenchange` handler. */
    method OnFullscreenChange(fullscreenElement: bool)
      requires Valid()
      modifies this`isFullscreen
      ensures Valid()
      ensures isFullscreen == AfterChange(old(isFullscreen), fullscreenElement)
    {
      if !fullscreenElement {
        isFullscreen := false;
      }
    }
  }

  /** The raw candles are drawable by a candlestick series and by no
      other kind (given at least one candle). */
  lemma RawDrawnByCandles(data: seq<Candle>)
    ensures Accepts(CandlestickSeries, Prices(Raw(data)))
    ensures |data| > 0 ==> !Accepts(LineSeries, Prices(Raw(data)))
  {
    var r := Raw(data);
    forall i | 0 <= i < |r|
      ensures Draws(CandlestickSeries, r[i])
    {
      RawAt(data, i);
    }
    if |data| > 0 {
      RawAt(data, 0);
      assert !Draws(LineSeries, r[0]);
    }
  }

  /** As written, the coin/timeframe effect after a switch from `Candles`
      to `Line`: the overlay refs still name the removed candle chart, so
      the guard passes and the raw candles go to the line series, which
      cannot draw them. */
  method StaleOverlayScenario(row: Row) returns (kind: SeriesKind, payload: Payload)
    ensures kind == LineSeries && payload == Prices(Raw(FormatRows([row])))
    ensures !Accepts(kind, payload)
  {
    var session := new ChartSession(true);
    session.FetchData(Some([row]));
    session.ChartEffect(800, 600, false);
    session.SelectChartType("Line");
    session.ChartEffect(800, 600, false);
    var chart := session.chartRef;
    session.SelectionEffect();
    kind := chart.bound[0].kind;
    payload := chart.bound[0].payload;
    RawDrawnByCandles(FormatRows([row]));
  }

  /** A coin change after a `Candles` build leaves the volume histogram
      holding the volume projection. */
  method CoinChangeKeepsVolume(row: Row) returns (volume: Payload)
    ensures volume == Volumes(VolumeProjection(FormatRows([row])))
  {
    var session := new ChartSession(true);
    session.FetchData(Some([row]));
    session.ChartEffect(800, 600, false);
    var chart := session.chartRef;
    session.SelectionEffect();
    volume := chart.bound[1].payload;
  }

  /** The same steps with the corrected guard: the line series keeps its
      `{time, value}` points. */
  method CorrectedRebindScenario(row: Row) returns (kind: SeriesKind, payload: Payload)
    ensures kind == LineSeries && payload == Prices(PriceProjection("Line", FormatRows([row])))
    ensures Accepts(kind, payload)
  {
    var session := new ChartSession(true);
    session.FetchData(Some([row]));
    session.ChartEffect(800, 600, false);
    session.SelectChartType("Line");
    session.ChartEffect(800, 600, false);
    var chart := session.chartRef;
    session.RebindSelection();
    kind := chart.bound[0].kind;
    payload := chart.bound[0].payload;
    ProjectionFitsSeries("Line", FormatRows([row]));
  }
}
