/** The trailing simple moving average drawn as the MA7, MA25 and MA99
    overlays. */
module Averages {
  import opened Market

  /** `reduce((acc, candle) => acc + candle.close, 0)`: the closes summed
      from the left. */
  function SumCloses(s: seq<Candle>): real
  {
    if s == [] then 0.0 else SumCloses(s[..|s| - 1]) + s[|s| - 1].close
  }

  /** Number of points of a `period`-wide moving average over `n` candles:
      `max(0, n - period + 1)`. */
  function AverageCount(n: nat, period: nat): nat
    requires period >= 1
  {
    if n >= period then n - period + 1 else 0
  }

  /** Point `k` of the moving average: stamped with the time of the last
      candle of its window `data[k .. k + period]`. */
  function AveragePoint(data: seq<Candle>, period: nat, k: nat): LinePoint
    requires period >= 1 && k + period <= |data|
  {
    LinePoint(data[k + period - 1].time, SumCloses(data[k..k + period]) / period as real)
  }

  /** The moving average in closed form: one point per complete window. */
  function MovingAverage(data: seq<Candle>, period: nat): (ma: seq<LinePoint>)
    requires period >= 1
    ensures |ma| == AverageCount(|data|, period)
    ensures forall k :: 0 <= k < |ma| ==>
      && k + period <= |data|
      && ma[k].time == data[k + period - 1].time
      && ma[k].value * period as real == SumCloses(data[k..k + period])
  {
    var ma := seq(AverageCount(|data|, period), k requires 0 <= k < AverageCount(|data|, period) => AveragePoint(data, period, k));
    assert forall k :: 0 <= k < |ma| ==> ma[k].value * period as real == SumCloses(data[k..k + period]) by {
      forall k | 0 <= k < |ma|
        ensures ma[k].value * period as real == SumCloses(data[k..k + period])
      {
        ScaleBack(SumCloses(data[k..k + period]), period as real);
      }
    }
    ma
  }

  /** `calculateMA`: for i from period-1 to the last index, push the mean
      of the closes of `data[i-period+1 .. i]` stamped with `data[i].time`. */
  method CalculateMA(data: seq<Candle>, period: nat) returns (ma: seq<LinePoint>)
    requires period >= 1
    ensures |ma| == AverageCount(|data|, period)
    ensures ma == MovingAverage(data, period)
  {
    ma := [];
    var i := period - 1;
    while i < |data|
      invariant period - 1 <= i
      invariant |ma| == i - (period - 1)
      invariant i <= |data| || ma == []
      invariant forall k :: 0 <= k < |ma| ==> k + period <= |data| && ma[k] == AveragePoint(data, period, k)
    {
      var sum := SumCloses(data[i - period + 1..i + 1]);
      ma := ma + [LinePoint(data[i].time, sum / period as real)];
      i := i + 1;
    }
  }

  /** Summing a concatenation sums the parts. */
  lemma {:induction false} SumClosesAppend(a: seq<Candle>, b: seq<Candle>)
    ensures SumCloses(a + b) == SumCloses(a) + SumCloses(b)
    decreases |b|
  {
    if b == [] {
      assert a + b == a;
    } else {
      var last := b[|b| - 1];
      assert (a + b)[..|a + b| - 1] == a + b[..|b| - 1];
      SumClosesAppend(a, b[..|b| - 1]);
    }
  }

  /** Closes that all lie in `[lo, hi]` sum to between `|s|*lo` and `|s|*hi`. */
  lemma {:induction false} SumClosesBounds(s: seq<Candle>, lo: real, hi: real)
    requires forall j :: 0 <= j < |s| ==> lo <= s[j].close <= hi
    ensures |s| as real * lo <= SumCloses(s) <= |s| as real * hi
    decreases |s|
  {
    if s != [] {
      SumClosesBounds(s[..|s| - 1], lo, hi);
    }
  }

  /** Every average lies between the smallest and the largest close of the
      series: in particular a series of constant close `c` averages to `c`
      everywhere (ten candles of close 5 with period 7 give four points of
      value 5). */
  lemma AverageWithinCloses(data: seq<Candle>, period: nat, lo: real, hi: real)
    requires period >= 1
    requires forall j :: 0 <= j < |data| ==> lo <= data[j].close <= hi
    ensures forall k :: 0 <= k < |MovingAverage(data, period)| ==>
      lo <= MovingAverage(data, period)[k].value <= hi
  {
    var ma := MovingAverage(data, period);
    forall k | 0 <= k < |ma|
      ensures lo <= ma[k].value <= hi
    {
      var w := data[k..k + period];
      SumClosesBounds(w, lo, hi);
      var p := period as real;
      assert p * lo <= SumCloses(w) <= p * hi;
      assert ma[k].value == SumCloses(w) / p;
      DivideBounds(SumCloses(w), p, lo, hi);
    }
  }

  lemma DivideBounds(sum: real, p: real, lo: real, hi: real)
    requires p > 0.0 && p * lo <= sum <= p * hi
    ensures lo <= sum / p <= hi
  {
    assert sum / p * p == sum;
  }

  /** Sliding the window one candle to the right adds the entering close
      and drops the leaving one. */
  lemma SlidingWindow(data: seq<Candle>, period: nat, k: nat)
    requires period >= 1
    requires k + 1 < |MovingAverage(data, period)|
    ensures MovingAverage(data, period)[k + 1].value * period as real
         == MovingAverage(data, period)[k].value * period as real - data[k].close + data[k + period].close
  {
    var ma := MovingAverage(data, period);
    var mid := data[k + 1..k + period];
    assert data[k..k + period] == [data[k]] + mid;
    assert data[k + 1..k + period + 1] == mid + [data[k + period]];
    SumClosesAppend([data[k]], mid);
    SumClosesAppend(mid, [data[k + period]]);
    assert SumCloses([data[k]]) == data[k].close by {
      assert [data[k]][..0] == [];
    }
    assert SumCloses([data[k + period]]) == data[k + period].close by {
      assert [data[k + period]][..0] == [];
    }
    var p := period as real;
    ScaleBack(SumCloses(data[k..k + period]), p);
    ScaleBack(SumCloses(data[k + 1..k + period + 1]), p);
  }

  lemma ScaleBack(sum: real, p: real)
    requires p > 0.0
    ensures sum / p * p == sum
  {
  }

  /** Strictly increasing candle times give strictly increasing average
      times, as the chart requires of any series it is given. */
  lemma AverageTimesIncrease(data: seq<Candle>, period: nat)
    requires period >= 1
    requires forall i, j :: 0 <= i < j < |data| ==> data[i].time < data[j].time
    ensures forall k, l :: 0 <= k < l < |MovingAverage(data, period)| ==>
      MovingAverage(data, period)[k].time < MovingAverage(data, period)[l].time
  {
  }
}
