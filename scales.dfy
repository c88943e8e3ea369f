/** The scale builder and the bar geometry: the time scale along the categorical
    axis, the two value scales (one for the axis ticks, one for bar lengths) and
    each bar's rectangle, in both orientations. */
module Scales {
  import opened Layouts

  /** A continuous linear scale from the domain [d0, d1] onto the range [r0, r1],
      without clamping. When the domain is a single point every input maps to the
      middle of the range, as the charting library's linear scale does. */
  datatype Linear = Linear(d0: real, d1: real, r0: real, r1: real) {
    function Apply(v: real): real {
      if d0 == d1 then (r0 + r1) / 2.0
      else
        var t := (v - d0) / (d1 - d0);
        r0 * (1.0 - t) + r1 * t
    }
  }

  /** The domain's ends go to the range's ends. */
  lemma EndPoints(s: Linear)
    ensures s.d0 != s.d1 ==> s.Apply(s.d0) == s.r0 && s.Apply(s.d1) == s.r1
  {
    if s.d0 != s.d1 {
      assert (s.d1 - s.d0) / (s.d1 - s.d0) == 1.0;
    }
  }

  /** Moving the range by c moves every output by c. */
  lemma Shifted(s: Linear, c: real)
    ensures forall v :: Linear(s.d0, s.d1, s.r0 + c, s.r1 + c).Apply(v) == c + s.Apply(v)
  {
    forall v ensures Linear(s.d0, s.d1, s.r0 + c, s.r1 + c).Apply(v) == c + s.Apply(v) {
      if s.d0 != s.d1 {
        var t := (v - s.d0) / (s.d1 - s.d0);
        calc {
          (s.r0 + c) * (1.0 - t) + (s.r1 + c) * t;
          s.r0 * (1.0 - t) + s.r1 * t + c * ((1.0 - t) + t);
        }
      }
    }
  }

  /** Mirroring the range about c mirrors every output about c. */
  lemma Mirrored(s: Linear, c: real)
    ensures forall v :: Linear(s.d0, s.d1, c - s.r0, c - s.r1).Apply(v) == c - s.Apply(v)
  {
    forall v ensures Linear(s.d0, s.d1, c - s.r0, c - s.r1).Apply(v) == c - s.Apply(v) {
      if s.d0 != s.d1 {
        var t := (v - s.d0) / (s.d1 - s.d0);
        calc {
          (c - s.r0) * (1.0 - t) + (c - s.r1) * t;
          c * ((1.0 - t) + t) - (s.r0 * (1.0 - t) + s.r1 * t);
        }
      }
    }
  }

  /** A scale from [0, max] onto [0, length] gives each value the share of the
      length that the value is of max. */
  lemma Proportional(max: real, length: real, v: real)
    requires max != 0.0
    ensures Linear(0.0, max, 0.0, length).Apply(v) * max == v * length
  {
    assert Linear(0.0, max, 0.0, length).Apply(v) == v / max * length;
  }

  /** On an increasing domain the scale is strictly increasing when its range
      ascends and strictly decreasing when it descends. */
  lemma Monotone(s: Linear, v: real, w: real)
    requires s.d0 < s.d1 && v < w
    ensures s.r0 < s.r1 ==> s.Apply(v) < s.Apply(w)
    ensures s.r0 > s.r1 ==> s.Apply(v) > s.Apply(w)
  {
    var span := s.d1 - s.d0;
    var tv, tw := (v - s.d0) / span, (w - s.d0) / span;
    assert tv < tw by {
      assert tv * span == v - s.d0 && tw * span == w - s.d0;
    }
    assert s.Apply(w) - s.Apply(v) == (tw - tv) * (s.r1 - s.r0);
    if s.r0 < s.r1 {
      assert (tw - tv) * (s.r1 - s.r0) > 0.0 <== tw - tv > 0.0 && s.r1 - s.r0 > 0.0;
    } else if s.r0 > s.r1 {
      assert (tw - tv) * (s.r0 - s.r1) > 0.0 <== tw - tv > 0.0 && s.r0 - s.r1 > 0.0;
    }
  }

  /** One entry of the dataset: the date as written, the instant it denotes
      (date parsing is not modelled) and the GDP value. */
  datatype Entry = Entry(date: string, time: int, gdp: real)

  /** The fetched dataset: the first and last dates as instants and the entries in
      chronological order. */
  datatype Dataset = Dataset(fromTime: int, toTime: int, data: seq<Entry>)

  /** The largest GDP value of a non-empty list of entries. */
  function MaxGdp(data: seq<Entry>): (m: real)
    requires |data| > 0
    ensures forall i :: 0 <= i < |data| ==> data[i].gdp <= m
    ensures exists i :: 0 <= i < |data| && data[i].gdp == m
  {
    if |data| == 1 then data[0].gdp
    else
      var rest := MaxGdp(data[..|data| - 1]);
      var last := data[|data| - 1].gdp;
      if rest < last then last else rest
  }

  /** The length of the value axis, over which bar lengths range: from the padding
      inset to the far edge of the chart, so it is positive whenever the padding
      fits inside the chart. */
  function ValueLength(l: Layout): (len: real)
    ensures len + l.padding == if l.rotate then l.width else l.height
    ensures l.padding < l.width && l.padding < l.height ==> len > 0.0
  {
    if l.rotate then l.width - l.padding else l.height - l.padding
  }

  /** The time scale: from the first to the last date onto [padding, width - padding]
      in the normal chart and onto [0, height - padding] in the rotated one. */
  function XScale(l: Layout, ds: Dataset): (s: Linear)
    ensures ds.fromTime < ds.toTime ==>
      s.Apply(ds.fromTime as real) == (if l.rotate then 0.0 else l.padding) &&
      s.Apply(ds.toTime as real) == (if l.rotate then l.height - l.padding else l.width - l.padding)
  {
    var s := Linear(ds.fromTime as real, ds.toTime as real,
                    if l.rotate then 0.0 else l.padding,
                    if l.rotate then l.height - l.padding else l.width - l.padding);
    EndPoints(s);
    s
  }

  /** The value scale of the axis ticks: from [0, max] onto [height - padding, 0]
      (descending: larger values higher up) in the normal chart and onto
      [padding, width] in the rotated one. It is the bar-length scale mirrored about
      the baseline, or moved past the padding, so the two agree at every value. */
  function YAxisScale(l: Layout, max: real): (s: Linear)
    ensures forall v ::
              s.Apply(v) == (if l.rotate then l.padding + YScale(l, max).Apply(v)
                             else l.height - l.padding - YScale(l, max).Apply(v))
  {
    var s := Linear(0.0, max, if l.rotate then l.padding else l.height - l.padding,
                    if l.rotate then l.width else 0.0);
    var lengths := YScale(l, max);
    Shifted(lengths, l.padding);
    Mirrored(lengths, l.height - l.padding);
    assert l.rotate ==> s == Linear(0.0, max, lengths.r0 + l.padding, lengths.r1 + l.padding);
    assert !l.rotate ==>
      s == Linear(0.0, max, (l.height - l.padding) - lengths.r0, (l.height - l.padding) - lengths.r1);
    s
  }

  /** The bar-length scale: from [0, max] onto [0, ValueLength]. A zero value gets no
      length and the largest value the whole axis; if every value is zero, every
      bar gets half the axis. */
  function YScale(l: Layout, max: real): (s: Linear)
    ensures max != 0.0 ==> s.Apply(0.0) == 0.0 && s.Apply(max) == ValueLength(l)
    ensures max == 0.0 ==> forall v :: s.Apply(v) == ValueLength(l) / 2.0
  {
    var s := Linear(0.0, max, 0.0, ValueLength(l));
    EndPoints(s);
    s
  }

  /** The extent shared out between the bars, equal bins along the categorical
      axis: from the padding inset to the far edge of the chart along that axis,
      positive whenever the padding fits inside the chart. */
  function CategoryExtent(l: Layout): (e: real)
    ensures e + l.padding == if l.rotate then l.height else l.width
    ensures l.padding < l.width && l.padding < l.height ==> e > 0.0
  {
    if l.rotate then l.height - l.padding else l.width - l.padding
  }

  /** The shared bar thickness, one equal bin of the extent per entry. */
  function BarWidth(l: Layout, ds: Dataset): (w: real)
    requires |ds.data| > 0
    ensures w * |ds.data| as real == CategoryExtent(l)
    ensures CategoryExtent(l) > 0.0 ==> 0.0 < w <= CategoryExtent(l)
  {
    var n := |ds.data| as real;
    var w := CategoryExtent(l) / n;
    assert w * n - w == w * (n - 1.0);
    assert CategoryExtent(l) > 0.0 ==> w > 0.0 && w * (n - 1.0) >= 0.0;
    w
  }

  /** The n bins together fill the extent. Rotated, that is exactly the span of the
      time axis; in the normal chart it is that span plus one padding, so the bins
      are wider than the spacing of evenly spread dates. */
  lemma BinsFillExtent(l: Layout, ds: Dataset)
    requires |ds.data| > 0
    ensures BarWidth(l, ds) * |ds.data| as real == CategoryExtent(l)
    ensures var s := XScale(l, ds);
      BarWidth(l, ds) * |ds.data| as real == (s.r1 - s.r0) + (if l.rotate then 0.0 else l.padding)
  {
  }

  /** A rendered bar: its index, date and value as tagged on the element, and its
      rectangle. */
  datatype Bar = Bar(index: nat, date: string, gdp: real,
                     x: real, y: real, width: real, height: real)

  /** The coordinate, across the value direction, of the categorical axis line that
      bars stand on: the x axis at height - padding normally, the time axis at
      x = padding when rotated. */
  function Baseline(l: Layout): (y: real)
    ensures l.rotate ==> y + ValueLength(l) == l.width
    ensures !l.rotate ==> y - ValueLength(l) == 0.0
  {
    if l.rotate then l.padding else l.height - l.padding
  }

  /** Where the categorical axis puts the tick for an instant: its group is moved
      down by padding when rotated, and only across the axis otherwise. */
  function CategoryTick(l: Layout, ds: Dataset, time: int): (p: real)
    ensures ds.fromTime < ds.toTime && time == ds.fromTime ==> p == l.padding
    ensures ds.fromTime < ds.toTime && time == ds.toTime ==>
      p == if l.rotate then l.height else l.width - l.padding
  {
    (if l.rotate then l.padding else 0.0) + XScale(l, ds).Apply(time as real)
  }

  /** Where the value axis puts the tick for a value: its group is moved only across
      the value direction. */
  function ValueTick(l: Layout, ds: Dataset, v: real): (p: real)
    requires |ds.data| > 0
    ensures MaxGdp(ds.data) != 0.0 && v == 0.0 ==> p == Baseline(l)
    ensures MaxGdp(ds.data) != 0.0 && v == MaxGdp(ds.data) ==> p == if l.rotate then l.width else 0.0
  {
    YAxisScale(l, MaxGdp(ds.data)).Apply(v)
  }

  /** The rectangle of the bar of entry i. Normal: x from the time scale,
      y = height - padding - length, width the shared thickness, height the length.
      Rotated: x = padding, y = padding + time position, width the length, height
      the shared thickness. Either way the bar stands on the categorical axis, starts
      at its date's tick, ends at its value's tick, and its length is proportional
      to its value. */
  function BarOf(l: Layout, ds: Dataset, i: nat): (b: Bar)
    requires i < |ds.data|
    ensures b.index == i && b.date == ds.data[i].date && b.gdp == ds.data[i].gdp
    ensures (if l.rotate then b.x else b.y + b.height) == Baseline(l)
    ensures (if l.rotate then b.y else b.x) == CategoryTick(l, ds, ds.data[i].time)
    ensures (if l.rotate then b.x + b.width else b.y) == ValueTick(l, ds, b.gdp)
    ensures (if l.rotate then b.height else b.width) == BarWidth(l, ds)
    ensures (if l.rotate then b.width else b.height) == YScale(l, MaxGdp(ds.data)).Apply(b.gdp)
  {
    var e := ds.data[i];
    var max := MaxGdp(ds.data);
    var position := XScale(l, ds).Apply(e.time as real);
    var length := YScale(l, max).Apply(e.gdp);
    var thickness := BarWidth(l, ds);
    assert YAxisScale(l, max).Apply(e.gdp) ==
      (if l.rotate then l.padding + length else l.height - l.padding - length);
    if l.rotate then Bar(i, e.date, e.gdp, l.padding, l.padding + position, length, thickness)
    else Bar(i, e.date, e.gdp, position, l.height - l.padding - length, thickness, length)
  }

  /** Bar lengths are proportional to the values: the length the bar-length scale
      gives a value is its share of the value axis, the value over the largest
      value. */
  lemma LengthProportional(l: Layout, max: real, v: real)
    requires max != 0.0
    ensures YScale(l, max).Apply(v) * max == v * ValueLength(l)
  {
    Proportional(max, ValueLength(l), v);
  }

  /** The bars of the first n entries, one per entry in dataset order, as the data
      join appends them. */
  function BarsUpTo(l: Layout, ds: Dataset, n: nat): (bars: seq<Bar>)
    requires n <= |ds.data|
    ensures |bars| == n
    ensures forall i :: 0 <= i < n ==> bars[i] == BarOf(l, ds, i)
  {
    if n == 0 then [] else BarsUpTo(l, ds, n - 1) + [BarOf(l, ds, n - 1)]
  }

  /** One bar per entry, in dataset order; an empty dataset draws nothing. */
  function Bars(l: Layout, ds: Dataset): (bars: seq<Bar>)
    ensures |bars| == |ds.data|
    ensures forall i :: 0 <= i < |bars| ==> bars[i].index == i && bars[i].date == ds.data[i].date
    ensures forall i :: 0 <= i < |bars| ==> bars[i] == BarOf(l, ds, i)
  {
    BarsUpTo(l, ds, |ds.data|)
  }

  /** The axis value scale runs against the value in the normal chart (larger
      values higher up the screen) and with it in the rotated chart, as long as
      some value is positive and the padding is smaller than the chart. */
  lemma AxisScaleMonotone(l: Layout, max: real, v: real, w: real)
    requires max > 0.0 && v < w
    requires l.padding < l.width && l.padding < l.height
    ensures l.rotate ==> YAxisScale(l, max).Apply(v) < YAxisScale(l, max).Apply(w)
    ensures !l.rotate ==> YAxisScale(l, max).Apply(v) > YAxisScale(l, max).Apply(w)
  {
    Monotone(YAxisScale(l, max), v, w);
  }

  /** The four quarters of the worked example: 100, 200, 150 and 300. */
  function FourQuarters(): Dataset {
    Dataset(0, 3, [Entry("2015-01-01", 0, 100.0), Entry("2015-04-01", 1, 200.0),
                   Entry("2015-07-01", 2, 150.0), Entry("2015-10-01", 3, 300.0)])
  }

  lemma FourQuartersMax()
    ensures MaxGdp(FourQuarters().data) == 300.0
  {
    var ds := FourQuarters();
    assert MaxGdp(ds.data[..2]) == 200.0;
    assert MaxGdp(ds.data[..3]) == 200.0;
  }

  lemma FourQuartersBarWidth()
    ensures BarWidth(DefaultLayout, FourQuarters()) == 240.0
  {
    assert |FourQuarters().data| == 4;
    assert CategoryExtent(DefaultLayout) == 960.0;
  }

  /** The height of a bar of the worked example at the default 1000 by 500
      layout: its value's share of 460. */
  lemma FourQuarterHeight(i: nat)
    requires i < 4
    ensures BarOf(DefaultLayout, FourQuarters(), i).height == FourQuarters().data[i].gdp / 300.0 * 460.0
  {
    var ds := FourQuarters();
    FourQuartersMax();
    assert BarOf(DefaultLayout, ds, i).height == YScale(DefaultLayout, 300.0).Apply(ds.data[i].gdp);
    assert YScale(DefaultLayout, 300.0) == Linear(0.0, 300.0, 0.0, 460.0);
  }

  /** The four quarters drawn at the default layout: four bars, of which the
      largest value, 300, gets the whole 460 of the value axis and every other bar
      its share of it; every bar stands on the x axis at 460 and is 240 wide. */
  lemma FourQuarterChart(i: nat)
    requires i < 4
    ensures |Bars(DefaultLayout, FourQuarters())| == 4
    ensures var b := Bars(DefaultLayout, FourQuarters())[i];
      b.height == FourQuarters().data[i].gdp / 300.0 * 460.0 &&
      b.y + b.height == 460.0 && b.width == 240.0
  {
    var ds := FourQuarters();
    FourQuartersMax();
    FourQuartersBarWidth();
    FourQuarterHeight(i);
    assert Bars(DefaultLayout, ds)[i] == BarsUpTo(DefaultLayout, ds, 4)[i] == BarOf(DefaultLayout, ds, i);
  }
}
