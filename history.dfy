/** The chart data that src/App.js derives from the `sensorHistory` slot on every render: one label per
    history point and two datasets, each an `Array.prototype.map` over the points in their given order. */
module History {
  import opened Wrappers
  import Clock
  import Conversion

  /** One point of `/history`: a timestamp and its `series`, in which index 0 is relative humidity in
      percent and index 1 the ambient temperature in millidegrees Celsius. */
  datatype HistoryPoint = HistoryPoint(timeMs: int, series: seq<real>)

  /** One dataset of a line chart (`legend` is its Chart.js `label`); None stands for a point with no number (undefined, or NaN). */
  datatype Dataset = Dataset(legend: string, data: seq<Option<real>>)

  /** The `data` prop handed to a Line chart. */
  datatype ChartData = ChartData(labels: seq<string>, datasets: seq<Dataset>)

  /** `Array.prototype.map` with a total callback: one result per element, in order. */
  function Map<A, B>(f: A -> B, s: seq<A>): (r: seq<B>)
    ensures |r| == |s|
  {
    if s == [] then [] else [f(s[0])] + Map(f, s[1..])
  }

  /** The i-th result of Map is the callback applied to the i-th element. */
  lemma {:induction false} MapAt<A, B>(f: A -> B, s: seq<A>, i: nat)
    requires i < |s|
    ensures Map(f, s)[i] == f(s[i])
  {
    if i > 0 {
      MapAt(f, s[1..], i - 1);
    }
  }

  /** Map neither drops, adds nor reorders: mapping a concatenation concatenates the maps. */
  lemma {:induction false} MapAppend<A, B>(f: A -> B, s: seq<A>, t: seq<A>)
    ensures Map(f, s + t) == Map(f, s) + Map(f, t)
  {
    if s == [] {
      assert s + t == t;
    } else {
      assert (s + t)[1..] == s[1..] + t;
      MapAppend(f, s[1..], t);
    }
  }

  /** `series[k]`: the element, or undefined past the end of the array. */
  function SeriesAt(p: HistoryPoint, k: nat): (r: Option<real>)
    ensures r.Some? <==> k < |p.series|
    ensures r.Some? ==> r.value == p.series[k]
  {
    if k < |p.series| then Some(p.series[k]) else None
  }

  /** `formatDate(data.timeMs)` (src/App.js:127, 183, 223). */
  function Label(p: HistoryPoint): (text: string)
    ensures Clock.IsFormattable(p.timeMs) ==> Clock.ParseClock(text) == Some(Clock.EstClock(p.timeMs))
    ensures !Clock.IsFormattable(p.timeMs) ==> text == "NaN:aN:aN"
  {
    if Clock.IsFormattable(p.timeMs) then Clock.ParseFormatDate(p.timeMs); Clock.FormatDate(p.timeMs)
    else Clock.FormatDate(p.timeMs)
  }

  /** `millidegreeCelsiusToFahrenheit(data.series[1])` (src/App.js:130, 186): undefined times a number is
      NaN, so a missing reading stays missing. */
  function TemperaturePoint(p: HistoryPoint): (r: Option<real>)
    ensures r.Some? <==> |p.series| > 1
    ensures r.Some? ==> Conversion.FahrenheitToMillidegreeCelsius(r.value) == p.series[1]
  {
    match SeriesAt(p, 1)
    case None => None
    case Some(m) => Some(Conversion.MillidegreeCelsiusToFahrenheit(m))
  }

  /** `data.series[0]` (src/App.js:136, 227). */
  function HumidityPoint(p: HistoryPoint): (r: Option<real>)
    ensures r.Some? <==> |p.series| > 0
    ensures r.Some? ==> r.value == p.series[0]
  {
    SeriesAt(p, 0)
  }

  /** The x-axis labels: one formatted time per history point, in the order received. */
  function Labels(history: seq<HistoryPoint>): (labels: seq<string>)
    ensures |labels| == |history|
    ensures forall i :: 0 <= i < |history| ==> labels[i] == Clock.FormatDate(history[i].timeMs)
  {
    var labels := Map(Label, history);
    forall i | 0 <= i < |history| ensures labels[i] == Clock.FormatDate(history[i].timeMs) {
      MapAt(Label, history, i);
    }
    labels
  }

  /** The temperature series: each point's `series[1]` converted to Fahrenheit, index for index. */
  function TemperatureData(history: seq<HistoryPoint>): (data: seq<Option<real>>)
    ensures |data| == |history|
    ensures forall i :: 0 <= i < |history| ==>
      (data[i].Some? <==> |history[i].series| > 1) &&
      (data[i].Some? ==> data[i].value == Conversion.MillidegreeCelsiusToFahrenheit(history[i].series[1]))
  {
    var data := Map(TemperaturePoint, history);
    forall i | 0 <= i < |history|
      ensures (data[i].Some? <==> |history[i].series| > 1)
      ensures data[i].Some? ==> data[i].value == Conversion.MillidegreeCelsiusToFahrenheit(history[i].series[1])
    {
      MapAt(TemperaturePoint, history, i);
    }
    data
  }

  /** The humidity series: each point's `series[0]` copied unchanged, index for index. */
  function HumidityData(history: seq<HistoryPoint>): (data: seq<Option<real>>)
    ensures |data| == |history|
    ensures forall i :: 0 <= i < |history| ==>
      (data[i].Some? <==> |history[i].series| > 0) &&
      (data[i].Some? ==> data[i].value == history[i].series[0])
  {
    var data := Map(HumidityPoint, history);
    forall i | 0 <= i < |history|
      ensures (data[i].Some? <==> |history[i].series| > 0)
      ensures data[i].Some? ==> data[i].value == history[i].series[0]
    {
      MapAt(HumidityPoint, history, i);
    }
    data
  }

  /** The "Temperature and Humidity" chart (src/App.js:126-141). */
  function CombinedChart(history: seq<HistoryPoint>): (r: ChartData)
    ensures |r.labels| == |history| && Aligned(r) && |r.datasets| == 2
      && r.datasets[0].legend == "Temperature" && r.datasets[1].legend == "Humidity"
    ensures r.labels == Labels(history)
    ensures r.datasets[0].data == TemperatureData(history) && r.datasets[1].data == HumidityData(history)
  {
    ChartData(Labels(history), [Dataset("Temperature", TemperatureData(history)), Dataset("Humidity", HumidityData(history))])
  }

  /** The "Temperature" chart (src/App.js:182-191). */
  function TemperatureChart(history: seq<HistoryPoint>): (r: ChartData)
    ensures |r.labels| == |history| && Aligned(r) && |r.datasets| == 1
      && r.datasets[0].legend == "Temperature"
    ensures r.labels == Labels(history) && r.datasets[0].data == TemperatureData(history)
  {
    ChartData(Labels(history), [Dataset("Temperature", TemperatureData(history))])
  }

  /** The "Humidity" chart (src/App.js:222-232). */
  function HumidityChart(history: seq<HistoryPoint>): (r: ChartData)
    ensures |r.labels| == |history| && Aligned(r) && |r.datasets| == 1
      && r.datasets[0].legend == "Humidity"
    ensures r.labels == Labels(history) && r.datasets[0].data == HumidityData(history)
  {
    ChartData(Labels(history), [Dataset("Humidity", HumidityData(history))])
  }

  /** Every dataset has exactly one entry per label. */
  predicate Aligned(chart: ChartData) {
    forall d :: d in chart.datasets ==> |d.data| == |chart.labels|
  }

  /** The three charts share one label sequence, one point per history entry, each of their datasets lines
      up with it, and the same series appears identically wherever it is drawn. */
  lemma ChartsAgree(history: seq<HistoryPoint>)
    ensures CombinedChart(history).labels == TemperatureChart(history).labels == HumidityChart(history).labels
    ensures |CombinedChart(history).labels| == |history|
    ensures Aligned(CombinedChart(history)) && Aligned(TemperatureChart(history)) && Aligned(HumidityChart(history))
    ensures CombinedChart(history).datasets == TemperatureChart(history).datasets + HumidityChart(history).datasets
  {
  }

  /** No sorting and no filtering: the charts of two concatenated histories are the concatenations. */
  lemma {:induction false} ChartsFollowInputOrder(older: seq<HistoryPoint>, newer: seq<HistoryPoint>)
    ensures Labels(older + newer) == Labels(older) + Labels(newer)
    ensures TemperatureData(older + newer) == TemperatureData(older) + TemperatureData(newer)
    ensures HumidityData(older + newer) == HumidityData(older) + HumidityData(newer)
  {
    MapAppend(Label, older, newer);
    MapAppend(TemperaturePoint, older, newer);
    MapAppend(HumidityPoint, older, newer);
  }

  /** Two points out of chronological order keep their order on the axis: the later one stays first. */
  lemma LabelsKeepReceivedOrder()
    ensures Labels([HistoryPoint(8 * Clock.MS_PER_HOUR, []), HistoryPoint(0, [])]) == ["3:00:00", "19:00:00"]
  {
    Clock.FormatDateEightUtc();
    Clock.FormatDateEpoch();
  }

  /** A point whose series holds 50 % humidity and 23000 millidegrees Celsius charts as 50 and 73.4. */
  lemma ChartPointExample()
    ensures TemperatureData([HistoryPoint(0, [50.0, 23000.0])]) == [Some(73.4)]
    ensures HumidityData([HistoryPoint(0, [50.0, 23000.0])]) == [Some(50.0)]
  {
    Conversion.ConversionFixedPoints();
  }
}
