/** The browser's sensor charts: each sensor document's readings become a
    chart's labels and data, and the newest value is written, with its unit,
    into the page's real-time readout. */
module Charts {
  import opened Text
  import opened Numbers
  import opened Json

  const HumidityUnit := " %"
  const TemperatureUnit := " \U{B0}C"

  /** The time axis: one label per reading, in reading order. Building a Date
      from the timestamp is left to the browser, so a label is the timestamp
      text it is built from. */
  function Timestamps(rs: seq<Reading>): (labels: seq<string>)
    ensures |labels| == |rs|
    ensures forall i :: 0 <= i < |rs| ==> labels[i] == rs[i].timestamp
  {
    if rs == [] then [] else [rs[0].timestamp] + Timestamps(rs[1..])
  }

  /** The data series: the value of each reading, in reading order. */
  function Values(rs: seq<Reading>): (data: seq<Decimal>)
    ensures |data| == |rs|
    ensures forall i :: 0 <= i < |rs| ==> data[i] == rs[i].value
  {
    if rs == [] then [] else [rs[0].value] + Values(rs[1..])
  }

  /** JavaScript's text for a number: the digits of its normal form. */
  function NumberText(d: Decimal): string
  {
    JsNumberText(Normalize(d.mantissa, d.scale))
  }

  /** `${data[data.length - 1]}` followed by the unit; reading past the end of
      an empty array gives undefined. */
  function Readout(data: seq<Decimal>, unit: string): string
  {
    (if data == [] then "undefined" else NumberText(data[|data| - 1])) + unit
  }

  /** What a chart shows and what the two readouts say. */
  datatype View = View(labels: seq<string>, data: seq<Decimal>, realHumid: string, realTemp: string)

  /** updateRealTimeValues: the readout of the document's own sensor. */
  function UpdateReadouts(v: View, fbDoc: string, data: seq<Decimal>): View
  {
    var h := if fbDoc == "humidity" then v.(realHumid := Readout(data, HumidityUnit)) else v;
    if fbDoc == "temperature" then h.(realTemp := Readout(data, TemperatureUnit)) else h
  }

  /** The snapshot callback of getSensorData for document `fbDoc`. */
  function SnapshotStep(v: View, fbDoc: string, doc: Option<SensorDoc>): View
  {
    match doc
    case None => v
    case Some(d) =>
      var readings := if d.readings.None? then [] else d.readings.value;
      var data := Values(readings);
      UpdateReadouts(v.(labels := Timestamps(readings), data := data), fbDoc, data)
  }

  /** A chart's labels and its first dataset. */
  class Chart {
    var labels: seq<string>
    var data: seq<Decimal>

    constructor ()
      ensures labels == [] && data == []
    {
      labels, data := [], [];
    }
  }

  /** The two real-time readouts of the page. */
  class Readouts {
    var realHumid: string
    var realTemp: string

    constructor (realHumid: string, realTemp: string)
      ensures this.realHumid == realHumid && this.realTemp == realTemp
    {
      this.realHumid, this.realTemp := realHumid, realTemp;
    }

    method UpdateRealTimeValues(data: seq<Decimal>, fbDoc: string)
      modifies this
      ensures var v := UpdateReadouts(View([], [], old(realHumid), old(realTemp)), fbDoc, data);
              realHumid == v.realHumid && realTemp == v.realTemp
    {
      if fbDoc == "humidity" {
        realHumid := Readout(data, HumidityUnit);
      }
      if fbDoc == "temperature" {
        realTemp := Readout(data, TemperatureUnit);
      }
    }
  }

  /** The snapshot callback getSensorData installs for `chart`. */
  method OnSensorSnapshot(fbDoc: string, chart: Chart, page: Readouts, doc: Option<SensorDoc>)
    modifies chart, page
    ensures View(chart.labels, chart.data, page.realHumid, page.realTemp)
            == SnapshotStep(View(old(chart.labels), old(chart.data), old(page.realHumid), old(page.realTemp)), fbDoc, doc)
  {
    if doc.Some? {
      var readings := if doc.value.readings.Some? then doc.value.readings.value else [];
      var timestamps := Timestamps(readings);
      var data := Values(readings);
      chart.labels := timestamps;
      chart.data := data;
      page.UpdateRealTimeValues(data, fbDoc);
    }
  }

  // ---------------------------------------------------------------------
  // Properties
  // ---------------------------------------------------------------------

  /** For an existing document the two series run parallel to its readings
      (empty without a `readings` field), and whatever the chart showed
      before is gone. */
  lemma SeriesReplaced(v: View, w: View, fbDoc: string, d: SensorDoc)
    ensures var r := SnapshotStep(v, fbDoc, Some(d));
            var rs := if d.readings.None? then [] else d.readings.value;
            && |r.labels| == |r.data| == |rs|
            && (forall i :: 0 <= i < |rs| ==> r.labels[i] == rs[i].timestamp && r.data[i] == rs[i].value)
            && r.labels == SnapshotStep(w, fbDoc, Some(d)).labels
            && r.data == SnapshotStep(w, fbDoc, Some(d)).data
  {
  }

  /** The readout of the document's sensor shows its newest value and unit;
      any other document id updates no readout. */
  lemma ReadoutOfSensor(v: View, fbDoc: string, d: SensorDoc)
    ensures var r := SnapshotStep(v, fbDoc, Some(d));
            var rs := if d.readings.None? then [] else d.readings.value;
            var text := if rs == [] then "undefined" else NumberText(rs[|rs| - 1].value);
            && (fbDoc == "humidity" ==> r.realHumid == text + HumidityUnit && r.realTemp == v.realTemp)
            && (fbDoc == "temperature" ==> r.realTemp == text + TemperatureUnit && r.realHumid == v.realHumid)
            && (fbDoc !in {"humidity", "temperature"} ==> r.realHumid == v.realHumid && r.realTemp == v.realTemp)
  {
    var rs := if d.readings.None? then [] else d.readings.value;
    var data := Values(rs);
    assert SnapshotStep(v, fbDoc, Some(d)) == UpdateReadouts(v.(labels := Timestamps(rs), data := data), fbDoc, data);
    if rs != [] {
      assert data[|data| - 1] == rs[|rs| - 1].value;
    }
  }

  /** A missing document leaves series and readouts alone. */
  lemma AbsentDocument(v: View, fbDoc: string)
    ensures SnapshotStep(v, fbDoc, None) == v
  {
  }
}
