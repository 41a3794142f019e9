/**
 * `ree_procesar_datos`: turn the decoded upstream response into the three
 * parallel lists the charts and tables use (labels, prices in €/kWh, and
 * the raw points).
 */
module Processing {
  import opened Sequences
  import opened Labels

  /** One upstream point: its price in €/MWh and its timestamp. */
  datatype RawPoint = RawPoint(value: real, datetime: DateTime)

  datatype Attributes = Attributes(values: Option<seq<RawPoint>>)

  datatype IncludedItem = IncludedItem(attributes: Option<Attributes>)

  /**
   * What `json_decode($body, true)` hands back. Null stands for a failed
   * fetch, a body that is not JSON, or a literal `null`; Scalar for a JSON
   * number, string or boolean; Array for an object, with the `included`
   * member (None when absent or null) and the number of other members.
   */
  datatype Decoded =
    | Null
    | Scalar(truthy: bool)
    | Array(included: Option<seq<IncludedItem>>, otherKeys: nat)

  /** The processed series: three lists of equal length when well formed. */
  datatype Series = Series(labels: seq<string>, values: seq<real>, rawData: seq<RawPoint>)

  predicate WellFormed(s: Series)
  {
    |s.labels| == |s.values| == |s.rawData|
  }

  /**
   * What both price tables need of a series: parallel lists, and two
   * distinct prices, since the colour scale divides by their difference.
   */
  predicate Displayable(s: Series)
  {
    WellFormed(s) && |s.values| > 0 && Min(s.values) < Max(s.values)
  }

  /** PHP's `empty()` on the decoded response. */
  predicate IsEmpty(d: Decoded)
  {
    match d
    case Null => true
    case Scalar(truthy) => !truthy
    case Array(included, otherKeys) => included.None? && otherKeys == 0
  }

  /** `isset($json_data['included'][0]['attributes']['values'])`. */
  predicate HasValues(d: Decoded)
  {
    && d.Array?
    && d.included.Some?
    && |d.included.value| > 0
    && d.included.value[0].attributes.Some?
    && d.included.value[0].attributes.value.values.Some?
  }

  function ValuesOf(d: Decoded): seq<RawPoint>
    requires HasValues(d)
  {
    d.included.value[0].attributes.value.values.value
  }

  /** The upstream `time_trunc` parameter for a range kind. */
  function TimeTrunc(rango: string): (t: string)
    ensures t == "month" || t == "hour"
    ensures t == "month" <==> rango == "meses"
  {
    if rango == "meses" then "month" else "hour"
  }

  /** Conversion from €/MWh to €/kWh. */
  function ToKWh(value: real): real
  {
    value / 1000.0
  }

  /**
   * `response` is the fetch followed by `json_decode`, for the dates the
   * caller chose, as a function of the `time_trunc` it is asked for.
   * The result is None exactly when the response lacks the values path;
   * otherwise every upstream point, in order, gives one label, one price
   * and itself.
   */
  function Process(rango: string, response: string -> Decoded): (r: Option<Series>)
    ensures r.Some? <==> HasValues(response(TimeTrunc(rango)))
    ensures r.Some? ==>
      var points := ValuesOf(response(TimeTrunc(rango)));
      && WellFormed(r.value)
      && r.value.rawData == points
      && (forall i :: 0 <= i < |points| ==> r.value.values[i] * 1000.0 == points[i].value)
      && (forall i :: 0 <= i < |points| ==> r.value.labels[i] == PointLabel(points[i].datetime, rango))
  {
    var data := response(TimeTrunc(rango));
    if IsEmpty(data) || !HasValues(data) then None
    else
      var points := ValuesOf(data);
      var values := seq(|points|, i requires 0 <= i < |points| => ToKWh(points[i].value));
      var labels := seq(|points|, i requires 0 <= i < |points| => PointLabel(points[i].datetime, rango));
      Some(Series(labels, values, points))
  }

  /**
   * Within one processed series, two points share a label exactly when
   * their timestamps agree on the fields the range kind shows.
   */
  lemma {:induction false} SeriesLabelsMatchSlots(rango: string, response: string -> Decoded, i: nat, j: nat)
    requires Process(rango, response).Some?
    requires i < |Process(rango, response).value.labels| && j < |Process(rango, response).value.labels|
    ensures var s := Process(rango, response).value;
      s.labels[i] == s.labels[j] <==> SameSlot(s.rawData[i].datetime, s.rawData[j].datetime, rango)
  {
    var s := Process(rango, response).value;
    LabelIdentifiesSlot(s.rawData[i].datetime, s.rawData[j].datetime, rango);
  }

  /**
   * With the default range kind 'horas' every label is the zero-padded
   * hour of its point followed by 'h'.
   */
  lemma HourlySeriesLabels(response: string -> Decoded)
    ensures var d := Process("horas", response);
      d.Some? ==> forall i :: 0 <= i < |d.value.labels| ==>
        d.value.labels[i] == TwoDigits(d.value.rawData[i].datetime.hour) + "h"
  {
  }
}
