/**
 * `generar_tabla_comparativa`: the day's dearest, current and cheapest
 * price, the hour label of the first dearest and first cheapest hour, and
 * the colour of each.
 */
module Comparison {
  import opened Sequences
  import opened Labels
  import opened Processing
  import opened Palette
  import opened PriceTable

  datatype Summary = Summary(
    maxPrice: real, currentPrice: real, minPrice: real,
    maxHour: nat, minHour: nat, currentHour: Hour,
    maxTime: string, minTime: string,
    maxColor: string, currentColor: string, minColor: string)

  /**
   * The hour of the day in UTC+1, read off the UTC clock hour `utcHour`
   * (the clock itself is a parameter): the index of the current price.
   */
  function CurrentIndex(utcHour: Hour): Hour
  {
    (utcHour + 1) % 24
  }

  /**
   * The comparison summary of the processed series `data` when the UTC
   * clock shows hour `utcHour`, or None where the source prints its
   * load-error message. The source has no fallback for a series too short
   * to hold the current hour, nor for a flat series.
   */
  function Compare(data: Option<Series>, utcHour: Hour): (r: Option<Summary>)
    requires data.Some? ==> Displayable(data.value) && CurrentIndex(utcHour) < |data.value.values|
    ensures r.Some? <==> data.Some?
    ensures r.Some? ==>
      var c, prices := r.value, data.value.values;
      && c.maxPrice in prices && c.minPrice in prices
      && (forall i :: 0 <= i < |prices| ==> c.minPrice <= prices[i] <= c.maxPrice)
    ensures r.Some? ==>
      var c, s := r.value, data.value;
      && c.maxHour < |s.values| && s.values[c.maxHour] == c.maxPrice
      && (forall j :: 0 <= j < c.maxHour ==> s.values[j] < c.maxPrice)
      && c.maxTime == s.labels[c.maxHour]
    ensures r.Some? ==>
      var c, s := r.value, data.value;
      && c.minHour < |s.values| && s.values[c.minHour] == c.minPrice
      && (forall j :: 0 <= j < c.minHour ==> s.values[j] > c.minPrice)
      && c.minTime == s.labels[c.minHour]
    ensures r.Some? ==>
      var c := r.value;
      c.currentHour == (utcHour + 1) % 24 && c.currentPrice == data.value.values[c.currentHour]
  {
    if data.None? then None
    else
      var s := data.value;
      var prices := s.values;
      var maxPrice, minPrice := Max(prices), Min(prices);
      var currentHour := CurrentIndex(utcHour);
      var currentPrice := prices[currentHour];
      assert maxPrice in prices && minPrice in prices;
      var maxHour, minHour := FirstIndex(prices, maxPrice).value, FirstIndex(prices, minPrice).value;
      Some(Summary(
        maxPrice, currentPrice, minPrice,
        maxHour, minHour, currentHour,
        s.labels[maxHour], s.labels[minHour],
        Colors[ColorIndex(maxPrice, minPrice, maxPrice)],
        Colors[ColorIndex(currentPrice, minPrice, maxPrice)],
        Colors[ColorIndex(minPrice, minPrice, maxPrice)]))
  }

  /**
   * The dearest price is drawn in the last colour of the scale, the
   * cheapest in the first, and the current price in the colour the styled
   * table gives the cell of that hour.
   */
  lemma SummaryColors(data: Series, utcHour: Hour)
    requires Displayable(data) && CurrentIndex(utcHour) < |data.values|
    ensures var c := Compare(Some(data), utcHour).value;
      && c.minPrice <= c.currentPrice <= c.maxPrice && c.minPrice < c.maxPrice
      && c.maxColor == Colors[|Colors| - 1] && c.minColor == Colors[0]
      && c.currentColor == CellColor(data, data.values[CurrentIndex(utcHour)])
  {
    var c := Compare(Some(data), utcHour).value;
    assert c.currentPrice == data.values[CurrentIndex(utcHour)];
    ColorIndexEnds(c.minPrice, c.maxPrice);
  }

  /** A PHP array key: a string of canonical decimal digits is stored as an integer key. */
  datatype Key = IntKey(n: int) | StringKey(s: string)

  /**
   * PHP's cast of a string array key: digits without a leading zero ("0"
   * itself included) become an integer key, anything else stays a string.
   * Signed keys do not arise here and are not modelled.
   */
  function ArrayKey(s: string): Key
  {
    if |s| > 0 && AllDigits(s) && (s[0] != '0' || |s| == 1) then IntKey(DecimalValue(s)) else StringKey(s)
  }

  /** `$prices[$key]` on a PHP list: the entry under an integer key in range, null otherwise. */
  function Lookup(prices: seq<real>, k: Key): Option<real>
  {
    match k
    case IntKey(n) => if 0 <= n < |prices| then Some(prices[n]) else None
    case StringKey(_) => None
  }

  /**
   * A two-digit rendering of an hour or day is cast to an integer key
   * exactly from 10 on, and then to the number it spells.
   */
  lemma TwoDigitKeyIsIntFromTen(n: nat)
    requires n < 100
    ensures ArrayKey(TwoDigits(n)).IntKey? <==> 10 <= n
    ensures ArrayKey(TwoDigits(n)).IntKey? ==> ArrayKey(TwoDigits(n)).n == n
  {
  }

  /** `$prices[$current_hour]` as written: the key is the two-digit string `format('H')` returns. */
  function CurrentPriceAsWritten(prices: seq<real>, utcHour: Hour): Option<real>
  {
    Lookup(prices, ArrayKey(TwoDigits(CurrentIndex(utcHour))))
  }

  /**
   * As written, the current price is found only from 10:00 on: for the
   * hours 00 to 09 the key keeps its leading zero, stays a string, and
   * misses the list however long it is.
   */
  lemma {:induction false} CurrentPriceAsWrittenFindsLateHoursOnly(prices: seq<real>, utcHour: Hour)
    ensures CurrentPriceAsWritten(prices, utcHour) ==
      if 10 <= CurrentIndex(utcHour) < |prices| then Some(prices[CurrentIndex(utcHour)]) else None
  {
    TwoDigitKeyIsIntFromTen(CurrentIndex(utcHour));
  }

  /** At 07:xx UTC a full day of 24 prices has a price for hour 08, yet the lookup yields null. */
  lemma AsWrittenMissesEightOClock(prices: seq<real>)
    requires |prices| == 24
    ensures CurrentIndex(7) < |prices| && CurrentPriceAsWritten(prices, 7).None?
  {
    CurrentPriceAsWrittenFindsLateHoursOnly(prices, 7);
  }

  /**
   * Both tables process the series with the default range kind 'horas',
   * so the hours the comparison reports are labelled with the zero-padded
   * hour of their timestamp followed by 'h'.
   */
  lemma HourlySummaryLabels(response: string -> Decoded, utcHour: Hour)
    requires var d := Process("horas", response);
      d.Some? ==> Displayable(d.value) && CurrentIndex(utcHour) < |d.value.values|
    ensures var d := Process("horas", response);
      var r := Compare(d, utcHour);
      r.Some? ==>
        && r.value.maxTime == TwoDigits(d.value.rawData[r.value.maxHour].datetime.hour) + "h"
        && r.value.minTime == TwoDigits(d.value.rawData[r.value.minHour].datetime.hour) + "h"
  {
  }
}
