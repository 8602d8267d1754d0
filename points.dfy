/** The price points that the host records and the chart draws. */
module Points {
  import opened JsValues

  /** A `{time, price}` point as it travels between the host and the chart.
      `time` is None when the field is undefined or null; `price` is None when
      it is undefined, null or NaN. */
  datatype Point = Point(time: Option<string>, price: Option<real>)

  /** The time test shared by the host and the chart: a truthy value (present
      and not empty) that `new Date(time)` parses. Date parsing is the
      parameter `parses`. */
  predicate TimeValid(time: Option<string>, parses: string -> bool): (b: bool)
    ensures b ==> time.Some? && parses(time.value)
    ensures time == None || time == Some("") ==> !b
  {
    time.Some? && time.value != "" && parses(time.value)
  }

  /** A point whose time is valid and whose price is neither null nor NaN. */
  predicate ValidPoint(p: Point, parses: string -> bool): (b: bool)
    ensures b ==> p.time.Some? && parses(p.time.value) && p.price.Some?
    ensures p.time == None || p.time == Some("") || p.price.None? ==> !b
  {
    TimeValid(p.time, parses) && p.price.Some?
  }

  /** Every point of a series is valid. */
  predicate AllValid(s: seq<Point>, parses: string -> bool)
  {
    forall i :: 0 <= i < |s| ==> ValidPoint(s[i], parses)
  }

  /** A series by symbol; an absent symbol reads as the empty series (`prev[s] || []`). */
  function SeriesOf(data: map<string, seq<Point>>, symbol: string): (r: seq<Point>)
    ensures symbol in data ==> r == data[symbol]
    ensures symbol !in data ==> r == []
  {
    if symbol in data then data[symbol] else []
  }
}
