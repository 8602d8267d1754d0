/** The chart's data handling (src/components/StockChart.jsx): the merge of
    incoming series into the chart's own copy without repeating a time, and
    the filter that drops points that cannot be drawn. */
module Chart {
  import opened JsValues
  import opened Points

  /** Some point of `s` has time `t` (`existing.some(e => e.time === t)`). */
  predicate HasTime(s: seq<Point>, t: Option<string>): (b: bool)
    ensures b <==> exists p :: p in s && p.time == t
  {
    exists i :: 0 <= i < |s| && s[i].time == t
  }

  /** The incoming points whose time does not occur in `existing`, in incoming
      order; incoming points are not compared with each other. */
  function Fresh(incoming: seq<Point>, existing: seq<Point>): (r: seq<Point>)
    ensures |r| <= |incoming|
    ensures forall i :: 0 <= i < |r| ==> !HasTime(existing, r[i].time)
  {
    if incoming == [] then []
    else (if HasTime(existing, incoming[0].time) then [] else [incoming[0]]) + Fresh(incoming[1..], existing)
  }

  /** One stock's merge: the existing series followed by the fresh incoming points. */
  function MergeSeries(existing: seq<Point>, incoming: seq<Point>): (r: seq<Point>)
    ensures |existing| <= |r| <= |existing| + |incoming|
    ensures r[..|existing|] == existing
  {
    existing + Fresh(incoming, existing)
  }

  /** A point is kept exactly when it is an incoming point whose time is new. */
  lemma {:induction false} FreshMembership(incoming: seq<Point>, existing: seq<Point>, p: Point)
    ensures p in Fresh(incoming, existing) <==> p in incoming && !HasTime(existing, p.time)
  {
    if incoming != [] {
      FreshMembership(incoming[1..], existing, p);
      assert incoming == [incoming[0]] + incoming[1..];
    }
  }

  /** The filter works point by point and keeps incoming order: fresh points
      of a concatenation are the fresh points of each part, in turn. */
  lemma {:induction false} FreshConcat(a: seq<Point>, b: seq<Point>, existing: seq<Point>)
    ensures Fresh(a + b, existing) == Fresh(a, existing) + Fresh(b, existing)
  {
    if a == [] {
      assert a + b == b;
    } else {
      assert (a + b)[1..] == a[1..] + b;
      FreshConcat(a[1..], b, existing);
    }
  }

  /** One incoming point is appended exactly when its time is new. */
  lemma FreshSingle(p: Point, existing: seq<Point>)
    ensures Fresh([p], existing) == if HasTime(existing, p.time) then [] else [p]
  {
  }

  /** Two incoming points with the same new time are both appended: the batch
      is checked only against the existing series. */
  lemma BatchDuplicatesKept(p: Point, existing: seq<Point>)
    requires !HasTime(existing, p.time)
    ensures Fresh([p, p], existing) == [p, p]
    ensures MergeSeries(existing, [p, p]) == existing + [p, p]
  {
    FreshConcat([p], [p], existing);
    assert [p] + [p] == [p, p];
  }

  /** Nothing is fresh when every incoming time already occurs. */
  lemma {:induction false} FreshOfPresent(incoming: seq<Point>, existing: seq<Point>)
    requires forall i :: 0 <= i < |incoming| ==> HasTime(existing, incoming[i].time)
    ensures Fresh(incoming, existing) == []
  {
    if incoming != [] {
      FreshOfPresent(incoming[1..], existing);
    }
  }

  /** After a merge every incoming time occurs in the merged series. */
  lemma MergeCoversIncoming(existing: seq<Point>, incoming: seq<Point>)
    ensures forall i :: 0 <= i < |incoming| ==> HasTime(MergeSeries(existing, incoming), incoming[i].time)
  {
    var merged := MergeSeries(existing, incoming);
    forall i | 0 <= i < |incoming|
      ensures HasTime(merged, incoming[i].time)
    {
      var p := incoming[i];
      if HasTime(existing, p.time) {
        var j :| 0 <= j < |existing| && existing[j].time == p.time;
        assert merged[j] == existing[j];
      } else {
        FreshMembership(incoming, existing, p);
        var added := Fresh(incoming, existing);
        var k :| 0 <= k < |added| && added[k] == p;
        assert merged[|existing| + k] == p;
      }
    }
  }

  /** Merging the same series twice is merging it once. */
  lemma MergeSeriesIdempotent(existing: seq<Point>, incoming: seq<Point>)
    ensures MergeSeries(MergeSeries(existing, incoming), incoming) == MergeSeries(existing, incoming)
  {
    var merged := MergeSeries(existing, incoming);
    MergeCoversIncoming(existing, incoming);
    FreshOfPresent(incoming, merged);
    assert merged + [] == merged;
  }

  /** The whole merge: every stock of the incoming data gets its merged
      series, every other stock keeps its series. */
  function MergedChart(prev: map<string, seq<Point>>, data: map<string, seq<Point>>): (r: map<string, seq<Point>>)
    ensures r.Keys == prev.Keys + data.Keys
  {
    map k | k in prev.Keys + data.Keys ::
      if k in data then MergeSeries(SeriesOf(prev, k), data[k]) else prev[k]
  }

  /** Per stock: the previous series is a prefix of the merged one, the
      appended points are the fresh incoming ones, and a stock without
      incoming data is untouched. */
  lemma MergedChartPerStock(prev: map<string, seq<Point>>, data: map<string, seq<Point>>, k: string)
    ensures k in data ==> MergedChart(prev, data)[k] == SeriesOf(prev, k) + Fresh(data[k], SeriesOf(prev, k))
    ensures k in data ==> SeriesOf(prev, k) <= MergedChart(prev, data)[k]
    ensures k !in data && k in prev ==> MergedChart(prev, data)[k] == prev[k]
    ensures k !in data && k !in prev ==> k !in MergedChart(prev, data)
  {
  }

  /** Merging the same data a second time changes nothing. */
  lemma MergedChartIdempotent(prev: map<string, seq<Point>>, data: map<string, seq<Point>>)
    ensures MergedChart(MergedChart(prev, data), data) == MergedChart(prev, data)
  {
    var once := MergedChart(prev, data);
    var twice := MergedChart(once, data);
    forall k | k in twice.Keys
      ensures twice[k] == once[k]
    {
      if k in data {
        MergeSeriesIdempotent(SeriesOf(prev, k), data[k]);
      }
    }
  }

  /** The chart data once the stocks in `done` have been merged. */
  ghost function PartialMerge(prev: map<string, seq<Point>>, data: map<string, seq<Point>>,
                              done: set<string>): map<string, seq<Point>>
    requires done <= data.Keys
  {
    map k | k in prev.Keys + done :: if k in done then MergeSeries(SeriesOf(prev, k), data[k]) else prev[k]
  }

  /** Merging one more stock, reading its series from the partly merged data. */
  lemma PartialMergeStep(prev: map<string, seq<Point>>, data: map<string, seq<Point>>,
                         done: set<string>, stock: string)
    requires done <= data.Keys && stock in data && stock !in done
    ensures var part := PartialMerge(prev, data, done);
      part[stock := MergeSeries(SeriesOf(part, stock), data[stock])] == PartialMerge(prev, data, done + {stock})
  {
  }

  /** The state update of the first effect: copy the previous chart data,
      then for each incoming stock read its series from the copy and write
      back the merged series. */
  method MergeChartData(prev: map<string, seq<Point>>, data: map<string, seq<Point>>)
    returns (next: map<string, seq<Point>>)
    ensures next == MergedChart(prev, data)
  {
    next := prev;
    var pending := data.Keys;
    assert next == PartialMerge(prev, data, {});
    while pending != {}
      invariant pending <= data.Keys
      invariant next == PartialMerge(prev, data, data.Keys - pending)
      decreases pending
    {
      var stock :| stock in pending;
      PartialMergeStep(prev, data, data.Keys - pending, stock);
      var existing := SeriesOf(next, stock);
      next := next[stock := MergeSeries(existing, data[stock])];
      assert data.Keys - pending + {stock} == data.Keys - (pending - {stock});
      pending := pending - {stock};
    }
    assert data.Keys - pending == data.Keys;
  }

  // ---------------------------------------------------------------------------
  // validData

  /** The points that can be drawn, in order. */
  function ValidData(s: seq<Point>, parses: string -> bool): (r: seq<Point>)
    ensures |r| <= |s|
    ensures AllValid(r, parses)
  {
    if s == [] then []
    else (if ValidPoint(s[0], parses) then [s[0]] else []) + ValidData(s[1..], parses)
  }

  /** A point is drawn exactly when it is in the data and valid. */
  lemma {:induction false} ValidDataMembership(s: seq<Point>, parses: string -> bool, p: Point)
    ensures p in ValidData(s, parses) <==> p in s && ValidPoint(p, parses)
  {
    if s != [] {
      ValidDataMembership(s[1..], parses, p);
      assert s == [s[0]] + s[1..];
    }
  }

  /** The filter keeps order: it distributes over concatenation. */
  lemma {:induction false} ValidDataConcat(a: seq<Point>, b: seq<Point>, parses: string -> bool)
    ensures ValidData(a + b, parses) == ValidData(a, parses) + ValidData(b, parses)
  {
    if a == [] {
      assert a + b == b;
    } else {
      assert (a + b)[1..] == a[1..] + b;
      ValidDataConcat(a[1..], b, parses);
    }
  }

  /** Data whose every point is valid is drawn in full. */
  lemma {:induction false} ValidDataOfValid(s: seq<Point>, parses: string -> bool)
    requires AllValid(s, parses)
    ensures ValidData(s, parses) == s
  {
    if s != [] {
      ValidDataOfValid(s[1..], parses);
      assert s == [s[0]] + s[1..];
    }
  }
}
