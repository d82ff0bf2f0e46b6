/**
 * The forecast chart: up to three `{year, price}` series are put on one
 * x-axis. The axis labels are the distinct years of all series, sorted by
 * JavaScript's default (code-unit) string order; each series is projected
 * onto the labels as price-or-null; only non-empty series become datasets.
 */
module ForecastChart {
  import opened Wrappers
  import opened Js

  /** One `{year, price}` point. Every producer of points writes the year as a string. */
  datatype Point = Point(year: string, price: Value)

  /** A series prop: `None` is an absent (undefined or null) array. */
  type Series = Option<seq<Point>>

  /** One entry of `data.datasets`; colours and line styles are left out. */
  datatype Dataset = Dataset(legend: string, data: seq<Value>)

  /** What the component renders. */
  datatype Chart = NoForecastData | Line(labels: seq<string>, datasets: seq<Dataset>)

  // ---------------------------------------------------------------------------
  // Default sort order: code-unit comparison

  /** `a < b` as JavaScript compares two strings. */
  predicate LexLess(a: string, b: string)
    decreases |a|
  {
    if |a| == 0 then |b| > 0
    else if |b| == 0 then false
    else if a[0] != b[0] then a[0] < b[0]
    else LexLess(a[1..], b[1..])
  }

  lemma {:induction false} LexIrreflexive(a: string)
    ensures !LexLess(a, a)
    decreases |a|
  {
    if |a| > 0 {
      LexIrreflexive(a[1..]);
    }
  }

  lemma {:induction false} LexTotal(a: string, b: string)
    ensures a == b || LexLess(a, b) || LexLess(b, a)
    decreases |a|
  {
    if |a| > 0 && |b| > 0 && a[0] == b[0] {
      LexTotal(a[1..], b[1..]);
      if a[1..] == b[1..] {
        assert a == [a[0]] + a[1..] && b == [b[0]] + b[1..];
      }
    }
  }

  lemma {:induction false} LexAsymmetric(a: string, b: string)
    ensures LexLess(a, b) ==> !LexLess(b, a)
    decreases |a|
  {
    if |a| > 0 && |b| > 0 && a[0] == b[0] {
      LexAsymmetric(a[1..], b[1..]);
    }
  }

  lemma {:induction false} LexTransitive(a: string, b: string, c: string)
    ensures LexLess(a, b) && LexLess(b, c) ==> LexLess(a, c)
    decreases |a|
  {
    if |a| > 0 && |b| > 0 && |c| > 0 && a[0] == b[0] && b[0] == c[0] {
      LexTransitive(a[1..], b[1..], c[1..]);
    }
  }

  predicate StrictlySorted(xs: seq<string>) {
    forall i, j :: 0 <= i < j < |xs| ==> LexLess(xs[i], xs[j])
  }

  predicate Distinct(xs: seq<string>) {
    forall i, j :: 0 <= i < j < |xs| ==> xs[i] != xs[j]
  }

  lemma StrictlySortedIsDistinct(xs: seq<string>)
    requires StrictlySorted(xs)
    ensures Distinct(xs)
  {
    forall i, j | 0 <= i < j < |xs|
      ensures xs[i] != xs[j]
    {
      LexIrreflexive(xs[i]);
    }
  }

  /** Places `x` into a strictly sorted list that does not hold it. */
  function Insert(x: string, xs: seq<string>): (r: seq<string>)
    requires StrictlySorted(xs) && x !in xs
    ensures StrictlySorted(r)
    ensures multiset(r) == multiset(xs) + multiset{x}
    ensures forall y :: y in r <==> y in xs || y == x
  {
    if xs == [] then [x]
    else
      LexTotal(x, xs[0]);
      if LexLess(x, xs[0]) then
        forall j | 0 <= j < |xs|
          ensures LexLess(x, xs[j])
        {
          LexTransitive(x, xs[0], xs[j]);
        }
        [x] + xs
      else
        var rest := Insert(x, xs[1..]);
        assert xs == [xs[0]] + xs[1..];
        assert forall y :: y in rest ==> LexLess(xs[0], y);
        [xs[0]] + rest
  }

  /** `Array.from(set).sort()` for the distinct members of a set. */
  function SortDistinct(xs: seq<string>): (r: seq<string>)
    requires Distinct(xs)
    ensures StrictlySorted(r)
    ensures multiset(r) == multiset(xs)
    ensures forall y :: y in r <==> y in xs
  {
    if xs == [] then []
    else
      var init := xs[..|xs| - 1];
      var sorted := SortDistinct(init);
      assert xs == init + [xs[|xs| - 1]];
      Insert(xs[|xs| - 1], sorted)
  }

  // ---------------------------------------------------------------------------
  // Labels

  /** The years of a series, or none for an absent one. */
  function YearsOf(s: Series): (ys: seq<string>)
    ensures s.None? ==> ys == []
    ensures s.Some? ==> |ys| == |s.value| && forall i :: 0 <= i < |ys| ==> ys[i] == s.value[i].year
  {
    match s
    case None => []
    case Some(points) => seq(|points|, i requires 0 <= i < |points| => points[i].year)
  }

  /** `new Set(xs)` read back in insertion order: first occurrences only. */
  function Dedup(xs: seq<string>): (r: seq<string>)
    ensures Distinct(r)
    ensures forall y :: y in r <==> y in xs
  {
    if xs == [] then []
    else
      var d := Dedup(xs[..|xs| - 1]);
      assert xs == xs[..|xs| - 1] + [xs[|xs| - 1]];
      if xs[|xs| - 1] in d then d else d + [xs[|xs| - 1]]
  }

  /** A year occurring in one of the three series. */
  predicate HasYear(forecast: Series, future: Series, predict: Series, y: string) {
    y in YearsOf(forecast) || y in YearsOf(future) || y in YearsOf(predict)
  }

  /** `allYears`: the distinct years of all three series, sorted. */
  function Labels(forecast: Series, future: Series, predict: Series): (r: seq<string>)
    ensures StrictlySorted(r) && Distinct(r)
    ensures forall y :: y in r <==> HasYear(forecast, future, predict, y)
  {
    var r := SortDistinct(Dedup(YearsOf(forecast) + YearsOf(future) + YearsOf(predict)));
    StrictlySortedIsDistinct(r);
    r
  }

  /** Two label lists that are strictly sorted and hold the same years are the same list. */
  lemma {:induction false} SortedLabelsUnique(a: seq<string>, b: seq<string>)
    requires StrictlySorted(a) && StrictlySorted(b)
    requires forall y :: y in a <==> y in b
    ensures a == b
  {
    assert a != [] ==> a[0] in b;
    assert b != [] ==> b[0] in a;
    if a != [] && b != [] {
      LexAsymmetric(a[0], b[0]);
      LexIrreflexive(a[0]);
      LexIrreflexive(b[0]);
      assert a[0] == b[0];
      forall y
        ensures y in a[1..] <==> y in b[1..]
      {
        assert a == [a[0]] + a[1..] && b == [b[0]] + b[1..];
        if y in a[1..] {
          var i :| 1 <= i < |a| && a[i] == y;
          assert LexLess(a[0], a[i]);
          LexIrreflexive(y);
          assert y in a && y != b[0];
        }
        if y in b[1..] {
          var i :| 1 <= i < |b| && b[i] == y;
          assert LexLess(b[0], b[i]);
          LexIrreflexive(y);
          assert y in b && y != a[0];
        }
      }
      SortedLabelsUnique(a[1..], b[1..]);
      assert a == [a[0]] + a[1..] && b == [b[0]] + b[1..];
    }
  }

  /** The labels are the one strictly sorted list of the years that occur in
      the series: any such list is `allYears`. */
  lemma LabelsCharacterised(forecast: Series, future: Series, predict: Series, ls: seq<string>)
    requires StrictlySorted(ls)
    requires forall y :: y in ls <==> HasYear(forecast, future, predict, y)
    ensures ls == Labels(forecast, future, predict)
  {
    SortedLabelsUnique(ls, Labels(forecast, future, predict));
  }

  // ---------------------------------------------------------------------------
  // Alignment

  /** `Object.fromEntries(arr.map(f => [f.year, f.price]))` */
  function FromEntries(points: seq<Point>): JsObject {
    if points == [] then Empty
    else
      var last := points[|points| - 1];
      Set(FromEntries(points[..|points| - 1]), last.year, last.price)
  }

  /** A year no point carries is missing from the dictionary. */
  lemma {:induction false} FromEntriesMissing(points: seq<Point>, y: string)
    requires forall j :: 0 <= j < |points| ==> points[j].year != y
    ensures Get(FromEntries(points), y) == Undefined
  {
    if points != [] {
      var init := points[..|points| - 1];
      var last := points[|points| - 1];
      FromEntriesMissing(init, y);
      LookupPut(FromEntries(init).entries, last.year, last.price, y);
    }
  }

  /** The dictionary holds the price of the last point with a given year. */
  lemma {:induction false} FromEntriesLastWins(points: seq<Point>, y: string, j: int)
    requires 0 <= j < |points| && points[j].year == y
    requires forall k :: j < k < |points| ==> points[k].year != y
    ensures Get(FromEntries(points), y) == points[j].price
  {
    var init := points[..|points| - 1];
    var last := points[|points| - 1];
    if j < |points| - 1 {
      FromEntriesLastWins(init, y, j);
    }
    LookupPut(FromEntries(init).entries, last.year, last.price, y);
  }

  /** `dict[y] !== undefined ? dict[y] : null` */
  function Cell(dict: JsObject, y: string): Value {
    var v := Get(dict, y);
    if v != Undefined then v else Null
  }

  /** `alignData(arr)`: one cell per label. */
  function Align(labels: seq<string>, s: Series): (r: seq<Value>)
    ensures |r| == |labels|
    ensures s.None? ==> forall i :: 0 <= i < |r| ==> r[i] == Null
  {
    match s
    case None => seq(|labels|, _ => Null)
    case Some(points) =>
      var dict := FromEntries(points);
      seq(|labels|, i requires 0 <= i < |labels| => Cell(dict, labels[i]))
  }

  /** A label no point of the series carries aligns to null, never to 0. */
  lemma AlignCellMissing(labels: seq<string>, points: seq<Point>, i: int)
    requires 0 <= i < |labels|
    requires forall j :: 0 <= j < |points| ==> points[j].year != labels[i]
    ensures Align(labels, Some(points))[i] == Null
  {
    FromEntriesMissing(points, labels[i]);
  }

  /** A label takes the price of the last point with that year (null when
      that price is undefined). */
  lemma AlignCellLastWins(labels: seq<string>, points: seq<Point>, i: int, j: int)
    requires 0 <= i < |labels| && 0 <= j < |points| && points[j].year == labels[i]
    requires forall k :: j < k < |points| ==> points[k].year != labels[i]
    ensures Align(labels, Some(points))[i] == if points[j].price == Undefined then Null else points[j].price
  {
    FromEntriesLastWins(points, labels[i], j);
  }

  /** Every non-null cell is the price of some point of the series with the
      label's year: alignment never invents a value. */
  lemma AlignInventsNothing(labels: seq<string>, points: seq<Point>, i: int)
    requires 0 <= i < |labels|
    ensures var r := Align(labels, Some(points));
      r[i] == Null || exists j :: 0 <= j < |points| && points[j].year == labels[i] && points[j].price == r[i]
  {
    var y := labels[i];
    if exists j :: 0 <= j < |points| && points[j].year == y {
      var j := LastIndexOf(points, y);
      FromEntriesLastWins(points, y, j);
    } else {
      FromEntriesMissing(points, y);
    }
  }

  /** The last position holding year `y`. */
  function LastIndexOf(points: seq<Point>, y: string): (j: int)
    requires exists j :: 0 <= j < |points| && points[j].year == y
    ensures 0 <= j < |points| && points[j].year == y
    ensures forall k :: j < k < |points| ==> points[k].year != y
  {
    if points[|points| - 1].year == y then |points| - 1
    else LastIndexOf(points[..|points| - 1], y)
  }

  // ---------------------------------------------------------------------------
  // The component

  /** `arr && arr.length > 0` */
  predicate NonEmpty(s: Series) { s.Some? && |s.value| > 0 }

  /** The dataset for one series, or nothing when the series is absent or empty. */
  function DatasetFor(legend: string, labels: seq<string>, s: Series): (r: seq<Dataset>)
    ensures |r| == if NonEmpty(s) then 1 else 0
    ensures NonEmpty(s) ==> r[0].legend == legend && |r[0].data| == |labels|
  {
    if NonEmpty(s) then [Dataset(legend, Align(labels, s))] else []
  }

  /** `ForecastChart({ forecast, futureForecast, predictForecast })` */
  function Render(forecast: Series, future: Series, predict: Series): (r: Chart)
    ensures r.NoForecastData? <==> !NonEmpty(forecast) && !NonEmpty(future) && !NonEmpty(predict)
    ensures r.Line? ==> r.labels == Labels(forecast, future, predict)
    ensures r.Line? ==>
      r.datasets == DatasetFor("Actual Price", r.labels, forecast) +
                    DatasetFor("Forecast", r.labels, future) +
                    DatasetFor("Predict Price", r.labels, predict)
  {
    if !NonEmpty(forecast) && !NonEmpty(future) && !NonEmpty(predict) then NoForecastData
    else
      var labels := Labels(forecast, future, predict);
      Line(labels,
        DatasetFor("Actual Price", labels, forecast) +
        DatasetFor("Forecast", labels, future) +
        DatasetFor("Predict Price", labels, predict))
  }

  /** The datasets are those of the non-empty series, in the order Actual,
      Forecast, Predict, and each one's cells follow the alignment rule. */
  lemma RenderedDatasets(forecast: Series, future: Series, predict: Series)
    requires NonEmpty(forecast) || NonEmpty(future) || NonEmpty(predict)
    ensures var r := Render(forecast, future, predict);
      && r.Line?
      && |r.datasets| == (if NonEmpty(forecast) then 1 else 0) + (if NonEmpty(future) then 1 else 0) +
                          (if NonEmpty(predict) then 1 else 0)
      && (NonEmpty(forecast) ==> r.datasets[0] == Dataset("Actual Price", Align(r.labels, forecast)))
      && (NonEmpty(predict) ==> r.datasets[|r.datasets| - 1] == Dataset("Predict Price", Align(r.labels, predict)))
      && (NonEmpty(future) ==>
            r.datasets[if NonEmpty(forecast) then 1 else 0] == Dataset("Forecast", Align(r.labels, future)))
  {
    var r := Render(forecast, future, predict);
    var a := DatasetFor("Actual Price", r.labels, forecast);
    var b := DatasetFor("Forecast", r.labels, future);
    var c := DatasetFor("Predict Price", r.labels, predict);
    assert r.datasets == a + b + c;
    if NonEmpty(forecast) {
      assert r.datasets[0] == a[0];
    }
    if NonEmpty(future) {
      assert r.datasets[|a|] == b[0];
    }
    if NonEmpty(predict) {
      assert r.datasets[|a| + |b|] == c[0];
    }
  }

  /** Every year of a non-empty series gets a label, so no point is dropped from the axis. */
  lemma EveryYearLabelled(forecast: Series, future: Series, predict: Series, s: Series, j: int)
    requires s == forecast || s == future || s == predict
    requires s.Some? && 0 <= j < |s.value|
    ensures s.value[j].year in Render(forecast, future, predict).labels
  {
    assert YearsOf(s)[j] == s.value[j].year;
  }
}
