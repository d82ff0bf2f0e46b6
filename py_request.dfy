/**
 * What the two forecast handlers share: the request's price dictionaries
 * read as year series, the amenity counter, the amenity weights, key
 * case-folding, and the shape of a reply.
 *
 * A dictionary value is `None` when `float()` (or an addition) cannot take it.
 */
module PyRequest {
  import opened Wrappers
  import opened Js

  /** A JSON object received as a Python dict, in key order. */
  type PyDict = seq<(string, Option<real>)>

  /** One forecast point of a reply, `{"year": str(year), "price": price}`;
      the year is kept as the number `str` writes with `PyStr`. */
  datatype PyPoint = PyPoint(year: nat, price: real)

  /** A reply: the forecast, or the error a raised exception turns into. */
  datatype Reply = Forecast(points: seq<PyPoint>) | Error

  /** The request fields the handlers read; `area` and `rooms_en` only
      select the CSV row, which the handlers receive as its score. */
  datatype PredictionRequest = PredictionRequest(
    zoneIndex: int,
    amenities: Counter,
    actualPrice: Option<PyDict>,
    predictPrice: Option<PyDict>)

  /** The four model inputs `[year feature, weighted_score, zone_index, pct_change]`. */
  datatype Features = Features(yearFeature: real, weightedScore: real, zoneIndex: int, pctChange: real)

  /** The loaded model: `None` when loading failed; its prediction (already
      passed through `expm1`) is `None` when `predict` raises. */
  type Model = Option<Features -> Option<real>>

  /** `str(n)` */
  function PyStr(n: nat): string { DecimalString(n) }

  // ---------------------------------------------------------------------------
  // Year series

  /** `str(y).isdigit()` for ASCII digits. */
  predicate IsDigitKey(k: string) { |k| > 0 && AllDigits(k) }

  /** The digit keys of a dict, in order. */
  function DigitKeys(d: PyDict): (ks: seq<string>)
    ensures forall k :: k in ks <==> (exists i :: 0 <= i < |d| && d[i].0 == k && IsDigitKey(k))
    ensures forall i :: 0 <= i < |ks| ==> IsDigitKey(ks[i])
  {
    if d == [] then []
    else
      var init := DigitKeys(d[..|d| - 1]);
      assert forall i :: 0 <= i < |d| - 1 ==> d[..|d| - 1][i] == d[i];
      if IsDigitKey(d[|d| - 1].0) then init + [d[|d| - 1].0] else init
  }

  /** One more key: the digit keys so far, then the new key when it is a
      digit key; the keys keep the dict's order. */
  lemma DigitKeysAppend(d: PyDict, e: (string, Option<real>))
    ensures DigitKeys(d + [e]) == DigitKeys(d) + (if IsDigitKey(e.0) then [e.0] else [])
  {
    assert (d + [e])[..|d|] == d;
  }

  /** A dict whose keys are all digit keys gives all its keys, in order. */
  lemma {:induction false} DigitKeysOfDigitDict(d: PyDict)
    requires forall i :: 0 <= i < |d| ==> IsDigitKey(d[i].0)
    ensures |DigitKeys(d)| == |d|
    ensures forall i :: 0 <= i < |d| ==> DigitKeys(d)[i] == d[i].0
  {
    if d != [] {
      var init := d[..|d| - 1];
      DigitKeysOfDigitDict(init);
      assert d == init + [d[|d| - 1]];
      DigitKeysAppend(init, d[|d| - 1]);
    }
  }

  /** `[int(y) for y in d.keys() if str(y).isdigit()]` */
  function DigitYears(d: PyDict): (ys: seq<nat>)
    ensures |ys| == |DigitKeys(d)|
    ensures forall i :: 0 <= i < |ys| ==> ys[i] == DigitsValue(DigitKeys(d)[i])
  {
    var ks := DigitKeys(d);
    seq(|ks|, i requires 0 <= i < |ks| => DigitsValue(ks[i]))
  }

  /** `float(d[k])`: `None` for a missing key or a value float() rejects. */
  function PriceAt(d: PyDict, k: string): Option<real> {
    if d == [] then None
    else if d[0].0 == k then d[0].1
    else PriceAt(d[1..], k)
  }

  /** `[float(d[str(y)]) for y in years]`, `None` when one lookup raises. */
  function PricesFor(d: PyDict, years: seq<nat>): (r: Option<seq<real>>)
    ensures r.Some? ==> |r.value| == |years|
    ensures r.Some? <==> forall i :: 0 <= i < |years| ==> PriceAt(d, PyStr(years[i])).Some?
  {
    if years == [] then Some([])
    else
      var init := PricesFor(d, years[..|years| - 1]);
      var last := PriceAt(d, PyStr(years[|years| - 1]));
      assert forall i :: 0 <= i < |years| - 1 ==> years[..|years| - 1][i] == years[i];
      if init.None? || last.None? then None else Some(init.value + [last.value])
  }

  /** `prices` for a dict: the float at each digit year, re-keyed by `str(int(y))`. */
  function PricesOf(d: PyDict): Option<seq<real>> {
    PricesFor(d, DigitYears(d))
  }

  /** Keys are listed once each. */
  predicate DistinctKeys(d: PyDict) {
    forall i, j :: 0 <= i < j < |d| ==> d[i].0 != d[j].0
  }

  lemma PriceAtIndex(d: PyDict, i: int)
    requires DistinctKeys(d) && 0 <= i < |d|
    ensures PriceAt(d, d[i].0) == d[i].1
  {
    if i > 0 {
      assert DistinctKeys(d[1..]);
      PriceAtIndex(d[1..], i - 1);
    }
  }

  /** The digit keys written without leading zeros, and convertible. */
  predicate ReadableYears(d: PyDict) {
    forall i :: 0 <= i < |d| && IsDigitKey(d[i].0) ==> Canonical(d[i].0) && d[i].1.Some?
  }

  /** With every digit key canonical and convertible, the prices are the
      digit keys' values, in key order. */
  lemma PricesOfReadable(d: PyDict)
    requires DistinctKeys(d) && ReadableYears(d)
    ensures var ks := DigitKeys(d);
      && PricesOf(d).Some?
      && |PricesOf(d).value| == |ks|
      && forall i :: 0 <= i < |ks| ==> Some(PricesOf(d).value[i]) == PriceAt(d, ks[i])
  {
    var ks := DigitKeys(d);
    var ys := DigitYears(d);
    forall i | 0 <= i < |ks|
      ensures PyStr(ys[i]) == ks[i] && PriceAt(d, ks[i]).Some?
    {
      assert ks[i] in ks;
      var j :| 0 <= j < |d| && d[j].0 == ks[i] && IsDigitKey(ks[i]);
      DecimalStringOfDigits(ks[i]);
      PriceAtIndex(d, j);
    }
    PricesForEach(d, ys);
  }

  lemma {:induction false} PricesForEach(d: PyDict, years: seq<nat>)
    requires PricesFor(d, years).Some?
    ensures forall i :: 0 <= i < |years| ==> Some(PricesFor(d, years).value[i]) == PriceAt(d, PyStr(years[i]))
  {
    if years != [] {
      var init := years[..|years| - 1];
      PricesForEach(d, init);
    }
  }

  /** A year written with a leading zero is looked up under its canonical
      spelling, which is not a key: the comprehension raises. */
  lemma LeadingZeroYearRaises()
    ensures PricesOf([("02024", Some(1500000.0))]) == None
  {
    var d: PyDict := [("02024", Some(1500000.0))];
    assert DigitKeys(d) == ["02024"];
    PaddedYearValue();
    assert DigitYears(d) == [2024];
    YearSpelling();
    assert PriceAt(d, "2024") == None;
  }

  lemma PaddedYearValue()
    ensures DigitsValue("02024") == 2024
  {
    assert "02024"[..4] == "0202" && "0202"[..3] == "020" && "020"[..2] == "02" && "02"[..1] == "0";
    assert "0"[..0] == "";
  }

  lemma YearSpelling()
    ensures PyStr(2024) == "2024"
  {
    assert DigitsValue("2024") == 2024 by {
      assert "2024"[..3] == "202" && "202"[..2] == "20" && "20"[..1] == "2" && "2"[..0] == "";
    }
    DecimalStringOfDigits("2024");
  }

  /** The largest of a non-empty list of years. */
  function MaxYear(ys: seq<nat>): (m: nat)
    requires ys != []
    ensures m in ys && forall i :: 0 <= i < |ys| ==> ys[i] <= m
  {
    if |ys| == 1 then ys[0]
    else
      var m := MaxYear(ys[..|ys| - 1]);
      assert forall i :: 0 <= i < |ys| - 1 ==> ys[..|ys| - 1][i] == ys[i];
      if ys[|ys| - 1] > m then ys[|ys| - 1] else m
  }

  // ---------------------------------------------------------------------------
  // Amenities

  /** `amenities_counter`, in key order. */
  type Counter = seq<(string, Option<real>)>

  /** `sum(counter.values()) if counter else 0`, `None` when it raises. */
  function AmenitiesSum(c: Counter): (r: Option<real>)
    ensures r.Some? <==> forall i :: 0 <= i < |c| ==> c[i].1.Some?
  {
    if c == [] then Some(0.0)
    else
      var init := AmenitiesSum(c[..|c| - 1]);
      assert forall i :: 0 <= i < |c| - 1 ==> c[..|c| - 1][i] == c[i];
      if init.None? || c[|c| - 1].1.None? then None else Some(init.value + c[|c| - 1].1.value)
  }

  /** One more counter entry adds its count to the sum, or makes `sum` raise
      when it is not a number. */
  lemma AmenitiesSumAppend(c: Counter, e: (string, Option<real>))
    ensures AmenitiesSum(c + [e]) ==
      if AmenitiesSum(c).None? || e.1.None? then None else Some(AmenitiesSum(c).value + e.1.value)
  {
    assert (c + [e])[..|c|] == c;
  }

  /** With counts that are not negative, as the dashboard's counters are,
      the sum is not negative and is 0 exactly when every count is 0. */
  lemma {:induction false} AmenitiesSumZero(c: Counter)
    requires forall i :: 0 <= i < |c| ==> c[i].1.Some? && c[i].1.value >= 0.0
    ensures AmenitiesSum(c).Some? && AmenitiesSum(c).value >= 0.0
    ensures AmenitiesSum(c).value == 0.0 <==> forall i :: 0 <= i < |c| ==> c[i].1.value == 0.0
  {
    if c != [] {
      var init := c[..|c| - 1];
      AmenitiesSumZero(init);
      assert c == init + [c[|c| - 1]];
      AmenitiesSumAppend(init, c[|c| - 1]);
      if AmenitiesSum(c).value == 0.0 {
        forall i | 0 <= i < |c|
          ensures c[i].1.value == 0.0
        {
          if i < |c| - 1 {
            assert c[i] == init[i];
          }
        }
      }
    }
  }

  /** `amenity_weights`, in the order both handlers write it. */
  const AmenityWeights: seq<(string, real)> := [
    ("hospital", 0.07), ("metro", 0.09), ("school", 0.08), ("university", 0.06),
    ("park", 0.075), ("office", 0.065), ("poi", 0.05),
    ("landfill", -0.06), ("prison", -0.05), ("highway", -0.04),
    ("bar", -0.03), ("cemetery", -0.02)]

  /** `amenity_weights.get(name)` */
  function WeightOf(name: string): (r: Option<real>)
    ensures r.Some? <==> exists i :: 0 <= i < |AmenityWeights| && AmenityWeights[i].0 == name
  {
    WeightIn(AmenityWeights, name)
  }

  function WeightIn(ws: seq<(string, real)>, name: string): (r: Option<real>)
    ensures r.Some? <==> exists i :: 0 <= i < |ws| && ws[i].0 == name
    ensures r.Some? ==> exists i :: 0 <= i < |ws| && ws[i] == (name, r.value)
  {
    if ws == [] then None
    else if ws[|ws| - 1].0 == name then Some(ws[|ws| - 1].1)
    else
      var r := WeightIn(ws[..|ws| - 1], name);
      assert forall i :: 0 <= i < |ws| - 1 ==> ws[..|ws| - 1][i] == ws[i];
      r
  }

  /** What an amenity with the (normalised) key `key` and count `v` adds to
      the score: `0.1 * v * weight` of the weight with that name, nothing
      when there is none. */
  function Share(key: string, v: real, ws: seq<(string, real)>): real {
    match WeightIn(ws, key)
    case Some(w) => 0.1 * v * w
    case None => 0.0
  }

  /** `c.lower()` for ASCII letters. */
  function LowerChar(c: char): (r: char)
    ensures 'A' <= c <= 'Z' ==> 'a' <= r <= 'z'
    ensures !('A' <= c <= 'Z') ==> r == c
  {
    if 'A' <= c <= 'Z' then (c as int - 'A' as int + 'a' as int) as char else c
  }

  /** `s.lower()` */
  function Lower(s: string): (r: string)
    ensures |r| == |s|
    ensures forall i :: 0 <= i < |s| ==> r[i] == LowerChar(s[i])
  {
    seq(|s|, i requires 0 <= i < |s| => LowerChar(s[i]))
  }

  /** `np.clip(x, lo, hi)` and `max(lo, min(hi, x))` */
  function Clamp(x: real, lo: real, hi: real): (r: real)
    requires lo <= hi
    ensures lo <= r <= hi
    ensures lo <= x <= hi ==> r == x
    ensures x < lo ==> r == lo
    ensures hi < x ==> r == hi
  {
    if x < lo then lo else if hi < x then hi else x
  }

  // ---------------------------------------------------------------------------
  // Shared helpers

  /** `req.x or {}` */
  function OrEmpty(d: Option<PyDict>): PyDict {
    if d.Some? then d.value else []
  }

  /** The last element of a non-empty list. */
  function Last(xs: seq<real>): real
    requires xs != []
  {
    xs[|xs| - 1]
  }

  /** The counter's values once `sum` has accepted them all. */
  function Numbers(c: Counter): (r: seq<(string, real)>)
    requires forall i :: 0 <= i < |c| ==> c[i].1.Some?
    ensures |r| == |c|
    ensures forall i :: 0 <= i < |c| ==> r[i] == (c[i].0, c[i].1.value)
  {
    seq(|c|, i requires 0 <= i < |c| => (c[i].0, c[i].1.value))
  }

  /** The points appended so far, followed by those still to come. */
  function Prepend(done: seq<PyPoint>, rest: Option<seq<PyPoint>>): (r: Option<seq<PyPoint>>)
    ensures r.Some? <==> rest.Some?
  {
    if rest.None? then None else Some(done + rest.value)
  }

  /** Moving one point from the points still to come to those appended. */
  lemma PrependAppend(done: seq<PyPoint>, point: PyPoint, rest: Option<seq<PyPoint>>)
    ensures Prepend(done, Prepend([point], rest)) == Prepend(done + [point], rest)
  {
    if rest.Some? {
      assert done + ([point] + rest.value) == (done + [point]) + rest.value;
    }
  }
}
