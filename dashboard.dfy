/**
 * The dashboard's derived state: the selected area, the housing type, the
 * amenity counters and the three chart series, with one method per effect
 * or handler that changes them. Requests to the forecast service are
 * returned as values and their replies (or failures) passed in.
 */
module Dashboard {
  import opened Wrappers
  import opened Js
  import opened ForecastChart
  import ConcatJson
  import HousingTypeDropdown

  /** The twelve amenity counters, in the order the dashboard lists them. */
  const AmenityOrder: seq<string> :=
    ["hospital", "metro", "school", "university", "park", "office", "poi",
     "landfill", "prison", "highway", "bar", "cemetery"]

  /** The housing type selected on start and after Reset. */
  const DefaultHousingType: string := "1 B/R"

  /** `v || d` */
  function Or(v: Value, d: Value): (r: Value)
    ensures Truthy(v) ==> r == v
    ensures !Truthy(v) ==> r == d
  {
    if Truthy(v) then v else d
  }

  /** `selectedArea?.k` */
  function AreaProp(area: Option<JsObject>, k: string): (r: Value)
    ensures area.None? ==> r == Undefined
    ensures area.Some? ==> r == Get(area.value, k)
  {
    match area
    case None => Undefined
    case Some(a) => Get(a, k)
  }

  // ---------------------------------------------------------------------------
  // Amenity counters

  /** The counter an area starts with: its own property when defined, else 0. */
  function AmenityValue(area: Option<JsObject>, k: string): (r: Value)
    ensures area.None? ==> r == Num(0.0)
    ensures area.Some? && Get(area.value, k) != Undefined ==> r == Get(area.value, k)
    ensures area.Some? && Get(area.value, k) == Undefined ==> r == Num(0.0)
  {
    var v := AreaProp(area, k);
    if v != Undefined then v else Num(0.0)
  }

  /** `defaultAmenities[key] = ...` for each of `keys` in turn. */
  function DefaultsFor(area: Option<JsObject>, keys: seq<string>): JsObject {
    if keys == [] then Empty
    else
      var last := keys[|keys| - 1];
      Set(DefaultsFor(area, keys[..|keys| - 1]), last, AmenityValue(area, last))
  }

  predicate NamedKeys(keys: seq<string>) {
    (forall i :: 0 <= i < |keys| ==> !IsIndexKey(keys[i])) &&
    (forall i, j :: 0 <= i < j < |keys| ==> keys[i] != keys[j])
  }

  lemma AmenityOrderNamed()
    ensures NamedKeys(AmenityOrder)
  {
    forall i | 0 <= i < |AmenityOrder|
      ensures !IsIndexKey(AmenityOrder[i])
    {
      assert !IsDigit(AmenityOrder[i][0]);
    }
  }

  /** Adding a named key that is not there yet appends it. */
  lemma {:induction false} PutNamedAppends(es: Entries, k: string, v: Value)
    requires !IsIndexKey(k) && k !in Keys(es)
    ensures Keys(Put(es, k, v)) == Keys(es) + [k]
  {
    if es != [] {
      assert Keys(es) == [es[0].0] + Keys(es[1..]);
      PutNamedAppends(es[1..], k, v);
    }
  }

  /** The object built from named keys lists exactly those keys, in order,
      and holds each one's default. */
  lemma DefaultsForShape(area: Option<JsObject>, keys: seq<string>)
    requires NamedKeys(keys)
    ensures KeysOf(DefaultsFor(area, keys)) == keys
    ensures forall k :: Get(DefaultsFor(area, keys), k) == if k in keys then AmenityValue(area, k) else Undefined
  {
    DefaultsForKeys(area, keys);
    forall k {
      DefaultsForValue(area, keys, k);
    }
  }

  lemma {:induction false} DefaultsForKeys(area: Option<JsObject>, keys: seq<string>)
    requires NamedKeys(keys)
    ensures KeysOf(DefaultsFor(area, keys)) == keys
  {
    if keys != [] {
      var init := keys[..|keys| - 1];
      var last := keys[|keys| - 1];
      assert NamedKeys(init);
      DefaultsForKeys(area, init);
      assert last !in init;
      PutNamedAppends(DefaultsFor(area, init).entries, last, AmenityValue(area, last));
      assert keys == init + [last];
    }
  }

  /** Each listed key holds its default, whatever the order and repetitions. */
  lemma {:induction false} DefaultsForValue(area: Option<JsObject>, keys: seq<string>, k: string)
    ensures Get(DefaultsFor(area, keys), k) == if k in keys then AmenityValue(area, k) else Undefined
  {
    if keys != [] {
      var init := keys[..|keys| - 1];
      var last := keys[|keys| - 1];
      DefaultsForValue(area, init, k);
      LookupPut(DefaultsFor(area, init).entries, last, AmenityValue(area, last), k);
      assert keys == init + [last];
    }
  }

  lemma DefaultsForStep(area: Option<JsObject>, keys: seq<string>, i: int)
    requires 0 <= i < |keys|
    ensures DefaultsFor(area, keys[..i + 1]) == Set(DefaultsFor(area, keys[..i]), keys[i], AmenityValue(area, keys[i]))
  {
    assert keys[..i + 1][..i] == keys[..i];
  }

  /** The amenity counters after the selected area changes: exactly the
      twelve keys, in order, each the area's own value when defined and 0
      otherwise (all 0 without an area). */
  function AmenityDefaults(area: Option<JsObject>): (r: JsObject)
    ensures KeysOf(r) == AmenityOrder
    ensures forall i :: 0 <= i < |AmenityOrder| ==> Get(r, AmenityOrder[i]) == AmenityValue(area, AmenityOrder[i])
    ensures forall k :: k !in AmenityOrder ==> Get(r, k) == Undefined
  {
    AmenityOrderNamed();
    DefaultsForShape(area, AmenityOrder);
    DefaultsFor(area, AmenityOrder)
  }

  /** `handleChange(delta)` applied to the counters `prev`. */
  function AmenityUpdate(prev: JsObject, key: string, delta: int, fmt: real -> string): (r: JsObject)
    ensures delta == 1 ==> Get(r, key) == PlusOne(Or(Get(prev, key), Num(0.0)), fmt)
    ensures delta == -1 ==> Get(r, key) != Num(0.0)
    ensures delta != 1 && delta != -1 ==> r == prev
  {
    var current := Or(Get(prev, key), Num(0.0));
    if delta == 1 then Set(prev, key, PlusOne(current, fmt))
    else if delta == -1 then
      var next := Set(prev, key, MaxWithZero(MinusOne(current, fmt)));
      if Get(next, key) == Num(0.0) then Delete(next, key) else next
    else prev
  }

  /** What one press of + or - does: the pressed counter becomes `(old || 0) + 1`,
      or `max(0, (old || 0) - 1)` with the key removed when that is 0; every
      other counter is unchanged. */
  lemma AmenityUpdateEffect(prev: JsObject, key: string, delta: int, fmt: real -> string)
    ensures var r := AmenityUpdate(prev, key, delta, fmt);
      var current := Or(Get(prev, key), Num(0.0));
      && (forall y :: y != key ==> Get(r, y) == Get(prev, y))
      && (delta == 1 ==> Get(r, key) == PlusOne(current, fmt))
      && (delta == -1 ==>
            Get(r, key) == if MaxWithZero(MinusOne(current, fmt)) == Num(0.0) then Undefined
                           else MaxWithZero(MinusOne(current, fmt)))
      && (delta != 1 && delta != -1 ==> r == prev)
  {
    var current := Or(Get(prev, key), Num(0.0));
    var up, down := PlusOne(current, fmt), MaxWithZero(MinusOne(current, fmt));
    forall y | y != key
      ensures Get(AmenityUpdate(prev, key, delta, fmt), y) == Get(prev, y)
    {
      LookupPut(prev.entries, key, up, y);
      LookupPut(prev.entries, key, down, y);
      LookupRemove(Put(prev.entries, key, down), key, y);
    }
    LookupPut(prev.entries, key, up, key);
    LookupPut(prev.entries, key, down, key);
    LookupRemove(Put(prev.entries, key, down), key, key);
  }

  /** A decrement never leaves a negative counter behind. */
  lemma DecrementNeverNegative(prev: JsObject, key: string, fmt: real -> string)
    ensures var v := Get(AmenityUpdate(prev, key, -1, fmt), key);
      v.Undefined? || v.NaN? || (v.Num? && v.n > 0.0)
  {
    AmenityUpdateEffect(prev, key, -1, fmt);
  }

  /** + then - on a counter that is not there leaves the counters as they were. */
  lemma IncrementThenDecrementAbsent(prev: JsObject, key: string, fmt: real -> string)
    requires key !in KeysOf(prev)
    ensures AmenityUpdate(AmenityUpdate(prev, key, 1, fmt), key, -1, fmt) == prev
  {
    LookupAbsent(prev.entries, key);
    CounterSteps(0.0, fmt);
    var up := Set(prev, key, Num(1.0));
    IncrementSets(prev, key, 0.0, fmt);
    LookupPut(prev.entries, key, Num(1.0), key);
    DecrementToZeroDeletes(up, key, fmt);
    PutPut(prev.entries, key, Num(1.0), Num(0.0));
    RemovePutAbsent(prev.entries, key, Num(0.0));
  }

  /** + then - on a positive counter restores it, key order included. */
  lemma IncrementThenDecrementPositive(prev: JsObject, key: string, n: real, fmt: real -> string)
    requires WellFormed(prev) && Get(prev, key) == Num(n) && n > 0.0
    ensures AmenityUpdate(AmenityUpdate(prev, key, 1, fmt), key, -1, fmt) == prev
  {
    if key !in KeysOf(prev) {
      LookupAbsent(prev.entries, key);
    }
    CounterSteps(n, fmt);
    var up := Set(prev, key, Num(n + 1.0));
    IncrementSets(prev, key, n, fmt);
    LookupPut(prev.entries, key, Num(n + 1.0), key);
    DecrementToPositiveSets(up, key, n, fmt);
    PutPut(prev.entries, key, Num(n + 1.0), Num(n));
    PutExisting(prev.entries, key);
  }

  /** `+1` and `-1` on numbers, the latter floored at 0. */
  lemma CounterSteps(n: real, fmt: real -> string)
    requires n >= 0.0
    ensures PlusOne(Num(n), fmt) == Num(n + 1.0)
    ensures MaxWithZero(MinusOne(Num(n + 1.0), fmt)) == Num(n)
  {
  }

  /** + on a counter holding the number `n` (or nothing, when `n` is 0) writes `n + 1`. */
  lemma IncrementSets(prev: JsObject, key: string, n: real, fmt: real -> string)
    requires n >= 0.0
    requires Get(prev, key) == Num(n) || (n == 0.0 && Get(prev, key) == Undefined)
    ensures AmenityUpdate(prev, key, 1, fmt) == Set(prev, key, Num(n + 1.0))
  {
    CounterSteps(n, fmt);
  }

  /** - on a counter holding 1 removes the key. */
  lemma DecrementToZeroDeletes(prev: JsObject, key: string, fmt: real -> string)
    requires Get(prev, key) == Num(1.0)
    ensures AmenityUpdate(prev, key, -1, fmt) == Delete(Set(prev, key, Num(0.0)), key)
  {
    CounterSteps(0.0, fmt);
    LookupPut(prev.entries, key, Num(0.0), key);
  }

  /** - on a counter holding `n + 1` with `n` positive writes `n`. */
  lemma DecrementToPositiveSets(prev: JsObject, key: string, n: real, fmt: real -> string)
    requires Get(prev, key) == Num(n + 1.0) && n > 0.0
    ensures AmenityUpdate(prev, key, -1, fmt) == Set(prev, key, Num(n))
  {
    CounterSteps(n, fmt);
    LookupPut(prev.entries, key, Num(n), key);
  }

  // ---------------------------------------------------------------------------
  // Chart series

  /** `Object.entries(dict).map(([year, price]) => ({ year, price }))` */
  function EntriesToPoints(es: Entries): (r: seq<Point>)
    ensures |r| == |es|
    ensures forall i :: 0 <= i < |es| ==> r[i] == Point(es[i].0, es[i].1)
  {
    seq(|es|, i requires 0 <= i < |es| => Point(es[i].0, es[i].1))
  }

  /** The series for one housing type out of a price container (ActualPrice
      or the parsed PredictPrice): empty unless the container, the housing
      type and the type's dictionary are all truthy. */
  function SeriesFrom(container: Value, housingType: string): (r: seq<Point>)
    ensures !Truthy(container) || housingType == "" ==> r == []
  {
    if Truthy(container) && housingType != "" then
      var dict := GetProp(container, housingType);
      if Truthy(dict) then EntriesToPoints(OwnEntries(dict).value) else []
    else []
  }

  /** `selectedArea?.PredictPrice`, a string read with a whole-string
      `JSON.parse` and `{}` when that throws. */
  function ParsedPredictPrice(area: Option<JsObject>, parse: ConcatJson.Parser): (r: Value)
    ensures var p := AreaProp(area, "PredictPrice");
      && (!(p.Str? && p.s != "") ==> r == p)
      && (p.Str? && p.s != "" && parse(p.s).None? ==> r == Obj(Empty))
      && (p.Str? && p.s != "" && parse(p.s).Some? ==> r == parse(p.s).value)
  {
    var p := AreaProp(area, "PredictPrice");
    if Truthy(p) && p.Str? then parse(p.s).GetOr(Obj(Empty)) else p
  }

  /** The actual-price series. */
  function ActualSeries(area: Option<JsObject>, housingType: string): (r: seq<Point>)
    ensures area.None? || housingType == "" ==> r == []
  {
    SeriesFrom(AreaProp(area, "ActualPrice"), housingType)
  }

  /** The predicted-price series. */
  function PredictSeries(area: Option<JsObject>, housingType: string, parse: ConcatJson.Parser): (r: seq<Point>)
    ensures area.None? || housingType == "" ==> r == []
  {
    SeriesFrom(ParsedPredictPrice(area, parse), housingType)
  }

  /** With the type's dictionary an object, the series is its entries as
      points in key order: one point per key, year = key, price = value. */
  lemma SeriesOfObject(container: Value, housingType: string, dict: JsObject)
    requires container.Obj? && housingType != ""
    requires Get(container.obj, housingType) == Obj(dict)
    ensures var r := SeriesFrom(container, housingType);
      && |r| == |dict.entries|
      && (forall i :: 0 <= i < |r| ==> r[i].year == KeysOf(dict)[i] && r[i].price == dict.entries[i].1)
  {
  }

  /** A missing housing type gives an empty series. */
  lemma SeriesOfMissingType(container: Value, housingType: string)
    requires container.Obj? && Get(container.obj, housingType) == Undefined
    ensures SeriesFrom(container, housingType) == []
  {
  }

  /** A string PredictPrice that does not parse yields no predicted series. */
  lemma UnparsablePredictPrice(area: Option<JsObject>, housingType: string, parse: ConcatJson.Parser)
    requires AreaProp(area, "PredictPrice").Str? && AreaProp(area, "PredictPrice").s != ""
    requires parse(AreaProp(area, "PredictPrice").s).None?
    ensures PredictSeries(area, housingType, parse) == []
  {
  }

  // ---------------------------------------------------------------------------
  // Requests to the forecast service

  /** The body of a POST to `/predict`; the manual request has no actual_price. */
  datatype Request = Request(
    zoneIndex: Value,
    area: Value,
    roomsEn: string,
    amenitiesCounter: JsObject,
    actualPrice: Option<Value>,
    predictPrice: Value)

  /** The outcome of a request: a failure, or a reply whose `forecast` field
      is `None` when missing or falsy. */
  datatype Response = Failed | Replied(forecast: Option<seq<Point>>)

  /** `res.data.forecast || []`, and `[]` for a failed request. */
  function ReplyForecast(response: Response): (r: seq<Point>)
    ensures response.Failed? ==> r == []
    ensures response.Replied? && response.forecast.Some? ==> r == response.forecast.value
    ensures response.Replied? && response.forecast.None? ==> r == []
  {
    match response
    case Failed => []
    case Replied(f) => f.GetOr([])
  }

  /** The `predict_price` of the automatic request: only the last key of the
      type's predicted dictionary, with its value; `{}` when there is none. */
  function LatestPrediction(predictPrice: Value, housingType: string): (r: JsObject)
    ensures |r.entries| <= 1
  {
    if Truthy(predictPrice) && Truthy(GetProp(predictPrice, housingType)) then
      var dict := GetProp(predictPrice, housingType);
      var years := HousingTypeDropdown.ObjectKeys(dict);
      if |years| > 0 then
        var lastYear := years[|years| - 1];
        Set(Empty, lastYear, GetProp(dict, lastYear))
      else Empty
    else Empty
  }

  /** For an object of year keys, the one entry sent is the latest year with
      its price, and nothing is sent for an empty or missing dictionary. */
  lemma LatestPredictionIsLatestYear(predictPrice: Value, housingType: string, dict: JsObject)
    requires predictPrice.Obj? && Get(predictPrice.obj, housingType) == Obj(dict)
    requires WellFormed(dict)
    requires forall i :: 0 <= i < |dict.entries| ==> IsIndexKey(dict.entries[i].0)
    ensures var r := LatestPrediction(predictPrice, housingType);
      && (dict.entries == [] ==> r == Empty)
      && (dict.entries != [] ==>
            |r.entries| == 1 && r.entries[0].0 in KeysOf(dict) &&
            Get(r, r.entries[0].0) == Get(dict, r.entries[0].0) &&
            forall y :: y in KeysOf(dict) ==>
              IsIndexKey(y) && IsIndexKey(r.entries[0].0) && DigitsValue(y) <= DigitsValue(r.entries[0].0))
  {
    if dict.entries != [] {
      var last := dict.entries[|dict.entries| - 1].0;
      LatestPredictionSendsLastKey(predictPrice, housingType, dict);
      LastKeyIsLargest(dict.entries);
      assert KeysOf(dict)[|dict.entries| - 1] == last;
      forall y | y in KeysOf(dict)
        ensures IsIndexKey(y) && IsIndexKey(last) && DigitsValue(y) <= DigitsValue(last)
      {
        var i :| 0 <= i < |dict.entries| && KeysOf(dict)[i] == y;
      }
    }
  }

  /** For a non-empty dictionary, the one entry sent is its last key with its value. */
  lemma LatestPredictionSendsLastKey(predictPrice: Value, housingType: string, dict: JsObject)
    requires predictPrice.Obj? && Get(predictPrice.obj, housingType) == Obj(dict) && dict.entries != []
    ensures var last := dict.entries[|dict.entries| - 1].0;
      LatestPrediction(predictPrice, housingType) == JsObject([(last, Get(dict, last))])
  {
    assert KeysOf(dict)[|dict.entries| - 1] == dict.entries[|dict.entries| - 1].0;
  }

  /** Nothing is sent for a type without a predicted dictionary. */
  lemma LatestPredictionOfMissingType(predictPrice: Value, housingType: string)
    requires predictPrice.Obj? && Get(predictPrice.obj, housingType) == Undefined
    ensures LatestPrediction(predictPrice, housingType) == Empty
  {
  }

  /** The automatic request, or `None` when there is no area or housing type. */
  function AutoRequest(area: Option<JsObject>, housingType: string, amenities: JsObject, parse: ConcatJson.Parser): (r: Option<Request>)
    ensures r.None? <==> area.None? || housingType == ""
    ensures r.Some? ==>
      && r.value.zoneIndex == Or(AreaProp(area, "ZoneIndex"), Num(0.0))
      && r.value.area == Or(AreaProp(area, "Area"), Str(""))
      && r.value.actualPrice == Some(Or(AreaProp(area, "ActualPrice"), Obj(Empty)))
      && r.value.roomsEn == housingType && r.value.amenitiesCounter == amenities
      && r.value.predictPrice == Obj(LatestPrediction(ParsedPredictPrice(area, parse), housingType))
  {
    if area.Some? && housingType != "" then
      Some(Request(
        Or(AreaProp(area, "ZoneIndex"), Num(0.0)),
        Or(AreaProp(area, "Area"), Str("")),
        housingType,
        amenities,
        Some(Or(AreaProp(area, "ActualPrice"), Obj(Empty))),
        Obj(LatestPrediction(ParsedPredictPrice(area, parse), housingType))))
    else None
  }

  /** The manual request, or `None` when there is no area or housing type. */
  function ManualRequest(area: Option<JsObject>, housingType: string, amenities: JsObject, parse: ConcatJson.Parser): (r: Option<Request>)
    ensures r.None? <==> area.None? || housingType == ""
    ensures r.Some? ==>
      && r.value.zoneIndex == Or(AreaProp(area, "ZoneIndex"), Num(0.0))
      && r.value.area == Or(AreaProp(area, "AreaName"), Str(""))
      && r.value.roomsEn == housingType && r.value.amenitiesCounter == amenities
      && r.value.actualPrice.None?
      && (Truthy(r.value.predictPrice) || r.value.predictPrice == Obj(Empty))
      && var p := ParsedPredictPrice(area, parse);
         (Truthy(p) && Truthy(GetProp(p, housingType)) ==> r.value.predictPrice == GetProp(p, housingType))
         && (!(Truthy(p) && Truthy(GetProp(p, housingType))) ==> r.value.predictPrice == Obj(Empty))
  {
    if area.Some? && housingType != "" then
      var predictPriceObj := ParsedPredictPrice(area, parse);
      var predictPrice :=
        if Truthy(predictPriceObj) && Truthy(GetProp(predictPriceObj, housingType))
        then GetProp(predictPriceObj, housingType) else Obj(Empty);
      Some(Request(
        Or(AreaProp(area, "ZoneIndex"), Num(0.0)),
        Or(AreaProp(area, "AreaName"), Str("")),
        housingType,
        amenities,
        None,
        predictPrice))
    else None
  }

  /** The two requests name the area by different properties: with `Area`
      and `AreaName` differing, the same click sends two different names. */
  lemma RequestsReadDifferentAreaFields(area: JsObject, housingType: string, amenities: JsObject, parse: ConcatJson.Parser)
    requires housingType != ""
    requires Truthy(Get(area, "Area")) && Truthy(Get(area, "AreaName"))
    requires Get(area, "Area") != Get(area, "AreaName")
    ensures AutoRequest(Some(area), housingType, amenities, parse).value.area !=
            ManualRequest(Some(area), housingType, amenities, parse).value.area
  {
  }

  /** The continuity merge: the last predicted point goes in front of the
      reply unless the reply already has a point for that year. */
  function Continuity(reply: seq<Point>, predictPrice: Value): (r: seq<Point>)
    requires !predictPrice.Undefined? && !predictPrice.Null?
    ensures r == reply || (|r| == |reply| + 1 && r[1..] == reply)
  {
    var years := HousingTypeDropdown.ObjectKeys(predictPrice);
    if |years| > 0 then
      var lastYear := years[|years| - 1];
      if exists j :: 0 <= j < |reply| && reply[j].year == lastYear then reply
      else [Point(lastYear, GetProp(predictPrice, lastYear))] + reply
    else reply
  }

  /** The merge keeps the reply, adds at most one point in front, and after
      it the latest predicted year is always on the chart. */
  lemma ContinuityShape(reply: seq<Point>, predictPrice: Value)
    requires !predictPrice.Undefined? && !predictPrice.Null?
    ensures var r := Continuity(reply, predictPrice);
      var years := HousingTypeDropdown.ObjectKeys(predictPrice);
      && (r == reply || (|r| == |reply| + 1 && r[1..] == reply))
      && (years == [] ==> r == reply)
      && (years != [] ==> exists j :: 0 <= j < |r| && r[j].year == years[|years| - 1])
      && (years != [] && r != reply ==>
            r[0] == Point(years[|years| - 1], GetProp(predictPrice, years[|years| - 1])) &&
            forall j :: 0 <= j < |reply| ==> reply[j].year != years[|years| - 1])
  {
    var r := Continuity(reply, predictPrice);
    var years := HousingTypeDropdown.ObjectKeys(predictPrice);
    if years != [] && r != reply {
      assert r[0].year == years[|years| - 1];
    }
  }

  /** The `amenityOrder.forEach` loop of the area-change effect. */
  method FillDefaults(area: Option<JsObject>) returns (defaults: JsObject)
    ensures defaults == AmenityDefaults(area)
  {
    defaults := Empty;
    var i := 0;
    if area.Some? {
      while i < |AmenityOrder|
        invariant 0 <= i <= |AmenityOrder|
        invariant defaults == DefaultsFor(area, AmenityOrder[..i])
      {
        var key := AmenityOrder[i];
        var v := Get(area.value, key);
        DefaultsForStep(area, AmenityOrder, i);
        defaults := Set(defaults, key, if v != Undefined then v else Num(0.0));
        i := i + 1;
      }
    } else {
      while i < |AmenityOrder|
        invariant 0 <= i <= |AmenityOrder|
        invariant defaults == DefaultsFor(area, AmenityOrder[..i])
      {
        DefaultsForStep(area, AmenityOrder, i);
        defaults := Set(defaults, AmenityOrder[i], Num(0.0));
        i := i + 1;
      }
    }
    assert AmenityOrder[..i] == AmenityOrder;
  }

  // ---------------------------------------------------------------------------
  // The component's state

  class Dashboard {
    const parse: ConcatJson.Parser
    const fmt: real -> string
    var selectedArea: Option<JsObject>
    var housingType: string
    var amenities: JsObject
    var forecast: seq<Point>
    var futureForecast: seq<Point>
    var predictForecast: seq<Point>

    /** The initial state. */
    constructor (parse: ConcatJson.Parser, fmt: real -> string)
      ensures this.parse == parse && this.fmt == fmt
      ensures selectedArea == None && housingType == DefaultHousingType && amenities == Empty
      ensures forecast == [] && futureForecast == [] && predictForecast == []
    {
      this.parse := parse;
      this.fmt := fmt;
      selectedArea := None;
      housingType := DefaultHousingType;
      amenities := Empty;
      forecast := [];
      futureForecast := [];
      predictForecast := [];
    }

    /** `setSelectedArea`, as the map's click handler calls it. */
    method SelectArea(area: Option<JsObject>)
      modifies this
      ensures selectedArea == area
      ensures housingType == old(housingType) && amenities == old(amenities)
      ensures forecast == old(forecast) && futureForecast == old(futureForecast)
      ensures predictForecast == old(predictForecast)
    {
      selectedArea := area;
    }

    /** The dropdown's `onChange`. */
    method ChooseHousingType(chosen: string)
      modifies this
      ensures housingType == chosen
      ensures selectedArea == old(selectedArea) && amenities == old(amenities)
      ensures forecast == old(forecast) && futureForecast == old(futureForecast)
      ensures predictForecast == old(predictForecast)
    {
      housingType := HousingTypeDropdown.OnChange(chosen);
    }

    /** The effect on `selectedArea`: refill the twelve amenity counters. */
    method ResetAmenities()
      modifies this
      ensures amenities == AmenityDefaults(selectedArea)
      ensures selectedArea == old(selectedArea) && housingType == old(housingType)
      ensures forecast == old(forecast) && futureForecast == old(futureForecast)
      ensures predictForecast == old(predictForecast)
    {
      amenities := FillDefaults(selectedArea);
    }

    /** `handleChange(delta)` for one amenity: copy the counters, then update
      or delete the key. */
    method ChangeAmenity(key: string, delta: int)
      modifies this
      ensures amenities == AmenityUpdate(old(amenities), key, delta, fmt)
      ensures selectedArea == old(selectedArea) && housingType == old(housingType)
      ensures forecast == old(forecast) && futureForecast == old(futureForecast)
      ensures predictForecast == old(predictForecast)
    {
      var next := amenities;
      var current := Or(Get(next, key), Num(0.0));
      if delta == 1 {
        next := Set(next, key, PlusOne(current, fmt));
      } else if delta == -1 {
        next := Set(next, key, MaxWithZero(MinusOne(current, fmt)));
        if Get(next, key) == Num(0.0) {
          next := Delete(next, key);
        }
      }
      amenities := next;
    }

    /** The effect on `selectedArea` and `housingType`: rebuild the actual
      and predicted series. */
    method RefreshSeries()
      modifies this
      ensures forecast == ActualSeries(selectedArea, housingType)
      ensures predictForecast == PredictSeries(selectedArea, housingType, parse)
      ensures selectedArea == old(selectedArea) && housingType == old(housingType)
      ensures amenities == old(amenities) && futureForecast == old(futureForecast)
    {
      forecast := ActualSeries(selectedArea, housingType);
      predictForecast := PredictSeries(selectedArea, housingType, parse);
    }

    /** The effect that asks for the next five years: returns the body it
      posts (none without an area or housing type) and stores the reply as it
      arrives, with no check that it is still current. */
    method AutoForecast(response: Response) returns (sent: Option<Request>)
      modifies this
      ensures sent == AutoRequest(selectedArea, housingType, amenities, parse)
      ensures futureForecast == if sent.None? then [] else ReplyForecast(response)
      ensures selectedArea == old(selectedArea) && housingType == old(housingType)
      ensures amenities == old(amenities) && forecast == old(forecast)
      ensures predictForecast == old(predictForecast)
    {
      sent := AutoRequest(selectedArea, housingType, amenities, parse);
      if sent.Some? {
        futureForecast := ReplyForecast(response);
      } else {
        futureForecast := [];
      }
    }

    /** The Reset button. The predicted series is left as it was. */
    method Reset()
      modifies this
      ensures selectedArea == None && housingType == DefaultHousingType && amenities == Empty
      ensures forecast == [] && futureForecast == []
      ensures predictForecast == old(predictForecast)
    {
      selectedArea := None;
      housingType := DefaultHousingType;
      amenities := Empty;
      forecast := [];
      futureForecast := [];
    }

    /** Reset followed by the effects its new state sets off, in the order
      the component declares them. An effect re-runs only when one of its
      dependencies changed (`Object.is`): the amenity effect only when an
      area was selected, the series effect only when an area was selected or
      the housing type was not the default. The request effect always
      re-runs, since Reset stores a fresh `{}` and a fresh `[]`; with no area
      it sends nothing. So Reset from a selected area leaves the chart with no
      data, while Reset with nothing selected leaves the amenities `{}` and
      may keep the predicted series. */
    method ResetAndSettle(response: Response)
      modifies this
      ensures selectedArea == None && housingType == DefaultHousingType
      ensures forecast == [] && futureForecast == []
      ensures old(selectedArea).Some? ==> amenities == AmenityDefaults(None)
      ensures old(selectedArea).None? ==> amenities == Empty
      ensures old(selectedArea).Some? || old(housingType) != DefaultHousingType ==>
        (predictForecast == [] && Render(Some(forecast), Some(futureForecast), Some(predictForecast)).NoForecastData?)
      ensures old(selectedArea).None? && old(housingType) == DefaultHousingType ==>
        predictForecast == old(predictForecast)
    {
      var areaChanged := selectedArea.Some?;
      var seriesDepsChanged := selectedArea.Some? || housingType != DefaultHousingType;
      Reset();
      if areaChanged {
        ResetAmenities();
      }
      if seriesDepsChanged {
        RefreshSeries();
      }
      var sent := AutoForecast(response);
      NoAreaNothingToShow(housingType, amenities, parse);
    }

    /** The Forecast button: does nothing without an area or housing type;
      otherwise posts the manual request and stores the reply with the
      continuity point, or `[]` when the request fails. */
    method ManualForecast(response: Response) returns (sent: Option<Request>)
      modifies this
      ensures sent == ManualRequest(selectedArea, housingType, amenities, parse)
      ensures sent.None? ==> futureForecast == old(futureForecast)
      ensures sent.Some? && response.Failed? ==> futureForecast == []
      ensures sent.Some? && response.Replied? ==>
        futureForecast == Continuity(ReplyForecast(response), sent.value.predictPrice)
      ensures selectedArea == old(selectedArea) && housingType == old(housingType)
      ensures amenities == old(amenities) && forecast == old(forecast)
      ensures predictForecast == old(predictForecast)
    {
      sent := ManualRequest(selectedArea, housingType, amenities, parse);
      if sent.None? {
        return;
      }
      match response
      case Failed =>
        futureForecast := [];
      case Replied(_) =>
        futureForecast := Continuity(ReplyForecast(response), sent.value.predictPrice);
    }
  }

  /** With no area selected, both series effects produce no points, the
      automatic request is not sent, and the amenity effect sets all twelve
      counters to 0. */
  lemma NoAreaNothingToShow(housingType: string, amenities: JsObject, parse: ConcatJson.Parser)
    ensures ActualSeries(None, housingType) == [] && PredictSeries(None, housingType, parse) == []
    ensures AutoRequest(None, housingType, amenities, parse).None?
    ensures forall i :: 0 <= i < |AmenityOrder| ==> Get(AmenityDefaults(None), AmenityOrder[i]) == Num(0.0)
    ensures Render(Some([]), Some([]), Some([])).NoForecastData?
  {
  }
}
