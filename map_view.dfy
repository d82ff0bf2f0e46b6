/**
 * The map's click handler: it copies the clicked feature's properties, turns
 * the two concatenated price blobs and a string `amenities` field into
 * objects, remembers the feature id `AreaName + '_' + ZoneIndex` and hands
 * the normalised properties on as the selected area. Every feature whose own
 * AreaName and ZoneIndex give that id is then drawn highlighted.
 */
module MapView {
  import opened Wrappers
  import opened Js
  import opened ConcatJson

  /** `AreaName + '_' + ZoneIndex` */
  function FeatureId(area: Value, zone: Value, fmt: real -> string): string {
    ToJsString(area, fmt) + "_" + ToJsString(zone, fmt)
  }

  /** The style installed when the map has loaded: `getFeatureId(feature) ===
      selectedFeatureId`. A data-layer feature always has `getId`, so
      `getFeatureId` answers the library's id (a number, a string or
      `undefined`), and `selectedFeatureId` is the state as the load effect
      saw it. */
  predicate LoadStyleSelected(id: Value, selectedFeatureId: Option<string>) {
    match selectedFeatureId
    case None => id == Null
    case Some(s) => id == Str(s)
  }

  /** The load effect runs once, on mount, while the map view is as its
      constructor left it; the style it installs then highlights no feature,
      since a library id is never `null`. Only the click handler's restyle
      highlights anything. */
  lemma LoadStyleHighlightsNothing(m: MapView, id: Value)
    requires m.selectedFeatureId == None
    requires id.Num? || id.Str? || id.Undefined?
    ensures !LoadStyleSelected(id, m.selectedFeatureId)
  {
  }

  /** The style the click installs: highlighted when the feature's own id is the clicked one. */
  predicate IsSelected(props: JsObject, featureId: string, fmt: real -> string) {
    FeatureId(Get(props, "AreaName"), Get(props, "ZoneIndex"), fmt) == featureId
  }

  /** `props.amenities` after the handler: a non-empty string becomes its
      parse, or `{}` when the parse throws. */
  function NormalizeAmenities(v: Value, parse: Parser): (r: Value)
    ensures !(v.Str? && v.s != "") ==> r == v
    ensures v.Str? && v.s != "" ==> r == parse(v.s).GetOr(Obj(Empty))
  {
    if Truthy(v) && v.Str? then parse(v.s).GetOr(Obj(Empty)) else v
  }

  /** `props.k = f(props.k)`, done only when the field holds a non-empty string. */
  function ReplaceIfString(props: JsObject, k: string, v: Value): JsObject {
    var cur := Get(props, k);
    if Truthy(cur) && cur.Str? then Set(props, k, v) else props
  }

  /** The property bag the click handler passes to `setSelectedArea`. */
  function NormalizedProps(props: JsObject, parse: Parser): (r: JsObject)
    ensures KeysOf(r) == KeysOf(props)
    ensures Get(r, "ActualPrice") == NormalizePriceField(Get(props, "ActualPrice"), parse)
    ensures Get(r, "PredictPrice") == NormalizePriceField(Get(props, "PredictPrice"), parse)
    ensures Get(r, "amenities") == NormalizeAmenities(Get(props, "amenities"), parse)
    ensures forall k :: k != "ActualPrice" && k != "PredictPrice" && k != "amenities" ==>
      Get(r, k) == Get(props, k)
  {
    var p1 := ReplaceIfString(props, "ActualPrice", NormalizePriceField(Get(props, "ActualPrice"), parse));
    var p2 := ReplaceIfString(p1, "PredictPrice", NormalizePriceField(Get(p1, "PredictPrice"), parse));
    var p3 := ReplaceIfString(p2, "amenities", NormalizeAmenities(Get(p2, "amenities"), parse));
    ReplaceKeepsOthers(props, "ActualPrice", NormalizePriceField(Get(props, "ActualPrice"), parse));
    ReplaceKeepsOthers(p1, "PredictPrice", NormalizePriceField(Get(p1, "PredictPrice"), parse));
    ReplaceKeepsOthers(p2, "amenities", NormalizeAmenities(Get(p2, "amenities"), parse));
    p3
  }

  /** Replacing a present, non-index key keeps the key list and every other value. */
  lemma ReplaceKeepsOthers(props: JsObject, k: string, v: Value)
    requires !IsIndexKey(k)
    ensures var r := ReplaceIfString(props, k, v);
      && KeysOf(r) == KeysOf(props)
      && Get(r, k) == (if Truthy(Get(props, k)) && Get(props, k).Str? then v else Get(props, k))
      && forall y :: y != k ==> Get(r, y) == Get(props, y)
  {
    forall y {
      LookupPut(props.entries, k, v, y);
    }
    var cur := Get(props, k);
    if Truthy(cur) && cur.Str? {
      if k !in KeysOf(props) {
        LookupAbsent(props.entries, k);
      }
      PutPresentKeepsKeys(props.entries, k, v);
    }
  }

  lemma {:induction false} PutPresentKeepsKeys(es: Entries, k: string, v: Value)
    requires !IsIndexKey(k) && k in Keys(es)
    ensures Keys(Put(es, k, v)) == Keys(es)
  {
    assert Keys(es) == [es[0].0] + Keys(es[1..]);
    if es[0].0 != k {
      PutPresentKeepsKeys(es[1..], k, v);
    }
  }

  /** The map view's own state: the id of the highlighted feature. */
  class MapView {
    const parse: Parser
    const fmt: real -> string
    var selectedFeatureId: Option<string>

    constructor (parse: Parser, fmt: real -> string)
      ensures this.parse == parse && this.fmt == fmt
      ensures selectedFeatureId == None
      ensures forall id: Value :: !id.Null? ==> !LoadStyleSelected(id, selectedFeatureId)
    {
      this.parse := parse;
      this.fmt := fmt;
      selectedFeatureId := None;
    }

    /** The `click` listener: returns what it passes to `setSelectedArea`. */
    method OnFeatureClick(feature: JsObject) returns (area: JsObject)
      modifies this
      ensures area == NormalizedProps(feature, parse)
      ensures selectedFeatureId ==
        Some(FeatureId(Get(feature, "AreaName"), Get(feature, "ZoneIndex"), fmt))
    {
      var props := feature;
      var actual := Get(props, "ActualPrice");
      if Truthy(actual) && actual.Str? {
        var merged := MergeParts(SplitOn(MarkBoundaries(actual.s), '|'), parse);
        MergeOrdered(Fragments(actual.s), parse);
        props := Set(props, "ActualPrice", Obj(merged.GetOr(Empty)));
      }
      var predicted := Get(props, "PredictPrice");
      if Truthy(predicted) && predicted.Str? {
        var merged := MergeParts(SplitOn(MarkBoundaries(predicted.s), '|'), parse);
        MergeOrdered(Fragments(predicted.s), parse);
        props := Set(props, "PredictPrice", Obj(merged.GetOr(Empty)));
      }
      var amenities := Get(props, "amenities");
      if Truthy(amenities) && amenities.Str? {
        var parsed := parse(amenities.s);
        props := Set(props, "amenities", if parsed.Some? then parsed.value else Obj(Empty));
      }
      var featureId := FeatureId(Get(feature, "AreaName"), Get(feature, "ZoneIndex"), fmt);
      selectedFeatureId := Some(featureId);
      area := props;
    }
  }

  // ---------------------------------------------------------------------------
  // What the feature id identifies

  /** `x + "_" + y` splits back at its last underscore. */
  lemma {:induction false} SplitAtLastUnderscore(x1: string, y1: string, x2: string, y2: string)
    requires '_' !in y1 && '_' !in y2
    requires x1 + "_" + y1 == x2 + "_" + y2
    ensures x1 == x2 && y1 == y2
  {
    var w := x1 + "_" + y1;
    assert w == x2 + "_" + y2;
    forall i | |x1| < i < |w|
      ensures w[i] != '_'
    {
      assert w[i] == y1[i - |x1| - 1];
    }
    forall i | |x2| < i < |w|
      ensures w[i] != '_'
    {
      assert w[i] == y2[i - |x2| - 1];
    }
    assert w[|x1|] == '_' && w[|x2|] == '_';
    assert x1 == w[..|x1|] == x2;
    assert y1 == w[|x1| + 1..] == y2;
  }

  /** When neither zone string contains an underscore, equal ids mean equal
      AreaName strings and equal ZoneIndex strings. */
  lemma FeatureIdDeterminesAreaAndZone(a1: Value, z1: Value, a2: Value, z2: Value, fmt: real -> string)
    requires '_' !in ToJsString(z1, fmt) && '_' !in ToJsString(z2, fmt)
    requires FeatureId(a1, z1, fmt) == FeatureId(a2, z2, fmt)
    ensures ToJsString(a1, fmt) == ToJsString(a2, fmt)
    ensures ToJsString(z1, fmt) == ToJsString(z2, fmt)
  {
    SplitAtLastUnderscore(ToJsString(a1, fmt), ToJsString(z1, fmt), ToJsString(a2, fmt), ToJsString(z2, fmt));
  }

  /** A whole-number zone index below 10^21 in magnitude. */
  predicate IsIntegerZone(z: Value) {
    z.Num? && z.n == z.n.Floor as real && -ExponentBound < z.n < ExponentBound
  }

  /** `String(i)` for a whole number `i`. */
  function IntegerString(i: int): string {
    if i < 0 then "-" + DecimalString(-i) else DecimalString(i)
  }

  /** A whole number's decimal form has no underscore and determines the number. */
  lemma IntegerStringInjective(a: int, b: int)
    ensures '_' !in IntegerString(a)
    ensures IntegerString(a) == IntegerString(b) ==> a == b
  {
    var da := if a < 0 then DecimalString(-a) else DecimalString(a);
    var db := if b < 0 then DecimalString(-b) else DecimalString(b);
    if IntegerString(a) == IntegerString(b) && a < 0 && b < 0 {
      assert da == IntegerString(a)[1..] == IntegerString(b)[1..] == db;
    }
  }

  /** The decimal form of a whole-number zone index has no underscore and
      determines the number. */
  lemma IntegerZoneString(z1: Value, z2: Value, fmt: real -> string)
    requires IsIntegerZone(z1) && IsIntegerZone(z2)
    ensures '_' !in ToJsString(z1, fmt)
    ensures ToJsString(z1, fmt) == ToJsString(z2, fmt) ==> z1 == z2
  {
    IntegerZoneText(z1, fmt);
    IntegerZoneText(z2, fmt);
    IntegerStringInjective(z1.n.Floor, z2.n.Floor);
  }

  /** A whole-number zone is written without going through `fmt`. */
  lemma IntegerZoneText(z: Value, fmt: real -> string)
    requires IsIntegerZone(z)
    ensures ToJsString(z, fmt) == IntegerString(z.n.Floor)
  {
  }

  /** With whole-number zone indexes, the click on one feature highlights
      exactly the features with the same AreaName string and the same
      ZoneIndex. */
  lemma SelectionMatchesAreaAndZone(clicked: JsObject, other: JsObject, fmt: real -> string)
    requires IsIntegerZone(Get(clicked, "ZoneIndex")) && IsIntegerZone(Get(other, "ZoneIndex"))
    ensures IsSelected(other, FeatureId(Get(clicked, "AreaName"), Get(clicked, "ZoneIndex"), fmt), fmt) <==>
      ToJsString(Get(other, "AreaName"), fmt) == ToJsString(Get(clicked, "AreaName"), fmt) &&
      Get(other, "ZoneIndex") == Get(clicked, "ZoneIndex")
  {
    var a1, z1 := Get(other, "AreaName"), Get(other, "ZoneIndex");
    var a2, z2 := Get(clicked, "AreaName"), Get(clicked, "ZoneIndex");
    IntegerZoneString(z1, z2, fmt);
    IntegerZoneString(z2, z1, fmt);
    if FeatureId(a1, z1, fmt) == FeatureId(a2, z2, fmt) {
      FeatureIdDeterminesAreaAndZone(a1, z1, a2, z2, fmt);
    }
  }
}
