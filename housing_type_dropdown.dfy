/**
 * The housing-type picker: its options are the housing types the selected
 * area has actual prices for, or a fixed list when there is no area or no
 * ActualPrice. The select shows the current housing type as it is.
 */
module HousingTypeDropdown {
  import opened Wrappers
  import opened Js
  import ConcatJson
  import MapView

  /** The list used when no area (or no ActualPrice) is selected. */
  const FallbackTypes: seq<string> := ["1 B/R", "2 B/R", "3 B/R", "4 B/R", "5 B/R", "Studio"]

  /** `Object.keys(v)` for a value that is neither undefined nor null. */
  function ObjectKeys(v: Value): (ks: seq<string>)
    requires !v.Undefined? && !v.Null?
    ensures v.Obj? ==> ks == KeysOf(v.obj)
    ensures v.Num? || v.NaN? || v.Bool? ==> ks == []
  {
    Keys(OwnEntries(v).value)
  }

  /** `options` */
  function Options(selectedArea: Option<JsObject>): (r: seq<string>)
    ensures selectedArea.None? ==> r == FallbackTypes
    ensures selectedArea.Some? && !Truthy(Get(selectedArea.value, "ActualPrice")) ==> r == FallbackTypes
    ensures selectedArea.Some? && Get(selectedArea.value, "ActualPrice").Obj? ==>
      r == KeysOf(Get(selectedArea.value, "ActualPrice").obj)
  {
    match selectedArea
    case None => FallbackTypes
    case Some(area) =>
      var actual := Get(area, "ActualPrice");
      if Truthy(actual) then ObjectKeys(actual) else FallbackTypes
  }

  /** The rendered `<select>`: its value and its option list. */
  datatype Select = Select(value: string, options: seq<string>)

  /** The select shows the current housing type whether or not it is an option. */
  function Render(housingType: string, selectedArea: Option<JsObject>): (r: Select)
    ensures r.value == housingType
    ensures r.options == Options(selectedArea)
  {
    Select(housingType, Options(selectedArea))
  }

  /** `onChange`: the new housing type is the chosen option's value, unchanged. */
  function OnChange(chosen: string): (housingType: string)
    ensures housingType == chosen
  {
    chosen
  }


  /** The `{}` a failed blob parse leaves behind gives no options at all, not
      the fallback list. */
  lemma EmptyActualPriceHasNoOptions(area: JsObject)
    requires Get(area, "ActualPrice") == Obj(Empty)
    ensures Options(Some(area)) == []
  {
  }

  /** A string ActualPrice blob with a fragment that does not parse leaves the
      dropdown empty once the map click has normalised the area. */
  lemma UnparsableBlobEmptiesDropdown(feature: JsObject, parse: ConcatJson.Parser)
    requires Get(feature, "ActualPrice").Str? && Get(feature, "ActualPrice").s != ""
    requires ConcatJson.MergeFragments(ConcatJson.Fragments(Get(feature, "ActualPrice").s), parse).None?
    ensures Options(Some(MapView.NormalizedProps(feature, parse))) == []
  {
  }
}
