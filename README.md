# GeoDashboard forecast core in Dafny

GeoDashboard is a map dashboard of housing prices. A user clicks an area on a
Google map. The click handler normalises the area's GeoJSON properties, and
the main part of that work is merging the "concatenated JSON" price blobs
(`{...}{...}`) into one dictionary per housing type. The dashboard keeps the
selected area, the housing type, the amenity counters and three price series:
actual, backend forecast and predicted. It sends forecast requests to a
`/predict` handler and draws the three series on one line chart with a shared
year axis. The handler has two versions: a serverless function
(`api/predict.py`) and a FastAPI backend (`backend/main.py`). Both turn the
known prices and the amenity counts into a five-year forecast.

This project models that core:

- `Js`: the JavaScript values the front end handles. Plain objects keep
  their own keys in `Object.keys` order, so integer-like keys come first in
  numeric order and the other keys follow in insertion order. The module also
  has the string and number coercions that `+`, `||` and `Math.max` use.
- `ConcatJson`: the `}{` → `}|{` rewrite, the split on `|`, and the
  fragment-by-fragment merge with its all-or-nothing failure.
- `MapView`: the feature id and the click listener. The listener is a
  class whose state is the selected feature id.
- `Dashboard`: the state of `App.js` as a class. It holds the amenity
  reset effect, the `+`/`-` counter handler, the series effects, the
  automatic and manual forecast requests, and the Reset button.
- `ForecastChart`: the label set, its sort, and the alignment of each
  series on the labels.
- `HousingTypeDropdown`: the options of the housing-type select.
- `PyRequest`, `PredictApi`, `BackendPredict`: the request the handlers
  read, the two handlers as functions, and their loops as methods proved
  equal to those functions.

`JSON.parse` and number formatting are parameters (`parse`, `fmt`). The
CSV row lookup and the trained model are parameters of the handlers (`row`,
`model`).

## Model

| member | source | states |
|---|---|---|
| Js.Put | geodashboard/src/components/MapView.jsx:89 | after a write the key reads the written value, and the entry list grows by at most one |
| Js.Remove | geodashboard/src/App.js:319 | after `delete` the key reads `undefined`, and the entry list does not grow |
| Js.KeysPut | geodashboard/src/components/MapView.jsx:88-90 | writing a key leaves exactly the old keys plus that key |
| Js.KeysRemove | geodashboard/src/App.js:319 | `delete` leaves exactly the old keys minus that key |
| Js.PutOrdered | geodashboard/src/components/MapView.jsx:88-90 | a write keeps the own-key order invariant: index keys first, ascending, and no key twice |
| Js.RemoveOrdered | geodashboard/src/App.js:319 | `delete` keeps the own-key order invariant |
| Js.LookupPut | geodashboard/src/components/MapView.jsx:89 | reading after a write gives the written value for that key and the old value for every other key |
| Js.LookupRemove | geodashboard/src/App.js:319 | after `delete` the key reads `undefined` and every other key reads as before |
| Js.RemovePutAbsent | geodashboard/src/App.js:316-319 | writing a fresh key and then deleting it restores the object exactly, key order included |
| Js.PutPut | geodashboard/src/components/MapView.jsx:88-90 | a second write to the same key overwrites the first and leaves the key in its place |
| Js.PutExisting | geodashboard/src/App.js:313-316 | writing back a key's own value changes nothing, key order included |
| Js.LastKeyIsLargest | geodashboard/src/App.js:119-121 | in an object whose keys are all index keys, the last key is the numerically largest |
| Js.DecimalStringOfDigits | geodashboard/src/App.js:119-122 | a canonical digit string is the decimal spelling of its value, so year keys and year numbers correspond one-to-one |
| Js.OwnEntries | geodashboard/src/components/HousingTypeDropdown.jsx:6 | `Object.keys` throws only on `undefined` and `null` |
| Js.ToNumber | geodashboard/src/App.js:314-318 | numeric coercion yields a number or NaN; strings other than "" and plain digits give NaN |
| Js.MaxWithZero | geodashboard/src/App.js:318 | `Math.max(0, x)` is never negative, and it is NaN exactly when x is NaN |
| ConcatJson.IndexOf | geodashboard/src/components/MapView.jsx:84 | the result is the first position of the separator, or None when the separator is absent |
| ConcatJson.FirstBoundary | geodashboard/src/components/MapView.jsx:84 | the result is a position where `}` is followed by `{` |
| ConcatJson.MarkBoundaries | geodashboard/src/components/MapView.jsx:84 | the rewrite adds exactly one character per `}{` boundary |
| ConcatJson.SplitOn | geodashboard/src/components/MapView.jsx:84 | no piece contains the separator |
| ConcatJson.Fragments | geodashboard/src/components/MapView.jsx:84 | there is at least one fragment, and no fragment contains a bar |
| ConcatJson.MarkWithoutBoundary | geodashboard/src/components/MapView.jsx:84 | the rewrite leaves a blob without `}{` unchanged |
| ConcatJson.MarkAtFirstBoundary | geodashboard/src/components/MapView.jsx:84 | the rewrite inserts a bar at the first `}{` and carries on after it |
| ConcatJson.FragmentsArePieces | geodashboard/src/components/MapView.jsx:84 | in a blob without bars, the replace-then-split fragments are the cuts between each `}` and the `{` after it |
| ConcatJson.FragmentsConcatenate | geodashboard/src/components/MapView.jsx:84 | in a blob without bars, joining the fragments gives back the blob, so no character is lost or added |
| ConcatJson.PiecesConcatenate | geodashboard/src/components/MapView.jsx:84 | joining the cuts gives back the string |
| ConcatJson.FragmentCount | geodashboard/src/components/MapView.jsx:84 | in a blob without bars, there is one fragment more than there are `}{` boundaries |
| ConcatJson.PieceCount | geodashboard/src/components/MapView.jsx:84 | there is one cut more than there are boundaries |
| ConcatJson.FragmentShape | geodashboard/src/components/MapView.jsx:84 | every fragment but the last ends in `}`, and every fragment but the first starts with `{` |
| ConcatJson.MergeParts | geodashboard/src/components/MapView.jsx:85-92 | the `forEach` merge loop computes the merged object, or fails at the first fragment that does not parse |
| ConcatJson.NormalizePriceField | geodashboard/src/components/MapView.jsx:81-96 | only a non-empty string is replaced: by the merged object of its fragments when every fragment parses, and by `{}` when any fragment fails; anything else is kept |
| ConcatJson.MergeFragments | geodashboard/src/components/MapView.jsx:85-95 | the merge gives a well-formed object, and fails exactly when some fragment fails to parse |
| ConcatJson.MergeOrdered | geodashboard/src/components/MapView.jsx:85-92 | the merged dictionary is a well-formed object |
| ConcatJson.MergeFailsIffSomeFragmentFails | geodashboard/src/components/MapView.jsx:86-95 | the merge fails exactly when some fragment fails to parse, so there is no partial result |
| ConcatJson.LookupWriteAll | geodashboard/src/components/MapView.jsx:88-90 | after copying a fragment's keys, a key holds its last value in the fragment if it has one there, else its previous value |
| ConcatJson.MergeLastFragmentWins | geodashboard/src/components/MapView.jsx:85-92 | when every fragment parses, each housing type holds its value from the last fragment that has it, and other keys are absent |
| MapView.LoadStyleHighlightsNothing | geodashboard/src/components/MapView.jsx:51-58 | for a map view as its constructor leaves it (no feature id selected, as `useState(null)` at line 12 gives; the effect runs once, line 149), the style installed at load highlights no feature, since a library id is never `null` |
| MapView.NormalizeAmenities | geodashboard/src/components/MapView.jsx:115-121 | a non-empty amenities string becomes its parse, or `{}` when it does not parse; any other value is kept |
| MapView.NormalizedProps | geodashboard/src/components/MapView.jsx:76-121 | the props keep their keys; ActualPrice and PredictPrice are normalised as blobs, amenities as one JSON text, and every other property is unchanged |
| MapView.ReplaceKeepsOthers | geodashboard/src/components/MapView.jsx:92 | replacing one property leaves the key list and all other properties as they were |
| MapView.PutPresentKeepsKeys | geodashboard/src/components/MapView.jsx:92 | assigning to an existing property keeps the key order |
| MapView.MapView.constructor | geodashboard/src/components/MapView.jsx:12 | nothing is selected at first, so the selection matches no feature with a non-null id |
| MapView.MapView.OnFeatureClick | geodashboard/src/components/MapView.jsx:75-139 | the area handed to the dashboard is the normalised props, and the selected id becomes `AreaName + '_' + ZoneIndex` |
| MapView.SplitAtLastUnderscore | geodashboard/src/components/MapView.jsx:125 | two ids joined by `_` with no `_` on the right-hand side are equal only if both halves are equal |
| MapView.FeatureIdDeterminesAreaAndZone | geodashboard/src/components/MapView.jsx:125-130 | equal feature ids with an underscore-free zone mean equal area strings and equal zone strings |
| MapView.IntegerStringInjective | geodashboard/src/components/MapView.jsx:125 | integer spellings contain no `_` and differ for different integers |
| MapView.IntegerZoneString | geodashboard/src/components/MapView.jsx:125 | two integer zones with the same string form are the same zone |
| MapView.SelectionMatchesAreaAndZone | geodashboard/src/components/MapView.jsx:129-131 | with integer zones, the restyle highlights exactly the features with the clicked area's name string and zone |
| ForecastChart.LexIrreflexive | geodashboard/src/components/ForecastChart.jsx:29 | the label order is irreflexive |
| ForecastChart.LexTotal | geodashboard/src/components/ForecastChart.jsx:29 | the label order is total |
| ForecastChart.LexAsymmetric | geodashboard/src/components/ForecastChart.jsx:29 | the label order is asymmetric |
| ForecastChart.LexTransitive | geodashboard/src/components/ForecastChart.jsx:29 | the label order is transitive |
| ForecastChart.StrictlySortedIsDistinct | geodashboard/src/components/ForecastChart.jsx:24-29 | a strictly sorted label list has no duplicates |
| ForecastChart.Insert | geodashboard/src/components/ForecastChart.jsx:29 | inserting into a sorted distinct list keeps it sorted, and the result is the old list plus the new label |
| ForecastChart.SortDistinct | geodashboard/src/components/ForecastChart.jsx:29 | sorting distinct labels gives a strictly sorted permutation of them |
| ForecastChart.YearsOf | geodashboard/src/components/ForecastChart.jsx:24-28 | the years of a series, in order; none for an absent series |
| ForecastChart.Dedup | geodashboard/src/components/ForecastChart.jsx:24-28 | the Set keeps each year once and loses none |
| ForecastChart.Labels | geodashboard/src/components/ForecastChart.jsx:24-29 | the labels are sorted, distinct, and exactly the years of the three series |
| ForecastChart.SortedLabelsUnique | geodashboard/src/components/ForecastChart.jsx:24-29 | two strictly sorted lists with the same members are equal |
| ForecastChart.LabelsCharacterised | geodashboard/src/components/ForecastChart.jsx:24-29 | any strictly sorted list holding exactly the series' years is the label list |
| ForecastChart.FromEntriesMissing | geodashboard/src/components/ForecastChart.jsx:34 | a year absent from the series is absent from its dictionary |
| ForecastChart.FromEntriesLastWins | geodashboard/src/components/ForecastChart.jsx:34 | for a repeated year, the dictionary holds the price of its last point |
| ForecastChart.Align | geodashboard/src/components/ForecastChart.jsx:32-36 | one cell per label, all null for an absent series |
| ForecastChart.AlignCellMissing | geodashboard/src/components/ForecastChart.jsx:35 | a label the series lacks gets a null cell |
| ForecastChart.AlignCellLastWins | geodashboard/src/components/ForecastChart.jsx:34-35 | a label the series has gets the price of its last point for that year, with undefined shown as null |
| ForecastChart.AlignInventsNothing | geodashboard/src/components/ForecastChart.jsx:32-36 | every cell is null or the price of some point of that year |
| ForecastChart.LastIndexOf | geodashboard/src/components/ForecastChart.jsx:34 | the result is the last position holding the year |
| ForecastChart.DatasetFor | geodashboard/src/components/ForecastChart.jsx:42-71 | a non-empty series gives one dataset with its legend and one cell per label; an empty one gives none |
| ForecastChart.Render | geodashboard/src/components/ForecastChart.jsx:19-71 | "No forecast data" exactly when all three series are empty; otherwise the shared labels and the datasets of Actual, Forecast and Predict in that order |
| ForecastChart.RenderedDatasets | geodashboard/src/components/ForecastChart.jsx:42-71 | one dataset per non-empty series; Actual first, Predict last, Forecast between them, each aligned on the labels |
| ForecastChart.EveryYearLabelled | geodashboard/src/components/ForecastChart.jsx:24-29 | every point's year of every series appears on the axis |
| HousingTypeDropdown.ObjectKeys | geodashboard/src/components/HousingTypeDropdown.jsx:6 | the keys of an object value; a number or boolean has none |
| HousingTypeDropdown.Options | geodashboard/src/components/HousingTypeDropdown.jsx:5-7 | the fallback list without an area or a truthy ActualPrice; otherwise the ActualPrice keys |
| HousingTypeDropdown.Render | geodashboard/src/components/HousingTypeDropdown.jsx:9-11 | definition, not a property: the select shows the current housing type and the options |
| HousingTypeDropdown.OnChange | geodashboard/src/components/HousingTypeDropdown.jsx:9 | definition, not a property: the chosen value becomes the housing type unchanged |
| HousingTypeDropdown.EmptyActualPriceHasNoOptions | geodashboard/src/components/HousingTypeDropdown.jsx:5-7 | the `{}` left by a failed blob gives no options, not the fallback list |
| HousingTypeDropdown.UnparsableBlobEmptiesDropdown | geodashboard/src/components/MapView.jsx:93-95 | after a click on an area whose ActualPrice blob has a bad fragment, the dropdown is empty |
| Dashboard.Or | geodashboard/src/App.js:100 | definition, not a property: the logical-or default is v when v is truthy, else d |
| Dashboard.AreaProp | geodashboard/src/App.js:108 | definition, not a property: `selectedArea?.k`, which is undefined without an area |
| Dashboard.AmenityValue | geodashboard/src/App.js:35 | the area's count when defined, else 0, and 0 without an area |
| Dashboard.DefaultsForShape | geodashboard/src/App.js:32-36 | the defaults have exactly the amenity keys in order, each with its count, and nothing else |
| Dashboard.DefaultsForStep | geodashboard/src/App.js:33-36 | one turn of the `forEach` adds the next amenity's count |
| Dashboard.AmenityDefaults | geodashboard/src/App.js:27-44 | the reset amenities have the twelve amenity keys in order, each with the area's count or 0, and no other key |
| Dashboard.FillDefaults | geodashboard/src/App.js:32-36 | the `forEach` loop builds the reset amenities |
| Dashboard.AmenityUpdate | geodashboard/src/App.js:311-322 | `+` sets the counter to one more than its value or 0; after `-` the counter is never 0; any other delta changes nothing |
| Dashboard.AmenityUpdateEffect | geodashboard/src/App.js:311-322 | `+` sets the counter to one more, `-` to one less but not below 0 and deletes it at 0, and other counters are untouched |
| Dashboard.DecrementNeverNegative | geodashboard/src/App.js:318 | after `-` a counter is a positive number, NaN or absent |
| Dashboard.IncrementThenDecrementAbsent | geodashboard/src/App.js:311-322 | `+` then `-` on an absent counter restores the amenities exactly |
| Dashboard.IncrementThenDecrementPositive | geodashboard/src/App.js:311-322 | `+` then `-` on a positive numeric counter restores the amenities exactly |
| Dashboard.EntriesToPoints | geodashboard/src/App.js:53 | definition, not a property: one `{year, price}` point per entry, in entry order |
| Dashboard.ActualSeries | geodashboard/src/App.js:47-60 | no actual series without an area or a housing type |
| Dashboard.PredictSeries | geodashboard/src/App.js:63-93 | no predicted series without an area or a housing type |
| Dashboard.SeriesFrom | geodashboard/src/App.js:49-59 | no points without a truthy container or housing type |
| Dashboard.ParsedPredictPrice | geodashboard/src/App.js:63-70 | a non-empty PredictPrice string becomes its parse when that succeeds and `{}` when it throws; other values are kept |
| Dashboard.SeriesOfObject | geodashboard/src/App.js:50-54 | the series is the type's dictionary as points in key order |
| Dashboard.SeriesOfMissingType | geodashboard/src/App.js:55-57 | a missing housing type gives an empty series |
| Dashboard.UnparsablePredictPrice | geodashboard/src/App.js:64-69 | a PredictPrice string that does not parse gives no predicted series |
| Dashboard.ReplyForecast | geodashboard/src/App.js:133-137 | definition, not a property: a reply's forecast, or empty when the forecast is missing or the request fails |
| Dashboard.LatestPrediction | geodashboard/src/App.js:116-124 | at most one year is sent |
| Dashboard.LatestPredictionIsLatestYear | geodashboard/src/App.js:116-124 | for year-keyed dictionaries, the one year sent is the numerically latest, with its price; nothing is sent for an empty dictionary |
| Dashboard.LatestPredictionSendsLastKey | geodashboard/src/App.js:119-122 | the entry sent is the last key of the dictionary with its value |
| Dashboard.LatestPredictionOfMissingType | geodashboard/src/App.js:117 | nothing is sent when the type has no predicted dictionary |
| Dashboard.AutoRequest | geodashboard/src/App.js:97-132 | a request exactly when an area and a housing type are chosen; zone defaults to 0, the area is named by `Area`, the actual prices are sent, predict_price is the latest prediction of the type, and rooms_en and the amenity counter are the state's |
| Dashboard.ManualRequest | geodashboard/src/App.js:190-213 | a request exactly when an area and a housing type are chosen; zone defaults to 0, the area is named by `AreaName`, there are no actual prices, predict_price is the type's dictionary when both it and the parsed PredictPrice are truthy and `{}` otherwise, and rooms_en and the amenity counter are the state's |
| Dashboard.RequestsReadDifferentAreaFields | geodashboard/src/App.js:127 | when `Area` and `AreaName` differ, the two requests name the area differently |
| Dashboard.Continuity | geodashboard/src/App.js:214-224 | the reply comes back unchanged or with exactly one point added in front |
| Dashboard.ContinuityShape | geodashboard/src/App.js:214-224 | the reply is kept, with at most one point added in front; afterwards the latest predicted year is always present, and the added point is that year's predicted price |
| Dashboard.Dashboard.constructor | geodashboard/src/App.js:27-44 | no area, housing type "1 B/R", no amenities, empty series |
| Dashboard.Dashboard.SelectArea | geodashboard/src/components/MapView.jsx:127 | only the selected area changes |
| Dashboard.Dashboard.ChooseHousingType | geodashboard/src/components/HousingTypeDropdown.jsx:9 | only the housing type changes |
| Dashboard.Dashboard.ResetAmenities | geodashboard/src/App.js:27-44 | the amenities become the selected area's defaults, and nothing else changes |
| Dashboard.Dashboard.ChangeAmenity | geodashboard/src/App.js:311-322 | only the amenities change, by the counter update |
| Dashboard.Dashboard.RefreshSeries | geodashboard/src/App.js:47-94 | the actual and predicted series are recomputed from the area and housing type, and nothing else changes |
| Dashboard.Dashboard.AutoForecast | geodashboard/src/App.js:97-141 | the request sent is the automatic one, and the forecast series is the reply's forecast, or empty when nothing is sent |
| Dashboard.Dashboard.Reset | geodashboard/src/App.js:177-183 | the handler itself clears area, amenities, actual and forecast series and restores "1 B/R"; it leaves the predicted series to the series effect, when that effect re-runs |
| Dashboard.Dashboard.ResetAndSettle | geodashboard/src/App.js:27-183 | after Reset and the effects whose dependencies it changes: no area, "1 B/R", empty actual and forecast series; from a selected area every amenity is 0; with no area before, the amenities stay `{}`; the predicted series is emptied and the chart shows "No forecast data" unless nothing was selected and the type was already "1 B/R", when the predicted series is kept |
| Dashboard.Dashboard.ManualForecast | geodashboard/src/App.js:190-229 | the request sent is the manual one; the forecast series is left alone without a request, is emptied on failure, and otherwise is the reply merged for continuity |
| Dashboard.NoAreaNothingToShow | geodashboard/src/App.js:38-99 | without an area both series are empty, no request is sent, every amenity default is 0, and three empty series render as "No forecast data" |
| PyRequest.DigitKeys | api/predict.py:64 | a key is kept exactly when it is all digits, and only all-digit keys are kept |
| PyRequest.DigitKeysAppend | api/predict.py:64 | a new last entry adds its key at the end exactly when it is all digits, so the keys keep dict order |
| PyRequest.DigitKeysOfDigitDict | api/predict.py:64 | when every key is all digits, the kept keys are the dict's keys, position by position |
| PyRequest.DigitYears | api/predict.py:64 | the value of each all-digit key |
| PyRequest.PricesFor | api/predict.py:65 | the prices succeed exactly when every year's spelling is a key with a number |
| PyRequest.PriceAtIndex | api/predict.py:65 | with distinct keys, a key reads its own price |
| PyRequest.PricesOfReadable | api/predict.py:64-65 | with canonical year keys, each year spells back to its key and the prices are read |
| PyRequest.PricesForEach | api/predict.py:65 | each price read is the one under its year's spelling |
| PyRequest.LeadingZeroYearRaises | api/predict.py:64-65 | a year key "02024" makes the price comprehension raise |
| PyRequest.MaxYear | api/predict.py:70 | `max` is a member and at least every year |
| PyRequest.AmenitiesSum | api/predict.py:86 | the sum exists exactly when every count is a number |
| PyRequest.AmenitiesSumAppend | api/predict.py:86 | a new last count adds its value to the sum, and a non-number makes it raise |
| PyRequest.AmenitiesSumZero | backend/main.py:116-118 | as `sum(amenities.values())` here and at line 86 of `api/predict.py`, non-negative counts sum to a non-negative number, and to 0 exactly when every count is 0 |
| PyRequest.WeightOf | api/predict.py:79-84 | a name has a weight exactly when it is in the weight table |
| PyRequest.WeightIn | api/predict.py:79-84 | a name's weight, if any, is an entry of the table |
| PyRequest.LowerChar | api/predict.py:95 | ASCII capitals go to lower case, and other characters stay |
| PyRequest.Lower | api/predict.py:95 | `lower()` works character by character |
| PyRequest.Clamp | api/predict.py:100 | `np.clip` stays in the range and is the identity inside it |
| PyRequest.Numbers | api/predict.py:94-97 | the counts as numbers, key by key |
| PyRequest.Prepend | api/predict.py:76 | appending to the forecasts fails exactly when the rest fails |
| PyRequest.PrependAppend | api/predict.py:113 | appending one point then the rest is appending the rest after that point |
| PredictApi.LastYearAndPrice | api/predict.py:69-74 | definition, not a property: the latest predicted year with the last predicted price, else the latest actual year with the last actual price, else (2024, 1,000,000); its properties are proved in `PredictApi.StartChoice` |
| PredictApi.Weighted | api/predict.py:94-98 | the entries kept all have a weight |
| PredictApi.AdjustmentOfWeightedOnly | api/predict.py:94-98 | entries without a weight add nothing to the adjustment |
| PredictApi.WeightedScore | api/predict.py:100 | the score lies in [0, 1] and equals the raw sum when that already does |
| PredictApi.Steps | api/predict.py:103-113 | a finished loop has one point per remaining year, and it always finishes without a model |
| PredictApi.StepsYears | api/predict.py:103-113 | the loop's points have consecutive years after `last_year` |
| PredictApi.StepsWithoutModel | api/predict.py:110-112 | without a model no step fails, and each price is the previous one times `1.025 + weighted_score` |
| PredictApi.Start | api/predict.py:60-74 | the starting point exists exactly when both dicts' prices can be read |
| PredictApi.StartChoice | api/predict.py:69-74 | `last_year` is the maximum of the chosen dict's years, `last_price` is the price under its last year key, and the defaults apply without years |
| PredictApi.Score | api/predict.py:92-100 | the score is in [0, 1] |
| PredictApi.PredictReply | api/predict.py:58-118 | unreadable prices or a non-numeric count give an error; without a model, readable input always gives a forecast |
| PredictApi.ForecastShape | api/predict.py:76-115 | a forecast is six points: `(last_year, last_price)` followed by the five years after it |
| PredictApi.ReplyPoints | api/predict.py:76-115 | a forecast is the starting point followed by the loop's points |
| PredictApi.NoModelAlwaysForecasts | api/predict.py:103-115 | without a model, readable prices and numeric counts always give a forecast of compound growth |
| PredictApi.LeadingZeroYearIsError | api/predict.py:64-65 | a "02024" year key makes the handler answer with an error |
| PredictApi.Extend | api/predict.py:103-113 | the loop computes the loop's specification, or fails when a prediction raises |
| PredictApi.LatestPoint | api/predict.py:60-74 | the comprehensions and the choice of the latest point compute the starting point, failing when a price cannot be read |
| PredictApi.Predict | api/predict.py:58-118 | the handler computes the reply function |
| BackendPredict.MinYear | backend/main.py:57 | `min` is a member and at most every year |
| BackendPredict.OriginOf | backend/main.py:56-72 | `min_year <= max_year = last_year`, and the start is echoed exactly when some dict has a year |
| BackendPredict.Norm | backend/main.py:111 | a normalised key has no space and no underscore |
| BackendPredict.SquashRemovesSeparators | backend/main.py:111 | after the replaces there is no space or underscore |
| BackendPredict.SquashKeepsPlain | backend/main.py:114 | a name without spaces or underscores is unchanged |
| BackendPredict.AmenityWeightsArePlain | backend/main.py:94-107 | the weight names are distinct lower-case words |
| BackendPredict.MatchSum | backend/main.py:113-115 | a zero count adds nothing |
| BackendPredict.BackendAdjustment | backend/main.py:109-115 | all-zero counts give a zero adjustment |
| BackendPredict.MatchSumIsShare | backend/main.py:113-115 | with distinct plain names, the inner loop adds exactly the matching name's share |
| BackendPredict.BackendAdjustmentByEntry | backend/main.py:110-115 | the adjustment grows entry by entry |
| BackendPredict.AdjustmentsAgree | backend/main.py:109-115 | for keys without spaces or underscores, the backend adjustment equals the serverless one |
| BackendPredict.ApiAdjustment | api/predict.py:94-98 | the serverless adjustment over any weight table, equal to the real one on the real table |
| BackendPredict.AdjustmentsAgreeOver | backend/main.py:109-115 | the two adjustments agree entry by entry over any plain weight table, for keys without separators |
| BackendPredict.WeightAt | backend/main.py:94-107 | with distinct names, each name finds its own weight |
| BackendPredict.UnderscoreNameHasNoWeight | api/predict.py:95-97 | a key containing `_` has no weight in a plain table |
| BackendPredict.SquashConcat | backend/main.py:111 | the replaces work piecewise |
| BackendPredict.SingleEntryAdjustment | backend/main.py:110-115 | a single entry adds its normalised key's share |
| BackendPredict.UnderscoreKeyCountedHereOnly | backend/main.py:111 | "land_fill" counts as landfill in the backend but adds nothing in the serverless handler |
| BackendPredict.JoinedKeyCountedHereOnly | backend/main.py:111-115 | any key `a_b` whose joined form is a weight name counts in the backend only |
| BackendPredict.AdjustmentLoop | backend/main.py:109-115 | the nested loops compute the adjustment |
| BackendPredict.WeightedScore | backend/main.py:116-121 | the CSV score when the counts sum to 0; otherwise `score + adjustment` clipped to [0, 1]: itself inside, 0 below, 1 above; the unclipped adjustment without a CSV row |
| BackendPredict.UnmatchedScoreLeavesUnitRange | backend/main.py:120-121 | without a CSV row the score can be negative or above 1 |
| BackendPredict.NamedEntryAdjustment | backend/main.py:110-115 | an entry named as in the table adds `0.1 * v * weight` |
| BackendPredict.YearNorm | backend/main.py:126 | 0 when `max_year <= min_year`, otherwise non-negative, and above 1 past `max_year` |
| BackendPredict.RawPctChange | backend/main.py:128-135 | with at most one actual and one predicted price the raw rate is the 5% default |
| BackendPredict.PctChange | backend/main.py:128-137 | the rate lies in [0.05, 0.2], is 0.05 for a raw rate at or below it, and is the raw rate inside the range |
| BackendPredict.BackendSteps | backend/main.py:124-149 | a finished loop has one point per remaining year, and it always finishes without a model |
| BackendPredict.BackendStepsYears | backend/main.py:124-149 | the loop's points have consecutive years after `last_year` |
| BackendPredict.BackendStepsWithoutModel | backend/main.py:142-147 | without a model no step fails, and from a non-negative start each price is at least the previous one grown at the 5% floor |
| BackendPredict.GrowthAtLeastFloor | backend/main.py:137-146 | a rate of at least 5% grows a non-negative price at least as much as 5% does |
| BackendPredict.BackendReply | backend/main.py:44-150 | unreadable prices or a non-numeric count give an error; without a model, readable input always gives a forecast; a forecast has five or six points |
| BackendPredict.BackendForecastShape | backend/main.py:56-150 | when some dict has a year: six points, the first the same `(last_year, last_price)` the serverless handler starts from (latest year, price under the last digit key), then consecutive years; otherwise five points for 2025-2029 |
| BackendPredict.SameStartAsServerless | backend/main.py:56-72 | when some dict has a year, the backend echoes the same starting point the serverless handler starts from |
| BackendPredict.BackendExtend | backend/main.py:124-149 | the loop, appending to `forecasts` and `pred_prices`, computes the loop's specification |
| BackendPredict.BackendPredict | backend/main.py:44-150 | the handler computes the reply function |

## Left out

- `JSON.parse` is the parameter `parse`, so the model has no JSON grammar. A parse gives an object or fails.
- Number formatting is left to the parameter `fmt`.
- `Js.ToNumber`: only the empty string and plain ASCII digit strings are converted (`Js.StringToNumber`); every other string becomes NaN. JavaScript's `Number` also reads signs, decimal points, exponents and surrounding white space, so `Number("2.5")` is 2.5 and `Number("-1")` is -1. A string count such as "2.5" decremented at `geodashboard/src/App.js:317-318` is 1.5 in JavaScript and NaN in the model.
- Character handling covers ASCII digits and ASCII lower-casing only; Unicode case mapping is not modelled.
- `ForecastChart.LexLess`: the default `sort()` compares UTF-16 code units. The model compares Dafny characters, and the two orders agree outside the astral planes.
- Inherited and prototype properties of JavaScript objects are not modelled; own properties are.
- React scheduling is left out: effect ordering, batching, re-renders, and the chance that an older response arrives after a newer one. Each effect is a method that runs to completion. Only `Dashboard.Dashboard.ResetAndSettle` decides which effects re-run, by comparing dependencies as React does; after the other handlers, the caller picks the effect methods to run.
- The HTTP round trip is a `Response` value passed in. The axios error path is the `Failed` response.
- `geodashboard/src/App.js:207` lacks the comma between the URL and the request body, so the file would not parse as written. The model uses the request evidently meant there.
- `PyRequest.PyPoint`: the handlers send each year as the string `str(year)` (`api/predict.py:76,113`, `backend/main.py:61,67,149`). The model keeps the year as a number. The string is `PyRequest.PyStr` of that number, and different years have different spellings (`MapView.IntegerStringInjective`), so no information is lost. A client that compares years as strings is not modelled.
- The reply forecast is taken as a list of points; a non-array `forecast` field is not modelled.
- Floating point is modelled as exact reals. Overflow, rounding and NaN in the Python handlers are not captured.
- The pandas CSV lookup is the `row` parameter. The trained model and `np.expm1` together are the `model` parameter, and a raising prediction is `None`.
- Python truthiness of a model (`if model:`) is modelled as presence.
- Dict keys and values that are not strings or numbers are not modelled.
- Logging calls and the debug `console.log` output are left out.
- `backend/main.py` has no exception handler. Any exception there is modelled as the `Error` reply, standing for the server error a client sees.
- `backend/main.py:136` says the rate is clamped to [-0.2, 0.2], but line 137 clamps it to [0.05, 0.2]. The model follows the code.
- The map plumbing is left out: loading the map and the GeoJSON, fitting bounds, styles and colours. So are the drag-and-drop panels, dark mode, the amenity icons, the sidebar, and `geodashboard/src/App.jsx`.
- The unused `years` and `weighted_score` values computed at `geodashboard/src/App.js:102-106` have no effect and are not modelled.
- `BackendPredict.BackendStepsWithoutModel` states a lower bound: each price is at least the 5%-floor growth of the one before. It needs a non-negative price and score. The exact price depends on the clamped rate, and `BackendPredict.PctChange` pins that rate down.
- `BackendPredict.SameStartAsServerless`: the two handlers echo the same starting point when some dict has a year. The lemma is stated for that case only.
