/**
 * The serverless `/predict` handler: it reads the latest known year and
 * price from the request's price dictionaries, scores the area's amenities,
 * and extends the series by five years, one model prediction (or growth
 * formula) per year. Every exception becomes an error reply.
 *
 * The CSV lookup is the `row` parameter: the stored weighted score of the
 * row matching the request's area, zone and room type, or `None` when no
 * row matches.
 */
module PredictApi {
  import opened Wrappers
  import opened Js
  import opened PyRequest

  const DefaultLastYear: nat := 2024
  const DefaultLastPrice: real := 1000000.0
  const PctChange: real := 0.05

  /** `last_year, last_price`: the predicted series when it has years, else
      the actual one, else the defaults. */
  function LastYearAndPrice(years: seq<nat>, prices: seq<real>, predYears: seq<nat>, predPrices: seq<real>): (r: (nat, real))
    requires |prices| == |years| && |predPrices| == |predYears|
  {
    if predYears != [] then (MaxYear(predYears), Last(predPrices))
    else if years != [] then (MaxYear(years), Last(prices))
    else (DefaultLastYear, DefaultLastPrice)
  }

  /** What one amenity entry adds: its share under its lower-cased key,
      nothing when that is not a weight name. */
  function Contribution(k: string, v: real): real {
    Share(Lower(k), v, AmenityWeights)
  }

  /** `amenity_adjustment` */
  function Adjustment(c: seq<(string, real)>): real {
    if c == [] then 0.0 else Adjustment(c[..|c| - 1]) + Contribution(c[|c| - 1].0, c[|c| - 1].1)
  }

  /** The entries whose lower-cased key is a weight name. */
  function Weighted(c: seq<(string, real)>): (r: seq<(string, real)>)
    ensures forall i :: 0 <= i < |r| ==> WeightOf(Lower(r[i].0)).Some?
  {
    if c == [] then []
    else if WeightOf(Lower(c[|c| - 1].0)).Some? then Weighted(c[..|c| - 1]) + [c[|c| - 1]]
    else Weighted(c[..|c| - 1])
  }

  /** Entries under other keys contribute nothing: the adjustment is that of
      the weighted entries alone. */
  lemma {:induction false} AdjustmentOfWeightedOnly(c: seq<(string, real)>)
    ensures Adjustment(c) == Adjustment(Weighted(c))
  {
    if c != [] {
      var init := c[..|c| - 1];
      AdjustmentOfWeightedOnly(init);
      if WeightOf(Lower(c[|c| - 1].0)).Some? {
        assert (Weighted(init) + [c[|c| - 1]])[..|Weighted(init)|] == Weighted(init);
      }
    }
  }

  /** `weighted_score`: the CSV score (0.0 without a row) plus the
      adjustment, clipped to [0, 1]. */
  function WeightedScore(row: Option<real>, adjustment: real): (r: real)
    ensures 0.0 <= r <= 1.0
    ensures 0.0 <= row.GetOr(0.0) + adjustment <= 1.0 ==> r == row.GetOr(0.0) + adjustment
  {
    Clamp(row.GetOr(0.0) + adjustment, 0.0, 1.0)
  }

  /** `last_price * (1 + pct_change * 0.5 + weighted_score)` */
  function Grown(price: real, score: real): real {
    price * (1.0 + PctChange * 0.5 + score)
  }

  /** One year's price: the model's prediction, or the previous price grown
      without a model. */
  function StepPrice(year: nat, lastPrice: real, score: real, zone: int, model: Model): Option<real> {
    match model
    case Some(predict) => predict(Features(year as real / 2030.0, score, zone, PctChange))
    case None => Some(Grown(lastPrice, score))
  }

  /** The points for `i`, ..., 5 of the loop, `None` when a prediction raises. */
  function Steps(i: nat, lastYear: nat, lastPrice: real, score: real, zone: int, model: Model): (r: Option<seq<PyPoint>>)
    requires 1 <= i <= 6
    ensures r.Some? ==> |r.value| == 6 - i
    ensures model.None? ==> r.Some?
    decreases 6 - i
  {
    if i == 6 then Some([])
    else
      match StepPrice(lastYear + i, lastPrice, score, zone, model)
      case None => None
      case Some(pred) => Prepend([PyPoint(lastYear + i, pred)], Steps(i + 1, lastYear, pred, score, zone, model))
  }

  /** The remaining points are one per year, `last_year + i` onwards. */
  lemma {:induction false} StepsYears(i: nat, lastYear: nat, lastPrice: real, score: real, zone: int, model: Model)
    requires 1 <= i <= 6
    decreases 6 - i
    ensures var r := Steps(i, lastYear, lastPrice, score, zone, model);
      r.Some? ==> |r.value| == 6 - i && forall j :: 0 <= j < |r.value| ==> r.value[j].year == lastYear + i + j
  {
    if i < 6 {
      var pred := StepPrice(lastYear + i, lastPrice, score, zone, model);
      if pred.Some? {
        StepsYears(i + 1, lastYear, pred.value, score, zone, model);
        var rest := Steps(i + 1, lastYear, pred.value, score, zone, model);
        if rest.Some? {
          var r := [PyPoint(lastYear + i, pred.value)] + rest.value;
          assert Steps(i, lastYear, lastPrice, score, zone, model) == Some(r);
          forall j | 0 < j < |r|
            ensures r[j].year == lastYear + i + j
          {
            assert r[j] == rest.value[j - 1];
          }
        }
      }
    }
  }

  /** Without a model no step fails, and each price is the previous one
      grown by `1.025 + weighted_score`. */
  lemma {:induction false} StepsWithoutModel(i: nat, lastYear: nat, lastPrice: real, score: real, zone: int)
    requires 1 <= i <= 6
    decreases 6 - i
    ensures var r := Steps(i, lastYear, lastPrice, score, zone, None);
      && r.Some?
      && |r.value| == 6 - i
      && (i < 6 ==> r.value[0].price == Grown(lastPrice, score))
      && forall j :: 0 < j < |r.value| ==> r.value[j].price == Grown(r.value[j - 1].price, score)
  {
    if i < 6 {
      var pred := Grown(lastPrice, score);
      StepsWithoutModel(i + 1, lastYear, pred, score, zone);
      var rest := Steps(i + 1, lastYear, pred, score, zone, None).value;
      var r := [PyPoint(lastYear + i, pred)] + rest;
      assert Steps(i, lastYear, lastPrice, score, zone, None) == Some(r);
      forall j | 0 < j < |r|
        ensures r[j].price == Grown(r[j - 1].price, score)
      {
        if j > 1 {
          assert r[j] == rest[j - 1] && r[j - 1] == rest[j - 2];
        }
      }
    }
  }

  /** `(last_year, last_price)`, `None` when reading either dict's prices raises. */
  function Start(req: PredictionRequest): (r: Option<(nat, real)>)
    ensures r.Some? <==> PricesOf(OrEmpty(req.actualPrice)).Some? && PricesOf(OrEmpty(req.predictPrice)).Some?
  {
    var actual, predicted := OrEmpty(req.actualPrice), OrEmpty(req.predictPrice);
    var prices, predPrices := PricesOf(actual), PricesOf(predicted);
    if prices.None? || predPrices.None? then None
    else Some(LastYearAndPrice(DigitYears(actual), prices.value, DigitYears(predicted), predPrices.value))
  }

  /** `last_year` is the latest predicted year when there is one, else the
      latest actual year, else 2024; `last_price` is the price under the last
      listed digit key of that same dict, else 1,000,000. */
  lemma StartChoice(req: PredictionRequest)
    requires Start(req).Some?
    ensures var (lastYear, lastPrice) := Start(req).value;
      var actual, predicted := OrEmpty(req.actualPrice), OrEmpty(req.predictPrice);
      var years, predYears := DigitYears(actual), DigitYears(predicted);
      && (predYears != [] ==>
            && lastYear in predYears && (forall y :: y in predYears ==> y <= lastYear)
            && Some(lastPrice) == PriceAt(predicted, PyStr(predYears[|predYears| - 1])))
      && (predYears == [] && years != [] ==>
            && lastYear in years && (forall y :: y in years ==> y <= lastYear)
            && Some(lastPrice) == PriceAt(actual, PyStr(years[|years| - 1])))
      && (predYears == [] && years == [] ==> lastYear == DefaultLastYear && lastPrice == DefaultLastPrice)
  {
    var actual, predicted := OrEmpty(req.actualPrice), OrEmpty(req.predictPrice);
    PricesForEach(actual, DigitYears(actual));
    PricesForEach(predicted, DigitYears(predicted));
  }

  /** `weighted_score` for a request whose amenity counts are all numbers. */
  function Score(req: PredictionRequest, row: Option<real>): (r: real)
    requires AmenitiesSum(req.amenities).Some?
    ensures 0.0 <= r <= 1.0
  {
    WeightedScore(row, Adjustment(Numbers(req.amenities)))
  }

  /** The handler's reply. */
  function PredictReply(req: PredictionRequest, row: Option<real>, model: Model): (r: Reply)
    ensures Start(req).None? || AmenitiesSum(req.amenities).None? ==> r == Error
    ensures model.None? && Start(req).Some? && AmenitiesSum(req.amenities).Some? ==> r.Forecast?
  {
    match Start(req)
    case None => Error
    case Some((lastYear, lastPrice)) =>
      if AmenitiesSum(req.amenities).None? then Error
      else
        match Prepend([PyPoint(lastYear, lastPrice)], Steps(1, lastYear, lastPrice, Score(req, row), req.zoneIndex, model))
        case None => Error
        case Some(points) => Forecast(points)
  }

  /** A forecast reply echoes `(last_year, last_price)` and then has one point
      for each of the five following years. */
  lemma ForecastShape(req: PredictionRequest, row: Option<real>, model: Model)
    requires PredictReply(req, row, model).Forecast?
    ensures Start(req).Some?
    ensures var points := PredictReply(req, row, model).points;
      var (lastYear, lastPrice) := Start(req).value;
      && |points| == 6
      && points[0] == PyPoint(lastYear, lastPrice)
      && forall j :: 0 <= j < 6 ==> points[j].year == lastYear + j
  {
    ReplyPoints(req, row, model);
    var (lastYear, lastPrice) := Start(req).value;
    var steps := Steps(1, lastYear, lastPrice, Score(req, row), req.zoneIndex, model);
    StepsYears(1, lastYear, lastPrice, Score(req, row), req.zoneIndex, model);
    var points := PredictReply(req, row, model).points;
    forall j | 0 < j < 6
      ensures points[j].year == lastYear + j
    {
      assert points[j] == steps.value[j - 1];
    }
  }

  /** A forecast is the starting point followed by the loop's points. */
  lemma ReplyPoints(req: PredictionRequest, row: Option<real>, model: Model)
    requires PredictReply(req, row, model).Forecast?
    ensures Start(req).Some? && AmenitiesSum(req.amenities).Some?
    ensures var (lastYear, lastPrice) := Start(req).value;
      var steps := Steps(1, lastYear, lastPrice, Score(req, row), req.zoneIndex, model);
      && steps.Some?
      && PredictReply(req, row, model).points == [PyPoint(lastYear, lastPrice)] + steps.value
  {
  }

  /** Without a model, readable prices and numeric amenity counts always
      give a forecast, each year's price grown from the one before. */
  lemma NoModelAlwaysForecasts(req: PredictionRequest, row: Option<real>)
    requires PricesOf(OrEmpty(req.actualPrice)).Some? && PricesOf(OrEmpty(req.predictPrice)).Some?
    requires forall i :: 0 <= i < |req.amenities| ==> req.amenities[i].1.Some?
    ensures PredictReply(req, row, None).Forecast?
    ensures var points := PredictReply(req, row, None).points;
      forall j :: 0 < j < |points| ==> points[j].price == Grown(points[j - 1].price, Score(req, row))
  {
    var (lastYear, lastPrice) := Start(req).value;
    var score := Score(req, row);
    StepsWithoutModel(1, lastYear, lastPrice, score, req.zoneIndex);
    var rest := Steps(1, lastYear, lastPrice, score, req.zoneIndex, None).value;
    var points := [PyPoint(lastYear, lastPrice)] + rest;
    forall j | 0 < j < |points|
      ensures points[j].price == Grown(points[j - 1].price, score)
    {
      if j > 1 {
        assert points[j] == rest[j - 1] && points[j - 1] == rest[j - 2];
      }
    }
  }

  /** A year key with a leading zero makes the handler answer with an error. */
  lemma LeadingZeroYearIsError(req: PredictionRequest, row: Option<real>, model: Model)
    requires req.actualPrice == Some([("02024", Some(1500000.0))])
    ensures PredictReply(req, row, model) == Error
  {
    LeadingZeroYearRaises();
  }

  /** The five-year loop of the handler, appending to `forecasts`, which
      starts with the echoed point. */
  method Extend(lastYear: nat, lastPrice: real, score: real, zone: int, model: Model) returns (r: Option<seq<PyPoint>>)
    ensures r == Prepend([PyPoint(lastYear, lastPrice)], Steps(1, lastYear, lastPrice, score, zone, model))
  {
    var forecasts := [PyPoint(lastYear, lastPrice)];
    var price := lastPrice;
    var i := 1;
    while i < 6
      invariant 1 <= i <= 6
      invariant Prepend([PyPoint(lastYear, lastPrice)], Steps(1, lastYear, lastPrice, score, zone, model))
        == Prepend(forecasts, Steps(i, lastYear, price, score, zone, model))
      decreases 6 - i
    {
      var year := lastYear + i;
      var pred := StepPrice(year, price, score, zone, model);
      if pred.None? {
        return None;
      }
      var point := PyPoint(year, pred.value);
      ghost var rest := Steps(i + 1, lastYear, pred.value, score, zone, model);
      assert rest.Some? ==>
        (forecasts + [point]) + rest.value == forecasts + ([point] + rest.value);
      price := pred.value;
      forecasts := forecasts + [point];
      i := i + 1;
    }
    assert forecasts + [] == forecasts;
    return Some(forecasts);
  }

  /** The imperative form of `Start`: the comprehensions over the two dicts
      and the if/elif/else choice of `(last_year, last_price)`, step by step;
      `None` when a `float()` raises. */
  method LatestPoint(req: PredictionRequest) returns (start: Option<(nat, real)>)
    ensures start == Start(req)
  {
    var actual, predicted := OrEmpty(req.actualPrice), OrEmpty(req.predictPrice);
    var years, prices := DigitYears(actual), PricesOf(actual);
    var predYears, predPrices := DigitYears(predicted), PricesOf(predicted);
    if prices.None? || predPrices.None? {
      return None;
    }
    var lastYear, lastPrice;
    if predYears != [] {
      lastYear, lastPrice := MaxYear(predYears), Last(predPrices.value);
    } else if years != [] {
      lastYear, lastPrice := MaxYear(years), Last(prices.value);
    } else {
      lastYear, lastPrice := DefaultLastYear, DefaultLastPrice;
    }
    return Some((lastYear, lastPrice));
  }

  /** The handler as it runs: the starting point, the score, then the loop. */
  method Predict(req: PredictionRequest, row: Option<real>, model: Model) returns (reply: Reply)
    ensures reply == PredictReply(req, row, model)
  {
    var start := LatestPoint(req);
    if start.None? {
      return Error;
    }
    if AmenitiesSum(req.amenities).None? {
      return Error;
    }
    var (lastYear, lastPrice) := start.value;
    var score := WeightedScore(row, Adjustment(Numbers(req.amenities)));
    var forecasts := Extend(lastYear, lastPrice, score, req.zoneIndex, model);
    if forecasts.None? {
      return Error;
    }
    return Forecast(forecasts.value);
  }
}
