/**
 * The FastAPI `/predict` handler of the backend: like the serverless one it
 * extends the latest known point by five years, but it normalises the year
 * into the range of the known years, derives a growth rate from the last two
 * prices, matches amenity keys with spaces and underscores removed, and only
 * echoes the latest known point when there is one. It has no handler for
 * exceptions: each one becomes an error reply.
 *
 * The CSV lookup is the `row` parameter: the stored weighted score of the
 * row matching the request's area, zone and room type, or `None` when no
 * row matches.
 */
module BackendPredict {
  import opened Wrappers
  import opened Js
  import opened PyRequest
  import PredictApi

  // ---------------------------------------------------------------------------
  // Where the forecast starts

  const DefaultMinYear: nat := 2012
  const DefaultMaxYear: nat := 2024
  const DefaultLastPrice: real := 1000000.0

  /** The smallest of a non-empty list of years. */
  function MinYear(ys: seq<nat>): (m: nat)
    requires ys != []
    ensures m in ys && forall i :: 0 <= i < |ys| ==> m <= ys[i]
  {
    if |ys| == 1 then ys[0]
    else
      var m := MinYear(ys[..|ys| - 1]);
      assert forall i :: 0 <= i < |ys| - 1 ==> ys[..|ys| - 1][i] == ys[i];
      if ys[|ys| - 1] < m then ys[|ys| - 1] else m
  }

  /** `min_year`, `max_year`, `last_year`, `last_price`, and whether the
      latest known point is echoed as the first forecast point. */
  datatype Origin = Origin(minYear: nat, maxYear: nat, lastYear: nat, lastPrice: real, echo: bool)

  /** The three-way choice of the series to start from. */
  function OriginOf(years: seq<nat>, prices: seq<real>, predYears: seq<nat>, predPrices: seq<real>): (o: Origin)
    requires |prices| == |years| && |predPrices| == |predYears|
    ensures o.minYear <= o.maxYear && o.lastYear == o.maxYear
    ensures o.echo <==> predYears != [] || years != []
  {
    if predYears != [] then Origin(MinYear(predYears), MaxYear(predYears), MaxYear(predYears), Last(predPrices), true)
    else if years != [] then Origin(MinYear(years), MaxYear(years), MaxYear(years), Last(prices), true)
    else Origin(DefaultMinYear, DefaultMaxYear, DefaultMaxYear, DefaultLastPrice, false)
  }

  // ---------------------------------------------------------------------------
  // Amenity adjustment

  /** `s.replace(' ', '').replace('_', '')` */
  function Squash(s: string): string {
    if s == [] then []
    else if s[|s| - 1] == ' ' || s[|s| - 1] == '_' then Squash(s[..|s| - 1])
    else Squash(s[..|s| - 1]) + [s[|s| - 1]]
  }

  /** The result has no space and no underscore. */
  lemma {:induction false} SquashRemovesSeparators(s: string)
    ensures forall i :: 0 <= i < |Squash(s)| ==> Squash(s)[i] != ' ' && Squash(s)[i] != '_'
  {
    if s != [] {
      SquashRemovesSeparators(s[..|s| - 1]);
    }
  }

  /** A string without separators is left as it is. */
  lemma {:induction false} SquashKeepsPlain(s: string)
    requires forall i :: 0 <= i < |s| ==> s[i] != ' ' && s[i] != '_'
    ensures Squash(s) == s
  {
    if s != [] {
      SquashKeepsPlain(s[..|s| - 1]);
      assert s == s[..|s| - 1] + [s[|s| - 1]];
    }
  }

  /** The key a dashboard amenity is matched under. */
  function Norm(k: string): (r: string)
    ensures forall i :: 0 <= i < |r| ==> r[i] != ' ' && r[i] != '_'
  {
    SquashRemovesSeparators(Lower(k));
    Squash(Lower(k))
  }

  /** The inner loop over the weight table `ws`: what an entry with the
      normalised key `key` and count `v` adds. */
  function MatchSum(key: string, v: real, ws: seq<(string, real)>): (r: real)
    ensures v == 0.0 ==> r == 0.0
  {
    if ws == [] then 0.0
    else
      MatchSum(key, v, ws[..|ws| - 1])
        + (if key == Squash(ws[|ws| - 1].0) then 0.1 * v * ws[|ws| - 1].1 else 0.0)
  }

  /** The outer loop over the counter, against the weight table `ws`. */
  function BackendAdjustment(c: seq<(string, real)>, ws: seq<(string, real)>): (r: real)
    ensures (forall i :: 0 <= i < |c| ==> c[i].1 == 0.0) ==> r == 0.0
  {
    if c == [] then 0.0
    else
      assert forall i :: 0 <= i < |c| - 1 ==> c[..|c| - 1][i] == c[i];
      BackendAdjustment(c[..|c| - 1], ws) + MatchSum(Norm(c[|c| - 1].0), c[|c| - 1].1, ws)
  }

  /** Weight names are listed once each and are lower-case words. */
  predicate PlainNames(ws: seq<(string, real)>) {
    && (forall i, j :: 0 <= i < j < |ws| ==> ws[i].0 != ws[j].0)
    && (forall i, k :: 0 <= i < |ws| && 0 <= k < |ws[i].0| ==> 'a' <= ws[i].0[k] <= 'z')
  }

  lemma AmenityWeightsArePlain()
    ensures PlainNames(AmenityWeights)
  {
    forall i, j | 0 <= i < j < |AmenityWeights|
      ensures AmenityWeights[i].0 != AmenityWeights[j].0
    {
      var a, b := AmenityWeights[i].0, AmenityWeights[j].0;
      assert a[0] != b[0] || a[1] != b[1];
    }
    forall i, k | 0 <= i < |AmenityWeights| && 0 <= k < |AmenityWeights[i].0|
      ensures 'a' <= AmenityWeights[i].0[k] <= 'z'
    {
    }
  }

  /** With plain, distinct names, the inner loop adds exactly the share of
      the one name equal to the key. */
  lemma {:induction false} MatchSumIsShare(key: string, v: real, ws: seq<(string, real)>)
    requires PlainNames(ws)
    ensures MatchSum(key, v, ws) == Share(key, v, ws)
  {
    if ws != [] {
      var init := ws[..|ws| - 1];
      assert PlainNames(init) by {
        assert forall i :: 0 <= i < |init| ==> init[i] == ws[i];
      }
      MatchSumIsShare(key, v, init);
      SquashKeepsPlain(ws[|ws| - 1].0);
      ShareOfLast(key, v, ws);
    }
  }

  /** The last entry of the table adds its share when it names the key, and
      the entries before it the rest. */
  lemma ShareOfLast(key: string, v: real, ws: seq<(string, real)>)
    requires PlainNames(ws) && ws != []
    ensures key == ws[|ws| - 1].0 ==> Share(key, v, ws) == Share(key, v, ws[..|ws| - 1]) + 0.1 * v * ws[|ws| - 1].1
    ensures key != ws[|ws| - 1].0 ==> Share(key, v, ws) == Share(key, v, ws[..|ws| - 1])
  {
    LastNameIsNew(ws, key);
  }


  /** A name found before the last entry is not the last entry's name. */
  lemma LastNameIsNew(ws: seq<(string, real)>, key: string)
    requires PlainNames(ws) && ws != []
    ensures WeightIn(ws[..|ws| - 1], key).Some? ==> key != ws[|ws| - 1].0
  {
    var init := ws[..|ws| - 1];
    if WeightIn(init, key).Some? {
      var i :| 0 <= i < |init| && init[i].0 == key;
      assert ws[i].0 != ws[|ws| - 1].0;
    }
  }

  /** Each counter entry adds the share of the weight named by its key
      lower-cased with spaces and underscores removed. */
  lemma BackendAdjustmentByEntry(c: seq<(string, real)>, ws: seq<(string, real)>)
    requires c != [] && PlainNames(ws)
    ensures BackendAdjustment(c, ws) == BackendAdjustment(c[..|c| - 1], ws) + Share(Norm(c[|c| - 1].0), c[|c| - 1].1, ws)
  {
    MatchSumIsShare(Norm(c[|c| - 1].0), c[|c| - 1].1, ws);
  }

  /** For keys without spaces or underscores, such as the dashboard's own
      amenity names, both handlers compute the same adjustment. */
  lemma AdjustmentsAgree(c: seq<(string, real)>)
    requires forall i, k :: 0 <= i < |c| && 0 <= k < |c[i].0| ==> c[i].0[k] != ' ' && c[i].0[k] != '_'
    ensures BackendAdjustment(c, AmenityWeights) == PredictApi.Adjustment(c)
  {
    AmenityWeightsArePlain();
    AdjustmentsAgreeOver(c, AmenityWeights);
  }

  /** `PredictApi.Adjustment` with the weight table as a parameter. */
  function ApiAdjustment(c: seq<(string, real)>, ws: seq<(string, real)>): (r: real)
    ensures ws == AmenityWeights ==> r == PredictApi.Adjustment(c)
  {
    if c == [] then 0.0 else ApiAdjustment(c[..|c| - 1], ws) + Share(Lower(c[|c| - 1].0), c[|c| - 1].1, ws)
  }

  lemma {:induction false} AdjustmentsAgreeOver(c: seq<(string, real)>, ws: seq<(string, real)>)
    requires PlainNames(ws)
    requires forall i, k :: 0 <= i < |c| && 0 <= k < |c[i].0| ==> c[i].0[k] != ' ' && c[i].0[k] != '_'
    ensures BackendAdjustment(c, ws) == ApiAdjustment(c, ws)
  {
    if c != [] {
      var init := c[..|c| - 1];
      assert forall i :: 0 <= i < |init| ==> init[i] == c[i];
      AdjustmentsAgreeOver(init, ws);
      BackendAdjustmentByEntry(c, ws);
      var k := c[|c| - 1].0;
      SquashKeepsPlain(Lower(k));
    }
  }

  /** With distinct names, each listed name finds its own weight. */
  lemma {:induction false} WeightAt(ws: seq<(string, real)>, i: int)
    requires PlainNames(ws) && 0 <= i < |ws|
    ensures WeightIn(ws, ws[i].0) == Some(ws[i].1)
  {
    if i < |ws| - 1 {
      var init := ws[..|ws| - 1];
      assert PlainNames(init) by {
        assert forall j :: 0 <= j < |init| ==> init[j] == ws[j];
      }
      assert ws[i].0 != ws[|ws| - 1].0;
      WeightAt(init, i);
    }
  }

  /** A name with an underscore is no weight name. */
  lemma UnderscoreNameHasNoWeight(name: string, k: int, ws: seq<(string, real)>)
    requires PlainNames(ws)
    requires 0 <= k < |name| && name[k] == '_'
    ensures WeightIn(ws, name).None?
  {
    forall i | 0 <= i < |ws|
      ensures ws[i].0 != name
    {
      assert |ws[i].0| != |name| || ws[i].0[k] != name[k];
    }
  }

  /** Removing separators from two parts is removing them from each. */
  lemma {:induction false} SquashConcat(a: string, b: string)
    ensures Squash(a + b) == Squash(a) + Squash(b)
  {
    if b != [] {
      var init := b[..|b| - 1];
      assert (a + b)[..|a + b| - 1] == a + init;
      SquashConcat(a, init);
    } else {
      assert a + b == a;
    }
  }

  /** A counter holding one entry adds that entry's share. */
  lemma SingleEntryAdjustment(key: string, v: real, ws: seq<(string, real)>)
    requires PlainNames(ws)
    ensures BackendAdjustment([(key, v)], ws) == Share(Norm(key), v, ws)
  {
    BackendAdjustmentByEntry([(key, v)], ws);
    assert [(key, v)][..0] == [];
  }

  /** A key written with an underscore is counted by this handler but not by
      the serverless one. */
  lemma UnderscoreKeyCountedHereOnly(v: real)
    ensures BackendAdjustment([("land_fill", v)], AmenityWeights) == 0.1 * v * -0.06
    ensures PredictApi.Adjustment([("land_fill", v)]) == 0.0
  {
    AmenityWeightsArePlain();
    assert "land_fill" == "land" + "_" + "fill";
    assert AmenityWeights[7].0 == "land" + "fill";
    JoinedKeyCountedHereOnly("land", "fill", v, AmenityWeights, 7);
  }

  /** `a_b`, for two lower-case words whose concatenation names a weight, is
      counted by this handler under that name and not by the serverless one. */
  lemma JoinedKeyCountedHereOnly(a: string, b: string, v: real, ws: seq<(string, real)>, i: int)
    requires PlainNames(ws) && 0 <= i < |ws| && ws[i].0 == a + b
    requires forall k :: 0 <= k < |a| ==> 'a' <= a[k] <= 'z'
    requires forall k :: 0 <= k < |b| ==> 'a' <= b[k] <= 'z'
    ensures BackendAdjustment([(a + "_" + b, v)], ws) == 0.1 * v * ws[i].1
    ensures ApiAdjustment([(a + "_" + b, v)], ws) == 0.0
  {
    var key := a + "_" + b;
    SingleEntryAdjustment(key, v, ws);
    JoinedNorm(a, b);
    ShareAt(v, ws, i);
    JoinedLower(a, b);
    UnderscoreNameHasNoWeight(key, |a|, ws);
    assert [(key, v)][..0] == [];
  }

  /** `a_b` for two lower-case words is already lower-case. */
  lemma JoinedLower(a: string, b: string)
    requires forall k :: 0 <= k < |a| ==> 'a' <= a[k] <= 'z'
    requires forall k :: 0 <= k < |b| ==> 'a' <= b[k] <= 'z'
    ensures Lower(a + "_" + b) == a + "_" + b
  {
  }

  /** Normalising `a_b` for two lower-case words gives `ab`. */
  lemma JoinedNorm(a: string, b: string)
    requires forall k :: 0 <= k < |a| ==> 'a' <= a[k] <= 'z'
    requires forall k :: 0 <= k < |b| ==> 'a' <= b[k] <= 'z'
    ensures Norm(a + "_" + b) == a + b
  {
    JoinedLower(a, b);
    SquashConcat(a + "_", b);
    SquashConcat(a, "_");
    assert Squash("_") == [] by {
      assert "_"[..0] == [];
    }
    SquashKeepsPlain(a);
    SquashKeepsPlain(b);
  }

  /** The nested loops of the handler over the counter and the weight table. */
  method AdjustmentLoop(c: seq<(string, real)>, weights: seq<(string, real)>) returns (adjustment: real)
    ensures adjustment == BackendAdjustment(c, weights)
  {
    adjustment := 0.0;
    var n := 0;
    while n < |c|
      invariant 0 <= n <= |c|
      invariant adjustment == BackendAdjustment(c[..n], weights)
    {
      var (k, v) := c[n];
      var key := Norm(k);
      ghost var before := adjustment;
      var j := 0;
      while j < |weights|
        invariant 0 <= j <= |weights|
        invariant adjustment == before + MatchSum(key, v, weights[..j])
      {
        var (aw, w) := weights[j];
        if key == Squash(aw) {
          adjustment := adjustment + 0.1 * v * w;
        }
        assert weights[..j + 1][..j] == weights[..j];
        j := j + 1;
      }
      assert weights[..j] == weights;
      assert c[..n + 1][..n] == c[..n];
      n := n + 1;
    }
    assert c[..n] == c;
  }

  // ---------------------------------------------------------------------------
  // Weighted score

  /** `weighted_score`: the CSV score unchanged when the amenity counts sum
      to zero, the score plus the adjustment clipped to [0, 1] otherwise,
      and the bare adjustment when no CSV row matches. */
  function WeightedScore(row: Option<real>, amenitiesSum: real, adjustment: real): (r: real)
    ensures row.Some? && amenitiesSum == 0.0 ==> r == row.value
    ensures row.Some? && amenitiesSum != 0.0 ==> 0.0 <= r <= 1.0
    ensures row.Some? && amenitiesSum != 0.0 && 0.0 <= row.value + adjustment <= 1.0 ==> r == row.value + adjustment
    ensures row.Some? && amenitiesSum != 0.0 && row.value + adjustment < 0.0 ==> r == 0.0
    ensures row.Some? && amenitiesSum != 0.0 && row.value + adjustment > 1.0 ==> r == 1.0
    ensures row.None? ==> r == adjustment
  {
    if row.Some? && amenitiesSum == 0.0 then row.value
    else if row.Some? then Clamp(row.value + adjustment, 0.0, 1.0)
    else adjustment
  }

  /** Without a CSV row the score is not clipped: one landfill gives a
      negative score, two hundred metro stations a score above one. */
  lemma UnmatchedScoreLeavesUnitRange()
    ensures WeightedScore(None, 1.0, BackendAdjustment([("landfill", 1.0)], AmenityWeights)) < 0.0
    ensures WeightedScore(None, 200.0, BackendAdjustment([("metro", 200.0)], AmenityWeights)) > 1.0
  {
    AmenityWeightsArePlain();
    NamedEntryAdjustment(1.0, AmenityWeights, 7);
    NamedEntryAdjustment(200.0, AmenityWeights, 1);
  }

  /** A counter holding one weight name adds that weight's share. */
  lemma NamedEntryAdjustment(v: real, ws: seq<(string, real)>, i: int)
    requires PlainNames(ws) && 0 <= i < |ws|
    ensures BackendAdjustment([(ws[i].0, v)], ws) == 0.1 * v * ws[i].1
  {
    SingleEntryAdjustment(ws[i].0, v, ws);
    PlainNameIsNormal(ws, i);
    ShareAt(v, ws, i);
  }

  lemma PlainNameIsNormal(ws: seq<(string, real)>, i: int)
    requires PlainNames(ws) && 0 <= i < |ws|
    ensures Norm(ws[i].0) == ws[i].0
  {
    LowerCaseNorm(ws[i].0);
  }

  lemma ShareAt(v: real, ws: seq<(string, real)>, i: int)
    requires PlainNames(ws) && 0 <= i < |ws|
    ensures Share(ws[i].0, v, ws) == 0.1 * v * ws[i].1
  {
    WeightAt(ws, i);
    ShareOfFound(ws[i].0, v, ws, ws[i].1);
  }

  /** A lower-case word is its own normalised key. */
  lemma LowerCaseNorm(name: string)
    requires forall k :: 0 <= k < |name| ==> 'a' <= name[k] <= 'z'
    ensures Norm(name) == name
  {
    assert Lower(name) == name;
    SquashKeepsPlain(name);
  }

  lemma ShareOfFound(key: string, v: real, ws: seq<(string, real)>, w: real)
    requires WeightIn(ws, key) == Some(w)
    ensures Share(key, v, ws) == 0.1 * v * w
  {
  }


  // ---------------------------------------------------------------------------
  // The five-year loop

  /** `year_norm`: the year placed on the known range, 0 when the range is a
      single year. */
  function YearNorm(year: nat, minYear: nat, maxYear: nat): (r: real)
    ensures maxYear <= minYear ==> r == 0.0
    ensures minYear < maxYear < year ==> r > 1.0
    ensures minYear < maxYear && minYear <= year ==> r >= 0.0
  {
    if maxYear > minYear then (year - minYear) as real / (maxYear - minYear) as real else 0.0
  }

  /** The growth rate before clamping: from the last two actual prices in
      the first year, else from the newest price and the one before it in
      the growing predicted list, else from the newest price and the last
      but one actual price, else 5%. */
  function RawPctChange(i: nat, prices: seq<real>, predPrices: seq<real>, lastPrice: real): (r: real)
    ensures |prices| <= 1 && |predPrices| <= 1 ==> r == 0.05
  {
    if i == 1 && |prices| > 1 && prices[|prices| - 2] != 0.0 then
      (prices[|prices| - 1] - prices[|prices| - 2]) / prices[|prices| - 2]
    else if |predPrices| > 1 && predPrices[|predPrices| - 2] != 0.0 then
      (lastPrice - predPrices[|predPrices| - 2]) / predPrices[|predPrices| - 2]
    else if |prices| > 1 && prices[|prices| - 2] != 0.0 then
      (lastPrice - prices[|prices| - 2]) / prices[|prices| - 2]
    else 0.05
  }

  /** `pct_change` after `max(0.05, min(0.2, ...))`: a falling price counts as
      5% growth. */
  function PctChange(i: nat, prices: seq<real>, predPrices: seq<real>, lastPrice: real): (r: real)
    ensures 0.05 <= r <= 0.2
    ensures RawPctChange(i, prices, predPrices, lastPrice) <= 0.05 ==> r == 0.05
    ensures 0.05 <= RawPctChange(i, prices, predPrices, lastPrice) <= 0.2 ==> r == RawPctChange(i, prices, predPrices, lastPrice)
  {
    Clamp(RawPctChange(i, prices, predPrices, lastPrice), 0.05, 0.2)
  }

  /** One year's price: the model's prediction, or growth by
      `1 + pct_change * 0.5 + weighted_score`. */
  function BackendStepPrice(year: nat, o: Origin, pct: real, lastPrice: real, score: real, zone: int, model: Model): Option<real> {
    match model
    case Some(predict) => predict(Features(YearNorm(year, o.minYear, o.maxYear), score, zone, pct))
    case None => Some(Growth(lastPrice, pct, score))
  }

  /** `last_price * (1 + pct_change * 0.5 + weighted_score)` */
  function Growth(price: real, pct: real, score: real): real {
    price * (1.0 + pct * 0.5 + score)
  }

  /** The points for `i`, ..., 5, each prediction appended to `pred_prices`. */
  function BackendSteps(i: nat, o: Origin, prices: seq<real>, predPrices: seq<real>, lastPrice: real,
                        score: real, zone: int, model: Model): (r: Option<seq<PyPoint>>)
    requires 1 <= i <= 6
    ensures r.Some? ==> |r.value| == 6 - i
    ensures model.None? ==> r.Some?
    decreases 6 - i
  {
    if i == 6 then Some([])
    else
      var pct := PctChange(i, prices, predPrices, lastPrice);
      match BackendStepPrice(o.lastYear + i, o, pct, lastPrice, score, zone, model)
      case None => None
      case Some(pred) =>
        Prepend([PyPoint(o.lastYear + i, pred)],
                BackendSteps(i + 1, o, prices, predPrices + [pred], pred, score, zone, model))
  }

  /** One turn of the loop: the year's price, then the points after it. */
  lemma BackendStepsUnfold(i: nat, o: Origin, prices: seq<real>, predPrices: seq<real>, lastPrice: real,
                           score: real, zone: int, model: Model, pred: Option<real>)
    requires 1 <= i < 6
    requires pred == BackendStepPrice(o.lastYear + i, o, PctChange(i, prices, predPrices, lastPrice), lastPrice, score, zone, model)
    ensures pred.None? ==> BackendSteps(i, o, prices, predPrices, lastPrice, score, zone, model).None?
    ensures pred.Some? ==>
      (BackendSteps(i, o, prices, predPrices, lastPrice, score, zone, model)
       == Prepend([PyPoint(o.lastYear + i, pred.value)],
                  BackendSteps(i + 1, o, prices, predPrices + [pred.value], pred.value, score, zone, model)))
  {
  }

  lemma {:induction false} BackendStepsYears(i: nat, o: Origin, prices: seq<real>, predPrices: seq<real>, lastPrice: real,
                                             score: real, zone: int, model: Model)
    requires 1 <= i <= 6
    decreases 6 - i
    ensures var r := BackendSteps(i, o, prices, predPrices, lastPrice, score, zone, model);
      r.Some? ==> |r.value| == 6 - i && forall j :: 0 <= j < |r.value| ==> r.value[j].year == o.lastYear + i + j
  {
    if i < 6 {
      var pct := PctChange(i, prices, predPrices, lastPrice);
      var pred := BackendStepPrice(o.lastYear + i, o, pct, lastPrice, score, zone, model);
      if pred.Some? {
        BackendStepsYears(i + 1, o, prices, predPrices + [pred.value], pred.value, score, zone, model);
        var rest := BackendSteps(i + 1, o, prices, predPrices + [pred.value], pred.value, score, zone, model);
        if rest.Some? {
          var r := [PyPoint(o.lastYear + i, pred.value)] + rest.value;
          forall j | 0 < j < |r|
            ensures r[j].year == o.lastYear + i + j
          {
            assert r[j] == rest.value[j - 1];
          }
        }
      }
    }
  }

  /** Without a model, every year's price grows from the one before by at
      least the 5% floor of `pct_change`: at least `Growth(price, 0.05, score)`. */
  lemma {:induction false} BackendStepsWithoutModel(i: nat, o: Origin, prices: seq<real>, predPrices: seq<real>,
                                                    lastPrice: real, score: real, zone: int)
    requires 1 <= i <= 6
    requires lastPrice >= 0.0 && score >= 0.0
    decreases 6 - i
    ensures var r := BackendSteps(i, o, prices, predPrices, lastPrice, score, zone, None);
      && r.Some?
      && |r.value| == 6 - i
      && (i < 6 ==> r.value[0].price >= Growth(lastPrice, 0.05, score))
      && forall j :: 0 < j < |r.value| ==> r.value[j].price >= Growth(r.value[j - 1].price, 0.05, score)
  {
    if i < 6 {
      var pct := PctChange(i, prices, predPrices, lastPrice);
      var pred := Growth(lastPrice, pct, score);
      GrowthAtLeastFloor(lastPrice, pct, score);
      BackendStepsUnfold(i, o, prices, predPrices, lastPrice, score, zone, None, Some(pred));
      BackendStepsWithoutModel(i + 1, o, prices, predPrices + [pred], pred, score, zone);
      var rest := BackendSteps(i + 1, o, prices, predPrices + [pred], pred, score, zone, None).value;
      var r := [PyPoint(o.lastYear + i, pred)] + rest;
      forall j | 0 < j < |r|
        ensures r[j].price >= Growth(r[j - 1].price, 0.05, score)
      {
        if j > 1 {
          assert r[j] == rest[j - 1] && r[j - 1] == rest[j - 2];
        }
      }
    }
  }

  /** A rate of at least 5% grows a non-negative price at least as much as 5%
      does, and the grown price is again non-negative. */
  lemma GrowthAtLeastFloor(price: real, pct: real, score: real)
    requires price >= 0.0 && score >= 0.0 && pct >= 0.05
    ensures Growth(price, pct, score) >= Growth(price, 0.05, score) >= price
  {
    assert Growth(price, pct, score) - Growth(price, 0.05, score) == price * ((pct - 0.05) * 0.5);
    assert Growth(price, 0.05, score) - price == price * (0.025 + score);
  }

  // ---------------------------------------------------------------------------
  // The handler

  /** The handler's reply. */
  function BackendReply(req: PredictionRequest, row: Option<real>, model: Model): (r: Reply)
    ensures (PricesOf(OrEmpty(req.actualPrice)).None? || PricesOf(OrEmpty(req.predictPrice)).None? ||
             AmenitiesSum(req.amenities).None?) ==> r == Error
    ensures (model.None? && PricesOf(OrEmpty(req.actualPrice)).Some? && PricesOf(OrEmpty(req.predictPrice)).Some? &&
             AmenitiesSum(req.amenities).Some?) ==> r.Forecast?
    ensures r.Forecast? ==> |r.points| == 5 || |r.points| == 6
  {
    var actual, predicted := OrEmpty(req.actualPrice), OrEmpty(req.predictPrice);
    var prices, predPrices := PricesOf(actual), PricesOf(predicted);
    if prices.None? || predPrices.None? then Error
    else
      var o := OriginOf(DigitYears(actual), prices.value, DigitYears(predicted), predPrices.value);
      var amenitiesSum := AmenitiesSum(req.amenities);
      if amenitiesSum.None? then Error
      else
        var score := WeightedScore(row, amenitiesSum.value, BackendAdjustment(Numbers(req.amenities), AmenityWeights));
        var echo := if o.echo then [PyPoint(o.lastYear, o.lastPrice)] else [];
        match Prepend(echo, BackendSteps(1, o, prices.value, predPrices.value, o.lastPrice, score, req.zoneIndex, model))
        case None => Error
        case Some(points) => Forecast(points)
  }

  /** A forecast reply has six points when either dict has a digit year: the
      same `(last_year, last_price)` the serverless handler starts from (see
      `PredictApi.StartChoice`), then the five years after it. Otherwise it has
      five points for 2025 to 2029. */
  lemma BackendForecastShape(req: PredictionRequest, row: Option<real>, model: Model)
    requires BackendReply(req, row, model).Forecast?
    ensures var points := BackendReply(req, row, model).points;
      var known := DigitYears(OrEmpty(req.actualPrice)) != [] || DigitYears(OrEmpty(req.predictPrice)) != [];
      && (known ==> PredictApi.Start(req).Some? &&
                    points[0] == PyPoint(PredictApi.Start(req).value.0, PredictApi.Start(req).value.1))
      && (known ==> |points| == 6 && forall j :: 0 < j < 6 ==> points[j].year == points[0].year + j)
      && (!known ==> |points| == 5 && forall j :: 0 <= j < 5 ==> points[j].year == DefaultMaxYear + 1 + j)
  {
    var actual, predicted := OrEmpty(req.actualPrice), OrEmpty(req.predictPrice);
    var prices, predPrices := PricesOf(actual).value, PricesOf(predicted).value;
    var o := OriginOf(DigitYears(actual), prices, DigitYears(predicted), predPrices);
    var score := WeightedScore(row, AmenitiesSum(req.amenities).value, BackendAdjustment(Numbers(req.amenities), AmenityWeights));
    BackendStepsYears(1, o, prices, predPrices, o.lastPrice, score, req.zoneIndex, model);
  }

  /** Both handlers start from the same point when one of the dicts has a
      digit year: the latest year of the predicted dict if it has one, else
      of the actual dict, with the price of that dict's last digit key. */
  lemma SameStartAsServerless(req: PredictionRequest, row: Option<real>, model: Model)
    requires BackendReply(req, row, model).Forecast? && PredictApi.PredictReply(req, row, model).Forecast?
    requires DigitYears(OrEmpty(req.actualPrice)) != [] || DigitYears(OrEmpty(req.predictPrice)) != []
    ensures BackendReply(req, row, model).points[0] == PredictApi.PredictReply(req, row, model).points[0]
  {
  }

  /** One turn of the loop: a failed prediction ends it, otherwise a point
      moves from the points to come to those appended, and the prediction
      onto `pred_prices`. */
  lemma ExtendStep(i: nat, o: Origin, prices: seq<real>, grown: seq<real>, lastPrice: real, score: real,
                   zone: int, model: Model, forecasts: seq<PyPoint>, pred: Option<real>)
    requires 1 <= i < 6
    requires pred == BackendStepPrice(o.lastYear + i, o, PctChange(i, prices, grown, lastPrice), lastPrice, score, zone, model)
    ensures pred.None? ==> Prepend(forecasts, BackendSteps(i, o, prices, grown, lastPrice, score, zone, model)).None?
    ensures pred.Some? ==>
      (Prepend(forecasts, BackendSteps(i, o, prices, grown, lastPrice, score, zone, model))
       == Prepend(forecasts + [PyPoint(o.lastYear + i, pred.value)],
                  BackendSteps(i + 1, o, prices, grown + [pred.value], pred.value, score, zone, model)))
  {
    BackendStepsUnfold(i, o, prices, grown, lastPrice, score, zone, model, pred);
    if pred.Some? {
      PrependAppend(forecasts, PyPoint(o.lastYear + i, pred.value),
                    BackendSteps(i + 1, o, prices, grown + [pred.value], pred.value, score, zone, model));
    }
  }

  /** The loop of the handler, appending to `forecasts` and `pred_prices`. */
  method BackendExtend(o: Origin, prices: seq<real>, predPrices: seq<real>, score: real, zone: int, model: Model)
    returns (r: Option<seq<PyPoint>>)
    ensures var echo := if o.echo then [PyPoint(o.lastYear, o.lastPrice)] else [];
      r == Prepend(echo, BackendSteps(1, o, prices, predPrices, o.lastPrice, score, zone, model))
  {
    var forecasts := if o.echo then [PyPoint(o.lastYear, o.lastPrice)] else [];
    ghost var all := Prepend(forecasts, BackendSteps(1, o, prices, predPrices, o.lastPrice, score, zone, model));
    var grown := predPrices;
    var lastPrice := o.lastPrice;
    var i := 1;
    while i < 6
      invariant 1 <= i <= 6
      invariant all == Prepend(forecasts, BackendSteps(i, o, prices, grown, lastPrice, score, zone, model))
      decreases 6 - i
    {
      var year := o.lastYear + i;
      var pct := PctChange(i, prices, grown, lastPrice);
      var pred := BackendStepPrice(year, o, pct, lastPrice, score, zone, model);
      ExtendStep(i, o, prices, grown, lastPrice, score, zone, model, forecasts, pred);
      if pred.None? {
        return None;
      }
      var point := PyPoint(year, pred.value);
      lastPrice := pred.value;
      grown := grown + [pred.value];
      forecasts := forecasts + [point];
      i := i + 1;
    }
    assert forecasts + [] == forecasts;
    return Some(forecasts);
  }

  /** The handler as it runs. */
  method BackendPredict(req: PredictionRequest, row: Option<real>, model: Model) returns (reply: Reply)
    ensures reply == BackendReply(req, row, model)
  {
    var actual, predicted := OrEmpty(req.actualPrice), OrEmpty(req.predictPrice);
    var years, prices := DigitYears(actual), PricesOf(actual);
    var predYears, predPrices := DigitYears(predicted), PricesOf(predicted);
    if prices.None? || predPrices.None? {
      return Error;
    }
    var o;
    if predYears != [] {
      o := Origin(MinYear(predYears), MaxYear(predYears), MaxYear(predYears), Last(predPrices.value), true);
    } else if years != [] {
      o := Origin(MinYear(years), MaxYear(years), MaxYear(years), Last(prices.value), true);
    } else {
      o := Origin(DefaultMinYear, DefaultMaxYear, DefaultMaxYear, DefaultLastPrice, false);
    }
    var amenitiesSum := AmenitiesSum(req.amenities);
    if amenitiesSum.None? {
      return Error;
    }
    var adjustment := AdjustmentLoop(Numbers(req.amenities), AmenityWeights);
    var score := WeightedScore(row, amenitiesSum.value, adjustment);
    var forecasts := BackendExtend(o, prices.value, predPrices.value, score, req.zoneIndex, model);
    if forecasts.None? {
      return Error;
    }
    return Forecast(forecasts.value);
  }
}
