/**
 * The demonstration ensemble of `services/ml_demo.py`: XGBoost and a random
 * forest on 31 engineered columns of a generated 400-row series, stacked by
 * a logistic meta-learner that predicts whether the price goes up. A
 * prediction on an untrained instance trains it first.
 */
module MlDemo {
  import opened Common

  // ---------------------------------------------------------------------
  // The generated series: lags and the up/down target

  /**
   * `price_change = diff(prices, prepend=prices[0])`, `target = change > 0`:
   * 1 where the price rose against the previous step.
   */
  function UpTargets(prices: seq<real>): (t: seq<nat>)
    requires |prices| > 0
    ensures |t| == |prices|
  {
    seq(|prices|, i requires 0 <= i < |prices| =>
      if i > 0 && prices[i] - prices[i - 1] > 0.0 then 1 else 0)
  }

  /** The first row never rose; every other row is 1 exactly when it is above its predecessor. */
  lemma UpTargetsMeaning(prices: seq<real>)
    requires |prices| > 0
    ensures UpTargets(prices)[0] == 0
    ensures forall i :: 0 < i < |prices| ==> (UpTargets(prices)[i] == 1 <==> prices[i] > prices[i - 1])
    ensures forall i :: 0 <= i < |prices| ==> UpTargets(prices)[i] <= 1
  {
  }

  /** The four lag columns of the generated frame keep its length and read the earlier rows. */
  lemma GeneratedLags(prices: seq<real>, tech: seq<real>, i: nat)
    requires |prices| == |tech| && i < |prices|
    ensures |LagOne(prices)| == |LagThree(prices)| == |LagOne(tech)| == |LagThree(tech)| == |prices|
    ensures LagOne(prices)[i] == prices[if i == 0 then 0 else i - 1]
    ensures LagThree(tech)[i] == tech[if i < 3 then i else i - 3]
  {
    LagOneAt(prices, i);
    LagThreeAt(prices, i);
    LagOneAt(tech, i);
    LagThreeAt(tech, i);
  }

  /** The size of the generated series. */
  const GENERATED_ROWS: nat := 400

  /** The feature columns of the generated frame, in order. */
  const DEMO_FEATURES: seq<string> := [
    "price", "volume", "tech_score", "social_score", "fund_score", "astro_score",
    "price_sma_5", "price_sma_20", "price_volatility", "price_returns", "rsi_approx",
    "volume_sma", "price_volume_trend", "tech_score_momentum", "social_score_momentum",
    "fund_score_momentum", "astro_score_momentum", "price_lag_1", "price_lag_3",
    "tech_lag_1", "tech_lag_3", "tech_social_product", "pillar_mean", "pillar_std",
    "volume_ratio", "price_ratio_sma", "price_momentum", "tech_score_sma",
    "social_score_sma", "fund_score_sma", "astro_score_sma"]

  /** The generated frame has `target` as its last column. */
  const GENERATED_COLUMNS: seq<string> := DEMO_FEATURES + ["target"]

  // ---------------------------------------------------------------------
  // The feature vector of `predict`

  /**
   * The value for a column the caller did not give: the first base name the
   * column mentions, in the order price, volume, tech, social, fund, astro,
   * rsi, with its fixed default; 0.0 for a column that mentions none.
   */
  function Fallback(f: map<string, real>, col: string): real {
    if Contains(col, "price") then Get(f, "price", 146.67)
    else if Contains(col, "volume") then Get(f, "volume", 23000000.0)
    else if Contains(col, "tech") then Get(f, "tech_score", 35.0)
    else if Contains(col, "social") then Get(f, "social_score", 35.0)
    else if Contains(col, "fund") then Get(f, "fund_score", 35.0)
    else if Contains(col, "astro") then Get(f, "astro_score", 50.0)
    else if Contains(col, "rsi") then 50.0
    else 0.0
  }

  function ColumnValue(f: map<string, real>, col: string): real {
    if col in f then f[col] else Fallback(f, col)
  }

  function FeatureVector(f: map<string, real>, cols: seq<string>): (v: seq<real>)
    ensures |v| == |cols|
    ensures forall i :: 0 <= i < |cols| && cols[i] in f ==> v[i] == f[cols[i]]
  {
    seq(|cols|, i requires 0 <= i < |cols| => ColumnValue(f, cols[i]))
  }

  /** `price` is checked before `volume`: `price_volume_trend` falls back to the price. */
  lemma PriceBeforeVolume(f: map<string, real>, cols: seq<string>, i: nat)
    requires i < |cols| && cols[i] == "price_volume_trend" && cols[i] !in f
    ensures FeatureVector(f, cols)[i] == Get(f, "price", 146.67)
  {
    assert StartsWith("price_volume_trend", "price");
    PrefixIsContained("price_volume_trend", "price");
  }

  /** A pillar momentum falls back to the live pillar score. */
  lemma MomentumTakesPillar(f: map<string, real>, cols: seq<string>, i: nat)
    requires i < |cols| && cols[i] == "tech_score_momentum" && cols[i] !in f
    ensures FeatureVector(f, cols)[i] == Get(f, "tech_score", 35.0)
  {
    MissingChar("tech_score_momentum", "price", 'p');
    MissingChar("tech_score_momentum", "volume", 'v');
    assert StartsWith("tech_score_momentum", "tech");
    PrefixIsContained("tech_score_momentum", "tech");
  }

  /** The volume series fall back to the live volume, defaulting to 23000000. */
  lemma VolumeSeriesTakeVolume(f: map<string, real>, cols: seq<string>, i: nat)
    requires i < |cols| && cols[i] !in f && (cols[i] == "volume_sma" || cols[i] == "volume_ratio")
    ensures FeatureVector(f, cols)[i] == Get(f, "volume", 23000000.0)
  {
    var col := cols[i];
    MissingChar(col, "price", 'p');
    assert StartsWith(col, "volume");
    PrefixIsContained(col, "volume");
  }

  /** A word a column name may mention, the live key its fallback reads and that key's default. */
  datatype Mention = Mention(word: string, key: string, default: real)

  /** The fallbacks of `predict` in the order it tries them. */
  const MENTIONS: seq<Mention> := [
    Mention("price", "price", 146.67), Mention("volume", "volume", 23000000.0),
    Mention("tech", "tech_score", 35.0), Mention("social", "social_score", 35.0),
    Mention("fund", "fund_score", 35.0), Mention("astro", "astro_score", 50.0)]

  /**
   * An unsupplied column takes the live value, or the default, of the
   * first word of the fallback table it mentions.
   */
  lemma FirstMentionDecides(f: map<string, real>, cols: seq<string>, i: nat, k: nat)
    requires i < |cols| && cols[i] !in f && k < |MENTIONS|
    requires Contains(cols[i], MENTIONS[k].word)
    requires forall j :: 0 <= j < k ==> !Contains(cols[i], MENTIONS[j].word)
    ensures FeatureVector(f, cols)[i] == Get(f, MENTIONS[k].key, MENTIONS[k].default)
  {
    var col := cols[i];
    if k >= 1 { assert !Contains(col, MENTIONS[0].word); }
    if k >= 2 { assert !Contains(col, MENTIONS[1].word); }
    if k >= 3 { assert !Contains(col, MENTIONS[2].word); }
    if k >= 4 { assert !Contains(col, MENTIONS[3].word); }
    if k >= 5 { assert !Contains(col, MENTIONS[4].word); }
  }

  /** The RSI column falls back to a neutral 50. */
  lemma RsiDefault(f: map<string, real>, cols: seq<string>, i: nat)
    requires i < |cols| && cols[i] == "rsi_approx" && cols[i] !in f
    ensures FeatureVector(f, cols)[i] == 50.0
  {
    MissingChar("rsi_approx", "price", 'c');
    MissingChar("rsi_approx", "volume", 'v');
    MissingChar("rsi_approx", "tech", 't');
    MissingChar("rsi_approx", "social", 'c');
    MissingChar("rsi_approx", "fund", 'f');
    MissingChar("rsi_approx", "astro", 't');
    assert StartsWith("rsi_approx", "rsi");
    PrefixIsContained("rsi_approx", "rsi");
  }

  /** `pillar_mean` names no base feature and is not rebuilt from the pillars: it falls back to 0.0. */
  lemma PillarMeanDefaultsToZero(f: map<string, real>, cols: seq<string>, i: nat)
    requires i < |cols| && cols[i] == "pillar_mean" && cols[i] !in f
    ensures FeatureVector(f, cols)[i] == 0.0
  {
    PillarMeanNamesNoMarketBase();
    PillarMeanNamesNoPillarBase();
  }

  lemma PillarMeanNamesNoMarketBase()
    ensures !Contains("pillar_mean", "price") && !Contains("pillar_mean", "volume") && !Contains("pillar_mean", "tech")
  {
    MissingChar("pillar_mean", "price", 'c');
    MissingChar("pillar_mean", "volume", 'v');
    MissingChar("pillar_mean", "tech", 't');
  }

  lemma PillarMeanNamesNoPillarBase()
    ensures !Contains("pillar_mean", "social") && !Contains("pillar_mean", "fund")
            && !Contains("pillar_mean", "astro") && !Contains("pillar_mean", "rsi")
  {
    MissingChar("pillar_mean", "social", 'o');
    MissingChar("pillar_mean", "fund", 'f');
    MissingChar("pillar_mean", "astro", 's');
    MissingChar("pillar_mean", "rsi", 's');
  }

  // ---------------------------------------------------------------------
  // The output mapping

  /** BULLISH iff the meta-learner's probability of a rise is above one half. */
  function IsBullish(p: real): bool {
    p > 0.5
  }

  /** `|p - 0.5| * 2`: how far the probability is from a coin toss. */
  function Confidence(p: real): real {
    Abs(p - 0.5) * 2.0
  }

  lemma ConfidenceFacts(p: real)
    requires 0.0 <= p <= 1.0
    ensures 0.0 <= Confidence(p) <= 1.0
    ensures Confidence(p) == 0.0 <==> p == 0.5
    ensures Confidence(p) == Confidence(1.0 - p)
    ensures p != 0.5 ==> (IsBullish(p) <==> !IsBullish(1.0 - p))
    ensures Confidence(p) == 1.0 <==> p == 0.0 || p == 1.0
  {
  }

  // ---------------------------------------------------------------------
  // The models and the class

  datatype DemoModels = DemoModels(
    scale: seq<real> -> Option<seq<real>>,
    xgb: seq<real> -> Option<real>,
    forest: seq<real> -> Option<real>,
    meta: (real, real) -> Option<real>,
    importances: seq<real>)

  function Unfitted(): DemoModels {
    DemoModels(_ => None, _ => None, _ => None, (_, _) => None, [])
  }

  /**
   * What the fits of `train_ensemble` yield: the refitted scaler, the
   * gradient-boosted classifier and its importances, the forest and the
   * meta-learner (None where that fit raises).
   */
  datatype DemoFits = DemoFits(
    scale: seq<real> -> Option<seq<real>>,
    xgb: Option<(seq<real> -> Option<real>, seq<real>)>,
    forest: Option<seq<real> -> Option<real>>,
    meta: Option<(real, real) -> Option<real>>)

  /**
   * The models after `train_ensemble`, and whether every fit succeeded:
   * the scaler is refitted first, and each model is replaced by a new,
   * unfitted one before its fit, so a raise leaves that one unusable and
   * the later ones as they were.
   */
  function AfterFits(m: DemoModels, f: DemoFits): (r: (DemoModels, bool)) {
    var m0 := m.(scale := f.scale);
    if f.xgb.None? then (m0.(xgb := _ => None), false)
    else
      var m1 := m0.(xgb := f.xgb.value.0, importances := f.xgb.value.1);
      if f.forest.None? then (m1.(forest := _ => None), false)
      else
        var m2 := m1.(forest := f.forest.value);
        if f.meta.None? then (m2.(meta := (_, _) => None), false)
        else (m2.(meta := f.meta.value), true)
  }

  /**
   * Training succeeds exactly when all three fits do, and then the models
   * are exactly the fitted ones; after a failed fit every prediction raises.
   */
  lemma AfterFitsOutcome(m: DemoModels, f: DemoFits, v: seq<real>)
    ensures var (m', ok) := AfterFits(m, f);
            (ok <==> f.xgb.Some? && f.forest.Some? && f.meta.Some?)
            && m'.scale == f.scale
            && (ok ==> m' == DemoModels(f.scale, f.xgb.value.0, f.forest.value, f.meta.value, f.xgb.value.1))
            && (!ok ==> Predicted(m', v).Err?)
  {
  }

  datatype Prediction = Prediction(
    ensemble: real,
    xgboost: real,
    forest: real,
    bullish: bool,
    confidence: real,
    featureCount: nat)

  /** Scaling and the three models; `predict` has no handler, so a failure raises. */
  function Predicted(m: DemoModels, v: seq<real>): (r: Result<Prediction>)
    ensures r.Ok? ==> r.value.featureCount == |v| && (r.value.bullish <==> r.value.ensemble > 0.5)
                      && r.value.confidence == Confidence(r.value.ensemble)
  {
    match m.scale(v)
    case None => Err("scaler failed")
    case Some(x) =>
      match (m.xgb(x), m.forest(x))
      case (Some(a), Some(b)) =>
        (match m.meta(a, b)
         case Some(p) => Ok(Prediction(p, a, b, IsBullish(p), Confidence(p), |v|))
         case None => Err("meta-learner failed"))
      case _ => Err("base model failed")
  }

  /** A meta-learner that returns probabilities keeps the confidence in [0, 1]. */
  lemma PredictedConfidenceBounded(m: DemoModels, v: seq<real>)
    requires forall a, b :: m.meta(a, b).Some? ==> 0.0 <= m.meta(a, b).value <= 1.0
    ensures Predicted(m, v).Ok? ==> 0.0 <= Predicted(m, v).value.confidence <= 1.0
  {
    if Predicted(m, v).Ok? {
      ConfidenceFacts(Predicted(m, v).value.ensemble);
    }
  }

  datatype TrainReport = TrainReport(
    featureImportance: seq<(string, real)>,
    featureCount: nat,
    trainingSamples: nat)

  class CryptoMLDemo {
    var isTrained: bool
    var featureColumns: seq<string>
    var models: DemoModels

    constructor ()
      ensures !isTrained && featureColumns == [] && models == Unfitted()
    {
      isTrained := false;
      featureColumns := [];
      models := Unfitted();
    }

    /**
     * Trains on the generated series. The schema is every generated column
     * but `target` (`SchemaIsFeatures`), fixed before any fit; `fits` are
     * the outcomes of the fits, and a raising one leaves the models
     * `AfterFits` describes. The 80/20 split shuffles, so only its sizes
     * are modelled.
     */
    method TrainEnsemble(fits: DemoFits) returns (r: Result<TrainReport>)
      modifies this
      ensures featureColumns == DEMO_FEATURES
      ensures models == AfterFits(old(models), fits).0 && (r.Ok? <==> AfterFits(old(models), fits).1)
      ensures r.Err? ==> isTrained == old(isTrained)
      ensures r.Ok? ==>
                isTrained
                && r.value == TrainReport(SortDesc(Zip(featureColumns, fits.xgb.value.1)), |featureColumns|,
                                          GENERATED_ROWS - HeldOutFifth(GENERATED_ROWS))
    {
      featureColumns := DEMO_FEATURES;
      models := models.(scale := fits.scale);
      models := models.(xgb := _ => None);
      if fits.xgb.None? {
        return Err("XGBoost fit failed");
      }
      models := models.(xgb := fits.xgb.value.0, importances := fits.xgb.value.1);
      models := models.(forest := _ => None);
      if fits.forest.None? {
        return Err("random forest fit failed");
      }
      models := models.(forest := fits.forest.value);
      models := models.(meta := (_, _) => None);
      if fits.meta.None? {
        return Err("meta-learner fit failed");
      }
      models := models.(meta := fits.meta.value);
      isTrained := true;
      r := Ok(TrainReport(SortDesc(Zip(featureColumns, fits.xgb.value.1)), |featureColumns|,
                          GENERATED_ROWS - HeldOutFifth(GENERATED_ROWS)));
    }

    /** Appends one value per schema column. */
    method BuildFeatureVector(features: map<string, real>) returns (v: seq<real>)
      ensures v == FeatureVector(features, featureColumns)
    {
      v := [];
      for i := 0 to |featureColumns|
        invariant |v| == i
        invariant forall k :: 0 <= k < i ==> v[k] == ColumnValue(features, featureColumns[k])
      {
        var col := featureColumns[i];
        if col in features {
          v := v + [features[col]];
        } else {
          v := v + [Fallback(features, col)];
        }
      }
    }

    /**
     * Trains first when untrained (with `fits` as the fits' outcomes), then
     * predicts from the feature vector.
     */
    method Predict(features: map<string, real>, fits: DemoFits) returns (r: Result<Prediction>)
      modifies this
      ensures old(isTrained) ==>
                isTrained && featureColumns == old(featureColumns) && models == old(models)
      ensures !old(isTrained) ==> featureColumns == DEMO_FEATURES
                                  && isTrained == AfterFits(old(models), fits).1
                                  && models == AfterFits(old(models), fits).0
      ensures isTrained ==> r == Predicted(models, FeatureVector(features, featureColumns))
      ensures !isTrained ==> r.Err?
    {
      if !isTrained {
        var t := TrainEnsemble(fits);
        if t.Err? {
          return Err(t.msg);
        }
      }
      var v := BuildFeatureVector(features);
      r := Predicted(models, v);
    }

    /** The top `topK` (column, importance) pairs and the schema size. */
    method GetFeatureImportance(topK: nat) returns (r: Result<(seq<(string, real)>, nat)>)
      ensures r.Err? <==> !isTrained
      ensures r.Ok? ==> r.value == (TopK(Zip(featureColumns, models.importances), topK), |featureColumns|)
    {
      if !isTrained {
        return Err("Model not trained");
      }
      r := Ok((TopK(Zip(featureColumns, models.importances), topK), |featureColumns|));
    }
  }

  /** The schema `train_ensemble` fixes is the generated frame without `target`, 31 columns. */
  lemma SchemaIsFeatures()
    ensures Without(GENERATED_COLUMNS, {"target"}) == DEMO_FEATURES
    ensures |DEMO_FEATURES| == 31
  {
    assert "target" !in DEMO_FEATURES;
    WithoutAppended(DEMO_FEATURES, "target");
  }
}
