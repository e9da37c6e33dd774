/**
 * The regression service of `services/advancedMLService.py`: XGBoost, a
 * random forest, an optional LSTM over windows of 10 rows and a voting
 * ensemble of the first two, trained on a chronological split of the
 * engineered frame, with guarded predictions and a fixed confidence table.
 */
module AdvancedMl {
  import opened Common

  // ---------------------------------------------------------------------
  // Windows for the sequence model

  /**
   * `create_sequences`: the window of `seqLength` rows starting at each `i`
   * with `i + seqLength < |xs|`, paired with the target of the row just
   * after it.
   */
  function Sequences<X, Y>(xs: seq<X>, ys: seq<Y>, seqLength: nat): (r: (seq<seq<X>>, seq<Y>))
    requires |ys| == |xs|
  {
    var count := Max(0, |xs| - seqLength);
    (seq(count, i requires 0 <= i < count => xs[i..i + seqLength]),
     seq(count, i requires 0 <= i < count => ys[i + seqLength]))
  }

  lemma SequencesShape<X, Y>(xs: seq<X>, ys: seq<Y>, seqLength: nat)
    requires |ys| == |xs|
    ensures var r := Sequences(xs, ys, seqLength);
            |r.0| == |r.1| == Max(0, |xs| - seqLength)
            && (forall i :: 0 <= i < |r.0| ==> |r.0[i]| == seqLength)
            && (forall i :: 0 <= i < |r.0| ==> r.1[i] == ys[i + seqLength])
            && (forall i :: 0 <= i < |r.0| ==> r.0[i] + [xs[i + seqLength]] == xs[i..i + seqLength + 1])
  {
    var r := Sequences(xs, ys, seqLength);
    forall i | 0 <= i < |r.0| ensures r.0[i] + [xs[i + seqLength]] == xs[i..i + seqLength + 1] {
      assert xs[i..i + seqLength + 1] == xs[i..i + seqLength] + [xs[i + seqLength]];
    }
  }

  /** The loop of `create_sequences`. */
  method CreateSequences<X, Y>(xs: seq<X>, ys: seq<Y>, seqLength: nat) returns (sx: seq<seq<X>>, sy: seq<Y>)
    requires |ys| == |xs|
    ensures (sx, sy) == Sequences(xs, ys, seqLength)
  {
    sx, sy := [], [];
    var i := 0;
    while i < |xs| - seqLength
      invariant 0 <= i && (|xs| - seqLength > 0 ==> i <= |xs| - seqLength)
      invariant |xs| - seqLength <= 0 ==> i == 0
      invariant |sx| == |sy| == i
      invariant forall k :: 0 <= k < i ==> sx[k] == xs[k..k + seqLength] && sy[k] == ys[k + seqLength]
    {
      sx := sx + [xs[i..i + seqLength]];
      sy := sy + [ys[i + seqLength]];
      i := i + 1;
    }
    var r := Sequences(xs, ys, seqLength);
    assert i == Max(0, |xs| - seqLength);
    assert sx == r.0;
    assert sy == r.1;
  }

  // ---------------------------------------------------------------------
  // Small rules

  const XGBOOST := "xgboost"
  const RANDOM_FOREST := "random_forest"
  const LSTM := "lstm"
  const ENSEMBLE := "ensemble"
  const LSTM_WINDOW: nat := 10

  /** The per-model factor of the confidence table; 0.7 for a name it does not list. */
  function ConfidenceFactor(modelName: string): real {
    if modelName == XGBOOST then 0.9
    else if modelName == RANDOM_FOREST then 0.85
    else if modelName == LSTM then 0.8
    else if modelName == ENSEMBLE then 0.95
    else 0.7
  }

  /**
   * `_calculate_confidence`: 0.7 times the model's factor, clamped to
   * [0.1, 0.99]. The feature variance it computes first is never used, so
   * the rows are not an input here.
   */
  function CalculateConfidence(modelName: string): (c: real)
    ensures 0.1 <= c <= 0.99
  {
    Clamp(0.7 * ConfidenceFactor(modelName), 0.1, 0.99)
  }

  /** The clamp never binds: each model gets exactly 0.7 times its factor. */
  lemma ConfidenceTable(modelName: string)
    ensures CalculateConfidence(modelName) == 0.7 * ConfidenceFactor(modelName)
    ensures CalculateConfidence(ENSEMBLE) == 0.665 && CalculateConfidence(XGBOOST) == 0.63
    ensures CalculateConfidence(RANDOM_FOREST) == 0.595 && CalculateConfidence(LSTM) == 0.56
    ensures modelName !in {XGBOOST, RANDOM_FOREST, LSTM, ENSEMBLE} ==> CalculateConfidence(modelName) == 0.49
  {
  }

  /** `(day_of_week >= 5).astype(int)`: Saturday (5) and Sunday (6). */
  function IsWeekend(dayOfWeek: nat): (w: nat)
    requires dayOfWeek < 7
    ensures w <= 1
  {
    if dayOfWeek >= 5 then 1 else 0
  }

  lemma WeekendDays()
    ensures forall d :: 0 <= d < 5 ==> IsWeekend(d) == 0
    ensures IsWeekend(5) == 1 && IsWeekend(6) == 1
  {
  }

  // ---------------------------------------------------------------------
  // Feature engineering: the columns each block adds, in order

  /** A block of assignments, run when every `guard` column is present at that point. */
  datatype Block = Block(guard: seq<string>, adds: seq<string>)

  predicate AllIn(names: seq<string>, cols: seq<string>) {
    forall n | n in names :: n in cols
  }

  /** The blocks run in order; each sees the columns its predecessors assigned. */
  function Apply(cols: seq<string>, bs: seq<Block>): (r: seq<string>)
    ensures |cols| <= |r| && r[..|cols|] == cols
  {
    if bs == [] then cols
    else
      var p := Apply(cols, bs[..|bs| - 1]);
      var b := bs[|bs| - 1];
      var r := AddIf(AllIn(b.guard, p), p, b.adds);
      assert r[..|cols|] == r[..|p|][..|cols|];
      r
  }

  /** Block `j` runs: its guard holds on the frame the blocks before it leave. */
  predicate Fires(cols: seq<string>, bs: seq<Block>, j: nat)
    requires j < |bs|
  {
    AllIn(bs[j].guard, Apply(cols, bs[..j]))
  }

  /** Some block that runs assigns `x`. */
  predicate Produced(cols: seq<string>, bs: seq<Block>, x: string) {
    exists j | 0 <= j < |bs| :: Fires(cols, bs, j) && x in bs[j].adds
  }

  /** The frame holds exactly the input columns and the columns of the blocks that run. */
  lemma {:induction false} ApplyMembers(cols: seq<string>, bs: seq<Block>, x: string)
    ensures x in Apply(cols, bs) <==> x in cols || Produced(cols, bs, x)
  {
    if bs != [] {
      var n := |bs| - 1;
      var p := Apply(cols, bs[..n]);
      ApplyMembers(cols, bs[..n], x);
      AddIfMembers(AllIn(bs[n].guard, p), p, bs[n].adds, x);
      ProducedSnoc(cols, bs, x);
    }
  }

  /** A column is produced by the blocks before the last or by the last one, when it runs. */
  lemma ProducedSnoc(cols: seq<string>, bs: seq<Block>, x: string)
    requires bs != []
    ensures var n := |bs| - 1;
            Produced(cols, bs, x) <==> Produced(cols, bs[..n], x) || (Fires(cols, bs, n) && x in bs[n].adds)
  {
    var n := |bs| - 1;
    if Produced(cols, bs, x) {
      var j :| 0 <= j < |bs| && Fires(cols, bs, j) && x in bs[j].adds;
      if j < n {
        InitFires(cols, bs, n, j);
      }
    }
    if Produced(cols, bs[..n], x) {
      var j :| 0 <= j < n && Fires(cols, bs[..n], j) && x in bs[..n][j].adds;
      InitFires(cols, bs, n, j);
    }
  }

  /** Dropping later blocks does not change whether an earlier one runs. */
  lemma InitFires(cols: seq<string>, bs: seq<Block>, n: nat, j: nat)
    requires j < n <= |bs|
    ensures bs[..n][j] == bs[j] && Fires(cols, bs[..n], j) == Fires(cols, bs, j)
  {
    assert bs[..n][..j] == bs[..j];
  }

  /** A block whose guard columns are inputs always runs and assigns all its columns. */
  lemma ApplyAdds(cols: seq<string>, bs: seq<Block>, j: nat)
    requires j < |bs| && AllIn(bs[j].guard, cols)
    ensures Fires(cols, bs, j)
    ensures forall x | x in bs[j].adds :: x in Apply(cols, bs)
  {
    forall n | n in bs[j].guard ensures n in Apply(cols, bs[..j]) {
      ApplyMembers(cols, bs[..j], n);
    }
    forall x | x in bs[j].adds ensures x in Apply(cols, bs) {
      ApplyMembers(cols, bs, x);
    }
  }

  const PRICE_INDICATORS: seq<string> :=
    ["price_pct_change", "price_log_return", "price_volatility",
     "ma_5", "price_ma_5_ratio", "ma_10", "price_ma_10_ratio",
     "ma_20", "price_ma_20_ratio", "ma_50", "price_ma_50_ratio",
     "bb_upper", "bb_lower", "bb_position", "rsi"]
  const VOLUME_INDICATORS: seq<string> := ["volume_pct_change", "volume_ma_10", "volume_ratio"]
  const TIME_COLUMNS: seq<string> :=
    ["timestamp", "hour", "day_of_week", "is_weekend", "hour_sin", "hour_cos", "dow_sin", "dow_cos"]

  /**
   * The blocks of `engineer_features`: price, volume, the four sentiment
   * scores, the two interactions, time, then for each lag 1, 2, 3, 6, 12,
   * 24 the price lag and the volume lag.
   */
  const ENGINEERING: seq<Block> := [
    Block(["price"], PRICE_INDICATORS),
    Block(["volume"], VOLUME_INDICATORS),
    Block(["social_score"], ["social_momentum", "social_ma_5"]),
    Block(["tech_score"], ["tech_momentum", "tech_ma_5"]),
    Block(["fund_score"], ["fund_momentum", "fund_ma_5"]),
    Block(["astro_score"], ["astro_momentum", "astro_ma_5"]),
    Block(["tech_score", "social_score"], ["tech_social_interaction"]),
    Block(["price_volatility", "volume_ratio"], ["volatility_volume_interaction"]),
    Block(["timestamp"], TIME_COLUMNS),
    Block(["price"], ["price_lag_1"]), Block(["volume"], ["volume_lag_1"]),
    Block(["price"], ["price_lag_2"]), Block(["volume"], ["volume_lag_2"]),
    Block(["price"], ["price_lag_3"]), Block(["volume"], ["volume_lag_3"]),
    Block(["price"], ["price_lag_6"]), Block(["volume"], ["volume_lag_6"]),
    Block(["price"], ["price_lag_12"]), Block(["volume"], ["volume_lag_12"]),
    Block(["price"], ["price_lag_24"]), Block(["volume"], ["volume_lag_24"])]

  /** The columns `engineer_features` leaves; the input columns keep their place. */
  function EngineeredColumns(cols: seq<string>): (r: seq<string>)
    ensures |cols| <= |r| && r[..|cols|] == cols
  {
    Apply(cols, ENGINEERING)
  }

  /**
   * A block guarded by input columns assigns its columns; in particular
   * the price indicators and price lags exist whenever `price` does.
   */
  lemma EngineeredAdds(cols: seq<string>, j: nat)
    requires j < |ENGINEERING| && AllIn(ENGINEERING[j].guard, cols)
    ensures forall x | x in ENGINEERING[j].adds :: x in EngineeredColumns(cols)
  {
    ApplyAdds(cols, ENGINEERING, j);
  }

  /** An engineered column is an input column or belongs to a block that ran. */
  lemma EngineeredOnly(cols: seq<string>, x: string)
    ensures x in EngineeredColumns(cols) <==>
              x in cols || exists j | 0 <= j < |ENGINEERING| :: Fires(cols, ENGINEERING, j) && x in ENGINEERING[j].adds
  {
    ApplyMembers(cols, ENGINEERING, x);
  }

  /** With price and volume present, the volatility interaction is computed from the engineered factors. */
  lemma VolatilityInteraction(cols: seq<string>)
    requires "price" in cols && "volume" in cols
    ensures "volatility_volume_interaction" in EngineeredColumns(cols)
  {
    var bs := ENGINEERING;
    assert bs[7].guard == ["price_volatility", "volume_ratio"];
    assert bs[7].adds == ["volatility_volume_interaction"];
    assert AllIn(bs[0].guard, cols) && "price_volatility" == bs[0].adds[2];
    assert AllIn(bs[1].guard, cols) && "volume_ratio" == bs[1].adds[2];
    EarlierBlocksEnable(cols, bs, 0, 1, 7);
    assert bs[7].adds[0] in bs[7].adds;
  }

  /** A block guarded by two columns that earlier input-guarded blocks assign runs as well. */
  lemma EarlierBlocksEnable(cols: seq<string>, bs: seq<Block>, i: nat, k: nat, j: nat)
    requires i < j && k < j && j < |bs| && |bs[j].guard| == 2
    requires AllIn(bs[i].guard, cols) && bs[j].guard[0] in bs[i].adds
    requires AllIn(bs[k].guard, cols) && bs[j].guard[1] in bs[k].adds
    ensures Fires(cols, bs, j) && forall x | x in bs[j].adds :: x in Apply(cols, bs)
  {
    var init := bs[..j];
    InitFires(cols, bs, j, i);
    InitFires(cols, bs, j, k);
    ApplyAdds(cols, init, i);
    ApplyAdds(cols, init, k);
    assert bs[j].guard == [bs[j].guard[0], bs[j].guard[1]];
    assert Fires(cols, bs, j);
    forall x | x in bs[j].adds ensures x in Apply(cols, bs) {
      ApplyMembers(cols, bs, x);
    }
  }

  /** A guard column no block assigns must be an input for its blocks to run. */
  lemma GuardNeverAssigned(cols: seq<string>, bs: seq<Block>, g: string, j: nat)
    requires j < |bs| && g in bs[j].guard && g !in cols
    requires forall i | 0 <= i < |bs| :: g !in bs[i].adds
    ensures !Fires(cols, bs, j)
  {
    ApplyMembers(cols, bs[..j], g);
  }

  /** Without a `price` column no price block runs: no price indicator and no price lag is computed. */
  lemma NoPriceBlockWithoutPrice(cols: seq<string>, j: nat)
    requires "price" !in cols && j < |ENGINEERING| && "price" in ENGINEERING[j].guard
    ensures !Fires(cols, ENGINEERING, j)
  {
    forall i | 0 <= i < |ENGINEERING| ensures "price" !in ENGINEERING[i].adds {
      PriceNotAssigned(i);
    }
    GuardNeverAssigned(cols, ENGINEERING, "price", j);
  }

  lemma PriceNotAssigned(i: nat)
    requires i < |ENGINEERING|
    ensures "price" !in ENGINEERING[i].adds
  {
    if i == 0 {
      forall k | 0 <= k < |PRICE_INDICATORS| ensures PRICE_INDICATORS[k] != "price" {
        assert |PRICE_INDICATORS[k]| != 5 || PRICE_INDICATORS[k][0] == 'm';
      }
    }
  }

  /** A frame as its columns and its number of rows. */
  datatype Table = Table(columns: seq<string>, rows: nat)

  /** pandas' `DataFrame.empty`: no rows or no columns. */
  predicate Empty(t: Table) {
    t.rows == 0 || |t.columns| == 0
  }

  /**
   * `engineer_features`: an empty frame comes back unchanged; otherwise the
   * engineered columns, and the `kept` rows `dropna` leaves (it depends on
   * where values are missing, so it is an input).
   */
  function EngineerFeatures(df: Table, kept: nat): (r: Table)
    requires kept <= df.rows
    ensures r.rows <= df.rows
    ensures Empty(df) ==> r == df
    ensures !Empty(df) ==> |df.columns| <= |r.columns| && r.columns[..|df.columns|] == df.columns && r.rows == kept
  {
    if Empty(df) then df else Table(EngineeredColumns(df.columns), kept)
  }

  /** The decimal digits of a natural number, without leading zeros, as `str(n)` prints it. */
  function NatToString(n: nat): (s: string)
    ensures |s| > 0 && (s[0] == '0' <==> n == 0)
    ensures forall i :: 0 <= i < |s| ==> '0' <= s[i] <= '9'
  {
    var d := ['0', '1', '2', '3', '4', '5', '6', '7', '8', '9'];
    if n < 10 then [d[n]] else NatToString(n / 10) + [d[n % 10]]
  }

  /** The number a string of decimal digits denotes. */
  function DecimalValue(s: string): nat
    requires forall i :: 0 <= i < |s| ==> '0' <= s[i] <= '9'
  {
    if s == [] then 0 else 10 * DecimalValue(s[..|s| - 1]) + (s[|s| - 1] as int - '0' as int)
  }

  /** The digits denote the number they were printed from. */
  lemma {:induction false} NatToStringValue(n: nat)
    ensures DecimalValue(NatToString(n)) == n
  {
    if n >= 10 {
      var s := NatToString(n);
      NatToStringValue(n / 10);
      assert s[..|s| - 1] == NatToString(n / 10);
    }
  }

  /** Different numbers print differently. */
  lemma NatToStringInjective(m: nat, n: nat)
    requires NatToString(m) == NatToString(n)
    ensures m == n
  {
    NatToStringValue(m);
    NatToStringValue(n);
  }

  /** The placeholder names `feature_0`, `feature_1`, ... */
  function PlaceholderNames(n: nat): (names: seq<string>)
    ensures |names| == n
    ensures forall i :: 0 <= i < n ==> names[i] == "feature_" + NatToString(i)
  {
    seq(n, i requires 0 <= i < n => "feature_" + NatToString(i))
  }

  /** No two features share a placeholder name. */
  lemma PlaceholderNamesDistinct(n: nat, i: nat, j: nat)
    requires i < n && j < n && i != j
    ensures PlaceholderNames(n)[i] != PlaceholderNames(n)[j]
  {
    var a, b := PlaceholderNames(n)[i], PlaceholderNames(n)[j];
    if a == b {
      assert a[8..] == NatToString(i) && b[8..] == NatToString(j);
      NatToStringInjective(i, j);
    }
  }

  // ---------------------------------------------------------------------
  // The service

  /** A fitted regressor applied to a batch of scaled rows; None: it raised. */
  type Predictor = seq<seq<real>> -> Option<real>

  /** What a call of `prepare_data` produces: split sizes and the selected feature count. */
  datatype Prepared = Prepared(trainRows: nat, testRows: nat, selectedFeatures: nat)

  /** The outcomes of the fits (None: the fit raised), with the importances of the two tree models. */
  datatype Fits = Fits(
    xgb: Option<(Predictor, seq<real>)>,
    forest: Option<(Predictor, seq<real>)>,
    lstm: Option<Predictor>,
    ensemble: Option<Predictor>)

  datatype TrainSummary = TrainSummary(
    modelsTrained: set<string>,
    featuresSelected: nat,
    trainingSamples: nat,
    testSamples: nat)

  /** The models once both tree fits, and the LSTM fit when it runs, have succeeded. */
  function BaseFitted(m: map<string, Predictor>, fits: Fits, withLstm: bool): map<string, Predictor>
    requires fits.xgb.Some? && fits.forest.Some? && (withLstm ==> fits.lstm.Some?)
  {
    var trees := m[XGBOOST := fits.xgb.value.0][RANDOM_FOREST := fits.forest.value.0];
    if withLstm then trees[LSTM := fits.lstm.value] else trees
  }

  class AdvancedMLService {
    var isTrained: bool
    var models: map<string, Predictor>
    /** The names the fitted feature selector keeps; None before the first `prepare_data`. */
    var selector: Option<seq<string>>
    var scalerFitted: bool
    var featureImportance: map<string, seq<real>>

    constructor ()
      ensures !isTrained && models == map[] && selector.None? && !scalerFitted && featureImportance == map[]
    {
      isTrained := false;
      models := map[];
      selector := None;
      scalerFitted := false;
      featureImportance := map[];
    }

    /**
     * Engineers `df` (`kept`: the rows `dropna` leaves) and raises on an
     * empty result or a missing target column. The selector is fitted
     * once, keeping `min(50, #features)` columns (`selection`, the columns
     * `f_regression` ranks best); later calls reuse it. The split is
     * chronological at `int(n * 0.8)`.
     */
    method PrepareData(df: Table, kept: nat, targetColumn: string, selection: seq<string>) returns (r: Result<Prepared>)
      requires kept <= df.rows
      requires |selection| == Min(50, |Without(EngineerFeatures(df, kept).columns, {targetColumn, "timestamp"})|)
      modifies this`selector, this`scalerFitted
      ensures var data := EngineerFeatures(df, kept);
              (Empty(data) || targetColumn !in data.columns) <==> r.Err?
      ensures r.Err? ==> selector == old(selector) && scalerFitted == old(scalerFitted)
      ensures r.Ok? ==>
                var n := EngineerFeatures(df, kept).rows;
                selector == (if old(selector).None? then Some(selection) else old(selector))
                && scalerFitted
                && r.value == Prepared(SplitIndex(n), n - SplitIndex(n), |selector.value|)
    {
      var data := EngineerFeatures(df, kept);
      if Empty(data) {
        return Err("No data available after feature engineering");
      }
      if targetColumn !in data.columns {
        return Err("KeyError: target column");
      }
      if selector.None? {
        selector := Some(selection);
      }
      scalerFitted := true;
      var k := SplitIndex(data.rows);
      r := Ok(Prepared(k, data.rows - k, |selector.value|));
    }

    /**
     * The XGBoost and random-forest fits, then the LSTM fit when more than
     * 50 rows train; each fit is recorded as soon as it succeeds.
     */
    method FitBaseModels(fits: Fits, trainRows: nat) returns (r: Result<()>)
      modifies this`models, this`featureImportance
      ensures r.Ok? <==> fits.xgb.Some? && fits.forest.Some? && (trainRows > 50 ==> fits.lstm.Some?)
      ensures fits.xgb.None? ==> models == old(models) && featureImportance == old(featureImportance)
      ensures fits.xgb.Some? && fits.forest.None? ==>
                models == old(models)[XGBOOST := fits.xgb.value.0]
                && featureImportance == old(featureImportance)[XGBOOST := fits.xgb.value.1]
      ensures fits.xgb.Some? && fits.forest.Some? ==>
                featureImportance == old(featureImportance)[XGBOOST := fits.xgb.value.1]
                                                           [RANDOM_FOREST := fits.forest.value.1]
      ensures fits.xgb.Some? && fits.forest.Some? && trainRows > 50 && fits.lstm.None? ==>
                models == BaseFitted(old(models), fits, false)
      ensures r.Ok? ==> models == BaseFitted(old(models), fits, trainRows > 50)
      ensures fits.xgb.Some? && fits.forest.Some? && trainRows > 50 && fits.lstm.None? ==>
                models == old(models)[XGBOOST := fits.xgb.value.0][RANDOM_FOREST := fits.forest.value.0]
                && featureImportance == old(featureImportance)[XGBOOST := fits.xgb.value.1]
                                                              [RANDOM_FOREST := fits.forest.value.1]
      ensures r.Ok? ==>
                models == (if trainRows > 50
                           then old(models)[XGBOOST := fits.xgb.value.0][RANDOM_FOREST := fits.forest.value.0]
                                           [LSTM := fits.lstm.value]
                           else old(models)[XGBOOST := fits.xgb.value.0][RANDOM_FOREST := fits.forest.value.0])
                && featureImportance == old(featureImportance)[XGBOOST := fits.xgb.value.1]
                                                              [RANDOM_FOREST := fits.forest.value.1]
    {
      if fits.xgb.None? {
        return Err("xgboost fit failed");
      }
      models := models[XGBOOST := fits.xgb.value.0];
      featureImportance := featureImportance[XGBOOST := fits.xgb.value.1];
      if fits.forest.None? {
        return Err("random forest fit failed");
      }
      models := models[RANDOM_FOREST := fits.forest.value.0];
      featureImportance := featureImportance[RANDOM_FOREST := fits.forest.value.1];
      if trainRows > 50 {
        if fits.lstm.None? {
          return Err("lstm fit failed");
        }
        models := models[LSTM := fits.lstm.value];
      }
      r := Ok(());
    }

    /** Raises unless both tree models are present; then records the fitted voting ensemble. */
    method CreateEnsembleModel(fit: Option<Predictor>) returns (r: Result<()>)
      modifies this`models
      ensures (XGBOOST !in old(models) || RANDOM_FOREST !in old(models)) ==> r.Err? && models == old(models)
      ensures XGBOOST in old(models) && RANDOM_FOREST in old(models) ==>
                (fit.None? ==> r.Err? && models == old(models))
                && (fit.Some? ==> r.Ok? && models == old(models)[ENSEMBLE := fit.value])
    {
      if XGBOOST !in models || RANDOM_FOREST !in models {
        return Err("Base models must be trained before creating ensemble");
      }
      if fit.None? {
        return Err("ensemble fit failed");
      }
      models := models[ENSEMBLE := fit.value];
      r := Ok(());
    }

    /**
     * Prepares the data, then fits XGBoost, the forest, the LSTM when the
     * training part has more than 50 rows, and the ensemble; any exception
     * becomes an error result. Models fitted before a failure stay
     * recorded, but the service is marked trained only when all succeed.
     */
    method TrainModels(df: Table, kept: nat, targetColumn: string, selection: seq<string>, fits: Fits)
      returns (r: Result<TrainSummary>)
      requires kept <= df.rows
      requires |selection| == Min(50, |Without(EngineerFeatures(df, kept).columns, {targetColumn, "timestamp"})|)
      modifies this
      ensures r.Err? ==> isTrained == old(isTrained)
      ensures var data := EngineerFeatures(df, kept);
              r.Ok? ==> fits.xgb.Some? && fits.forest.Some? && fits.ensemble.Some?
                        && (SplitIndex(data.rows) > 50 ==> fits.lstm.Some?)
      ensures var data := EngineerFeatures(df, kept);
              (Empty(data) || targetColumn !in data.columns) ==>
                r.Err? && models == old(models) && featureImportance == old(featureImportance)
                && selector == old(selector) && scalerFitted == old(scalerFitted)
      ensures var data := EngineerFeatures(df, kept);
              var big := SplitIndex(data.rows) > 50;
              !Empty(data) && targetColumn in data.columns ==>
                selector == (if old(selector).None? then Some(selection) else old(selector)) && scalerFitted
                && (fits.xgb.None? ==> models == old(models) && featureImportance == old(featureImportance))
                && (fits.xgb.Some? && fits.forest.None? ==>
                      models == old(models)[XGBOOST := fits.xgb.value.0]
                      && featureImportance == old(featureImportance)[XGBOOST := fits.xgb.value.1])
                && (fits.xgb.Some? && fits.forest.Some? ==>
                      featureImportance == old(featureImportance)[XGBOOST := fits.xgb.value.1]
                                                                 [RANDOM_FOREST := fits.forest.value.1])
                && (fits.xgb.Some? && fits.forest.Some? && big && fits.lstm.None? ==>
                      models == BaseFitted(old(models), fits, false))
                && (fits.xgb.Some? && fits.forest.Some? && (big ==> fits.lstm.Some?) && fits.ensemble.None? ==>
                      models == BaseFitted(old(models), fits, big))
      ensures var data := EngineerFeatures(df, kept);
              r.Ok? ==> isTrained && !Empty(data) && targetColumn in data.columns
                        && r.value.modelsTrained == models.Keys
                        && {XGBOOST, RANDOM_FOREST, ENSEMBLE} <= models.Keys
                        && (SplitIndex(data.rows) > 50 ==> LSTM in models)
                        && r.value.trainingSamples == SplitIndex(data.rows)
                        && r.value.testSamples == data.rows - SplitIndex(data.rows)
      ensures var data := EngineerFeatures(df, kept);
              !Empty(data) && targetColumn in data.columns
              && fits.xgb.Some? && fits.forest.Some? && fits.ensemble.Some?
              && (SplitIndex(data.rows) > 50 ==> fits.lstm.Some?) ==>
                r.Ok?
                && models == (if SplitIndex(data.rows) > 50
                              then old(models)[XGBOOST := fits.xgb.value.0][RANDOM_FOREST := fits.forest.value.0]
                                              [LSTM := fits.lstm.value][ENSEMBLE := fits.ensemble.value]
                              else old(models)[XGBOOST := fits.xgb.value.0][RANDOM_FOREST := fits.forest.value.0]
                                              [ENSEMBLE := fits.ensemble.value])
                && featureImportance == old(featureImportance)[XGBOOST := fits.xgb.value.1]
                                                             [RANDOM_FOREST := fits.forest.value.1]
    {
      var p := PrepareData(df, kept, targetColumn, selection);
      if p.Err? {
        return Err(p.msg);
      }
      var f := FitModels(fits, p.value.trainRows);
      if f.Err? {
        return Err(f.msg);
      }
      r := Ok(TrainSummary(models.Keys, p.value.selectedFeatures, p.value.trainRows, p.value.testRows));
    }

    /**
     * The fits of `train_models` once the data is prepared: the base models,
     * then the ensemble; the service is marked trained only when all succeed.
     */
    method FitModels(fits: Fits, trainRows: nat) returns (r: Result<()>)
      modifies this`models, this`featureImportance, this`isTrained
      ensures r.Ok? <==> fits.xgb.Some? && fits.forest.Some? && fits.ensemble.Some?
                         && (trainRows > 50 ==> fits.lstm.Some?)
      ensures r.Ok? ==> isTrained && models == BaseFitted(old(models), fits, trainRows > 50)[ENSEMBLE := fits.ensemble.value]
      ensures r.Err? ==> isTrained == old(isTrained)
      ensures fits.xgb.None? ==> models == old(models) && featureImportance == old(featureImportance)
      ensures fits.xgb.Some? && fits.forest.None? ==>
                models == old(models)[XGBOOST := fits.xgb.value.0]
                && featureImportance == old(featureImportance)[XGBOOST := fits.xgb.value.1]
      ensures fits.xgb.Some? && fits.forest.Some? ==>
                featureImportance == old(featureImportance)[XGBOOST := fits.xgb.value.1]
                                                           [RANDOM_FOREST := fits.forest.value.1]
      ensures fits.xgb.Some? && fits.forest.Some? && trainRows > 50 && fits.lstm.None? ==>
                models == BaseFitted(old(models), fits, false)
      ensures fits.xgb.Some? && fits.forest.Some? && (trainRows > 50 ==> fits.lstm.Some?) && fits.ensemble.None? ==>
                models == BaseFitted(old(models), fits, trainRows > 50)
    {
      var b := FitBaseModels(fits, trainRows);
      if b.Err? {
        return Err(b.msg);
      }
      var e := CreateEnsembleModel(fits.ensemble);
      if e.Err? {
        return Err(e.msg);
      }
      isTrained := true;
      r := Ok(());
    }

    /**
     * Predicts from the engineered, selected and scaled rows of `df`
     * (`scaled`, None when a transform raised): the last 10 rows for the
     * LSTM, the last row for the others.
     */
    method Predict(scaled: Option<seq<seq<real>>>, modelName: string) returns (r: Result<(real, real)>)
      ensures r.Ok? <==> isTrained && modelName in models && scaled.Some? && |scaled.value| > 0
                         && (modelName == LSTM ==> |scaled.value| >= LSTM_WINDOW)
                         && models[modelName](ModelInput(modelName, scaled.value)).Some?
      ensures r.Ok? ==> r.value == (models[modelName](ModelInput(modelName, scaled.value)).value,
                                    CalculateConfidence(modelName))
    {
      if !isTrained {
        return Err("Models not trained yet");
      }
      if modelName !in models {
        return Err("Model not available");
      }
      if scaled.None? {
        return Err("feature transform failed");
      }
      var rows := scaled.value;
      if |rows| == 0 {
        return Err("No data after feature engineering");
      }
      if modelName == LSTM && |rows| < LSTM_WINDOW {
        return Err("Insufficient data for LSTM prediction");
      }
      var y := models[modelName](ModelInput(modelName, rows));
      if y.None? {
        return Err("prediction failed");
      }
      r := Ok((y.value, CalculateConfidence(modelName)));
    }

    /**
     * The `topK` (name, importance) pairs of a model with importances, by
     * descending importance; the selector's names, or `feature_i` without
     * a selector.
     */
    method GetFeatureImportance(modelName: string, topK: nat) returns (r: Result<seq<(string, real)>>)
      ensures r.Err? <==> modelName !in featureImportance
      ensures r.Ok? ==>
        var imp := featureImportance[modelName];
        var names := if selector.Some? then selector.value else PlaceholderNames(|imp|);
        r.value == TopK(Zip(names, imp), topK)
    {
      if modelName !in featureImportance {
        return Err("Feature importance not available");
      }
      var imp := featureImportance[modelName];
      var names := if selector.Some? then selector.value else PlaceholderNames(|imp|);
      r := Ok(TopK(Zip(names, imp), topK));
    }
  }

  /** The rows a model is applied to: a window of the last 10 for the LSTM, the last one otherwise. */
  function ModelInput(modelName: string, rows: seq<seq<real>>): (x: seq<seq<real>>)
    requires |rows| > 0 && (modelName == LSTM ==> |rows| >= LSTM_WINDOW)
    ensures |x| == (if modelName == LSTM then LSTM_WINDOW else 1)
    ensures x == rows[|rows| - |x|..]
  {
    if modelName == LSTM then rows[|rows| - LSTM_WINDOW..] else [rows[|rows| - 1]]
  }
}
