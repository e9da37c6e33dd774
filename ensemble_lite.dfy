/**
 * The lightweight ensemble (XGBoost + dense network + logistic meta-learner):
 * three-class labelling of the next price change, the frame schema the
 * feature engineering produces, the chronological split, the directional
 * score of the meta-learner's probabilities, the inference-time feature
 * vector and the trained/untrained lifecycle.
 *
 * The learners and the scaler are opaque: each is a function that either
 * returns a vector or fails (None).
 */
module EnsembleLite {
  import opened Common

  // ---------------------------------------------------------------------
  // Labelling

  const BEARISH: nat := 0
  const NEUTRAL: nat := 1
  const BULLISH: nat := 2

  /**
   * Class 2 above +0.5 %, class 0 below -0.5 %, class 1 otherwise; a NaN
   * change has been filled with 0 and is NEUTRAL.
   */
  function TargetClass(c: Change): (t: nat)
    ensures t == BULLISH <==> c.PosInf? || (c.Finite? && c.x > 0.005)
    ensures t == BEARISH <==> c.NegInf? || (c.Finite? && c.x < -0.005)
    ensures t == NEUTRAL <==> c.NaN? || (c.Finite? && -0.005 <= c.x <= 0.005)
  {
    match c
    case PosInf => BULLISH
    case NegInf => BEARISH
    case NaN => NEUTRAL
    case Finite(x) => if x > 0.005 then BULLISH else if x < -0.005 then BEARISH else NEUTRAL
  }

  /**
   * The `target` column for a price series: each row is labelled by its
   * change to the next row; the last row has no next price, its change is
   * filled with 0 and it is therefore NEUTRAL.
   */
  function Targets(prices: seq<real>): (t: seq<nat>)
    ensures |t| == |prices|
    ensures |prices| > 0 ==> t[|prices| - 1] == NEUTRAL
    ensures forall i :: 0 <= i < |t| ==> t[i] <= BULLISH
  {
    if |prices| == 0 then []
    else if |prices| == 1 then [NEUTRAL]
    else [TargetClass(ChangePct(prices[0], prices[1]))] + Targets(prices[1..])
  }

  lemma {:induction false} TargetsAt(prices: seq<real>, i: nat)
    requires i + 1 < |prices|
    ensures Targets(prices)[i] == TargetClass(ChangePct(prices[i], prices[i + 1]))
  {
    if i > 0 {
      TargetsAt(prices[1..], i - 1);
    }
  }

  /** A move of exactly half a percent either way is NEUTRAL. */
  lemma BoundaryIsNeutral()
    ensures TargetClass(ChangePct(200.0, 201.0)) == NEUTRAL
    ensures TargetClass(ChangePct(200.0, 199.0)) == NEUTRAL
    ensures TargetClass(ChangePct(200.0, 201.2)) == BULLISH
  {
  }

  // ---------------------------------------------------------------------
  // Feature engineering: the columns it adds, in order

  const PRICE_FEATURES: seq<string> :=
    ["price_returns", "price_volatility", "price_sma_5", "price_sma_20",
     "price_ratio_sma", "price_momentum", "rsi_approx"]
  const VOLUME_FEATURES: seq<string> := ["volume_sma", "volume_ratio", "price_volume_trend"]
  const COMPOSITE_FEATURES: seq<string> := ["pillar_mean", "pillar_std", "tech_social_product"]
  const LAG_AND_TARGET: seq<string> :=
    ["price_lag_1", "tech_lag_1", "price_lag_3", "tech_lag_3",
     "future_price", "price_change_pct", "target"]

  /** `{p}_sma` and `{p}_momentum` for each pillar present, in pillar order. */
  function PillarColumns(cols: seq<string>, pillars: seq<string>): (r: seq<string>)
    ensures |cols| <= |r| && r[..|cols|] == cols
    decreases |pillars|, cols
  {
    if pillars == [] then cols
    else
      var p := pillars[0];
      var next := if p in cols then AddColumns(cols, [p + "_sma", p + "_momentum"]) else cols;
      PillarColumns(next, pillars[1..])
  }

  /**
   * The columns of `engineer_features`' output for an input frame with the
   * given columns, or the KeyError it raises when `price` or `tech_score` is
   * missing. None of the columns it adds is named `price`, `volume` or a
   * pillar, so the presence tests can be made on the input columns.
   */
  function EngineeredColumns(cols: seq<string>): (r: Result<seq<string>>)
    ensures r.Ok? <==> "price" in cols && "tech_score" in cols
  {
    if "price" !in cols then Err("KeyError: 'price'")
    else if "tech_score" !in cols then Err("KeyError: 'tech_score'")
    else Ok(Engineer(cols, PRICE_FEATURES, VOLUME_FEATURES, COMPOSITE_FEATURES, LAG_AND_TARGET))
  }

  /** The blocks of `engineer_features`, each given the columns it adds. */
  function Engineer(cols: seq<string>, priceCols: seq<string>, volumeCols: seq<string>,
                    compositeCols: seq<string>, lagCols: seq<string>): seq<string>
  {
    var a := AddColumns(cols, priceCols);
    var b := AddIf("volume" in cols, a, volumeCols);
    var c := PillarColumns(b, PILLARS);
    var d := AddIf(forall p | p in PILLARS :: p in cols, c, compositeCols);
    AddColumns(d, lagCols)
  }

  lemma EngineerKeepsInputs(cols: seq<string>, priceCols: seq<string>, volumeCols: seq<string>,
                            compositeCols: seq<string>, lagCols: seq<string>)
    ensures var e := Engineer(cols, priceCols, volumeCols, compositeCols, lagCols);
            |cols| <= |e| && e[..|cols|] == cols
  {
    var a := AddColumns(cols, priceCols);
    var b := AddIf("volume" in cols, a, volumeCols);
    var c := PillarColumns(b, PILLARS);
    var d := AddIf(forall p | p in PILLARS :: p in cols, c, compositeCols);
    PrefixChain(cols, a, b, c, d, AddColumns(d, lagCols));
  }

  /** The input columns come first, in their own order. */
  lemma EngineeredKeepsInputs(cols: seq<string>)
    requires "price" in cols && "tech_score" in cols
    ensures |cols| <= |EngineeredColumns(cols).value| && EngineeredColumns(cols).value[..|cols|] == cols
  {
    EngineerKeepsInputs(cols, PRICE_FEATURES, VOLUME_FEATURES, COMPOSITE_FEATURES, LAG_AND_TARGET);
  }

  lemma PrefixChain(s0: seq<string>, s1: seq<string>, s2: seq<string>, s3: seq<string>,
                    s4: seq<string>, s5: seq<string>)
    requires |s0| <= |s1| && s1[..|s0|] == s0 && |s1| <= |s2| && s2[..|s1|] == s1
    requires |s2| <= |s3| && s3[..|s2|] == s2 && |s3| <= |s4| && s4[..|s3|] == s3
    requires |s4| <= |s5| && s5[..|s4|] == s4
    ensures |s0| <= |s5| && s5[..|s0|] == s0
  {
    assert s5[..|s0|] == s4[..|s0|] == s3[..|s0|] == s2[..|s0|] == s1[..|s0|];
  }

  /**
   * `feature_columns`: the engineered columns, with `future_price` dropped
   * and the label columns excluded. The raw input columns come first, in
   * their own order.
   */
  function Schema(cols: seq<string>): (r: Result<seq<string>>)
    ensures r.Ok? <==> "price" in cols && "tech_score" in cols
    ensures r.Ok? ==> "target" !in r.value && "price_change_pct" !in r.value
    ensures r.Ok? ==> "future_price" !in r.value
  {
    match EngineeredColumns(cols)
    case Err(m) => Err(m)
    case Ok(all) => Ok(Without(all, LABEL_COLUMNS))
  }

  /** Every input column that is not a label enters the schema. */
  lemma SchemaKeepsInputs(cols: seq<string>)
    ensures Schema(cols).Ok? ==> forall c :: c in cols && c !in LABEL_COLUMNS ==> c in Schema(cols).value
  {
    if Schema(cols).Ok? {
      EngineeredKeepsInputs(cols);
      PrefixMembers(cols, EngineeredColumns(cols).value);
    }
  }

  /** The columns that never enter the schema. */
  const LABEL_COLUMNS: set<string> := {"future_price", "target", "price_change_pct"}

  lemma PrefixMembers(a: seq<string>, b: seq<string>)
    requires |a| <= |b| && b[..|a|] == a
    ensures forall c :: c in a ==> c in b
  {
    forall c | c in a ensures c in b {
      var i :| 0 <= i < |a| && a[i] == c;
      assert b[i] == b[..|a|][i];
    }
  }

  // ---------------------------------------------------------------------
  // The directional score

  /**
   * `(probs[2] - probs[0]) * max(probs)`; a probability vector with fewer
   * than three classes makes `probs[2]` raise, which the prediction turns
   * into 0.0.
   */
  function DirectionalScore(p: seq<real>): real {
    if |p| < 3 then 0.0 else (p[2] - p[0]) * MaxOf(p)
  }

  lemma ProductBounds(d: real, m: real)
    requires -1.0 <= d <= 1.0 && 0.0 <= m <= 1.0
    ensures -1.0 <= d * m <= 1.0
  {
    if d >= 0.0 {
      assert d * m <= 1.0 * m;
    } else {
      assert (-d) * m <= 1.0 * m;
    }
  }

  lemma ProductSign(a: real, b: real)
    requires b > 0.0
    ensures a > 0.0 ==> a * b > 0.0
    ensures a < 0.0 ==> a * b < 0.0
  {
  }

  /** The score of any probability vector lies in [-1, 1]. */
  lemma DirectionalScoreBounded(p: seq<real>)
    requires IsProbVector(p)
    ensures -1.0 <= DirectionalScore(p) <= 1.0
  {
    if |p| >= 3 {
      var m := MaxOf(p);
      var j :| 0 <= j < |p| && p[j] == m;
      ProductBounds(p[2] - p[0], m);
    }
  }

  /** The score has the sign of P(bullish) - P(bearish), and is 0 when they tie. */
  lemma DirectionalScoreSign(p: seq<real>)
    requires |p| >= 3 && IsProbVector(p)
    ensures p[2] == p[0] ==> DirectionalScore(p) == 0.0
    ensures p[2] > p[0] ==> DirectionalScore(p) > 0.0
    ensures p[2] < p[0] ==> DirectionalScore(p) < 0.0
  {
    var m := MaxOf(p);
    var d := p[2] - p[0];
    assert p[2] <= m && p[0] <= m;
    assert 0.0 <= p[0] && 0.0 <= p[2];
    assert DirectionalScore(p) == d * m;
    if d != 0.0 {
      assert m > 0.0;
      ProductSign(d, m);
    }
  }

  // ---------------------------------------------------------------------
  // The inference-time feature vector

  /**
   * The first rule of `_create_feature_vector` that fires for column `col`,
   * or None when none does. The `price` and `volume` rules can never fire:
   * a column equal to a supplied key is caught by the first rule.
   */
  function Rule(f: map<string, real>, col: string): Option<real> {
    if col in f then Some(f[col])
    else if col == "price" && "price" in f then Some(Get(f, "price", 0.0))
    else if col == "volume" && "volume" in f then Some(Get(f, "volume", 0.0))
    else if Contains(col, "tech_score") && "tech_score" in f then Some(f["tech_score"])
    else if Contains(col, "social_score") && "social_score" in f then Some(f["social_score"])
    else if Contains(col, "fund_score") && "fund_score" in f then Some(f["fund_score"])
    else if Contains(col, "astro_score") && "astro_score" in f then Some(f["astro_score"])
    else if col == "pillar_mean" then
      Some(Mean([Get(f, "tech_score", 50.0), Get(f, "social_score", 50.0),
                 Get(f, "fund_score", 50.0), Get(f, "astro_score", 50.0)]))
    else if col == "tech_social_product" then
      Some(Get(f, "tech_score", 50.0) * Get(f, "social_score", 50.0) / 100.0)
    else None
  }

  /** The value the vector holds for `col`: the rule's value, or the initial 0. */
  function ColumnValue(f: map<string, real>, col: string): real {
    Rule(f, col).GetOr(0.0)
  }

  /** The dense vector for a schema: one entry per column, in schema order. */
  function FeatureVector(f: map<string, real>, cols: seq<string>): (v: seq<real>)
    ensures |v| == |cols|
  {
    seq(|cols|, i requires 0 <= i < |cols| => ColumnValue(f, cols[i]))
  }

  /** A supplied key is copied verbatim, whatever else the column name matches. */
  lemma ExactKeyWins(f: map<string, real>, cols: seq<string>, i: nat)
    requires i < |cols| && cols[i] in f
    ensures FeatureVector(f, cols)[i] == f[cols[i]]
  {
  }

  /**
   * A column that is not a key and names a pillar takes that pillar's
   * value when supplied, unless an earlier pillar it names is supplied too;
   * e.g. `tech_score_sma` reads `tech_score`.
   */
  lemma PillarColumnReadsPillar(f: map<string, real>, cols: seq<string>, i: nat, k: nat)
    requires i < |cols| && cols[i] !in f && k < |PILLARS|
    requires Contains(cols[i], PILLARS[k]) && PILLARS[k] in f
    requires forall j :: 0 <= j < k ==> !Contains(cols[i], PILLARS[j]) || PILLARS[j] !in f
    ensures FeatureVector(f, cols)[i] == f[PILLARS[k]]
  {
    TooShort("price", PILLARS[k]);
    TooShort("volume", PILLARS[k]);
    var col := cols[i];
    assert FeatureVector(f, cols)[i] == ColumnValue(f, col);
    if k == 0 {
      assert Rule(f, col) == Some(f["tech_score"]);
    } else if k == 1 {
      assert !Contains(col, PILLARS[0]) || PILLARS[0] !in f;
      assert Rule(f, col) == Some(f["social_score"]);
    } else if k == 2 {
      assert !Contains(col, PILLARS[0]) || PILLARS[0] !in f;
      assert !Contains(col, PILLARS[1]) || PILLARS[1] !in f;
      assert Rule(f, col) == Some(f["fund_score"]);
    } else {
      assert !Contains(col, PILLARS[0]) || PILLARS[0] !in f;
      assert !Contains(col, PILLARS[1]) || PILLARS[1] !in f;
      assert !Contains(col, PILLARS[2]) || PILLARS[2] !in f;
      assert Rule(f, col) == Some(f["astro_score"]);
    }
  }

  /**
   * A column that is not supplied, none of whose contained pillars is
   * supplied, and that is neither composite stays 0: e.g. `tech_score_sma`
   * without `tech_score`.
   */
  lemma MissingPillarStaysZero(f: map<string, real>, cols: seq<string>, i: nat)
    requires i < |cols| && cols[i] !in f
    requires forall k :: 0 <= k < |PILLARS| && Contains(cols[i], PILLARS[k]) ==> PILLARS[k] !in f
    requires cols[i] != "pillar_mean" && cols[i] != "tech_social_product"
    ensures FeatureVector(f, cols)[i] == 0.0
  {
    var col := cols[i];
    assert !(Contains(col, "tech_score") && "tech_score" in f) by { assert PILLARS[0] == "tech_score"; }
    assert !(Contains(col, "social_score") && "social_score" in f) by { assert PILLARS[1] == "social_score"; }
    assert !(Contains(col, "fund_score") && "fund_score" in f) by { assert PILLARS[2] == "fund_score"; }
    assert !(Contains(col, "astro_score") && "astro_score" in f) by { assert PILLARS[3] == "astro_score"; }
    assert Rule(f, col).None?;
  }

  /** With nothing supplied, the composite columns take their neutral values. */
  lemma CompositeDefaults(cols: seq<string>, i: nat, j: nat)
    requires i < |cols| && cols[i] == "pillar_mean"
    requires j < |cols| && cols[j] == "tech_social_product"
    ensures FeatureVector(map[], cols)[i] == 50.0
    ensures FeatureVector(map[], cols)[j] == 25.0
  {
    Mean4(50.0, 50.0, 50.0, 50.0);
  }

  /** `pillar_mean` is the mean of the four pillars, each defaulting to 50. */
  lemma PillarMeanValue(f: map<string, real>, cols: seq<string>, i: nat)
    requires i < |cols| && cols[i] == "pillar_mean" && "pillar_mean" !in f
    ensures FeatureVector(f, cols)[i]
            == (Get(f, "tech_score", 50.0) + Get(f, "social_score", 50.0)
                + Get(f, "fund_score", 50.0) + Get(f, "astro_score", 50.0)) / 4.0
  {
    var t, s, u, a := Get(f, "tech_score", 50.0), Get(f, "social_score", 50.0),
                      Get(f, "fund_score", 50.0), Get(f, "astro_score", 50.0);
    Mean4(t, s, u, a);
    assert !Contains("pillar_mean", "tech_score") && !Contains("pillar_mean", "social_score")
        && !Contains("pillar_mean", "fund_score") && !Contains("pillar_mean", "astro_score") by {
      MissingChar("pillar_mean", "tech_score", 's');
      MissingChar("pillar_mean", "social_score", 's');
      MissingChar("pillar_mean", "fund_score", 's');
      MissingChar("pillar_mean", "astro_score", 's');
    }
  }

  /**
   * `tech_social_product` is the product of the technical and social
   * pillars over 100, each defaulting to 50.
   */
  lemma TechSocialProductValue(f: map<string, real>, cols: seq<string>, i: nat)
    requires i < |cols| && cols[i] == "tech_social_product" && "tech_social_product" !in f
    ensures FeatureVector(f, cols)[i] == Get(f, "tech_score", 50.0) * Get(f, "social_score", 50.0) / 100.0
  {
    var c := cols[i];
    PairNowhere(c, "tech_score", 8);
    PairNowhere(c, "social_score", 10);
    PairNowhere(c, "fund_score", 8);
    PairNowhere(c, "astro_score", 9);
  }

  /** A name lacking a letter every pillar name holds contains no pillar name. */
  lemma NoPillarWithout(s: string, c: char)
    requires c in "score" && c !in s
    ensures forall k :: 0 <= k < |PILLARS| ==> !Contains(s, PILLARS[k])
  {
    MissingChar(s, "tech_score", c);
    MissingChar(s, "social_score", c);
    MissingChar(s, "fund_score", c);
    MissingChar(s, "astro_score", c);
  }

  /** No engineered price column contains a pillar name. */
  lemma PriceFeatureNoPillar(i: nat)
    requires i < |PRICE_FEATURES|
    ensures forall k :: 0 <= k < |PILLARS| ==> !Contains(PRICE_FEATURES[i], PILLARS[k])
  {
    var s := PRICE_FEATURES[i];
    if i == 1 || i == 5 {
      NoPillarWithout(s, 's');
    } else if i == 6 {
      NoPillarWithout(s, 'c');
    } else if i == 4 {
      PairNowhere(s, "tech_score", 5);
      PairNowhere(s, "social_score", 7);
      PairNowhere(s, "fund_score", 5);
      PairNowhere(s, "astro_score", 6);
    } else {
      NoPillarWithout(s, 'o');
    }
  }

  /** No engineered volume or lag column contains a pillar name. */
  lemma VolumeOrLagNoPillar(s: string)
    requires s in VOLUME_FEATURES + LAG_AND_TARGET[..4]
    ensures forall k :: 0 <= k < |PILLARS| ==> !Contains(s, PILLARS[k])
  {
    if s == "volume_sma" {
      NoPillarWithout(s, 'c');
    } else {
      NoPillarWithout(s, 's');
    }
  }

  /**
   * The engineered price, volume and lag columns are not reconstructed
   * from the live inputs: each one that is not supplied stays 0.
   */
  lemma PriceLagNotReconstructed(f: map<string, real>, cols: seq<string>, i: nat)
    requires i < |cols| && cols[i] !in f
    requires cols[i] in PRICE_FEATURES + VOLUME_FEATURES + LAG_AND_TARGET[..4]
    ensures FeatureVector(f, cols)[i] == 0.0
  {
    var all := PRICE_FEATURES + VOLUME_FEATURES + LAG_AND_TARGET[..4];
    var j :| 0 <= j < |all| && all[j] == cols[i];
    if j < |PRICE_FEATURES| {
      PriceFeatureNoPillar(j);
    } else {
      assert cols[i] == (VOLUME_FEATURES + LAG_AND_TARGET[..4])[j - |PRICE_FEATURES|];
      VolumeOrLagNoPillar(cols[i]);
    }
    MissingPillarStaysZero(f, cols, i);
  }

  // ---------------------------------------------------------------------
  // The learners and the prediction pipeline

  datatype Learners = Learners(
    scale: seq<real> -> Option<seq<real>>,
    xgb: seq<real> -> Option<seq<real>>,
    nn: seq<real> -> Option<seq<real>>,
    meta: seq<real> -> Option<seq<real>>,
    importances: seq<real>)

  /**
   * The guarded part of `predict_ensemble`: scale, ask both base learners,
   * stack their probabilities for the meta-learner and score its output;
   * any failure yields 0.0.
   */
  function Score(l: Learners, v: seq<real>): real {
    match l.scale(v)
    case None => 0.0
    case Some(x) =>
      match (l.xgb(x), l.nn(x))
      case (Some(a), Some(b)) =>
        (match l.meta(a + b)
         case Some(p) => DirectionalScore(p)
         case None => 0.0)
      case _ => 0.0
  }

  /** A meta-learner that returns probabilities keeps the prediction in [-1, 1]. */
  lemma ScoreBounded(l: Learners, v: seq<real>)
    requires forall u :: l.meta(u).Some? ==> IsProbVector(l.meta(u).value)
    ensures -1.0 <= Score(l, v) <= 1.0
  {
    match l.scale(v)
    case None =>
    case Some(x) =>
      match (l.xgb(x), l.nn(x))
      case (Some(a), Some(b)) =>
        if l.meta(a + b).Some? {
          DirectionalScoreBounded(l.meta(a + b).value);
        }
      case _ =>
  }

  /** The learners before any training: every call fails. */
  function Unfitted(): Learners {
    Learners(_ => None, _ => None, _ => None, _ => None, [])
  }

  datatype TrainReport = TrainReport(
    featureImportance: seq<(string, real)>,
    featureCount: nat,
    trainingSamples: nat)

  /** The columns and rows of the frame `create_synthetic_training_data(300)` generates. */
  const SYNTHETIC_COLUMNS: seq<string> := ["price", "volume", "tech_score", "social_score", "fund_score", "astro_score"]
  const SYNTHETIC_ROWS: nat := 300

  /**
   * The frame training uses, as (columns, row count): the given one, or the
   * synthetic one when it is missing or has fewer than 50 rows.
   */
  function TrainingFrame(df: Option<(seq<string>, nat)>): (f: (seq<string>, nat))
    ensures df.Some? && df.value.1 >= 50 ==> f == df.value
    ensures df.None? || df.value.1 < 50 ==> f == (SYNTHETIC_COLUMNS, SYNTHETIC_ROWS)
    ensures f.1 >= 50
  {
    if df.None? || df.value.1 < 50 then (SYNTHETIC_COLUMNS, SYNTHETIC_ROWS) else df.value
  }

  /** The synthetic frame holds `price` and `tech_score`, so it always has a schema. */
  lemma SyntheticFrameHasSchema()
    ensures Schema(SYNTHETIC_COLUMNS).Ok?
  {
    assert SYNTHETIC_COLUMNS[0] == "price" && SYNTHETIC_COLUMNS[2] == "tech_score";
  }

  /** A classifier that is constructed but not fitted: predicting with it raises. */
  function Unusable(): seq<real> -> Option<seq<real>> {
    _ => None
  }

  /**
   * What the fits of `train_ensemble` yield: the refitted scaler, the
   * classifier and its importances, the network and the meta-learner
   * (None where that fit raises).
   */
  datatype Fits = Fits(
    scale: seq<real> -> Option<seq<real>>,
    xgb: Option<(seq<real> -> Option<seq<real>>, seq<real>)>,
    nn: Option<seq<real> -> Option<seq<real>>>,
    meta: Option<seq<real> -> Option<seq<real>>>)

  /**
   * The learners after the three fits of `train_ensemble`, and whether all
   * succeeded: each learner is replaced by a new, unfitted one before its
   * fit, so a raise leaves that one unusable and the later ones as they were.
   */
  function AfterFits(l: Learners, f: Fits): (r: (Learners, bool)) {
    if f.xgb.None? then (l.(xgb := Unusable()), false)
    else
      var l1 := l.(xgb := f.xgb.value.0, importances := f.xgb.value.1);
      if f.nn.None? then (l1.(nn := Unusable()), false)
      else
        var l2 := l1.(nn := f.nn.value);
        if f.meta.None? then (l2.(meta := Unusable()), false)
        else (l2.(meta := f.meta.value), true)
  }

  /**
   * The fits succeed exactly when all three do, and then the learners are
   * exactly the fitted ones; after any failed fit every prediction is 0.0.
   */
  lemma AfterFitsOutcome(l: Learners, f: Fits, v: seq<real>)
    ensures var (l', ok) := AfterFits(l, f);
            (ok <==> f.xgb.Some? && f.nn.Some? && f.meta.Some?)
            && l'.scale == l.scale
            && (ok ==> l' == Learners(l.scale, f.xgb.value.0, f.nn.value, f.meta.value, f.xgb.value.1))
            && (!ok ==> Score(l', v) == 0.0)
  {
  }

  class EnsembleLiteModel {
    var isTrained: bool
    var featureColumns: seq<string>
    var learners: Learners

    constructor ()
      ensures !isTrained && featureColumns == [] && learners == Unfitted()
    {
      isTrained := false;
      featureColumns := [];
      learners := Unfitted();
    }

    /** Fills a zero vector, one schema column at a time. */
    method CreateFeatureVector(features: map<string, real>) returns (v: seq<real>)
      ensures v == FeatureVector(features, featureColumns)
    {
      var n := |featureColumns|;
      var a := new real[n](_ => 0.0);
      var i := 0;
      while i < n
        invariant 0 <= i <= n && a.Length == n
        invariant forall k :: 0 <= k < i ==> a[k] == ColumnValue(features, featureColumns[k])
        invariant forall k :: i <= k < n ==> a[k] == 0.0
      {
        match Rule(features, featureColumns[i]) {
          case Some(x) => a[i] := x;
          case None =>
        }
        i := i + 1;
      }
      v := a[..];
    }

    /** Raises when untrained; otherwise the guarded score of the feature vector. */
    method PredictEnsemble(features: map<string, real>) returns (r: Result<real>)
      ensures r.Err? <==> !isTrained
      ensures r.Ok? ==> r.value == Score(learners, FeatureVector(features, featureColumns))
    {
      if !isTrained {
        return Err("Model not trained. Call train_ensemble() first.");
      }
      var v := CreateFeatureVector(features);
      r := Ok(Score(learners, v));
    }

    /**
     * `prepare_training_data`: the engineered columns of a frame with
     * columns `cols`, without the labels, become the feature columns and the
     * scaler is refitted; a frame `engineer_features` rejects leaves both.
     */
    method PrepareTrainingData(cols: seq<string>, scale: seq<real> -> Option<seq<real>>) returns (s: Result<seq<string>>)
      modifies this`featureColumns, this`learners
      ensures s == Schema(cols)
      ensures featureColumns == if s.Ok? then s.value else old(featureColumns)
      ensures learners == if s.Ok? then old(learners).(scale := scale) else old(learners)
    {
      s := Schema(cols);
      if s.Ok? {
        featureColumns := s.value;
        learners := learners.(scale := scale);
      }
    }

    /**
     * Trains on `df` (columns, row count), or on the synthetic frame when
     * `df` is missing or has fewer than 50 rows, which always has a schema;
     * `fits` are the outcomes of the fits.
     */
    method TrainEnsemble(df: Option<(seq<string>, nat)>, fits: Fits) returns (r: Result<TrainReport>)
      modifies this
      ensures df.None? || df.value.1 < 50 ==> Schema(TrainingFrame(df).0).Ok?
      ensures var (cols, rows) := TrainingFrame(df);
              featureColumns == (if Schema(cols).Ok? then Schema(cols).value else old(featureColumns))
              && (Schema(cols).Err? ==> r.Err? && isTrained == old(isTrained) && learners == old(learners))
              && (Schema(cols).Ok? ==> Trained(old(learners), old(isTrained), fits, rows, r))
    {
      var frame := TrainingFrame(df);
      if df.None? || df.value.1 < 50 {
        SyntheticFrameHasSchema();
      }
      r := TrainOn(frame.0, frame.1, fits);
    }

    /**
     * The state after training succeeded or a fit raised: the learners are
     * those `AfterFits` leaves, with the refitted scaler; the engine is
     * marked trained exactly when all fits succeed, and then reports the
     * importances over the schema.
     */
    ghost predicate Trained(l0: Learners, trained0: bool, fits: Fits, rows: nat, r: Result<TrainReport>)
      reads this
    {
      var (l, ok) := AfterFits(l0.(scale := fits.scale), fits);
      learners == l && (r.Ok? <==> ok) && (r.Err? ==> isTrained == trained0)
      && (r.Ok? ==>
            isTrained
            && r.value == TrainReport(SortDesc(Zip(featureColumns, fits.xgb.value.1)), |featureColumns|, SplitIndex(rows)))
    }

    /**
     * Trains on a frame with columns `cols`: the schema and scaler are
     * fixed before the learners are fitted.
     */
    method TrainOn(cols: seq<string>, rows: nat, fits: Fits) returns (r: Result<TrainReport>)
      modifies this
      ensures featureColumns == (if Schema(cols).Ok? then Schema(cols).value else old(featureColumns))
      ensures Schema(cols).Err? ==> r.Err? && isTrained == old(isTrained) && learners == old(learners)
      ensures Schema(cols).Ok? ==> Trained(old(learners), old(isTrained), fits, rows, r)
    {
      var s := PrepareTrainingData(cols, fits.scale);
      if s.Err? {
        return Err(s.msg);
      }
      r := FitLearners(fits, rows);
    }

    /** The three fits in order, each replacing its learner first; then the importances over the frozen schema. */
    method FitLearners(fits: Fits, rows: nat) returns (r: Result<TrainReport>)
      modifies this`isTrained, this`learners
      ensures learners == AfterFits(old(learners), fits).0 && (r.Ok? <==> AfterFits(old(learners), fits).1)
      ensures r.Err? ==> isTrained == old(isTrained)
      ensures r.Ok? ==>
                isTrained
                && r.value == TrainReport(SortDesc(Zip(featureColumns, fits.xgb.value.1)),
                                          |featureColumns|, SplitIndex(rows))
    {
      learners := learners.(xgb := Unusable());
      if fits.xgb.None? {
        return Err("XGBoost fit failed");
      }
      learners := learners.(xgb := fits.xgb.value.0, importances := fits.xgb.value.1);
      learners := learners.(nn := Unusable());
      if fits.nn.None? {
        return Err("neural network fit failed");
      }
      learners := learners.(nn := fits.nn.value);
      learners := learners.(meta := Unusable());
      if fits.meta.None? {
        return Err("meta-learner fit failed");
      }
      learners := learners.(meta := fits.meta.value);
      isTrained := true;
      var importance := SortDesc(Zip(featureColumns, fits.xgb.value.1));
      r := Ok(TrainReport(importance, |featureColumns|, SplitIndex(rows)));
    }

    /** The top `topK` and all (column, importance) pairs, by descending importance. */
    method GetFeatureImportance(topK: nat) returns (r: Result<(seq<(string, real)>, seq<(string, real)>)>)
      ensures r.Err? <==> !isTrained
      ensures r.Ok? ==>
        var pairs := Zip(featureColumns, learners.importances);
        r.value.0 == TopK(pairs, topK) && r.value.1 == SortDesc(pairs)
    {
      if !isTrained {
        return Err("Model not trained");
      }
      var pairs := Zip(featureColumns, learners.importances);
      r := Ok((TopK(pairs, topK), SortDesc(pairs)));
    }
  }
}
