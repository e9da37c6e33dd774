/**
 * The hyper-parameter optimiser of `scripts/tune.py`: the lag, indicator
 * and target columns of its generated training data, the three-way split
 * of `prepare_data`, the composite score of the `evaluate_*` methods with
 * their failure results, and the fallback of `evaluate_best_model`. The
 * random draws, the rolling indicators and the learners are parameters.
 */
module Tune {
  import opened Common

  // ---------------------------------------------------------------------
  // Generated training data

  /** The series the generator draws or computes numerically, one entry per sample. */
  datatype Draws = Draws(
    prices: seq<real>, priceReturns: seq<real>, rsi: seq<real>, volumeRatio: seq<real>,
    volatility10: seq<real>, social: seq<real>, moonCycle: seq<real>)

  predicate Aligned(d: Draws) {
    |d.prices| > 0 && |d.priceReturns| == |d.rsi| == |d.volumeRatio| == |d.volatility10|
    == |d.social| == |d.moonCycle| == |d.prices|
  }

  /** `concatenate([returns[1:], [returns[-1]]])`: the next return, the last one repeated. */
  function FutureReturns(r: seq<real>): (f: seq<real>)
    requires |r| > 0
    ensures |f| == |r|
    ensures forall i :: 0 <= i < |r| - 1 ==> f[i] == r[i + 1]
    ensures f[|r| - 1] == r[|r| - 1]
  {
    r[1..] + [r[|r| - 1]]
  }

  function Indicator(s: seq<real>, p: real -> bool): (f: seq<nat>)
    ensures |f| == |s| && forall i :: 0 <= i < |s| ==> f[i] == Flag(p(s[i]))
  {
    seq(|s|, i requires 0 <= i < |s| => Flag(p(s[i])))
  }

  /** The columns the generator derives from its draws. */
  datatype Derived = Derived(
    priceLag1: seq<real>, priceLag3: seq<real>, rsiLag1: seq<real>,
    rsiOverbought: seq<nat>, rsiOversold: seq<nat>, volumeSpike: seq<nat>,
    highVolatility: seq<nat>, socialExtreme: seq<nat>,
    moonPhaseNew: seq<nat>, moonPhaseFull: seq<nat>, target: seq<nat>)

  /**
   * `p75` stands for `np.percentile(volatility_10, 75)`, which numpy
   * computes. As written the first volatility is the standard deviation
   * of a single return (ddof 1), which is NaN, so the percentile is NaN
   * and no comparison with it holds; `HighVolatilityNeverSet` covers
   * that case.
   */
  function Derive(d: Draws, p75: real): Derived
    requires Aligned(d)
  {
    Derived(
      LagOne(d.prices), LagThree(d.prices), LagOne(d.rsi),
      Indicator(d.rsi, x => x > 70.0), Indicator(d.rsi, x => x < 30.0),
      Indicator(d.volumeRatio, x => x > 2.0),
      Indicator(d.volatility10, x => x > p75),
      Indicator(d.social, x => x > 80.0 || x < 20.0),
      Indicator(d.moonCycle, x => x < 40.0), Indicator(d.moonCycle, x => x > 60.0),
      Indicator(FutureReturns(d.priceReturns), x => x > 0.005))
  }

  /**
   * Every derived column has one entry per sample; the lags look one and
   * three steps back (the first entries repeat the series' head); the
   * indicators hold exactly when their thresholds are crossed, and the
   * opposite ones never together; the target says whether the next
   * return (the last sample's own) exceeds half a percent.
   */
  lemma DeriveCorrect(d: Draws, p75: real, i: nat)
    requires Aligned(d) && i < |d.prices|
    ensures var x := Derive(d, p75);
            var n := |d.prices|;
            |x.priceLag1| == |x.priceLag3| == |x.rsiLag1| == |x.rsiOverbought| == |x.rsiOversold| == n
            && |x.volumeSpike| == |x.highVolatility| == |x.socialExtreme| == n
            && |x.moonPhaseNew| == |x.moonPhaseFull| == |x.target| == n
            && x.priceLag1[i] == d.prices[if i == 0 then 0 else i - 1]
            && x.priceLag3[i] == d.prices[if i < 3 then i else i - 3]
            && x.rsiLag1[i] == d.rsi[if i == 0 then 0 else i - 1]
            && (x.rsiOverbought[i] == 1 <==> d.rsi[i] > 70.0)
            && (x.rsiOversold[i] == 1 <==> d.rsi[i] < 30.0)
            && x.rsiOverbought[i] + x.rsiOversold[i] <= 1
            && (x.volumeSpike[i] == 1 <==> d.volumeRatio[i] > 2.0)
            && (x.highVolatility[i] == 1 <==> d.volatility10[i] > p75)
            && (x.socialExtreme[i] == 0 <==> 20.0 <= d.social[i] <= 80.0)
            && (x.moonPhaseNew[i] == 1 <==> d.moonCycle[i] < 40.0)
            && (x.moonPhaseFull[i] == 1 <==> d.moonCycle[i] > 60.0)
            && x.moonPhaseNew[i] + x.moonPhaseFull[i] <= 1
            && (x.target[i] == 1 <==> d.priceReturns[if i + 1 < n then i + 1 else i] > 0.005)
  {
    LagOneAt(d.prices, i);
    LagThreeAt(d.prices, i);
    LagOneAt(d.rsi, i);
  }

  /**
   * A threshold no volatility exceeds, which is how a NaN percentile
   * behaves under `>`, leaves `high_volatility` 0 on every row.
   */
  lemma HighVolatilityNeverSet(d: Draws, p75: real)
    requires Aligned(d)
    requires forall i :: 0 <= i < |d.volatility10| ==> d.volatility10[i] <= p75
    ensures forall i :: 0 <= i < |d.volatility10| ==> Derive(d, p75).highVolatility[i] == 0
  {
  }

  // ---------------------------------------------------------------------
  // Data preparation

  /** The feature columns of the generated frame, in order; `target` follows them. */
  const TUNE_FEATURES: seq<string> := [
    "price", "volume", "rsi", "macd_histogram", "bb_position", "sma_5", "sma_20",
    "ema_12", "volatility_10", "volume_sma", "volume_ratio", "social_sentiment",
    "fundamental_score", "astro_score", "price_lag_1", "price_lag_3", "rsi_lag_1",
    "price_momentum", "volume_momentum", "social_momentum", "price_volume_signal",
    "sentiment_volatility", "price_returns", "price_sma_ratio", "rsi_overbought",
    "rsi_oversold", "volume_spike", "high_volatility", "social_extreme",
    "moon_phase_new", "moon_phase_full"]

  /** `prepare_data` on the generated frame trains on its 31 generated features. */
  lemma TuneSchema()
    ensures Without(TUNE_FEATURES + [TARGET], {TARGET}) == TUNE_FEATURES
    ensures |TUNE_FEATURES| == 31
  {
    assert TARGET !in TUNE_FEATURES;
    WithoutAppended(TUNE_FEATURES, TARGET);
  }

  /** A data frame: its column names and its rows, one value per column. */
  datatype Frame = Frame(columns: seq<string>, rows: seq<seq<real>>)

  predicate WellFormed(df: Frame) {
    forall r :: 0 <= r < |df.rows| ==> |df.rows[r]| == |df.columns|
  }

  const TARGET: string := "target"

  /** The values of a row in the feature columns, in column order. */
  function FeatureValues(row: seq<real>, columns: seq<string>): seq<real>
    requires |row| == |columns|
  {
    if columns == [] then []
    else (if columns[0] == TARGET then [] else [row[0]]) + FeatureValues(row[1..], columns[1..])
  }

  /** Each feature row is as long as the schema, and lines up with it. */
  lemma {:induction false} FeatureValuesAligned(row: seq<real>, columns: seq<string>)
    requires |row| == |columns|
    ensures |FeatureValues(row, columns)| == |Without(columns, {TARGET})|
  {
    if columns != [] {
      FeatureValuesAligned(row[1..], columns[1..]);
    }
  }

  /** `df['target']` of a row: the value in the first target column. */
  function TargetValue(row: seq<real>, columns: seq<string>): real
    requires |row| == |columns| && TARGET in columns
  {
    if columns[0] == TARGET then row[0] else TargetValue(row[1..], columns[1..])
  }

  /** `X[idx]` for the rows `idx` of the frame: their feature values. */
  function Features(df: Frame, idx: seq<nat>): (x: seq<seq<real>>)
    requires WellFormed(df) && forall i :: 0 <= i < |idx| ==> idx[i] < |df.rows|
    ensures |x| == |idx| && forall i :: 0 <= i < |idx| ==> x[i] == FeatureValues(df.rows[idx[i]], df.columns)
  {
    seq(|idx|, i requires 0 <= i < |idx| => FeatureValues(df.rows[idx[i]], df.columns))
  }

  /** `y[idx]` for the rows `idx` of the frame: their targets. */
  function Targets(df: Frame, idx: seq<nat>): (y: seq<real>)
    requires WellFormed(df) && TARGET in df.columns && forall i :: 0 <= i < |idx| ==> idx[i] < |df.rows|
    ensures |y| == |idx| && forall i :: 0 <= i < |idx| ==> y[i] == TargetValue(df.rows[idx[i]], df.columns)
  {
    seq(|idx|, i requires 0 <= i < |idx| => TargetValue(df.rows[idx[i]], df.columns))
  }

  predicate IsPermutation(perm: seq<nat>, n: nat) {
    |perm| == n && (forall i :: 0 <= i < n ==> perm[i] < n)
    && (forall i, j :: 0 <= i < j < n ==> perm[i] != perm[j])
  }

  /** The row indices of the test, validation and training parts. */
  datatype Split = Split(test: seq<nat>, val: seq<nat>, train: seq<nat>)

  /**
   * The shuffle `perm1` puts a fifth (rounded up) of the rows in the test
   * part; the shuffle `perm2` of the rest puts a quarter of those (rounded
   * up) in the validation part, and the others in the training part. The
   * parts together are as large as the frame: train, validation and test
   * take 60, 20 and 20 percent of it, rounded so that the held-out parts
   * are never smaller; every index names a row.
   */
  function SplitIndices(perm1: seq<nat>, perm2: seq<nat>, n: nat): (s: Split)
    requires IsPermutation(perm1, n) && IsPermutation(perm2, n - HeldOutFifth(n))
    ensures |s.test| + |s.val| + |s.train| == n
    ensures 5 * |s.test| >= n && 4 * |s.val| >= n - |s.test|
    ensures forall i :: 0 <= i < |s.test| ==> s.test[i] < n
    ensures forall i :: 0 <= i < |s.val| ==> s.val[i] < n
    ensures forall i :: 0 <= i < |s.train| ==> s.train[i] < n
  {
    var t := HeldOutFifth(n);
    var v := HeldOutQuarter(n - t);
    Split(perm1[..t], Picked(perm1, perm2, t, 0, v), Picked(perm1, perm2, t, v, n - t - v))
  }

  /** The rows at positions `from` to `from + count` of the shuffled rest, after the first `t`. */
  function Picked(perm1: seq<nat>, perm2: seq<nat>, t: nat, from: nat, count: nat): (r: seq<nat>)
    requires t + |perm2| == |perm1| && from + count <= |perm2|
    requires forall i :: 0 <= i < |perm1| ==> perm1[i] < |perm1|
    requires forall i :: 0 <= i < |perm2| ==> perm2[i] < |perm2|
    ensures |r| == count
    ensures forall i :: 0 <= i < count ==> r[i] == perm1[t + perm2[from + i]] && r[i] < |perm1|
  {
    seq(count, i requires 0 <= i < count => perm1[t + perm2[from + i]])
  }

  lemma PermutationInjective(perm: seq<nat>, n: nat, a: nat, b: nat)
    requires IsPermutation(perm, n) && a < n && b < n && a != b
    ensures perm[a] != perm[b]
  {
    if a > b {
      assert perm[b] != perm[a];
    }
  }

  lemma TestApart(perm1: seq<nat>, perm2: seq<nat>, n: nat)
    requires IsPermutation(perm1, n) && IsPermutation(perm2, n - HeldOutFifth(n))
    ensures var s := SplitIndices(perm1, perm2, n);
            forall i, j :: 0 <= i < |s.test| && 0 <= j < |s.val| + |s.train| ==> s.test[i] != (s.val + s.train)[j]
  {
    var t := HeldOutFifth(n);
    var s := SplitIndices(perm1, perm2, n);
    forall i, j | 0 <= i < |s.test| && 0 <= j < |s.val| + |s.train| ensures s.test[i] != (s.val + s.train)[j] {
      PermutationInjective(perm1, n, i, t + perm2[j]);
    }
  }

  lemma ValTrainApart(perm1: seq<nat>, perm2: seq<nat>, n: nat)
    requires IsPermutation(perm1, n) && IsPermutation(perm2, n - HeldOutFifth(n))
    ensures var s := SplitIndices(perm1, perm2, n);
            forall i, j :: 0 <= i < |s.val| && 0 <= j < |s.train| ==> s.val[i] != s.train[j]
  {
    var t := HeldOutFifth(n);
    var v := HeldOutQuarter(n - t);
    var s := SplitIndices(perm1, perm2, n);
    forall i, j | 0 <= i < |s.val| && 0 <= j < |s.train| ensures s.val[i] != s.train[j] {
      PermutationInjective(perm2, n - t, i, v + j);
      PermutationInjective(perm1, n, t + perm2[i], t + perm2[v + j]);
    }
  }

  /** No row lands in two parts. */
  lemma SplitDisjoint(perm1: seq<nat>, perm2: seq<nat>, n: nat)
    requires IsPermutation(perm1, n) && IsPermutation(perm2, n - HeldOutFifth(n))
    ensures var s := SplitIndices(perm1, perm2, n);
            forall i, j :: 0 <= i < |s.test| && 0 <= j < |s.val| ==> s.test[i] != s.val[j]
    ensures var s := SplitIndices(perm1, perm2, n);
            forall i, j :: 0 <= i < |s.test| && 0 <= j < |s.train| ==> s.test[i] != s.train[j]
    ensures var s := SplitIndices(perm1, perm2, n);
            forall i, j :: 0 <= i < |s.val| && 0 <= j < |s.train| ==> s.val[i] != s.train[j]
  {
    var s := SplitIndices(perm1, perm2, n);
    TestApart(perm1, perm2, n);
    ValTrainApart(perm1, perm2, n);
    forall i, j | 0 <= i < |s.test| && 0 <= j < |s.val| ensures s.test[i] != s.val[j] {
      assert (s.val + s.train)[j] == s.val[j];
    }
    forall i, j | 0 <= i < |s.test| && 0 <= j < |s.train| ensures s.test[i] != s.train[j] {
      assert (s.val + s.train)[|s.val| + j] == s.train[j];
    }
  }

  /** The default thousand samples split into 600, 200 and 200. */
  lemma DefaultSplitSizes()
    ensures HeldOutFifth(1000) == 200 && HeldOutQuarter(1000 - 200) == 200
  {
  }

  // ---------------------------------------------------------------------
  // Scores

  datatype Metrics = Metrics(accuracy: real, precision: real, recall: real, f1: real)

  predicate InUnit(m: Metrics) {
    0.0 <= m.accuracy <= 1.0 && 0.0 <= m.precision <= 1.0 && 0.0 <= m.recall <= 1.0 && 0.0 <= m.f1 <= 1.0
  }

  /** The composite score: accuracy and F1 weigh most. */
  function Composite(m: Metrics): real {
    0.4 * m.accuracy + 0.3 * m.f1 + 0.2 * m.precision + 0.1 * m.recall
  }

  /**
   * The weights sum to one: the composite of metrics in [0, 1] lies in
   * [0, 1], between the smallest and the largest metric.
   */
  lemma CompositeBounds(m: Metrics, lo: real, hi: real)
    requires lo <= m.accuracy <= hi && lo <= m.precision <= hi && lo <= m.recall <= hi && lo <= m.f1 <= hi
    ensures lo <= Composite(m) <= hi
    ensures InUnit(m) ==> 0.0 <= Composite(m) <= 1.0
  {
  }

  /** The result of an `evaluate_*` method: the score, the metrics and the parameters it echoes. */
  datatype Evaluation<P> = Evaluation(score: real, metrics: Metrics, params: P)

  const ZERO: Metrics := Metrics(0.0, 0.0, 0.0, 0.0)

  /**
   * The result for parameters whose training and validation gave `outcome`
   * (None when anything in the `try` raised): the composite with the
   * metrics, or all zeros.
   */
  function Evaluate<P>(params: P, outcome: Option<Metrics>): (e: Evaluation<P>)
    ensures e.params == params
    ensures outcome.None? ==> e.score == 0.0 && e.metrics == ZERO
    ensures outcome.Some? ==> e.metrics == outcome.value && e.score == Composite(outcome.value)
    ensures InUnit(e.metrics) ==> 0.0 <= e.score <= 1.0
  {
    match outcome
    case None => Evaluation(0.0, ZERO, params)
    case Some(m) => Evaluation(Composite(m), m, params)
  }

  /** The network parameters the LSTM and ensemble evaluations read; a missing one raises `KeyError`. */
  predicate HasNetworkParams(nn: map<string, real>) {
    "units" in nn && "lr" in nn && "dropout" in nn
  }

  /** `evaluate_lstm_params`: a missing network parameter fails like training does. */
  function EvaluateLstm(nn: map<string, real>, outcome: Option<Metrics>): (e: Evaluation<map<string, real>>)
    ensures !HasNetworkParams(nn) ==> e == Evaluation(0.0, ZERO, nn)
    ensures HasNetworkParams(nn) && outcome.Some? ==> e.score == Composite(outcome.value)
  {
    Evaluate(nn, if HasNetworkParams(nn) then outcome else None)
  }

  /** `evaluate_ensemble_params`, echoing both parameter sets. */
  function EvaluateEnsemble<X>(xgb: X, nn: map<string, real>, outcome: Option<Metrics>): (e: Evaluation<(X, map<string, real>)>)
    ensures !HasNetworkParams(nn) ==> e == Evaluation(0.0, ZERO, (xgb, nn))
    ensures HasNetworkParams(nn) && outcome.Some? ==> e.score == Composite(outcome.value)
  {
    Evaluate((xgb, nn), if HasNetworkParams(nn) then outcome else None)
  }

  /** Every evaluation scores in [0, 1] when the metrics do; a failed one scores the least. */
  lemma EvaluationScoreBounds<P>(params: P, outcome: Option<Metrics>)
    requires outcome.Some? ==> InUnit(outcome.value)
    ensures 0.0 <= Evaluate(params, outcome).score <= 1.0
    ensures forall m :: InUnit(m) ==> Evaluate(params, None).score <= Composite(m)
  {
    if outcome.Some? {
      CompositeBounds(outcome.value, 0.0, 1.0);
    }
    forall m | InUnit(m) ensures Evaluate(params, None).score <= Composite(m) {
      CompositeBounds(m, 0.0, 1.0);
    }
  }

  /** The number of positions where the prediction equals the label. */
  function Matches(y: seq<real>, p: seq<real>): (m: nat)
    requires |y| == |p|
    ensures m <= |y|
    ensures m == |y| <==> forall i :: 0 <= i < |y| ==> p[i] == y[i]
  {
    if y == [] then 0
    else
      var rest := Matches(y[1..], p[1..]);
      assert forall i :: 1 <= i < |y| ==> y[1..][i - 1] == y[i] && p[1..][i - 1] == p[i];
      (if p[0] == y[0] then 1 else 0) + rest
  }

  /** `accuracy_score`: the fraction of labels predicted exactly. */
  function Accuracy(y: seq<real>, p: seq<real>): (a: real)
    requires |y| == |p| > 0
    ensures 0.0 <= a <= 1.0
    ensures a == 1.0 <==> forall i :: 0 <= i < |y| ==> p[i] == y[i]
  {
    var m := Matches(y, p);
    FractionBounds(m, |y|);
    m as real / |y| as real
  }

  /** A count out of a positive total is a fraction in [0, 1] that is 1 only for the whole. */
  lemma FractionBounds(m: nat, n: nat)
    requires 0 < n && m <= n
    ensures 0.0 <= m as real / n as real <= 1.0
    ensures m as real / n as real == 1.0 <==> m == n
  {
    var q := m as real / n as real;
    assert q * (n as real) == m as real;
  }

  /**
   * `evaluate_best_model`: with an `ensemble` result, the test accuracy of
   * the meta-learner applied to the retrained XGBoost and network
   * probabilities of the test rows; 0.0 otherwise.
   */
  function EvaluateBestModel<R>(results: map<string, R>, yTest: seq<real>, xgbTest: seq<real>, nnTest: seq<real>,
                                meta: (real, real) -> real): (a: real)
    requires |xgbTest| == |nnTest| == |yTest| > 0
    ensures 0.0 <= a <= 1.0
    ensures "ensemble" !in results ==> a == 0.0
    ensures "ensemble" in results ==>
              (a == 1.0 <==> forall i :: 0 <= i < |yTest| ==> meta(xgbTest[i], nnTest[i]) == yTest[i])
  {
    if "ensemble" in results then Accuracy(yTest, Pointwise(meta, xgbTest, nnTest)) else 0.0
  }

  // ---------------------------------------------------------------------
  // The optimiser's data fields

  /** A fitted scaler, applied row by row. */
  type Scaler = seq<real> -> seq<real>

  function ScaleRows(t: Scaler, rows: seq<seq<real>>): (r: seq<seq<real>>)
    ensures |r| == |rows| && forall i :: 0 <= i < |rows| ==> r[i] == t(rows[i])
  {
    seq(|rows|, i requires 0 <= i < |rows| => t(rows[i]))
  }

  class Optimizer {
    var featureColumns: seq<string>
    var xTrain: seq<seq<real>>
    var xVal: seq<seq<real>>
    var xTest: seq<seq<real>>
    var yTrain: seq<real>
    var yVal: seq<real>
    var yTest: seq<real>
    /** The scaler as last fitted; None for a new optimizer. */
    var scaler: Option<Scaler>

    constructor ()
      ensures featureColumns == [] && xTrain == [] && xVal == [] && xTest == []
      ensures yTrain == [] && yVal == [] && yTest == [] && scaler.None?
    {
      featureColumns := [];
      xTrain, xVal, xTest := [], [], [];
      yTrain, yVal, yTest := [], [], [];
      scaler := None;
    }

    /**
     * `prepare_data`: the schema is every column but the target; the rows
     * go to the three parts by the index split, each as its targets and its
     * feature values scaled by the scaler `fit` gives for the training
     * features.
     */
    method PrepareData(df: Frame, perm1: seq<nat>, perm2: seq<nat>, fit: seq<seq<real>> -> Scaler)
      requires WellFormed(df) && TARGET in df.columns
      requires IsPermutation(perm1, |df.rows|) && IsPermutation(perm2, |df.rows| - HeldOutFifth(|df.rows|))
      modifies this
      ensures featureColumns == Without(df.columns, {TARGET})
      ensures var s := SplitIndices(perm1, perm2, |df.rows|);
              var t := fit(Features(df, s.train));
              scaler == Some(t)
              && xTest == ScaleRows(t, Features(df, s.test)) && yTest == Targets(df, s.test)
              && xVal == ScaleRows(t, Features(df, s.val)) && yVal == Targets(df, s.val)
              && xTrain == ScaleRows(t, Features(df, s.train)) && yTrain == Targets(df, s.train)
    {
      featureColumns := Without(df.columns, {TARGET});
      var s := SplitIndices(perm1, perm2, |df.rows|);
      var rawTrain := Features(df, s.train);
      var t := fit(rawTrain);
      scaler := Some(t);
      xTest, yTest := ScaleRows(t, Features(df, s.test)), Targets(df, s.test);
      xVal, yVal := ScaleRows(t, Features(df, s.val)), Targets(df, s.val);
      xTrain, yTrain := ScaleRows(t, rawTrain), Targets(df, s.train);
    }
  }
}
