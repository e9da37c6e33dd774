/**
 * The explainability script `scripts/explain.py`: attributions grouped by
 * the four investment pillars (their top five features, by descending mean
 * absolute attribution, and their total), the pseudo-attribution used when
 * SHAP is unavailable, and the binary indicators of its sample generator.
 */
module Explain {
  import opened Common

  // ---------------------------------------------------------------------
  // Binary indicators of the sample generator

  function RsiOverbought(rsi: real): nat { Flag(rsi > 70.0) }
  function RsiOversold(rsi: real): nat { Flag(rsi < 30.0) }
  function VolumeSpike(volumeRatio: real): nat { Flag(volumeRatio > 2.0) }
  function HighVolatility(volatility: real): nat { Flag(volatility > 0.05) }
  function SocialExtreme(sentiment: real): nat { Flag(sentiment > 80.0 || sentiment < 20.0) }
  function MoonPhaseNew(phase: real): nat { Flag(phase < 25.0) }
  function MoonPhaseFull(phase: real): nat { Flag(phase > 75.0) }

  /** The opposite indicators exclude each other, and a calm middle raises none. */
  lemma IndicatorsExclusive(rsi: real, sentiment: real, phase: real)
    ensures RsiOverbought(rsi) + RsiOversold(rsi) <= 1
    ensures MoonPhaseNew(phase) + MoonPhaseFull(phase) <= 1
    ensures 30.0 <= rsi <= 70.0 <==> RsiOverbought(rsi) == 0 && RsiOversold(rsi) == 0
    ensures SocialExtreme(sentiment) == 0 <==> 20.0 <= sentiment <= 80.0
    ensures 25.0 <= phase <= 75.0 <==> MoonPhaseNew(phase) == 0 && MoonPhaseFull(phase) == 0
  {
  }

  // ---------------------------------------------------------------------
  // Mean absolute attribution per column

  /** `np.mean(np.abs(shap_values), axis=0)` (0 for a column of no rows). */
  function MeanAbs(shap: seq<seq<real>>, n: nat): (m: seq<real>)
    requires forall r :: 0 <= r < |shap| ==> |shap[r]| == n
    ensures |m| == n
  {
    seq(n, c requires 0 <= c < n => Mean(seq(|shap|, r requires 0 <= r < |shap| => Abs(shap[r][c]))))
  }

  lemma MeanAbsNonNegative(shap: seq<seq<real>>, n: nat)
    requires forall r :: 0 <= r < |shap| ==> |shap[r]| == n
    ensures forall c :: 0 <= c < n ==> MeanAbs(shap, n)[c] >= 0.0
  {
    forall c | 0 <= c < n ensures MeanAbs(shap, n)[c] >= 0.0 {
      MeanNonNegative(seq(|shap|, r requires 0 <= r < |shap| => Abs(shap[r][c])));
    }
  }

  // ---------------------------------------------------------------------
  // Grouping by pillar

  /** `list.index`: the first position of `x`. */
  function IndexOf(cols: seq<string>, x: string): (k: nat)
    requires x in cols
    ensures k < |cols| && cols[k] == x
    ensures forall j :: 0 <= j < k ==> cols[j] != x
  {
    if cols[0] == x then 0 else 1 + IndexOf(cols[1..], x)
  }

  /** The features of a pillar that the model has, in the pillar's order, with their mean attribution. */
  function Matched(features: seq<string>, cols: seq<string>, mean: seq<real>): seq<(string, real)>
    requires |mean| == |cols|
    decreases |features|, cols
  {
    if features == [] then []
    else
      var f := features[|features| - 1];
      Matched(features[..|features| - 1], cols, mean) + (if f in cols then [(f, mean[IndexOf(cols, f)])] else [])
  }

  lemma {:induction false} MatchedOnlyModelFeatures(features: seq<string>, cols: seq<string>, mean: seq<real>)
    requires |mean| == |cols|
    ensures forall p :: p in Matched(features, cols, mean) ==>
              p.0 in features && p.0 in cols && p.1 == mean[IndexOf(cols, p.0)]
    ensures |Matched(features, cols, mean)| == 0 <==> forall f :: f in features ==> f !in cols
    decreases |features|
  {
    if features != [] {
      var init := features[..|features| - 1];
      MatchedOnlyModelFeatures(init, cols, mean);
      assert forall f :: f in init ==> f in features;
      assert features == init + [features[|features| - 1]];
    }
  }

  datatype PillarReport = PillarReport(features: seq<string>, scores: seq<real>, totalScore: real)

  const TOP_PER_PILLAR: nat := 5

  /** The five best of the matched pairs (stable descending sort) and the total over all of them. */
  function Report(m: seq<(string, real)>): PillarReport {
    var top := TopK(m, TOP_PER_PILLAR);
    PillarReport(Firsts(top), Seconds(top), Sum(Seconds(m)))
  }

  lemma ReportFacts(m: seq<(string, real)>)
    ensures var r := Report(m);
            |r.features| == |r.scores| == Min(TOP_PER_PILLAR, |m|)
            && (forall i, j :: 0 <= i < j < |r.scores| ==> r.scores[i] >= r.scores[j])
            && (forall i :: 0 <= i < |r.features| ==> (r.features[i], r.scores[i]) in m)
            && r.totalScore == Sum(Seconds(m))
            && (forall i, j :: 0 <= i < |r.scores| && 0 <= j < |m| && m[j] !in TopK(m, TOP_PER_PILLAR) ==>
                  m[j].1 <= r.scores[i])
    ensures TopK(m, TOP_PER_PILLAR) == SortDesc(m)[..Min(TOP_PER_PILLAR, |m|)]
    ensures forall v :: WithScore(SortDesc(m), v) == WithScore(m, v)
  {
    SortDescCorrect(m);
    var top := TopK(m, TOP_PER_PILLAR);
    TopKCorrect(m, TOP_PER_PILLAR);
    forall i | 0 <= i < |top| ensures top[i] in m {
      assert top[i] in multiset(top);
    }
  }

  /** What `analyze_feature_importance_by_pillar` returns for the first pillars of `pillars`. */
  function Analysis(pillars: seq<(string, seq<string>)>, cols: seq<string>, mean: seq<real>): map<string, PillarReport>
    requires |mean| == |cols|
    decreases |pillars|, cols
  {
    if pillars == [] then map[]
    else
      var prev := Analysis(pillars[..|pillars| - 1], cols, mean);
      var (name, features) := pillars[|pillars| - 1];
      var m := Matched(features, cols, mean);
      if |m| > 0 then prev[name := Report(m)] else prev
  }

  predicate DistinctNames(pillars: seq<(string, seq<string>)>) {
    forall i, j :: 0 <= i < j < |pillars| ==> pillars[i].0 != pillars[j].0
  }

  /**
   * A pillar is reported iff some of its features are in the model, and its
   * report is built from exactly those features.
   */
  lemma {:induction false} AnalysisCorrect(pillars: seq<(string, seq<string>)>, cols: seq<string>, mean: seq<real>, k: nat)
    requires |mean| == |cols| && DistinctNames(pillars) && k < |pillars|
    ensures var (name, features) := pillars[k];
            var a := Analysis(pillars, cols, mean);
            (name in a <==> |Matched(features, cols, mean)| > 0)
            && (name in a ==> a[name] == Report(Matched(features, cols, mean)))
    decreases |pillars|
  {
    var init := pillars[..|pillars| - 1];
    if k < |pillars| - 1 {
      assert init[k] == pillars[k];
      assert pillars[|pillars| - 1].0 != pillars[k].0;
      AnalysisCorrect(init, cols, mean, k);
    } else {
      AnalysisOnlyPillars(init, cols, mean);
    }
  }

  lemma {:induction false} AnalysisOnlyPillars(pillars: seq<(string, seq<string>)>, cols: seq<string>, mean: seq<real>)
    requires |mean| == |cols|
    ensures forall name :: name in Analysis(pillars, cols, mean) ==> exists k :: 0 <= k < |pillars| && pillars[k].0 == name
    decreases |pillars|
  {
    if pillars != [] {
      var init := pillars[..|pillars| - 1];
      AnalysisOnlyPillars(init, cols, mean);
      forall name | name in Analysis(init, cols, mean)
        ensures exists k :: 0 <= k < |pillars| && pillars[k].0 == name
      {
        var k :| 0 <= k < |init| && init[k].0 == name;
        assert pillars[k].0 == name;
      }
    }
  }

  /** The four pillars and the features that belong to them. */
  const FEATURE_PILLARS: seq<(string, seq<string>)> := [
    ("technical", ["rsi", "macd", "macdHistogram", "ema", "sma", "atr", "bb_position",
                   "volatility", "price_momentum", "volume_ratio", "price_returns",
                   "price_sma_ratio", "rsi_overbought", "rsi_oversold", "high_volatility"]),
    ("social", ["social_sentiment", "social_momentum", "sentiment_volatility",
                "social_extreme", "galaxy_score", "alt_rank"]),
    ("fundamental", ["fundamental_score", "market_cap", "volume", "price_volume_signal",
                     "volume_spike", "price_lag_1", "price_lag_3"]),
    ("astrology", ["astro_score", "moon_phase", "planetary_aspect", "moon_phase_new",
                   "moon_phase_full", "eclipse_influence", "mercury_retrograde"])]

  // ---------------------------------------------------------------------
  // Pseudo-attribution

  /** A sample value's deviation from the column mean, scaled by the feature's importance. */
  function Deviation(x: real, m: real, w: real): real {
    (x - m) * w
  }

  /**
   * Scaling a column's deviations from a value `m` by a weight `w` sums to
   * the deviation of the column's sum from `n * m`, times `w`.
   */
  lemma {:induction false} WeightedDeviationsSum(xs: seq<real>, ys: seq<real>, m: real, w: real)
    requires |ys| == |xs|
    requires forall i :: 0 <= i < |xs| ==> ys[i] == Deviation(xs[i], m, w)
    ensures Sum(ys) == (Sum(xs) - (|xs| as real) * m) * w
  {
    if xs != [] {
      var n := |xs|;
      WeightedDeviationsSum(xs[..n - 1], ys[..n - 1], m, w);
    }
  }

  /**
   * A column of pseudo-attributions, the deviations of a sample column from
   * its mean times one weight, sums to zero: the attributions cancel out
   * over the samples.
   */
  lemma CenteredColumnSumsToZero(xs: seq<real>, ys: seq<real>, w: real)
    requires |ys| == |xs|
    requires forall i :: 0 <= i < |xs| ==> ys[i] == Deviation(xs[i], Mean(xs), w)
    ensures Sum(ys) == 0.0
  {
    WeightedDeviationsSum(xs, ys, Mean(xs), w);
    if |xs| > 0 {
      assert (|xs| as real) * Mean(xs) == Sum(xs);
    }
  }

  function Column(a: array2<real>, c: nat): (col: seq<real>)
    requires c < a.Length1
    reads a
    ensures |col| == a.Length0
  {
    seq(a.Length0, r requires 0 <= r < a.Length0 reads a => a[r, c])
  }

  class ExplainabilityService {
    var featureColumns: seq<string>
    var featurePillars: seq<(string, seq<string>)>

    constructor (columns: seq<string>)
      ensures featureColumns == columns && featurePillars == FEATURE_PILLARS
    {
      featureColumns := columns;
      featurePillars := FEATURE_PILLARS;
    }

    /**
     * `_compute_alternative_importance`: a zero matrix of one row per sample
     * and one column per model feature, whose column `i`, for each listed
     * importance, is the sample column's deviation from its mean times that
     * importance; the columns past the importances stay 0.
     */
    method ComputeAlternativeImportance(sample: array2<real>, importance: seq<real>) returns (shap: array2<real>)
      requires |importance| <= |featureColumns| && |importance| <= sample.Length1
      ensures fresh(shap) && shap.Length0 == sample.Length0 && shap.Length1 == |featureColumns|
      ensures forall r, c :: 0 <= r < sample.Length0 && 0 <= c < |importance| ==>
                shap[r, c] == Deviation(sample[r, c], Mean(Column(sample, c)), importance[c])
      ensures forall r, c :: 0 <= r < sample.Length0 && |importance| <= c < |featureColumns| ==> shap[r, c] == 0.0
    {
      ghost var means := seq(|importance|, c requires 0 <= c < |importance| reads sample => Mean(Column(sample, c)));
      shap := new real[sample.Length0, |featureColumns|]((_, _) => 0.0);
      var i := 0;
      while i < |importance|
        invariant 0 <= i <= |importance|
        invariant forall q, c :: 0 <= q < sample.Length0 && 0 <= c < i ==>
                    shap[q, c] == Deviation(sample[q, c], means[c], importance[c])
        invariant forall q, c :: 0 <= q < sample.Length0 && i <= c < |featureColumns| ==> shap[q, c] == 0.0
      {
        var m := Mean(Column(sample, i));
        assert m == means[i];
        var r := 0;
        while r < sample.Length0
          invariant 0 <= r <= sample.Length0
          invariant forall q, c :: 0 <= q < sample.Length0 && 0 <= c < i ==>
                      shap[q, c] == Deviation(sample[q, c], means[c], importance[c])
          invariant forall q :: 0 <= q < r ==> shap[q, i] == Deviation(sample[q, i], m, importance[i])
          invariant forall q, c :: 0 <= q < sample.Length0 && i < c < |featureColumns| ==> shap[q, c] == 0.0
        {
          shap[r, i] := Deviation(sample[r, i], m, importance[i]);
          r := r + 1;
        }
        i := i + 1;
      }
      assert forall c :: 0 <= c < |importance| ==> means[c] == Mean(Column(sample, c));
    }

    /** The nested loops of `analyze_feature_importance_by_pillar`. */
    method AnalyzeFeatureImportanceByPillar(shap: seq<seq<real>>) returns (result: map<string, PillarReport>)
      requires forall r :: 0 <= r < |shap| ==> |shap[r]| == |featureColumns|
      ensures result == Analysis(featurePillars, featureColumns, MeanAbs(shap, |featureColumns|))
    {
      var mean := MeanAbs(shap, |featureColumns|);
      result := map[];
      for p := 0 to |featurePillars|
        invariant result == Analysis(featurePillars[..p], featureColumns, mean)
      {
        var (name, features) := featurePillars[p];
        var pairs := [];
        for j := 0 to |features|
          invariant pairs == Matched(features[..j], featureColumns, mean)
        {
          var feature := features[j];
          if feature in featureColumns {
            var idx := IndexOf(featureColumns, feature);
            pairs := pairs + [(feature, mean[idx])];
          }
          assert features[..j + 1][..j] == features[..j];
        }
        assert features[..|features|] == features;
        if |pairs| > 0 {
          result := result[name := Report(pairs)];
        }
        assert featurePillars[..p + 1][..p] == featurePillars[..p];
      }
      assert featurePillars[..|featurePillars|] == featurePillars;
    }
  }
}
