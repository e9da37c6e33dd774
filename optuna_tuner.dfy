/**
 * The hyper-parameter tuner of `services/optunaTuner.py`: fixed search
 * spaces per optimisation type, the sampling of one trial's parameters, the
 * proxy scores a trial is given, and the tuning status the tuner keeps
 * across calls. The Bayesian sampler, the study storage and the clock are
 * parameters; the ensemble predictor the tuner tries to import does not
 * exist, so ensemble parameters always take the synthetic score.
 */
module OptunaTuner {
  import opened Common

  // ---------------------------------------------------------------------
  // Search spaces

  datatype Range = Range(low: real, high: real)

  /** A search space, in the order of the source's dictionary. */
  type Space = seq<(string, Range)>

  const LSTM_SPACE: Space := [
    ("lstm_units_1", Range(64.0, 256.0)), ("lstm_units_2", Range(32.0, 128.0)),
    ("lstm_units_3", Range(16.0, 64.0)), ("learning_rate", Range(0.0001, 0.01)),
    ("dropout_rate", Range(0.1, 0.5)), ("batch_size", Range(16.0, 64.0)),
    ("sequence_length", Range(30.0, 90.0)), ("dense_units", Range(32.0, 128.0))]

  const ENSEMBLE_SPACE: Space := [
    ("n_estimators", Range(50.0, 300.0)), ("max_depth", Range(3.0, 12.0)),
    ("learning_rate", Range(0.01, 0.3)), ("subsample", Range(0.6, 1.0)),
    ("colsample_bytree", Range(0.6, 1.0)), ("reg_alpha", Range(0.0, 10.0)),
    ("reg_lambda", Range(1.0, 10.0)), ("min_child_weight", Range(1.0, 10.0))]

  const HYBRID_SPACE: Space := [
    ("xgb_n_estimators", Range(50.0, 200.0)), ("xgb_max_depth", Range(3.0, 10.0)),
    ("xgb_learning_rate", Range(0.01, 0.2)), ("lstm_units_1", Range(64.0, 192.0)),
    ("lstm_units_2", Range(32.0, 96.0)), ("dropout_rate", Range(0.1, 0.4)),
    ("learning_rate", Range(0.0001, 0.005)), ("xgb_weight", Range(0.3, 0.8)),
    ("confidence_threshold", Range(0.1, 0.9))]

  function DefineSearchSpaces(kind: string): Space {
    if kind == "lstm" then LSTM_SPACE
    else if kind == "ensemble" then ENSEMBLE_SPACE
    else if kind == "hybrid" then HYBRID_SPACE
    else []
  }

  predicate WellFormed(space: Space) {
    (forall i :: 0 <= i < |space| ==> space[i].1.low <= space[i].1.high)
    && (forall i, j :: 0 <= i < j < |space| ==> space[i].0 != space[j].0)
  }

  /**
   * Only the three known types have a search space, and every space has
   * distinct names and non-empty ranges.
   */
  lemma SearchSpacesDefined(kind: string)
    ensures |DefineSearchSpaces(kind)| > 0 <==> kind == "lstm" || kind == "ensemble" || kind == "hybrid"
    ensures WellFormed(DefineSearchSpaces(kind))
  {
    LstmSpaceWellFormed();
    EnsembleSpaceWellFormed();
    HybridSpaceWellFormed();
  }

  lemma LstmSpaceWellFormed()
    ensures WellFormed(LSTM_SPACE)
  {
  }

  lemma EnsembleSpaceWellFormed()
    ensures WellFormed(ENSEMBLE_SPACE)
  {
  }

  lemma HybridSpaceWellFormed()
    ensures WellFormed(HYBRID_SPACE)
  {
  }

  // ---------------------------------------------------------------------
  // Parameters of a trial

  /** A sampled value: `suggest_int` gives an int, `suggest_float` a float. */
  datatype Value = Int(i: int) | Float(f: real)

  function Num(v: Value): real {
    match v
    case Int(i) => i as real
    case Float(f) => f
  }

  /** A parameter dictionary, in insertion order. */
  type Params = seq<(string, Value)>

  /** `d[key]` for a dictionary built by assigning `p` in order: the last assignment wins. */
  function Lookup(p: Params, key: string): (v: Option<Value>)
    ensures v.None? <==> key !in Firsts(p)
    ensures v.Some? ==> exists i :: 0 <= i < |p| && p[i] == (key, v.value)
  {
    if p == [] then None
    else if p[|p| - 1].0 == key then Some(p[|p| - 1].1)
    else
      var v := Lookup(p[..|p| - 1], key);
      assert Firsts(p) == Firsts(p[..|p| - 1]) + [p[|p| - 1].0];
      v
  }

  /** `params.get(key, default)` on numbers. */
  function GetNum(p: Params, key: string, default: real): real {
    match Lookup(p, key)
    case None => default
    case Some(v) => Num(v)
  }

  /** The parameters sampled as integers. */
  const INT_PARAMS: set<string> := {
    "n_estimators", "max_depth", "min_child_weight", "lstm_units_1", "lstm_units_2",
    "lstm_units_3", "batch_size", "sequence_length", "dense_units",
    "xgb_n_estimators", "xgb_max_depth"}

  /** Python's `int()` of a float: truncation toward zero. */
  function Trunc(x: real): int {
    if x >= 0.0 then x.Floor else -((-x).Floor)
  }

  lemma TruncMonotone(x: real, y: real)
    requires x <= y
    ensures Trunc(x) <= Trunc(y)
  {
    if x < 0.0 && y >= 0.0 {
      assert (-x).Floor >= 0;
    }
  }

  /**
   * One trial of the study: its number, the sampler's answers to
   * `suggest_int` and `suggest_float`, and the normal draws the proxy
   * scores add.
   */
  datatype Trial = Trial(
    number: nat,
    suggestInt: (string, int, int) -> int,
    suggestFloat: (string, real, real) -> real,
    ensembleNoise: real,
    lstmNoise: real)

  /** The sampler keeps every suggestion within the bounds it is given. */
  ghost predicate Honest(t: Trial) {
    (forall name, lo, hi :: lo <= hi ==> lo <= t.suggestInt(name, lo, hi) <= hi)
    && (forall name, lo, hi :: lo <= hi ==> lo <= t.suggestFloat(name, lo, hi) <= hi)
  }

  /** The sampling loop of `objective_function`. */
  method SampleParams(space: Space, t: Trial) returns (params: Params)
    ensures Firsts(params) == Firsts(space)
    ensures forall i :: 0 <= i < |space| ==> (params[i].1.Int? <==> space[i].0 in INT_PARAMS)
    ensures forall i :: 0 <= i < |space| && params[i].1.Int? && Honest(t) && space[i].1.low <= space[i].1.high ==>
              Trunc(space[i].1.low) <= params[i].1.i <= Trunc(space[i].1.high)
    ensures forall i :: 0 <= i < |space| && params[i].1.Float? && Honest(t) && space[i].1.low <= space[i].1.high ==>
              space[i].1.low <= params[i].1.f <= space[i].1.high
  {
    params := [];
    for i := 0 to |space|
      invariant |params| == i
      invariant forall k :: 0 <= k < i ==> params[k].0 == space[k].0
      invariant forall k :: 0 <= k < i ==> (params[k].1.Int? <==> space[k].0 in INT_PARAMS)
      invariant forall k :: 0 <= k < i && params[k].1.Int? && Honest(t) && space[k].1.low <= space[k].1.high ==>
                  Trunc(space[k].1.low) <= params[k].1.i <= Trunc(space[k].1.high)
      invariant forall k :: 0 <= k < i && params[k].1.Float? && Honest(t) && space[k].1.low <= space[k].1.high ==>
                  space[k].1.low <= params[k].1.f <= space[k].1.high
    {
      var (name, range) := space[i];
      var v;
      if name in INT_PARAMS {
        if range.low <= range.high {
          TruncMonotone(range.low, range.high);
        }
        v := Int(t.suggestInt(name, Trunc(range.low), Trunc(range.high)));
      } else {
        v := Float(t.suggestFloat(name, range.low, range.high));
      }
      params := params + [(name, v)];
    }
  }

  // ---------------------------------------------------------------------
  // Proxy scores

  /** How many of the three "reasonable range" conditions the ensemble parameters meet. */
  function EnsembleConditions(p: Params): (n: nat)
    ensures n <= 3
  {
    Flag(80.0 <= GetNum(p, "n_estimators", 100.0) <= 200.0)
    + Flag(4.0 <= GetNum(p, "max_depth", 6.0) <= 8.0)
    + Flag(0.05 <= GetNum(p, "learning_rate", 0.1) <= 0.15)
  }

  /** How many of the four conditions the LSTM parameters meet. */
  function LstmConditions(p: Params): (n: nat)
    ensures n <= 4
  {
    var u1, u2, u3 := GetNum(p, "lstm_units_1", 128.0), GetNum(p, "lstm_units_2", 64.0), GetNum(p, "lstm_units_3", 32.0);
    Flag(u1 > u2 > u3)
    + Flag(0.0001 <= GetNum(p, "learning_rate", 0.001) <= 0.005)
    + Flag(0.15 <= GetNum(p, "dropout_rate", 0.2) <= 0.35)
    + Flag(45.0 <= GetNum(p, "sequence_length", 60.0) <= 75.0)
  }

  /** A base of 0.5, a tenth per condition met, the noise, clamped to [0, 1]. */
  function ProxyScore(conditions: nat, noise: real): (s: real)
    ensures 0.0 <= s <= 1.0
  {
    Clamp(0.5 + 0.1 * (conditions as real) + noise, 0.0, 1.0)
  }

  /** Without noise the proxy of `n <= 5` conditions is exactly 0.5 + n/10; more conditions score strictly more. */
  lemma ProxyScoreNoiseless(n: nat, m: nat)
    requires n < m <= 5
    ensures ProxyScore(n, 0.0) == 0.5 + 0.1 * (n as real)
    ensures ProxyScore(n, 0.0) < ProxyScore(m, 0.0)
  {
  }

  /** With noise, the score moves by at most the noise. */
  lemma ProxyScoreNoiseBound(n: nat, noise: real)
    requires n <= 5
    ensures Abs(ProxyScore(n, noise) - ProxyScore(n, 0.0)) <= Abs(noise)
  {
  }

  /** `_synthetic_ensemble_evaluation`, the score every ensemble trial gets. */
  method SyntheticEnsembleEvaluation(p: Params, noise: real) returns (score: real)
    ensures score == ProxyScore(EnsembleConditions(p), noise)
  {
    score := 0.5;
    var nEst := GetNum(p, "n_estimators", 100.0);
    if 80.0 <= nEst <= 200.0 {
      score := score + 0.1;
    }
    var maxDepth := GetNum(p, "max_depth", 6.0);
    if 4.0 <= maxDepth <= 8.0 {
      score := score + 0.1;
    }
    var lr := GetNum(p, "learning_rate", 0.1);
    if 0.05 <= lr <= 0.15 {
      score := score + 0.1;
    }
    score := score + noise;
    score := if score < 0.0 then 0.0 else if score > 1.0 then 1.0 else score;
  }

  /** `_evaluate_lstm_params`. */
  method EvaluateLstmParams(p: Params, noise: real) returns (score: real)
    ensures score == ProxyScore(LstmConditions(p), noise)
  {
    score := 0.5;
    var units1 := GetNum(p, "lstm_units_1", 128.0);
    var units2 := GetNum(p, "lstm_units_2", 64.0);
    var units3 := GetNum(p, "lstm_units_3", 32.0);
    if units1 > units2 > units3 {
      score := score + 0.1;
    }
    var lr := GetNum(p, "learning_rate", 0.001);
    if 0.0001 <= lr <= 0.005 {
      score := score + 0.1;
    }
    var dropout := GetNum(p, "dropout_rate", 0.2);
    if 0.15 <= dropout <= 0.35 {
      score := score + 0.1;
    }
    var seqLen := GetNum(p, "sequence_length", 60.0);
    if 45.0 <= seqLen <= 75.0 {
      score := score + 0.1;
    }
    score := score + noise;
    score := if score < 0.0 then 0.0 else if score > 1.0 then 1.0 else score;
  }

  // ---------------------------------------------------------------------
  // Hybrid trials

  /** `s.replace(pat, '')`: every non-overlapping occurrence removed, scanning left to right. */
  function RemoveAll(s: string, pat: string): string
    requires |pat| > 0
    decreases |s|
  {
    if |s| < |pat| then s
    else if s[..|pat|] == pat then RemoveAll(s[|pat|..], pat)
    else [s[0]] + RemoveAll(s[1..], pat)
  }

  lemma {:induction false} RemoveAbsent(s: string, pat: string)
    requires |pat| > 0 && !Contains(s, pat)
    ensures RemoveAll(s, pat) == s
    decreases |s|
  {
    if |s| >= |pat| {
      assert !SubstringAt(s, pat, 0);
      assert s[0..|pat|] == s[..|pat|];
      forall i | 0 <= i <= |s[1..]| ensures !SubstringAt(s[1..], pat, i) {
        assert !SubstringAt(s, pat, i + 1);
        if i + |pat| <= |s[1..]| {
          assert s[1..][i..i + |pat|] == s[i + 1..i + 1 + |pat|];
        }
      }
      RemoveAbsent(s[1..], pat);
      assert [s[0]] + s[1..] == s;
    }
  }

  /** A key that starts with the prefix, and holds it nowhere else, loses exactly the prefix. */
  lemma StripPrefix(s: string, pat: string)
    requires |pat| > 0 && StartsWith(s, pat) && !Contains(s[|pat|..], pat)
    ensures RemoveAll(s, pat) == s[|pat|..]
  {
    RemoveAbsent(s[|pat|..], pat);
  }

  /** The ensemble part of a hybrid trial: the `xgb_` keys with the prefix removed. */
  function EnsembleParams(p: Params): (r: Params)
    ensures |r| <= |p|
  {
    if p == [] then []
    else
      (if StartsWith(p[0].0, "xgb_") then [(RemoveAll(p[0].0, "xgb_"), p[0].1)] else [])
      + EnsembleParams(p[1..])
  }

  predicate IsLstmKey(k: string) {
    StartsWith(k, "lstm_") || k == "dropout_rate" || k == "learning_rate"
  }

  /** The LSTM part: the `lstm_` keys and the dropout and learning rates, unchanged. */
  function LstmParams(p: Params): (r: Params)
    ensures |r| <= |p|
    ensures forall i :: 0 <= i < |r| ==> r[i] in p && IsLstmKey(r[i].0)
  {
    if p == [] then []
    else (if IsLstmKey(p[0].0) then [p[0]] else []) + LstmParams(p[1..])
  }

  lemma {:induction false} LstmParamsComplete(p: Params, x: (string, Value))
    requires x in p && IsLstmKey(x.0)
    ensures x in LstmParams(p)
  {
    if p[0] != x {
      LstmParamsComplete(p[1..], x);
    }
  }

  lemma {:induction false} EnsembleParamsMembers(p: Params, k: string, v: Value)
    requires (k, v) in p && StartsWith(k, "xgb_") && !Contains(k[4..], "xgb_")
    ensures (k[4..], v) in EnsembleParams(p)
  {
    if p[0] == (k, v) {
      StripPrefix(k, "xgb_");
    } else {
      EnsembleParamsMembers(p[1..], k, v);
    }
  }

  /** Every ensemble parameter is an `xgb_` parameter of the trial, renamed. */
  lemma {:induction false} EnsembleParamsSound(p: Params, x: (string, Value))
    requires x in EnsembleParams(p)
    ensures exists y :: y in p && StartsWith(y.0, "xgb_") && x == (RemoveAll(y.0, "xgb_"), y.1)
  {
    if StartsWith(p[0].0, "xgb_") && x == (RemoveAll(p[0].0, "xgb_"), p[0].1) {
      assert p[0] in p;
    } else {
      EnsembleParamsSound(p[1..], x);
      var y :| y in p[1..] && StartsWith(y.0, "xgb_") && x == (RemoveAll(y.0, "xgb_"), y.1);
      assert y in p;
    }
  }

  lemma {:induction false} EnsembleParamsComplete(p: Params, x: (string, Value))
    requires x in p && StartsWith(x.0, "xgb_")
    ensures (RemoveAll(x.0, "xgb_"), x.1) in EnsembleParams(p)
  {
    if p[0] != x {
      EnsembleParamsComplete(p[1..], x);
    }
  }

  /**
   * The LSTM part of a hybrid trial never holds `lstm_units_3` or
   * `sequence_length`, which the hybrid space lacks: the proxy takes 32
   * units for the third layer and a sequence length of 60, which always
   * earns the sequence-length tenth.
   */
  lemma HybridLstmDefaults(p: Params)
    requires Firsts(p) == Firsts(HYBRID_SPACE)
    ensures GetNum(LstmParams(p), "lstm_units_3", 32.0) == 32.0
    ensures GetNum(LstmParams(p), "sequence_length", 60.0) == 60.0
  {
    var l := LstmParams(p);
    assert forall i :: 0 <= i < |p| ==> p[i].0 != "lstm_units_3" && p[i].0 != "sequence_length" by {
      forall i | 0 <= i < |p| ensures p[i].0 != "lstm_units_3" && p[i].0 != "sequence_length" {
        assert p[i].0 == HYBRID_SPACE[i].0;
      }
    }
    forall i | 0 <= i < |l| ensures Firsts(l)[i] != "lstm_units_3" && Firsts(l)[i] != "sequence_length" {
      assert l[i] in p;
    }
  }

  /**
   * `_evaluate_hybrid_params`'s blend: `w` times the ensemble score plus
   * `1 - w` times the LSTM score, and 0.05 more for a weight in [0.4, 0.7].
   */
  function HybridBlend(w: real, ensemble: real, lstm: real): real {
    Weighted(w, ensemble, lstm) + (if 0.4 <= w <= 0.7 then 0.05 else 0.0)
  }

  function Weighted(w: real, a: real, b: real): real {
    w * a + (1.0 - w) * b
  }

  lemma WeightedOf(w: real, a: real, b: real, v: real)
    requires v == 1.0 - w
    ensures w * a + v * b == Weighted(w, a, b)
  {
  }

  /** The blend lies between the two scores, raised by the bonus exactly for balanced weights. */
  lemma HybridBlendBounds(w: real, ensemble: real, lstm: real)
    requires 0.0 <= w <= 1.0
    ensures var bonus := HybridBlend(w, ensemble, lstm) - Weighted(w, ensemble, lstm);
            (bonus == 0.05 <==> 0.4 <= w <= 0.7) && (bonus == 0.0 <==> !(0.4 <= w <= 0.7))
    ensures var core := Weighted(w, ensemble, lstm);
            (ensemble <= lstm ==> ensemble <= core <= lstm) && (lstm <= ensemble ==> lstm <= core <= ensemble)
  {
    var core := w * ensemble + (1.0 - w) * lstm;
    assert core - ensemble == (1.0 - w) * (lstm - ensemble);
    assert lstm - core == w * (lstm - ensemble);
    MulSign(1.0 - w, lstm - ensemble);
    MulSign(w, lstm - ensemble);
  }

  lemma MulSign(a: real, b: real)
    requires a >= 0.0
    ensures b >= 0.0 ==> a * b >= 0.0
    ensures b <= 0.0 ==> a * b <= 0.0
  {
  }

  /** Without a weight the blend is 0.6 and 0.4, with the bonus. */
  lemma HybridDefaultWeight(p: Params, ensemble: real, lstm: real)
    requires "xgb_weight" !in Firsts(p)
    ensures HybridBlend(GetNum(p, "xgb_weight", 0.6), ensemble, lstm) == 0.6 * ensemble + 0.4 * lstm + 0.05
  {
  }

  method EvaluateHybridParams(p: Params, t: Trial) returns (score: real)
    ensures score == HybridBlend(GetNum(p, "xgb_weight", 0.6),
                                 ProxyScore(EnsembleConditions(EnsembleParams(p)), t.ensembleNoise),
                                 ProxyScore(LstmConditions(LstmParams(p)), t.lstmNoise))
  {
    var ensembleScore := SyntheticEnsembleEvaluation(EnsembleParams(p), t.ensembleNoise);
    var lstmScore := EvaluateLstmParams(LstmParams(p), t.lstmNoise);
    var xgbWeight := GetNum(p, "xgb_weight", 0.6);
    var lstmWeight := 1.0 - xgbWeight;
    score := xgbWeight * ensembleScore + lstmWeight * lstmScore;
    WeightedOf(xgbWeight, ensembleScore, lstmScore, lstmWeight);
    if 0.4 <= xgbWeight <= 0.7 {
      score := score + 0.05;
    }
  }

  /** The score of a trial of the given type on its sampled parameters (0.5 for an unknown type). */
  function TrialScore(kind: string, p: Params, t: Trial): real {
    if kind == "ensemble" then ProxyScore(EnsembleConditions(p), t.ensembleNoise)
    else if kind == "lstm" then ProxyScore(LstmConditions(p), t.lstmNoise)
    else if kind == "hybrid" then
      HybridBlend(GetNum(p, "xgb_weight", 0.6),
                  ProxyScore(EnsembleConditions(EnsembleParams(p)), t.ensembleNoise),
                  ProxyScore(LstmConditions(LstmParams(p)), t.lstmNoise))
    else 0.5
  }

  /** Trial scores are never negative, and at most 1 except for the hybrid bonus. */
  lemma TrialScoreBounds(kind: string, p: Params, t: Trial)
    requires kind == "hybrid" ==> 0.0 <= GetNum(p, "xgb_weight", 0.6) <= 1.0
    ensures 0.0 <= TrialScore(kind, p, t) <= 1.05
    ensures kind != "hybrid" ==> TrialScore(kind, p, t) <= 1.0
  {
    if kind == "hybrid" {
      var w := GetNum(p, "xgb_weight", 0.6);
      var e := ProxyScore(EnsembleConditions(EnsembleParams(p)), t.ensembleNoise);
      var l := ProxyScore(LstmConditions(LstmParams(p)), t.lstmNoise);
      HybridBlendBounds(w, e, l);
      assert 0.0 <= Weighted(w, e, l) <= 1.0;
      assert TrialScore(kind, p, t) == HybridBlend(w, e, l);
    }
  }

  // ---------------------------------------------------------------------
  // The best value of the tuning status

  /**
   * `max(score, status.get('best_value', 0))` as written: the status is
   * created with `best_value` set to None, so `get` returns None rather
   * than 0 and `max` raises; `None` here stands for that raise.
   */
  function RecordScoreAsWritten(best: Option<real>, score: real): Option<real> {
    match best
    case None => None
    case Some(b) => Some(if score >= b then score else b)
  }

  /**
   * The outcome of `objective_function` as written for a run of trial
   * scores, starting from a best value: the values the trials return, and
   * the best value afterwards. A raise returns 0.0 and leaves the status.
   */
  function RunAsWritten(best: Option<real>, scores: seq<real>): (r: (seq<real>, Option<real>))
    ensures |r.0| == |scores|
  {
    if scores == [] then ([], best)
    else
      var (prior, b) := RunAsWritten(best, scores[..|scores| - 1]);
      var next := RecordScoreAsWritten(b, scores[|scores| - 1]);
      (prior + [if next.None? then 0.0 else scores[|scores| - 1]], if next.None? then b else next)
  }

  /**
   * In the first study of a fresh tuner every trial returns 0.0, whatever it
   * scored, and the best value stays None: the optimiser is given no signal.
   */
  lemma {:induction false} FirstStudyIsBlind(scores: seq<real>)
    ensures RunAsWritten(None, scores).1 == None
    ensures forall i :: 0 <= i < |scores| ==> RunAsWritten(None, scores).0[i] == 0.0
  {
    if scores != [] {
      FirstStudyIsBlind(scores[..|scores| - 1]);
    }
  }

  /** A trial scoring 0.8 in a fresh tuner is reported as 0.0. */
  lemma FirstTrialCounterexample()
    ensures RunAsWritten(None, [0.8]).0 == [0.0]
  {
    FirstStudyIsBlind([0.8]);
  }

  /** One more trial extends the run by the value that trial returns. */
  lemma RunAsWrittenSnoc(best: Option<real>, scores: seq<real>, s: real)
    ensures var (v, b) := RunAsWritten(best, scores);
            var next := RecordScoreAsWritten(b, s);
            RunAsWritten(best, scores + [s]) == (v + [if next.None? then 0.0 else s], if next.None? then b else next)
  {
    assert (scores + [s])[..|scores|] == scores;
  }

  /** The evidently intended update: a missing best counts as 0. */
  function RecordScore(best: Option<real>, score: real): (b: real)
    ensures b >= score && b >= best.GetOr(0.0)
    ensures b == score || b == best.GetOr(0.0)
  {
    if score >= best.GetOr(0.0) then score else best.GetOr(0.0)
  }

  function RunBest(best: Option<real>, scores: seq<real>): Option<real> {
    if scores == [] then best else Some(RecordScore(RunBest(best, scores[..|scores| - 1]), scores[|scores| - 1]))
  }

  /** With the intended update, the best value after a run of non-negative scores is their maximum. */
  lemma {:induction false} RunBestIsMax(scores: seq<real>)
    requires |scores| > 0 && forall i :: 0 <= i < |scores| ==> scores[i] >= 0.0
    ensures RunBest(None, scores) == Some(MaxOf(scores))
  {
    var init := scores[..|scores| - 1];
    if |init| > 0 {
      RunBestIsMax(init);
      var m := MaxOf(init);
      var k :| 0 <= k < |init| && init[k] == m;
      assert scores[k] == m;
      assert forall j :: 0 <= j < |init| ==> scores[j] == init[j];
      var b := RecordScore(Some(m), scores[|scores| - 1]);
      assert forall j :: 0 <= j < |scores| ==> scores[j] <= b;
      assert scores[k] == b || scores[|scores| - 1] == b;
      MaxIsUnique(scores, b);
    } else {
      assert scores == [scores[0]];
    }
  }

  lemma MaxIsUnique(p: seq<real>, b: real)
    requires (forall j :: 0 <= j < |p| ==> p[j] <= b) && exists j :: 0 <= j < |p| && p[j] == b
    ensures MaxOf(p) == b
  {
    var j :| 0 <= j < |p| && p[j] == b;
    assert p[j] <= MaxOf(p);
  }

  /** The maximum of a list with one more entry at its end. */
  lemma MaxOfSnoc(p: seq<real>, x: real)
    requires |p| > 0
    ensures MaxOf(p + [x]) == if x >= MaxOf(p) then x else MaxOf(p)
  {
    var q := p + [x];
    var m := MaxOf(p);
    var top := if x >= m then x else m;
    var k :| 0 <= k < |p| && p[k] == m;
    assert q[k] == m && q[|q| - 1] == x;
    assert forall j :: 0 <= j < |p| ==> q[j] == p[j];
    MaxIsUnique(q, top);
  }

  /** The maximum of a list with one more entry at its front. */
  lemma MaxOfCons(b: real, p: seq<real>)
    requires |p| > 0
    ensures MaxOf([b] + p) == if b >= MaxOf(p) then b else MaxOf(p)
  {
    assert ([b] + p)[1..] == p;
  }

  /**
   * Once a best value is stored the objective no longer raises: every
   * trial returns its own score, and the best value afterwards is the
   * largest of the stored best and the scores.
   */
  lemma {:induction false} RunAsWrittenFromBest(b: real, scores: seq<real>)
    ensures RunAsWritten(Some(b), scores) == (scores, Some(MaxOf([b] + scores)))
    ensures scores != [] ==>
              RunAsWritten(Some(b), scores).1 == Some(if b >= MaxOf(scores) then b else MaxOf(scores))
  {
    if scores != [] {
      var init, x := scores[..|scores| - 1], scores[|scores| - 1];
      assert scores == init + [x];
      RunAsWrittenFromBest(b, init);
      RunAsWrittenSnoc(Some(b), init, x);
      MaxOfSnoc([b] + init, x);
      assert ([b] + init) + [x] == [b] + scores;
      MaxOfCons(b, scores);
    }
  }

  // ---------------------------------------------------------------------
  // The tuner and its status

  /** The study name is the tuner's name and the type. */
  const STUDY_NAME: string := "solana_ml_optimization"

  datatype Status = Status(
    active: bool, currentTrial: nat, totalTrials: nat,
    bestValue: Option<real>, bestParams: Option<Params>,
    startTime: Option<int>, estimatedCompletion: Option<int>)

  /** A study: its name and its completed trials, each with its value and parameters. */
  datatype Study = Study(name: string, trials: seq<(real, Params)>)

  datatype Outcome =
    | Success(bestValue: real, bestParams: Params, nTrials: nat, studyName: string)
    | Failure(error: string, studyName: string)

  /** Optuna's message when a study has no completed trial to be best. */
  const NO_COMPLETED_TRIALS: string := "No trials are completed yet."

  /** What each trial of a run scores, trial by trial. */
  function TrialScores(kind: string, ps: seq<Params>, ts: seq<Trial>): (s: seq<real>)
    requires |ps| == |ts|
    ensures |s| == |ts|
  {
    Pointwise((p: Params, t: Trial) => TrialScore(kind, p, t), ps, ts)
  }

  /** The score of each trial of a run is the trial score of its parameters. */
  lemma TrialScoresAt(kind: string, ps: seq<Params>, ts: seq<Trial>, j: nat)
    requires |ps| == |ts| && j < |ts|
    ensures TrialScores(kind, ps, ts)[j] == TrialScore(kind, ps[j], ts[j])
  {
  }

  /** One more trial of the loop in `RunTrials` extends the scores by its own. */
  lemma TrialScoresStep(kind: string, added: seq<(real, Params)>, trials: seq<Trial>, i: nat,
                        x: (real, Params), scores: seq<real>, score: real)
    requires i < |trials| && |added| == i && scores == TrialScores(kind, Seconds(added), trials[..i])
    requires score == TrialScore(kind, x.1, trials[i])
    ensures scores + [score] == TrialScores(kind, Seconds(added + [x]), trials[..i + 1])
  {
    SecondsSnoc(added, x);
    assert trials[..i + 1] == trials[..i] + [trials[i]];
    PointwiseSnoc((p: Params, t: Trial) => TrialScore(kind, p, t), Seconds(added), trials[..i], x.1, trials[i]);
  }

  /** `study.best_trial` of a maximising study: a trial whose value no other trial exceeds. */
  function BestTrial(trials: seq<(real, Params)>): (b: (real, Params))
    requires |trials| > 0
    ensures b in trials
    ensures forall x :: x in trials ==> x.0 <= b.0
  {
    var k := ArgMax(Firsts(trials));
    assert forall x :: x in trials ==> x.0 <= trials[k].0 by {
      forall x | x in trials ensures x.0 <= trials[k].0 {
        var j :| 0 <= j < |trials| && trials[j] == x;
        assert Firsts(trials)[j] <= Firsts(trials)[k];
      }
    }
    trials[k]
  }

  /** The trials a fresh tuner adds to a study all record 0.0. */
  lemma BlindTail(previous: seq<(real, Params)>, done: seq<(real, Params)>, scores: seq<real>)
    requires |done| == |previous| + |scores|
    requires Firsts(done[|previous|..]) == RunAsWritten(None, scores).0
    ensures forall j :: |previous| <= j < |done| ==> done[j].0 == 0.0
  {
    FirstStudyIsBlind(scores);
    forall j | |previous| <= j < |done| ensures done[j].0 == 0.0 {
      assert done[j].0 == Firsts(done[|previous|..])[j - |previous|];
    }
  }

  class Tuner {
    var currentStudy: Option<Study>
    var active: bool
    var currentTrial: nat
    var totalTrials: nat
    var bestValue: Option<real>
    var bestParams: Option<Params>
    var startTime: Option<int>
    var estimatedCompletion: Option<int>

    constructor ()
      ensures currentStudy.None? && !active && currentTrial == 0 && totalTrials == 0
      ensures bestValue.None? && bestParams.None? && startTime.None? && estimatedCompletion.None?
    {
      currentStudy := None;
      active := false;
      currentTrial := 0;
      totalTrials := 0;
      bestValue := None;
      bestParams := None;
      startTime := None;
      estimatedCompletion := None;
    }

    /** `get_tuning_status`: a copy of the status, which later calls do not change. */
    method GetTuningStatus() returns (s: Status)
      ensures s == Status(active, currentTrial, totalTrials, bestValue, bestParams, startTime, estimatedCompletion)
    {
      s := Status(active, currentTrial, totalTrials, bestValue, bestParams, startTime, estimatedCompletion);
    }

    /** The dispatch of `objective_function` on the optimisation type, 0.5 for an unknown one. */
    method EvaluateParams(kind: string, params: Params, t: Trial) returns (score: real)
      ensures score == TrialScore(kind, params, t)
    {
      if kind == "ensemble" {
        score := SyntheticEnsembleEvaluation(params, t.ensembleNoise);
      } else if kind == "lstm" {
        score := EvaluateLstmParams(params, t.lstmNoise);
      } else if kind == "hybrid" {
        score := EvaluateHybridParams(params, t);
      } else {
        score := 0.5;
      }
    }

    /**
     * `objective_function` as written: sample the trial's parameters, score
     * them and advance the trial counter; then `max(score, best_value)`
     * either records the new best, or raises on a best value of None, in
     * which case the handler returns 0.0 and the best is left as it was.
     */
    method ObjectiveFunction(t: Trial, kind: string) returns (value: real, params: Params, ghost score: real)
      modifies this`currentTrial, this`bestValue, this`bestParams
      ensures Firsts(params) == Firsts(DefineSearchSpaces(kind))
      ensures currentTrial == t.number + 1
      ensures score == TrialScore(kind, params, t)
      ensures var next := RecordScoreAsWritten(old(bestValue), score);
              (next.None? ==> value == 0.0 && bestValue == old(bestValue) && bestParams == old(bestParams))
              && (next.Some? ==> value == score && bestValue == next
                                 && bestParams == if score == next.value then Some(params) else old(bestParams))
    {
      params := SampleParams(DefineSearchSpaces(kind), t);
      var s := EvaluateParams(kind, params, t);
      score := s;
      currentTrial := t.number + 1;
      var next := RecordScoreAsWritten(bestValue, s);
      if next.None? {
        value := 0.0;
      } else {
        value := s;
        bestValue := next;
        if s == next.value {
          bestParams := Some(params);
        }
      }
    }

    /**
     * One objective call as the study sees it: the value recorded and the
     * status update, without the parameter typing `ObjectiveFunction` also
     * promises (which keeps the trial loop's proof small).
     */
    method RunTrial(t: Trial, kind: string) returns (value: real, params: Params, ghost score: real)
      modifies this`currentTrial, this`bestValue, this`bestParams
      ensures score == TrialScore(kind, params, t)
      ensures var next := RecordScoreAsWritten(old(bestValue), score);
              (next.None? ==> value == 0.0 && bestValue == old(bestValue) && bestParams == old(bestParams))
              && (next.Some? ==> value == score && bestValue == next)
    {
      value, params, score := ObjectiveFunction(t, kind);
    }

    /**
     * `objective_function` with the evidently intended update, a missing
     * best counting as 0: the trial returns its score and the best value
     * is the larger of the score and the old best.
     */
    method ObjectiveFunctionIntended(t: Trial, kind: string) returns (score: real, params: Params)
      modifies this`currentTrial, this`bestValue, this`bestParams
      ensures Firsts(params) == Firsts(DefineSearchSpaces(kind))
      ensures score == TrialScore(kind, params, t)
      ensures currentTrial == t.number + 1
      ensures bestValue == Some(RecordScore(old(bestValue), score))
      ensures bestParams == if score == RecordScore(old(bestValue), score) then Some(params) else old(bestParams)
    {
      params := SampleParams(DefineSearchSpaces(kind), t);
      score := EvaluateParams(kind, params, t);
      currentTrial := t.number + 1;
      var best := RecordScore(bestValue, score);
      bestValue := Some(best);
      if score == best {
        bestParams := Some(params);
      }
    }

    /**
     * `study.optimize`: one objective call per trial, each added to the
     * study with the value the call returned. `scores` are what the trials
     * scored; the values added are those of `RunAsWritten` on them.
     */
    method RunTrials(kind: string, trials: seq<Trial>) returns (added: seq<(real, Params)>, ghost scores: seq<real>)
      modifies this`currentTrial, this`bestValue, this`bestParams
      ensures |added| == |trials| && scores == TrialScores(kind, Seconds(added), trials)
      ensures Firsts(added) == RunAsWritten(old(bestValue), scores).0
      ensures bestValue == RunAsWritten(old(bestValue), scores).1
      ensures |trials| == 0 ==> bestParams == old(bestParams) && currentTrial == old(currentTrial)
    {
      added := [];
      scores := [];
      for i := 0 to |trials|
        invariant |added| == i && scores == TrialScores(kind, Seconds(added), trials[..i])
        invariant Firsts(added) == RunAsWritten(old(bestValue), scores).0
        invariant bestValue == RunAsWritten(old(bestValue), scores).1
        invariant i == 0 ==> bestParams == old(bestParams) && currentTrial == old(currentTrial)
      {
        var value, params, score := RunTrial(trials[i], kind);
        RunAsWrittenSnoc(old(bestValue), scores, score);
        FirstsSnoc(added, (value, params));
        TrialScoresStep(kind, added, trials, i, (value, params), scores, score);
        added := added + [(value, params)];
        scores := scores + [score];
      }
      assert trials[..|trials|] == trials;
    }

    /**
     * `start_optimization`: without Optuna it fails at once and only clears
     * `active`; otherwise it runs the trials on the study, which also holds
     * the `previous` trials stored under its name, and reports the best.
     * The values the new trials record are those of `RunAsWritten`, so in a
     * tuner whose best value is still None they are all 0.0.
     */
    method StartOptimization(kind: string, trials: seq<Trial>, optunaAvailable: bool,
                             previous: seq<(real, Params)>, now: int) returns (r: Outcome, ghost scores: seq<real>)
      modifies this
      ensures !optunaAvailable ==>
                r == Failure("Optuna not available", kind) && !active
                && currentTrial == old(currentTrial) && totalTrials == old(totalTrials)
                && bestValue == old(bestValue) && bestParams == old(bestParams)
                && startTime == old(startTime) && estimatedCompletion == old(estimatedCompletion)
                && currentStudy == old(currentStudy)
      ensures optunaAvailable ==>
                !active && totalTrials == |trials| && startTime == Some(now)
                && estimatedCompletion == Some(now + 2 * |trials|)
                && currentStudy.Some? && currentStudy.value.name == STUDY_NAME + "_" + kind
                && |currentStudy.value.trials| == |previous| + |trials|
                && currentStudy.value.trials[..|previous|] == previous
                && scores == TrialScores(kind, Seconds(currentStudy.value.trials[|previous|..]), trials)
                && Firsts(currentStudy.value.trials[|previous|..]) == RunAsWritten(old(bestValue), scores).0
      ensures optunaAvailable && old(bestValue).None? ==>
                forall j :: |previous| <= j < |currentStudy.value.trials| ==> currentStudy.value.trials[j].0 == 0.0
      ensures optunaAvailable && |previous| + |trials| == 0 ==>
                r == Failure(NO_COMPLETED_TRIALS, kind)
                && currentTrial == 0 && bestValue == old(bestValue) && bestParams == old(bestParams)
      ensures optunaAvailable && |previous| + |trials| > 0 ==>
                r.Success? && r.studyName == STUDY_NAME + "_" + kind && r.nTrials == |previous| + |trials|
                && currentTrial == r.nTrials && bestValue == Some(r.bestValue) && bestParams == Some(r.bestParams)
                && (r.bestValue, r.bestParams) in currentStudy.value.trials
                && (forall x :: x in currentStudy.value.trials ==> x.0 <= r.bestValue)
    {
      scores := [];
      if !optunaAvailable {
        active := false;
        return Failure("Optuna not available", kind), scores;
      }
      active := true;
      currentTrial := 0;
      totalTrials := |trials|;
      startTime := Some(now);
      estimatedCompletion := Some(now + 2 * |trials|);
      ghost var best0 := bestValue;
      var added;
      added, scores := RunTrials(kind, trials);
      r := FinishStudy(kind, previous, added);
      assert currentStudy.value.trials[|previous|..] == added;
      if best0.None? {
        BlindTail(previous, currentStudy.value.trials, scores);
      }
    }

    /**
     * The end of `start_optimization`: the study now holds the stored and
     * the new trials; with none completed it fails, otherwise the best trial
     * of the study becomes the tuner's best and the count of trials run.
     */
    method FinishStudy(kind: string, previous: seq<(real, Params)>, added: seq<(real, Params)>) returns (r: Outcome)
      modifies this`currentStudy, this`active, this`currentTrial, this`bestValue, this`bestParams
      ensures currentStudy == Some(Study(STUDY_NAME + "_" + kind, previous + added)) && !active
      ensures |previous| + |added| == 0 ==>
                r == Failure(NO_COMPLETED_TRIALS, kind)
                && currentTrial == old(currentTrial) && bestValue == old(bestValue) && bestParams == old(bestParams)
      ensures |previous| + |added| > 0 ==>
                r.Success? && r.studyName == STUDY_NAME + "_" + kind && r.nTrials == |previous| + |added|
                && currentTrial == r.nTrials && bestValue == Some(r.bestValue) && bestParams == Some(r.bestParams)
                && (r.bestValue, r.bestParams) in previous + added
                && (forall x :: x in previous + added ==> x.0 <= r.bestValue)
    {
      var name := STUDY_NAME + "_" + kind;
      var done := previous + added;
      currentStudy := Some(Study(name, done));
      active := false;
      if |done| == 0 {
        return Failure(NO_COMPLETED_TRIALS, kind);
      }
      var best := BestTrial(done);
      bestValue := Some(best.0);
      bestParams := Some(best.1);
      currentTrial := |done|;
      r := Success(best.0, best.1, |done|, name);
    }
  }
}
