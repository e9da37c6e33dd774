/**
 * The stacked ensemble of `services/ensemble.py`: XGBoost on the scaled
 * engineered features and an LSTM on windows of 24 prices, combined by a
 * multinomial logistic meta-learner. Labels are BULLISH / BEARISH / NEUTRAL
 * at +-1 %, encoded by a label encoder whose classes are in alphabetical
 * order; a prediction is the signed probability of the winning class.
 */
module Ensemble {
  import opened Common
  import EnsembleLite

  datatype Direction = Bearish | Bullish | Neutral

  // ---------------------------------------------------------------------
  // The target

  /**
   * The class of a row from its relative change to the next price; a NaN
   * change (0/0) makes the row disappear in `dropna`.
   */
  function RowLabel(c: Change): (d: Option<Direction>)
    ensures d.None? <==> c.NaN?
    ensures d == Some(Bullish) <==> c.PosInf? || (c.Finite? && c.x > 0.01)
    ensures d == Some(Bearish) <==> c.NegInf? || (c.Finite? && c.x < -0.01)
    ensures d == Some(Neutral) <==> c.Finite? && -0.01 <= c.x <= 0.01
  {
    match c
    case NaN => None
    case PosInf => Some(Bullish)
    case NegInf => Some(Bearish)
    case Finite(x) => Some(if x > 0.01 then Bullish else if x < -0.01 then Bearish else Neutral)
  }

  /**
   * The label of every row of a price series; the last row has no next
   * price (NaN) and has none either.
   */
  function Labels(prices: seq<real>): seq<Option<Direction>> {
    seq(|prices|, i requires 0 <= i < |prices| =>
      if i + 1 < |prices| then RowLabel(ChangePct(prices[i], prices[i + 1])) else None)
  }

  lemma LabelsShape(prices: seq<real>)
    ensures |Labels(prices)| == |prices|
    ensures |prices| > 0 ==> Labels(prices)[|prices| - 1].None?
    ensures forall i :: 0 <= i < |prices| - 1 && prices[i] != 0.0 ==>
              Labels(prices)[i].Some?
  {
  }

  /**
   * The +-1 % band is wider than the +-0.5 % one of the lightweight
   * ensemble: every decisive label here is decisive there too, but not
   * conversely (a 0.8 % rise).
   */
  lemma WiderBandThanLite(c: Change)
    ensures RowLabel(c) == Some(Bullish) ==> EnsembleLite.TargetClass(c) == EnsembleLite.BULLISH
    ensures RowLabel(c) == Some(Bearish) ==> EnsembleLite.TargetClass(c) == EnsembleLite.BEARISH
    ensures RowLabel(Finite(0.008)) == Some(Neutral)
    ensures EnsembleLite.TargetClass(Finite(0.008)) == EnsembleLite.BULLISH
  {
  }

  // ---------------------------------------------------------------------
  // Training data

  /** The engineered frame after `dropna`: its columns, and per row the price and the label. */
  datatype Frame = Frame(columns: seq<string>, prices: seq<real>, labels: seq<Direction>)

  const MIN_ROWS: nat := 50
  const SEQUENCE_LENGTH: nat := 24
  const EXCLUDED: set<string> := {"timestamp", "target_class", "next_price", "price_change", "predicted_category"}

  /** The alphabetical rank of a class name: BEARISH < BULLISH < NEUTRAL. */
  function Rank(d: Direction): nat {
    match d
    case Bearish => 0
    case Bullish => 1
    case Neutral => 2
  }

  /** The classes a label encoder learns: the distinct labels, in alphabetical order. */
  function EncoderClasses(labels: seq<Direction>): (c: seq<Direction>)
    ensures Bearish in c <==> Bearish in labels
    ensures Bullish in c <==> Bullish in labels
    ensures Neutral in c <==> Neutral in labels
    ensures forall i, j :: 0 <= i < j < |c| ==> Rank(c[i]) < Rank(c[j])
  {
    (if Bearish in labels then [Bearish] else [])
    + (if Bullish in labels then [Bullish] else [])
    + (if Neutral in labels then [Neutral] else [])
  }

  /** With all three labels present, the encoded class indices are 0, 1 and 2 as ranked. */
  lemma EncoderClassesAllThree(labels: seq<Direction>)
    requires Bearish in labels && Bullish in labels && Neutral in labels
    ensures EncoderClasses(labels) == [Bearish, Bullish, Neutral]
  {
  }

  /**
   * The raw LSTM windows: the 24 prices before each row from row 24 on, or,
   * when there are not enough rows, one window of the last `min(n, 24)`
   * prices. The per-window standardisation is left out.
   */
  function LstmWindows(prices: seq<real>): seq<seq<real>> {
    var n := |prices|;
    if n > SEQUENCE_LENGTH then
      seq(n - SEQUENCE_LENGTH, j requires 0 <= j < n - SEQUENCE_LENGTH => prices[j..j + SEQUENCE_LENGTH])
    else
      [prices[n - Min(n, SEQUENCE_LENGTH)..]]
  }

  lemma LstmWindowsShape(prices: seq<real>)
    ensures |LstmWindows(prices)| == if |prices| > SEQUENCE_LENGTH then |prices| - SEQUENCE_LENGTH else 1
    ensures forall j :: 0 <= j < |LstmWindows(prices)| ==>
              |LstmWindows(prices)[j]| == Min(|prices|, SEQUENCE_LENGTH)
    ensures forall j :: 0 <= j < |LstmWindows(prices)| && |prices| > SEQUENCE_LENGTH ==>
              LstmWindows(prices)[j] + [prices[j + SEQUENCE_LENGTH]] == prices[j..j + SEQUENCE_LENGTH + 1]
    ensures |prices| <= SEQUENCE_LENGTH ==> LstmWindows(prices) == [prices]
  {
    var n := |prices|;
    if n > SEQUENCE_LENGTH {
      forall j | 0 <= j < n - SEQUENCE_LENGTH
        ensures LstmWindows(prices)[j] + [prices[j + SEQUENCE_LENGTH]] == prices[j..j + SEQUENCE_LENGTH + 1]
      {
        assert prices[j..j + SEQUENCE_LENGTH + 1] == prices[j..j + SEQUENCE_LENGTH] + [prices[j + SEQUENCE_LENGTH]];
      }
    }
  }

  /**
   * The LSTM split exactly as `prepare_training_data` writes it: the
   * windows are cut at the row split index `k` when there are more than `k`
   * of them, and otherwise all are used for training and the last
   * `n - k` for testing.
   */
  function LstmSplitAsWritten(xl: seq<seq<real>>, n: nat): (r: (seq<seq<real>>, seq<seq<real>>))
    ensures |xl| > SplitIndex(n) ==> r.0 + r.1 == xl
  {
    var k := SplitIndex(n);
    var m := n - k;
    if |xl| > k then (xl[..k], xl[k..])
    else (xl, if m == 0 then xl else xl[|xl| - Min(m, |xl|)..])
  }

  /**
   * With the row split at `k`, the windows agree in number with the
   * training labels and with the test labels only for frames of 116 to 120
   * rows; a network fitted on them with the labels of the rows is given
   * inputs and targets of different lengths otherwise.
   */
  lemma LstmSplitMatchesLabelsOnlyNear120(prices: seq<real>)
    requires |prices| >= MIN_ROWS
    ensures var n := |prices|;
            var r := LstmSplitAsWritten(LstmWindows(prices), n);
            (|r.0| == SplitIndex(n) && |r.1| == n - SplitIndex(n)) <==> 116 <= n <= 120
  {
    LstmWindowsShape(prices);
  }

  /** Two frames that show it: 50 rows (26 windows for 40 labels) and 200 rows (16 test windows for 40 labels). */
  lemma LstmSplitCounterexamples(p50: seq<real>, p200: seq<real>)
    requires |p50| == 50 && |p200| == 200
    ensures |LstmSplitAsWritten(LstmWindows(p50), 50).0| == 26 && SplitIndex(50) == 40
    ensures |LstmSplitAsWritten(LstmWindows(p200), 200).1| == 16 && 200 - SplitIndex(200) == 40
  {
    LstmWindowsShape(p50);
    LstmWindowsShape(p200);
  }

  /**
   * The split the network needs: window `j` ends at row `j + 23` and is
   * paired with that row's label (the move that follows the window), and
   * the pairs are split chronologically.
   */
  function AlignedLstmSplit(xl: seq<seq<real>>, labels: seq<Direction>)
    : (r: (seq<seq<real>>, seq<seq<real>>, seq<Direction>, seq<Direction>))
    requires |xl| + SEQUENCE_LENGTH <= |labels|
    ensures |r.0| == |r.2| && |r.1| == |r.3|
    ensures r.0 + r.1 == xl
    ensures |r.0| == SplitIndex(|xl|)
    ensures forall j :: 0 <= j < |r.0| ==> r.2[j] == labels[j + SEQUENCE_LENGTH - 1]
    ensures forall j :: 0 <= j < |r.1| ==> r.3[j] == labels[|r.0| + j + SEQUENCE_LENGTH - 1]
  {
    var y := labels[SEQUENCE_LENGTH - 1..SEQUENCE_LENGTH - 1 + |xl|];
    var (xTrain, xTest) := ChronoSplit(xl);
    var (yTrain, yTest) := ChronoSplit(y);
    (xTrain, xTest, yTrain, yTest)
  }

  /** What `prepare_training_data` hands to the learners. */
  datatype Prepared = Prepared(
    trainLabels: seq<Direction>,
    testLabels: seq<Direction>,
    lstmTrain: seq<seq<real>>,
    lstmTest: seq<seq<real>>,
    lstmTrainLabels: seq<Direction>,
    lstmTestLabels: seq<Direction>)

  function Prepare(data: Frame): Prepared
    requires |data.labels| == |data.prices| >= MIN_ROWS
  {
    var (yTrain, yTest) := ChronoSplit(data.labels);
    LstmWindowsShape(data.prices);
    var (xTrain, xTest, lTrain, lTest) := AlignedLstmSplit(LstmWindows(data.prices), data.labels);
    Prepared(yTrain, yTest, xTrain, xTest, lTrain, lTest)
  }

  /**
   * The rows split 80/20 in time order, and every LSTM window is paired
   * with a label, on both sides of the split.
   */
  lemma PrepareCorrect(data: Frame)
    requires |data.labels| == |data.prices| >= MIN_ROWS
    ensures var p := Prepare(data);
            p.trainLabels + p.testLabels == data.labels
            && |p.trainLabels| == SplitIndex(|data.labels|)
            && |p.lstmTrain| == |p.lstmTrainLabels| && |p.lstmTest| == |p.lstmTestLabels|
            && |p.lstmTrain| + |p.lstmTest| == |data.prices| - SEQUENCE_LENGTH
            && (forall j :: 0 <= j < |p.lstmTrain| ==>
                  p.lstmTrain[j] == data.prices[j..j + SEQUENCE_LENGTH]
                  && p.lstmTrainLabels[j] == data.labels[j + SEQUENCE_LENGTH - 1])
  {
    LstmWindowsShape(data.prices);
    var p := Prepare(data);
    var xl := LstmWindows(data.prices);
    forall j | 0 <= j < |p.lstmTrain|
      ensures p.lstmTrain[j] == data.prices[j..j + SEQUENCE_LENGTH]
    {
      assert p.lstmTrain[j] == (p.lstmTrain + p.lstmTest)[j] == xl[j];
    }
  }

  /**
   * What `prepare_training_data` returns as written: the labels split
   * 80/20, and the windows cut by `LstmSplitAsWritten`; the network is
   * fitted against the row labels of each side.
   */
  function PrepareAsWritten(data: Frame): (p: Prepared)
    requires |data.labels| == |data.prices| >= MIN_ROWS
    ensures p.trainLabels + p.testLabels == data.labels && |p.trainLabels| == SplitIndex(|data.labels|)
    ensures p.lstmTrainLabels == p.trainLabels && p.lstmTestLabels == p.testLabels
  {
    var (yTrain, yTest) := ChronoSplit(data.labels);
    var (xTrain, xTest) := LstmSplitAsWritten(LstmWindows(data.prices), |data.prices|);
    Prepared(yTrain, yTest, xTrain, xTest, yTrain, yTest)
  }

  /** Each side holds as many network inputs as targets, which fitting the network demands. */
  predicate Paired(p: Prepared) {
    |p.lstmTrain| == |p.lstmTrainLabels| && |p.lstmTest| == |p.lstmTestLabels|
  }

  /** As written, the network's inputs and targets agree in number only for frames of 116 to 120 rows. */
  lemma PrepareAsWrittenPaired(data: Frame)
    requires |data.labels| == |data.prices| >= MIN_ROWS
    ensures Paired(PrepareAsWritten(data)) <==> 116 <= |data.prices| <= 120
  {
    LstmSplitMatchesLabelsOnlyNear120(data.prices);
  }

  /** The corrected split always pairs them. */
  lemma PreparePaired(data: Frame)
    requires |data.labels| == |data.prices| >= MIN_ROWS
    ensures Paired(Prepare(data))
  {
    PrepareCorrect(data);
  }

  // ---------------------------------------------------------------------
  // Python's `col.split('_')[0] + '_' + col.split('_')[1]`

  /** The text before the first `_` (all of it when there is none). */
  function UpToUnderscore(s: string): (r: string)
    ensures '_' !in r
    ensures |r| <= |s| && r == s[..|r|]
  {
    if s == [] || s[0] == '_' then [] else [s[0]] + UpToUnderscore(s[1..])
  }

  /** The text after the first `_` (empty when there is none). */
  function AfterUnderscore(s: string): (r: string)
    ensures |r| <= |s|
  {
    if s == [] then [] else if s[0] == '_' then s[1..] else AfterUnderscore(s[1..])
  }

  /**
   * The text is split at its first `_`: the part before it, the `_`, and
   * the part after it; without a `_` nothing follows.
   */
  lemma {:induction false} SplitAtUnderscore(s: string)
    ensures '_' in s ==> |UpToUnderscore(s)| < |s| && s[|UpToUnderscore(s)|] == '_'
                         && AfterUnderscore(s) == s[|UpToUnderscore(s)| + 1..]
    ensures '_' !in s ==> UpToUnderscore(s) == s && AfterUnderscore(s) == []
  {
    if s != [] && s[0] != '_' {
      SplitAtUnderscore(s[1..]);
      assert '_' in s ==> '_' in s[1..];
      assert '_' !in s ==> '_' !in s[1..];
    }
  }

  /** The first two `_`-separated fields joined by `_`; None where `[1]` would raise. */
  function BaseKey(col: string): (r: Option<string>)
    ensures r.Some? <==> '_' in col
  {
    if '_' in col then Some(UpToUnderscore(col) + "_" + UpToUnderscore(AfterUnderscore(col))) else None
  }

  lemma {:induction false} UpToUnderscoreOf(a: string, t: string)
    requires '_' !in a && (t == [] || t[0] == '_')
    ensures UpToUnderscore(a + t) == a
  {
    if a != [] {
      assert (a + t)[1..] == a[1..] + t;
      UpToUnderscoreOf(a[1..], t);
    }
  }

  lemma {:induction false} AfterUnderscoreOf(a: string, t: string)
    requires '_' !in a
    ensures AfterUnderscore(a + "_" + t) == t
  {
    if a != [] {
      assert (a + "_" + t)[1..] == a[1..] + "_" + t;
      AfterUnderscoreOf(a[1..], t);
    }
  }

  /** A column `a_b...` derived from the name `a_b` maps back to it. */
  lemma BaseKeyOfDerived(a: string, b: string, suffix: string)
    requires '_' !in a && '_' !in b && (suffix == [] || suffix[0] == '_')
    ensures BaseKey(a + "_" + b + suffix) == Some(a + "_" + b)
  {
    var col := a + "_" + b + suffix;
    assert col[|a|] == '_';
    assert col == a + ("_" + b + suffix);
    UpToUnderscoreOf(a, "_" + b + suffix);
    assert col == a + "_" + (b + suffix);
    AfterUnderscoreOf(a, b + suffix);
    UpToUnderscoreOf(b, suffix);
  }

  /** The pillar names split into their two fields. */
  const PILLAR_HEADS: seq<string> := ["tech", "social", "fund", "astro"]

  lemma PillarBaseKey(k: nat, suffix: string)
    requires k < |PILLARS| && (suffix == [] || suffix[0] == '_')
    ensures BaseKey(PILLARS[k] + suffix) == Some(PILLARS[k])
  {
    assert PILLARS[k] == PILLAR_HEADS[k] + "_" + "score";
    BaseKeyOfDerived(PILLAR_HEADS[k], "score", suffix);
  }

  // ---------------------------------------------------------------------
  // The live feature vector

  /**
   * The rule `_create_feature_vector` applies to one column: the exact key;
   * then, for a `price...` column when a price is given, the price for the
   * moving averages and lags and nothing for the rest; then, for a column
   * naming a pillar, the value of the pillar its first two fields name;
   * then the mean of the four pillars (50 for a missing one) for
   * `pillar_composite`. None leaves the zero in place. The `price` and
   * `volume` cases of the chain are reached only when the exact key is
   * absent and so never fire.
   */
  function Rule(f: map<string, real>, col: string): Option<real> {
    if col in f then Some(f[col])
    else if StartsWith(col, "price") && "price" in f then
      if col == "price" then Some(Get(f, "price", 0.0))
      else if StartsWith(col, "price_ma") || StartsWith(col, "price_lag") then Some(f["price"])
      else None
    else if exists k | 0 <= k < |PILLARS| :: Contains(col, PILLARS[k]) then
      match BaseKey(col)
      case None => None
      case Some(b) => if b in f then Some(f[b]) else None
    else if col == "volume" && "volume" in f then Some(Get(f, "volume", 0.0))
    else if col == "pillar_composite" then
      Some(Mean([Get(f, "tech_score", 50.0), Get(f, "social_score", 50.0),
                 Get(f, "fund_score", 50.0), Get(f, "astro_score", 50.0)]))
    else None
  }

  function ColumnValue(f: map<string, real>, col: string): real {
    Rule(f, col).GetOr(0.0)
  }

  function FeatureVector(f: map<string, real>, cols: seq<string>): (v: seq<real>)
    ensures |v| == |cols|
  {
    seq(|cols|, i requires 0 <= i < |cols| => ColumnValue(f, cols[i]))
  }

  /** Every moving average and lag of the price takes the live price. */
  lemma PriceDerivedTakesPrice(f: map<string, real>, cols: seq<string>, i: nat)
    requires i < |cols| && cols[i] !in f && "price" in f
    requires StartsWith(cols[i], "price_ma") || StartsWith(cols[i], "price_lag")
    ensures FeatureVector(f, cols)[i] == f["price"]
  {
    assert cols[i][..5] == cols[i][..8][..5];
  }

  /** The other price features (returns, volatility, ratios) stay 0 whenever a price is given. */
  lemma OtherPriceFeaturesStayZero(f: map<string, real>, cols: seq<string>, i: nat)
    requires i < |cols| && cols[i] !in f && "price" in f && StartsWith(cols[i], "price")
    requires !StartsWith(cols[i], "price_ma") && !StartsWith(cols[i], "price_lag")
    ensures cols[i] != "price" ==> FeatureVector(f, cols)[i] == 0.0
  {
  }

  /**
   * A derived pillar column such as `tech_score_lag_3` takes the live
   * pillar score, or stays 0 without it.
   */
  lemma PillarDerivedTakesPillar(f: map<string, real>, cols: seq<string>, i: nat, k: nat, suffix: string)
    requires k < |PILLARS| && (suffix == [] || suffix[0] == '_')
    requires i < |cols| && cols[i] == PILLARS[k] + suffix && cols[i] !in f
    ensures FeatureVector(f, cols)[i] == Get(f, PILLARS[k], 0.0)
  {
    var col := cols[i];
    var p := PILLARS[k];
    assert p[0] != 'p';
    assert col[..|p|] == p;
    assert !StartsWith(col, "price") by {
      assert col[0] == p[0];
    }
    PrefixIsContained(col, p);
    PillarBaseKey(k, suffix);
    assert Rule(f, col) == if p in f then Some(f[p]) else None;
  }

  /**
   * A column that is not supplied, names no pillar, does not start with
   * `price` and is neither `volume` nor `pillar_composite` matches no rule
   * and stays 0.
   */
  lemma UnmatchedStaysZero(f: map<string, real>, cols: seq<string>, i: nat, c: char)
    requires i < |cols| && cols[i] !in f
    requires c in "score" && c !in cols[i]
    requires !StartsWith(cols[i], "price") && cols[i] != "volume" && cols[i] != "pillar_composite"
    ensures FeatureVector(f, cols)[i] == 0.0
  {
    EnsembleLite.NoPillarWithout(cols[i], c);
    assert Rule(f, cols[i]).None?;
  }

  /** The technical indicator and volume columns training engineers. */
  const INDICATOR_COLUMNS: seq<string> :=
    ["rsi", "macd", "macd_signal", "bb_upper", "bb_lower", "bb_position", "volume_ma", "volume_ratio"]

  /** No rule rebuilds the technical indicators or the volume features: unless supplied they stay 0. */
  lemma IndicatorsStayZero(f: map<string, real>, cols: seq<string>, i: nat)
    requires i < |cols| && cols[i] !in f && cols[i] in INDICATOR_COLUMNS
    ensures FeatureVector(f, cols)[i] == 0.0
  {
    var col := cols[i];
    assert !StartsWith(col, "price") by {
      assert col[0] != 'p';
    }
    if col == "rsi" || col == "bb_position" {
      UnmatchedStaysZero(f, cols, i, 'e');
    } else if col == "macd_signal" {
      UnmatchedStaysZero(f, cols, i, 'r');
    } else {
      UnmatchedStaysZero(f, cols, i, 's');
    }
  }

  lemma CompositeNamesNoPillar()
    ensures forall k :: 0 <= k < |PILLARS| ==> !Contains("pillar_composite", PILLARS[k])
  {
    MissingChar("pillar_composite", "tech_score", 'h');
    PairNowhere("pillar_composite", "social_score", 0);
    MissingChar("pillar_composite", "fund_score", 'u');
    PairNowhere("pillar_composite", "astro_score", 0);
  }

  /**
   * `pillar_variance` and `tech_social_interaction`, which training
   * engineers, have no rule of their own: unless supplied they stay 0.
   */
  lemma EngineeredCompositesStayZero(f: map<string, real>, cols: seq<string>, i: nat)
    requires i < |cols| && cols[i] !in f
    requires cols[i] == "pillar_variance" || cols[i] == "tech_social_interaction"
    ensures FeatureVector(f, cols)[i] == 0.0
  {
    var col := cols[i];
    if col == "pillar_variance" {
      EnsembleLite.NoPillarWithout(col, 's');
      assert !StartsWith(col, "price") by {
        assert col[1] != "price"[1];
      }
    } else {
      PairNowhere(col, "tech_score", 5);
      PairNowhere(col, "social_score", 7);
      PairNowhere(col, "fund_score", 5);
      PairNowhere(col, "astro_score", 6);
      assert !StartsWith(col, "price") by {
        assert col[0] != "price"[0];
      }
    }
    assert !(exists k | 0 <= k < |PILLARS| :: Contains(col, PILLARS[k]));
    assert Rule(f, col).None?;
  }

  /** `pillar_composite` is the mean of the pillars given, 50 standing in for each missing one. */
  lemma CompositeDefault(f: map<string, real>, cols: seq<string>, i: nat)
    requires i < |cols| && cols[i] == "pillar_composite" && cols[i] !in f
    ensures FeatureVector(f, cols)[i]
            == (Get(f, "tech_score", 50.0) + Get(f, "social_score", 50.0)
                + Get(f, "fund_score", 50.0) + Get(f, "astro_score", 50.0)) / 4.0
  {
    CompositeNamesNoPillar();
    assert !StartsWith("pillar_composite", "price") by {
      assert "pillar_composite"[1] != "price"[1];
    }
    Mean4(Get(f, "tech_score", 50.0), Get(f, "social_score", 50.0),
          Get(f, "fund_score", 50.0), Get(f, "astro_score", 50.0));
  }

  // ---------------------------------------------------------------------
  // The LSTM input

  /**
   * The last 24 prices of a long enough history, or else 24 copies of the
   * live price (150.0 when none is given), before standardisation.
   */
  function LstmInput(f: map<string, real>, history: Option<seq<real>>): (w: seq<real>)
    ensures |w| == SEQUENCE_LENGTH
  {
    if history.Some? && |history.value| >= SEQUENCE_LENGTH then
      history.value[|history.value| - SEQUENCE_LENGTH..]
    else
      seq(SEQUENCE_LENGTH, _ => Get(f, "price", 150.0))
  }

  lemma {:induction false} SumConstant(n: nat, c: real)
    ensures Sum(seq(n, _ => c)) == (n as real) * c
  {
    if n > 0 {
      assert seq(n, _ => c)[..n - 1] == seq(n - 1, _ => c);
      SumConstant(n - 1, c);
    }
  }

  /**
   * Without a usable history every entry of the window equals its mean, so
   * standardising it gives the zero vector whatever the live price is.
   */
  lemma FallbackInputCentresToZero(f: map<string, real>, history: Option<seq<real>>)
    requires history.None? || |history.value| < SEQUENCE_LENGTH
    ensures forall i :: 0 <= i < SEQUENCE_LENGTH ==> LstmInput(f, history)[i] - Mean(LstmInput(f, history)) == 0.0
  {
    SumConstant(SEQUENCE_LENGTH, Get(f, "price", 150.0));
  }

  // ---------------------------------------------------------------------
  // Scoring

  /**
   * The meta-learner's winning class, decoded: +p for BULLISH, -p for
   * BEARISH, 0.0 for NEUTRAL, where p is its probability; an empty vector
   * (argmax raises) or an index the encoder does not know gives 0.0.
   */
  function SignedConfidence(classes: seq<Direction>, p: seq<real>): real {
    if |p| == 0 then 0.0
    else
      var i := ArgMax(p);
      if i >= |classes| then 0.0
      else match classes[i]
        case Bullish => p[i]
        case Bearish => -p[i]
        case Neutral => 0.0
  }

  lemma SignedConfidenceCases(classes: seq<Direction>, p: seq<real>)
    requires |p| > 0 && ArgMax(p) < |classes|
    ensures classes[ArgMax(p)] == Bullish ==> SignedConfidence(classes, p) == MaxOf(p)
    ensures classes[ArgMax(p)] == Bearish ==> SignedConfidence(classes, p) == -MaxOf(p)
    ensures classes[ArgMax(p)] == Neutral ==> SignedConfidence(classes, p) == 0.0
  {
    var m := MaxOf(p);
    var j :| 0 <= j < |p| && p[j] == m;
    assert p[ArgMax(p)] == m;
  }

  /** With all three classes, a strictly most probable BULLISH gives its probability, and so on. */
  lemma SignedConfidenceThreeClasses(p: seq<real>)
    requires |p| == 3
    ensures p[1] > p[0] && p[1] >= p[2] ==> SignedConfidence([Bearish, Bullish, Neutral], p) == p[1]
    ensures p[0] >= p[1] && p[0] >= p[2] ==> SignedConfidence([Bearish, Bullish, Neutral], p) == -p[0]
    ensures p[2] > p[0] && p[2] > p[1] ==> SignedConfidence([Bearish, Bullish, Neutral], p) == 0.0
  {
  }

  lemma SignedConfidenceBounded(classes: seq<Direction>, p: seq<real>)
    requires IsProbVector(p)
    ensures -1.0 <= SignedConfidence(classes, p) <= 1.0
  {
  }

  datatype Learners = Learners(
    scale: seq<real> -> Option<seq<real>>,
    xgb: seq<real> -> Option<seq<real>>,
    lstm: Option<seq<real> -> Option<seq<real>>>,
    meta: seq<real> -> Option<seq<real>>,
    importances: seq<real>)

  function Unfitted(): Learners {
    Learners(_ => None, _ => None, None, _ => None, [])
  }

  /** A classifier that is constructed but not fitted: predicting with it raises. */
  function Unusable(): seq<real> -> Option<seq<real>> {
    _ => None
  }

  /**
   * What the fits of `train_ensemble` yield: the refitted scaler, the
   * classifier and its importances, the network, the meta-learner (None
   * where that fit raises), and whether Keras is available.
   */
  datatype Fits = Fits(
    scale: seq<real> -> Option<seq<real>>,
    xgb: Option<(seq<real> -> Option<seq<real>>, seq<real>)>,
    keras: bool,
    lstm: Option<seq<real> -> Option<seq<real>>>,
    meta: Option<seq<real> -> Option<seq<real>>>)

  /**
   * The learners after `train_ensemble` on prepared data, and whether every
   * fit succeeded. The scaler is refitted first; the classifier and the
   * meta-learner are each replaced by a new, unfitted one before their fit;
   * the network is stored only once fitted, and its fit raises when its
   * inputs and targets are not `paired`. Without Keras no network is fitted
   * and the stored one is kept.
   */
  function AfterTraining(l: Learners, f: Fits, paired: bool): (r: (Learners, bool))
  {
    var l1 := l.(scale := f.scale, xgb := Unusable());
    if f.xgb.None? then (l1, false)
    else
      var l2 := l1.(xgb := f.xgb.value.0, importances := f.xgb.value.1);
      if f.keras && (!paired || f.lstm.None?) then (l2, false)
      else
        var l3 := (if f.keras then l2.(lstm := f.lstm) else l2).(meta := Unusable());
        if f.meta.None? then (l3, false) else (l3.(meta := f.meta.value), true)
  }

  /**
   * Training succeeds exactly when all three fits do and, with Keras, the
   * network's inputs are paired with its targets; the scaler is replaced
   * whatever happens, and a failed classifier or meta-learner fit leaves an
   * unusable one behind, with which every score is 0.0.
   */
  lemma AfterTrainingOutcome(l: Learners, f: Fits, paired: bool, classes: seq<Direction>,
                             v: seq<real>, window: seq<real>, noise: seq<real>)
    ensures var (l', ok) := AfterTraining(l, f, paired);
            (ok <==> f.xgb.Some? && f.meta.Some? && (f.keras ==> paired && f.lstm.Some?))
            && l'.scale == f.scale
            && (f.xgb.None? || (f.xgb.Some? && (!f.keras || (paired && f.lstm.Some?)) && f.meta.None?) ==>
                  Score(l', classes, v, window, noise) == 0.0)
            && (ok ==> l' == Learners(f.scale, f.xgb.value.0, if f.keras then f.lstm else l.lstm,
                                      f.meta.value, f.xgb.value.1))
            && (f.keras && f.xgb.Some? && !(paired && f.lstm.Some?) ==> l'.lstm == l.lstm && l'.meta == l.meta)
  {
  }

  /**
   * The guarded part of `predict_ensemble`. Without a network the random
   * normalised draw `noise` stands in for its probabilities; any failure
   * yields 0.0.
   */
  function Score(l: Learners, classes: seq<Direction>, v: seq<real>, window: seq<real>, noise: seq<real>): real {
    match l.scale(v)
    case None => 0.0
    case Some(x) =>
      match l.xgb(x)
      case None => 0.0
      case Some(a) =>
        var b := match l.lstm case Some(net) => net(window) case None => Some(noise);
        match b
        case None => 0.0
        case Some(b) =>
          match l.meta(a + b)
          case None => 0.0
          case Some(p) => SignedConfidence(classes, p)
  }

  lemma ScoreBounded(l: Learners, classes: seq<Direction>, v: seq<real>, window: seq<real>, noise: seq<real>)
    requires forall u :: l.meta(u).Some? ==> IsProbVector(l.meta(u).value)
    ensures -1.0 <= Score(l, classes, v, window, noise) <= 1.0
  {
    match l.scale(v)
    case None =>
    case Some(x) =>
      match l.xgb(x)
      case None =>
      case Some(a) =>
        var b := match l.lstm case Some(net) => net(window) case None => Some(noise);
        if b.Some? && l.meta(a + b.value).Some? {
          SignedConfidenceBounded(classes, l.meta(a + b.value).value);
        }
  }

  /** With Keras, training as written can only succeed on frames of 116 to 120 rows. */
  lemma KerasTrainingNeedsNear120(l: Learners, data: Frame, fits: Fits)
    requires |data.labels| == |data.prices| >= MIN_ROWS && fits.keras
    ensures AfterTraining(l, fits, Paired(PrepareAsWritten(data))).1 ==> 116 <= |data.prices| <= 120
  {
    PrepareAsWrittenPaired(data);
  }

  datatype TrainReport = TrainReport(
    featureImportance: seq<(string, real)>,
    featureCount: nat,
    trainingSamples: nat,
    testSamples: nat)

  class EnsembleModel {
    var isTrained: bool
    var featureColumns: seq<string>
    var classes: seq<Direction>
    var learners: Learners

    constructor ()
      ensures !isTrained && featureColumns == [] && classes == [] && learners == Unfitted()
    {
      isTrained := false;
      featureColumns := [];
      classes := [];
      learners := Unfitted();
    }

    /**
     * Raises below 50 rows, before anything is recorded; otherwise fixes the
     * schema as every column but the target and metadata ones, fits the
     * label encoder and the scaler, and splits as written.
     */
    method PrepareTrainingData(data: Frame, scale: seq<real> -> Option<seq<real>>) returns (r: Result<Prepared>)
      requires |data.labels| == |data.prices|
      modifies this`featureColumns, this`classes, this`learners
      ensures |data.prices| < MIN_ROWS ==>
                r.Err? && featureColumns == old(featureColumns) && classes == old(classes)
                && learners == old(learners)
      ensures |data.prices| >= MIN_ROWS ==>
                r == Ok(PrepareAsWritten(data)) && featureColumns == Without(data.columns, EXCLUDED)
                && classes == EncoderClasses(data.labels) && learners == old(learners).(scale := scale)
    {
      if |data.prices| < MIN_ROWS {
        return Err("Insufficient data for training");
      }
      featureColumns := Without(data.columns, EXCLUDED);
      classes := EncoderClasses(data.labels);
      learners := learners.(scale := scale);
      r := Ok(PrepareAsWritten(data));
    }

    /** Collects the windows one row at a time. */
    method PrepareLstmSequences(prices: seq<real>) returns (w: seq<seq<real>>)
      ensures w == LstmWindows(prices)
    {
      var n := |prices|;
      w := [];
      var i := SEQUENCE_LENGTH;
      while i < n
        invariant SEQUENCE_LENGTH <= i && (n > SEQUENCE_LENGTH ==> i <= n) && (n <= SEQUENCE_LENGTH ==> i == SEQUENCE_LENGTH)
        invariant |w| == i - SEQUENCE_LENGTH
        invariant forall j :: 0 <= j < |w| ==> j + SEQUENCE_LENGTH <= n && w[j] == prices[j..j + SEQUENCE_LENGTH]
      {
        w := w + [prices[i - SEQUENCE_LENGTH..i]];
        i := i + 1;
      }
      if |w| == 0 {
        w := [prices[n - Min(n, SEQUENCE_LENGTH)..]];
      } else {
        LstmWindowsShape(prices);
        assert forall j :: 0 <= j < |w| ==> w[j] == LstmWindows(prices)[j];
      }
    }

    /** Fills a zero vector, one schema column at a time. */
    method CreateFeatureVector(features: map<string, real>) returns (v: seq<real>)
      ensures v == FeatureVector(features, featureColumns)
    {
      var n := |featureColumns|;
      var a := new real[n](_ => 0.0);
      var i := 0;
      while i < n
        invariant 0 <= i <= n && a.Length == n
        invariant forall k :: 0 <= k < i ==> a[k] == ColumnValue(features, featureColumns[k])
        invariant forall k :: i <= k < n ==> a[k] == 0.0
      {
        match Rule(features, featureColumns[i]) {
          case Some(x) => a[i] := x;
          case None =>
        }
        i := i + 1;
      }
      v := a[..];
    }

    /**
     * Raises when untrained; otherwise the guarded score of the feature
     * vector, with the price window of `history` (a `price_history` entry).
     */
    method PredictEnsemble(features: map<string, real>, history: Option<seq<real>>, noise: seq<real>)
      returns (r: Result<real>)
      ensures r.Err? <==> !isTrained
      ensures r.Ok? ==> r.value == Score(learners, classes, FeatureVector(features, featureColumns),
                                         LstmInput(features, history), noise)
    {
      if !isTrained {
        return Err("Ensemble model not trained. Call train_ensemble() first.");
      }
      var v := CreateFeatureVector(features);
      r := Ok(Score(learners, classes, v, LstmInput(features, history), noise));
    }

    /**
     * Prepares `data` and runs the fits in order, each of which may raise
     * and end the training; the schema, the encoder and whatever learners
     * were replaced before the raise are kept. With Keras the network fit
     * raises unless the windows are paired with the labels, which as written
     * holds only for 116 to 120 rows.
     */
    method TrainEnsemble(data: Frame, fits: Fits) returns (r: Result<TrainReport>)
      requires |data.labels| == |data.prices|
      modifies this
      ensures |data.prices| < MIN_ROWS ==>
                r.Err? && isTrained == old(isTrained) && featureColumns == old(featureColumns)
                && classes == old(classes) && learners == old(learners)
      ensures |data.prices| >= MIN_ROWS ==>
                var (l, ok) := AfterTraining(old(learners), fits, Paired(PrepareAsWritten(data)));
                featureColumns == Without(data.columns, EXCLUDED) && classes == EncoderClasses(data.labels)
                && learners == l && (r.Ok? <==> ok)
                && (r.Err? ==> isTrained == old(isTrained))
                && (r.Ok? ==>
                      isTrained
                      && r.value == TrainReport(SortDesc(Zip(featureColumns, fits.xgb.value.1)),
                                                |featureColumns|, SplitIndex(|data.prices|),
                                                |data.prices| - SplitIndex(|data.prices|)))
    {
      var p := PrepareTrainingData(data, fits.scale);
      if p.Err? {
        return Err(p.msg);
      }
      learners := learners.(xgb := Unusable());
      if fits.xgb.None? {
        return Err("XGBoost fit failed");
      }
      learners := learners.(xgb := fits.xgb.value.0, importances := fits.xgb.value.1);
      if fits.keras {
        if !Paired(p.value) || fits.lstm.None? {
          return Err("LSTM fit failed");
        }
        learners := learners.(lstm := fits.lstm);
      }
      learners := learners.(meta := Unusable());
      if fits.meta.None? {
        return Err("meta-learner fit failed");
      }
      learners := learners.(meta := fits.meta.value);
      isTrained := true;
      r := Ok(TrainReport(SortDesc(Zip(featureColumns, fits.xgb.value.1)), |featureColumns|,
                          |p.value.trainLabels|, |p.value.testLabels|));
    }

    /** The top `topK` and all (column, importance) pairs, by descending importance. */
    method GetFeatureImportance(topK: nat) returns (r: Result<(seq<(string, real)>, seq<(string, real)>)>)
      ensures r.Err? <==> !isTrained
      ensures r.Ok? ==>
        var pairs := Zip(featureColumns, learners.importances);
        r.value.0 == TopK(pairs, topK) && r.value.1 == SortDesc(pairs)
    {
      if !isTrained {
        return Err("Model not trained");
      }
      var pairs := Zip(featureColumns, learners.importances);
      r := Ok((TopK(pairs, topK), SortDesc(pairs)));
    }
  }
}
