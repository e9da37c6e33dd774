# Crypto prediction engines: a verified model of their rule code

This project models, in Dafny, the deterministic rule code around the
prediction engines of a Solana price-prediction service. The learners
(XGBoost, random forests, neural networks, logistic meta-learners), the
scalers, feature selectors and SHAP explainers are opaque: the model takes
them as function-valued parameters or fields that return a value or fail
(`None`), and it takes every random draw as an input. What remains is the
code that decides what the learners see and what the callers get back. That
covers:

- the feature schemas and how a sparse feature dictionary becomes a dense
  vector at prediction time;
- labelling of the next price move and the chronological or shuffled train,
  validation and test splits;
- windowing of price series for the sequence learners;
- the mapping of class probabilities to a signed prediction, and the
  trained/untrained guards;
- the nearest-timestamp join of the data service;
- pillar grouping of importances in the explainability script;
- the search spaces, parameter splitting and proxy scores of the
  hyperparameter tuner;
- the composite metric of the tuning script;
- the missing-column defaults of the regression trainer.

One module per source file, plus `Common` for the shared vocabulary:

| module | file | source |
|---|---|---|
| `Common` | common.dfy | shared results, string tests, sums and means, the 80/20 split, argmax, lag arrays, a stable descending sort |
| `EnsembleLite` | ensemble_lite.dfy | services/ensemble_lite.py |
| `Ensemble` | ensemble.dfy | services/ensemble.py |
| `MlDemo` | ml_demo.dfy | services/ml_demo.py |
| `AdvancedMl` | advanced_ml.dfy | services/advancedMLService.py |
| `DataService` | data_service.dfy | services/dataService.py |
| `Explain` | explain.dfy | scripts/explain.py |
| `OptunaTuner` | optuna_tuner.dfy | services/optunaTuner.py |
| `Tune` | tune.dfy | scripts/tune.py |
| `TrainModel` | train_model.dfy | server/ml/train_model.py |

Where the source changes state, the model does too. Each engine is a class
whose fields are the engine's attributes (`is_trained`, `feature_columns`,
the fitted models, the tuning status), and its methods state the whole new
state. Loops that fill arrays or build lists are methods with loops, proved
equal to a specification function. The properties are proved about those
functions.

Python semantics the model writes out:

- `int(0.8 * n)` is the floor of `4n/5`.
- `train_test_split` rounds the test part up.
- `pct_change` divides by the previous price, and a zero price gives an
  infinity or NaN, modelled as a `Change` datatype.
- `sorted(..., reverse=True)` is stable.
- `int()` of a float truncates toward zero.
- `s.replace(p, '')` removes every non-overlapping occurrence.
- pandas `Series.get` on a row of a frame gives NaN, not the default, when
  some other row has the column.

## Model

| member | source | states |
|---|---|---|
| Common.AddColumn | services/ensemble_lite.py:93-102 | assigning a column appends it only when the frame lacks it, and keeps the existing columns as a prefix |
| Common.AddColumnsMembers | services/advancedMLService.py:58-129 | after assigning several columns the frame holds exactly its old columns and the assigned ones |
| Common.AddIfMembers | services/advancedMLService.py:58-129 | a guarded block adds its columns exactly when its guard holds |
| Common.Without | services/ensemble.py:271-272 | a column survives the exclusion filter exactly when it is in the input and not excluded |
| Common.ChangePctRoundTrip | services/ensemble_lite.py:130-131 | for a non-zero price the relative change is finite and `price * (1 + change)` gives the future price back |
| Common.ChangePctSign | services/ensemble_lite.py:130-131 | for a positive price the change is positive, negative or zero exactly when the future price is above, below or equal to it |
| Common.Clamp | services/optunaTuner.py:265 | `max(lo, min(hi, x))` lies in `[lo, hi]` and leaves values already inside unchanged |
| Common.SplitIndex | services/ensemble_lite.py:179 | `int(n * 0.8)` is the largest `k` with `5k <= 4n` |
| Common.ChronoSplit | services/ensemble_lite.py:179-181 | the train part is the prefix of `int(0.8 n)` rows and the test part the rest, together the rows in order |
| Common.HeldOutFifth | scripts/tune.py:228-230 | `test_size=0.2` holds out the ceiling of `n/5` rows |
| Common.HeldOutQuarter | scripts/tune.py:232-234 | `test_size=0.25` holds out the ceiling of `n/4` rows |
| Common.MaxOf | services/ensemble_lite.py:290 | `np.max` is an upper bound of the vector that it attains |
| Common.ArgMax | services/ensemble.py:537 | `np.argmax` is the first index of a maximum entry |
| Common.LagOneAt | services/ml_demo.py:91 | `concatenate([[s[0]], s[:-1]])` keeps the length and reads the previous entry, the first one repeated |
| Common.LagThreeAt | services/ml_demo.py:92 | `concatenate([s[:3], s[:-3]])` keeps the length and reads three entries back, the first three repeated |
| Common.Mean4 | services/ensemble_lite.py:321-324 | the mean of four values is their sum over 4 |
| Common.MeanNonNegative | scripts/explain.py:331 | the mean of non-negative values is non-negative |
| Common.SortDescCorrect | services/ensemble_lite.py:248 | `sorted(..., key=score, reverse=True)` is sorted descending, a permutation of its input, and keeps equal scores in input order |
| Common.TopKCorrect | services/ensemble_lite.py:344-345 | the first `k` of the sort: `min(k, n)` entries, descending, drawn from the input, none lower than an entry left out |
| Common.LeftOutScoresLower | scripts/explain.py:348-353 | an entry missing from the first `m` of a descending list scores no higher than any of them |
| Common.Zip | services/ensemble_lite.py:247 | `zip` pairs entries index by index, up to the shorter list |
| EnsembleLite.TargetClass | services/ensemble_lite.py:133-137 | BULLISH iff the change exceeds 0.005 (or is +inf), BEARISH iff it is below -0.005 (or -inf), NEUTRAL otherwise, NaN included |
| EnsembleLite.Targets | services/ensemble_lite.py:129-137 | one label per row, each a class; the last row has no future price, its change fills to 0, so it is NEUTRAL |
| EnsembleLite.TargetsAt | services/ensemble_lite.py:129-137 | every row but the last is labelled by its change to the next row's price |
| EnsembleLite.BoundaryIsNeutral | services/ensemble_lite.py:134-137 | moves of exactly +0.5% and -0.5% are NEUTRAL, a larger one is not |
| EnsembleLite.PillarColumns | services/ensemble_lite.py:111-116 | the pillar block only appends columns to the frame |
| EnsembleLite.EngineeredColumns | services/ensemble_lite.py:86-140 | feature engineering succeeds exactly when the frame has `price` and `tech_score` (otherwise the lookup raises `KeyError`) |
| EnsembleLite.EngineeredKeepsInputs | services/ensemble_lite.py:86-131 | the input columns come first in the engineered frame, in their own order |
| EnsembleLite.Schema | services/ensemble_lite.py:168-170 | the schema exists exactly when engineering succeeds, and never holds `target`, `price_change_pct` or the dropped `future_price` |
| EnsembleLite.SchemaKeepsInputs | services/ensemble_lite.py:168-170 | every input column that is not a label enters the schema |
| EnsembleLite.DirectionalScoreBounded | services/ensemble_lite.py:290 | `(p[2] - p[0]) * max(p)` lies in `[-1, 1]` for every probability vector |
| EnsembleLite.DirectionalScoreSign | services/ensemble_lite.py:290 | the score is 0 when P(bullish) equals P(bearish), and otherwise has the sign of their difference |
| EnsembleLite.FeatureVector | services/ensemble_lite.py:303-330 | the dense vector has one entry per schema column |
| EnsembleLite.ExactKeyWins | services/ensemble_lite.py:307-308 | a column supplied under its own name takes that value, before any other rule |
| EnsembleLite.PillarColumnReadsPillar | services/ensemble_lite.py:313-320 | an unsupplied column naming a pillar score takes that pillar's value when it is supplied, unless a pillar checked before it is both named and supplied |
| EnsembleLite.MissingPillarStaysZero | services/ensemble_lite.py:306-330 | any column that is not supplied, none of whose contained pillars is supplied, and that is neither `pillar_mean` nor `tech_social_product`, stays 0 |
| EnsembleLite.CompositeDefaults | services/ensemble_lite.py:321-328 | with nothing supplied, `pillar_mean` is 50 and `tech_social_product` is 25 |
| EnsembleLite.PillarMeanValue | services/ensemble_lite.py:321-324 | `pillar_mean` is the mean of the four pillar scores, each defaulting to 50 |
| EnsembleLite.TechSocialProductValue | services/ensemble_lite.py:325-328 | an unsupplied `tech_social_product` is the technical times the social pillar over 100, each defaulting to 50, whatever else is supplied |
| EnsembleLite.PriceLagNotReconstructed | services/ensemble_lite.py:306-330 | every engineered price, volume and lag column that is not supplied stays 0, whatever else is supplied, since no rule rebuilds it |
| EnsembleLite.ScoreBounded | services/ensemble_lite.py:272-297 | whatever the learners return or raise (a raise scores 0.0), the prediction lies in `[-1, 1]` when the meta-learner returns probabilities |
| EnsembleLite.TrainingFrame | services/ensemble_lite.py:189-195 | a missing frame, or one of fewer than 50 rows, is replaced by the 300-row synthetic frame of price, volume and the four pillar scores; the frame used always has at least 50 rows |
| EnsembleLite.SyntheticFrameHasSchema | services/ensemble_lite.py:74-81 | the synthetic frame has a schema |
| EnsembleLite.AfterFitsOutcome | services/ensemble_lite.py:199-236 | the fits succeed exactly when all three do, and then the learners are exactly the fitted ones with the scaler kept; after any failed fit each learner replaced so far is unusable and every prediction is 0.0 |
| EnsembleLite.EnsembleLiteModel.constructor | services/ensemble_lite.py:30-37 | a new engine is untrained with an empty schema |
| EnsembleLite.EnsembleLiteModel.CreateFeatureVector | services/ensemble_lite.py:299-330 | the loop over the zero vector produces exactly the specified dense vector |
| EnsembleLite.EnsembleLiteModel.PredictEnsemble | services/ensemble_lite.py:265-297 | raises exactly when untrained; otherwise returns the guarded score of the feature vector |
| EnsembleLite.EnsembleLiteModel.PrepareTrainingData | services/ensemble_lite.py:161-183 | records the schema and the refitted scaler when engineering succeeds, and leaves both when it raises |
| EnsembleLite.EnsembleLiteModel.TrainEnsemble | services/ensemble_lite.py:186-263 | trains on the given or the synthetic frame, and the synthetic one always has a schema; without a schema nothing changes; otherwise the learners are those the fits leave, and the engine is trained exactly when every fit succeeds, then reporting the sorted importances, the feature count and `int(0.8 n)` training rows |
| EnsembleLite.EnsembleLiteModel.TrainOn | services/ensemble_lite.py:196-263 | the schema and scaler are fixed before the fits; a failed fit leaves the partly replaced learners and the trained flag as it was |
| EnsembleLite.EnsembleLiteModel.FitLearners | services/ensemble_lite.py:199-263 | each learner is replaced before its fit, so the learners are those `AfterFits` leaves; the engine is marked trained exactly when all fits succeed, and then reports importances over the frozen schema |
| EnsembleLite.EnsembleLiteModel.GetFeatureImportance | services/ensemble_lite.py:332-347 | an error exactly when untrained; otherwise the top `k` and all (column, importance) pairs, sorted descending |
| Ensemble.RowLabel | services/ensemble.py:220-229 | BULLISH iff the change exceeds 0.01, BEARISH iff it is below -0.01, NEUTRAL in between; a NaN change has no label and its row is dropped |
| Ensemble.LabelsShape | services/ensemble.py:220-229 | one label per row; the last row has no next price and is dropped; every other row with a non-zero price is labelled by its change |
| Ensemble.WiderBandThanLite | services/ensemble.py:224-226 | the ±1% band is stricter than the ±0.5% one: a move of 0.8% is NEUTRAL here and BULLISH in the lite engine |
| Ensemble.EncoderClasses | services/ensemble.py:279 | the label encoder's classes are the distinct labels in alphabetical order |
| Ensemble.EncoderClassesAllThree | services/ensemble.py:279 | with all three labels present, the classes are BEARISH, BULLISH, NEUTRAL |
| Ensemble.LstmWindowsShape | services/ensemble.py:301-312 | `n - 24` windows `prices[i-24:i]` when there are more than 24 prices, otherwise one window of them all |
| Ensemble.LstmSplitAsWritten | services/ensemble.py:294-295 | the window split as written: when there are more windows than the row split index, the two parts together are all the windows |
| Ensemble.LstmSplitMatchesLabelsOnlyNear120 | services/ensemble.py:288-295 | the written window split has as many windows as labels on both sides only for frames of 116 to 120 rows |
| Ensemble.LstmSplitCounterexamples | services/ensemble.py:288-295 | 50 rows give 26 training windows for 40 labels; 200 rows give 16 test windows for 40 labels |
| Ensemble.AlignedLstmSplit | services/ensemble.py:288-295 | the split the network needs: each window paired with the label of its last row, split 80/20 in time order |
| Ensemble.PrepareCorrect | services/ensemble.py:260-299 | with the corrected split: the labels split 80/20 in order; there are as many LSTM windows as labels on each side; each training window is the 24 prices before its label's row |
| Ensemble.PreparePaired | services/ensemble.py:260-299 | the corrected split always gives the network as many inputs as targets |
| Ensemble.PrepareAsWritten | services/ensemble.py:286-297 | as written: the labels split 80/20 in order, and the network is fitted against those row labels |
| Ensemble.PrepareAsWrittenPaired | services/ensemble.py:292-295 | as written, the network's inputs and targets agree in number on both sides exactly for frames of 116 to 120 rows |
| Ensemble.AfterTrainingOutcome | services/ensemble.py:326-446 | training succeeds exactly when the classifier, meta-learner and (with Keras, on paired data) network fits all succeed; the scaler is always refitted; a failed classifier or meta-learner fit leaves an unusable one that scores 0.0; a failed network fit keeps the old network and meta-learner; on success the learners are exactly the fitted ones |
| Ensemble.KerasTrainingNeedsNear120 | services/ensemble.py:292-295 | with Keras, training as written can only succeed on 116 to 120 rows |
| Ensemble.UpToUnderscore | services/ensemble.py:577 | `col.split('_')[0]` is the prefix before the first `_` |
| Ensemble.SplitAtUnderscore | services/ensemble.py:577 | `split('_')` cuts at the first `_`: `[0]` is the text before it and the rest starts after it; a name without `_` has nothing after it |
| Ensemble.BaseKey | services/ensemble.py:577 | the base key exists exactly when the name has a `_` (otherwise `[1]` raises) |
| Ensemble.BaseKeyOfDerived | services/ensemble.py:575-580 | a column `a_b...` derived from `a_b` maps back to `a_b` |
| Ensemble.PillarBaseKey | services/ensemble.py:575-580 | every column derived from a pillar score name maps back to that pillar |
| Ensemble.FeatureVector | services/ensemble.py:558-588 | the dense vector has one entry per schema column |
| Ensemble.PriceDerivedTakesPrice | services/ensemble.py:569-574 | with the price supplied, `price`, `price_ma*` and `price_lag*` take the price |
| Ensemble.OtherPriceFeaturesStayZero | services/ensemble.py:569-574 | the other unsupplied `price*` columns stay 0 even when the price is supplied |
| Ensemble.PillarDerivedTakesPillar | services/ensemble.py:575-580 | a pillar-derived column takes its base pillar's value, or stays 0 without it |
| Ensemble.CompositeNamesNoPillar | services/ensemble.py:575-586 | `pillar_composite` contains no pillar name, so the composite branch is reached |
| Ensemble.CompositeDefault | services/ensemble.py:582-586 | `pillar_composite` is the mean of the four pillar scores, 50 standing in for a missing one |
| Ensemble.EngineeredCompositesStayZero | services/ensemble.py:565-586 | `pillar_variance` and `tech_social_interaction`, which training engineers, stay 0 unless supplied, whatever else is supplied |
| Ensemble.UnmatchedStaysZero | services/ensemble.py:565-588 | an unsupplied column that names no pillar, does not start with `price` and is neither `volume` nor `pillar_composite` stays 0, whatever else is supplied |
| Ensemble.IndicatorsStayZero | services/ensemble.py:565-588 | the engineered RSI, MACD, Bollinger and volume columns stay 0 unless supplied verbatim |
| Ensemble.LstmInput | services/ensemble.py:513-521 | the LSTM input is always exactly 24 prices long |
| Ensemble.FallbackInputCentresToZero | services/ensemble.py:518-521 | without a history of 24 prices the fallback window is constant, so it centres to zeros |
| Ensemble.SignedConfidenceCases | services/ensemble.py:536-549 | +confidence for a most probable BULLISH, -confidence for BEARISH, 0 for NEUTRAL |
| Ensemble.SignedConfidenceThreeClasses | services/ensemble.py:536-549 | over the encoder's three classes: which probability wins decides the sign, ties going to the first class |
| Ensemble.SignedConfidenceBounded | services/ensemble.py:536-549 | the signed confidence lies in `[-1, 1]` |
| Ensemble.ScoreBounded | services/ensemble.py:502-556 | whatever the learners return or raise (a raise scores 0.0), the prediction lies in `[-1, 1]` when the meta-learner returns probabilities |
| Ensemble.EnsembleModel.constructor | services/ensemble.py:53-62 | a new engine is untrained with no schema and no classes |
| Ensemble.EnsembleModel.PrepareTrainingData | services/ensemble.py:260-299 | raises below 50 rows and records nothing; otherwise records the schema without the target and metadata columns, the encoder's classes and the refitted scaler, and returns the split as written |
| Ensemble.EnsembleModel.PrepareLstmSequences | services/ensemble.py:301-312 | the window-collecting loop produces exactly the specified windows |
| Ensemble.EnsembleModel.CreateFeatureVector | services/ensemble.py:558-588 | the loop over the zero vector produces exactly the specified dense vector |
| Ensemble.EnsembleModel.PredictEnsemble | services/ensemble.py:489-556 | raises exactly when untrained; otherwise returns the guarded score of the feature vector and the LSTM input |
| Ensemble.EnsembleModel.TrainEnsemble | services/ensemble.py:448-487 | a short frame changes nothing; otherwise the schema and classes are recorded, the learners are those `AfterTraining` leaves (partly replaced when a fit raises), the engine is marked trained exactly when every fit succeeds, and then it reports importances and the 80/20 sizes |
| Ensemble.EnsembleModel.GetFeatureImportance | services/ensemble.py:590-603 | an error exactly when untrained; otherwise the top `k` and all pairs, sorted descending |
| MlDemo.UpTargets | services/ml_demo.py:133-134 | one target per row |
| MlDemo.UpTargetsMeaning | services/ml_demo.py:133-134 | the first row is 0; every other row is 1 exactly when the price rose against the previous one |
| MlDemo.GeneratedLags | services/ml_demo.py:91-94 | the lag columns keep the length and read one and three rows back |
| MlDemo.FeatureVector | services/ml_demo.py:232-253 | one value per schema column; a supplied column takes its own value |
| MlDemo.PriceBeforeVolume | services/ml_demo.py:238-241 | `price` is checked before `volume`: `price_volume_trend` falls back to the price |
| MlDemo.FirstMentionDecides | services/ml_demo.py:237-249 | an unsupplied column takes the live value, or the fixed default, of the first of price, volume, tech, social, fund and astro it mentions |
| MlDemo.VolumeSeriesTakeVolume | services/ml_demo.py:240-241 | `volume_sma` and `volume_ratio` fall back to the live volume, 23000000 by default |
| MlDemo.MomentumTakesPillar | services/ml_demo.py:242-243 | `tech_score_momentum` falls back to the tech score, 35 by default |
| MlDemo.RsiDefault | services/ml_demo.py:250-251 | `rsi_approx` falls back to 50 |
| MlDemo.PillarMeanDefaultsToZero | services/ml_demo.py:236-253 | `pillar_mean` names no base feature and falls back to 0.0 |
| MlDemo.ConfidenceFacts | services/ml_demo.py:271-272 | `abs(p - 0.5) * 2` lies in `[0, 1]`, is 0 only at 0.5 and 1 only at 0 and 1, and is symmetric; the class flips with `1 - p` |
| MlDemo.Predicted | services/ml_demo.py:257-280 | the reported feature count is the vector's length, and the class is BULLISH exactly when the ensemble probability exceeds 0.5 |
| MlDemo.PredictedConfidenceBounded | services/ml_demo.py:264-272 | a probability from the meta-learner keeps the confidence in `[0, 1]` |
| MlDemo.CryptoMLDemo.constructor | services/ml_demo.py:27-31 | a new demo is untrained with no schema |
| MlDemo.AfterFitsOutcome | services/ml_demo.py:158-196 | training succeeds exactly when all three fits do, and then the models are exactly the fitted ones with the refitted scaler; after a failed fit every prediction raises |
| MlDemo.CryptoMLDemo.TrainEnsemble | services/ml_demo.py:142-221 | fixes the schema as the generated columns without `target`; the models are those the fits leave, partly replaced when one raises; the demo is marked trained exactly when all fits succeed |
| MlDemo.CryptoMLDemo.BuildFeatureVector | services/ml_demo.py:232-253 | the appending loop produces exactly the specified vector |
| MlDemo.CryptoMLDemo.Predict | services/ml_demo.py:223-280 | an untrained demo trains first and is trained afterwards exactly when all fits succeeded; once trained, the prediction is that of the built vector |
| MlDemo.CryptoMLDemo.GetFeatureImportance | services/ml_demo.py:282-296 | an error exactly when untrained; otherwise the top `k` sorted pairs and the schema size |
| MlDemo.SchemaIsFeatures | services/ml_demo.py:96-152 | the schema is the 31 generated columns without `target` |
| AdvancedMl.SequencesShape | services/advancedMLService.py:240-245 | `max(0, n - L)` windows of `L` rows, each followed by the row whose target it is paired with |
| AdvancedMl.CreateSequences | services/advancedMLService.py:240-245 | the appending loop produces exactly the specified windows and targets |
| AdvancedMl.CalculateConfidence | services/advancedMLService.py:440-459 | the confidence lies in `[0.1, 0.99]` |
| AdvancedMl.ConfidenceTable | services/advancedMLService.py:440-459 | the clamp never binds: 0.7 times the model's factor, 0.49 for a model it does not list, whatever the data |
| AdvancedMl.IsWeekend | services/advancedMLService.py:118 | the weekend flag is 0 or 1 |
| AdvancedMl.WeekendDays | services/advancedMLService.py:118 | the flag is 1 exactly on days 5 and 6 |
| AdvancedMl.Apply | services/advancedMLService.py:58-129 | the blocks only append: the input columns stay a prefix, in their order |
| AdvancedMl.ApplyMembers | services/advancedMLService.py:58-129 | a column is in the result exactly when it is an input or belongs to a block whose guard held on the frame the earlier blocks left |
| AdvancedMl.ApplyAdds | services/advancedMLService.py:58-129 | a block guarded by input columns runs and assigns all of its columns |
| AdvancedMl.GuardNeverAssigned | services/advancedMLService.py:58-129 | a guard column that no block assigns must be an input for any block it guards to run |
| AdvancedMl.EngineeredColumns | services/advancedMLService.py:47-137 | the engineered frame keeps the input columns first, in their own order |
| AdvancedMl.EngineeredAdds | services/advancedMLService.py:58-129 | given its input columns, each block assigns its columns: the price indicators and price lags with `price`, the volume ones with `volume`, momentum and `ma_5` per score, the tech-social interaction with both scores, the calendar columns with `timestamp` |
| AdvancedMl.EngineeredOnly | services/advancedMLService.py:58-129 | no column appears but the inputs and the columns of blocks that ran |
| AdvancedMl.VolatilityInteraction | services/advancedMLService.py:57-111 | with price and volume, the volatility-volume interaction exists, because its factors are engineered first |
| AdvancedMl.NoPriceBlockWithoutPrice | services/advancedMLService.py:57-129 | without a `price` column neither the price indicators nor any price lag is computed, since no block assigns `price` |
| AdvancedMl.EngineerFeatures | services/advancedMLService.py:47-137 | an empty frame (no rows or no columns) comes back unchanged; otherwise the engineered columns follow the input ones, and `dropna` leaves at most the input rows |
| AdvancedMl.NatToString | services/advancedMLService.py:469 | `str(n)`: decimal digits, the first one `0` only for 0 |
| AdvancedMl.NatToStringValue | services/advancedMLService.py:469 | the printed digits denote the number they came from |
| AdvancedMl.NatToStringInjective | services/advancedMLService.py:469 | different numbers print differently |
| AdvancedMl.PlaceholderNamesDistinct | services/advancedMLService.py:469 | no two of the placeholder names `feature_0`, `feature_1`, ... coincide |
| AdvancedMl.AdvancedMLService.constructor | services/advancedMLService.py:39-45 | a new service has no models, selector, scaler or importances and is untrained |
| AdvancedMl.AdvancedMLService.PrepareData | services/advancedMLService.py:139-180 | engineers the frame; raises exactly when the result is empty or lacks the target column, and then changes nothing; otherwise fits the selector once (later calls reuse it), marks the scaler fitted and splits at `int(0.8 n)` |
| AdvancedMl.AdvancedMLService.FitBaseModels | services/advancedMLService.py:182-233 | succeeds exactly when both tree fits succeed and, for more than 50 training rows, the LSTM fit; each model and its importances are recorded as soon as its fit succeeds, so a failure keeps exactly the ones fitted before it |
| AdvancedMl.AdvancedMLService.CreateEnsembleModel | services/advancedMLService.py:287-304 | raises unless both tree models are present; then records the fitted ensemble |
| AdvancedMl.AdvancedMLService.FitModels | services/advancedMLService.py:314-327 | succeeds exactly when both tree fits, the ensemble fit and (above 50 training rows) the LSTM fit succeed, and then holds exactly those models and marks the service trained; after a raise the trained flag stays and the models and importances are those recorded before the failing fit |
| AdvancedMl.AdvancedMLService.TrainModels | services/advancedMLService.py:306-345 | succeeds exactly when engineering keeps rows and the target and every fit that runs succeeds (the LSTM fit only above 50 training rows), and then records exactly those models and importances and marks the service trained; a failure leaves the trained flag as it was, changes nothing when the data is unusable, and otherwise keeps the selector and scaler that preparation fitted and the models and importances recorded before the fit that raised |
| AdvancedMl.AdvancedMLService.Predict | services/advancedMLService.py:390-438 | succeeds exactly when trained, the model is known, there are rows (10 for the LSTM) and the model does not raise; the confidence is the table's |
| AdvancedMl.AdvancedMLService.GetFeatureImportance | services/advancedMLService.py:461-479 | an error exactly for a model without importances; otherwise the top `k` (name, importance) pairs, sorted descending |
| DataService.HasColumnIff | services/dataService.py:109-112 | a frame has a column exactly when some row holds the key, null or not |
| DataService.FieldGetDefault | services/dataService.py:146-173 | a column no row has comes in with its default |
| DataService.FieldGetMissing | services/dataService.py:146-173 | a column that other rows have but this one lacks comes in missing |
| DataService.Nearest | services/dataService.py:130-131 | `idxmin` of the time differences is a row of the frame |
| DataService.NearestIsFirstMinimum | services/dataService.py:130-131 | no row is nearer than the chosen one, and every earlier row is farther |
| DataService.Match | services/dataService.py:127-133 | a joined row is a row of the frame |
| DataService.MatchWithinHour | services/dataService.py:127-141 | a row is joined exactly when some row lies within the hour, inclusive, and then the first nearest one is |
| DataService.CombineFeatureData | services/dataService.py:106-178 | one record per prediction row, in order, each combining its nearest market and technical rows; no predictions give no records |
| DataService.MarketFallback | services/dataService.py:151-155 | without a market row within the hour, price, volume, market cap, high and low default to 150, 20000000, 70000000000, 155 and 145 |
| DataService.MarketJoined | services/dataService.py:151-155 | with a market row within the hour, the price is the nearest such row's, missing when that row lacks one or holds a null; no default applies |
| DataService.TechnicalFallback | services/dataService.py:158-162 | without a technical row within the hour, RSI, MACD, EMA, SMA and ATR default to 60, 0.5, 150, 148 and 2 |
| DataService.PillarsFromPredictions | services/dataService.py:165-173 | the pillar scores and activity fields always come from the prediction row |
| DataService.PredictionDefaults | services/dataService.py:146-173 | a bare prediction row gets every documented default: pillars 35/32/33/60, galaxy 70, rank 15, social volume 8000, prediction 0, confidence 0.5, no outcome, and all ten market and technical defaults |
| Explain.IndicatorsExclusive | scripts/explain.py:250-256 | overbought and oversold never hold together, nor new and full moon; a calm middle raises none |
| Explain.MeanAbs | scripts/explain.py:331 | one mean absolute attribution per feature column |
| Explain.MeanAbsNonNegative | scripts/explain.py:331 | every mean absolute attribution is non-negative |
| Explain.IndexOf | scripts/explain.py:342 | `list.index` is the first position of the feature |
| Explain.MatchedOnlyModelFeatures | scripts/explain.py:340-344 | only pillar features the model has contribute, with their own mean attribution; none match exactly when the model has none of them |
| Explain.ReportFacts | scripts/explain.py:346-354 | at most five parallel names and scores, sorted descending with ties in pillar order, and a total over all matched features |
| Explain.AnalysisCorrect | scripts/explain.py:324-357 | a pillar appears exactly when one of its features matched, and then with the report of its matched features |
| Explain.AnalysisOnlyPillars | scripts/explain.py:336-357 | only pillar names appear in the result |
| Explain.WeightedDeviationsSum | scripts/explain.py:320 | the attributions of a column sum to the column's deviation from `m`, times its importance |
| Explain.CenteredColumnSumsToZero | scripts/explain.py:320 | centred on its own mean, a column's pseudo-SHAP values sum to zero |
| Explain.Column | scripts/explain.py:320 | `sample[:, c]` has one entry per sample row |
| Explain.ExplainabilityService.constructor | scripts/explain.py:49-83 | the service holds the model's columns and the fixed pillar table |
| Explain.ExplainabilityService.ComputeAlternativeImportance | scripts/explain.py:302-322 | a fresh `n x columns` matrix whose column `i`, for each importance given, is the sample column's deviation from its mean times importance `i`, and whose remaining columns stay 0 |
| Explain.ExplainabilityService.AnalyzeFeatureImportanceByPillar | scripts/explain.py:324-357 | the nested loops produce exactly the specified pillar analysis of the mean absolute attributions |
| OptunaTuner.SearchSpacesDefined | services/optunaTuner.py:97-143 | a space is non-empty exactly for `lstm`, `ensemble` and `hybrid`; every space has distinct names and `low <= high` |
| OptunaTuner.Lookup | services/optunaTuner.py:285 | a key is found exactly when it was assigned, and then with an assigned value |
| OptunaTuner.TruncMonotone | services/optunaTuner.py:157 | `int()` of a float is monotone, so integer bounds keep their order |
| OptunaTuner.SampleParams | services/optunaTuner.py:150-159 | one parameter per space entry, in order; the listed names are ints and the rest floats, each within its bounds |
| OptunaTuner.EnsembleConditions | services/optunaTuner.py:309-319 | at most three range conditions hold |
| OptunaTuner.LstmConditions | services/optunaTuner.py:241-261 | at most four conditions hold |
| OptunaTuner.ProxyScore | services/optunaTuner.py:238-265 | the proxy score lies in `[0, 1]` |
| OptunaTuner.ProxyScoreNoiseless | services/optunaTuner.py:306-323 | without noise, `0.5 + n/10`, and more conditions score strictly more |
| OptunaTuner.ProxyScoreNoiseBound | services/optunaTuner.py:264-265 | the noise moves the score by at most its own size |
| OptunaTuner.SyntheticEnsembleEvaluation | services/optunaTuner.py:302-325 | the adding loop scores the ensemble conditions met |
| OptunaTuner.EvaluateLstmParams | services/optunaTuner.py:231-268 | the adding loop scores the LSTM conditions met |
| OptunaTuner.RemoveAbsent | services/optunaTuner.py:278 | `replace` of an absent pattern leaves the key unchanged |
| OptunaTuner.StripPrefix | services/optunaTuner.py:278 | a key holding the prefix only at its start loses exactly the prefix |
| OptunaTuner.EnsembleParams | services/optunaTuner.py:278 | the ensemble part is no larger than the trial's parameters |
| OptunaTuner.LstmParams | services/optunaTuner.py:279 | the LSTM part holds only trial parameters with LSTM keys |
| OptunaTuner.LstmParamsComplete | services/optunaTuner.py:279 | every LSTM-keyed trial parameter is in the LSTM part |
| OptunaTuner.EnsembleParamsMembers | services/optunaTuner.py:278 | an `xgb_` key holding the prefix once enters the ensemble part with the prefix removed |
| OptunaTuner.EnsembleParamsSound | services/optunaTuner.py:278 | every ensemble parameter is a renamed `xgb_` parameter of the trial |
| OptunaTuner.EnsembleParamsComplete | services/optunaTuner.py:278 | every `xgb_` parameter enters the ensemble part, renamed |
| OptunaTuner.HybridLstmDefaults | services/optunaTuner.py:241-259 | a hybrid trial has no third LSTM layer or sequence length, so the LSTM proxy uses 32 and 60 |
| OptunaTuner.HybridBlendBounds | services/optunaTuner.py:285-292 | the blend lies between the two scores, raised by 0.05 exactly for weights in `[0.4, 0.7]` |
| OptunaTuner.HybridDefaultWeight | services/optunaTuner.py:285-292 | without a weight the blend is `0.6 e + 0.4 l + 0.05` |
| OptunaTuner.EvaluateHybridParams | services/optunaTuner.py:274-296 | the hybrid score is the blend of the ensemble part's and the LSTM part's proxy scores |
| OptunaTuner.TrialScoreBounds | services/optunaTuner.py:165-172 | a trial score is in `[0, 1]`, up to 1.05 for a hybrid trial with its bonus |
| OptunaTuner.RunAsWritten | services/optunaTuner.py:175-187 | the objective as written returns one score per trial |
| OptunaTuner.RunAsWrittenFromBest | services/optunaTuner.py:175-187 | once a best value is stored, every trial returns its own score and the best value afterwards is the larger of the stored best and the largest score |
| OptunaTuner.FirstStudyIsBlind | services/optunaTuner.py:179 | as written, in a fresh tuner every trial returns 0.0 and the best value stays unset |
| OptunaTuner.FirstTrialCounterexample | services/optunaTuner.py:179 | a trial scoring 0.8 in a fresh tuner is reported as 0.0 |
| OptunaTuner.RecordScore | services/optunaTuner.py:179 | the intended update: the new best is the larger of the score and the old best (0 when unset) |
| OptunaTuner.RunBestIsMax | services/optunaTuner.py:177-181 | with the intended update, the best value after a run of non-negative scores is their maximum |
| OptunaTuner.Tuner.constructor | services/optunaTuner.py:52-64 | a new tuner is inactive with no study, no trials and no best |
| OptunaTuner.Tuner.GetTuningStatus | services/optunaTuner.py:424-426 | a copy of the status |
| OptunaTuner.Tuner.EvaluateParams | services/optunaTuner.py:165-172 | the score is the trial score of the parameters for the optimisation type, 0.5 for an unknown type |
| OptunaTuner.Tuner.ObjectiveFunction | services/optunaTuner.py:145-187 | as written: the parameters follow the type's space and the trial count advances; with no best value yet `max` raises, the call returns 0.0 and the best value and parameters stay; otherwise it returns the trial score, the best becomes the larger of the two and the parameters are recorded when the score is the best |
| OptunaTuner.Tuner.ObjectiveFunctionIntended | services/optunaTuner.py:177-181 | with a missing best counting as 0: the call returns the trial score, the best value is the larger of score and old best, and the parameters are recorded exactly when the score is that best |
| OptunaTuner.TrialScoresAt | services/optunaTuner.py:165-172 | each trial of a run scores the trial score of its own parameters |
| OptunaTuner.Tuner.RunTrials | services/optunaTuner.py:386-390 | one objective call per trial: the scores are the trials' scores on their sampled parameters, the values added to the study and the best value afterwards are those of the objective as written on those scores |
| OptunaTuner.Tuner.StartOptimization | services/optunaTuner.py:350-418 | without Optuna it fails and only clears `active`; otherwise the study keeps its stored trials and gains one per new trial, valued as the objective as written values them (all 0.0 in a tuner with no best yet); then it reports a best trial of the whole study, or fails with the count and best untouched when the study has none |
| OptunaTuner.Tuner.FinishStudy | services/optunaTuner.py:392-408 | the study holds the stored and new trials; with none it fails and leaves count and best, otherwise count, best value and parameters come from a trial of the study with the largest value |
| OptunaTuner.BestTrial | services/optunaTuner.py:392-396 | `study.best_trial` is a trial of the study whose value no other trial exceeds |
| OptunaTuner.BlindTail | services/optunaTuner.py:179 | in a tuner with no best value yet, every value a run adds to the study is 0.0 |
| Tune.FutureReturns | scripts/tune.py:201 | the next return, the last one repeated |
| Tune.DeriveCorrect | scripts/tune.py:152-202 | the lags keep the length and look one and three steps back; each flag is 1 exactly past its threshold, never both of a pair; the target is 1 exactly when the next return exceeds 0.005 |
| Tune.HighVolatilityNeverSet | scripts/tune.py:194 | with a threshold no volatility exceeds, as the NaN percentile behaves, `high_volatility` is 0 on every row |
| Tune.TuneSchema | scripts/tune.py:166-206 | the schema is the 31 generated columns without `target` |
| Tune.FeatureValuesAligned | scripts/tune.py:223-224 | each feature row is as long as the schema |
| Tune.SplitIndices | scripts/tune.py:227-234 | the three parts together have one index per row, all in range, with at least a fifth for test and at least a quarter of the rest for validation |
| Tune.TestApart | scripts/tune.py:228-230 | no test row is also a validation or training row |
| Tune.ValTrainApart | scripts/tune.py:232-234 | no validation row is also a training row |
| Tune.SplitDisjoint | scripts/tune.py:227-234 | no row lands in two parts |
| Tune.DefaultSplitSizes | scripts/tune.py:227-234 | a thousand samples split into 600, 200 and 200 |
| Tune.CompositeBounds | scripts/tune.py:265 | the composite weights sum to 1, so the score lies within the metrics' bounds and in `[0, 1]` for unit metrics |
| Tune.EvaluateLstm | scripts/tune.py:286-338 | a missing network parameter fails like training; otherwise the composite of the metrics |
| Tune.EvaluateEnsemble | scripts/tune.py:340-407 | the same, echoing both parameter sets |
| Tune.Evaluate | scripts/tune.py:245-284 | every evaluation echoes its parameters; a failure scores 0.0 with all four metrics 0.0; a success reports its metrics and their composite, which lies in `[0, 1]` whenever the metrics do |
| Tune.EvaluationScoreBounds | scripts/tune.py:265-284 | every evaluation score lies in `[0, 1]`, and a failed one scores no more than any success |
| Tune.Accuracy | scripts/tune.py:535 | `accuracy_score` lies in `[0, 1]` and is 1 exactly when every label is predicted |
| Tune.EvaluateBestModel | scripts/tune.py:493-539 | 0.0 without an `ensemble` result; with one, the accuracy of the meta-learner over the retrained models' test probabilities, in `[0, 1]` and 1 exactly when every test label is predicted |
| Tune.Optimizer.constructor | scripts/tune.py:46-59 | a new optimizer holds no schema and no data |
| Tune.Optimizer.PrepareData | scripts/tune.py:216-243 | the schema is every column but `target`; the parts hold the targets of the split rows and their feature values scaled by the one scaler fitted on the training features |
| TrainModel.ClampAll | server/ml/train_model.py:81-93 | every generated value lies in its range; values inside it are kept, values below become the lower bound and values above the upper |
| TrainModel.StepReturns | server/ml/train_model.py:96-99 | one return per step of the walk |
| TrainModel.LiveTableFacts | server/ml/train_model.py:60-117 | generated rows clip the RSI to `[20, 80]`, social to `[10, 90]` and astrology to `[30, 90]`, and the first return is 0 |
| TrainModel.WithDefaults | server/ml/train_model.py:132-143 | the defaulting adds exactly the missing columns and leaves the present ones alone |
| TrainModel.DefaultedColumn | server/ml/train_model.py:133-143 | a missing column is filled with the first matching default |
| TrainModel.IndicatorDefaults | server/ml/train_model.py:136-141 | the RSI, social and astrology columns default to 50, the MACD column to 0 |
| TrainModel.MarketDefaults | server/ml/train_model.py:142-143 | the EMA, market cap and volume columns default to the mean price, or 100 without a price |
| TrainModel.DerivedTargetFacts | server/ml/train_model.py:146-148 | a derived return starts at 0 and then follows the price's relative changes |
| TrainModel.Matrix | server/ml/train_model.py:153 | `df[feature_columns]` has one row per frame row and one value per schema column |
| TrainModel.Frame.constructor | server/ml/train_model.py:119 | the frame holds the given table |
| TrainModel.Frame.FillMissing | server/ml/train_model.py:132-143 | the in-place loop produces exactly the defaulted table |
| TrainModel.Frame.PrepareFeatures | server/ml/train_model.py:119-166 | the frame gains the defaults and the target; the fixed schema and its matrix and targets are returned |
| TrainModel.SchemaLeavesPriceAndTarget | server/ml/train_model.py:126-130 | the schema names neither the price nor the target |
| TrainModel.Train | server/ml/train_model.py:191-263 | nothing for fewer than 10 rows; otherwise the prepared rows split at `int(0.8 n)`, with the metadata recording the schema and sizes |
| TrainModel.Fetched | server/ml/train_model.py:30-58 | the database rows are used exactly when the query returned more than 10 of them, otherwise the generated sample; so the result is the sample or has more than 10 rows |
| TrainModel.FetchedIsLargeEnough | server/ml/train_model.py:48-53 | the fetched frame always has more than 10 rows, so the size check never fails |

## Left out

- Learners, scalers, feature selectors and SHAP are opaque. `predict_proba`,
  `fit`, `transform` and `feature_importances_` are functions or values
  passed in, and their own numerics are not modelled.
- pandas and numpy numerics are not modelled: rolling means and standard
  deviations, `ewm`, RSI, MACD, Bollinger bands, logarithms, the `1e-8`
  normalisation and the window scaling.
- Floating point is modelled as exact reals.
- All random generators are not modelled. This covers
  `_generate_sample_data`, `create_synthetic_training_data`, the draws of
  `generate_realistic_crypto_data` and `fetch_live_data_for_training`, and
  `_get_fallback_features`. The draws, where the rule code reads them, are
  parameters.
- I/O is not modelled: Supabase queries, `store_training_results`,
  `get_training_history`, Optuna/SQLite storage, `_log_trial_result`,
  `get_study_history`, `get_best_parameters`, model save and load, the HTML
  report and printing, and the runtime package install.
- services/dataServiceClean.py and services/modelDeployment.py are not part
  of this model: one is a random generator, the other filesystem copying.
- scripts/tune.py `optimize_models` and `main` are not modelled. They do not
  run as written: `optimize_models` uses `RDBStorage` and `optuna`, which the
  script never imports, and passes the methods `objective_ensemble`,
  `objective_xgboost` and `objective_lstm`, which the class does not define;
  `main` builds an `OptunaCryptoOptimizer`, a class the script does not define.
- The shuffled order of `train_test_split` and its stratification are not
  modelled. The split is a parameter, a pair of permutations, and the model
  captures only the part sizes and their disjointness.
- `dropna` of the leading rows (the rows the lags and rolling windows leave
  empty) is not modelled. `Ensemble` takes the frame after `dropna`, and
  `AdvancedMl` takes the number of rows it keeps as an input.
- A missing `timestamp` (a `KeyError` in the join) is not modelled: every row
  carries one.
- `evaluate_models` in services/advancedMLService.py is not modelled: its
  regression metrics are numerics of the learners.
- TrainModel.Frame.PrepareFeatures: requires non-zero prices and does not model NaN filling or normalisation. The random target drawn when there is no price column is the `noise` input, not generated.
- EnsembleLite.Schema: engineering adds `future_price` and drops it again before the schema is read. The model leaves it out of the schema directly.
- `EnsemblePredictor` in services/optunaTuner.py cannot be imported, because
  services/ensemble_lite.py defines no such class. So the ensemble score of
  every trial is the synthetic one, and the data-driven branch is not
  modelled.
- Ensemble.EnsembleModel.GetFeatureImportance: after a failed classifier refit of an engine trained before, the source reads the importances of an unfitted classifier and raises; the model reports those of the last successful fit.
- EnsembleLite.EnsembleLiteModel.GetFeatureImportance: after a failed classifier refit of an engine trained before, the source raises on the unfitted classifier; the model reports the importances of the last successful fit.
- MlDemo.CryptoMLDemo.GetFeatureImportance: after a failed classifier refit of a demo trained before, the source raises on the unfitted classifier; the model reports the importances of the last successful fit.
- AdvancedMl.AdvancedMLService.PrepareData: `test_size` is fixed at its default 0.2, the only value `train_models` passes. Exceptions raised inside scikit-learn (no feature column left, a reused selector meeting a different schema) are not modelled.
- AdvancedMl.AdvancedMLService.Predict: takes the engineered, selected and scaled rows as an input, `None` when a transform raises.
- Explain.MeanAbs: `np.mean` of an empty column is NaN; the model's mean of no values is 0, so a sample with no rows gives zeros.
- Explain.ExplainabilityService.ComputeAlternativeImportance: more importances than model features, or more importances than the 31 columns of the sample, would raise an `IndexError` in the source; the model requires at most one importance per feature and per sample column. A schema wider than the sample is accepted, as in the source.
- Explain.ExplainabilityService.AnalyzeFeatureImportanceByPillar: the result is a map, so the insertion order of the returned dictionary (the order of the pillar table) is not modelled.
- Tune.Derive: the percentile `p75` is a parameter. Reals have no NaN, so the NaN that `np.percentile` returns here (the first ten-step volatility is a one-sample standard deviation) is stood for by a threshold no volatility exceeds.
- Tune.EvaluateBestModel: the retraining is not modelled. The test probabilities of the two models and the meta-learner are inputs, and the exceptions a fit or a missing `xgb_params`/`nn_params` key would raise are not modelled.
- Loggers, global singleton instances and module-level wrappers such as
  `train_ml_demo` and `get_ensemble_status` are not modelled.

## Findings

| source | as written | input that shows it | evidently intended | confidence | as-written member | corrected member |
|---|---|---|---|---|---|---|
| services/ensemble.py:294-295 | the LSTM windows are cut at the row split index, although there are 24 fewer windows than rows | a frame of 50 rows: 26 windows train against 40 labels; 200 rows: 16 test windows against 40 labels | pair each window with the label of its last row and split those pairs 80/20 | not executed | Ensemble.LstmSplitCounterexamples | Ensemble.PrepareCorrect |
| services/optunaTuner.py:179 | `max(score, status.get('best_value', 0))` reads the stored `None`, so `max` raises and the trial reports 0.0 | a fresh tuner whose first trial scores 0.8 reports 0.0, and so does every later trial | treat a missing best value as 0 | not executed | OptunaTuner.FirstTrialCounterexample | OptunaTuner.RunBestIsMax |
