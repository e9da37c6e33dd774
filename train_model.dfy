/**
 * The training data path of `server/ml/train_model.py`: which rows the
 * trainer trains on, how `prepare_features` fills in missing feature
 * columns and the return target of a data frame in place, and the size
 * check and chronological split of `train_model`. The network, the
 * normalisation and all I/O are not modelled.
 */
module TrainModel {
  import opened Common

  /** A table of named numeric columns, each `rows` long, as a data frame holds it. */
  datatype Table = Table(rows: nat, data: map<string, seq<real>>)

  predicate Rectangular(t: Table) {
    forall c :: c in t.data ==> |t.data[c]| == t.rows
  }

  // ---------------------------------------------------------------------
  // Fetching

  /** The size of the generated fallback sample. */
  const LIVE_ROWS: nat := 100

  /** Database rows are used only when there are more than this many. */
  const MIN_DATABASE_ROWS: nat := 10

  /**
   * `fetch_historical_data`: the database rows (None when the query
   * raised or returned nothing), or else the generated sample.
   */
  function Fetched(database: Option<Table>, live: Table): (t: Table)
    ensures database.Some? && database.value.rows > MIN_DATABASE_ROWS ==> t == database.value
    ensures !(database.Some? && database.value.rows > MIN_DATABASE_ROWS) ==> t == live
    ensures t == live || t.rows > MIN_DATABASE_ROWS
  {
    if database.Some? && database.value.rows > MIN_DATABASE_ROWS then database.value else live
  }

  /**
   * The values `fetch_live_data_for_training` draws for each row, before
   * clipping; `trend` is the cumulated price walk.
   */
  datatype LiveDraws = LiveDraws(
    trend: seq<real>, rsi: seq<real>, macd: seq<real>, ema: seq<real>,
    marketCap: seq<real>, volume: seq<real>, social: seq<real>, astro: seq<real>)

  predicate LiveAligned(d: LiveDraws) {
    |d.trend| == |d.rsi| == |d.macd| == |d.ema| == |d.marketCap| == |d.volume| == |d.social| == |d.astro|
  }

  function ClampAll(s: seq<real>, lo: real, hi: real): (r: seq<real>)
    requires lo <= hi
    ensures |r| == |s|
    ensures forall i :: 0 <= i < |s| ==> lo <= r[i] <= hi
    ensures forall i :: 0 <= i < |s| ==>
              (lo <= s[i] <= hi ==> r[i] == s[i]) && (s[i] < lo ==> r[i] == lo) && (s[i] > hi ==> r[i] == hi)
  {
    seq(|s|, i requires 0 <= i < |s| => Clamp(s[i], lo, hi))
  }

  /** The return of each step of the walk; the first step has none and gets 0. */
  function StepReturns(p: seq<real>): (r: seq<real>)
    requires forall i :: 0 <= i < |p| - 1 ==> p[i] != 0.0
    ensures |r| == |p|
  {
    seq(|p|, i requires 0 <= i < |p| => if i == 0 then 0.0 else (p[i] - p[i - 1]) / p[i - 1])
  }

  /** The generated sample: one row per draw, in the columns the database also has. */
  function LiveTable(d: LiveDraws): Table
    requires LiveAligned(d) && forall i :: 0 <= i < |d.trend| - 1 ==> d.trend[i] != 0.0
  {
    Table(|d.trend|, map[
      "price_usd" := d.trend,
      "rsi_1h" := ClampAll(d.rsi, 20.0, 80.0),
      "macd_histogram" := d.macd,
      "ema_20" := d.ema,
      "market_cap_usd" := d.marketCap,
      "volume_24h_usd" := d.volume,
      "social_score" := ClampAll(d.social, 10.0, 90.0),
      "astro_score" := ClampAll(d.astro, 30.0, 90.0),
      "price_return_1h" := StepReturns(d.trend)])
  }

  /**
   * The generated sample is a full table whose RSI lies in [20, 80], whose
   * social score lies in [10, 90] and whose astrology score lies in
   * [30, 90]; its first return is 0 and every later one is the step's
   * relative change.
   */
  lemma LiveTableFacts(d: LiveDraws, i: nat)
    requires LiveAligned(d) && forall k :: 0 <= k < |d.trend| - 1 ==> d.trend[k] != 0.0
    requires i < |d.trend|
    ensures var t := LiveTable(d);
            Rectangular(t)
            && 20.0 <= t.data["rsi_1h"][i] <= 80.0
            && 10.0 <= t.data["social_score"][i] <= 90.0
            && 30.0 <= t.data["astro_score"][i] <= 90.0
            && t.data["price_return_1h"][0] == 0.0
            && (i > 0 ==> t.data["price_return_1h"][i] == (d.trend[i] - d.trend[i - 1]) / d.trend[i - 1])
  {
  }

  // ---------------------------------------------------------------------
  // Feature preparation

  /** The fixed feature schema, in order. */
  const FEATURE_COLUMNS: seq<string> :=
    ["rsi_1h", "macd_histogram", "ema_20", "market_cap_usd", "volume_24h_usd", "social_score", "astro_score"]

  const TARGET: string := "price_return_1h"
  const PRICE: string := "price_usd"

  /** The value a missing column is filled with: the first rule its name matches. */
  function DefaultFor(col: string, data: map<string, seq<real>>): real {
    if Contains(col, "score") then 50.0
    else if Contains(col, "rsi") then 50.0
    else if Contains(col, "macd") then 0.0
    else if PRICE in data then Mean(data[PRICE])
    else 100.0
  }

  /** `[v] * n`: a column holding one value. */
  function Repeat(v: real, n: nat): (s: seq<real>)
    ensures |s| == n && forall i :: 0 <= i < n ==> s[i] == v
  {
    seq(n, _ => v)
  }

  /** `df[col] = default` for a missing column; a present one is left alone. */
  function WithDefault(t: Table, col: string): Table {
    if col in t.data then t else Table(t.rows, t.data[col := Repeat(DefaultFor(col, t.data), t.rows)])
  }

  /**
   * The defaulting loop over `cols`, one column after the other. After it
   * every column of `cols` is present; the table keeps its size and shape,
   * and every column it already had keeps its values.
   */
  function WithDefaults(t: Table, cols: seq<string>): (r: Table)
    ensures r.rows == t.rows && (Rectangular(t) ==> Rectangular(r))
    ensures forall c :: c in r.data <==> c in t.data || c in cols
    ensures forall c :: c in t.data ==> r.data[c] == t.data[c]
  {
    if cols == [] then t
    else
      var init := cols[..|cols| - 1];
      assert forall c :: c in cols <==> c in init || c == cols[|cols| - 1];
      WithDefault(WithDefaults(t, init), cols[|cols| - 1])
  }

  /**
   * A missing column is filled, the one time it is met, by its own name's
   * rule, from the price column (it is not in `cols`, so no earlier step
   * changed it).
   */
  lemma {:induction false} DefaultedColumn(t: Table, cols: seq<string>, k: nat)
    requires Rectangular(t) && k < |cols| && cols[k] !in t.data
    requires forall j :: 0 <= j < k ==> cols[j] != cols[k]
    requires PRICE !in cols
    ensures WithDefaults(t, cols).data[cols[k]] == Repeat(DefaultFor(cols[k], t.data), t.rows)
  {
    var last := |cols| - 1;
    var init := cols[..last];
    var before := WithDefaults(t, init);
    assert WithDefaults(t, cols) == WithDefault(before, cols[last]);
    if k == last {
      assert cols[k] !in init;
      assert cols[k] !in before.data;
      assert PRICE !in init;
      assert (PRICE in before.data <==> PRICE in t.data);
      assert DefaultFor(cols[k], before.data) == DefaultFor(cols[k], t.data);
    } else {
      assert init[k] == cols[k];
      DefaultedColumn(t, init, k);
      assert cols[k] in before.data;
    }
  }

  /** The RSI, social and astrology columns default to 50 and the MACD column to 0. */
  lemma IndicatorDefaults(data: map<string, seq<real>>)
    ensures DefaultFor("rsi_1h", data) == 50.0
    ensures DefaultFor("macd_histogram", data) == 0.0
    ensures DefaultFor("social_score", data) == 50.0 && DefaultFor("astro_score", data) == 50.0
  {
    RsiDefault(data);
    MacdDefault(data);
    assert SubstringAt("social_score", "score", 7);
    assert SubstringAt("astro_score", "score", 6);
  }

  lemma RsiDefault(data: map<string, seq<real>>)
    ensures DefaultFor("rsi_1h", data) == 50.0
  {
    MissingChar("rsi_1h", "score", 'c');
    PrefixIsContained("rsi_1h", "rsi");
  }

  lemma MacdDefault(data: map<string, seq<real>>)
    ensures DefaultFor("macd_histogram", data) == 0.0
  {
    MissingChar("macd_histogram", "score", 'e');
    PairNowhere("macd_histogram", "rsi", 0);
    PrefixIsContained("macd_histogram", "macd");
  }

  /** The EMA, market cap and volume columns default to the mean price, or 100 without a price column. */
  lemma MarketDefaults(data: map<string, seq<real>>)
    ensures var price := if PRICE in data then Mean(data[PRICE]) else 100.0;
            DefaultFor("ema_20", data) == price && DefaultFor("market_cap_usd", data) == price
            && DefaultFor("volume_24h_usd", data) == price
  {
    EmaDefault(data);
    MarketCapDefault(data);
    VolumeDefault(data);
  }

  lemma EmaDefault(data: map<string, seq<real>>)
    ensures DefaultFor("ema_20", data) == if PRICE in data then Mean(data[PRICE]) else 100.0
  {
    MissingChar("ema_20", "score", 'c');
    MissingChar("ema_20", "rsi", 'r');
    MissingChar("ema_20", "macd", 'c');
    NoRuleApplies("ema_20", data);
  }

  lemma MarketCapDefault(data: map<string, seq<real>>)
    ensures DefaultFor("market_cap_usd", data) == if PRICE in data then Mean(data[PRICE]) else 100.0
  {
    MissingChar("market_cap_usd", "score", 'o');
    MissingChar("market_cap_usd", "rsi", 'i');
    PairNowhere("market_cap_usd", "macd", 1);
    NoRuleApplies("market_cap_usd", data);
  }

  lemma VolumeDefault(data: map<string, seq<real>>)
    ensures DefaultFor("volume_24h_usd", data) == if PRICE in data then Mean(data[PRICE]) else 100.0
  {
    MissingChar("volume_24h_usd", "score", 'c');
    MissingChar("volume_24h_usd", "rsi", 'r');
    MissingChar("volume_24h_usd", "macd", 'a');
    NoRuleApplies("volume_24h_usd", data);
  }

  /** A column that names no score, RSI or MACD defaults to the mean price, or 100. */
  lemma NoRuleApplies(col: string, data: map<string, seq<real>>)
    requires !Contains(col, "score") && !Contains(col, "rsi") && !Contains(col, "macd")
    ensures DefaultFor(col, data) == if PRICE in data then Mean(data[PRICE]) else 100.0
  {
  }

  /**
   * The target column when the frame lacks one: the price's
   * `pct_change()` with the first value 0, or else the random draws.
   */
  function DerivedTarget(t: Table, noise: seq<real>): seq<real>
    requires Rectangular(t) && |noise| == t.rows
    requires PRICE in t.data ==> forall i :: 0 <= i < t.rows - 1 ==> t.data[PRICE][i] != 0.0
  {
    if PRICE in t.data then StepReturns(t.data[PRICE]) else noise
  }

  /** `df['price_return_1h'] = ...` unless the frame already has it. */
  function WithTarget(t: Table, noise: seq<real>): Table
    requires Rectangular(t) && |noise| == t.rows && PricesNonZero(t)
  {
    if TARGET in t.data then t else Table(t.rows, t.data[TARGET := DerivedTarget(t, noise)])
  }

  /** A derived return starts at 0 and then follows the price's relative changes. */
  lemma DerivedTargetFacts(t: Table, noise: seq<real>, i: nat)
    requires Rectangular(t) && |noise| == t.rows && TARGET !in t.data && PRICE in t.data
    requires forall k :: 0 <= k < t.rows - 1 ==> t.data[PRICE][k] != 0.0
    requires i < t.rows
    ensures var p := t.data[PRICE];
            var y := WithTarget(t, noise).data[TARGET];
            |y| == t.rows && y[0] == 0.0
            && (i > 0 ==> y[i] == (p[i] - p[i - 1]) / p[i - 1])
  {
  }

  /** The prices a derived return divides by are not zero. */
  predicate PricesNonZero(t: Table) {
    PRICE in t.data && TARGET !in t.data ==>
      forall i :: 0 <= i < |t.data[PRICE]| - 1 ==> t.data[PRICE][i] != 0.0
  }

  /** `df[feature_columns]` as rows of the schema's values. */
  function Matrix(t: Table, cols: seq<string>): (x: seq<seq<real>>)
    requires Rectangular(t) && forall c :: c in cols ==> c in t.data
    ensures |x| == t.rows && forall i :: 0 <= i < t.rows ==> |x[i]| == |cols|
  {
    seq(t.rows, i requires 0 <= i < t.rows => seq(|cols|, j requires 0 <= j < |cols| => t.data[cols[j]][i]))
  }

  /** A data frame that `prepare_features` adds columns to in place. */
  class Frame {
    var table: Table

    constructor (t: Table)
      ensures table == t
    {
      table := t;
    }

    /** The defaulting loop of `prepare_features` over the columns `cols`. */
    method FillMissing(cols: seq<string>)
      modifies this
      ensures table == WithDefaults(old(table), cols)
    {
      ghost var t0 := table;
      for k := 0 to |cols|
        invariant table == WithDefaults(t0, cols[..k])
      {
        assert cols[..k + 1][..k] == cols[..k];
        var col := cols[k];
        if col !in table.data {
          table := Table(table.rows, table.data[col := Repeat(DefaultFor(col, table.data), table.rows)]);
        }
      }
      assert cols[..|cols|] == cols;
    }

    /**
     * `prepare_features`: fills in the missing schema columns one by one,
     * then the missing target, and returns the schema's values row by row,
     * the target column and the schema.
     */
    method PrepareFeatures(noise: seq<real>) returns (x: seq<seq<real>>, y: seq<real>, cols: seq<string>)
      requires Rectangular(table) && |noise| == table.rows && PricesNonZero(table)
      modifies this
      ensures table == WithTarget(WithDefaults(old(table), FEATURE_COLUMNS), noise)
      ensures cols == FEATURE_COLUMNS
      ensures forall c :: c in FEATURE_COLUMNS ==> c in table.data
      ensures Rectangular(table) && table.rows == old(table.rows) && TARGET in table.data
      ensures x == Matrix(table, FEATURE_COLUMNS) && y == table.data[TARGET]
    {
      FillMissing(FEATURE_COLUMNS);
      SchemaLeavesPriceAndTarget();
      if TARGET !in table.data {
        table := Table(table.rows, table.data[TARGET := DerivedTarget(table, noise)]);
      }
      cols := FEATURE_COLUMNS;
      x := Matrix(table, FEATURE_COLUMNS);
      y := table.data[TARGET];
    }
  }

  /** The schema names neither the price nor the target column. */
  lemma SchemaLeavesPriceAndTarget()
    ensures PRICE !in FEATURE_COLUMNS && TARGET !in FEATURE_COLUMNS
  {
  }

  // ---------------------------------------------------------------------
  // Training

  /** What `train_model` records of a run besides the network and its losses. */
  datatype Metadata = Metadata(featureColumns: seq<string>, inputDim: nat,
                               trainingSamples: nat, validationSamples: nat)

  /** `train_model` refuses fewer rows than this. */
  const MIN_TRAINING_ROWS: nat := 10

  /**
   * `train_model`: none for fewer than ten rows; otherwise the prepared
   * rows split chronologically, the first `int(0.8 n)` for training.
   */
  method Train(database: Option<Table>, live: Table, noise: seq<real>)
    returns (r: Option<Metadata>, train: seq<seq<real>>, validation: seq<seq<real>>)
    requires Rectangular(Fetched(database, live)) && |noise| == Fetched(database, live).rows
    requires PricesNonZero(Fetched(database, live))
    ensures var n := Fetched(database, live).rows;
            (r.None? <==> n < MIN_TRAINING_ROWS)
            && (r.Some? ==> r.value == Metadata(FEATURE_COLUMNS, 7, SplitIndex(n), n - SplitIndex(n))
                            && |train| == SplitIndex(n) && |validation| == n - SplitIndex(n))
    ensures r.Some? ==>
              var x := Matrix(WithTarget(WithDefaults(Fetched(database, live), FEATURE_COLUMNS), noise), FEATURE_COLUMNS);
              train + validation == x && |train| == SplitIndex(|x|)
  {
    var t := Fetched(database, live);
    if t.rows < MIN_TRAINING_ROWS {
      return None, [], [];
    }
    var df := new Frame(t);
    var x, y, cols := df.PrepareFeatures(noise);
    train, validation := ChronoSplit(x).0, ChronoSplit(x).1;
    r := Some(Metadata(cols, |cols|, |train|, |validation|));
  }

  /**
   * The size check never rejects what the trainer fetches: the database
   * rows come in only when there are more than ten, and otherwise the
   * generated sample of a hundred rows does.
   */
  lemma FetchedIsLargeEnough(database: Option<Table>, live: Table)
    requires live.rows == LIVE_ROWS
    ensures Fetched(database, live).rows >= MIN_TRAINING_ROWS
    ensures Fetched(database, live).rows > MIN_DATABASE_ROWS
  {
  }
}
