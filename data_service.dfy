/**
 * `_combine_feature_data` of `services/dataService.py`: every prediction row
 * becomes one feature record, joined with the market row and the technical
 * row nearest in time when that one is at most an hour away, with fixed
 * defaults for fields no source supplies.
 */
module DataService {
  import opened Common

  /** A value of a feature: `None` for a null in the source record or a pandas NaN. */
  type Field = Option<real>

  /** A row of a table, with its timestamp in seconds and the fields its record holds, null ones included. */
  datatype Row = Row(timestamp: int, fields: map<string, Field>)

  /** The largest time difference that still joins: one hour, inclusive. */
  const MAX_GAP: int := 3600

  /** Some row of the frame has the column `key`. */
  predicate HasColumn(frame: seq<Row>, key: string) {
    frame != [] && (key in frame[0].fields || HasColumn(frame[1..], key))
  }

  lemma {:induction false} HasColumnIff(frame: seq<Row>, key: string)
    ensures HasColumn(frame, key) <==> exists k :: 0 <= k < |frame| && key in frame[k].fields
  {
    if frame != [] {
      HasColumnIff(frame[1..], key);
      assert forall k :: 1 <= k < |frame| ==> frame[k] == frame[1..][k - 1];
      if key in frame[0].fields {
        assert 0 < |frame| && key in frame[0].fields;
      }
    }
  }

  /**
   * `row.get(key, default)` on a row of a pandas frame: the row's value,
   * null or not; a missing value (NaN) when some other row of the frame has
   * the column; the default only when no row of the frame has it.
   */
  function FieldGet(frame: seq<Row>, row: Row, key: string, default: Field): (v: Field)
    ensures key in row.fields ==> v == row.fields[key]
    ensures key !in row.fields && HasColumn(frame, key) ==> v.None?
    ensures key !in row.fields && !HasColumn(frame, key) ==> v == default
  {
    if key in row.fields then row.fields[key]
    else if HasColumn(frame, key) then None
    else default
  }

  /** A column no row of the frame has comes in with the default. */
  lemma FieldGetDefault(frame: seq<Row>, row: Row, key: string, default: Field)
    requires forall k :: 0 <= k < |frame| ==> key !in frame[k].fields
    requires key !in row.fields
    ensures FieldGet(frame, row, key, default) == default
  {
    HasColumnIff(frame, key);
  }

  /** A column some row has but this one lacks comes in missing. */
  lemma FieldGetMissing(frame: seq<Row>, row: Row, key: string, default: Field, k: nat)
    requires k < |frame| && key in frame[k].fields && key !in row.fields
    ensures FieldGet(frame, row, key, default).None?
  {
    HasColumnIff(frame, key);
  }

  function Gap(a: int, b: int): nat {
    if a >= b then a - b else b - a
  }

  /** `abs(df['timestamp'] - t).idxmin()`: the first row at the smallest time difference. */
  function Nearest(frame: seq<Row>, t: int): (k: nat)
    requires |frame| > 0
    ensures k < |frame|
  {
    if |frame| == 1 then 0
    else
      var k' := Nearest(frame[1..], t);
      if Gap(frame[0].timestamp, t) <= Gap(frame[1 + k'].timestamp, t) then 0 else 1 + k'
  }

  /** No row is nearer than the chosen one, and every row before it is farther. */
  lemma {:induction false} NearestIsFirstMinimum(frame: seq<Row>, t: int)
    requires |frame| > 0
    ensures var k := Nearest(frame, t);
            (forall j :: 0 <= j < |frame| ==> Gap(frame[k].timestamp, t) <= Gap(frame[j].timestamp, t))
            && (forall j :: 0 <= j < k ==> Gap(frame[k].timestamp, t) < Gap(frame[j].timestamp, t))
  {
    if |frame| > 1 {
      NearestIsFirstMinimum(frame[1..], t);
      assert forall j :: 1 <= j < |frame| ==> frame[j] == frame[1..][j - 1];
    }
  }

  /** The joined row: the nearest one, when it is at most an hour away. */
  function Match(frame: seq<Row>, t: int): (m: Option<nat>)
    ensures m.Some? ==> m.value < |frame|
  {
    if |frame| == 0 then None
    else
      var k := Nearest(frame, t);
      if Gap(frame[k].timestamp, t) <= MAX_GAP then Some(k) else None
  }

  /** A row is joined iff some row lies within the hour, and then the first nearest one is. */
  lemma MatchWithinHour(frame: seq<Row>, t: int)
    ensures Match(frame, t).Some? <==> exists j :: 0 <= j < |frame| && Gap(frame[j].timestamp, t) <= MAX_GAP
    ensures Match(frame, t).Some? ==>
              var k := Match(frame, t).value;
              Gap(frame[k].timestamp, t) <= MAX_GAP
              && (forall j :: 0 <= j < |frame| ==> Gap(frame[k].timestamp, t) <= Gap(frame[j].timestamp, t))
              && (forall j :: 0 <= j < k ==> Gap(frame[k].timestamp, t) < Gap(frame[j].timestamp, t))
  {
    if |frame| > 0 {
      NearestIsFirstMinimum(frame, t);
    }
    if exists j :: 0 <= j < |frame| && Gap(frame[j].timestamp, t) <= MAX_GAP {
      var j :| 0 <= j < |frame| && Gap(frame[j].timestamp, t) <= MAX_GAP;
      var k := Nearest(frame, t);
      assert Gap(frame[k].timestamp, t) <= Gap(frame[j].timestamp, t);
    }
  }

  /** The feature record of one prediction row. */
  datatype Record = Record(
    timestamp: int,
    prediction: Field, confidence: Field, actualOutcome: Field,
    price: Field, volume: Field, marketCap: Field, high: Field, low: Field,
    rsi: Field, macd: Field, ema: Field, sma: Field, atr: Field,
    techScore: Field, socialScore: Field, fundScore: Field, astroScore: Field,
    galaxyScore: Field, altRank: Field, socialVolume: Field)

  /**
   * The market fields from the joined market row (without defaults), or
   * else from the prediction row with the market defaults; likewise the
   * technical fields; all other fields from the prediction row.
   */
  function Combine(preds: seq<Row>, market: seq<Row>, tech: seq<Row>, p: Row): Record {
    var m := Match(market, p.timestamp);
    var x := Match(tech, p.timestamp);
    Record(
      p.timestamp,
      FieldGet(preds, p, "prediction", Some(0.0)),
      FieldGet(preds, p, "confidence", Some(0.5)),
      FieldGet(preds, p, "actual_outcome", None),
      if m.Some? then FieldGet(market, market[m.value], "price", None) else FieldGet(preds, p, "price", Some(150.0)),
      if m.Some? then FieldGet(market, market[m.value], "volume", None) else FieldGet(preds, p, "volume", Some(20000000.0)),
      if m.Some? then FieldGet(market, market[m.value], "market_cap", None) else FieldGet(preds, p, "market_cap", Some(70000000000.0)),
      if m.Some? then FieldGet(market, market[m.value], "high", None) else FieldGet(preds, p, "high", Some(155.0)),
      if m.Some? then FieldGet(market, market[m.value], "low", None) else FieldGet(preds, p, "low", Some(145.0)),
      if x.Some? then FieldGet(tech, tech[x.value], "rsi", None) else FieldGet(preds, p, "rsi", Some(60.0)),
      if x.Some? then FieldGet(tech, tech[x.value], "macd", None) else FieldGet(preds, p, "macd", Some(0.5)),
      if x.Some? then FieldGet(tech, tech[x.value], "ema", None) else FieldGet(preds, p, "ema", Some(150.0)),
      if x.Some? then FieldGet(tech, tech[x.value], "sma", None) else FieldGet(preds, p, "sma", Some(148.0)),
      if x.Some? then FieldGet(tech, tech[x.value], "atr", None) else FieldGet(preds, p, "atr", Some(2.0)),
      FieldGet(preds, p, "tech_score", Some(35.0)),
      FieldGet(preds, p, "social_score", Some(32.0)),
      FieldGet(preds, p, "fund_score", Some(33.0)),
      FieldGet(preds, p, "astro_score", Some(60.0)),
      FieldGet(preds, p, "galaxy_score", Some(70.0)),
      FieldGet(preds, p, "alt_rank", Some(15.0)),
      FieldGet(preds, p, "social_volume", Some(8000.0)))
  }

  /** Builds the records one prediction row at a time. */
  method CombineFeatureData(preds: seq<Row>, market: seq<Row>, tech: seq<Row>) returns (out: seq<Record>)
    ensures |out| == |preds|
    ensures forall i :: 0 <= i < |preds| ==> out[i] == Combine(preds, market, tech, preds[i])
  {
    out := [];
    if |preds| == 0 {
      return;
    }
    for i := 0 to |preds|
      invariant |out| == i
      invariant forall k :: 0 <= k < i ==> out[k] == Combine(preds, market, tech, preds[k])
    {
      out := out + [Combine(preds, market, tech, preds[i])];
    }
  }

  /** No row of the predictions, and not `p` itself, has the column. */
  predicate Absent(preds: seq<Row>, p: Row, key: string) {
    key !in p.fields && forall k :: 0 <= k < |preds| ==> key !in preds[k].fields
  }

  /** Without a market row within the hour, each market field the predictions lack takes its default. */
  lemma MarketFallback(preds: seq<Row>, market: seq<Row>, tech: seq<Row>, p: Row)
    requires forall j :: 0 <= j < |market| ==> Gap(market[j].timestamp, p.timestamp) > MAX_GAP
    requires Absent(preds, p, "price") && Absent(preds, p, "volume") && Absent(preds, p, "market_cap")
    requires Absent(preds, p, "high") && Absent(preds, p, "low")
    ensures var r := Combine(preds, market, tech, p);
            r.price == Some(150.0) && r.volume == Some(20000000.0) && r.marketCap == Some(70000000000.0)
            && r.high == Some(155.0) && r.low == Some(145.0)
  {
    MatchWithinHour(market, p.timestamp);
    FieldGetDefault(preds, p, "price", Some(150.0));
    FieldGetDefault(preds, p, "volume", Some(20000000.0));
    FieldGetDefault(preds, p, "market_cap", Some(70000000000.0));
    FieldGetDefault(preds, p, "high", Some(155.0));
    FieldGetDefault(preds, p, "low", Some(145.0));
  }

  /** With a market row within the hour, the price is that row's, missing or not: no default applies. */
  lemma MarketJoined(preds: seq<Row>, market: seq<Row>, tech: seq<Row>, p: Row, j: nat)
    requires j < |market| && Gap(market[j].timestamp, p.timestamp) <= MAX_GAP
    ensures Match(market, p.timestamp).Some?
    ensures var k := Match(market, p.timestamp).value;
            Combine(preds, market, tech, p).price == FieldGet(market, market[k], "price", None)
            && ("price" !in market[k].fields ==> Combine(preds, market, tech, p).price.None?)
  {
    MatchWithinHour(market, p.timestamp);
  }

  /** Without a technical row within the hour, each technical field the predictions lack takes its default. */
  lemma TechnicalFallback(preds: seq<Row>, market: seq<Row>, tech: seq<Row>, p: Row)
    requires forall j :: 0 <= j < |tech| ==> Gap(tech[j].timestamp, p.timestamp) > MAX_GAP
    requires Absent(preds, p, "rsi") && Absent(preds, p, "macd") && Absent(preds, p, "ema")
    requires Absent(preds, p, "sma") && Absent(preds, p, "atr")
    ensures var r := Combine(preds, market, tech, p);
            r.rsi == Some(60.0) && r.macd == Some(0.5) && r.ema == Some(150.0)
            && r.sma == Some(148.0) && r.atr == Some(2.0)
  {
    MatchWithinHour(tech, p.timestamp);
    FieldGetDefault(preds, p, "rsi", Some(60.0));
    FieldGetDefault(preds, p, "macd", Some(0.5));
    FieldGetDefault(preds, p, "ema", Some(150.0));
    FieldGetDefault(preds, p, "sma", Some(148.0));
    FieldGetDefault(preds, p, "atr", Some(2.0));
  }

  /**
   * The pillar scores never come from the joined rows: they depend on the
   * predictions alone, whatever the market and technical tables hold.
   */
  lemma PillarsFromPredictions(preds: seq<Row>, market: seq<Row>, tech: seq<Row>,
                               market': seq<Row>, tech': seq<Row>, p: Row)
    ensures var a := Combine(preds, market, tech, p);
            var b := Combine(preds, market', tech', p);
            a.techScore == b.techScore && a.socialScore == b.socialScore
            && a.fundScore == b.fundScore && a.astroScore == b.astroScore
            && a.galaxyScore == b.galaxyScore && a.altRank == b.altRank
            && a.socialVolume == b.socialVolume && a.prediction == b.prediction
            && a.confidence == b.confidence && a.timestamp == b.timestamp
  {
  }

  /** With no other source, a bare prediction row gets the documented pillar and activity defaults. */
  lemma PredictionDefaults(p: Row)
    requires p.fields == map[]
    ensures var r := Combine([p], [], [], p);
            r.techScore == Some(35.0) && r.socialScore == Some(32.0) && r.fundScore == Some(33.0)
            && r.astroScore == Some(60.0) && r.galaxyScore == Some(70.0) && r.altRank == Some(15.0)
            && r.socialVolume == Some(8000.0) && r.prediction == Some(0.0) && r.confidence == Some(0.5)
            && r.actualOutcome.None? && r.price == Some(150.0) && r.volume == Some(20000000.0)
            && r.marketCap == Some(70000000000.0) && r.high == Some(155.0) && r.low == Some(145.0)
            && r.rsi == Some(60.0) && r.macd == Some(0.5) && r.ema == Some(150.0) && r.sma == Some(148.0)
            && r.atr == Some(2.0)
  {
    var r := Combine([p], [], [], p);
    assert Match([], p.timestamp).None?;
    BareRowDefault(p, "tech_score", Some(35.0));
    BareRowDefault(p, "social_score", Some(32.0));
    BareRowDefault(p, "fund_score", Some(33.0));
    BareRowDefault(p, "astro_score", Some(60.0));
    BareRowDefault(p, "galaxy_score", Some(70.0));
    BareRowDefault(p, "alt_rank", Some(15.0));
    BareRowDefault(p, "social_volume", Some(8000.0));
    BareRowDefault(p, "prediction", Some(0.0));
    BareRowDefault(p, "confidence", Some(0.5));
    BareRowDefault(p, "actual_outcome", None);
    BareRowDefault(p, "price", Some(150.0));
    BareRowDefault(p, "volume", Some(20000000.0));
    BareRowDefault(p, "market_cap", Some(70000000000.0));
    BareRowDefault(p, "high", Some(155.0));
    BareRowDefault(p, "low", Some(145.0));
    BareRowDefault(p, "rsi", Some(60.0));
    BareRowDefault(p, "atr", Some(2.0));
    BareRowDefault(p, "macd", Some(0.5));
    BareRowDefault(p, "ema", Some(150.0));
    BareRowDefault(p, "sma", Some(148.0));
  }

  /** A lone row without fields gets every default. */
  lemma BareRowDefault(p: Row, key: string, default: Field)
    requires p.fields == map[]
    ensures FieldGet([p], p, key, default) == default
  {
    assert [p][1..] == [];
    assert !HasColumn([p][1..], key);
    assert key !in [p][0].fields;
  }
}
