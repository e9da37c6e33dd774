/**
 * Shared vocabulary for the prediction-engine model: optional values, the
 * string tests the feature-name rules use, sums and means over reals, the
 * stable descending sort behind every "sorted by importance" query, the
 * first-maximum index (numpy's argmax) and the lagged copies of a series.
 */
module Common {

  datatype Option<T> = None | Some(value: T) {
    function GetOr(default: T): T {
      match this
      case Some(v) => v
      case None => default
    }
  }

  /** An operation that either returns a value or raises with a message. */
  datatype Result<T> = Ok(value: T) | Err(msg: string)

  function Min(a: int, b: int): int { if a <= b then a else b }
  function Max(a: int, b: int): int { if a >= b then a else b }

  /** Python's `d.get(key, default)` on a name -> value dictionary. */
  function Get(d: map<string, real>, key: string, default: real): (r: real)
    ensures key in d ==> r == d[key]
    ensures key !in d ==> r == default
  {
    if key in d then d[key] else default
  }

  /** The four pillar score columns, in the order the services list them. */
  const PILLARS: seq<string> := ["tech_score", "social_score", "fund_score", "astro_score"]

  /** Assigning a new column to a data frame: appended unless already present. */
  function AddColumn(cols: seq<string>, c: string): (r: seq<string>)
    ensures c in r
    ensures |r| == if c in cols then |cols| else |cols| + 1
    ensures r[..|cols|] == cols
  {
    if c in cols then cols else cols + [c]
  }

  /** Assigning several new columns, left to right. */
  function AddColumns(cols: seq<string>, cs: seq<string>): (r: seq<string>)
    ensures |cols| <= |r| && r[..|cols|] == cols
    decreases |cs|, cols
  {
    if cs == [] then cols else AddColumns(AddColumn(cols, cs[0]), cs[1..])
  }

  /** Assigning columns adds exactly those columns, and drops none. */
  lemma {:induction false} AddColumnsMembers(cols: seq<string>, cs: seq<string>, x: string)
    ensures x in AddColumns(cols, cs) <==> x in cols || x in cs
    decreases |cs|
  {
    if cs != [] {
      AddColumnsMembers(AddColumn(cols, cs[0]), cs[1..], x);
      assert cs == [cs[0]] + cs[1..];
    }
  }

  /** A block of assignments under an `if`. */
  function AddIf(cond: bool, cols: seq<string>, cs: seq<string>): (r: seq<string>)
    ensures |cols| <= |r| && r[..|cols|] == cols
  {
    if cond then AddColumns(cols, cs) else cols
  }

  lemma AddIfMembers(cond: bool, cols: seq<string>, cs: seq<string>, x: string)
    ensures x in AddIf(cond, cols, cs) <==> x in cols || (cond && x in cs)
  {
    if cond {
      AddColumnsMembers(cols, cs, x);
    }
  }

  /** `[c for c in cols if c not in excluded]`. */
  function Without(cols: seq<string>, excluded: set<string>): (r: seq<string>)
    ensures forall c :: c in r <==> c in cols && c !in excluded
    ensures |r| <= |cols|
  {
    if cols == [] then []
    else (if cols[0] in excluded then [] else [cols[0]]) + Without(cols[1..], excluded)
  }

  /** Dropping a column appended to a schema that lacks it gives the schema back. */
  lemma {:induction false} WithoutAppended(cols: seq<string>, x: string)
    requires x !in cols
    ensures Without(cols + [x], {x}) == cols
  {
    if cols != [] {
      assert (cols + [x])[1..] == cols[1..] + [x];
      WithoutAppended(cols[1..], x);
    } else {
      assert [x][1..] == [];
    }
  }

  /** Python's `s.startswith(prefix)`. */
  predicate StartsWith(s: string, prefix: string) {
    |prefix| <= |s| && s[..|prefix|] == prefix
  }

  predicate SubstringAt(s: string, sub: string, i: nat) {
    i + |sub| <= |s| && s[i..i + |sub|] == sub
  }

  /** Python's `sub in s` on strings. */
  predicate Contains(s: string, sub: string) {
    exists i | 0 <= i <= |s| :: SubstringAt(s, sub, i)
  }

  lemma PrefixIsContained(s: string, prefix: string)
    requires StartsWith(s, prefix)
    ensures Contains(s, prefix)
  {
    assert SubstringAt(s, prefix, 0);
  }

  /** A text that lacks one of `sub`'s characters does not contain `sub`. */
  lemma MissingChar(s: string, sub: string, c: char)
    requires c in sub && c !in s
    ensures !Contains(s, sub)
  {
    var k :| 0 <= k < |sub| && sub[k] == c;
    forall i | 0 <= i <= |s| ensures !SubstringAt(s, sub, i) {
      if i + |sub| <= |s| {
        assert s[i..i + |sub|][k] == s[i + k];
      }
    }
  }

  lemma TooShort(s: string, sub: string)
    requires |s| < |sub|
    ensures !Contains(s, sub)
  {
  }

  /** No occurrence can start where characters `k` and `k + 1` of `sub` do not follow each other. */
  lemma PairNowhere(s: string, sub: string, k: nat)
    requires k + 1 < |sub|
    requires forall j :: k <= j && j + |sub| - k <= |s| ==> s[j] != sub[k] || s[j + 1] != sub[k + 1]
    ensures !Contains(s, sub)
  {
    forall i | 0 <= i <= |s| ensures !SubstringAt(s, sub, i) {
      if i + |sub| <= |s| {
        assert s[i..i + |sub|][k] == s[i + k] && s[i..i + |sub|][k + 1] == s[i + k + 1];
        assert s[i + k] != sub[k] || s[i + k + 1] != sub[k + 1];
      }
    }
  }

  // ---------------------------------------------------------------------
  // Sums and means

  function Sum(s: seq<real>): real {
    if s == [] then 0.0 else Sum(s[..|s| - 1]) + s[|s| - 1]
  }

  lemma {:induction false} SumAppend(a: seq<real>, b: seq<real>)
    ensures Sum(a + b) == Sum(a) + Sum(b)
  {
    if b != [] {
      assert (a + b)[..|a + b| - 1] == a + b[..|b| - 1];
      SumAppend(a, b[..|b| - 1]);
    } else {
      assert a + b == a;
    }
  }

  lemma {:induction false} SumNonNegative(s: seq<real>)
    requires forall i :: 0 <= i < |s| ==> s[i] >= 0.0
    ensures Sum(s) >= 0.0
  {
    if s != [] {
      SumNonNegative(s[..|s| - 1]);
    }
  }

  /** numpy's mean; the mean of no values is taken to be 0. */
  function Mean(s: seq<real>): real {
    if |s| == 0 then 0.0 else Sum(s) / (|s| as real)
  }

  lemma MeanNonNegative(s: seq<real>)
    requires forall i :: 0 <= i < |s| ==> s[i] >= 0.0
    ensures Mean(s) >= 0.0
  {
    SumNonNegative(s);
  }

  lemma Mean4(a: real, b: real, c: real, d: real)
    ensures Mean([a, b, c, d]) == (a + b + c + d) / 4.0
  {
    assert [a, b, c, d][..3] == [a, b, c];
    assert [a, b, c][..2] == [a, b];
    assert [a, b][..1] == [a];
    assert [a][..0] == [];
    assert Sum([a]) == a;
    assert Sum([a, b]) == a + b;
    assert Sum([a, b, c]) == a + b + c;
    assert Sum([a, b, c, d]) == a + b + c + d;
  }

  /**
   * A float quotient as numpy computes it: x/0 is an infinity of the sign
   * of x, and 0/0 is NaN.
   */
  datatype Change = Finite(x: real) | PosInf | NegInf | NaN

  /** `(future - price) / price`, the relative change to the next price. */
  function ChangePct(price: real, future: real): (c: Change)
    ensures price != 0.0 ==> c == Finite((future - price) / price)
    ensures price == 0.0 ==> (c.PosInf? <==> future > 0.0) && (c.NegInf? <==> future < 0.0)
                             && (c.NaN? <==> future == 0.0)
  {
    if price != 0.0 then Finite((future - price) / price)
    else if future > 0.0 then PosInf
    else if future < 0.0 then NegInf
    else NaN
  }

  /** A finite change recovers the future price from the current one: `price * (1 + c) == future`. */
  lemma ChangePctRoundTrip(price: real, future: real)
    requires price != 0.0
    ensures ChangePct(price, future).Finite? && price * (1.0 + ChangePct(price, future).x) == future
  {
    var c := (future - price) / price;
    assert price * c == future - price;
  }

  /** For a positive price the change is positive, negative or zero exactly when the price rises, falls or stays. */
  lemma ChangePctSign(price: real, future: real)
    requires price > 0.0
    ensures ChangePct(price, future).x > 0.0 <==> future > price
    ensures ChangePct(price, future).x < 0.0 <==> future < price
    ensures ChangePct(price, future).x == 0.0 <==> future == price
  {
    var c := (future - price) / price;
    assert price * c == future - price;
    if future > price {
      PositiveQuotient(future - price, price);
    } else if future < price {
      PositiveQuotient(price - future, price);
      assert c == -((price - future) / price);
    }
  }

  lemma PositiveQuotient(a: real, b: real)
    requires a > 0.0 && b > 0.0
    ensures a / b > 0.0
  {
  }

  /** `int(b)` of a boolean, as `astype(int)` gives it. */
  function Flag(b: bool): nat {
    if b then 1 else 0
  }

  function Abs(x: real): real { if x < 0.0 then -x else x }

  /** max(lo, min(hi, x)), the clamp the tuners apply to their scores. */
  function Clamp(x: real, lo: real, hi: real): (r: real)
    requires lo <= hi
    ensures lo <= r <= hi
    ensures lo <= x <= hi ==> r == x
  {
    if x < lo then lo else if x > hi then hi else x
  }

  // ---------------------------------------------------------------------
  // Chronological splits

  /** `int(n * 0.8)`: the floor of four fifths of `n`. */
  function SplitIndex(n: nat): (k: nat)
    ensures 5 * k <= 4 * n < 5 * k + 5
  {
    (4 * n) / 5
  }

  /** `rows[:k], rows[k:]` with `k = int(0.8 * len(rows))`. */
  function ChronoSplit<T>(rows: seq<T>): (r: (seq<T>, seq<T>))
    ensures r.0 + r.1 == rows
    ensures |r.0| == SplitIndex(|rows|)
  {
    var k := SplitIndex(|rows|);
    (rows[..k], rows[k..])
  }

  /**
   * The test part `train_test_split` holds out with `test_size=0.2`: a
   * fifth of the rows, rounded up.
   */
  function HeldOutFifth(n: nat): (t: nat)
    ensures 5 * t >= n > 5 * t - 5
    ensures t <= n
  {
    (n + 4) / 5
  }

  /** The same with `test_size=0.25`: a quarter of the rows, rounded up. */
  function HeldOutQuarter(n: nat): (t: nat)
    ensures 4 * t >= n > 4 * t - 4
    ensures t <= n
  {
    (n + 3) / 4
  }

  // ---------------------------------------------------------------------
  // Maximum and first index of the maximum (numpy's max and argmax)

  /** Every entry is a probability. */
  predicate IsProbVector(p: seq<real>) {
    forall i :: 0 <= i < |p| ==> 0.0 <= p[i] <= 1.0
  }

  function MaxOf(p: seq<real>): (m: real)
    requires |p| > 0
    ensures forall j :: 0 <= j < |p| ==> p[j] <= m
    ensures exists j :: 0 <= j < |p| && p[j] == m
  {
    if |p| == 1 then p[0]
    else
      var rest := MaxOf(p[1..]);
      assert forall j :: 1 <= j < |p| ==> p[j] == p[1..][j - 1];
      if p[0] >= rest then p[0] else rest
  }

  /** The first index at which `p` takes its maximum. */
  function ArgMax(p: seq<real>): (k: nat)
    requires |p| > 0
    ensures k < |p|
    ensures forall j :: 0 <= j < |p| ==> p[j] <= p[k]
    ensures forall j :: 0 <= j < k ==> p[j] < p[k]
  {
    if |p| == 1 then 0
    else
      var k' := ArgMax(p[1..]);
      assert forall j :: 1 <= j < |p| ==> p[j] == p[1..][j - 1];
      if p[0] >= p[1..][k'] then 0 else k' + 1
  }

  // ---------------------------------------------------------------------
  // Lagged copies of a series that keep its length

  /** `concatenate([[s[0]], s[:-1]])`. */
  function LagOne<T>(s: seq<T>): seq<T>
    requires |s| > 0
  {
    [s[0]] + s[..|s| - 1]
  }

  /** `concatenate([s[:3], s[:-3]])`. */
  function LagThree<T>(s: seq<T>): seq<T> {
    s[..Min(3, |s|)] + s[..Max(0, |s| - 3)]
  }

  lemma LagOneAt<T>(s: seq<T>, i: nat)
    requires 0 < |s| && i < |s|
    ensures |LagOne(s)| == |s|
    ensures LagOne(s)[i] == if i == 0 then s[0] else s[i - 1]
  {
  }

  lemma LagThreeAt<T>(s: seq<T>, i: nat)
    requires i < |s|
    ensures |LagThree(s)| == |s|
    ensures LagThree(s)[i] == if i < 3 then s[i] else s[i - 3]
  {
  }

  // ---------------------------------------------------------------------
  // Stable sort by descending score (Python's `sorted(..., key=score,
  // reverse=True)`, which keeps equal scores in their input order)

  predicate SortedDesc<T>(s: seq<(T, real)>) {
    forall i, j :: 0 <= i < j < |s| ==> s[i].1 >= s[j].1
  }

  /** Inserts `x` after every element whose score is at least its own. */
  function InsertDesc<T>(x: (T, real), s: seq<(T, real)>): seq<(T, real)> {
    if s == [] then [x]
    else if s[0].1 >= x.1 then [s[0]] + InsertDesc(x, s[1..])
    else [x] + s
  }

  function SortDesc<T>(s: seq<(T, real)>): seq<(T, real)> {
    if s == [] then [] else InsertDesc(s[|s| - 1], SortDesc(s[..|s| - 1]))
  }

  /** The elements of `s` whose score is `v`, in order. */
  function WithScore<T>(s: seq<(T, real)>, v: real): seq<(T, real)> {
    if s == [] then []
    else (if s[0].1 == v then [s[0]] else []) + WithScore(s[1..], v)
  }

  lemma {:induction false} InsertDescFacts<T>(x: (T, real), s: seq<(T, real)>)
    requires SortedDesc(s)
    ensures SortedDesc(InsertDesc(x, s))
    ensures multiset(InsertDesc(x, s)) == multiset(s) + multiset{x}
    ensures |InsertDesc(x, s)| == |s| + 1
    ensures forall v :: WithScore(InsertDesc(x, s), v)
                        == WithScore(s, v) + (if x.1 == v then [x] else [])
  {
    InsertDescMultiset(x, s);
    InsertDescSorted(x, s);
    forall v ensures WithScore(InsertDesc(x, s), v)
                     == WithScore(s, v) + (if x.1 == v then [x] else []) {
      InsertDescWithScore(x, s, v);
    }
  }

  lemma {:induction false} InsertDescMultiset<T>(x: (T, real), s: seq<(T, real)>)
    ensures multiset(InsertDesc(x, s)) == multiset(s) + multiset{x}
    ensures |InsertDesc(x, s)| == |s| + 1
    ensures s != [] && s[0].1 >= x.1 ==> InsertDesc(x, s)[0] == s[0]
  {
    if s == [] {
      assert InsertDesc(x, s) == [x];
    } else if s[0].1 >= x.1 {
      var r := InsertDesc(x, s[1..]);
      InsertDescMultiset(x, s[1..]);
      assert InsertDesc(x, s) == [s[0]] + r;
      assert s == [s[0]] + s[1..];
      assert multiset([s[0]] + r) == multiset([s[0]]) + multiset(r);
      assert multiset(s) == multiset([s[0]]) + multiset(s[1..]);
    } else {
      assert InsertDesc(x, s) == [x] + s;
    }
  }

  lemma {:induction false} InsertDescSorted<T>(x: (T, real), s: seq<(T, real)>)
    requires SortedDesc(s)
    ensures SortedDesc(InsertDesc(x, s))
  {
    if s != [] && s[0].1 >= x.1 {
      var t := s[1..];
      assert SortedDesc(t);
      InsertDescSorted(x, t);
      InsertDescBounded(x, t, s[0].1);
      assert InsertDesc(x, s) == [s[0]] + InsertDesc(x, t);
    }
  }

  /** Inserting below a bound keeps every score below it. */
  lemma {:induction false} InsertDescBounded<T>(x: (T, real), s: seq<(T, real)>, b: real)
    requires x.1 <= b && forall k :: 0 <= k < |s| ==> s[k].1 <= b
    ensures forall k :: 0 <= k < |InsertDesc(x, s)| ==> InsertDesc(x, s)[k].1 <= b
  {
    if s != [] && s[0].1 >= x.1 {
      InsertDescBounded(x, s[1..], b);
      assert InsertDesc(x, s) == [s[0]] + InsertDesc(x, s[1..]);
    }
  }

  lemma {:induction false} InsertDescWithScore<T>(x: (T, real), s: seq<(T, real)>, v: real)
    requires SortedDesc(s)
    ensures WithScore(InsertDesc(x, s), v) == WithScore(s, v) + (if x.1 == v then [x] else [])
  {
    var fx := if x.1 == v then [x] else [];
    if s == [] {
      WithScoreCons(x, [], v);
      assert [x] + [] == [x];
    } else if s[0].1 >= x.1 {
      var t := s[1..];
      var h := if s[0].1 == v then [s[0]] else [];
      assert SortedDesc(t);
      InsertDescWithScore(x, t, v);
      var r := InsertDesc(x, t);
      assert InsertDesc(x, s) == [s[0]] + r;
      assert s == [s[0]] + t;
      WithScoreCons(s[0], r, v);
      WithScoreCons(s[0], t, v);
      assert h + (WithScore(t, v) + fx) == (h + WithScore(t, v)) + fx;
    } else {
      assert InsertDesc(x, s) == [x] + s;
      WithScoreCons(x, s, v);
      if x.1 == v {
        WithScoreBelow(s, v);
        assert fx + [] == [] + fx;
      } else {
        assert [] + WithScore(s, v) == WithScore(s, v) + [];
      }
    }
  }

  lemma WithScoreCons<T>(y: (T, real), r: seq<(T, real)>, v: real)
    ensures WithScore([y] + r, v) == (if y.1 == v then [y] else []) + WithScore(r, v)
  {
    assert ([y] + r)[0] == y;
    assert ([y] + r)[1..] == r;
  }

  /** No element of a descending sequence whose head is below `v` scores `v`. */
  lemma {:induction false} WithScoreBelow<T>(s: seq<(T, real)>, v: real)
    requires SortedDesc(s) && s != [] && s[0].1 < v
    ensures WithScore(s, v) == []
  {
    if |s| > 1 {
      assert SortedDesc(s[1..]);
      WithScoreBelow(s[1..], v);
    }
  }

  lemma {:induction false} WithScoreAppend<T>(a: seq<(T, real)>, b: seq<(T, real)>, v: real)
    ensures WithScore(a + b, v) == WithScore(a, v) + WithScore(b, v)
  {
    if a != [] {
      assert (a + b)[1..] == a[1..] + b;
      WithScoreAppend(a[1..], b, v);
    } else {
      assert a + b == b;
    }
  }

  /**
   * The sort returns a permutation of its input, ordered by descending
   * score, in which equally scored elements keep their input order.
   */
  lemma {:induction false} SortDescCorrect<T>(s: seq<(T, real)>)
    ensures SortedDesc(SortDesc(s))
    ensures multiset(SortDesc(s)) == multiset(s)
    ensures |SortDesc(s)| == |s|
    ensures forall v :: WithScore(SortDesc(s), v) == WithScore(s, v)
  {
    if s != [] {
      var init, last := s[..|s| - 1], s[|s| - 1];
      SortDescCorrect(init);
      InsertDescFacts(last, SortDesc(init));
      assert s == init + [last];
      forall v ensures WithScore(SortDesc(s), v) == WithScore(s, v) {
        WithScoreAppend(init, [last], v);
      }
    }
  }

  /** The first `k` entries of the descending sort (`sorted(...)[:k]`). */
  function TopK<T>(s: seq<(T, real)>, k: nat): seq<(T, real)> {
    SortDesc(s)[..Min(k, |SortDesc(s)|)]
  }

  lemma TopKCorrect<T>(s: seq<(T, real)>, k: nat)
    ensures |TopK(s, k)| == Min(k, |s|)
    ensures SortedDesc(TopK(s, k))
    ensures multiset(TopK(s, k)) <= multiset(s)
    ensures forall i, j :: 0 <= i < |TopK(s, k)| && 0 <= j < |s| && s[j] !in TopK(s, k)
              ==> TopK(s, k)[i].1 >= s[j].1
  {
    SortDescCorrect(s);
    var t := SortDesc(s);
    var m := Min(k, |t|);
    var top := t[..m];
    assert TopK(s, k) == top;
    PrefixMultiset(t, m);
    forall j | 0 <= j < |s| && s[j] !in top ensures forall i :: 0 <= i < m ==> top[i].1 >= s[j].1 {
      assert s[j] in multiset(t);
      LeftOutScoresLower(t, m, s[j]);
    }
  }

  lemma PrefixMultiset<T>(t: seq<T>, m: nat)
    requires m <= |t|
    ensures multiset(t[..m]) <= multiset(t)
  {
    assert t == t[..m] + t[m..];
  }

  /** In a descending sequence, an element outside the first `m` scores no higher than any of them. */
  lemma LeftOutScoresLower<T>(t: seq<(T, real)>, m: nat, x: (T, real))
    requires SortedDesc(t) && m <= |t| && x in t && x !in t[..m]
    ensures forall i :: 0 <= i < m ==> t[..m][i].1 >= x.1
  {
    var q :| 0 <= q < |t| && t[q] == x;
    assert forall i :: 0 <= i < m ==> t[..m][i] == t[i];
    assert forall i :: 0 <= i < m ==> t[i] != x;
    assert q >= m;
  }

  /** Pairs names with scores, truncating to the shorter list (Python's zip). */
  function Zip<A, B>(a: seq<A>, b: seq<B>): (r: seq<(A, B)>)
    ensures |r| == Min(|a|, |b|)
    ensures forall i :: 0 <= i < |r| ==> r[i] == (a[i], b[i])
  {
    if a == [] || b == [] then [] else [(a[0], b[0])] + Zip(a[1..], b[1..])
  }

  /** The first components of a list of pairs: the keys of a dict's items, a study's values. */
  function Firsts<A, B>(s: seq<(A, B)>): (r: seq<A>)
    ensures |r| == |s| && forall i :: 0 <= i < |s| ==> r[i] == s[i].0
  {
    seq(|s|, i requires 0 <= i < |s| => s[i].0)
  }

  /** The second components of a list of pairs. */
  function Seconds<A, B>(s: seq<(A, B)>): (r: seq<B>)
    ensures |r| == |s| && forall i :: 0 <= i < |s| ==> r[i] == s[i].1
  {
    seq(|s|, i requires 0 <= i < |s| => s[i].1)
  }

  lemma FirstsSnoc<A, B>(s: seq<(A, B)>, x: (A, B))
    ensures Firsts(s + [x]) == Firsts(s) + [x.0]
  {
  }

  lemma SecondsSnoc<A, B>(s: seq<(A, B)>, x: (A, B))
    ensures Seconds(s + [x]) == Seconds(s) + [x.1]
  {
  }

  /** `f` applied to two lists of equal length, element by element. */
  function Pointwise<A, B, C>(f: (A, B) -> C, xs: seq<A>, ys: seq<B>): (r: seq<C>)
    requires |xs| == |ys|
    ensures |r| == |xs| && forall i :: 0 <= i < |xs| ==> r[i] == f(xs[i], ys[i])
  {
    seq(|xs|, i requires 0 <= i < |xs| => f(xs[i], ys[i]))
  }

  lemma PointwiseSnoc<A, B, C>(f: (A, B) -> C, xs: seq<A>, ys: seq<B>, x: A, y: B)
    requires |xs| == |ys|
    ensures Pointwise(f, xs + [x], ys + [y]) == Pointwise(f, xs, ys) + [f(x, y)]
  {
  }
}
