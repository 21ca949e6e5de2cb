/** `compare_data` and the verdict drawn from its count. */
module Similarity {
  import opened Failures
  import opened Stats
  import opened WeatherCodes
  import opened Series

  /** How a criterion reduces a column to one number. */
  datatype Aggregate = Total | Highest | Lowest

  /** One comparison between two series: a column statistic whose absolute
      difference must stay strictly below a bound, or a day count that must
      match exactly. */
  datatype Criterion =
    | Within(column: Column, aggregate: Aggregate, bound: real)
    | SameCount(category: Named)

  /** The twelve criteria of `compare_data`, in its order. The temperature,
      precipitation and wind-total criteria compare column SUMS, not means;
      rainy days are not compared. */
  const Criteria: seq<Criterion> := [
    Within(TempMax, Total, 10.0),
    Within(TempMin, Total, 10.0),
    Within(TempMax, Highest, 10.0),
    Within(TempMin, Lowest, 10.0),
    Within(Precip, Total, 10.0),
    Within(WindMax, Total, 5.0),
    Within(WindMax, Highest, 5.0),
    SameCount(Clear),
    SameCount(Foggy),
    SameCount(Cloudy),
    SameCount(Snowy),
    SameCount(Stormy)
  ]

  /** The number of criteria: the most a comparison can score. */
  const MaxScore: nat := |Criteria|

  /** A count at or above this is reported as similar weather. */
  const SimilarAt: int := 10

  /** The denominator the dissimilar message prints after the count (see
      PrintedDenominatorUnreachable). */
  const PrintedDenominator: int := 13

  function Statistic(data: seq<DailyRecord>, column: Column, aggregate: Aggregate): real
    requires |data| > 0
  {
    match aggregate
    case Total => Sum(Col(data, column))
    case Highest => Max(Col(data, column))
    case Lowest => Min(Col(data, column))
  }

  /** Whether series `a` and `b` agree on criterion `c`. */
  predicate Passes(c: Criterion, a: seq<DailyRecord>, b: seq<DailyRecord>)
    requires |a| > 0 && |b| > 0
  {
    match c
    case Within(column, aggregate, bound) =>
      Abs(Statistic(a, column, aggregate) - Statistic(b, column, aggregate)) < bound
    case SameCount(k) =>
      CountIn(Codes(a), Listed(k)) == CountIn(Codes(b), Listed(k))
  }

  /** The outcome of every criterion, in order. */
  function Outcomes(a: seq<DailyRecord>, b: seq<DailyRecord>): seq<bool>
    requires |a| > 0 && |b| > 0
  {
    seq(|Criteria|, i requires 0 <= i < |Criteria| => Passes(Criteria[i], a, b))
  }

  /** How many of the outcomes `bs[lo..hi]` equal `v`. */
  function Count(bs: seq<bool>, v: bool, lo: nat, hi: nat): (n: nat)
    requires lo <= hi <= |bs|
    ensures n <= hi - lo
    decreases hi
  {
    if hi == lo then 0 else Count(bs, v, lo, hi - 1) + (if bs[hi - 1] == v then 1 else 0)
  }

  /** Counting a range in two parts. */
  lemma {:induction false} CountSplit(bs: seq<bool>, v: bool, lo: nat, mid: nat, hi: nat)
    requires lo <= mid <= hi <= |bs|
    ensures Count(bs, v, lo, hi) == Count(bs, v, lo, mid) + Count(bs, v, mid, hi)
    decreases hi
  {
    if hi > mid {
      CountSplit(bs, v, lo, mid, hi - 1);
    }
  }

  /** Every outcome in a range is a pass or a miss. */
  lemma {:induction false} PassesAndMisses(bs: seq<bool>, lo: nat, hi: nat)
    requires lo <= hi <= |bs|
    ensures Count(bs, true, lo, hi) + Count(bs, false, lo, hi) == hi - lo
    decreases hi
  {
    if hi > lo {
      PassesAndMisses(bs, lo, hi - 1);
    }
  }

  /** The count of a range is full exactly when every outcome in it is `v`. */
  lemma {:induction false} CountFull(bs: seq<bool>, v: bool, lo: nat, hi: nat)
    requires lo <= hi <= |bs|
    ensures Count(bs, v, lo, hi) == hi - lo <==> forall i :: lo <= i < hi ==> bs[i] == v
    decreases hi
  {
    if hi > lo {
      CountFull(bs, v, lo, hi - 1);
    }
  }

  /** The similarity count of two non-empty series: a number from 0 to 12,
      12 exactly when every criterion holds and 0 exactly when none does. */
  function Score(a: seq<DailyRecord>, b: seq<DailyRecord>): (s: nat)
    requires |a| > 0 && |b| > 0
    ensures s <= MaxScore
    ensures s == MaxScore <==> forall i :: 0 <= i < |Criteria| ==> Passes(Criteria[i], a, b)
    ensures s == 0 <==> forall i :: 0 <= i < |Criteria| ==> !Passes(Criteria[i], a, b)
  {
    var bs := Outcomes(a, b);
    assert forall i :: 0 <= i < |Criteria| ==> bs[i] == Passes(Criteria[i], a, b);
    CountFull(bs, true, 0, |bs|);
    CountFull(bs, false, 0, |bs|);
    PassesAndMisses(bs, 0, |bs|);
    Count(bs, true, 0, |bs|)
  }

  /** How many criteria the two series fail. */
  function Misses(a: seq<DailyRecord>, b: seq<DailyRecord>): nat
    requires |a| > 0 && |b| > 0
  {
    Count(Outcomes(a, b), false, 0, |Criteria|)
  }

  /** The seven magnitude criteria, spelled out. */
  lemma {:induction false} MeasuredOutcomes(a: seq<DailyRecord>, b: seq<DailyRecord>)
    requires |a| > 0 && |b| > 0
    ensures Outcomes(a, b)[0] == (Abs(Sum(Col(a, TempMax)) - Sum(Col(b, TempMax))) < 10.0)
    ensures Outcomes(a, b)[1] == (Abs(Sum(Col(a, TempMin)) - Sum(Col(b, TempMin))) < 10.0)
    ensures Outcomes(a, b)[2] == (Abs(Max(Col(a, TempMax)) - Max(Col(b, TempMax))) < 10.0)
    ensures Outcomes(a, b)[3] == (Abs(Min(Col(a, TempMin)) - Min(Col(b, TempMin))) < 10.0)
    ensures Outcomes(a, b)[4] == (Abs(Sum(Col(a, Precip)) - Sum(Col(b, Precip))) < 10.0)
    ensures Outcomes(a, b)[5] == (Abs(Sum(Col(a, WindMax)) - Sum(Col(b, WindMax))) < 5.0)
    ensures Outcomes(a, b)[6] == (Abs(Max(Col(a, WindMax)) - Max(Col(b, WindMax))) < 5.0)
  {
    var bs := Outcomes(a, b);
    assert bs[0] == Passes(Criteria[0], a, b);
    assert bs[1] == Passes(Criteria[1], a, b);
    assert bs[2] == Passes(Criteria[2], a, b);
    assert bs[3] == Passes(Criteria[3], a, b);
    assert bs[4] == Passes(Criteria[4], a, b);
    assert bs[5] == Passes(Criteria[5], a, b);
    assert bs[6] == Passes(Criteria[6], a, b);
  }

  /** The five day-count criteria, spelled out. */
  lemma {:induction false} CountedOutcomes(a: seq<DailyRecord>, b: seq<DailyRecord>)
    requires |a| > 0 && |b| > 0
    ensures Outcomes(a, b)[7] == (IntAbs(CountIn(Codes(a), ClearCodes) - CountIn(Codes(b), ClearCodes)) == 0)
    ensures Outcomes(a, b)[8] == (IntAbs(CountIn(Codes(a), FoggyCodes) - CountIn(Codes(b), FoggyCodes)) == 0)
    ensures Outcomes(a, b)[9] == (IntAbs(CountIn(Codes(a), CloudyCodes) - CountIn(Codes(b), CloudyCodes)) == 0)
    ensures Outcomes(a, b)[10] == (IntAbs(CountIn(Codes(a), SnowyCodes) - CountIn(Codes(b), SnowyCodes)) == 0)
    ensures Outcomes(a, b)[11] == (IntAbs(CountIn(Codes(a), StormyCodes) - CountIn(Codes(b), StormyCodes)) == 0)
  {
    var bs := Outcomes(a, b);
    assert bs[7] == Passes(Criteria[7], a, b);
    assert bs[8] == Passes(Criteria[8], a, b);
    assert bs[9] == Passes(Criteria[9], a, b);
    assert bs[10] == Passes(Criteria[10], a, b);
    assert bs[11] == Passes(Criteria[11], a, b);
  }

  /** The criteria a series passes against itself: all of them, since every
      difference is zero and every bound is positive. */
  lemma {:induction false} ScoreReflexive(a: seq<DailyRecord>)
    requires |a| > 0
    ensures Score(a, a) == MaxScore
  {
    forall i | 0 <= i < |Criteria|
      ensures Passes(Criteria[i], a, a)
    {
    }
  }

  /** Swapping the two series changes no outcome: every criterion is an
      absolute difference or an equality. */
  lemma {:induction false} ScoreSymmetric(a: seq<DailyRecord>, b: seq<DailyRecord>)
    requires |a| > 0 && |b| > 0
    ensures Outcomes(a, b) == Outcomes(b, a)
    ensures Score(a, b) == Score(b, a)
  {
    forall i | 0 <= i < |Criteria|
      ensures Outcomes(a, b)[i] == Outcomes(b, a)[i]
    {
      assert Outcomes(a, b)[i] == Passes(Criteria[i], a, b);
      assert Outcomes(b, a)[i] == Passes(Criteria[i], b, a);
    }
  }

  /** Every bound is exclusive: a statistic that differs by exactly the bound
      (10, or 5 for wind) does not pass. */
  lemma {:induction false} BoundIsExclusive(a: seq<DailyRecord>, b: seq<DailyRecord>, i: nat)
    requires |a| > 0 && |b| > 0
    requires i < |Criteria| && Criteria[i].Within?
    requires Abs(Statistic(a, Criteria[i].column, Criteria[i].aggregate)
               - Statistic(b, Criteria[i].column, Criteria[i].aggregate)) >= Criteria[i].bound
    ensures !Outcomes(a, b)[i]
    ensures Score(a, b) < MaxScore
  {
  }

  /** Raising one day's high by exactly 10 degrees in a one-day series fails
      both high-temperature criteria and passes the ten others, which is still
      a verdict of similar. */
  lemma TenDegreesWarmer(d: DailyRecord)
    ensures Score([d], [d.(tempMax := d.tempMax + 10.0)]) == 10
    ensures Judge(Score([d], [d.(tempMax := d.tempMax + 10.0)])) == Similar
  {
    var a, b := [d], [d.(tempMax := d.tempMax + 10.0)];
    assert Col(a, TempMax) == [d.tempMax] && Col(b, TempMax) == [d.tempMax + 10.0];
    assert Col(a, TempMin) == Col(b, TempMin) && Col(a, Precip) == Col(b, Precip);
    assert Col(a, WindMax) == Col(b, WindMax) && Codes(a) == Codes(b);
    var bs := Outcomes(a, b);
    MeasuredOutcomes(a, b);
    CountedOutcomes(a, b);
    assert bs == [false, true, false, true, true, true, true, true, true, true, true, true];
    assert Count(bs, true, 0, 1) == 0;
    assert Count(bs, true, 0, 2) == 1;
    assert Count(bs, true, 0, 3) == 1;
    assert Count(bs, true, 0, 4) == 2;
    assert Count(bs, true, 0, 5) == 3;
    assert Count(bs, true, 0, 6) == 4;
    assert Count(bs, true, 0, 7) == 5;
    assert Count(bs, true, 0, 8) == 6;
    assert Count(bs, true, 0, 9) == 7;
    assert Count(bs, true, 0, 10) == 8;
    assert Count(bs, true, 0, 11) == 9;
    assert Count(bs, true, 0, 12) == 10;
  }

  /** The temperature criteria compare column totals, not means: once a
      series has at least two days, highs that are 5 degrees warmer every day
      (a mean difference of 5, inside the bound of 10) fail the first one. */
  lemma {:induction false} TotalsNotMeans(a: seq<DailyRecord>, b: seq<DailyRecord>)
    requires |a| >= 2 && |b| == |a|
    requires forall i :: 0 <= i < |a| ==> b[i] == a[i].(tempMax := a[i].tempMax + 5.0)
    ensures Mean(Col(b, TempMax)) == Mean(Col(a, TempMax)) + 5.0
    ensures !Outcomes(a, b)[0]
  {
    var xs, ys := Col(a, TempMax), Col(b, TempMax);
    SumShift(xs, ys, 5.0);
    DivideShift(Sum(xs), |a| as real, 5.0);
    MeasuredOutcomes(a, b);
  }

  /** Two codes are alike for scoring when they fall in the same category, or
      when each is rainy or unlisted: rainy days are tallied but not compared. */
  predicate ScoredAlike(x: int, y: int)
  {
    Classify(x) == Classify(y)
    || (Classify(x) in {Rainy, Unclassified} && Classify(y) in {Rainy, Unclassified})
  }

  /** The score sees only the measured columns and the five compared day
      counts: relabelling days between rainy and unlisted codes changes
      nothing. */
  lemma {:induction false} ScoreIgnoresRainyDays(a: seq<DailyRecord>, a': seq<DailyRecord>, b: seq<DailyRecord>)
    requires |a| > 0 && |b| > 0 && |a'| == |a|
    requires forall c :: Col(a', c) == Col(a, c)
    requires forall i :: 0 <= i < |a| ==> ScoredAlike(a[i].code, a'[i].code)
    ensures Score(a', b) == Score(a, b)
  {
    var xs, ys := Codes(a), Codes(a');
    forall k: Named | k != Rainy
      ensures CountIn(ys, Listed(k)) == CountIn(xs, Listed(k))
    {
      forall i | 0 <= i < |xs|
        ensures xs[i] in Listed(k) <==> ys[i] in Listed(k)
      {
        assert ScoredAlike(a[i].code, a'[i].code);
      }
      CountInAgrees(xs, ys, Listed(k));
    }
    forall i | 0 <= i < |Criteria|
      ensures Outcomes(a', b)[i] == Outcomes(a, b)[i]
    {
      assert Outcomes(a', b)[i] == Passes(Criteria[i], a', b);
      assert Outcomes(a, b)[i] == Passes(Criteria[i], a, b);
    }
    assert Outcomes(a', b) == Outcomes(a, b);
  }

  /** Moving one day between a rainy code (85, 86) and an unlisted one keeps
      the score, while the rainy-day count of the summary moves by one. */
  lemma {:induction false} RelabelRainyDay(a: seq<DailyRecord>, i: nat, code: int, b: seq<DailyRecord>)
    requires |b| > 0 && i < |a|
    requires Classify(a[i].code) in {Rainy, Unclassified} && Classify(code) in {Rainy, Unclassified}
    ensures Score(a[i := a[i].(code := code)], b) == Score(a, b)
    ensures a[i].code in RainyCodes && code !in RainyCodes
            ==> CountIn(Codes(a[i := a[i].(code := code)]), RainyCodes) + 1 == CountIn(Codes(a), RainyCodes)
  {
    var a' := a[i := a[i].(code := code)];
    forall c
      ensures Col(a', c) == Col(a, c)
    {
      RecodeKeepsColumns(a, i, code, c);
    }
    RecodeKeepsColumns(a, i, code, TempMax);
    CountInUpdate(Codes(a), i, code, RainyCodes);
    ScoreIgnoresRainyDays(a, a', b);
  }

  /** The verdict the program prints. */
  datatype Verdict = Similar | Dissimilar

  /** `similarity_count >= 10` selects the similar message; any lower count,
      negative ones included, selects the dissimilar one. */
  function Judge(score: int): (v: Verdict)
    ensures v == Similar <==> score >= SimilarAt
    ensures v == Dissimilar <==> score < SimilarAt
  {
    if score >= SimilarAt then Similar else Dissimilar
  }

  /** Two series are judged similar exactly when they fail at most two of the
      twelve criteria. */
  lemma {:induction false} SimilarIffFewMisses(a: seq<DailyRecord>, b: seq<DailyRecord>)
    requires |a| > 0 && |b| > 0
    ensures Judge(Score(a, b)) == Similar <==> Misses(a, b) <= 2
    ensures Judge(Score(a, a)) == Similar
  {
    PassesAndMisses(Outcomes(a, b), 0, |Criteria|);
    ScoreReflexive(a);
  }

  /** As written, the dissimilar message reports the count out of 13, a
      count no pair of series reaches: even a series against itself scores 12. */
  lemma {:induction false} PrintedDenominatorUnreachable(a: seq<DailyRecord>, b: seq<DailyRecord>)
    requires |a| > 0 && |b| > 0
    ensures Score(a, b) < PrintedDenominator
    ensures Score(a, a) == PrintedDenominator - 1
  {
    ScoreReflexive(a);
  }

  /** The denominator the count should be reported against: the number of
      criteria, which bounds every score and which a series reaches against
      itself. */
  lemma {:induction false} MaxScoreIsTight(a: seq<DailyRecord>, b: seq<DailyRecord>)
    requires |a| > 0 && |b| > 0
    ensures Score(a, b) <= MaxScore
    ensures Score(a, a) == MaxScore
    ensures Score(a, b) == MaxScore <==> Misses(a, b) == 0
  {
    ScoreReflexive(a);
    PassesAndMisses(Outcomes(a, b), 0, |Criteria|);
  }

  /** `abs` of a difference of two day counts; `Stats.Abs` is the same
      operation on the real-valued statistics. */
  function IntAbs(x: int): nat
  {
    if x < 0 then -x else x
  }

  /** `compare_data(data1, data2)`: twelve tests, each adding one to the
      count. A series with no days fails at its first `max`. */
  method CompareData(a: seq<DailyRecord>, b: seq<DailyRecord>) returns (r: Result<int>)
    ensures r.Err? <==> |a| == 0 || |b| == 0
    ensures r.Ok? ==> 0 <= r.value <= MaxScore
    ensures r.Ok? ==> r.value == Score(a, b)
  {
    if |a| == 0 || |b| == 0 {
      return Err(EmptySeries);
    }
    var measured := CompareMeasurements(a, b);
    var counted := CompareDayCounts(a, b);
    CountSplit(Outcomes(a, b), true, 0, 7, |Criteria|);
    return Ok(measured + counted);
  }

  /** The first seven tests of `compare_data`: column totals and extremes
      whose difference must stay strictly below 10, or 5 for wind. After
      each test, `n` counts the criteria passed so far. */
  method CompareMeasurements(a: seq<DailyRecord>, b: seq<DailyRecord>) returns (n: nat)
    requires |a| > 0 && |b| > 0
    ensures n == Count(Outcomes(a, b), true, 0, 7)
  {
    ghost var bs := Outcomes(a, b);
    MeasuredOutcomes(a, b);
    n := 0;
    if Abs(Sum(Col(a, TempMax)) - Sum(Col(b, TempMax))) < 10.0 {
      n := n + 1;
    }
    assert n == Count(bs, true, 0, 1);
    if Abs(Sum(Col(a, TempMin)) - Sum(Col(b, TempMin))) < 10.0 {
      n := n + 1;
    }
    assert n == Count(bs, true, 0, 2);
    if Abs(Max(Col(a, TempMax)) - Max(Col(b, TempMax))) < 10.0 {
      n := n + 1;
    }
    assert n == Count(bs, true, 0, 3);
    if Abs(Min(Col(a, TempMin)) - Min(Col(b, TempMin))) < 10.0 {
      n := n + 1;
    }
    assert n == Count(bs, true, 0, 4);
    if Abs(Sum(Col(a, Precip)) - Sum(Col(b, Precip))) < 10.0 {
      n := n + 1;
    }
    assert n == Count(bs, true, 0, 5);
    if Abs(Sum(Col(a, WindMax)) - Sum(Col(b, WindMax))) < 5.0 {
      n := n + 1;
    }
    assert n == Count(bs, true, 0, 6);
    if Abs(Max(Col(a, WindMax)) - Max(Col(b, WindMax))) < 5.0 {
      n := n + 1;
    }
    assert n == Count(bs, true, 0, 7);
  }

  /** The last five tests of `compare_data`: the clear, foggy, cloudy, snowy
      and stormy day counts must be equal. */
  method CompareDayCounts(a: seq<DailyRecord>, b: seq<DailyRecord>) returns (n: nat)
    requires |a| > 0 && |b| > 0
    ensures n == Count(Outcomes(a, b), true, 7, 12)
  {
    ghost var bs := Outcomes(a, b);
    CountedOutcomes(a, b);
    n := 0;
    if IntAbs(CountIn(Codes(a), ClearCodes) - CountIn(Codes(b), ClearCodes)) == 0 {
      n := n + 1;
    }
    assert n == Count(bs, true, 7, 8);
    if IntAbs(CountIn(Codes(a), FoggyCodes) - CountIn(Codes(b), FoggyCodes)) == 0 {
      n := n + 1;
    }
    assert n == Count(bs, true, 7, 9);
    if IntAbs(CountIn(Codes(a), CloudyCodes) - CountIn(Codes(b), CloudyCodes)) == 0 {
      n := n + 1;
    }
    assert n == Count(bs, true, 7, 10);
    if IntAbs(CountIn(Codes(a), SnowyCodes) - CountIn(Codes(b), SnowyCodes)) == 0 {
      n := n + 1;
    }
    assert n == Count(bs, true, 7, 11);
    if IntAbs(CountIn(Codes(a), StormyCodes) - CountIn(Codes(b), StormyCodes)) == 0 {
      n := n + 1;
    }
    assert n == Count(bs, true, 7, 12);
  }
}
