/** `summarize`: per-location statistics and day counts. */
module Summary {
  import opened Failures
  import opened Rounding
  import opened Stats
  import opened WeatherCodes
  import opened Series

  /** The values `summarize` returns, in its order, plus the number of days
      it reports in its heading. Every real field is rounded to one decimal. */
  datatype WeatherSummary = WeatherSummary(
    days: nat,
    avgMaxTemp: real,
    avgMinTemp: real,
    highestTemp: real,
    lowestTemp: real,
    precipSum: real,
    avgWindSpeed: real,
    maxWindSpeed: real,
    clearDays: nat,
    cloudyDays: nat,
    foggyDays: nat,
    snowyDays: nat,
    stormyDays: nat,
    rainyDays: nat)

  /** `summarize(data, ...)`. An empty series fails: the first statistic
      divides by `len(data)`. */
  function Summarize(data: seq<DailyRecord>): (r: Result<WeatherSummary>)
    ensures r.Err? <==> |data| == 0
    ensures r.Ok? ==> r.value.days == |data|
    ensures r.Ok? ==> r.value.avgMaxTemp <= r.value.highestTemp
    ensures r.Ok? ==> r.value.lowestTemp <= r.value.avgMinTemp
    ensures r.Ok? ==> r.value.avgWindSpeed <= r.value.maxWindSpeed
    ensures r.Ok? ==> Mean(Col(data, TempMax)) - 0.05 <= r.value.avgMaxTemp <= Mean(Col(data, TempMax)) + 0.05
    ensures r.Ok? ==> Mean(Col(data, TempMin)) - 0.05 <= r.value.avgMinTemp <= Mean(Col(data, TempMin)) + 0.05
    ensures r.Ok? ==> Max(Col(data, TempMax)) - 0.05 <= r.value.highestTemp <= Max(Col(data, TempMax)) + 0.05
    ensures r.Ok? ==> Min(Col(data, TempMin)) - 0.05 <= r.value.lowestTemp <= Min(Col(data, TempMin)) + 0.05
    ensures r.Ok? ==> Sum(Col(data, Precip)) - 0.05 <= r.value.precipSum <= Sum(Col(data, Precip)) + 0.05
    ensures r.Ok? ==> Mean(Col(data, WindMax)) - 0.05 <= r.value.avgWindSpeed <= Mean(Col(data, WindMax)) + 0.05
    ensures r.Ok? ==> Max(Col(data, WindMax)) - 0.05 <= r.value.maxWindSpeed <= Max(Col(data, WindMax)) + 0.05
    ensures r.Ok? ==> Min(Col(data, TempMax)) - 0.05 <= r.value.avgMaxTemp
    ensures r.Ok? ==> r.value.avgMinTemp <= Max(Col(data, TempMin)) + 0.05
    ensures r.Ok? ==> Min(Col(data, WindMax)) - 0.05 <= r.value.avgWindSpeed
    ensures r.Ok? ==> r.value.clearDays + r.value.cloudyDays + r.value.foggyDays
                      + r.value.rainyDays + r.value.snowyDays + r.value.stormyDays <= r.value.days
    ensures r.Ok? ==> CountsAreTallies(r.value, Codes(data))
  {
    if |data| == 0 then Err(EmptySeries)
    else
      StatisticsOrdered(data);
      CountsClassified(data);
      Ok(Build(data))
  }

  /** The statistics and counts of a non-empty series, in `summarize`'s order. */
  function Build(data: seq<DailyRecord>): WeatherSummary
    requires |data| > 0
  {
    var n := |data| as real;
    var codes := Codes(data);
    WeatherSummary(
      |data|,
      Round1(Sum(Col(data, TempMax)) / n),
      Round1(Sum(Col(data, TempMin)) / n),
      Round1(Max(Col(data, TempMax))),
      Round1(Min(Col(data, TempMin))),
      Round1(Sum(Col(data, Precip))),
      Round1(Sum(Col(data, WindMax)) / n),
      Round1(Max(Col(data, WindMax))),
      CountIn(codes, ClearCodes),
      CountIn(codes, CloudyCodes),
      CountIn(codes, FoggyCodes),
      CountIn(codes, SnowyCodes),
      CountIn(codes, StormyCodes),
      CountIn(codes, RainyCodes))
  }

  /** Each day count is the number of days `Classify` puts in that category. */
  predicate CountsAreTallies(s: WeatherSummary, codes: seq<int>)
  {
    && s.clearDays == Tally(codes, Clear)
    && s.cloudyDays == Tally(codes, Cloudy)
    && s.foggyDays == Tally(codes, Foggy)
    && s.rainyDays == Tally(codes, Rainy)
    && s.snowyDays == Tally(codes, Snowy)
    && s.stormyDays == Tally(codes, Stormy)
  }

  /** Each reported statistic is its exact counterpart rounded to within
      0.05, and rounding keeps each mean between its column's extremes: the
      rounded mean of the highs never exceeds the rounded highest high, and
      so on. */
  lemma {:induction false} StatisticsOrdered(data: seq<DailyRecord>)
    requires |data| > 0
    ensures Build(data).avgMaxTemp <= Build(data).highestTemp
    ensures Build(data).lowestTemp <= Build(data).avgMinTemp
    ensures Build(data).avgWindSpeed <= Build(data).maxWindSpeed
    ensures Mean(Col(data, TempMax)) - 0.05 <= Build(data).avgMaxTemp <= Mean(Col(data, TempMax)) + 0.05
    ensures Mean(Col(data, TempMin)) - 0.05 <= Build(data).avgMinTemp <= Mean(Col(data, TempMin)) + 0.05
    ensures Max(Col(data, TempMax)) - 0.05 <= Build(data).highestTemp <= Max(Col(data, TempMax)) + 0.05
    ensures Min(Col(data, TempMin)) - 0.05 <= Build(data).lowestTemp <= Min(Col(data, TempMin)) + 0.05
    ensures Sum(Col(data, Precip)) - 0.05 <= Build(data).precipSum <= Sum(Col(data, Precip)) + 0.05
    ensures Mean(Col(data, WindMax)) - 0.05 <= Build(data).avgWindSpeed <= Mean(Col(data, WindMax)) + 0.05
    ensures Max(Col(data, WindMax)) - 0.05 <= Build(data).maxWindSpeed <= Max(Col(data, WindMax)) + 0.05
    ensures Min(Col(data, TempMax)) - 0.05 <= Build(data).avgMaxTemp
    ensures Build(data).avgMinTemp <= Max(Col(data, TempMin)) + 0.05
    ensures Min(Col(data, WindMax)) - 0.05 <= Build(data).avgWindSpeed
  {
    var maxTemps, minTemps, winds := Col(data, TempMax), Col(data, TempMin), Col(data, WindMax);
    assert Mean(maxTemps) == Sum(maxTemps) / |data| as real;
    assert Mean(minTemps) == Sum(minTemps) / |data| as real;
    assert Mean(winds) == Sum(winds) / |data| as real;
    Round1Monotone(Mean(maxTemps), Max(maxTemps));
    Round1Monotone(Min(minTemps), Mean(minTemps));
    Round1Monotone(Mean(winds), Max(winds));
  }

  /** The six day counts agree with the classifier and fit in the series. */
  lemma {:induction false} CountsClassified(data: seq<DailyRecord>)
    requires |data| > 0
    ensures CountsAreTallies(Build(data), Codes(data))
    ensures Build(data).clearDays + Build(data).cloudyDays + Build(data).foggyDays
          + Build(data).rainyDays + Build(data).snowyDays + Build(data).stormyDays <= |data|
  {
    var codes := Codes(data);
    ListCountsBounded(codes);
    TallyIsListCount(codes, Clear);
    TallyIsListCount(codes, Cloudy);
    TallyIsListCount(codes, Foggy);
    TallyIsListCount(codes, Rainy);
    TallyIsListCount(codes, Snowy);
    TallyIsListCount(codes, Stormy);
  }

  /** A day whose code is on no list (50, say) does not make `summarize`
      fail and is counted in none of the six day counts, so they add up to
      fewer days than the series has. */
  lemma {:induction false} UnlistedDayUncounted(data: seq<DailyRecord>, i: nat)
    requires i < |data| && Classify(data[i].code) == Unclassified
    ensures Summarize(data).Ok?
    ensures var s := Summarize(data).value;
            s.clearDays + s.cloudyDays + s.foggyDays + s.rainyDays + s.snowyDays + s.stormyDays < |data|
  {
    var codes := Codes(data);
    assert codes[i] == data[i].code;
    UnlistedCodeUncounted(codes, i);
  }

  /** A series that repeats one day summarises to that day's rounded
      temperatures: each mean equals the matching extreme. */
  lemma {:induction false} UniformSeriesTemperatures(data: seq<DailyRecord>, d: DailyRecord)
    requires |data| > 0
    requires forall i :: 0 <= i < |data| ==> data[i] == d
    ensures Summarize(data).Ok?
    ensures var s := Summarize(data).value;
            && s.avgMaxTemp == s.highestTemp == Round1(d.tempMax)
            && s.avgMinTemp == s.lowestTemp == Round1(d.tempMin)
  {
    assert Summarize(data) == Ok(Build(data));
    assert forall i :: 0 <= i < |data| ==> Col(data, TempMax)[i] == d.tempMax;
    assert forall i :: 0 <= i < |data| ==> Col(data, TempMin)[i] == d.tempMin;
    ConstantColumn(Col(data, TempMax), d.tempMax);
    ConstantColumn(Col(data, TempMin), d.tempMin);
  }

  /** A series that repeats one day has that day's rounded wind as both
      mean and maximum, and a dry day repeated gives a total of zero. */
  lemma {:induction false} UniformSeriesPrecipAndWind(data: seq<DailyRecord>, d: DailyRecord)
    requires |data| > 0
    requires forall i :: 0 <= i < |data| ==> data[i] == d
    ensures Summarize(data).Ok?
    ensures var s := Summarize(data).value;
            && (d.precip == 0.0 ==> s.precipSum == 0.0)
            && s.avgWindSpeed == s.maxWindSpeed == Round1(d.windMax)
  {
    assert Summarize(data) == Ok(Build(data));
    assert forall i :: 0 <= i < |data| ==> Col(data, Precip)[i] == d.precip;
    assert forall i :: 0 <= i < |data| ==> Col(data, WindMax)[i] == d.windMax;
    ConstantColumn(Col(data, Precip), d.precip);
    ConstantColumn(Col(data, WindMax), d.windMax);
    Round1KeepsTenths(0);
  }

  /** A series that repeats one day counts every day in the category of its
      code and none in the others. */
  lemma {:induction false} UniformSeriesCounts(data: seq<DailyRecord>, d: DailyRecord)
    requires |data| > 0
    requires forall i :: 0 <= i < |data| ==> data[i] == d
    ensures Summarize(data).Ok?
    ensures var s := Summarize(data).value;
            && s.clearDays == (if Classify(d.code) == Clear then |data| else 0)
            && s.cloudyDays == (if Classify(d.code) == Cloudy then |data| else 0)
            && s.foggyDays == (if Classify(d.code) == Foggy then |data| else 0)
            && s.rainyDays == (if Classify(d.code) == Rainy then |data| else 0)
            && s.snowyDays == (if Classify(d.code) == Snowy then |data| else 0)
            && s.stormyDays == (if Classify(d.code) == Stormy then |data| else 0)
  {
    assert Summarize(data) == Ok(Build(data));
    var codes := Codes(data);
    assert forall i :: 0 <= i < |data| ==> codes[i] == d.code;
    CountInExtremes(codes, ClearCodes);
    CountInExtremes(codes, CloudyCodes);
    CountInExtremes(codes, FoggyCodes);
    CountInExtremes(codes, RainyCodes);
    CountInExtremes(codes, SnowyCodes);
    CountInExtremes(codes, StormyCodes);
  }
}
