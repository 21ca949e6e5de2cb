/** One location's daily records, their columns, and the day counts per
    weather-code list. */
module Series {
  import opened WeatherCodes

  /** One row of the daily frame: the weather code and the four measured
      columns (degrees Fahrenheit, inches, miles per hour). */
  datatype DailyRecord = DailyRecord(code: int, tempMax: real, tempMin: real, precip: real, windMax: real)

  /** The measured columns: temperature_2m_max, temperature_2m_min,
      precipitation_sum and wind_speed_10m_max. */
  datatype Column = TempMax | TempMin | Precip | WindMax

  function Value(d: DailyRecord, c: Column): real
  {
    match c
    case TempMax => d.tempMax
    case TempMin => d.tempMin
    case Precip => d.precip
    case WindMax => d.windMax
  }

  /** `data[column]`: one measured column, day by day. */
  function Col(data: seq<DailyRecord>, c: Column): seq<real>
  {
    seq(|data|, i requires 0 <= i < |data| => Value(data[i], c))
  }

  /** `data["weather_code"]`, day by day. */
  function Codes(data: seq<DailyRecord>): seq<int>
  {
    seq(|data|, i requires 0 <= i < |data| => data[i].code)
  }

  /** `sum(1 for code in codes if code in list)`: how many days carry a code
      on the list. */
  function CountIn(codes: seq<int>, list: set<int>): (n: nat)
    ensures n <= |codes|
  {
    if |codes| == 0 then 0
    else (if codes[0] in list then 1 else 0) + CountIn(codes[1..], list)
  }

  /** No day is counted exactly when no day's code is on the list, and every
      day is counted exactly when every day's code is. */
  lemma {:induction false} CountInExtremes(codes: seq<int>, list: set<int>)
    ensures CountIn(codes, list) == 0 <==> forall i :: 0 <= i < |codes| ==> codes[i] !in list
    ensures CountIn(codes, list) == |codes| <==> forall i :: 0 <= i < |codes| ==> codes[i] in list
  {
    if |codes| > 0 {
      assert forall i :: 1 <= i < |codes| ==> codes[i] == codes[1..][i - 1];
      CountInExtremes(codes[1..], list);
    }
  }

  /** How many days `Classify` puts in category `k`. */
  function Tally(codes: seq<int>, k: Category): (n: nat)
    ensures n <= |codes|
  {
    if |codes| == 0 then 0
    else (if Classify(codes[0]) == k then 1 else 0) + Tally(codes[1..], k)
  }

  /** Counting by list membership, as the program does, agrees with counting
      by category. */
  lemma {:induction false} TallyIsListCount(codes: seq<int>, k: Named)
    ensures Tally(codes, k) == CountIn(codes, Listed(k))
  {
    if |codes| > 0 {
      TallyIsListCount(codes[1..], k);
    }
  }

  /** A day of category `k` is counted in `k`'s tally. */
  lemma {:induction false} TallyCountsDay(codes: seq<int>, i: nat)
    requires i < |codes|
    ensures Tally(codes, Classify(codes[i])) >= 1
  {
    if i > 0 {
      assert codes[1..][i - 1] == codes[i];
      TallyCountsDay(codes[1..], i - 1);
    }
  }

  /** Every day falls in exactly one of the seven categories. */
  lemma {:induction false} TalliesPartition(codes: seq<int>)
    ensures Tally(codes, Clear) + Tally(codes, Cloudy) + Tally(codes, Foggy) + Tally(codes, Rainy)
          + Tally(codes, Snowy) + Tally(codes, Stormy) + Tally(codes, Unclassified) == |codes|
  {
    if |codes| > 0 {
      TalliesPartition(codes[1..]);
    }
  }

  /** The six list counts of `summarize` never add up to more days than
      there are: the lists are disjoint. */
  lemma {:induction false} ListCountsBounded(codes: seq<int>)
    ensures CountIn(codes, ClearCodes) + CountIn(codes, CloudyCodes) + CountIn(codes, FoggyCodes)
          + CountIn(codes, RainyCodes) + CountIn(codes, SnowyCodes) + CountIn(codes, StormyCodes) <= |codes|
  {
    TalliesPartition(codes);
    TallyIsListCount(codes, Clear);
    TallyIsListCount(codes, Cloudy);
    TallyIsListCount(codes, Foggy);
    TallyIsListCount(codes, Rainy);
    TallyIsListCount(codes, Snowy);
    TallyIsListCount(codes, Stormy);
  }

  /** A day whose code is on no list (50, say) is counted by none of the six
      lists, so their counts add up to fewer days than there are. */
  lemma {:induction false} UnlistedCodeUncounted(codes: seq<int>, i: nat)
    requires i < |codes| && Classify(codes[i]) == Unclassified
    ensures CountIn(codes, ClearCodes) + CountIn(codes, CloudyCodes) + CountIn(codes, FoggyCodes)
          + CountIn(codes, RainyCodes) + CountIn(codes, SnowyCodes) + CountIn(codes, StormyCodes) < |codes|
  {
    TallyCountsDay(codes, i);
    TalliesPartition(codes);
    TallyIsListCount(codes, Clear);
    TallyIsListCount(codes, Cloudy);
    TallyIsListCount(codes, Foggy);
    TallyIsListCount(codes, Rainy);
    TallyIsListCount(codes, Snowy);
    TallyIsListCount(codes, Stormy);
  }

  /** Two code columns whose days agree on membership of a list count the
      same number of days for it. */
  lemma {:induction false} CountInAgrees(xs: seq<int>, ys: seq<int>, list: set<int>)
    requires |xs| == |ys|
    requires forall i :: 0 <= i < |xs| ==> (xs[i] in list <==> ys[i] in list)
    ensures CountIn(xs, list) == CountIn(ys, list)
  {
    if |xs| > 0 {
      assert forall i :: 0 <= i < |xs[1..]| ==> xs[1..][i] == xs[i + 1] && ys[1..][i] == ys[i + 1];
      CountInAgrees(xs[1..], ys[1..], list);
    }
  }

  /** Changing one day's code moves that list's count by at most the one day. */
  lemma {:induction false} CountInUpdate(xs: seq<int>, i: nat, code: int, list: set<int>)
    requires i < |xs|
    ensures CountIn(xs[i := code], list) + (if xs[i] in list then 1 else 0)
         == CountIn(xs, list) + (if code in list then 1 else 0)
  {
    if i > 0 {
      assert xs[i := code][1..] == xs[1..][i - 1 := code];
      CountInUpdate(xs[1..], i - 1, code, list);
    }
  }

  /** Replacing a day's code changes no measured column. */
  lemma {:induction false} RecodeKeepsColumns(data: seq<DailyRecord>, i: nat, code: int, c: Column)
    requires i < |data|
    ensures Col(data[i := data[i].(code := code)], c) == Col(data, c)
    ensures Codes(data[i := data[i].(code := code)]) == Codes(data)[i := code]
  {
  }
}
