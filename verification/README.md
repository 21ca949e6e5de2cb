# Kindred Climates — a Dafny model of the weather comparison core

`kindred-climates.py` fetches the daily weather of two cities over the same
date range. It summarises each city and scores how alike the two ranges were.
This project models the pure logic behind that, and proves properties of it:

- **Weather-code classification** (`WeatherCodes`). The fixed WMO code lists
  are clear {0, 1}, cloudy {2, 3}, foggy {45, 48}, rainy {85, 86},
  snowy {71, 73, 75} and stormy {95, 96, 99}. Every other code is unclassified.
- **Daily series** (`Series`). A series is a sequence of `DailyRecord`s: the
  weather code plus the four measured columns (daily high, daily low,
  precipitation total and maximum wind). This module also counts the days
  whose code is on a list.
- **Statistics** (`Stats`, `Rounding`). These are sum, maximum, minimum and
  mean over exact reals. Python's `round(x, 1)` is modelled as
  round-half-to-even on tenths.
- **`summarize`** (`Summary.Summarize`). It computes seven rounded
  statistics and six day counts. An empty series is an error, because the
  source divides by `len(data)`.
- **`compare_data`** (`Similarity.CompareData`). It applies twelve
  independent criteria, and each one that holds adds one to the count. The
  criteria also exist as a table (`Similarity.Criteria`), and `Similarity.Score`
  counts the entries of that table that pass. The method's contract ties it to
  `Score`, and the lemmas are stated over `Score`.
- **The verdict** (`Similarity.Judge`). A count of 10 or more is "similar".

Failures are values: `Failures.Result` is `Ok(value)` or `Err(EmptySeries)`.
`Summarize` returns `Err` for an empty series, where the source raises
`ZeroDivisionError`. `CompareData` returns `Err` when either series is empty,
where the source raises `ValueError` from `max` of an empty column.

Three behaviours of the source are modelled as written:

- Of the seven magnitude criteria, the high-temperature, low-temperature
  and wind-speed tests at lines 111, 114 and 126 compare column **totals**
  where a mean would be expected (`Similarity.TotalsNotMeans`). The
  precipitation test at line 123 compares totals, which matches what it
  measures. The other three, at lines 117, 120 and 129, compare the
  highest or lowest value of a column.
- Rainy days are counted by `summarize` but are not a criterion
  (`Similarity.ScoreIgnoresRainyDays`).
- The dissimilar message reports the count out of 13, although there are 12
  criteria (see Findings).

## Model

| member | source | states |
|---|---|---|
| WeatherCodes.Classify | kindred-climates.py:82-87 | a code is on the list of a named category exactly when `Classify` returns that category; a code on no list is `Unclassified` |
| WeatherCodes.ListsDisjoint | kindred-climates.py:82-87 | the six code lists are pairwise disjoint |
| Series.CountIn | kindred-climates.py:82-87 | a day count never exceeds the number of days |
| Series.Tally | kindred-climates.py:82-87 | a category tally never exceeds the number of days |
| Series.CountInExtremes | kindred-climates.py:82-87 | a count is 0 exactly when no day's code is on the list, and it is the number of days exactly when every day's code is |
| Series.TallyIsListCount | kindred-climates.py:82-87 | counting a category's list equals counting the days `Classify` puts in that category |
| Series.TallyCountsDay | kindred-climates.py:82-87 | every day is counted in the category of its own code |
| Series.TalliesPartition | kindred-climates.py:82-87 | the six categories together with "unclassified" count every day exactly once |
| Series.ListCountsBounded | kindred-climates.py:82-87 | the six list counts add up to at most the number of days |
| Series.UnlistedCodeUncounted | kindred-climates.py:82-87 | a day whose code is on no list is counted by none of the six lists, so the six counts add up to fewer than the number of days |
| Series.CountInAgrees | kindred-climates.py:82-87 | two code sequences that agree day by day on list membership have the same count |
| Series.CountInUpdate | kindred-climates.py:82-87 | replacing one day's code changes a list count by at most one, in the direction of that day's membership |
| Series.RecodeKeepsColumns | kindred-climates.py:74-80 | changing a day's code leaves every measured column unchanged |
| Rounding.RoundHalfEven | kindred-climates.py:74-80 | the result is within one half of the input, and the even neighbour is chosen on an exact tie |
| Rounding.Round1 | kindred-climates.py:74-80 | `round(x, 1)` is within 0.05 of `x` and is a whole number of tenths |
| Rounding.RoundHalfEvenMonotone | kindred-climates.py:74-80 | rounding to an integer preserves order |
| Rounding.Round1Monotone | kindred-climates.py:74-80 | `round(x, 1)` preserves order |
| Rounding.Round1KeepsTenths | kindred-climates.py:74-80 | a value that is already a whole number of tenths is unchanged by rounding |
| Stats.Abs | kindred-climates.py:111-129 | `abs` is non-negative and is the value or its negation |
| Stats.MaxBounds | kindred-climates.py:76 | `max` is at least every element |
| Stats.MaxAttained | kindred-climates.py:76 | `max` is one of the elements |
| Stats.MinBounds | kindred-climates.py:77 | `min` is at most every element |
| Stats.MinAttained | kindred-climates.py:77 | `min` is one of the elements |
| Stats.SumAtLeast | kindred-climates.py:74 | a sum of elements each at least `lo` is at least the length times `lo` |
| Stats.SumAtMost | kindred-climates.py:74 | a sum of elements each at most `hi` is at most the length times `hi` |
| Stats.Mean | kindred-climates.py:74-75 | `sum / len` of a non-empty column lies between its minimum and its maximum |
| Stats.ConstantColumn | kindred-climates.py:74-80 | a column with a single repeated value has total `len * v`, and its mean, maximum and minimum are `v` |
| Stats.SumShift | kindred-climates.py:111 | adding `d` to every element adds `len * d` to the total |
| Summary.Summarize | kindred-climates.py:72-105 | fails exactly on an empty series; otherwise reports the number of days, and each of the seven statistics is within 0.05 of its exact value: the mean high and low and the mean wind, the highest high, the lowest low, the highest wind, and the precipitation total. Each rounded mean stays on the correct side of its rounded extreme: mean high ≤ highest, lowest ≤ mean low, mean wind ≤ maximum wind. The day counts agree with the classifier and add up to at most the number of days |
| Summary.StatisticsOrdered | kindred-climates.py:74-80 | each rounded statistic is within 0.05 of its exact mean, maximum, minimum or total, and each rounded mean lies on the correct side of the rounded extreme |
| Summary.CountsClassified | kindred-climates.py:82-87 | each of the six counts is the number of days classified in its category, and together they fit in the series |
| Summary.UnlistedDayUncounted | kindred-climates.py:82-87 | one day with a code on no list (50, say) leaves `summarize` succeeding, and the six counts add up to fewer than the number of days |
| Summary.UniformSeriesTemperatures | kindred-climates.py:74-77 | a series that repeats one day has mean high = highest = that day's rounded high, and likewise for the lows |
| Summary.UniformSeriesPrecipAndWind | kindred-climates.py:78-80 | a repeated dry day gives a precipitation total of 0, and the mean and maximum wind both equal the day's rounded wind |
| Summary.UniformSeriesCounts | kindred-climates.py:82-87 | a repeated day counts every day in its own category and none in the others |
| Similarity.Count | kindred-climates.py:109-147 | the passes counted over a range of criteria never exceed the range's size |
| Similarity.CountSplit | kindred-climates.py:109-147 | counting passes over two adjacent ranges adds up |
| Similarity.PassesAndMisses | kindred-climates.py:109-147 | every criterion in a range either passes or misses |
| Similarity.CountFull | kindred-climates.py:109-147 | a range's count is full exactly when every outcome in it is the counted value |
| Similarity.Score | kindred-climates.py:108-147 | the count is at most 12; it is 12 exactly when every criterion holds and 0 exactly when none does |
| Similarity.MeasuredOutcomes | kindred-climates.py:111-130 | the seven magnitude criteria in the table are the strict `< 10` and `< 5` tests on totals and extremes, in source order |
| Similarity.CountedOutcomes | kindred-climates.py:132-145 | the five count criteria in the table are the equality tests on the clear, foggy, cloudy, snowy and stormy counts, in source order |
| Similarity.CompareData | kindred-climates.py:108-147 | fails exactly when either series is empty; otherwise returns a count in [0, 12] equal to the number of criteria that hold |
| Similarity.CompareMeasurements | kindred-climates.py:111-130 | the first seven tests add up the passes among the magnitude criteria |
| Similarity.CompareDayCounts | kindred-climates.py:132-145 | the last five tests add up the passes among the count criteria |
| Similarity.ScoreReflexive | kindred-climates.py:111-145 | a series compared with itself scores 12 |
| Similarity.ScoreSymmetric | kindred-climates.py:111-145 | swapping the two series changes no outcome and so leaves the score unchanged |
| Similarity.BoundIsExclusive | kindred-climates.py:111-129 | a difference of exactly the bound (10, or 5 for wind) or more fails that criterion, so the score is below 12 |
| Similarity.TenDegreesWarmer | kindred-climates.py:111-145 | one day against the same day 10 degrees warmer fails both high-temperature tests, scores 10 and is judged similar |
| Similarity.TotalsNotMeans | kindred-climates.py:111 | with two or more days, highs that are 5 degrees warmer every day move the mean by 5 but fail the first criterion |
| Similarity.ScoreIgnoresRainyDays | kindred-climates.py:132-145 | recoding days between rainy and unlisted codes, with the measurements unchanged, leaves the score unchanged |
| Similarity.RelabelRainyDay | kindred-climates.py:132-145 | moving one day from a rainy code to an unlisted one keeps the score but lowers the rainy-day count by one |
| Similarity.Judge | kindred-climates.py:197 | the verdict is similar exactly when the count is at least 10, and dissimilar exactly when it is below 10 |
| Similarity.SimilarIffFewMisses | kindred-climates.py:197 | the verdict is similar exactly when at most two criteria fail; a series is always similar to itself |
| Similarity.PrintedDenominatorUnreachable | kindred-climates.py:197 | no score reaches the printed denominator 13, and a series against itself scores 12 |
| Similarity.MaxScoreIsTight | kindred-climates.py:197 | 12 bounds every score, is reached by a series against itself, and is reached exactly when no criterion fails |

## Left out

- `get_lat_long` (kindred-climates.py:15-21) is network geocoding. It is not modelled.
- `get_weather_data` (kindred-climates.py:23-69) is an HTTP client with a cache and retries, and it builds a data frame. A series is taken as a given sequence of `DailyRecord`s. The date column is dropped because no modelled computation reads it.
- `create_graph` (kindred-climates.py:150-165) is plotting. It is not modelled. Its x-axis runs over `1..len(data1)`.
- `main` (kindred-climates.py:169-262) is console and tkinter output. Only the score-to-verdict rule at line 197 is modelled. The window repeats the statistics and rounds the maximum wind to a whole number (line 220), unlike `summarize` (line 80); that repetition is not modelled.
- The printed text of the summary (lines 90-103) and of the verdict (lines 197-198) is not modelled. `Summary.WeatherSummary` carries the number of days from the heading, and `Similarity.Verdict` carries the verdict.
- Measurements are exact reals. IEEE floating point, NaN and the float32 columns of the frame are not modelled, so `round(x, 1)` sees true ties where a binary float would not.
- Weather codes are integers. The frame stores them as floats holding whole WMO values.
- Summary.UniformSeriesPrecipAndWind: states the precipitation total only for a repeated dry day. The general claim, that the total is the rounded product of the day count and the day's precipitation, is left unstated.

## Findings

| source | as written | input that shows it | evidently intended | confidence | as-written member | corrected member |
|---|---|---|---|---|---|---|
| kindred-climates.py:197 | the dissimilar message prints the count as `{similarity_count}/13` | any pair of non-empty series; a series against itself scores 12, the highest possible | the count out of the number of criteria, 12 | high; not executed | Similarity.PrintedDenominatorUnreachable | Similarity.MaxScoreIsTight |
