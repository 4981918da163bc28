# Weather forecast pipeline — a verified model of its reducer, queue hand-off and ranking

The system fetches a weather forecast for each of a set of cities and
computes, for every city, two averages over the days of the forecast:
- the average daytime temperature;
- the average number of daytime hours without precipitation.

It then ranks the cities by the pair (rainless hours, temperature) and
names the most favourable ones. The stages hand their data to each other
through one `multiprocessing` queue, with `None` as the end-of-stream
sentinel.

This project models three parts of that system:

- **The per-city reducer.** This is `DataCalculationTask` of
  data_transform.py, module `Transform`.
  - It keeps the hours 9..19 of each day.
  - It counts them, sums their temperatures and counts the rainless ones.
  - A day is valid only with exactly eleven such hours.
  - It averages over the valid days, and raises a division error when a
    city has none.
- **The current pipeline** of data_load.py, module `Load`, run as
  forecasting.py runs it, module `Forecasting`.
  - The aggregation stage replaces each raw document in the queue by its
    computed record, then puts a fresh sentinel. It swallows any failure.
  - The analysis stage does five things:
    - drains the queue up to the sentinel;
    - sorts, descending, by the pair;
    - rates each city by its position;
    - drops `days`;
    - names every city tied with the first one.
- **The older pipeline** of tasks.py, module `Tasks`.
  - The same reducer, with the hour scan written inline and the record
    wrapped in a one-element list.
  - An aggregation that maps every city through the pool and puts the
    results, then one sentinel.
  - An analyzer that runs the aggregation itself, drains the queue, sorts,
    rates each city and names only the first. Every failure propagates.

Shared parts:
- `Weather` holds the records.
- `Rounding` models `round(x, 1)`. It works on exact tenths, rounding halves
  to even.
- `Channel` is the queue: a class whose `contents` is the FIFO sequence of
  items and sentinels.
- `Ranking` is Python's stable `list.sort(key=..., reverse=True)`. It is
  modelled as a stable insertion sort, proved to be non-increasing, a
  permutation and order-preserving among equal keys.

Conventions:
- Temperatures are integers in tenths of a degree.
- The fetched documents are an input sequence.
- `cpu_count()` is an integer parameter.

Two facts about the ranking code shape every result below. A rating is
the 1-based position in the sorted list, so tied cities get consecutive
ratings, not a shared one. The average number of rainless hours is the
first component of the sort key, so it outweighs any temperature. For
three cities, A and B tied at 20.0°/8.0 h and C at 18.0°/9.0 h, the
ranking is C, A, B with ratings 1, 2, 3, and only C is named
(`Load.ExampleFigures`).

## Model

| member | source | states |
|---|---|---|
| Rounding.RoundDiv | data_transform.py:42 | `round(n / d, 1)` on values in tenths: the floor quotient or the next integer. Which one is fixed by `RoundDivNearest`. |
| Rounding.RoundDivNearest | data_transform.py:42 | `RoundDiv(n, d)` is an integer nearest to n/d. When n/d lies exactly halfway between two integers, it is the even one, as Python's `round` gives. |
| Rounding.RoundDivWithin | data_transform.py:46-47 | If lo·d ≤ n ≤ hi·d, the rounded quotient lies in [lo, hi]: rounding an average never leaves the range of the averaged values. |
| Rounding.RoundDivExact | data_transform.py:42 | An exact quotient is returned unchanged. |
| Transform.Daytime | data_transform.py:18-19 | The hour entries the `if` admits, in list order: every one has an hour in 9..19, and there are no more than the day has. |
| Transform.DaytimeMembers | data_transform.py:18-20 | The daytime subsequence holds exactly the hour entries with 9 ≤ hour ≤ 19, each as many times as it occurs in the day's list, so a repeated entry counts twice in `num_of_hours`. |
| Transform.DailyStatistics | data_transform.py:14-24 | The loop returns three values. The hour count is the number of daytime hours. The temperature sum is the sum over the daytime hours. The rainless count is the number of daytime hours whose condition is one of the five rainless ones. The rainless count never exceeds the hour count. |
| Transform.DaytimeSnoc | data_transform.py:18-23 | One more hour grows each daytime counter by its own contribution if the hour is in 9..19, and leaves them unchanged otherwise. |
| Transform.NightHoursIgnored | data_transform.py:18-23 | Hours outside 9..19, inserted anywhere in a day's list, change none of the three counters. |
| Transform.CountRainlessExtremes | data_transform.py:22-23 | The rainless count is 0 iff no hour is rainless. It equals the number of hours iff every hour is rainless. |
| Transform.DayOf | data_transform.py:37-45 | The entry `result['days']` gets for one forecast. It keeps the forecast's date. It has statistics iff the day has exactly 11 daytime hours, and then its rainless count is at most 11. |
| Transform.Days | data_transform.py:36-37 | `result['days']`: one entry per forecast. `DaysPointwise` ties each entry to its forecast. |
| Transform.DaysPointwise | data_transform.py:36-37 | `result['days']` has, at each position, the entry of the forecast day at that position. |
| Transform.DaysConcat | data_transform.py:36-37 | The day list of concatenated forecasts is the concatenation of their day lists. |
| Transform.AddDay | data_transform.py:37-45 | One turn of the forecast loop. It appends that day's entry. The valid-day count, the sum of day averages and the sum of rainless hours grow by that day's values only when the day is valid. |
| Transform.ScanForecasts | data_transform.py:33-45 | The forecast loop returns the day list and three accumulators. The accumulators equal the number of valid days, the sum of their average temperatures and the sum of their rainless hours. |
| Transform.CityStatistics | data_transform.py:26-52 | The reference definition of `get_data_calculation`. It raises the division error iff no day entry has statistics. Otherwise the record carries the city name and the day list `Days`, with the two averages. |
| Transform.CalculateCity | data_transform.py:26-52 | The method's result equals the reference `CityStatistics`: the division error when there is no valid day, else the city record with both rounded averages. |
| Transform.ValidCountZero | data_transform.py:39-40 | `num_of_days` is 0 iff no day entry received statistics. |
| Transform.CityStatisticsShape | data_transform.py:31-47 | The computation raises iff no forecast day has exactly 11 daytime hours. Otherwise the record has four properties: it carries the city name; it has one entry per forecast, in order; each entry carries that forecast's date; and an entry has statistics iff its day has 11 daytime hours. |
| Transform.TotalsConcat | data_transform.py:40-44 | The three city-level accumulators add up over concatenated day lists. |
| Transform.InvalidDayIgnored | data_transform.py:39-47 | A day without exactly 11 daytime hours, at any position, changes neither whether the computation raises nor either city average. |
| Transform.SumRainlessBound | data_transform.py:44 | The total of rainless hours is at most 11 per valid day. |
| Transform.RainlessAverageBounds | data_transform.py:47 | The city's average of rainless hours lies in [0, 11], which is [0, 110] in tenths. |
| Transform.SumTempsBounds | data_transform.py:21 | A sum of temperatures in [lo, hi] lies in [lo·n, hi·n]. |
| Transform.SumAveragesBounds | data_transform.py:43 | A sum of valid-day averages in [lo, hi] lies in [lo·n, hi·n] for n valid days. |
| Transform.TemperatureAverageBounds | data_transform.py:42-46 | If every daytime temperature lies in [lo, hi], so does each valid day's average and the city's average temperature. |
| Channel.Queue.constructor | forecasting.py:17 | A new queue holds nothing. |
| Channel.Queue.Put | data_load.py:37-38 | `put` appends its item or sentinel at the back. |
| Channel.Queue.Get | data_load.py:27 | `get(block=True, timeout=0)` returns and removes the oldest entry, or raises `Empty` on an empty queue and leaves it empty. |
| Channel.SentinelIndex | data_load.py:54 | The position where a drain loop stops: the first `None`, with every entry before it present. |
| Channel.Items | data_extract.py:20-21 | The entries a run of `put`s adds: one present item per value, in put order. |
| Channel.DrainAfterPuts | data_load.py:54-55 | After the items `xs`, a sentinel and anything else are put, a drain collects exactly `xs`, in FIFO order. It stops at that sentinel and leaves everything after it in the queue. |
| Ranking.Rate | data_load.py:81-82 | A rated record keeps the city and its pair and carries the given rating. The `days` key is gone. |
| Ranking.Insert | data_load.py:56-62 | Inserting keeps the multiset of records: the input plus the inserted one. |
| Ranking.InsertSorted | data_load.py:56-62 | Inserting into a non-increasing list keeps it non-increasing. |
| Ranking.InsertWithKey | data_load.py:56-62 | Inserting keeps the relative order of the records with any given key, the inserted one going first among equals. |
| Ranking.WithKeyConcat | data_load.py:56-62 | The records with a given key in a concatenation are those of each part, in order. |
| Ranking.SortDescending | data_load.py:56-62 | The sort is non-increasing in the lexicographic pair and is a permutation of its input. For every key it keeps the records with that key in their input order (stability). |
| Ranking.TopRun | data_load.py:68-80 | The length of the leading run of records with the given key: every record before it has the key, and the record at it, if any, does not. |
| Ranking.SortedTopRun | data_load.py:68-80 | Take a sorted list and a key that bounds every record in it. The records with that key are exactly the leading run, and no later record has it. |
| Ranking.SortedHeadIsMax | data_load.py:56-62 | The first record of a sorted list carries a key at least that of every record of any permutation of it. |
| Ranking.FirstWithKey | tasks.py:118-124 | The first record with a key, in list order, is the first of the records with that key. |
| Ranking.SortedHeadIsFirstMax | tasks.py:118-124 | The head of the sorted list is the input's first record, in input order, among those carrying the greatest key. |
| Load.Forecasts | data_extract.py:20-22 | A queue holding the fetch stage's output (raw documents, then one sentinel) determines the document sequence that rebuilds it. |
| Load.SuccessPrefix | data_load.py:27-36 | The records computed before the first raising city, in order. After them comes the input's end or a city whose computation raises. |
| Load.SuccessPrefixUnique | data_load.py:27-36 | Any sequence with those properties is that prefix. |
| Load.AggregatedQueue | data_load.py:22-43 | The queue `get_data_aggregation` leaves, for the fetched documents and `cpu_count()`. It always holds a sentinel for the analysis to stop at. |
| Load.DataAggregationTask.constructor | data_load.py:9-12 | The task keeps the queue and the calculation, with an empty result buffer. |
| Load.DataAggregationTask.Callback | data_load.py:14-15 | `_callback` appends the finished record to `buffer_for_result`. |
| Load.DataAggregationTask.CalculateQueued | data_load.py:27-37 | The loop takes raw documents from the front and puts their records at the back. It stops at the old sentinel or at the first raising city. It reports whether a city raised. The buffer holds exactly the records computed. The queue is either every record, or the raw documents after the failing one, the old sentinel, then the records. |
| Load.DataAggregationTask.GetDataAggregation | data_load.py:22-43 | With fewer than one pool process nothing changes. Otherwise the input `xs ++ [None]` ends as `[f(x) for x in xs] ++ [None]` when every city is computed, and the artifact written is the buffer. On a failure the queue stays as the interruption left it and nothing is written. |
| Load.RatedList | data_load.py:81-83 | `rated_cities`: one rated record per sorted record, in order; the i-th keeps that record's city and pair, carries rating i+1 and has no `days`. |
| Load.BestCities | data_load.py:65-80 | `best_cities` for the sorted records. It has at most one name per record, and for a non-empty list it starts with the first city. |
| Load.BestCitiesStep | data_load.py:67-80 | One more turn of the `enumerate` loop adds the city exactly when its pair equals the first city's pair. The first city is always added. |
| Load.RateCities | data_load.py:63-83 | The loop returns the rated list of the sorted records, and the names of the cities tied with the first, in sorted order. |
| Load.Rank | data_load.py:56-83 | The sort and the `enumerate` loop. There is one rated record per drained record. The best cities are empty iff no record was drained. Otherwise the first best city is the city rated 1. |
| Load.Analysis | data_load.py:50-91 | The reference definition of `get_analyzed_data` on the queue it starts from. On success there is one rated record per entry before the sentinel. |
| Load.DataAnalyzingTask.constructor | data_load.py:47-48 | The task keeps the queue. |
| Load.DataAnalyzingTask.GetAnalyzedData | data_load.py:50-91 | Three outcomes. If there is no sentinel, `Empty` is raised. If a record before it has no averages, the key raises `KeyError`. Otherwise the result is the ranking of the drained records. The queue keeps what followed the sentinel. |
| Load.RankingOrder | data_load.py:56-83 | There is one rated record per drained record. Ratings are 1, 2, … by position. The list is non-increasing in the pair. It rates a permutation of the drained records that keeps equal-pair records in drain order. |
| Load.BestCitiesOfSorted | data_load.py:65-80 | For a non-empty drain, the best cities are the names of the records with the greatest pair, in drain order. They form the longest prefix of the sorted list that shares the first pair. |
| Load.BestCitiesAreTheTopPrefix | data_load.py:65-80 | `best_cities` is empty iff the drain is empty. Otherwise: its pair is the greatest; it names exactly the cities with that pair, in drain order; it starts with the rank-1 city; and a rated record has the top pair iff its position is within `best_cities`. |
| Load.EmptyQueueReportsNothing | data_load.py:54-84 | A queue with a sentinel at the front gives an empty ranking and no exception. |
| Load.AnalysisOfCalculated | data_load.py:54-84 | A queue of computed records and a sentinel is analysed as the ranking of those records. |
| Load.AnalysisWithRawsLeft | data_load.py:56-62 | A raw document ahead of the sentinel makes the sort key raise `KeyError`. With none, the report is empty. |
| Load.AnalysisOfFetched | data_load.py:56-62 | The fetch stage's queue, analysed unchanged, gives `KeyError` unless it holds no document. |
| Load.AnalysisWithoutPool | data_load.py:26 | With no pool, the analysis sees the untouched fetch output. |
| Load.AnalysisAfterCompletion | data_load.py:27-38 | After a complete aggregation, the analysis ranks every computed record. |
| Load.AnalysisAfterInterruption | data_load.py:36-42 | After an interrupted aggregation, the report is empty if the failing city was the last one, and `KeyError` is raised otherwise. |
| Load.AnalysisAfterAggregation | forecasting.py:23-24 | The analysis outcome for each way the aggregation can end. |
| Load.ExampleRainlessFirst | data_load.py:54-84 | Two tied cities and a third with more rainless hours but a lower temperature: the third ranks 1 and alone is named, the tied pair is rated 2 and 3 in queue order. |
| Load.ExampleFigures | data_load.py:54-84 | A and B tied at 20.0°/8.0 h, C at 18.0°/9.0 h: the ranking is C, A, B with ratings 1, 2, 3, and only C is named. |
| Load.ExampleTieAtTheTop | data_load.py:54-84 | Two cities tied at the top are rated 1 and 2 in input order. Both are named. |
| Tasks.SameRainlessConditions | tasks.py:29-35 | The list holds the same five conditions as the reducer's set. |
| Tasks.ScanHours | tasks.py:49-57 | The inline hour loop, with a list membership test, computes the same three counters as the reducer's hourly scan. |
| Tasks.AddDay | tasks.py:48-64 | One turn of the forecast loop, as in the reducer. |
| Tasks.ScanForecasts | tasks.py:44-64 | The forecast loop returns the reducer's day list and accumulators. |
| Tasks.CalculateCity | tasks.py:37-71 | The result is the reducer's record wrapped in a one-element list, or the same division error. |
| Tasks.CalculateAll | tasks.py:94-101 | It succeeds iff every city is computable. It then holds one one-element list per city, in city order. |
| Tasks.Aggregation | tasks.py:89-101 | `get_data_aggregation` succeeds iff at least two CPUs are reported and every city is computable. Pool creation fails with fewer. Otherwise a failure is a city's error re-raised. |
| Tasks.DataAggregationTask.constructor | tasks.py:75-78 | The task keeps the queue. |
| Tasks.DataAggregationTask.GetDataAggregation | tasks.py:89-103 | The method's result equals `Aggregation`. On success every result is put, in order, then exactly one sentinel. On failure nothing is put. |
| Tasks.RatedDump | tasks.py:126-129 | What is written for the sorted lists: each inner record without `days`, rated by its 1-based position. |
| Tasks.WrappedAfterSort | tasks.py:118-124 | Sorting keeps every item a one-element list. |
| Tasks.WrappedKey | tasks.py:119-122 | The sort key of a one-element list is the pair of its record. |
| Tasks.Analysis | tasks.py:111-136 | The reference definition of `get_analyzed_data`. On success the named city is the one rated 1. |
| Tasks.DataAnalyzingTask.constructor | tasks.py:107-109 | The task keeps the queue and the aggregation task. |
| Tasks.DataAnalyzingTask.DrainQueue | tasks.py:116-117 | The drain collects exactly the put results, in order, and consumes the sentinel. |
| Tasks.RateCities | tasks.py:126-128 | The `enumerate` loop computes `RatedDump` of the sorted lists. |
| Tasks.DataAnalyzingTask.GetAnalyzedData | tasks.py:111-136 | The method's result equals `Analysis`: it propagates the aggregation's error, raises `IndexError` on an empty ranking, and otherwise returns the ranking and the first city. It leaves the queue empty. |
| Tasks.TopCityIsFirstBest | tasks.py:118-136 | The named city carries the greatest pair of all the cities. Among those carrying it, it is the first in fetch order. |
| Tasks.RankingOrder | tasks.py:118-129 | There is one rated record per city. Ratings are 1, 2, … by position. The list is non-increasing in the pair. It rates a permutation of the aggregated lists. |
| Tasks.NoCitiesRaises | tasks.py:93-136 | With no city, pool creation fails first when fewer than two CPUs are reported; otherwise `data[0]` raises. |
| Tasks.FailingCityPropagates | tasks.py:93-101 | One city without a valid day makes the whole pipeline raise the division error, or the pool error when there is no pool. |
| Forecasting.PutFetched | data_extract.py:20-22 | The fetch stage puts every document in city order, then one sentinel. |
| Forecasting.ForecastWeather | forecasting.py:12-24 | The whole run has four outcomes. Let done be the cities computed before the first failure. With no pool: `KeyError`, or an empty report if nothing was fetched. With every city computed: the full ranking and best cities. With only the last city failing: an empty report. Otherwise: `KeyError`. |

## Left out

- The weather API (`YandexWeatherAPI.get_forecasting`) and the city registry are not part of this model. The fetched documents are an input sequence, and the JSON is reduced to the fields used.
- Process and thread pools (`Pool`, `apply_async`, `map_async`, `ThreadPoolExecutor`) are modelled as applying the calculation to each city in order. Because the stages run one after another, the queue is a plain FIFO sequence.
- In both versions `_error_callback` re-raises inside the pool's result-handler thread. In CPython nothing catches that exception, so the thread dies and `result.get()` or `result.wait()` blocks for ever, every time a city fails. The model instead treats the worker's exception as raised by `get()`, which is how the surrounding code expects to see it. These members state failure paths that rest on that choice:
  - `Load.AnalysisAfterInterruption`;
  - the two failure branches of `Forecasting.ForecastWeather`;
  - `Tasks.FailingCityPropagates`;
  - the `Calculation` error of `Tasks.Aggregation`.
- `get(block=True, timeout=0)` can raise `Empty` early because of feeder-thread timing. The model raises `Empty` only when the queue really is empty.
- Floating-point sums and `round(x, 1)` are replaced by exact tenths, with halves rounded to even. Binary float error is not modelled.
- The `json.dump` output and the files `cities_calculated_data` and `cities_rating` are left out. The model returns the sequences that would be written.
- Logging and the Russian summary sentence are left out. The model returns the list of best city names (data_load.py) or the top city (tasks.py).
- `int(hour['hour'])` parsing is left out: the hour of day is already an integer.
- In-place mutation and aliasing of the city dictionaries are not modelled. This covers `pop('days')`, `rating`, and `rated_cities` sharing objects with `data`. Records are values, and a rated record is a new value.
- Load.DataAggregationTask.GetDataAggregation: requires the queue to hold exactly the fetch stage's output. The wiring in forecasting.py guarantees this, and other queue contents are not modelled.
- Tasks.DataAnalyzingTask.GetAnalyzedData: requires that the two tasks share one queue and that it starts empty. The model does not cover a queue already holding items.
- Tasks.DataAnalyzingTask.DrainQueue: the drain stops at the first falsy item. Of the falsy values only `None` and an empty list are modelled, because no other kind of item is ever put.
- Tasks.DataAggregationTask.GetDataAggregation: it applies the reducer's reference function to each city rather than calling the method. That method, Tasks.CalculateCity, is proved to return the same result.
- Failures of the fetch stage (network errors re-raised by `get_data_fetching`) are not modelled.
