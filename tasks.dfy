/** The older pipeline of tasks.py.

    Its reducer is the one of data_transform.py with the hourly scan written
    inline and the record wrapped in a one-element list; its aggregation
    maps every fetched city through the reducer, puts each result and then
    one sentinel; its analyzer runs the aggregation itself, drains the queue,
    sorts, rates and names only the first city.  Unlike data_load.py nothing
    here is caught: a failing city, a pool that cannot be created and an
    empty ranking all propagate to the caller. */
module Tasks {
  import opened Wrappers
  import opened Weather
  import opened Rounding
  import opened Channel
  import opened Ranking
  import Transform

  /** `self.rainless_conditions`, a list in this version. */
  const RAINLESS_CONDITIONS: seq<string> := ["clear", "partly-cloudy", "cloudy", "overcast", "drizzle"]

  /** The list holds the same five conditions as the set of data_transform.py. */
  lemma SameRainlessConditions()
    ensures forall c :: c in RAINLESS_CONDITIONS <==> c in Transform.RAINLESS_CONDITIONS
  {
  }

  /** What the pipeline of tasks.py raises. */
  datatype TaskError =
    | Calculation(cause: CalcError)   // re-raised by `result.get()` from a worker
    | PoolCreation                    // `Pool(processes=cores_count - 1)` with fewer than one process
    | NoCities                        // `data[0]` on an empty ranking: IndexError

  // ---------------------------------------------------------------------
  // DataCalculationTask.get_data_calculation

  /** `get_data_calculation` with its inline scan of each day's hours.  It
      computes what the reducer of data_transform.py computes, wrapped in a
      one-element list, and raises the same division error. */
  method CalculateCity(city: RawForecast) returns (r: Result<seq<CityStat>, CalcError>)
    ensures Transform.CityStatistics(city).Success? ==> r == Success([Transform.CityStatistics(city).value])
    ensures Transform.CityStatistics(city).Failure? ==> r == Failure(Transform.CityStatistics(city).error)
  {
    var days, numOfDays, sumAvgTemps, sumRainless := ScanForecasts(city.forecasts);
    if numOfDays == 0 {
      r := Failure(ZeroDivision);
    } else {
      r := Success([CityStat(city.city, days, RoundDiv(sumAvgTemps, numOfDays), RoundDiv(10 * sumRainless, numOfDays))]);
    }
  }

  /** The `for forecast in city['forecasts']` loop: it appends a date-only
      entry per forecast, completes it when the day is valid, and keeps the
      three city-level accumulators. */
  method ScanForecasts(forecasts: seq<RawDay>)
    returns (days: seq<DayRecord>, numOfDays: nat, sumAvgTemps: int, sumRainless: nat)
    ensures days == Transform.Days(forecasts)
    ensures numOfDays == Transform.ValidCount(days)
    ensures sumAvgTemps == Transform.SumAverages(days)
    ensures sumRainless == Transform.SumRainless(days)
  {
    days, numOfDays, sumAvgTemps, sumRainless := [], 0, 0, 0;
    for i := 0 to |forecasts|
      invariant days == Transform.Days(forecasts[..i])
      invariant numOfDays == Transform.ValidCount(days)
      invariant sumAvgTemps == Transform.SumAverages(days)
      invariant sumRainless == Transform.SumRainless(days)
    {
      Transform.DaysStep(forecasts, i);
      Transform.TotalsSnoc(days, Transform.DayOf(forecasts[i]));
      days, numOfDays, sumAvgTemps, sumRainless := AddDay(forecasts[i], days, numOfDays, sumAvgTemps, sumRainless);
    }
    assert forecasts[..|forecasts|] == forecasts;
  }

  /** One turn of that loop: `result['days']` gets a date-only entry, which
      is completed, and counted in the accumulators, when the day has
      eleven daytime hours. */
  method AddDay(forecast: RawDay, days: seq<DayRecord>, numOfDays: nat, sumAvgTemps: int, sumRainless: nat)
    returns (days': seq<DayRecord>, numOfDays': nat, sumAvgTemps': int, sumRainless': nat)
    ensures var d := Transform.DayOf(forecast);
            && days' == days + [d]
            && numOfDays' == numOfDays + (if d.stats.Some? then 1 else 0)
            && sumAvgTemps' == sumAvgTemps + (if d.stats.Some? then d.stats.value.avgTemp else 0)
            && sumRainless' == sumRainless + (if d.stats.Some? then d.stats.value.rainlessHours else 0)
  {
    days', numOfDays', sumAvgTemps', sumRainless' := days + [DayRecord(forecast.date, None)], numOfDays, sumAvgTemps, sumRainless;
    var rainlessHours, sumTempPerDay, numOfHours := ScanHours(forecast.hours);
    Transform.DayOfCounters(forecast, rainlessHours, sumTempPerDay, numOfHours);
    if numOfHours == 11 {
      numOfDays' := numOfDays' + 1;
      var avgTempPerDay := RoundDiv(sumTempPerDay, 11);
      sumAvgTemps' := sumAvgTemps' + avgTempPerDay;
      sumRainless' := sumRainless' + rainlessHours;
      Transform.CompleteLast(days, forecast.date, DayStat(rainlessHours, avgTempPerDay));
      days' := days'[..|days'| - 1] + [days'[|days'| - 1].(stats := Some(DayStat(rainlessHours, avgTempPerDay)))];
    }
  }

  /** The inner `for hour in forecast['hours']` loop of `get_data_calculation`:
      the three counters it leaves, in the terms of the daily scan of
      data_transform.py, with the rainless test made against the list. */
  method ScanHours(hours: seq<RawHour>) returns (rainlessHours: nat, sumTempPerDay: int, numOfHours: nat)
    ensures numOfHours == |Transform.Daytime(hours)|
    ensures sumTempPerDay == Transform.SumTemps(Transform.Daytime(hours))
    ensures rainlessHours == Transform.CountRainless(Transform.Daytime(hours))
    ensures rainlessHours <= numOfHours
  {
    rainlessHours, sumTempPerDay, numOfHours := 0, 0, 0;
    for j := 0 to |hours|
      invariant numOfHours == |Transform.Daytime(hours[..j])|
      invariant sumTempPerDay == Transform.SumTemps(Transform.Daytime(hours[..j]))
      invariant rainlessHours == Transform.CountRainless(Transform.Daytime(hours[..j]))
    {
      var hour := hours[j];
      Transform.DaytimeSnoc(hours, j);
      if 9 <= hour.hour <= 19 {
        numOfHours := numOfHours + 1;
        sumTempPerDay := sumTempPerDay + hour.temp;
        SameRainlessConditions();
        if hour.condition in RAINLESS_CONDITIONS {
          rainlessHours := rainlessHours + 1;
        }
      }
    }
    assert hours[..|hours|] == hours;
  }

  // ---------------------------------------------------------------------
  // DataAggregationTask.get_data_aggregation

  /** `pool.map_async(get_data_calculation, cities)` followed by
      `result.get()`: every city's one-element list, in city order, or the
      division error when any city has no valid day. */
  function CalculateAll(cities: seq<RawForecast>): (r: Result<seq<seq<CityStat>>, CalcError>)
    ensures r.Success? <==> forall i :: 0 <= i < |cities| ==> Transform.CityStatistics(cities[i]).Success?
    ensures r.Success? ==>
              |r.value| == |cities| &&
              forall i :: 0 <= i < |cities| ==> r.value[i] == [Transform.CityStatistics(cities[i]).value]
  {
    if cities == [] then Success([])
    else
      var init := CalculateAll(cities[..|cities| - 1]);
      var last := Transform.CityStatistics(cities[|cities| - 1]);
      if init.Failure? then init
      else if last.Failure? then Failure(last.error)
      else Success(init.value + [[last.value]])
  }

  /** What `get_data_aggregation` does with the fetched `cities` when
      `cpu_count()` is `cpuCount`: the list passed to `_callback`, or the
      exception it lets through. */
  function Aggregation(cities: seq<RawForecast>, cpuCount: int): (r: Result<seq<seq<CityStat>>, TaskError>)
    ensures r.Success? <==> cpuCount >= 2 && forall i :: 0 <= i < |cities| ==> Transform.CityStatistics(cities[i]).Success?
    ensures r.Failure? && cpuCount < 2 ==> r.error == PoolCreation
    ensures r.Failure? && cpuCount >= 2 ==> r.error.Calculation?
    ensures r.Success? ==>
              |r.value| == |cities| &&
              (forall i :: 0 <= i < |cities| ==> r.value[i] == [Transform.CityStatistics(cities[i]).value])
  {
    if cpuCount - 1 < 1 then Failure(PoolCreation)
    else
      var calculated := CalculateAll(cities);
      if calculated.Failure? then Failure(Calculation(calculated.error)) else Success(calculated.value)
  }

  class DataAggregationTask {
    const queue: Queue<seq<CityStat>>

    constructor (queue: Queue<seq<CityStat>>)
      ensures this.queue == queue
    {
      this.queue := queue;
    }

    /** `get_data_aggregation`, given the fetched cities and `cpu_count()`.
        On success each result is put, in order, and then one sentinel; on
        failure nothing is put. */
    method GetDataAggregation(cities: seq<RawForecast>, cpuCount: int) returns (r: Result<seq<seq<CityStat>>, TaskError>)
      modifies queue
      ensures r == Aggregation(cities, cpuCount)
      ensures r.Success? ==> queue.contents == old(queue.contents) + Items(r.value) + [None]
      ensures r.Failure? ==> queue.contents == old(queue.contents)
    {
      if cpuCount - 1 < 1 {
        return Failure(PoolCreation);
      }
      // The pool applies `get_data_calculation` to every city; `CalculateCity`
      // is proved to compute what `CalculateAll` assigns to each one.
      var calculated := CalculateAll(cities);
      if calculated.Failure? {
        return Failure(Calculation(calculated.error));
      }
      var results := calculated.value;
      assert Items(results[..0]) == [] && old(queue.contents) + [] == old(queue.contents);
      for i := 0 to |results|
        invariant queue.contents == old(queue.contents) + Items(results[..i])
      {
        ItemsSnoc(results, i);
        queue.Put(Some(results[i]));
      }
      assert results[..|results|] == results;
      queue.Put(None);
      r := Success(results);
    }
  }

  // ---------------------------------------------------------------------
  // DataAnalyzingTask.get_analyzed_data

  /** The sort key `(x[0]['average rainless hours for all days'],
      x[0]['average temp for all days'])`.  Every item the analyzer sorts is
      a one-element list, so the pair given to an empty list never counts. */
  function WrappedKey(x: seq<CityStat>): (k: Key)
    ensures |x| == 1 ==> k == CityKey(x[0])
  {
    if x == [] then Key(0, 0) else CityKey(x[0])
  }

  predicate AllWrapped(data: seq<seq<CityStat>>) {
    forall i :: 0 <= i < |data| ==> |data[i]| == 1
  }

  /** What the `enumerate` loop writes to `cities_rating`: each list's
      record without `days` and with its 1-based position as `rating`. */
  function RatedDump(data: seq<seq<CityStat>>): (r: seq<RatedCity>)
    requires AllWrapped(data)
    ensures |r| == |data|
    ensures forall i :: 0 <= i < |data| ==> r[i] == Rate(data[i][0], i + 1)
  {
    if data == [] then [] else RatedDump(data[..|data| - 1]) + [Rate(data[|data| - 1][0], |data|)]
  }

  /** The ranking written to `cities_rating` and the city the summary names. */
  datatype Summary = Summary(ratedCities: seq<RatedCity>, topCity: string)

  /** What `get_analyzed_data` returns or raises for the fetched `cities`
      when `cpu_count()` is `cpuCount`. */
  function Analysis(cities: seq<RawForecast>, cpuCount: int): (r: Result<Summary, TaskError>)
    ensures r.Success? ==> r.value.ratedCities != [] && r.value.ratedCities[0].city == r.value.topCity
                           && r.value.ratedCities[0].rating == 1
  {
    var aggregated := Aggregation(cities, cpuCount);
    if aggregated.Failure? then Failure(aggregated.error)
    else
      var data := SortDescending(aggregated.value, WrappedKey);
      WrappedAfterSort(aggregated.value, data);
      if data == [] then Failure(NoCities)
      else Success(Summary(RatedDump(data), data[0][0].city))
  }

  class DataAnalyzingTask {
    const queue: Queue<seq<CityStat>>
    const aggregationTask: DataAggregationTask

    constructor (queue: Queue<seq<CityStat>>, aggregationTask: DataAggregationTask)
      ensures this.queue == queue && this.aggregationTask == aggregationTask
    {
      this.queue := queue;
      this.aggregationTask := aggregationTask;
    }

    /** `get_analyzed_data`, given the fetched cities and `cpu_count()`: runs
        the aggregation, drains the queue up to the first falsy item, sorts,
        rates every list's record and names the first one.  The two tasks
        share one queue, which is empty when the pipeline starts. */
    method GetAnalyzedData(cities: seq<RawForecast>, cpuCount: int) returns (r: Result<Summary, TaskError>)
      requires aggregationTask.queue == queue
      requires queue.contents == []
      modifies queue
      ensures r == Analysis(cities, cpuCount)
      ensures queue.contents == []
    {
      var aggregated := aggregationTask.GetDataAggregation(cities, cpuCount);
      if aggregated.Failure? {
        return Failure(aggregated.error);
      }
      ghost var results := aggregated.value;
      assert AllWrapped(results);
      var data := DrainQueue(results);
      data := SortDescending(data, WrappedKey);
      WrappedAfterSort(results, data);
      var ratedCities := RateCities(data);
      if |data| == 0 {
        return Failure(NoCities);
      }
      r := Success(Summary(ratedCities, data[0][0].city));
    }

    /** `while city_calculated_data := self.queue.get(): data.append(...)`
        on the queue the aggregation left: it collects the put results, in
        order, and consumes the sentinel. */
    method DrainQueue(ghost results: seq<seq<CityStat>>) returns (data: seq<seq<CityStat>>)
      requires AllWrapped(results)
      requires queue.contents == Items(results) + [None]
      modifies queue
      ensures data == results
      ensures queue.contents == []
    {
      data := [];
      assert results[0..] == results;
      while true
        invariant |data| <= |results| && data == results[..|data|]
        invariant queue.contents == Items(results[|data|..]) + [None]
        decreases |queue.contents|
      {
        var cityCalculatedData := queue.Get();
        assert cityCalculatedData.Success?;
        var entry := cityCalculatedData.value;
        if entry.None? || entry.value == [] {
          break;
        }
        assert entry.value == results[|data|];
        assert results[..|data| + 1] == data + [entry.value];
        assert Items(results[|data| + 1..]) == Items(results[|data|..])[1..];
        data := data + [entry.value];
      }
      assert |data| == |results|;
    }
  }

  /** The `enumerate(data, start=1)` loop: `city[0].pop('days')` and
      `city[0]['rating'] = rating` for each list, in sorted order. */
  method RateCities(data: seq<seq<CityStat>>) returns (ratedCities: seq<RatedCity>)
    requires AllWrapped(data)
    ensures ratedCities == RatedDump(data)
  {
    ratedCities := [];
    for i := 0 to |data|
      invariant ratedCities == RatedDump(data[..i])
    {
      assert data[..i + 1][..i] == data[..i];
      ratedCities := ratedCities + [Rate(data[i][0], i + 1)];
    }
    assert data[..|data|] == data;
  }

  // ---------------------------------------------------------------------
  // Properties of the analysis

  /** The named city carries the greatest pair of all cities, and among the
      cities carrying that pair it is the first in fetch order: the sort is
      stable, so ties go to the earlier city. */
  lemma TopCityIsFirstBest(cities: seq<RawForecast>, cpuCount: int)
    requires Analysis(cities, cpuCount).Success?
    ensures forall i :: 0 <= i < |cities| ==> Transform.CityStatistics(cities[i]).Success?
    ensures exists j ::
              && 0 <= j < |cities|
              && var best := Transform.CityStatistics(cities[j]).value;
              && Analysis(cities, cpuCount).value.topCity == best.city
              && (forall i :: 0 <= i < |cities| ==> KeyLe(CityKey(Transform.CityStatistics(cities[i]).value), CityKey(best)))
              && (forall i :: 0 <= i < j ==> CityKey(Transform.CityStatistics(cities[i]).value) != CityKey(best))
  {
    var results := Aggregation(cities, cpuCount).value;
    var j := SortedHeadIsFirstMax(results, WrappedKey);
    var best := Transform.CityStatistics(cities[j]).value;
    assert results[j] == [best];
    forall i | 0 <= i < |cities|
      ensures KeyLe(CityKey(Transform.CityStatistics(cities[i]).value), CityKey(best))
      ensures i < j ==> CityKey(Transform.CityStatistics(cities[i]).value) != CityKey(best)
    {
      assert WrappedKey(results[i]) == CityKey(Transform.CityStatistics(cities[i]).value);
    }
  }


  /** The ranking written to `cities_rating`: one record per city, rated 1,
      2, ... by position and non-increasing in the pair; it rates a
      reordering of the cities' records. */
  lemma RankingOrder(cities: seq<RawForecast>, cpuCount: int)
    requires Analysis(cities, cpuCount).Success?
    ensures forall i :: 0 <= i < |cities| ==> Transform.CityStatistics(cities[i]).Success?
    ensures var rated := Analysis(cities, cpuCount).value.ratedCities;
            && |rated| == |cities|
            && (forall i :: 0 <= i < |rated| ==> rated[i].rating == i + 1)
            && (forall i, j :: 0 <= i < j < |rated| ==> KeyLe(RatedKey(rated[j]), RatedKey(rated[i])))
            && exists data: seq<seq<CityStat>> ::
                 && AllWrapped(data)
                 && multiset(data) == multiset(Aggregation(cities, cpuCount).value)
                 && rated == RatedDump(data)
  {
    var results := Aggregation(cities, cpuCount).value;
    var data := SortDescending(results, WrappedKey);
    WrappedAfterSort(results, data);
    var rated := RatedDump(data);
    assert rated == Analysis(cities, cpuCount).value.ratedCities;
    forall i, j | 0 <= i < j < |rated| ensures KeyLe(RatedKey(rated[j]), RatedKey(rated[i])) {
      assert RatedKey(rated[i]) == WrappedKey(data[i]) && RatedKey(rated[j]) == WrappedKey(data[j]);
    }
  }

  /** Nothing fetched: the pool still has to be created, and then `data[0]`
      raises. */
  lemma NoCitiesRaises(cpuCount: int)
    ensures Analysis([], cpuCount) == Failure(if cpuCount < 2 then PoolCreation else NoCities)
  {
  }

  /** One city without a valid day makes the whole pipeline raise, whatever
      the other cities hold. */
  lemma FailingCityPropagates(cities: seq<RawForecast>, cpuCount: int, i: nat)
    requires i < |cities| && Transform.CityStatistics(cities[i]).Failure?
    ensures Analysis(cities, cpuCount).Failure?
    ensures Analysis(cities, cpuCount).error == if cpuCount < 2 then PoolCreation else Calculation(ZeroDivision)
  {
  }

  /** Sorting keeps every item a one-element list. */
  lemma WrappedAfterSort(s: seq<seq<CityStat>>, t: seq<seq<CityStat>>)
    requires AllWrapped(s) && multiset(s) == multiset(t)
    ensures AllWrapped(t)
  {
    forall i | 0 <= i < |t| ensures |t[i]| == 1 {
      assert t[i] in multiset(s);
      var j :| 0 <= j < |s| && s[j] == t[i];
    }
  }
}
