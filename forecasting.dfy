/** `forecast_weather` of forecasting.py: one queue, the fetch stage's
    hand-off, the aggregation and the analysis, run one after another.

    The documents the API returns are the input `fetched`, in city order,
    and `cpu_count()` is the input `cpuCount`. */
module Forecasting {
  import opened Wrappers
  import opened Weather
  import opened Channel
  import Transform
  import opened Load

  /** The hand-off of `get_data_fetching` (data_extract.py:20-22): every
      fetched document in city order, then the sentinel. */
  method PutFetched(queue: Queue<Message>, fetched: seq<RawForecast>)
    modifies queue
    ensures queue.contents == old(queue.contents) + Items(Raws(fetched)) + [None]
  {
    for i := 0 to |fetched|
      invariant queue.contents == old(queue.contents) + Items(Raws(fetched[..i]))
    {
      assert Raws(fetched[..i + 1]) == Raws(fetched[..i]) + [Raw(fetched[i])];
      ItemsSnoc(Raws(fetched), i);
      assert Raws(fetched)[..i + 1] == Raws(fetched[..i + 1]) && Raws(fetched)[..i] == Raws(fetched[..i]);
      queue.Put(Some(Raw(fetched[i])));
    }
    assert fetched[..|fetched|] == fetched;
    queue.Put(None);
  }

  /** The whole run.  With a usable pool and every city computable the
      summary ranks every city; any failure in the aggregation is swallowed
      there, and the analyzer then either trips over a raw document left in
      the queue or, when nothing raw is left, reports nothing. */
  method ForecastWeather(fetched: seq<RawForecast>, cpuCount: int) returns (result: Result<Report, AnalyzeError>)
    ensures var done := SuccessPrefix(Transform.CityStatistics, fetched);
            if cpuCount - 1 < 1 then
              result == (if fetched == [] then Success(Report([], [])) else Failure(MissingKey))
            else if |done| == |fetched| then
              result == Success(Rank(done))
            else if |done| + 1 == |fetched| then
              result == Success(Report([], []))
            else
              result == Failure(MissingKey)
  {
    var queue := new Queue<Message>();
    PutFetched(queue, fetched);
    assert queue.contents == Items(Raws(fetched)) + [None];
    assert Forecasts(queue.contents) == fetched by {
      assert Items(Raws(Forecasts(queue.contents))) == Items(Raws(fetched));
    }
    var aggregationTask := new DataAggregationTask(queue, Transform.CityStatistics);
    var analyzingTask := new DataAnalyzingTask(queue);
    var _ := aggregationTask.GetDataAggregation(cpuCount);
    AnalysisAfterAggregation(Transform.CityStatistics, fetched, cpuCount);
    result := analyzingTask.GetAnalyzedData();
  }
}
