/** The aggregation and ranking stages of data_load.py.

    Both stages share one queue.  The fetch stage leaves in it one raw
    forecast per city followed by a sentinel; `DataAggregationTask` replaces
    every raw item by its computed record and puts a fresh sentinel;
    `DataAnalyzingTask` drains the records, sorts them, rates them and
    collects the cities tied with the first one. */
module Load {
  import opened Wrappers
  import opened Weather
  import opened Channel
  import opened Ranking

  /** What travels through the queue: a fetched document or a computed record. */
  datatype Message = Raw(forecast: RawForecast) | Calculated(stat: CityStat)

  function Raws(xs: seq<RawForecast>): (r: seq<Message>)
    ensures |r| == |xs| && forall i :: 0 <= i < |xs| ==> r[i] == Raw(xs[i])
  {
    seq(|xs|, i requires 0 <= i < |xs| => Raw(xs[i]))
  }

  function Computed(cs: seq<CityStat>): (r: seq<Message>)
    ensures |r| == |cs| && forall i :: 0 <= i < |cs| ==> r[i] == Calculated(cs[i])
  {
    seq(|cs|, i requires 0 <= i < |cs| => Calculated(cs[i]))
  }

  /** The queue as the fetch stage leaves it: raw documents, then one sentinel. */
  ghost predicate IsFetchOutput(q: seq<Option<Message>>) {
    exists xs :: q == Items(Raws(xs)) + [None]
  }

  /** The documents of a fetch-stage queue. */
  function Forecasts(q: seq<Option<Message>>): (xs: seq<RawForecast>)
    requires IsFetchOutput(q)
    ensures q == Items(Raws(xs)) + [None]
  {
    var n := |q| - 1;
    var xs := seq(n, i requires 0 <= i < n => q[i].value.forecast);
    var ys :| q == Items(Raws(ys)) + [None];
    assert xs == ys;
    xs
  }

  /** The records computed before the first city whose computation raises. */
  function SuccessPrefix(compute: RawForecast -> Result<CityStat, CalcError>, xs: seq<RawForecast>): (done: seq<CityStat>)
    ensures |done| <= |xs|
    ensures forall i :: 0 <= i < |done| ==> compute(xs[i]) == Success(done[i])
    ensures |done| < |xs| ==> compute(xs[|done|]).Failure?
  {
    if xs == [] then []
    else match compute(xs[0])
      case Failure(_) => []
      case Success(c) => [c] + SuccessPrefix(compute, xs[1..])
  }

  /** The contract of `SuccessPrefix` determines it. */
  lemma {:induction false} SuccessPrefixUnique(compute: RawForecast -> Result<CityStat, CalcError>,
                                               xs: seq<RawForecast>, done: seq<CityStat>)
    requires |done| <= |xs|
    requires forall i :: 0 <= i < |done| ==> compute(xs[i]) == Success(done[i])
    requires |done| < |xs| ==> compute(xs[|done|]).Failure?
    ensures done == SuccessPrefix(compute, xs)
  {
    if xs != [] && done != [] {
      SuccessPrefixUnique(compute, xs[1..], done[1..]);
    }
  }

  /** The queue `get_data_aggregation` leaves behind, from the raw
      documents `xs` of the fetch stage's queue.  With no pool it is
      untouched.  Otherwise each document is taken from the front and its
      record put at the back; a raising computation ends the loop with the
      document consumed and no new sentinel, and the exception is caught. */
  function AggregatedQueue(compute: RawForecast -> Result<CityStat, CalcError>, xs: seq<RawForecast>, cpuCount: int): (r: seq<Option<Message>>)
    ensures None in r
  {
    var done := SuccessPrefix(compute, xs);
    if cpuCount - 1 < 1 then Items(Raws(xs)) + [None]
    else if |done| == |xs| then Items(Computed(done)) + [None]
    else
      var r := Items(Raws(xs[|done| + 1..])) + [None] + Items(Computed(done));
      assert r[|xs| - |done| - 1] == None;
      r
  }

  /** Loop helper for `CalculateQueued`: the raw document at the front of
      the remaining ones. */
  lemma TakeRaw(xs: seq<RawForecast>, k: nat)
    requires k < |xs|
    ensures Items(Raws(xs[k..])) == [Some(Raw(xs[k]))] + Items(Raws(xs[k + 1..]))
  {
  }

  /** Loop helper for `CalculateQueued`: one more calculated record behind
      the others. */
  lemma PutCalculated(done: seq<CityStat>, c: CityStat)
    ensures Items(Computed(done)) + [Some(Calculated(c))] == Items(Computed(done + [c]))
  {
  }

  class DataAggregationTask {
    const queue: Queue<Message>
    const calculation: RawForecast -> Result<CityStat, CalcError>
    var bufferForResult: seq<CityStat>

    constructor (queue: Queue<Message>, calculation: RawForecast -> Result<CityStat, CalcError>)
      ensures this.queue == queue && this.calculation == calculation
      ensures bufferForResult == []
    {
      this.queue := queue;
      this.calculation := calculation;
      bufferForResult := [];
    }

    /** `_callback`: a finished computation's record joins the buffer. */
    method Callback(result: CityStat)
      modifies this`bufferForResult
      ensures bufferForResult == old(bufferForResult) + [result]
    {
      bufferForResult := bufferForResult + [result];
    }

    /** `get_data_aggregation`.  `cpuCount` is `cpu_count()`; the result is
        the list written to `cities_calculated_data`, or `None` when the
        method gives up.  A pool of fewer than one process raises
        `ValueError`, and a raising computation propagates out of
        `result.get()`; both are caught and logged, so the method then
        returns normally, leaving the queue as the interruption found it. */
    method GetDataAggregation(cpuCount: int) returns (calculatedArtifact: Option<seq<CityStat>>)
      requires IsFetchOutput(queue.contents)
      modifies this`bufferForResult, queue
      ensures var xs := Forecasts(old(queue.contents));
              var done := SuccessPrefix(calculation, xs);
              && queue.contents == AggregatedQueue(calculation, xs, cpuCount)
              && if cpuCount - 1 < 1 then
                   && bufferForResult == old(bufferForResult)
                   && calculatedArtifact == None
                 else
                   && bufferForResult == old(bufferForResult) + done
                   && calculatedArtifact == (if |done| == |xs| then Some(bufferForResult) else None)
    {
      ghost var xs := Forecasts(queue.contents);
      ghost var done := SuccessPrefix(calculation, xs);
      if cpuCount - 1 < 1 {
        assert queue.contents == AggregatedQueue(calculation, xs, cpuCount);
        return None;
      }
      var failed := CalculateQueued();
      if failed {
        assert queue.contents == AggregatedQueue(calculation, xs, cpuCount);
        return None;
      }
      queue.Put(None);
      assert queue.contents == AggregatedQueue(calculation, xs, cpuCount);
      calculatedArtifact := Some(bufferForResult);
    }

    /** The `while True` loop of `get_data_aggregation`: each raw document
        taken from the front is computed and its record put at the back,
        until the sentinel comes up or a computation raises; the result
        says whether one raised. */
    method CalculateQueued() returns (failed: bool)
      requires IsFetchOutput(queue.contents)
      modifies this`bufferForResult, queue
      ensures var xs := Forecasts(old(queue.contents));
              var done := SuccessPrefix(calculation, xs);
              && bufferForResult == old(bufferForResult) + done
              && failed == (|done| < |xs|)
              && queue.contents ==
                   if failed then Items(Raws(xs[|done| + 1..])) + [None] + Items(Computed(done))
                   else Items(Computed(done))
    {
      ghost var xs := Forecasts(queue.contents);
      ghost var done: seq<CityStat> := [];
      failed := false;
      while true
        invariant |done| <= |xs|
        invariant forall i :: 0 <= i < |done| ==> calculation(xs[i]) == Success(done[i])
        invariant queue.contents == Items(Raws(xs[|done|..])) + [None] + Items(Computed(done))
        invariant bufferForResult == old(bufferForResult) + done
        invariant !failed
        decreases |xs| - |done|
      {
        var got := queue.Get();
        var cityData := got.value;
        if cityData.None? {
          assert |done| == |xs| && queue.contents == Items(Computed(done));
          break;
        }
        TakeRaw(xs, |done|);
        assert queue.contents == Items(Raws(xs[|done| + 1..])) + [None] + Items(Computed(done));
        var result := calculation(cityData.value.forecast);
        if result.Failure? {
          failed := true;
          break;
        }
        var calculatedData := result.value;
        Callback(calculatedData);
        queue.Put(Some(Calculated(calculatedData)));
        PutCalculated(done, calculatedData);
        done := done + [calculatedData];
      }
      SuccessPrefixUnique(calculation, xs, done);
    }
  }

  // ---------------------------------------------------------------------
  // The ranking stage

  /** `queue.Empty` from the drain, or the `KeyError` the sort key raises on
      a record without the two averages (a raw document left in the queue). */
  datatype AnalyzeError = QueueEmpty | MissingKey

  /** The list written to `cities_rating` and the cities the summary names. */
  datatype Report = Report(ratedCities: seq<RatedCity>, bestCities: seq<string>)

  predicate AllCalculated(items: seq<Message>) {
    forall i :: 0 <= i < |items| ==> items[i].Calculated?
  }

  function Stats(items: seq<Message>): (r: seq<CityStat>)
    requires AllCalculated(items)
    ensures |r| == |items| && forall i :: 0 <= i < |items| ==> items[i] == Calculated(r[i])
  {
    seq(|items|, i requires 0 <= i < |items| => items[i].stat)
  }

  function Names(data: seq<CityStat>): (r: seq<string>)
    ensures |r| == |data| && forall i :: 0 <= i < |data| ==> r[i] == data[i].city
  {
    seq(|data|, i requires 0 <= i < |data| => data[i].city)
  }

  /** `rated_cities` for a sorted `data`. */
  function RatedList(data: seq<CityStat>): (r: seq<RatedCity>)
    ensures |r| == |data|
    ensures forall i :: 0 <= i < |data| ==> r[i] == Rate(data[i], i + 1)
  {
    if data == [] then [] else RatedList(data[..|data| - 1]) + [Rate(data[|data| - 1], |data|)]
  }

  /** `best_cities` for a sorted `data`: the cities whose pair equals the
      first city's pair, in list order. */
  function BestCities(data: seq<CityStat>): (r: seq<string>)
    ensures |r| <= |data|
    ensures data != [] ==> r != [] && r[0] == data[0].city
  {
    if data == [] then [] else Names(WithKey(data, CityKey, CityKey(data[0])))
  }

  /** What `get_analyzed_data` returns or raises, given the queue it starts from. */
  function Analysis(q: seq<Option<Message>>): (r: Result<Report, AnalyzeError>)
    ensures r.Success? ==> |r.value.ratedCities| == SentinelIndex(q)
  {
    if SentinelIndex(q) == |q| then Failure(QueueEmpty)
    else
      var items := BeforeSentinel(q);
      if !AllCalculated(items) then Failure(MissingKey)
      else Success(Rank(Stats(items)))
  }

  /** The sort and the `enumerate` loop on the drained records. */
  function Rank(items: seq<CityStat>): (r: Report)
    ensures |r.ratedCities| == |items|
    ensures r.bestCities == [] <==> items == []
    ensures items != [] ==> r.bestCities[0] == r.ratedCities[0].city && r.ratedCities[0].rating == 1
  {
    var data := SortDescending(items, CityKey);
    assert |data| == |items| by {
      assert |multiset(data)| == |multiset(items)|;
    }
    Report(RatedList(data), BestCities(data))
  }

  lemma BestCitiesStep(data: seq<CityStat>, i: nat)
    requires i < |data|
    ensures BestCities(data[..i + 1]) ==
              BestCities(data[..i]) + (if CityKey(data[i]) == CityKey(data[0]) then [data[i].city] else [])
  {
    var k := CityKey(data[0]);
    if i > 0 {
      assert data[..i + 1] == data[..i] + [data[i]];
      WithKeyConcat(data[..i], [data[i]], CityKey, k);
      assert WithKey([data[i]], CityKey, k) == (if CityKey(data[i]) == k then [data[i]] else []);
      var a, b := WithKey(data[..i], CityKey, k), WithKey([data[i]], CityKey, k);
      assert Names(a + b) == Names(a) + Names(b);
    } else {
      assert data[..1] == [data[0]];
      assert WithKey([data[0]], CityKey, k) == [data[0]];
    }
  }

  /** Loop helper for `RateCities`: one more rated record. */
  lemma RatedListStep(data: seq<CityStat>, i: nat)
    requires i < |data|
    ensures RatedList(data[..i + 1]) == RatedList(data[..i]) + [Rate(data[i], i + 1)]
  {
    assert data[..i + 1][..i] == data[..i];
  }

  /** The `enumerate` loop of `get_analyzed_data` over the sorted records:
      rating each one by its position and collecting the cities whose pair
      equals that of the first. */
  method RateCities(cities: seq<CityStat>) returns (ratedCities: seq<RatedCity>, bestCities: seq<string>)
    ensures ratedCities == RatedList(cities)
    ensures bestCities == BestCities(cities)
  {
    ratedCities := [];
    bestCities := [];
    var bestParams: Option<Key> := None;
    for i := 0 to |cities|
      invariant ratedCities == RatedList(cities[..i])
      invariant bestCities == BestCities(cities[..i])
      invariant bestParams == if i == 0 then None else Some(CityKey(cities[0]))
    {
      var city := cities[i];
      var rating := i + 1;
      BestCitiesStep(cities, i);
      RatedListStep(cities, i);
      if rating == 1 {
        bestParams := Some(CityKey(city));
        bestCities := bestCities + [city.city];
      } else {
        var params := CityKey(city);
        if Some(params) == bestParams {
          bestCities := bestCities + [city.city];
        }
      }
      ratedCities := ratedCities + [Rate(city, rating)];
    }
    assert cities[..|cities|] == cities;
  }

  class DataAnalyzingTask {
    const queue: Queue<Message>

    constructor (queue: Queue<Message>)
      ensures this.queue == queue
    {
      this.queue := queue;
    }

    /** `get_analyzed_data`: drain up to the sentinel, sort, rate, and
        collect the cities tied with the first.  An exception raised inside
        is logged and re-raised, so it is the result here. */
    method GetAnalyzedData() returns (r: Result<Report, AnalyzeError>)
      modifies queue
      ensures r == Analysis(old(queue.contents))
      ensures queue.contents == AfterSentinel(old(queue.contents))
    {
      ghost var q := queue.contents;
      var data: seq<Message> := [];
      while true
        invariant |data| <= SentinelIndex(q)
        invariant data == Values(q[..|data|])
        invariant queue.contents == q[|data|..]
        decreases |queue.contents|
      {
        var got := queue.Get();
        if got.Failure? {
          assert SentinelIndex(q) == |q|;
          return Failure(QueueEmpty);
        }
        var cityCalculatedData := got.value;
        if cityCalculatedData.None? {
          assert q[|data|].None? && SentinelIndex(q) == |data|;
          break;
        }
        assert q[..|data| + 1] == q[..|data|] + [q[|data|]];
        data := data + [cityCalculatedData.value];
      }
      assert data == BeforeSentinel(q);
      if !AllCalculated(data) {
        return Failure(MissingKey);
      }
      var cities := SortDescending(Stats(data), CityKey);
      var ratedCities, bestCities := RateCities(cities);
      r := Success(Report(ratedCities, bestCities));
    }
  }

  // ---------------------------------------------------------------------
  // Properties of the ranking stage

  /** The ranking artifact has one record per drained city, rated 1, 2, ...
      by position, in non-increasing order of the pair; with `days` dropped
      it is a reordering of the drained records that keeps records with
      equal pairs in the order they were drained. */
  lemma RankingOrder(items: seq<CityStat>)
    ensures var rated := Rank(items).ratedCities;
            && |rated| == |items|
            && (forall i :: 0 <= i < |rated| ==> rated[i].rating == i + 1)
            && (forall i, j :: 0 <= i < j < |rated| ==> KeyLe(RatedKey(rated[j]), RatedKey(rated[i])))
            && exists data: seq<CityStat> ::
                 && multiset(data) == multiset(items)
                 && (forall k :: WithKey(data, CityKey, k) == WithKey(items, CityKey, k))
                 && rated == RatedList(data)
  {
    var data := SortDescending(items, CityKey);
    var rated := RatedList(data);
    assert rated == Rank(items).ratedCities;
    forall i, j | 0 <= i < j < |rated| ensures KeyLe(RatedKey(rated[j]), RatedKey(rated[i])) {
      assert RatedKey(rated[i]) == CityKey(data[i]) && RatedKey(rated[j]) == CityKey(data[j]);
    }
    assert |rated| == |items| by {
      assert |multiset(data)| == |multiset(items)|;
    }
    assert forall k :: WithKey(data, CityKey, k) == WithKey(items, CityKey, k);
  }

  /** `best_cities` names exactly the drained cities whose pair is the
      greatest, in the order they were drained; it is empty only for an empty
      drain, starts with the rank-1 city, and is the longest prefix of the
      ranking that shares the rank-1 pair. */
  lemma BestCitiesAreTheTopPrefix(items: seq<CityStat>)
    ensures var report := Rank(items);
            && (items == [] <==> report.bestCities == [])
            && (items != [] ==>
                  var top := RatedKey(report.ratedCities[0]);
                  && (forall i :: 0 <= i < |items| ==> KeyLe(CityKey(items[i]), top))
                  && report.bestCities == Names(WithKey(items, CityKey, top))
                  && |report.bestCities| <= |report.ratedCities|
                  && report.bestCities[0] == report.ratedCities[0].city
                  && (forall i :: 0 <= i < |report.bestCities| ==> report.bestCities[i] == report.ratedCities[i].city)
                  && (forall i :: 0 <= i < |report.ratedCities| ==>
                        (RatedKey(report.ratedCities[i]) == top <==> i < |report.bestCities|)))
  {
    var data := SortDescending(items, CityKey);
    var report := Rank(items);
    assert report.ratedCities == RatedList(data) && report.bestCities == BestCities(data);
    if items != [] {
      BestCitiesOfSorted(items);
      RatedListKeys(data);
    }
  }

  /** Helper for `RankingOrder`: rating keeps each record's city and pair. */
  lemma RatedListKeys(data: seq<CityStat>)
    ensures var rated := RatedList(data);
            forall i :: 0 <= i < |rated| ==> RatedKey(rated[i]) == CityKey(data[i]) && rated[i].city == data[i].city
  {
  }

  /** `BestCitiesAreTheTopPrefix` for the sorted records themselves. */
  lemma BestCitiesOfSorted(items: seq<CityStat>)
    requires items != []
    ensures var data := SortDescending(items, CityKey);
            var top := CityKey(data[0]);
            var best := BestCities(data);
            && (forall i :: 0 <= i < |items| ==> KeyLe(CityKey(items[i]), top))
            && best == Names(WithKey(items, CityKey, top))
            && 0 < |best| <= |data|
            && (forall i :: 0 <= i < |best| ==> best[i] == data[i].city)
            && (forall i :: 0 <= i < |data| ==> (CityKey(data[i]) == top <==> i < |best|))
  {
    var data := SortDescending(items, CityKey);
    assert data != [] by {
      assert items[0] in multiset(items);
    }
    var top := CityKey(data[0]);
    SortedHeadIsMax(data, CityKey, items);
    SortedHeadIsMax(data, CityKey, data);
    SortedTopRun(data, CityKey, top);
    var n := TopRun(data, CityKey, top);
    assert n >= 1;
    assert BestCities(data) == Names(data[..n]);
  }

  /** With a sentinel at the front the stage reports nothing and raises
      nothing. */
  lemma EmptyQueueReportsNothing(rest: seq<Option<Message>>)
    ensures Analysis([None] + rest) == Success(Report([], []))
  {
  }

  /** The queue a complete aggregation leaves is analysed as the sorted
      records. */
  lemma AnalysisOfCalculated(done: seq<CityStat>)
    ensures Analysis(Items(Computed(done)) + [None]) == Success(Rank(done))
  {
    DrainAfterPuts(Computed(done), []);
    assert Items(Computed(done)) + [None] + [] == Items(Computed(done)) + [None];
    assert Stats(Computed(done)) == done;
  }

  /** Raw documents still ahead of the sentinel make the sort key raise,
      whatever follows the sentinel; with none left the report is empty. */
  lemma AnalysisWithRawsLeft(raws: seq<RawForecast>, rest: seq<Option<Message>>)
    ensures Analysis(Items(Raws(raws)) + [None] + rest) ==
              if raws == [] then Success(Report([], [])) else Failure(MissingKey)
  {
    DrainAfterPuts(Raws(raws), rest);
    if raws == [] {
      assert Items(Raws(raws)) + [None] + rest == [None] + rest;
      EmptyQueueReportsNothing(rest);
    } else {
      assert BeforeSentinel(Items(Raws(raws)) + [None] + rest)[0] == Raw(raws[0]);
    }
  }

  /** The queue exactly as the fetch stage left it. */
  lemma AnalysisOfFetched(xs: seq<RawForecast>)
    ensures Analysis(Items(Raws(xs)) + [None]) == if xs == [] then Success(Report([], [])) else Failure(MissingKey)
  {
    AnalysisWithRawsLeft(xs, []);
    assert Items(Raws(xs)) + [None] + [] == Items(Raws(xs)) + [None];
  }

  /** What the analyzer makes of the queue the aggregation leaves: the full
      ranking when every city was computed; otherwise the report is empty
      when the failing city was the last one and the lookup of the key
      raises when raw documents are left ahead of the sentinel. */
  lemma AnalysisAfterAggregation(compute: RawForecast -> Result<CityStat, CalcError>, xs: seq<RawForecast>, cpuCount: int)
    ensures var done := SuccessPrefix(compute, xs);
            Analysis(AggregatedQueue(compute, xs, cpuCount)) ==
              if cpuCount - 1 < 1 then
                (if xs == [] then Success(Report([], [])) else Failure(MissingKey))
              else if |done| == |xs| then
                Success(Rank(done))
              else if |done| + 1 == |xs| then
                Success(Report([], []))
              else
                Failure(MissingKey)
  {
    var done := SuccessPrefix(compute, xs);
    if cpuCount - 1 < 1 {
      AnalysisWithoutPool(compute, xs, cpuCount);
    } else if |done| == |xs| {
      AnalysisAfterCompletion(compute, xs, cpuCount);
    } else {
      AnalysisAfterInterruption(compute, xs, cpuCount);
    }
  }

  lemma AnalysisWithoutPool(compute: RawForecast -> Result<CityStat, CalcError>, xs: seq<RawForecast>, cpuCount: int)
    requires cpuCount - 1 < 1
    ensures Analysis(AggregatedQueue(compute, xs, cpuCount)) == if xs == [] then Success(Report([], [])) else Failure(MissingKey)
  {
    assert AggregatedQueue(compute, xs, cpuCount) == Items(Raws(xs)) + [None];
    AnalysisOfFetched(xs);
  }

  lemma AnalysisAfterCompletion(compute: RawForecast -> Result<CityStat, CalcError>, xs: seq<RawForecast>, cpuCount: int)
    requires cpuCount - 1 >= 1 && |SuccessPrefix(compute, xs)| == |xs|
    ensures Analysis(AggregatedQueue(compute, xs, cpuCount)) == Success(Rank(SuccessPrefix(compute, xs)))
  {
    var done := SuccessPrefix(compute, xs);
    assert AggregatedQueue(compute, xs, cpuCount) == Items(Computed(done)) + [None];
    AnalysisOfCalculated(done);
  }

  lemma AnalysisAfterInterruption(compute: RawForecast -> Result<CityStat, CalcError>, xs: seq<RawForecast>, cpuCount: int)
    requires cpuCount - 1 >= 1 && |SuccessPrefix(compute, xs)| < |xs|
    ensures var done := SuccessPrefix(compute, xs);
            Analysis(AggregatedQueue(compute, xs, cpuCount)) ==
              if |done| + 1 == |xs| then Success(Report([], [])) else Failure(MissingKey)
  {
    var done := SuccessPrefix(compute, xs);
    var left := xs[|done| + 1..];
    var q := AggregatedQueue(compute, xs, cpuCount);
    assert q == Items(Raws(left)) + [None] + Items(Computed(done));
    AnalysisWithRawsLeft(left, Items(Computed(done)));
    if |done| + 1 == |xs| {
      assert left == [];
      assert Analysis(q) == Success(Report([], []));
    } else {
      assert left != [];
      assert Analysis(q) == Failure(MissingKey);
    }
  }

  /** With three calculated records queued and then the sentinel, the
      analyzer ranks exactly those three. */
  lemma AnalysisOfThree(a: CityStat, b: CityStat, c: CityStat)
    ensures var data := SortDescending([a, b, c], CityKey);
            Analysis(Items([Calculated(a), Calculated(b), Calculated(c)]) + [None]) ==
              Success(Report(RatedList(data), BestCities(data)))
  {
    var items := [Calculated(a), Calculated(b), Calculated(c)];
    var q := Items(items) + [None];
    DrainAfterPuts(items, []);
    assert q + [] == q;
    assert Stats(items) == [a, b, c];
  }

  // Small steps of the sort on short lists, used by the examples below.

  lemma SortOne(c: CityStat)
    ensures SortDescending([c], CityKey) == [c]
  {
    assert [c][1..] == [];
  }

  lemma SortTwo(b: CityStat, c: CityStat)
    ensures SortDescending([b, c], CityKey) == Insert(b, [c], CityKey)
  {
    assert [b, c][1..] == [c];
    SortOne(c);
  }

  lemma SortThree(a: CityStat, b: CityStat, c: CityStat)
    ensures SortDescending([a, b, c], CityKey) == Insert(a, Insert(b, [c], CityKey), CityKey)
  {
    assert [a, b, c][1..] == [b, c];
    SortTwo(b, c);
  }

  lemma InsertInFront(x: CityStat, s: seq<CityStat>)
    requires s != [] && KeyLe(CityKey(s[0]), CityKey(x))
    ensures Insert(x, s, CityKey) == [x] + s
  {
  }

  lemma InsertBehindOne(x: CityStat, y: CityStat, s: seq<CityStat>)
    requires !KeyLe(CityKey(y), CityKey(x))
    requires s == [] || KeyLe(CityKey(s[0]), CityKey(x))
    ensures Insert(x, [y] + s, CityKey) == [y, x] + s
  {
    assert ([y] + s)[0] == y && ([y] + s)[1..] == s;
  }

  lemma WithKeyOfThree(a: CityStat, b: CityStat, c: CityStat, k: Key)
    ensures WithKey([a, b, c], CityKey, k) ==
              (if CityKey(a) == k then [a] else []) + (if CityKey(b) == k then [b] else []) +
              (if CityKey(c) == k then [c] else [])
  {
    assert [a, b, c] == [a] + [b] + [c];
    WithKeyConcat([a] + [b], [c], CityKey, k);
    WithKeyConcat([a], [b], CityKey, k);
    assert [a][1..] == [] && [b][1..] == [] && [c][1..] == [];
  }

  lemma RatedListOfThree(a: CityStat, b: CityStat, c: CityStat)
    ensures RatedList([a, b, c]) == [Rate(a, 1), Rate(b, 2), Rate(c, 3)]
  {
  }

  lemma SortRainlessFirst(a: CityStat, b: CityStat, c: CityStat)
    requires CityKey(a) == CityKey(b)
    requires a.avgRainless < c.avgRainless
    ensures SortDescending([a, b, c], CityKey) == [c, a, b]
  {
    SortThree(a, b, c);
    InsertRainlessFirst(a, b, c);
  }

  lemma InsertRainlessFirst(a: CityStat, b: CityStat, c: CityStat)
    requires CityKey(a) == CityKey(b)
    requires a.avgRainless < c.avgRainless
    ensures Insert(a, Insert(b, [c], CityKey), CityKey) == [c, a, b]
  {
    InsertBehindOne(b, c, []);
    assert [c] + [] == [c] && [c, b] + [] == [c, b];
    InsertBehindOne(a, c, [b]);
    assert [c] + [b] == [c, b] && [c, a] + [b] == [c, a, b];
  }

  lemma SortTieAtTheTop(a: CityStat, b: CityStat, c: CityStat)
    requires CityKey(a) == CityKey(b)
    requires c.avgRainless < a.avgRainless
    ensures SortDescending([a, b, c], CityKey) == [a, b, c]
  {
    SortThree(a, b, c);
    InsertTieAtTheTop(a, b, c);
  }

  lemma InsertTieAtTheTop(a: CityStat, b: CityStat, c: CityStat)
    requires CityKey(a) == CityKey(b)
    requires c.avgRainless < a.avgRainless
    ensures Insert(a, Insert(b, [c], CityKey), CityKey) == [a, b, c]
  {
    InsertInFront(b, [c]);
    InsertInFront(a, [b, c]);
  }

  /** Three cities: A and B tied, C with more rainless hours but a lower
      temperature.  The primary key is the
      rainless average, so C ranks first and is the only best city; the tied
      A and B keep their queue order and get consecutive ratings 2 and 3. */
  lemma ExampleRainlessFirst(a: CityStat, b: CityStat, c: CityStat)
    requires CityKey(a) == CityKey(b)
    requires a.avgRainless < c.avgRainless && c.avgTemp < a.avgTemp
    ensures Analysis(Items([Calculated(a), Calculated(b), Calculated(c)]) + [None]) ==
              Success(Report([Rate(c, 1), Rate(a, 2), Rate(b, 3)], [c.city]))
  {
    AnalysisOfThree(a, b, c);
    SortRainlessFirst(a, b, c);
    BestOfRainlessFirst(a, b, c);
    RatedListOfThree(c, a, b);
  }

  lemma BestOfRainlessFirst(a: CityStat, b: CityStat, c: CityStat)
    requires CityKey(a) == CityKey(b)
    requires a.avgRainless < c.avgRainless
    ensures BestCities([c, a, b]) == [c.city]
  {
    WithKeyOfThree(c, a, b, CityKey(c));
    assert [c] + [] + [] == [c];
  }

  /** Three cities: A and B tied at 20.0 degrees with 8.0 rainless hours,
      C at 18.0 degrees with 9.0.  C ranks first and alone is named; A and
      B are rated 2 and 3. */
  lemma ExampleFigures()
    ensures var a, b, c := CityStat("A", [], 200, 80), CityStat("B", [], 200, 80), CityStat("C", [], 180, 90);
            Analysis(Items([Calculated(a), Calculated(b), Calculated(c)]) + [None]) ==
              Success(Report([Rate(c, 1), Rate(a, 2), Rate(b, 3)], ["C"]))
  {
    ExampleRainlessFirst(CityStat("A", [], 200, 80), CityStat("B", [], 200, 80), CityStat("C", [], 180, 90));
  }

  /** Two cities tied on the greatest pair are both named, in the order they
      were drained, but rated 1 and 2: a rating is a position, not a rank. */
  lemma ExampleTieAtTheTop(a: CityStat, b: CityStat, c: CityStat)
    requires CityKey(a) == CityKey(b)
    requires c.avgRainless < a.avgRainless
    ensures Analysis(Items([Calculated(a), Calculated(b), Calculated(c)]) + [None]) ==
              Success(Report([Rate(a, 1), Rate(b, 2), Rate(c, 3)], [a.city, b.city]))
  {
    AnalysisOfThree(a, b, c);
    SortTieAtTheTop(a, b, c);
    BestOfTieAtTheTop(a, b, c);
    RatedListOfThree(a, b, c);
  }

  lemma BestOfTieAtTheTop(a: CityStat, b: CityStat, c: CityStat)
    requires CityKey(a) == CityKey(b)
    requires c.avgRainless < a.avgRainless
    ensures BestCities([a, b, c]) == [a.city, b.city]
  {
    WithKeyOfThree(a, b, c, CityKey(a));
    assert [a] + [b] + [] == [a, b];
  }
}
