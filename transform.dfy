/** The per-city statistics reducer of data_transform.py
    (`DataCalculationTask`).

    The specification functions below describe, without loops, what the
    reducer's two loops compute; the methods `DailyStatistics` (the hourly
    loop) and `CalculateCity` with `ScanForecasts` and `AddDay` (the loop
    over forecast days, one turn at a time) are the loops themselves,
    proved equal to them. */
module Transform {
  import opened Wrappers
  import opened Weather
  import opened Rounding

  /** `self.rainless_conditions`. */
  const RAINLESS_CONDITIONS: set<string> := {"clear", "partly-cloudy", "cloudy", "overcast", "drizzle"}

  /** The number of hours of day in 9..19: a day is valid when it has this many. */
  const DAYTIME_HOURS: nat := 11

  predicate IsDaytime(h: RawHour) {
    9 <= h.hour <= 19
  }

  predicate IsRainless(h: RawHour) {
    h.condition in RAINLESS_CONDITIONS
  }

  /** The daytime entries of `hours`, in their order. */
  function Daytime(hours: seq<RawHour>): (r: seq<RawHour>)
    ensures |r| <= |hours|
    ensures forall i :: 0 <= i < |r| ==> IsDaytime(r[i])
  {
    if hours == [] then []
    else
      var h := hours[|hours| - 1];
      Daytime(hours[..|hours| - 1]) + (if IsDaytime(h) then [h] else [])
  }

  /** `Daytime` keeps exactly the entries with an hour of day in 9..19,
      each as many times as it occurs: a repeated hour entry counts twice
      towards the eleven a valid day needs. */
  lemma {:induction false} DaytimeMembers(hours: seq<RawHour>)
    ensures forall h :: h in Daytime(hours) <==> h in hours && IsDaytime(h)
    ensures forall h :: multiset(Daytime(hours))[h] == if IsDaytime(h) then multiset(hours)[h] else 0
  {
    if hours != [] {
      var init, last := hours[..|hours| - 1], hours[|hours| - 1];
      assert hours == init + [last];
      DaytimeMembers(init);
      assert multiset(hours) == multiset(init) + multiset{last};
      assert multiset(Daytime(hours)) == multiset(Daytime(init)) + multiset(if IsDaytime(last) then [last] else []);
    }
  }

  function SumTemps(hours: seq<RawHour>): int {
    if hours == [] then 0 else SumTemps(hours[..|hours| - 1]) + hours[|hours| - 1].temp
  }

  function CountRainless(hours: seq<RawHour>): (r: nat)
    ensures r <= |hours|
  {
    if hours == [] then 0
    else CountRainless(hours[..|hours| - 1]) + (if IsRainless(hours[|hours| - 1]) then 1 else 0)
  }

  /** What `_get_daily_statistics_by_hours` returns, as a function of the hours. */
  method DailyStatistics(hours: seq<RawHour>) returns (rainlessHours: nat, sumTempPerDay: int, numOfHours: nat)
    ensures numOfHours == |Daytime(hours)|
    ensures sumTempPerDay == SumTemps(Daytime(hours))
    ensures rainlessHours == CountRainless(Daytime(hours))
    ensures rainlessHours <= numOfHours
  {
    rainlessHours, sumTempPerDay, numOfHours := 0, 0, 0;
    for i := 0 to |hours|
      invariant numOfHours == |Daytime(hours[..i])|
      invariant sumTempPerDay == SumTemps(Daytime(hours[..i]))
      invariant rainlessHours == CountRainless(Daytime(hours[..i]))
    {
      var hour := hours[i];
      DaytimeSnoc(hours, i);
      if 9 <= hour.hour <= 19 {
        numOfHours := numOfHours + 1;
        sumTempPerDay := sumTempPerDay + hour.temp;
        if hour.condition in RAINLESS_CONDITIONS {
          rainlessHours := rainlessHours + 1;
        }
      }
    }
    assert hours[..|hours|] == hours;
  }

  /** One more hour of the forecast: the daytime counters grow by that hour
      when it is a daytime hour and stay otherwise. */
  lemma DaytimeSnoc(hours: seq<RawHour>, i: nat)
    requires i < |hours|
    ensures var seen, h := Daytime(hours[..i]), hours[i];
            var next := Daytime(hours[..i + 1]);
            && |next| == |seen| + (if IsDaytime(h) then 1 else 0)
            && SumTemps(next) == SumTemps(seen) + (if IsDaytime(h) then h.temp else 0)
            && CountRainless(next) == CountRainless(seen) + (if IsDaytime(h) && IsRainless(h) then 1 else 0)
  {
    var seen, h := Daytime(hours[..i]), hours[i];
    assert hours[..i + 1][..i] == hours[..i];
    assert Daytime(hours[..i + 1]) == seen + (if IsDaytime(h) then [h] else []);
    if IsDaytime(h) {
      assert (seen + [h])[..|seen|] == seen;
    } else {
      assert seen + [] == seen;
    }
  }

  /** The entry `result['days']` receives for one forecast. */
  function DayOf(d: RawDay): (r: DayRecord)
    ensures r.date == d.date
    ensures r.stats.Some? <==> |Daytime(d.hours)| == DAYTIME_HOURS
    ensures r.stats.Some? ==> r.stats.value.rainlessHours <= DAYTIME_HOURS
  {
    var daytime := Daytime(d.hours);
    if |daytime| == DAYTIME_HOURS then
      DayRecord(d.date, Some(DayStat(CountRainless(daytime), RoundDiv(SumTemps(daytime), DAYTIME_HOURS))))
    else
      DayRecord(d.date, None)
  }

  /** `result['days']`: one entry per forecast, in forecast order. */
  function Days(forecasts: seq<RawDay>): (r: seq<DayRecord>)
    ensures |r| == |forecasts|
  {
    if forecasts == [] then []
    else Days(forecasts[..|forecasts| - 1]) + [DayOf(forecasts[|forecasts| - 1])]
  }

  /** `result['days']` holds, at each position, the entry of the forecast
      at that position. */
  lemma {:induction false} DaysPointwise(forecasts: seq<RawDay>)
    ensures forall i :: 0 <= i < |forecasts| ==> Days(forecasts)[i] == DayOf(forecasts[i])
  {
    if forecasts != [] {
      var init := forecasts[..|forecasts| - 1];
      DaysPointwise(init);
      assert forall i :: 0 <= i < |init| ==> init[i] == forecasts[i];
    }
  }

  /** `num_of_days`: the days that received statistics. */
  function ValidCount(days: seq<DayRecord>): (r: nat)
    ensures r <= |days|
  {
    if days == [] then 0
    else ValidCount(days[..|days| - 1]) + (if days[|days| - 1].stats.Some? then 1 else 0)
  }

  /** `sum_avg_temps_for_all_days`. */
  function SumAverages(days: seq<DayRecord>): int {
    if days == [] then 0
    else
      var last := days[|days| - 1];
      SumAverages(days[..|days| - 1]) + (if last.stats.Some? then last.stats.value.avgTemp else 0)
  }

  /** `sum_rainless_hours_for_all_days`. */
  function SumRainless(days: seq<DayRecord>): nat {
    if days == [] then 0
    else
      var last := days[|days| - 1];
      SumRainless(days[..|days| - 1]) + (if last.stats.Some? then last.stats.value.rainlessHours else 0)
  }

  /** What `get_data_calculation` returns or raises for one city. */
  function CityStatistics(city: RawForecast): (r: Result<CityStat, CalcError>)
    ensures r.Failure? <==> ValidCount(Days(city.forecasts)) == 0
    ensures r.Success? ==> r.value.city == city.city && r.value.days == Days(city.forecasts)
  {
    var days := Days(city.forecasts);
    var n := ValidCount(days);
    if n == 0 then Failure(ZeroDivision)
    else Success(CityStat(city.city, days, RoundDiv(SumAverages(days), n), RoundDiv(10 * SumRainless(days), n)))
  }

  /** `get_data_calculation`: the scan of the forecasts, then the two city
      averages, which divide by the number of valid days. */
  method CalculateCity(city: RawForecast) returns (r: Result<CityStat, CalcError>)
    ensures r == CityStatistics(city)
  {
    var days, numOfDays, sumAvgTemps, sumRainless := ScanForecasts(city.forecasts);
    if numOfDays == 0 {
      r := Failure(ZeroDivision);
    } else {
      r := Success(CityStat(city.city, days, RoundDiv(sumAvgTemps, numOfDays), RoundDiv(10 * sumRainless, numOfDays)));
    }
  }

  /** The `for forecast in city['forecasts']` loop: it appends a date-only
      entry per forecast, completes it when the day is valid, and keeps the
      three city-level accumulators. */
  method ScanForecasts(forecasts: seq<RawDay>)
    returns (days: seq<DayRecord>, numOfDays: nat, sumAvgTemps: int, sumRainless: nat)
    ensures days == Days(forecasts)
    ensures numOfDays == ValidCount(days)
    ensures sumAvgTemps == SumAverages(days)
    ensures sumRainless == SumRainless(days)
  {
    days, numOfDays, sumAvgTemps, sumRainless := [], 0, 0, 0;
    for i := 0 to |forecasts|
      invariant days == Days(forecasts[..i])
      invariant numOfDays == ValidCount(days)
      invariant sumAvgTemps == SumAverages(days)
      invariant sumRainless == SumRainless(days)
    {
      DaysStep(forecasts, i);
      TotalsSnoc(days, DayOf(forecasts[i]));
      days, numOfDays, sumAvgTemps, sumRainless := AddDay(forecasts[i], days, numOfDays, sumAvgTemps, sumRainless);
    }
    assert forecasts[..|forecasts|] == forecasts;
  }

  /** One turn of that loop: `result['days']` gets a date-only entry, which
      is completed, and counted in the accumulators, when the day has
      eleven daytime hours. */
  method AddDay(forecast: RawDay, days: seq<DayRecord>, numOfDays: nat, sumAvgTemps: int, sumRainless: nat)
    returns (days': seq<DayRecord>, numOfDays': nat, sumAvgTemps': int, sumRainless': nat)
    ensures var d := DayOf(forecast);
            && days' == days + [d]
            && numOfDays' == numOfDays + (if d.stats.Some? then 1 else 0)
            && sumAvgTemps' == sumAvgTemps + (if d.stats.Some? then d.stats.value.avgTemp else 0)
            && sumRainless' == sumRainless + (if d.stats.Some? then d.stats.value.rainlessHours else 0)
  {
    days', numOfDays', sumAvgTemps', sumRainless' := days + [DayRecord(forecast.date, None)], numOfDays, sumAvgTemps, sumRainless;
    var rainlessHours, sumTempPerDay, numOfHours := DailyStatistics(forecast.hours);
    DayOfCounters(forecast, rainlessHours, sumTempPerDay, numOfHours);
    if numOfHours == DAYTIME_HOURS {
      numOfDays' := numOfDays' + 1;
      var avgTempPerDay := RoundDiv(sumTempPerDay, DAYTIME_HOURS);
      sumAvgTemps' := sumAvgTemps' + avgTempPerDay;
      sumRainless' := sumRainless' + rainlessHours;
      CompleteLast(days, forecast.date, DayStat(rainlessHours, avgTempPerDay));
      days' := days'[..|days'| - 1] + [days'[|days'| - 1].(stats := Some(DayStat(rainlessHours, avgTempPerDay)))];
    }
  }

  /** Loop helper for `AddDay`: the entry `DayOf` gives a day, in terms of
      the three counters the daily scan returns for it. */
  lemma DayOfCounters(d: RawDay, rainlessHours: nat, sumTempPerDay: int, numOfHours: nat)
    requires numOfHours == |Daytime(d.hours)|
    requires sumTempPerDay == SumTemps(Daytime(d.hours))
    requires rainlessHours == CountRainless(Daytime(d.hours))
    ensures DayOf(d) == if numOfHours == DAYTIME_HOURS
                        then DayRecord(d.date, Some(DayStat(rainlessHours, RoundDiv(sumTempPerDay, DAYTIME_HOURS))))
                        else DayRecord(d.date, None)
  {
  }

  /** Completing the date-only entry just appended. */
  lemma CompleteLast(before: seq<DayRecord>, date: string, stat: DayStat)
    ensures var days := before + [DayRecord(date, None)];
            days[..|days| - 1] + [days[|days| - 1].(stats := Some(stat))] == before + [DayRecord(date, Some(stat))]
  {
    var days := before + [DayRecord(date, None)];
    assert days[..|days| - 1] == before;
  }

  lemma DaysStep(forecasts: seq<RawDay>, i: nat)
    requires i < |forecasts|
    ensures Days(forecasts[..i + 1]) == Days(forecasts[..i]) + [DayOf(forecasts[i])]
  {
    assert forecasts[..i + 1][..i] == forecasts[..i];
  }

  lemma TotalsSnoc(days: seq<DayRecord>, d: DayRecord)
    ensures ValidCount(days + [d]) == ValidCount(days) + (if d.stats.Some? then 1 else 0)
    ensures SumAverages(days + [d]) == SumAverages(days) + (if d.stats.Some? then d.stats.value.avgTemp else 0)
    ensures SumRainless(days + [d]) == SumRainless(days) + (if d.stats.Some? then d.stats.value.rainlessHours else 0)
  {
    assert (days + [d])[..|days|] == days;
  }

  // ---------------------------------------------------------------------
  // Properties of the daily scan

  lemma {:induction false} DaytimeConcat(a: seq<RawHour>, b: seq<RawHour>)
    ensures Daytime(a + b) == Daytime(a) + Daytime(b)
  {
    if b == [] {
      assert a + b == a;
    } else {
      var b' := b[..|b| - 1];
      assert (a + b)[..|a + b| - 1] == a + b';
      DaytimeConcat(a, b');
    }
  }

  /** Hours outside 9..19 change none of the three accumulators, wherever
      they occur in the list. */
  lemma NightHoursIgnored(a: seq<RawHour>, night: seq<RawHour>, b: seq<RawHour>)
    requires forall i :: 0 <= i < |night| ==> !IsDaytime(night[i])
    ensures Daytime(a + night + b) == Daytime(a + b)
    ensures |Daytime(a + night + b)| == |Daytime(a + b)|
    ensures SumTemps(Daytime(a + night + b)) == SumTemps(Daytime(a + b))
    ensures CountRainless(Daytime(a + night + b)) == CountRainless(Daytime(a + b))
  {
    NoDaytime(night);
    DaytimeConcat(a + night, b);
    DaytimeConcat(a, night);
    assert Daytime(a) + [] == Daytime(a);
    DaytimeConcat(a, b);
  }

  lemma NoDaytime(night: seq<RawHour>)
    requires forall i :: 0 <= i < |night| ==> !IsDaytime(night[i])
    ensures Daytime(night) == []
  {
    DaytimeMembers(night);
  }

  /** The rainless count is zero exactly when no hour is rainless, and equals
      the number of hours exactly when every hour is. */
  lemma {:induction false} CountRainlessExtremes(hours: seq<RawHour>)
    ensures CountRainless(hours) == 0 <==> forall i :: 0 <= i < |hours| ==> !IsRainless(hours[i])
    ensures CountRainless(hours) == |hours| <==> forall i :: 0 <= i < |hours| ==> IsRainless(hours[i])
  {
    if hours != [] {
      var init := hours[..|hours| - 1];
      CountRainlessExtremes(init);
      assert forall i :: 0 <= i < |init| ==> init[i] == hours[i];
    }
  }

  // ---------------------------------------------------------------------
  // Properties of the city statistics

  lemma {:induction false} ValidCountZero(days: seq<DayRecord>)
    ensures ValidCount(days) == 0 <==> forall i :: 0 <= i < |days| ==> days[i].stats.None?
  {
    if days != [] {
      var init := days[..|days| - 1];
      ValidCountZero(init);
      assert forall i :: 0 <= i < |init| ==> init[i] == days[i];
    }
  }

  /** The computation raises exactly when no forecast day has eleven daytime
      hours; otherwise the record carries the city's name and one entry per
      forecast, each with that forecast's date. */
  lemma CityStatisticsShape(city: RawForecast)
    ensures CityStatistics(city).Failure? <==>
            forall i :: 0 <= i < |city.forecasts| ==> |Daytime(city.forecasts[i].hours)| != DAYTIME_HOURS
    ensures CityStatistics(city).Success? ==>
              var s := CityStatistics(city).value;
              && s.city == city.city
              && |s.days| == |city.forecasts|
              && forall i :: 0 <= i < |city.forecasts| ==>
                   && s.days[i].date == city.forecasts[i].date
                   && (s.days[i].stats.Some? <==> |Daytime(city.forecasts[i].hours)| == DAYTIME_HOURS)
  {
    var days := Days(city.forecasts);
    DaysPointwise(city.forecasts);
    ValidCountZero(days);
    assert forall i :: 0 <= i < |city.forecasts| ==>
      (days[i].stats.None? <==> |Daytime(city.forecasts[i].hours)| != DAYTIME_HOURS);
  }

  lemma {:induction false} SumRainlessBound(days: seq<DayRecord>)
    requires forall i :: 0 <= i < |days| && days[i].stats.Some? ==> days[i].stats.value.rainlessHours <= DAYTIME_HOURS
    ensures SumRainless(days) <= DAYTIME_HOURS * ValidCount(days)
  {
    if days != [] {
      var init := days[..|days| - 1];
      assert forall i :: 0 <= i < |init| ==> init[i] == days[i];
      SumRainlessBound(init);
    }
  }

  /** The city's average number of rainless hours lies between 0 and 11
      (in tenths: between 0 and 110). */
  lemma RainlessAverageBounds(city: RawForecast)
    requires CityStatistics(city).Success?
    ensures 0 <= CityStatistics(city).value.avgRainless <= 10 * DAYTIME_HOURS
  {
    var days := Days(city.forecasts);
    var n := ValidCount(days);
    DaysPointwise(city.forecasts);
    SumRainlessBound(days);
    assert 10 * SumRainless(days) <= 110 * n;
    RoundDivWithin(10 * SumRainless(days), n, 0, 110);
  }

  lemma {:induction false} SumTempsBounds(hours: seq<RawHour>, lo: int, hi: int)
    requires forall i :: 0 <= i < |hours| ==> lo <= hours[i].temp <= hi
    ensures lo * |hours| <= SumTemps(hours) <= hi * |hours|
  {
    if hours != [] {
      var init := hours[..|hours| - 1];
      assert forall i :: 0 <= i < |init| ==> init[i] == hours[i];
      SumTempsBounds(init, lo, hi);
      MulSucc(lo, |init|);
      MulSucc(hi, |init|);
    }
  }

  lemma {:induction false} SumAveragesBounds(days: seq<DayRecord>, lo: int, hi: int)
    requires forall i :: 0 <= i < |days| && days[i].stats.Some? ==> lo <= days[i].stats.value.avgTemp <= hi
    ensures lo * ValidCount(days) <= SumAverages(days) <= hi * ValidCount(days)
  {
    if days != [] {
      var init := days[..|days| - 1];
      assert forall i :: 0 <= i < |init| ==> init[i] == days[i];
      SumAveragesBounds(init, lo, hi);
      if days[|days| - 1].stats.Some? {
        MulSucc(lo, ValidCount(init));
        MulSucc(hi, ValidCount(init));
      }
    }
  }

  /** Averages are averages: when every daytime temperature of every day lies
      in [lo, hi], so does every valid day's average and the city's average. */
  lemma TemperatureAverageBounds(city: RawForecast, lo: int, hi: int)
    requires forall i, j :: 0 <= i < |city.forecasts| && 0 <= j < |city.forecasts[i].hours| ==>
               IsDaytime(city.forecasts[i].hours[j]) ==> lo <= city.forecasts[i].hours[j].temp <= hi
    requires CityStatistics(city).Success?
    ensures forall i :: 0 <= i < |city.forecasts| && CityStatistics(city).value.days[i].stats.Some? ==>
              lo <= CityStatistics(city).value.days[i].stats.value.avgTemp <= hi
    ensures lo <= CityStatistics(city).value.avgTemp <= hi
  {
    var days := Days(city.forecasts);
    DaysPointwise(city.forecasts);
    forall i | 0 <= i < |city.forecasts| && days[i].stats.Some?
      ensures lo <= days[i].stats.value.avgTemp <= hi
    {
      var daytime := Daytime(city.forecasts[i].hours);
      DaytimeMembers(city.forecasts[i].hours);
      forall k | 0 <= k < |daytime| ensures lo <= daytime[k].temp <= hi {
        assert daytime[k] in daytime;
        var j :| 0 <= j < |city.forecasts[i].hours| && city.forecasts[i].hours[j] == daytime[k];
      }
      SumTempsBounds(daytime, lo, hi);
      RoundDivWithin(SumTemps(daytime), DAYTIME_HOURS, lo, hi);
    }
    SumAveragesBounds(days, lo, hi);
    RoundDivWithin(SumAverages(days), ValidCount(days), lo, hi);
  }

  lemma {:induction false} DaysConcat(a: seq<RawDay>, b: seq<RawDay>)
    ensures Days(a + b) == Days(a) + Days(b)
  {
    DaysPointwise(a + b);
    DaysPointwise(a);
    DaysPointwise(b);
    assert forall i :: 0 <= i < |b| ==> (a + b)[|a| + i] == b[i];
  }

  lemma {:induction false} TotalsConcat(x: seq<DayRecord>, y: seq<DayRecord>)
    ensures ValidCount(x + y) == ValidCount(x) + ValidCount(y)
    ensures SumAverages(x + y) == SumAverages(x) + SumAverages(y)
    ensures SumRainless(x + y) == SumRainless(x) + SumRainless(y)
  {
    if y == [] {
      assert x + y == x;
    } else {
      var y' := y[..|y| - 1];
      assert (x + y)[..|x + y| - 1] == x + y';
      TotalsConcat(x, y');
    }
  }

  /** A day without exactly eleven daytime hours, wherever it stands, only
      adds a date-only entry: it changes neither whether the computation
      raises nor either city average. */
  lemma InvalidDayIgnored(name: string, a: seq<RawDay>, d: RawDay, b: seq<RawDay>)
    requires |Daytime(d.hours)| != DAYTIME_HOURS
    ensures var with := CityStatistics(RawForecast(name, a + [d] + b));
            var without := CityStatistics(RawForecast(name, a + b));
            && with.Success? == without.Success?
            && (with.Success? ==>
                  && with.value.avgTemp == without.value.avgTemp
                  && with.value.avgRainless == without.value.avgRainless)
  {
    DaysAround(a, d, b);
    DaysConcat(a, b);
    TotalsAround(Days(a), DayOf(d), Days(b));
    SameTotalsSameAverages(RawForecast(name, a + [d] + b), RawForecast(name, a + b));
  }

  lemma DaysAround(a: seq<RawDay>, d: RawDay, b: seq<RawDay>)
    ensures Days(a + [d] + b) == Days(a) + [DayOf(d)] + Days(b)
  {
    DaysConcat(a + [d], b);
    DaysConcat(a, [d]);
  }

  lemma TotalsAround(x: seq<DayRecord>, gap: DayRecord, y: seq<DayRecord>)
    requires gap.stats.None?
    ensures ValidCount(x + [gap] + y) == ValidCount(x + y)
    ensures SumAverages(x + [gap] + y) == SumAverages(x + y)
    ensures SumRainless(x + [gap] + y) == SumRainless(x + y)
  {
    TotalsConcat(x + [gap], y);
    TotalsSnoc(x, gap);
    TotalsConcat(x, y);
  }

  /** Helper for `InvalidDayIgnored`: the outcome depends on the day list
      only through the three accumulators. */
  lemma SameTotalsSameAverages(c1: RawForecast, c2: RawForecast)
    requires ValidCount(Days(c1.forecasts)) == ValidCount(Days(c2.forecasts))
    requires SumAverages(Days(c1.forecasts)) == SumAverages(Days(c2.forecasts))
    requires SumRainless(Days(c1.forecasts)) == SumRainless(Days(c2.forecasts))
    ensures CityStatistics(c1).Success? == CityStatistics(c2).Success?
    ensures CityStatistics(c1).Success? ==>
              && CityStatistics(c1).value.avgTemp == CityStatistics(c2).value.avgTemp
              && CityStatistics(c1).value.avgRainless == CityStatistics(c2).value.avgRainless
  {
  }
}
