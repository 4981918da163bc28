/** The records that flow through the forecast pipeline.

    Temperatures are integers counting TENTHS of a degree Celsius, so every
    value the program rounds to one decimal place is an exact integer here.
    Condition names and dates are strings; an hour-of-day is the integer the
    program obtains with `int(hour['hour'])`. */
module Weather {
  import opened Wrappers

  /** One entry of a forecast day's `hours` list. */
  datatype RawHour = RawHour(hour: int, temp: int, condition: string)

  /** One entry of a forecast's `forecasts` list. */
  datatype RawDay = RawDay(date: string, hours: seq<RawHour>)

  /** One city's fetched document: `geo_object.locality.name` and `forecasts`. */
  datatype RawForecast = RawForecast(city: string, forecasts: seq<RawDay>)

  /** The two keys a valid day receives: `rainless hours` and
      `averange temperature per day` (tenths). */
  datatype DayStat = DayStat(rainlessHours: nat, avgTemp: int)

  /** One entry of `result['days']`: always a `date`, statistics only for a
      day with exactly eleven daytime hours. */
  datatype DayRecord = DayRecord(date: string, stats: Option<DayStat>)

  /** A calculated city record: `city`, `days`, `average temp for all days`
      and `average rainless hours for all days` (both in tenths). */
  datatype CityStat = CityStat(city: string, days: seq<DayRecord>, avgTemp: int, avgRainless: int)

  /** A city record after ranking: `days` removed, `rating` added. */
  datatype RatedCity = RatedCity(city: string, avgTemp: int, avgRainless: int, rating: nat)

  /** The only exception the statistics computation raises: the division by
      the number of valid days when there is none. */
  datatype CalcError = ZeroDivision
}
