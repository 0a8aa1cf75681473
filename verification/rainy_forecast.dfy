/** The "rain tomorrow?" check of the daily notification (`_get_rainy_forecast`
    in `src/cogs/rainy_forecast.py`): the period arithmetic that turns "now"
    and the user's zone into tomorrow's UTC period, the instant whose 12-hour
    symbol is shown, and the two service calls. The clock reading is the
    parameter `now`, taken as an aware instant, and the user's zone is the
    fixed offset `zone`. */
module RainyForecastCog {
  import opened Results
  import opened JsonValues
  import opened TimeUtils
  import opened CompleteResponse
  import opened Models
  import opened WeatherService

  /** Local midnight at the start of tomorrow: today's local date with the
      time of day zeroed, plus one day. */
  function LocalStartOfDayTomorrow(now: AwareDateTime, zone: Offset): (r: AwareDateTime)
    ensures r.zone == Some(zone)
    ensures r.Time() == 0
    ensures r.Day() == ToZone(now, zone).Day() + 1
  {
    var localStartOfDay := ReplaceTime(ToZone(now, zone), 0);
    DayTime(localStartOfDay.Day() + 1, 0);
    AddMicros(localStartOfDay, DayMicros)
  }

  /** Tomorrow's period in UTC: from tomorrow's local midnight to 24 hours
      later. */
  function TomorrowPeriod(now: AwareDateTime, zone: Offset): (p: TimePeriod)
    ensures p.start.zone == Some(Utc) && p.end.zone == Some(Utc)
    ensures Epoch(p.start) == Epoch(LocalStartOfDayTomorrow(now, zone))
    ensures Epoch(p.end) == Epoch(p.start) + DayMicros
  {
    var periodStart := ToZone(LocalStartOfDayTomorrow(now, zone), Utc);
    TimePeriod(periodStart, AddMicros(periodStart, DayMicros))
  }

  /** The instant whose symbol is looked up: local midnight tomorrow plus
      eight hours. */
  function SymbolTime(now: AwareDateTime, zone: Offset): (r: AwareDateTime)
    ensures r.zone == Some(zone)
    ensures Epoch(r) == Epoch(TomorrowPeriod(now, zone).start) + 8 * HourMicros
  {
    AddMicros(LocalStartOfDayTomorrow(now, zone), 8 * HourMicros)
  }

  /** The period starts after "now" and at most a day later, at a local
      midnight on tomorrow's local date; it ends a day later, so it is never
      empty; and the symbol instant lies inside it. */
  lemma TomorrowPeriodShape(now: AwareDateTime, zone: Offset)
    ensures var p := TomorrowPeriod(now, zone);
            && Epoch(now) < Epoch(p.start) <= Epoch(now) + DayMicros
            && ToZone(p.start, zone).Time() == 0
            && ToZone(p.start, zone).Day() == ToZone(now, zone).Day() + 1
            && Epoch(p.start) <= Epoch(p.end)
            && Epoch(p.start) <= Epoch(SymbolTime(now, zone)) <= Epoch(p.end)
  {
    var local := ToZone(now, zone);
    var start := LocalStartOfDayTomorrow(now, zone);
    DayTimeSplit(local.wall);
    DayTimeSplit(start.wall);
    assert ToZone(TomorrowPeriod(now, zone).start, zone) == start;
  }

  /** A step falls in tomorrow's period exactly when, read in the user's
      zone, it is on tomorrow's local date or exactly at the midnight that
      ends it: the service's period test is closed at both ends. */
  lemma {:induction false} InTomorrowPeriod(now: AwareDateTime, zone: Offset, step: ForecastTimeStep)
    ensures var local := ToZone(step.time, zone);
            var tomorrow := ToZone(now, zone).Day() + 1;
            (IsWithinPeriod(step, TomorrowPeriod(now, zone)) <==>
               local.Day() == tomorrow || (local.Day() == tomorrow + 1 && local.Time() == 0))
  {
    var local := ToZone(step.time, zone);
    var tomorrow := ToZone(now, zone).Day() + 1;
    var start := LocalStartOfDayTomorrow(now, zone);
    DayTimeSplit(local.wall);
    DayTimeSplit(start.wall);
    assert start.wall == tomorrow * DayMicros;
    assert Epoch(step.time) - Epoch(start) == local.wall - start.wall;
  }

  /** The answer of a check that found rain: the rainy period and the
      symbol code to show with it. */
  datatype RainyTomorrow = RainyTomorrow(forecast: RainyForecastPeriod, forecastSymbol: string)

  /** `_get_rainy_forecast`, on one fetched document `json` for the
      configured coordinates. `None` stands for the source's `(None, None)`:
      no rainy hour tomorrow, in which case the symbol is never looked up.
      Otherwise the answer carries the service's rainy period and the
      12-hour symbol at 08:00 tomorrow, and it is an error exactly when that
      lookup fails. A document that does not decode is an error too, as the
      exceptions of the source are. */
  method GetRainyForecast(now: AwareDateTime, zone: Offset, coordinates: Coordinates, json: Json, parse: DateTimeParser)
    returns (r: Result<Option<RainyTomorrow>>)
    ensures ResponseFromDict(parse, json).Fail? ==> r.Fail? && r.error.MalformedDocument?
    ensures ResponseFromDict(parse, json).Ok? ==>
              var dto := ResponseFromDict(parse, json).value;
              var steps := dto.properties.timeseries;
              var period := TomorrowPeriod(now, zone);
              var symbol := SymbolAt(steps, SymbolTime(now, zone));
              && ((r == Ok(None)) <==> forall i :: 0 <= i < |steps| ==> !IsRainyInPeriod(steps[i], period))
              && (r != Ok(None) ==> (r.Ok? <==> symbol.Ok?))
              && (r != Ok(None) && r.Fail? ==> r.error == symbol.error)
              && (r.Ok? && r.value.Some? ==>
                    && r.value.value.forecast == RainyForecastPeriod(dto.properties.meta.updatedAt, coordinates, RainyHours(steps, period))
                    && r.value.value.forecastSymbol == symbol.value)
  {
    var timePeriod := TomorrowPeriod(now, zone);
    var query := RainyForecastPeriodQuery(timePeriod, coordinates);
    var forecast :- GetRainyForecastNew(query, json, parse);
    if forecast.None? {
      return Ok(None);
    }
    var forecastSymbol :- GetForecastSymbolCode(SymbolTime(now, zone), json, parse);
    return Ok(Some(RainyTomorrow(forecast.value, forecastSymbol)));
  }
}
