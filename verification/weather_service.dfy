/** The forecast evaluation of `src/weather_service.py`: selecting the time
    steps of a decoded document that fall in a period, keeping the rainy ones,
    and looking up the 12-hour symbol at an instant.

    The two filtering loops, `_get_rainy_forecast_hours` and
    `_get_rainy_forecasts`, are methods proved equal to single-pass reference
    definitions built from `Seqs.Filter`; the generator
    `_forecasts_within_period` is the function `ForecastsWithinPeriod`,
    defined by `Seqs.Filter` directly. The lookup `_get_forecast_at_time` is a
    loop specified by `IsFirstAtOrAfter`, and the reference lookup `SymbolAt`
    is characterised through the same predicate. */
module WeatherService {
  import opened Results
  import opened JsonValues
  import opened TimeUtils
  import opened Strings
  import opened Seqs
  import opened Models
  import opened CompleteResponse

  // ---------------------------------------------------------------------
  // Period selection

  /** `_is_within_period`: the period is closed at both ends, and datetimes
      compare as absolute instants, whatever their zones. */
  predicate IsWithinPeriod(step: ForecastTimeStep, period: TimePeriod)
    ensures Epoch(step.time) == Epoch(period.start) ==> (IsWithinPeriod(step, period) <==> Epoch(period.start) <= Epoch(period.end))
    ensures Epoch(step.time) == Epoch(period.end) ==> (IsWithinPeriod(step, period) <==> Epoch(period.start) <= Epoch(period.end))
    ensures Epoch(step.time) < Epoch(period.start) || Epoch(period.end) < Epoch(step.time) ==> !IsWithinPeriod(step, period)
  {
    Epoch(period.start) <= Epoch(step.time) <= Epoch(period.end)
  }

  function InPeriod(period: TimePeriod): ForecastTimeStep -> bool {
    step => IsWithinPeriod(step, period)
  }

  /** `_forecasts_within_period`: the steps of the time series inside the
      period, boundaries included, in their original order. */
  function ForecastsWithinPeriod(weatherData: YrCompleteResponse, period: TimePeriod): (r: seq<ForecastTimeStep>)
    ensures forall i :: 0 <= i < |r| ==> Epoch(period.start) <= Epoch(r[i].time) <= Epoch(period.end)
    ensures SelectsExactly(r, weatherData.properties.timeseries, InPeriod(period))
  {
    FilterSelectsExactly(InPeriod(period), weatherData.properties.timeseries);
    Filter(InPeriod(period), weatherData.properties.timeseries)
  }

  // ---------------------------------------------------------------------
  // Rain predicates

  /** Python truthiness of an optional float: present and non-zero. */
  predicate Truthy(x: Option<real>) {
    x.Some? && x.value != 0.0
  }

  /** `_is_rainy_forecast_estimated`. */
  predicate IsRainyForecastEstimated(next: Next1Hours)
    ensures IsRainyForecastEstimated(next) <==>
              next.details.precipitationAmount.Some? && next.details.precipitationAmount.value > 0.0
  {
    if Truthy(next.details.precipitationAmount) then next.details.precipitationAmount.value > 0.0 else false
  }

  /** `_is_rainy_forecast_any_amount`: decided by the maximum when it is
      present and non-zero, otherwise by the best estimate. */
  predicate IsRainyForecastAnyAmount(next: Next1Hours)
    ensures IsRainyForecastAnyAmount(next) <==>
              || (next.details.precipitationAmountMax.Some? && next.details.precipitationAmountMax.value > 0.0)
              || (&& (next.details.precipitationAmountMax.None? || next.details.precipitationAmountMax.value == 0.0)
                  && next.details.precipitationAmount.Some? && next.details.precipitationAmount.value > 0.0)
  {
    var details := next.details;
    if Truthy(details.precipitationAmountMax) then details.precipitationAmountMax.value > 0.0
    else if Truthy(details.precipitationAmount) then details.precipitationAmount.value > 0.0
    else false
  }

  /** Without a usable maximum the any-amount predicate is the estimated one;
      and when the maximum is at least the best estimate, an estimated rainy
      hour is rainy under the any-amount predicate too. */
  lemma AnyAmountAgainstEstimated(next: Next1Hours)
    ensures !Truthy(next.details.precipitationAmountMax) ==>
              (IsRainyForecastAnyAmount(next) <==> IsRainyForecastEstimated(next))
    ensures (next.details.precipitationAmountMax.Some? && next.details.precipitationAmount.Some?
             && next.details.precipitationAmountMax.value >= next.details.precipitationAmount.value)
            ==> (IsRainyForecastEstimated(next) ==> IsRainyForecastAnyAmount(next))
    ensures Truthy(next.details.precipitationAmountMax) && next.details.precipitationAmountMax.value < 0.0
            ==> !IsRainyForecastAnyAmount(next)
  {
  }

  /** `_is_rainy_forecast_high_prob`: the symbol mentions rain. The three
      rain symbols qualify, and so does any variant built around them. */
  predicate IsRainyForecastHighProb(next: Next1Hours)
    ensures next.summary.symbolCode in ["rain", "lightrain", "heavyrain"] ==> IsRainyForecastHighProb(next)
    ensures |next.summary.symbolCode| < 4 ==> !IsRainyForecastHighProb(next)
  {
    RainSymbolsMentionRain();
    Contains(next.summary.symbolCode, "rain")
  }

  lemma RainSymbolsMentionRain()
    ensures Contains("rain", "rain") && Contains("lightrain", "rain") && Contains("heavyrain", "rain")
  {
    ContainsSelf("rain");
    ContainsExtend("rain", "light", "rain");
    ContainsExtend("rain", "heavy", "rain");
    assert "light" + "rain" == "lightrain" && "heavy" + "rain" == "heavyrain";
  }

  /** A step the rain filter keeps: its 1-hour window is present and rainy
      by the best estimate. */
  predicate IsRainyStep(step: ForecastTimeStep) {
    step.data.next1Hours.Some? && IsRainyForecastEstimated(step.data.next1Hours.value)
  }

  function RainyStep(): ForecastTimeStep -> bool {
    step => IsRainyStep(step)
  }

  /** The single-pass selection both rain filters are measured against. */
  predicate IsRainyInPeriod(step: ForecastTimeStep, period: TimePeriod) {
    IsWithinPeriod(step, period) && IsRainyStep(step)
  }

  function RainyInPeriod(period: TimePeriod): ForecastTimeStep -> bool {
    step => IsRainyInPeriod(step, period)
  }

  // ---------------------------------------------------------------------
  // Rainy hours (the `_new` path)

  /** The `RainyForecastHour` built from a rainy step: the step's time, and
      the symbol and statistics of its 1-hour window, each in its own
      field. */
  function ToRainyHour(step: ForecastTimeStep): (h: RainyForecastHour)
    requires IsRainyStep(step)
    ensures h.time == step.time
    ensures h.symbolCode == step.data.next1Hours.value.summary.symbolCode
    ensures h.precipitationAmount == step.data.next1Hours.value.details.precipitationAmount.value
    ensures h.precipitationAmountMin == step.data.next1Hours.value.details.precipitationAmountMin
    ensures h.precipitationAmountMax == step.data.next1Hours.value.details.precipitationAmountMax
    ensures h.probabilityOfPrecipitation == step.data.next1Hours.value.details.probabilityOfPrecipitation
    ensures h.precipitationAmount > 0.0
  {
    var next := step.data.next1Hours.value;
    RainyForecastHour(
      step.time,
      next.summary.symbolCode,
      next.details.precipitationAmount.value,
      next.details.precipitationAmountMin,
      next.details.precipitationAmountMax,
      next.details.probabilityOfPrecipitation)
  }

  function ToRainyHours(steps: seq<ForecastTimeStep>): (r: seq<RainyForecastHour>)
    requires forall i :: 0 <= i < |steps| ==> IsRainyStep(steps[i])
    ensures |r| == |steps|
    ensures forall k :: 0 <= k < |r| ==> r[k] == ToRainyHour(steps[k])
    decreases |steps|
  {
    if |steps| == 0 then []
    else ToRainyHours(steps[..|steps| - 1]) + [ToRainyHour(steps[|steps| - 1])]
  }

  /** Reference for the rainy hours of a period: one hour per in-period rainy
      step, in series order. */
  function RainyHours(steps: seq<ForecastTimeStep>, period: TimePeriod): seq<RainyForecastHour> {
    ToRainyHours(Filter(RainyInPeriod(period), steps))
  }

  /** Every reported hour comes from a distinct in-period step whose 1-hour
      window is present and rainy by the best estimate, copies that step's
      time, symbol and statistics, and the hours follow the series order;
      every such step is reported. */
  lemma RainyHoursAreTheRainySteps(steps: seq<ForecastTimeStep>, period: TimePeriod)
    ensures |RainyHours(steps, period)| == |Positions(RainyInPeriod(period), steps)|
    ensures forall k :: 0 <= k < |RainyHours(steps, period)| ==>
              var j := Positions(RainyInPeriod(period), steps)[k];
              && 0 <= j < |steps|
              && IsWithinPeriod(steps[j], period)
              && IsRainyStep(steps[j])
              && RainyHours(steps, period)[k] == ToRainyHour(steps[j])
              && RainyHours(steps, period)[k].precipitationAmount > 0.0
    ensures forall k, l :: 0 <= k < l < |Positions(RainyInPeriod(period), steps)| ==>
              Positions(RainyInPeriod(period), steps)[k] < Positions(RainyInPeriod(period), steps)[l]
    ensures forall j :: 0 <= j < |steps| && IsRainyInPeriod(steps[j], period) ==>
              j in Positions(RainyInPeriod(period), steps)
  {
    FilterPositions(RainyInPeriod(period), steps);
  }

  /** The hours of the rainy steps among `steps`, in order. */
  function HoursOfRainySteps(steps: seq<ForecastTimeStep>): seq<RainyForecastHour> {
    ToRainyHours(Filter(RainyStep(), steps))
  }

  lemma HoursOfRainyStepsSnoc(steps: seq<ForecastTimeStep>, step: ForecastTimeStep)
    ensures HoursOfRainySteps(steps + [step])
            == HoursOfRainySteps(steps) + (if IsRainyStep(step) then [ToRainyHour(step)] else [])
  {
    FilterSnoc(RainyStep(), steps, step);
    var f := Filter(RainyStep(), steps);
    if IsRainyStep(step) {
      assert (f + [step])[..|f|] == f;
    }
  }

  /** `_get_rainy_forecast_hours`: the rainy hours of the period, or `None`
      when there are none (never an empty list). */
  method GetRainyForecastHours(timePeriod: TimePeriod, weatherData: YrCompleteResponse)
    returns (r: Option<seq<RainyForecastHour>>)
    ensures r.None? <==> forall i :: 0 <= i < |weatherData.properties.timeseries| ==>
                           !IsRainyInPeriod(weatherData.properties.timeseries[i], timePeriod)
    ensures r.Some? ==> r.value == RainyHours(weatherData.properties.timeseries, timePeriod)
    ensures r.Some? ==> |r.value| > 0
    ensures r.Some? ==> forall k :: 0 <= k < |r.value| ==> r.value[k].precipitationAmount > 0.0
  {
    var within := ForecastsWithinPeriod(weatherData, timePeriod);
    var rainyForecasts: seq<RainyForecastHour> := [];
    var i := 0;
    while i < |within|
      invariant 0 <= i <= |within|
      invariant rainyForecasts == HoursOfRainySteps(within[..i])
    {
      var step := within[i];
      HoursOfRainyStepsPrefix(within, i);
      if step.data.next1Hours.Some? && IsRainyForecastEstimated(step.data.next1Hours.value) {
        rainyForecasts := rainyForecasts + [ToRainyHour(step)];
      }
      i := i + 1;
    }
    assert within[..i] == within;
    RainyHoursOfWithin(weatherData, timePeriod);
    if |rainyForecasts| == 0 {
      return None;
    }
    return Some(rainyForecasts);
  }

  /** One more step of the loop, stated on prefixes of the series. */
  lemma HoursOfRainyStepsPrefix(steps: seq<ForecastTimeStep>, i: nat)
    requires i < |steps|
    ensures IsRainyStep(steps[i]) ==> HoursOfRainySteps(steps[..i + 1]) == HoursOfRainySteps(steps[..i]) + [ToRainyHour(steps[i])]
    ensures !IsRainyStep(steps[i]) ==> HoursOfRainySteps(steps[..i + 1]) == HoursOfRainySteps(steps[..i])
  {
    assert steps[..i + 1] == steps[..i] + [steps[i]];
    HoursOfRainyStepsSnoc(steps[..i], steps[i]);
  }

  /** The hours of the rainy steps within the period are the reference
      rainy hours: positive amounts, and none exactly when no in-period step
      is rainy. */
  lemma RainyHoursOfWithin(weatherData: YrCompleteResponse, period: TimePeriod)
    ensures var steps := weatherData.properties.timeseries;
            && HoursOfRainySteps(ForecastsWithinPeriod(weatherData, period)) == RainyHours(steps, period)
            && (|RainyHours(steps, period)| == 0 <==> forall i :: 0 <= i < |steps| ==> !IsRainyInPeriod(steps[i], period))
            && (forall k :: 0 <= k < |RainyHours(steps, period)| ==> RainyHours(steps, period)[k].precipitationAmount > 0.0)
  {
    WithinThenRainy(weatherData.properties.timeseries, period);
  }

  /** Selecting the period first and the rainy steps second is the
      single-pass selection of the reference. */
  lemma WithinThenRainy(steps: seq<ForecastTimeStep>, period: TimePeriod)
    ensures Filter(RainyStep(), Filter(InPeriod(period), steps)) == Filter(RainyInPeriod(period), steps)
    ensures HoursOfRainySteps(Filter(InPeriod(period), steps)) == RainyHours(steps, period)
    ensures |RainyHours(steps, period)| == 0 <==> forall i :: 0 <= i < |steps| ==> !IsRainyInPeriod(steps[i], period)
  {
    FilterFilter(InPeriod(period), RainyStep(), RainyInPeriod(period), steps);
  }

  /** `_dto_to_new_model`: `None` when no hour of the period is rainy,
      otherwise the rainy hours with the document's update time and the
      query's coordinates. */
  method DtoToNewModel(query: RainyForecastPeriodQuery, weatherData: YrCompleteResponse)
    returns (r: Option<RainyForecastPeriod>)
    ensures r.None? <==> forall i :: 0 <= i < |weatherData.properties.timeseries| ==>
                           !IsRainyInPeriod(weatherData.properties.timeseries[i], query.timePeriod)
    ensures r.Some? ==> r.value.updatedAt == weatherData.properties.meta.updatedAt
    ensures r.Some? ==> r.value.coordinates == query.coordinates
    ensures r.Some? ==> r.value.forecastHours == RainyHours(weatherData.properties.timeseries, query.timePeriod)
    ensures r.Some? ==> |r.value.forecastHours| > 0
  {
    var rainyForecastHours := GetRainyForecastHours(query.timePeriod, weatherData);
    if rainyForecastHours.None? {
      return None;
    }
    return Some(RainyForecastPeriod(weatherData.properties.meta.updatedAt, query.coordinates, rainyForecastHours.value));
  }

  /** `get_rainy_forecast_new` on a fetched document: decode it, then
      evaluate the query. A document that does not decode is an error. */
  method GetRainyForecastNew(query: RainyForecastPeriodQuery, json: Json, parse: DateTimeParser)
    returns (r: Result<Option<RainyForecastPeriod>>)
    ensures r.Fail? <==> ResponseFromDict(parse, json).Fail?
    ensures r.Fail? ==> r.error.MalformedDocument?
    ensures r.Ok? ==> var steps := ResponseFromDict(parse, json).value.properties.timeseries;
              && (r.value.None? <==> forall i :: 0 <= i < |steps| ==> !IsRainyInPeriod(steps[i], query.timePeriod))
              && (r.value.Some? ==> r.value.value.forecastHours == RainyHours(steps, query.timePeriod))
              && (r.value.Some? ==> r.value.value.coordinates == query.coordinates)
              && (r.value.Some? ==> r.value.value.updatedAt == ResponseFromDict(parse, json).value.properties.meta.updatedAt)
  {
    var dto :- ResponseFromDict(parse, json);
    var model := DtoToNewModel(query, dto);
    return Ok(model);
  }

  // ---------------------------------------------------------------------
  // Legacy rain filter

  /** A step `_get_rainy_forecasts` keeps. */
  predicate IsLegacyRainy(step: ForecastTimeStep, period: TimePeriod, isHighProbRequired: bool) {
    && IsRainyInPeriod(step, period)
    && (isHighProbRequired ==> IsRainyForecastHighProb(step.data.next1Hours.value))
  }

  function LegacyRainy(period: TimePeriod, isHighProbRequired: bool): ForecastTimeStep -> bool {
    step => IsLegacyRainy(step, period, isHighProbRequired)
  }

  function LegacyStep(isHighProbRequired: bool): ForecastTimeStep -> bool {
    step => IsRainyStep(step) && (isHighProbRequired ==> IsRainyForecastHighProb(step.data.next1Hours.value))
  }

  /** `_get_rainy_forecasts`: the in-period, rainy steps themselves, further
      restricted to rain symbols when high probability is required. The
      result may be empty. */
  method GetRainyForecasts(weatherData: YrCompleteResponse, isHighProbRequired: bool, timePeriod: TimePeriod)
    returns (r: seq<ForecastTimeStep>)
    ensures r == Filter(LegacyRainy(timePeriod, isHighProbRequired), weatherData.properties.timeseries)
    ensures forall k :: 0 <= k < |r| ==> IsRainyInPeriod(r[k], timePeriod)
    ensures isHighProbRequired ==> forall k :: 0 <= k < |r| ==> Contains(r[k].data.next1Hours.value.summary.symbolCode, "rain")
  {
    var within := ForecastsWithinPeriod(weatherData, timePeriod);
    var rainyForecasts: seq<ForecastTimeStep> := [];
    var i := 0;
    while i < |within|
      invariant 0 <= i <= |within|
      invariant rainyForecasts == Filter(LegacyStep(isHighProbRequired), within[..i])
    {
      var step := within[i];
      FilterPrefix(LegacyStep(isHighProbRequired), within, i);
      if !(step.data.next1Hours.Some? && IsRainyForecastEstimated(step.data.next1Hours.value)) {
        i := i + 1;
        continue;
      }
      if isHighProbRequired && !IsRainyForecastHighProb(step.data.next1Hours.value) {
        i := i + 1;
        continue;
      }
      rainyForecasts := rainyForecasts + [step];
      i := i + 1;
    }
    assert within[..i] == within;
    LegacyFilterInTwoPasses(weatherData.properties.timeseries, timePeriod, isHighProbRequired);
    return rainyForecasts;
  }

  /** Filtering by period and then by the legacy rain test keeps what the
      combined test keeps: rainy in-period steps, with a rain symbol when
      high probability is required. */
  lemma LegacyFilterInTwoPasses(steps: seq<ForecastTimeStep>, period: TimePeriod, isHighProbRequired: bool)
    ensures var r := Filter(LegacyRainy(period, isHighProbRequired), steps);
            && Filter(LegacyStep(isHighProbRequired), Filter(InPeriod(period), steps)) == r
            && (forall k :: 0 <= k < |r| ==> IsRainyInPeriod(r[k], period))
            && (isHighProbRequired ==> forall k :: 0 <= k < |r| ==> Contains(r[k].data.next1Hours.value.summary.symbolCode, "rain"))
  {
    FilterFilter(InPeriod(period), LegacyStep(isHighProbRequired), LegacyRainy(period, isHighProbRequired), steps);
  }

  /** Without the high-probability requirement the legacy filter keeps
      exactly the steps behind the rainy hours of the `_new` path; with it,
      a subset of those. */
  lemma {:induction false} LegacyAgainstNew(steps: seq<ForecastTimeStep>, period: TimePeriod)
    ensures Filter(LegacyRainy(period, false), steps) == Filter(RainyInPeriod(period), steps)
    ensures forall x :: x in Filter(LegacyRainy(period, true), steps) ==> x in Filter(RainyInPeriod(period), steps)
    decreases |steps|
  {
    if |steps| > 0 {
      LegacyAgainstNew(steps[..|steps| - 1], period);
    }
  }

  // ---------------------------------------------------------------------
  // Symbol lookup

  /** `i` is the first position whose step is at or after `time`. */
  predicate IsFirstAtOrAfter(steps: seq<ForecastTimeStep>, time: AwareDateTime, i: int) {
    && 0 <= i < |steps|
    && Epoch(steps[i].time) >= Epoch(time)
    && forall j :: 0 <= j < i ==> Epoch(steps[j].time) < Epoch(time)
  }

  /** `_get_forecast_at_time`: the first step at or after `time`; `next()`
      on the exhausted generator is the error. */
  method GetForecastAtTime(time: AwareDateTime, forecasts: seq<ForecastTimeStep>) returns (r: Result<ForecastTimeStep>)
    ensures r.Fail? <==> forall j :: 0 <= j < |forecasts| ==> Epoch(forecasts[j].time) < Epoch(time)
    ensures r.Fail? ==> r.error == NoForecastAvailable
    ensures r.Ok? ==> exists i :: IsFirstAtOrAfter(forecasts, time, i) && r.value == forecasts[i]
  {
    var i := 0;
    while i < |forecasts|
      invariant 0 <= i <= |forecasts|
      invariant forall j :: 0 <= j < i ==> Epoch(forecasts[j].time) < Epoch(time)
    {
      if Epoch(forecasts[i].time) >= Epoch(time) {
        assert IsFirstAtOrAfter(forecasts, time, i);
        return Ok(forecasts[i]);
      }
      i := i + 1;
    }
    return Fail(NoForecastAvailable);
  }

  /** Strictly ascending time stamps, as the provider promises. */
  predicate Sorted(steps: seq<ForecastTimeStep>) {
    forall i, j :: 0 <= i < j < |steps| ==> Epoch(steps[i].time) < Epoch(steps[j].time)
  }

  /** On an ascending series the first step at or after `time` is the
      earliest of all steps at or after `time`. */
  lemma FirstIsEarliest(steps: seq<ForecastTimeStep>, time: AwareDateTime, i: int)
    requires Sorted(steps)
    requires IsFirstAtOrAfter(steps, time, i)
    ensures forall j :: 0 <= j < |steps| && Epoch(steps[j].time) >= Epoch(time) ==>
              Epoch(steps[i].time) <= Epoch(steps[j].time)
  {
  }

  /** The 12-hour symbol of a step; a missing window is the error (the
      source's attribute access on `None`). */
  function SymbolOf(step: ForecastTimeStep): (r: Result<string>)
    ensures r.Fail? <==> step.data.next12Hours.None?
    ensures r.Fail? ==> r.error == MissingSummaryWindow
    ensures r.Ok? ==> r.value == step.data.next12Hours.value.summary.symbolCode
  {
    match step.data.next12Hours
    case None => Fail(MissingSummaryWindow)
    case Some(next) => Ok(next.summary.symbolCode)
  }

  /** `_get_forecast_symbol`: the 12-hour symbol of the first step, or, when
      `afterTime` is given, of the first step at or after it. The first step
      is read in both cases, so an empty series is an error either way. */
  method GetForecastSymbol(forecastTimeSteps: seq<ForecastTimeStep>, afterTime: Option<AwareDateTime>)
    returns (r: Result<string>)
    ensures |forecastTimeSteps| == 0 ==> r == Fail(EmptyTimeseries)
    ensures |forecastTimeSteps| > 0 && afterTime.None? ==> r == SymbolOf(forecastTimeSteps[0])
    ensures |forecastTimeSteps| > 0 && afterTime.Some? ==>
              if forall j :: 0 <= j < |forecastTimeSteps| ==> Epoch(forecastTimeSteps[j].time) < Epoch(afterTime.value)
              then r == Fail(NoForecastAvailable)
              else exists i :: IsFirstAtOrAfter(forecastTimeSteps, afterTime.value, i) && r == SymbolOf(forecastTimeSteps[i])
  {
    if |forecastTimeSteps| == 0 {
      return Fail(EmptyTimeseries);
    }
    var symbolForecast := forecastTimeSteps[0];
    if afterTime.Some? {
      symbolForecast :- GetForecastAtTime(afterTime.value, forecastTimeSteps);
    }
    return SymbolOf(symbolForecast);
  }

  /** Reference definition of the lookup: the 12-hour symbol of the first
      step at or after `time`, scanning from the front. */
  function SymbolAt(steps: seq<ForecastTimeStep>, time: AwareDateTime): (r: Result<string>)
    ensures r.Fail? ==> r.error == NoForecastAvailable || r.error == MissingSummaryWindow
    decreases |steps|
  {
    if |steps| == 0 then Fail(NoForecastAvailable)
    else if Epoch(steps[0].time) >= Epoch(time) then SymbolOf(steps[0])
    else SymbolAt(steps[1..], time)
  }

  /** The reference lookup reads the first step at or after `time`. */
  lemma {:induction false} SymbolAtFirst(steps: seq<ForecastTimeStep>, time: AwareDateTime, i: int)
    requires IsFirstAtOrAfter(steps, time, i)
    ensures SymbolAt(steps, time) == SymbolOf(steps[i])
    decreases |steps|
  {
    if i > 0 {
      assert IsFirstAtOrAfter(steps[1..], time, i - 1) by {
        assert forall j :: 0 <= j < i - 1 ==> steps[1..][j] == steps[j + 1];
      }
      SymbolAtFirst(steps[1..], time, i - 1);
    }
  }

  /** The reference lookup fails with `NoForecastAvailable` when every step
      is earlier than `time`. */
  lemma {:induction false} SymbolAtNone(steps: seq<ForecastTimeStep>, time: AwareDateTime)
    requires forall j :: 0 <= j < |steps| ==> Epoch(steps[j].time) < Epoch(time)
    ensures SymbolAt(steps, time) == Fail(NoForecastAvailable)
    decreases |steps|
  {
    if |steps| > 0 {
      assert forall j :: 0 <= j < |steps| - 1 ==> steps[1..][j] == steps[j + 1];
      SymbolAtNone(steps[1..], time);
    }
  }

  /** What the reference lookup answers, stated through the first step at
      or after `time`: no such step is `NoForecastAvailable`; otherwise the
      answer is that step's symbol, found exactly when it has a 12-hour
      window. */
  lemma SymbolAtCharacterised(steps: seq<ForecastTimeStep>, time: AwareDateTime)
    ensures (forall j :: 0 <= j < |steps| ==> Epoch(steps[j].time) < Epoch(time)) ==>
              SymbolAt(steps, time) == Fail(NoForecastAvailable)
    ensures (exists j :: 0 <= j < |steps| && Epoch(steps[j].time) >= Epoch(time)) ==>
              exists i :: IsFirstAtOrAfter(steps, time, i) && SymbolAt(steps, time) == SymbolOf(steps[i])
    ensures SymbolAt(steps, time).Ok? <==> exists i :: IsFirstAtOrAfter(steps, time, i) && SymbolOf(steps[i]).Ok?
  {
    if forall j :: 0 <= j < |steps| ==> Epoch(steps[j].time) < Epoch(time) {
      SymbolAtNone(steps, time);
    } else {
      var k := FirstAtOrAfter(steps, time);
      SymbolAtFirst(steps, time, k);
      forall i | IsFirstAtOrAfter(steps, time, i)
        ensures i == k
      {
      }
    }
  }

  /** The position of the first step at or after `time`, when there is one. */
  ghost function FirstAtOrAfter(steps: seq<ForecastTimeStep>, time: AwareDateTime): (i: int)
    requires exists j :: 0 <= j < |steps| && Epoch(steps[j].time) >= Epoch(time)
    ensures IsFirstAtOrAfter(steps, time, i)
    decreases |steps|
  {
    if Epoch(steps[0].time) >= Epoch(time) then 0
    else
      var j :| 0 <= j < |steps| && Epoch(steps[j].time) >= Epoch(time);
      assert steps[1..][j - 1] == steps[j];
      var i := FirstAtOrAfter(steps[1..], time);
      assert forall k :: 0 <= k < i ==> steps[1..][k] == steps[k + 1];
      i + 1
  }

  /** `get_forecast_symbol_code` on a fetched document: decode it, look up
      the first step at or after `fromTime` with `_get_forecast_at_time`,
      and read its 12-hour symbol. */
  method GetForecastSymbolCode(fromTime: AwareDateTime, json: Json, parse: DateTimeParser) returns (r: Result<string>)
    ensures ResponseFromDict(parse, json).Fail? ==> r.Fail? && r.error.MalformedDocument?
    ensures ResponseFromDict(parse, json).Ok? ==>
              r == SymbolAt(ResponseFromDict(parse, json).value.properties.timeseries, fromTime)
  {
    var dto :- ResponseFromDict(parse, json);
    r := SymbolCodeAt(fromTime, dto.properties.timeseries);
  }

  /** The lookup half of `get_forecast_symbol_code`: `_get_forecast_at_time`
      followed by the 12-hour symbol. */
  method SymbolCodeAt(fromTime: AwareDateTime, steps: seq<ForecastTimeStep>) returns (r: Result<string>)
    ensures r == SymbolAt(steps, fromTime)
  {
    var forecast := GetForecastAtTime(fromTime, steps);
    if forecast.Fail? {
      SymbolAtNone(steps, fromTime);
      return Fail(NoForecastAvailable);
    }
    var i :| IsFirstAtOrAfter(steps, fromTime, i) && forecast.value == steps[i];
    SymbolAtFirst(steps, fromTime, i);
    return SymbolOf(forecast.value);
  }

  // ---------------------------------------------------------------------
  // End of day

  const EndOfDay: TimeOfDay := 23 * HourMicros + 59 * MinuteMicros + 59 * SecondMicros

  /** `_get_end_time`: 23:59:59 on the start's date, keeping its
      microseconds and zone, one day later when `hasNextDay` holds. */
  function GetEndTime(periodStartTime: DateTime, hasNextDay: bool): (r: DateTime)
    ensures r.zone == periodStartTime.zone
    ensures r.Day() == periodStartTime.Day() + (if hasNextDay then 1 else 0)
    ensures r.Time() == EndOfDay + periodStartTime.Time() % SecondMicros
    ensures r.IsAware() && !hasNextDay ==> Epoch(periodStartTime) <= Epoch(r)
  {
    var endOfDay := ReplaceTime(periodStartTime, EndOfDay + periodStartTime.Time() % SecondMicros);
    if hasNextDay then
      DayTime(endOfDay.Day() + 1, endOfDay.Time());
      AddMicros(endOfDay, DayMicros)
    else endOfDay
  }
}
