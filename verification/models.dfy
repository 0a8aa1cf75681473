/** The domain value types the weather service builds and consumes. They are
    declared from their constructor call sites (`RainyForecastPeriod(...)`,
    `RainyForecastHour(...)`, `RainyForecastPeriodQuery(...)`,
    `TimePeriod(...)`, `Coordinates(...)`). */
module Models {
  import opened Results
  import opened TimeUtils

  datatype Coordinates = Coordinates(lat: real, lon: real)

  /** A closed period of time between two aware instants. */
  datatype TimePeriod = TimePeriod(start: AwareDateTime, end: AwareDateTime)

  /** One rainy hour: the step's time, its 1-hour symbol and precipitation
      statistics. */
  datatype RainyForecastHour = RainyForecastHour(
    time: AwareDateTime,
    symbolCode: string,
    precipitationAmount: real,
    precipitationAmountMin: Option<real>,
    precipitationAmountMax: Option<real>,
    probabilityOfPrecipitation: Option<real>)

  /** The aggregate answer for a period with rain. */
  datatype RainyForecastPeriod = RainyForecastPeriod(
    updatedAt: AwareDateTime,
    coordinates: Coordinates,
    forecastHours: seq<RainyForecastHour>)

  datatype RainyForecastPeriodQuery = RainyForecastPeriodQuery(timePeriod: TimePeriod, coordinates: Coordinates)
}
