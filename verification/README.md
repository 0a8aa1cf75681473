# weather-bot rain check, modelled in Dafny

weather-bot is a Discord bot. Once a day it fetches the met.no
Locationforecast 2.0 "complete" forecast for one place. It decodes the JSON
document into typed records and picks the hours of tomorrow (in the user's
time zone) whose 1-hour window predicts rain by the best estimate. If there
are any, it posts a message listing them.

This project models the core of that pipeline as pure Dafny functions and
methods over immutable datatypes:

- `CompleteResponse` (`yr_complete_response.dfy`) is the tolerant decoder of
  the forecast document. It covers the converter combinators `from_str`,
  `from_float`, `from_list`, `from_none`, `from_union` and `from_datetime`,
  and every `from_dict` from `Geometry` up to `YrCompleteResponse`. JSON is
  the datatype `JsonValues.Json`. `obj.get(key)` is `JsonValues.Get`, which
  reads a missing key as `null`, as Python's `dict.get` does.
- `DecoderProperties` (`decoder_properties.dfy`) proves, for whole documents
  and single steps, which fields are required and which are optional.
- `TimeUtils` (`time_utils.dfy`) holds `assert_timezone`, `as_time_zone`,
  `as_utc`, `at_hour` and `parse_time_str`.
  - A datetime is a wall-clock reading in microseconds plus an optional fixed
    UTC offset in seconds.
  - An aware datetime denotes the absolute instant `Epoch(dt)`, and aware
    datetimes compare by it.
- `WeatherService` (`weather_service.dfy`) covers:
  - the period filter and the three rain predicates;
  - `_get_rainy_forecast_hours` and `_dto_to_new_model`, with
    `get_rainy_forecast_new` run on an already fetched document;
  - the older `_get_rainy_forecasts`;
  - the symbol lookup: `_get_forecast_at_time`, `_get_forecast_symbol` and
    `get_forecast_symbol_code`;
  - `_get_end_time`.

  The two filtering loops, `_get_rainy_forecast_hours` and
  `_get_rainy_forecasts`, are methods. Their invariants prove each equal to
  a single-pass reference built from `Seqs.Filter`. The generator
  `_forecasts_within_period` is the function `ForecastsWithinPeriod`, defined
  by `Seqs.Filter` directly. The lookup `_get_forecast_at_time` is a loop
  specified by `IsFirstAtOrAfter`, the first position at or after a time.
  The reference lookup `SymbolAt` is characterised through the same
  predicate.
- `DiscordMessages` (`discord_messages.dfy`) covers:
  - `_rain_symbol_to_emoji`;
  - `_extract_city`, over the geocoder's `address` map;
  - `_create_rainy_hours_message_simple`. Its message is described as a
    list of separator and entry lines (`Lines`) and rendered to text
    (`Render`).

  Converting an hour to the user's zone and `strftime("%H:%M")`, and the
  printing of a float, are the function parameters `formatTime` and
  `formatAmount`.
- `RainyForecastCog` (`rainy_forecast.dfy`) models `_get_rainy_forecast`:
  - tomorrow's period, from local midnight to 24 hours later, in UTC;
  - the symbol instant, local midnight plus 8 hours;
  - the two service calls.

  The clock reading is the parameter `now`, and the user's zone is a fixed
  offset.

Errors that the source raises (`AssertionError`, `ValueError`,
`StopIteration`, attribute access on `None`) are `Fail` values of
`Results.Result`, with one `Results.Error` case per kind.

### Where the code's behaviour is not the obvious reading

- **A malformed window fails the whole step.** A window is
  `next_1_hours`, `next_6_hours` or `next_12_hours`, and each is decoded
  with `from_union([X.from_dict, from_none], ...)`. One could expect the
  union to turn a window that is present but malformed into `None`. It does
  not:
  - `X.from_dict` fails on it, and `from_none` rejects every non-`None`
    value.
  - So `from_union` reaches its `assert False`, and `Data.from_dict` does
    not catch the error.

  A present but malformed window therefore fails its time step, and with it
  the whole document. Examples are a `next_1_hours` without `details`, or
  one with a boolean precipitation amount. The model follows the code
  (`CompleteResponse.DataFromDict`, `DecoderProperties.WindowWithoutDetailsFailsStep`,
  `DecoderProperties.BooleanAmountFailsStep`).
- **`Next6_Hours.summary` is decoded with `Details.from_dict`**, not
  `Summary.from_dict`. The model keeps this.
- **The cog's calls do not match the service.**
  - The cog imports `to_local_time`/`to_utc`, but `src/time_utils.py` does
    not define them.
  - It passes a `RainyForecastPeriodQuery` to `get_rainy_forecast`, which
    expects a different query type.
  - It starts from the naive `datetime.utcnow()`.

  The model takes the evidently intended behaviour: an aware "now",
  `astimezone` for the conversions, and `get_rainy_forecast_new` for the
  rainy hours.
- **The message code calls a missing function too.**
  `src/discord_messages.py:38` and `:84` call `time_utils.to_local_time`,
  which `src/time_utils.py` does not define. As written, building the
  message therefore raises `AttributeError` for any non-empty list of
  hours. The model takes the intended conversion to the user's zone: it is
  part of the `formatTime` parameter of
  `DiscordMessages.CreateRainyHoursMessageSimple`.

## Model

| member | source | states |
|---|---|---|
| CompleteResponse.FromStr | src/dtos/yr_complete_response.py:12-14 | accepts exactly JSON strings and returns them unchanged; anything else is a malformed document |
| CompleteResponse.FromFloat | src/dtos/yr_complete_response.py:22-24 | accepts exactly JSON numbers (integers and floats) and returns the same value; booleans and every non-number are rejected |
| CompleteResponse.FromNone | src/dtos/yr_complete_response.py:46-48 | accepts only `null` (or a missing key) and yields `None` |
| CompleteResponse.DecodeAll | src/dtos/yr_complete_response.py:19 | the list comprehension succeeds iff every element decodes, giving one result per element, element i decoding to result i |
| CompleteResponse.FromList | src/dtos/yr_complete_response.py:17-19 | succeeds iff the value is an array whose every element decodes; same length and order as the input |
| CompleteResponse.FromUnion | src/dtos/yr_complete_response.py:51-57 | succeeds iff some converter succeeds, and then returns the result of the first converter that succeeds; failures are malformed-document errors |
| CompleteResponse.FromDateTime | src/dtos/yr_complete_response.py:32-33 | succeeds iff the value is a string the timestamp parser accepts, and returns the parsed instant |
| CompleteResponse.Optional | src/dtos/yr_complete_response.py:51-57 | the `[f, from_none]` idiom: `null`/missing gives `None`; any other value succeeds iff `f` accepts it, giving `Some` of `f`'s result |
| CompleteResponse.AbsentAndZeroDistinct | src/dtos/yr_complete_response.py:255-257 | an optional number decodes a missing key to `None` and a present 0 to `Some(0.0)`, so absent and zero stay distinct; a boolean fails |
| CompleteResponse.GeometryFromDict | src/dtos/yr_complete_response.py:66-70 | succeeds iff an object with a string `type` and an all-number `coordinates` list; the coordinates are kept in order |
| CompleteResponse.OptionalStrings | src/dtos/yr_complete_response.py:103-170 | each key's value is decoded as an optional string; succeeds iff each is `null`/missing or a string |
| CompleteResponse.UnitsFromDict | src/dtos/yr_complete_response.py:101-196 | succeeds iff an object whose 24 unit fields are each missing, `null` or a string; field i holds exactly that value |
| CompleteResponse.UnitsIgnoresUnknownKeys | src/dtos/yr_complete_response.py:101-196 | adding or changing a key that is not one of the 24 unit fields does not change the decoded units |
| CompleteResponse.MetaFromDict | src/dtos/yr_complete_response.py:205-209 | succeeds iff an object with a parsable `updated_at` and decodable `units`; `updated_at` is the parsed instant and `units` the decoded units |
| CompleteResponse.SummaryFromDict | src/dtos/yr_complete_response.py:218-224 | succeeds iff an object with a string `symbol_code` and an optional string `symbol_confidence`, which are copied |
| CompleteResponse.OptionalNumbers | src/dtos/yr_complete_response.py:249-272 | each key's value is decoded as an optional number; succeeds iff each is `null`/missing or a number |
| CompleteResponse.DetailsFromDict | src/dtos/yr_complete_response.py:247-282 | succeeds iff an object whose eight statistics are each missing, `null` or a number; each field holds exactly its key's value |
| CompleteResponse.DetailsIgnoresUnknownKeys | src/dtos/yr_complete_response.py:247-282 | keys other than the eight statistics do not influence the decoded details |
| CompleteResponse.InstantFromDict | src/dtos/yr_complete_response.py:290-293 | succeeds iff an object whose `details` decode; `details` must be an object, and the instant holds the decoded details |
| CompleteResponse.Next12HoursFromDict | src/dtos/yr_complete_response.py:302-306 | requires a decodable `summary`, which it holds decoded; `details` is optional, `None` exactly when missing or `null`, and otherwise the decoded details |
| CompleteResponse.Next1HoursFromDict | src/dtos/yr_complete_response.py:315-320 | requires both a decodable `summary` and decodable `details` (the optional form is commented out in the source) |
| CompleteResponse.Next6HoursFromDict | src/dtos/yr_complete_response.py:335-339 | `summary` is decoded as `Details` and held decoded; `details` is optional, `None` exactly when missing or `null`, and otherwise the decoded details |
| CompleteResponse.DataFromDict | src/dtos/yr_complete_response.py:356-368 | succeeds iff the instant decodes and each window is missing/`null` or decodes; a window is `None` exactly when its key is missing or `null`; the instant and every present window hold their decoded values |
| CompleteResponse.StepFromDict | src/dtos/yr_complete_response.py:377-381 | succeeds iff `time` parses and `data` decodes; the step's time is the parsed instant |
| CompleteResponse.PropertiesFromDict | src/dtos/yr_complete_response.py:390-394 | succeeds iff `meta` decodes and `timeseries` is a list of decodable steps; the series keeps the input's length and order |
| CompleteResponse.ResponseFromDict | src/dtos/yr_complete_response.py:404-409 | succeeds iff `type` is a string and `geometry` and `properties` decode; every failure is a malformed-document error |
| DecoderProperties.DecodedDocumentShape | src/dtos/yr_complete_response.py:404-409 | a document that decodes has a string `type`, a coordinate list, a parsable `meta.updated_at` and a `timeseries` list, and step i is stamped with entry i's parsed `time` |
| DecoderProperties.MissingFieldIsMalformed | src/dtos/yr_complete_response.py:404-409 | removing `type`, `geometry`, `properties` or `properties.timeseries` makes any document malformed |
| DecoderProperties.BadStepFailsDocument | src/dtos/yr_complete_response.py:390-394 | one time-series entry that does not decode makes the whole document malformed |
| DecoderProperties.WindowWithoutDetailsFailsStep | src/dtos/yr_complete_response.py:315-320 | a present `next_1_hours` without `details` fails the step's data instead of becoming `None` |
| DecoderProperties.BooleanAmountFailsStep | src/dtos/yr_complete_response.py:356-368 | a present `next_1_hours` whose `precipitation_amount` is a boolean fails the step's data |
| DecoderProperties.NullWindowIsNone | src/dtos/yr_complete_response.py:359-367 | a `null` `next_1_hours` decodes to `None` and the step's data still decode |
| DecoderProperties.MissingWindowIsNone | src/dtos/yr_complete_response.py:359-367 | a missing `next_1_hours` decodes to `None` and the step's data still decode |
| DecoderProperties.WindowDetails | src/dtos/yr_complete_response.py:302-339 | `details` may be left out of the 12-hour and 6-hour windows (giving `None`) but not out of the 1-hour window |
| TimeUtils.AssertTimezone | src/time_utils.py:25-27 | fails exactly on a naive datetime |
| TimeUtils.AsTimeZone | src/time_utils.py:30-32 | fails exactly on a naive datetime; otherwise the same absolute instant, carrying the target zone |
| TimeUtils.AsUtc | src/time_utils.py:35-36 | the UTC reading of the same instant: the wall clock equals the epoch time |
| TimeUtils.ConvertTwice | src/time_utils.py:30-36 | converting to one zone and then to another equals converting directly; the instant never changes |
| TimeUtils.AtHour | src/time_utils.py:19-20 | keeps the date and zone and sets the time of day to the whole hour; hours outside 0..23 are an error |
| TimeUtils.ParseTimeStr | src/time_utils.py:40-53 | fails exactly when the time string does not parse; otherwise the UTC time of day of that local time, taken modulo a day |
| TimeUtils.ParseTimeStrIgnoresDate | src/time_utils.py:44-53 | with fixed offsets the result does not depend on the date of "now" |
| TimeUtils.ParseTimeStrRoundTrip | src/time_utils.py:40-53 | reading the result back in the zone gives the parsed local time: nothing but the date is lost |
| TimeUtils.ParseTimeStrKeepsSeconds | src/time_utils.py:40-53 | with an offset of whole minutes, the seconds and microseconds of the parsed time survive |
| WeatherService.IsWithinPeriod | src/weather_service.py:222-227 | closed at both ends: a step at the start or end instant is inside whenever start is not after end; a step before the start or after the end is outside; instants, not wall clocks, are compared |
| WeatherService.ForecastsWithinPeriod | src/weather_service.py:210-227 | the steps of the series inside the closed period, exactly those and in series order |
| WeatherService.IsRainyForecastEstimated | src/weather_service.py:236-242 | rainy iff the best-estimate amount is present and positive |
| WeatherService.IsRainyForecastAnyAmount | src/weather_service.py:245-257 | rainy iff the maximum is present and positive, or the maximum is missing or zero and the best estimate is present and positive; a negative maximum is dry whatever the estimate |
| WeatherService.IsRainyForecastHighProb | src/weather_service.py:230-233 | holds for the symbols rain, lightrain and heavyrain, and never for a symbol shorter than "rain" |
| WeatherService.AnyAmountAgainstEstimated | src/weather_service.py:245-257 | without a usable maximum the any-amount test agrees with the estimated one; a maximum at least the estimate never loses a rainy hour; a negative maximum is never rainy |
| WeatherService.ToRainyHour | src/weather_service.py:92-99 | the hour carries the step's time and, field by field, its 1-hour window's symbol code, best-estimate amount (which is positive), minimum, maximum and probability of precipitation |
| WeatherService.ToRainyHours | src/weather_service.py:80-102 | one hour per step, in order |
| WeatherService.RainyHoursAreTheRainySteps | src/weather_service.py:76-107 | the rainy hours correspond one to one, in order, to the in-period steps whose 1-hour window is present and rainy; each copies its step's time, symbol and statistics |
| WeatherService.GetRainyForecastHours | src/weather_service.py:76-107 | `None` iff no in-period step is rainy; otherwise exactly the reference rainy hours, never empty, all with positive amounts |
| WeatherService.WithinThenRainy | src/weather_service.py:80-90 | filtering the period first and rain second equals the single-pass rainy-in-period selection |
| WeatherService.DtoToNewModel | src/weather_service.py:58-73 | `None` iff no rainy hour; otherwise the rainy hours with the document's update time and the query's coordinates |
| WeatherService.GetRainyForecastNew | src/weather_service.py:45-56 | fails iff the document does not decode (malformed); otherwise the answer of `DtoToNewModel` on the decoded series |
| WeatherService.GetRainyForecasts | src/weather_service.py:181-208 | exactly the in-period rainy steps (and, when high probability is required, only those whose symbol contains "rain"), in series order |
| WeatherService.LegacyAgainstNew | src/weather_service.py:181-208 | without the high-probability requirement the older filter keeps exactly the steps behind the new path's rainy hours; with it, a subset of them |
| WeatherService.GetForecastAtTime | src/weather_service.py:171-179 | the first step at or after the time; an error exactly when every step is earlier |
| WeatherService.FirstIsEarliest | src/weather_service.py:171-179 | on an ascending series the step found is the earliest of all steps at or after the time |
| WeatherService.SymbolOf | src/weather_service.py:168 | the step's 12-hour symbol code; an error exactly when the 12-hour window is missing |
| WeatherService.GetForecastSymbol | src/weather_service.py:154-169 | an empty series is an error; without a time, the first step's symbol; with one, the symbol of the first step at or after it, or an error when there is none |
| WeatherService.SymbolAtCharacterised | src/weather_service.py:171-179 | the reference lookup `SymbolAt` fails with "no forecast" exactly when every step is earlier than the time; otherwise it answers the symbol of the first step at or after the time, and succeeds iff that step has a 12-hour window |
| WeatherService.SymbolAtFirst | src/weather_service.py:171-179 | the reference lookup reads the step at the first position at or after the time |
| WeatherService.SymbolCodeAt | src/weather_service.py:41-42 | running `_get_forecast_at_time` and then reading the 12-hour symbol gives the reference lookup's answer |
| WeatherService.GetForecastSymbolCode | src/weather_service.py:37-42 | malformed documents fail; otherwise the reference lookup's answer on the decoded series |
| WeatherService.GetEndTime | src/weather_service.py:146-152 | same zone; 23:59:59 (keeping the start's microseconds) on the start's date, or the next date when asked; never before the start on the same day |
| DiscordMessages.RainSymbolToEmoji | src/discord_messages.py:117-130 | one, two or three rain emojis for lightrain, rain and heavyrain; otherwise cloud if the symbol contains "cloud", else shower if it contains "shower", else the unknown emoji |
| DiscordMessages.RainEmojiOnlyForRainSymbols | src/discord_messages.py:117-130 | the result shows a rain emoji iff the symbol is one of the three rain symbols, and is never empty |
| DiscordMessages.CloudBeforeShower | src/discord_messages.py:125-128 | a symbol containing "cloud" always gets the cloud emoji, even when it also contains "shower" |
| DiscordMessages.FirstPresent | src/discord_messages.py:69-73 | `None` iff no key is present; otherwise the value of the first present key in preference order |
| DiscordMessages.ExtractCity | src/discord_messages.py:61-73 | the value of the first of city, town, village, hamlet, suburb, county, state present in the address, or `None` |
| DiscordMessages.CityPreferred | src/discord_messages.py:63-71 | a city wins over everything; without a city, a town wins |
| DiscordMessages.LinesShape | src/discord_messages.py:80-112 | the message has one line more than there are hours and gaps, opens with a separator, closes with the last hour's entry, and its entries are the hours in order |
| DiscordMessages.SeparatorExactlyAtGaps | src/discord_messages.py:89-91 | no separator precedes the first hour; a separator precedes a later hour iff more than one hour passed since the previous hour |
| DiscordMessages.EntryLineContents | src/discord_messages.py:103-112 | each entry line ends in a newline and contains the hour's amount, its symbol code and that symbol's emoji |
| DiscordMessages.RenderOpensWithSeparator | src/discord_messages.py:80-81 | the message starts with the separation line, followed directly by the first hour's entry |
| DiscordMessages.CreateRainyHoursMessageSimple | src/discord_messages.py:76-114 | the text built line by line is the rendering of the line structure `Lines` |
| RainyForecastCog.LocalStartOfDayTomorrow | src/cogs/rainy_forecast.py:74-78 | in the user's zone, midnight at the start of the day after today's local date |
| RainyForecastCog.TomorrowPeriod | src/cogs/rainy_forecast.py:80-82 | starts at tomorrow's local midnight expressed in UTC, ends exactly 24 hours later |
| RainyForecastCog.SymbolTime | src/cogs/rainy_forecast.py:101-104 | the symbol instant is eight hours after the period start |
| RainyForecastCog.TomorrowPeriodShape | src/cogs/rainy_forecast.py:74-82 | the period starts after now and at most a day later, at a local midnight on tomorrow's date; start is not after end, and the symbol instant lies within |
| RainyForecastCog.InTomorrowPeriod | src/cogs/rainy_forecast.py:80-82 | with the closed period filter, a step is in the period iff its local date is tomorrow or it is exactly the following local midnight |
| RainyForecastCog.GetRainyForecast | src/cogs/rainy_forecast.py:72-106 | malformed documents are errors; no rainy hour tomorrow gives "nothing" and skips the symbol lookup; otherwise the answer succeeds exactly when the symbol lookup at 08:00 tomorrow does, fails with its error otherwise, and on success holds the document's update time, the configured coordinates, tomorrow's rainy hours and the symbol found |

## Left out

- HTTP fetching and caching (`src/weather_client.py`) are network I/O. Every operation that fetches takes the already parsed JSON document as a parameter.
- RainyForecastCog.GetRainyForecast: the cog fetches the document twice, once for the rainy hours and once for the symbol. The model passes one document to both, as if both fetches returned the same forecast.
- The Discord side is event-loop and I/O glue and is not modelled: the bot, slash commands, the daily task loop, channel sends, embed construction and `main.py`. This includes the falsy-symbol check in `rain_check`.
- `src/startup.py`, `src/container.py` and `src/config.py` are not modelled; they hold logging setup, dependency wiring and reading the environment.
- `src/messages.py` and `src/models.py` are stale modules that import modules which do not exist. The domain types are declared from their constructor call sites instead (`Models`).
- `src/utils.py` is not modelled; it holds thin `astimezone` wrappers.
- `get_rainy_forecast` and `_dto_to_model` are not modelled. They take and return types (`RainyWeatherForecastQuery`, `RainyWeatherForecast`) that no module of the repository defines. Their pieces are modelled: `_get_end_time`, `_get_forecast_symbol` and `_get_rainy_forecasts`.
- The `to_dict` serialisers and the `to_class`/`to_float`/dict-valued `from_dict` helpers are not modelled; the bot never serialises.
- The following foreign libraries are function parameters, not modelled:
  - ISO-8601 parsing with `dateutil` (`DateTimeParser`) and `time.fromisoformat`;
  - reverse geocoding;
  - `strftime` and float formatting.

  The parser is assumed to return aware instants, as the forecast's timestamps carry offsets.
- Time zones are fixed UTC offsets. The IANA database and daylight-saving transitions are not modelled.
- Console and log output inside modelled operations is not modelled. This covers the `print` calls in `get_forecast_symbol_code` and `_forecasts_within_period` (`src/weather_service.py:38`, `:215`) and the `logger.info` calls in `_get_rainy_forecast` (`src/cogs/rainy_forecast.py:84`, `:92`, `:98`). They only write text and do not affect any result.
- Clock reads are parameters: `now` in `parse_time_str` and "now" in the cog.
- Python's datetime range limits (years 1 to 9999) are not modelled.
- Floats are mathematical reals. Rounding is not modelled.
- DiscordMessages.CreateRainyHoursMessageSimple: the source appends each entry line in several pieces. The model appends the same characters as one piece (`EntryLine`).
