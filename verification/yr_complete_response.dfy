/** The tolerant decoder of a met.no Locationforecast 2.0 "complete" document
    (`src/dtos/yr_complete_response.py`).

    Every `from_*` converter of the source asserts the shape it expects and
    raises otherwise; here each returns a `Result`. `from_union` tries its
    converters in order and keeps the first success, so an optional field is
    `from_union([f, from_none], v)`: a missing key or JSON `null` gives
    `None`, a value `f` accepts gives `Some`, and anything else fails. */
module CompleteResponse {
  import opened Results
  import opened JsonValues
  import opened TimeUtils

  /** `dateutil.parser.parse` on a string, left abstract: the absolute
      instant an ISO-8601 timestamp with offset denotes, or `None` when the
      string does not parse. */
  type DateTimeParser = string -> Option<AwareDateTime>

  function Malformed<T>(reason: string): Result<T> {
    Fail(MalformedDocument(reason))
  }

  /** Every failure of `f` is a malformed-document error. */
  ghost predicate FailsAsMalformed<T>(f: Json -> Result<T>) {
    forall y :: f(y).Fail? ==> f(y).error.MalformedDocument?
  }

  // ---------------------------------------------------------------------
  // Converters

  /** `from_str`: accepts strings only. */
  function FromStr(x: Json): (r: Result<string>)
    ensures r.Fail? ==> r.error.MalformedDocument?
    ensures r.Ok? <==> x.JStr?
    ensures r.Ok? ==> r.value == x.s
  {
    if x.JStr? then Ok(x.s) else Malformed("expected a string")
  }

  /** `from_float`: accepts JSON integers and floats with their value and
      rejects booleans and every other kind of value. */
  function FromFloat(x: Json): (r: Result<real>)
    ensures r.Fail? ==> r.error.MalformedDocument?
    ensures r.Ok? <==> x.JNum?
    ensures r.Ok? ==> r.value == x.n
    ensures x.JBool? ==> r.Fail?
  {
    if x.JNum? then Ok(x.n) else Malformed("expected a number")
  }

  /** `from_none`: accepts only `None`. */
  function FromNone<T>(x: Json): (r: Result<Option<T>>)
    ensures r.Fail? ==> r.error.MalformedDocument?
    ensures r.Ok? <==> x.JNull?
    ensures r.Ok? ==> r.value == None
  {
    if x.JNull? then Ok(None) else Malformed("expected null")
  }

  /** Decodes every element with `f`, left to right, stopping at the first
      failure (the list comprehension of `from_list`). */
  function DecodeAll<T>(f: Json -> Result<T>, items: seq<Json>): (r: Result<seq<T>>)
    ensures FailsAsMalformed(f) ==> (r.Fail? ==> r.error.MalformedDocument?)
    ensures r.Ok? <==> forall i :: 0 <= i < |items| ==> f(items[i]).Ok?
    ensures r.Ok? ==> |r.value| == |items|
    ensures r.Ok? ==> forall i :: 0 <= i < |items| ==> f(items[i]) == Ok(r.value[i])
    decreases |items|
  {
    if |items| == 0 then Ok([])
    else
      var head :- f(items[0]);
      var tail :- DecodeAll(f, items[1..]);
      assert forall i :: 1 <= i < |items| ==> items[i] == items[1..][i - 1];
      Ok([head] + tail)
  }

  /** `from_list`: succeeds only on an array all of whose elements decode,
      giving one decoded element per input element, in the same order. */
  function FromList<T>(f: Json -> Result<T>, x: Json): (r: Result<seq<T>>)
    ensures FailsAsMalformed(f) ==> (r.Fail? ==> r.error.MalformedDocument?)
    ensures r.Ok? <==> x.JArr? && forall i :: 0 <= i < |x.items| ==> f(x.items[i]).Ok?
    ensures r.Ok? ==> |r.value| == |x.items|
    ensures r.Ok? ==> forall i :: 0 <= i < |x.items| ==> f(x.items[i]) == Ok(r.value[i])
  {
    if x.JArr? then DecodeAll(f, x.items) else Malformed("expected a list")
  }

  /** `from_union`: the result of the first converter that succeeds; fails
      only when none does. */
  function FromUnion<T>(fs: seq<Json -> Result<T>>, x: Json): (r: Result<T>)
    ensures (forall i :: 0 <= i < |fs| ==> FailsAsMalformed(fs[i])) ==> (r.Fail? ==> r.error.MalformedDocument?)
    ensures r.Ok? <==> exists i :: 0 <= i < |fs| && fs[i](x).Ok?
    ensures r.Ok? ==> exists i :: 0 <= i < |fs| && fs[i](x) == r && forall j :: 0 <= j < i ==> fs[j](x).Fail?
    decreases |fs|
  {
    if |fs| == 0 then Malformed("no alternative of the union applies")
    else if fs[0](x).Ok? then fs[0](x)
    else
      var r := FromUnion(fs[1..], x);
      assert forall i :: 1 <= i < |fs| ==> fs[i] == fs[1..][i - 1];
      r
  }

  /** `from_datetime`: a string the ISO-8601 parser accepts; `dateutil`
      raises on anything that is not a string. */
  function FromDateTime(parse: DateTimeParser, x: Json): (r: Result<AwareDateTime>)
    ensures r.Fail? ==> r.error.MalformedDocument?
    ensures r.Ok? <==> x.JStr? && parse(x.s).Some?
    ensures r.Ok? ==> r.value == parse(x.s).value
  {
    if !x.JStr? then Malformed("expected a timestamp string")
    else match parse(x.s)
      case None => Malformed("unparsable timestamp")
      case Some(t) => Ok(t)
  }

  function AsSome<T>(f: Json -> Result<T>, x: Json): Result<Option<T>> {
    var v :- f(x);
    Ok(Some(v))
  }

  /** `from_union([f, from_none], x)`, the optional-field idiom. For every
      converter of this file `f` rejects `None`, so a missing key or `null`
      gives `None`, a value `f` accepts gives `Some` of it, and any other
      value fails. */
  function Optional<T>(f: Json -> Result<T>, x: Json): (r: Result<Option<T>>)
    ensures FailsAsMalformed(f) ==> (r.Fail? ==> r.error.MalformedDocument?)
    ensures f(JNull).Fail? ==> (x.JNull? ==> r == Ok(None))
    ensures !x.JNull? ==> (r.Ok? <==> f(x).Ok?)
    ensures !x.JNull? && r.Ok? ==> r.value == Some(f(x).value)
  {
    var fs: seq<Json -> Result<Option<T>>> := [y => AsSome(f, y), y => FromNone(y)];
    var r := FromUnion(fs, x);
    assert fs[0](x) == AsSome(f, x);
    assert fs[1](x) == FromNone(x);
    assert FromUnion(fs[1..], x) == (if FromNone<T>(x).Ok? then FromNone<T>(x) else FromUnion(fs[2..], x));
    r
  }

  // ---------------------------------------------------------------------
  // Field classifications used by the contracts

  /** A value `from_union([from_float, from_none], ·)` accepts. */
  predicate IsOptionalNumber(x: Json) {
    x.JNull? || x.JNum?
  }

  /** What `from_union([from_float, from_none], ·)` yields for it. */
  function OptionalNumber(x: Json): Option<real> {
    if x.JNum? then Some(x.n) else None
  }

  /** A value `from_union([from_str, from_none], ·)` accepts. */
  predicate IsOptionalString(x: Json) {
    x.JNull? || x.JStr?
  }

  function OptionalString(x: Json): Option<string> {
    if x.JStr? then Some(x.s) else None
  }

  /** Decoding an optional number keeps "absent" and "zero" apart: a missing
      key is `None`, a present `0` is `Some(0.0)`, a boolean is rejected. */
  lemma {:induction false} AbsentAndZeroDistinct(b: bool)
    ensures Optional(FromFloat, JNull) == Ok(None)
    ensures Optional(FromFloat, JNum(0.0)) == Ok(Some(0.0))
    ensures Optional(FromFloat, JBool(b)).Fail?
    ensures Optional(FromFloat, JNull) != Optional(FromFloat, JNum(0.0))
  {
    assert FromFloat(JNull).Fail?;
  }

  // ---------------------------------------------------------------------
  // Geometry

  datatype Geometry = Geometry(typ: string, coordinates: seq<real>)

  /** `Geometry.from_dict`: a string `type` and a list of numbers as
      `coordinates`. */
  function GeometryFromDict(x: Json): (r: Result<Geometry>)
    ensures r.Fail? ==> r.error.MalformedDocument?
    ensures r.Ok? <==> x.JObj? && Get(x, "type").JStr? && Get(x, "coordinates").JArr?
                       && forall i :: 0 <= i < |Get(x, "coordinates").items| ==> Get(x, "coordinates").items[i].JNum?
    ensures r.Ok? ==> r.value.typ == Get(x, "type").s
    ensures r.Ok? ==> |r.value.coordinates| == |Get(x, "coordinates").items|
    ensures r.Ok? ==> forall i :: 0 <= i < |r.value.coordinates| ==>
                        Get(x, "coordinates").items[i] == JNum(r.value.coordinates[i])
  {
    if !x.JObj? then Malformed("geometry is not an object")
    else
      var typ :- FromStr(Get(x, "type"));
      var coordinates :- FromList(FromFloat, Get(x, "coordinates"));
      Ok(Geometry(typ, coordinates))
  }

  // ---------------------------------------------------------------------
  // Units and Meta

  /** The unit annotations, one optional string per name of `UnitKeys`. */
  const UnitKeys: seq<string> := [
    "air_pressure_at_sea_level", "air_temperature", "air_temperature_max",
    "air_temperature_min", "air_temperature_percentile_10", "air_temperature_percentile_90",
    "cloud_area_fraction", "cloud_area_fraction_high", "cloud_area_fraction_low",
    "cloud_area_fraction_medium", "dew_point_temperature", "fog_area_fraction",
    "precipitation_amount", "precipitation_amount_max", "precipitation_amount_min",
    "probability_of_precipitation", "probability_of_thunder", "relative_humidity",
    "ultraviolet_index_clear_sky", "wind_from_direction", "wind_speed",
    "wind_speed_of_gust", "wind_speed_percentile_10", "wind_speed_percentile_90"
  ]

  datatype Units = Units(values: seq<Option<string>>)

  function OptionalStrings(x: Json, keys: seq<string>): (r: Result<seq<Option<string>>>)
    ensures r.Fail? ==> r.error.MalformedDocument?
    ensures r.Ok? <==> forall i :: 0 <= i < |keys| ==> IsOptionalString(Get(x, keys[i]))
    ensures r.Ok? ==> |r.value| == |keys|
    ensures r.Ok? ==> forall i :: 0 <= i < |keys| ==> r.value[i] == OptionalString(Get(x, keys[i]))
    decreases |keys|
  {
    if |keys| == 0 then Ok([])
    else
      var head :- Optional(FromStr, Get(x, keys[0]));
      var tail :- OptionalStrings(x, keys[1..]);
      assert forall i :: 1 <= i < |keys| ==> keys[i] == keys[1..][i - 1];
      Ok([head] + tail)
  }

  /** `Units.from_dict`: an object whose every unit annotation is a string
      or absent. */
  function UnitsFromDict(x: Json): (r: Result<Units>)
    ensures r.Fail? ==> r.error.MalformedDocument?
    ensures r.Ok? <==> x.JObj? && forall i :: 0 <= i < |UnitKeys| ==> IsOptionalString(Get(x, UnitKeys[i]))
    ensures r.Ok? ==> |r.value.values| == |UnitKeys|
    ensures r.Ok? ==> forall i :: 0 <= i < |UnitKeys| ==> r.value.values[i] == OptionalString(Get(x, UnitKeys[i]))
  {
    if !x.JObj? then Malformed("units is not an object")
    else
      var values :- OptionalStrings(x, UnitKeys);
      Ok(Units(values))
  }

  lemma {:induction false} OptionalStringsAgree(a: Json, b: Json, keys: seq<string>)
    requires forall i :: 0 <= i < |keys| ==> Get(a, keys[i]) == Get(b, keys[i])
    ensures OptionalStrings(a, keys) == OptionalStrings(b, keys)
    decreases |keys|
  {
    if |keys| > 0 {
      OptionalStringsAgree(a, b, keys[1..]);
    }
  }

  /** Updating a key outside `keys` leaves every key of `keys` reading the
      same. */
  lemma UpdateOutsideKeys(m: map<string, Json>, k: string, v: Json, keys: seq<string>)
    requires forall i :: 0 <= i < |keys| ==> k != keys[i]
    ensures forall i :: 0 <= i < |keys| ==> Get(JObj(m[k := v]), keys[i]) == Get(JObj(m), keys[i])
  {
  }

  /** Keys `Units.from_dict` does not read make no difference. */
  lemma {:induction false} UnitsIgnoresUnknownKeys(m: map<string, Json>, k: string, v: Json)
    requires forall i :: 0 <= i < |UnitKeys| ==> k != UnitKeys[i]
    ensures UnitsFromDict(JObj(m[k := v])) == UnitsFromDict(JObj(m))
  {
    UpdateOutsideKeys(m, k, v, UnitKeys);
    OptionalStringsAgree(JObj(m[k := v]), JObj(m), UnitKeys);
  }

  datatype Meta = Meta(updatedAt: AwareDateTime, units: Units)

  /** `Meta.from_dict`: a parsable `updated_at` and a `units` object. */
  function MetaFromDict(parse: DateTimeParser, x: Json): (r: Result<Meta>)
    ensures r.Fail? ==> r.error.MalformedDocument?
    ensures r.Ok? <==> x.JObj? && FromDateTime(parse, Get(x, "updated_at")).Ok? && UnitsFromDict(Get(x, "units")).Ok?
    ensures r.Ok? ==> Get(x, "updated_at").JStr? && r.value.updatedAt == parse(Get(x, "updated_at").s).value
    ensures r.Ok? ==> r.value.units == UnitsFromDict(Get(x, "units")).value
  {
    if !x.JObj? then Malformed("meta is not an object")
    else
      var updatedAt :- FromDateTime(parse, Get(x, "updated_at"));
      var units :- UnitsFromDict(Get(x, "units"));
      Ok(Meta(updatedAt, units))
  }

  // ---------------------------------------------------------------------
  // Summary and Details

  datatype Summary = Summary(symbolCode: string, symbolConfidence: Option<string>)

  /** `Summary.from_dict`: `symbol_code` is a required string,
      `symbol_confidence` an optional one. */
  function SummaryFromDict(x: Json): (r: Result<Summary>)
    ensures r.Fail? ==> r.error.MalformedDocument?
    ensures r.Ok? <==> x.JObj? && Get(x, "symbol_code").JStr? && IsOptionalString(Get(x, "symbol_confidence"))
    ensures r.Ok? ==> r.value.symbolCode == Get(x, "symbol_code").s
    ensures r.Ok? ==> r.value.symbolConfidence == OptionalString(Get(x, "symbol_confidence"))
  {
    if !x.JObj? then Malformed("summary is not an object")
    else
      var symbolCode :- FromStr(Get(x, "symbol_code"));
      var symbolConfidence :- Optional(FromStr, Get(x, "symbol_confidence"));
      Ok(Summary(symbolCode, symbolConfidence))
  }

  datatype Details = Details(
    airTemperatureMax: Option<real>,
    airTemperatureMin: Option<real>,
    precipitationAmount: Option<real>,       // best estimate for the period
    precipitationAmountMax: Option<real>,
    precipitationAmountMin: Option<real>,
    probabilityOfPrecipitation: Option<real>,
    probabilityOfThunder: Option<real>,
    ultravioletIndexClearSkyMax: Option<real>)

  /** The keys `Details.from_dict` reads, in the order of its fields. */
  const DetailKeys: seq<string> := [
    "air_temperature_max", "air_temperature_min", "precipitation_amount",
    "precipitation_amount_max", "precipitation_amount_min",
    "probability_of_precipitation", "probability_of_thunder",
    "ultraviolet_index_clear_sky_max"
  ]

  function OptionalNumbers(x: Json, keys: seq<string>): (r: Result<seq<Option<real>>>)
    ensures r.Fail? ==> r.error.MalformedDocument?
    ensures r.Ok? <==> forall i :: 0 <= i < |keys| ==> IsOptionalNumber(Get(x, keys[i]))
    ensures r.Ok? ==> |r.value| == |keys|
    ensures r.Ok? ==> forall i :: 0 <= i < |keys| ==> r.value[i] == OptionalNumber(Get(x, keys[i]))
    decreases |keys|
  {
    if |keys| == 0 then Ok([])
    else
      var head :- Optional(FromFloat, Get(x, keys[0]));
      var tail :- OptionalNumbers(x, keys[1..]);
      assert forall i :: 1 <= i < |keys| ==> keys[i] == keys[1..][i - 1];
      Ok([head] + tail)
  }

  /** `Details.from_dict`: an object whose eight statistics are each a number
      or absent. A missing statistic is `None`, never a default of zero. */
  function DetailsFromDict(x: Json): (r: Result<Details>)
    ensures r.Fail? ==> r.error.MalformedDocument?
    ensures r.Ok? <==> x.JObj? && forall i :: 0 <= i < |DetailKeys| ==> IsOptionalNumber(Get(x, DetailKeys[i]))
    ensures r.Ok? ==> r.value.airTemperatureMax == OptionalNumber(Get(x, "air_temperature_max"))
    ensures r.Ok? ==> r.value.airTemperatureMin == OptionalNumber(Get(x, "air_temperature_min"))
    ensures r.Ok? ==> r.value.precipitationAmount == OptionalNumber(Get(x, "precipitation_amount"))
    ensures r.Ok? ==> r.value.precipitationAmountMax == OptionalNumber(Get(x, "precipitation_amount_max"))
    ensures r.Ok? ==> r.value.precipitationAmountMin == OptionalNumber(Get(x, "precipitation_amount_min"))
    ensures r.Ok? ==> r.value.probabilityOfPrecipitation == OptionalNumber(Get(x, "probability_of_precipitation"))
    ensures r.Ok? ==> r.value.probabilityOfThunder == OptionalNumber(Get(x, "probability_of_thunder"))
    ensures r.Ok? ==> r.value.ultravioletIndexClearSkyMax == OptionalNumber(Get(x, "ultraviolet_index_clear_sky_max"))
  {
    if !x.JObj? then Malformed("details is not an object")
    else
      var v :- OptionalNumbers(x, DetailKeys);
      Ok(Details(v[0], v[1], v[2], v[3], v[4], v[5], v[6], v[7]))
  }

  lemma {:induction false} OptionalNumbersAgree(a: Json, b: Json, keys: seq<string>)
    requires forall i :: 0 <= i < |keys| ==> Get(a, keys[i]) == Get(b, keys[i])
    ensures OptionalNumbers(a, keys) == OptionalNumbers(b, keys)
    decreases |keys|
  {
    if |keys| > 0 {
      OptionalNumbersAgree(a, b, keys[1..]);
    }
  }

  /** Keys `Details.from_dict` does not read make no difference. */
  lemma {:induction false} DetailsIgnoresUnknownKeys(m: map<string, Json>, k: string, v: Json)
    requires forall i :: 0 <= i < |DetailKeys| ==> k != DetailKeys[i]
    ensures DetailsFromDict(JObj(m[k := v])) == DetailsFromDict(JObj(m))
  {
    UpdateOutsideKeys(m, k, v, DetailKeys);
    OptionalNumbersAgree(JObj(m[k := v]), JObj(m), DetailKeys);
  }

  // ---------------------------------------------------------------------
  // Instant and the summary windows

  datatype Instant = Instant(details: Details)

  /** `Instant.from_dict`: an object whose `details` decode. */
  function InstantFromDict(x: Json): (r: Result<Instant>)
    ensures r.Fail? ==> r.error.MalformedDocument?
    ensures r.Ok? <==> x.JObj? && DetailsFromDict(Get(x, "details")).Ok?
    ensures r.Ok? ==> Get(x, "details").JObj?
    ensures r.Ok? ==> r.value.details == DetailsFromDict(Get(x, "details")).value
  {
    if !x.JObj? then Malformed("instant is not an object")
    else
      var details :- DetailsFromDict(Get(x, "details"));
      Ok(Instant(details))
  }

  datatype Next12Hours = Next12Hours(summary: Summary, details: Option<Details>)

  /** `Next12_Hours.from_dict`: a summary, and optional details. */
  function Next12HoursFromDict(x: Json): (r: Result<Next12Hours>)
    ensures r.Fail? ==> r.error.MalformedDocument?
    ensures r.Ok? <==> x.JObj? && SummaryFromDict(Get(x, "summary")).Ok?
                       && (Get(x, "details").JNull? || DetailsFromDict(Get(x, "details")).Ok?)
    ensures r.Ok? ==> r.value.summary == SummaryFromDict(Get(x, "summary")).value
    ensures r.Ok? ==> (r.value.details.None? <==> Get(x, "details").JNull?)
    ensures r.Ok? && r.value.details.Some? ==> r.value.details.value == DetailsFromDict(Get(x, "details")).value
  {
    if !x.JObj? then Malformed("next_12_hours is not an object")
    else
      var summary :- SummaryFromDict(Get(x, "summary"));
      var details :- Optional(DetailsFromDict, Get(x, "details"));
      Ok(Next12Hours(summary, details))
  }

  datatype Next1Hours = Next1Hours(summary: Summary, details: Details)

  /** `Next1_Hours.from_dict`: a summary, and required details. */
  function Next1HoursFromDict(x: Json): (r: Result<Next1Hours>)
    ensures r.Fail? ==> r.error.MalformedDocument?
    ensures r.Ok? <==> x.JObj? && SummaryFromDict(Get(x, "summary")).Ok? && DetailsFromDict(Get(x, "details")).Ok?
    ensures r.Ok? ==> r.value.summary == SummaryFromDict(Get(x, "summary")).value
    ensures r.Ok? ==> r.value.details == DetailsFromDict(Get(x, "details")).value
  {
    if !x.JObj? then Malformed("next_1_hours is not an object")
    else
      var summary :- SummaryFromDict(Get(x, "summary"));
      var details :- DetailsFromDict(Get(x, "details"));
      Ok(Next1Hours(summary, details))
  }

  /** As in the source, the 6-hour summary is read with the details decoder:
      its numeric statistics are kept and its `symbol_code` is dropped. */
  datatype Next6Hours = Next6Hours(summary: Details, details: Option<Details>)

  /** `Next6_Hours.from_dict`. */
  function Next6HoursFromDict(x: Json): (r: Result<Next6Hours>)
    ensures r.Fail? ==> r.error.MalformedDocument?
    ensures r.Ok? <==> x.JObj? && DetailsFromDict(Get(x, "summary")).Ok?
                       && (Get(x, "details").JNull? || DetailsFromDict(Get(x, "details")).Ok?)
    ensures r.Ok? ==> r.value.summary == DetailsFromDict(Get(x, "summary")).value
    ensures r.Ok? ==> (r.value.details.None? <==> Get(x, "details").JNull?)
    ensures r.Ok? && r.value.details.Some? ==> r.value.details.value == DetailsFromDict(Get(x, "details")).value
  {
    if !x.JObj? then Malformed("next_6_hours is not an object")
    else
      var summary :- DetailsFromDict(Get(x, "summary"));
      var details :- Optional(DetailsFromDict, Get(x, "details"));
      Ok(Next6Hours(summary, details))
  }

  // ---------------------------------------------------------------------
  // Data, time steps, properties and the document

  datatype Data = Data(
    instant: Instant,
    next12Hours: Option<Next12Hours>,
    next1Hours: Option<Next1Hours>,
    next6Hours: Option<Next6Hours>)

  /** `Data.from_dict`: a required instant and three optional windows. A
      window that is absent (or `null`) is `None`; a window that is present
      but does not decode fails the whole step, because `from_none` rejects
      it too and the union's final `assert False` is not caught. */
  function DataFromDict(x: Json): (r: Result<Data>)
    ensures r.Fail? ==> r.error.MalformedDocument?
    ensures r.Ok? <==> && x.JObj? && InstantFromDict(Get(x, "instant")).Ok?
                       && (Get(x, "next_12_hours").JNull? || Next12HoursFromDict(Get(x, "next_12_hours")).Ok?)
                       && (Get(x, "next_1_hours").JNull? || Next1HoursFromDict(Get(x, "next_1_hours")).Ok?)
                       && (Get(x, "next_6_hours").JNull? || Next6HoursFromDict(Get(x, "next_6_hours")).Ok?)
    ensures r.Ok? ==> (r.value.next12Hours.None? <==> Get(x, "next_12_hours").JNull?)
    ensures r.Ok? ==> (r.value.next1Hours.None? <==> Get(x, "next_1_hours").JNull?)
    ensures r.Ok? ==> (r.value.next6Hours.None? <==> Get(x, "next_6_hours").JNull?)
    ensures r.Ok? && r.value.next1Hours.Some? ==>
              r.value.next1Hours.value == Next1HoursFromDict(Get(x, "next_1_hours")).value
    ensures r.Ok? ==> r.value.instant == InstantFromDict(Get(x, "instant")).value
    ensures r.Ok? && r.value.next12Hours.Some? ==>
              r.value.next12Hours.value == Next12HoursFromDict(Get(x, "next_12_hours")).value
    ensures r.Ok? && r.value.next6Hours.Some? ==>
              r.value.next6Hours.value == Next6HoursFromDict(Get(x, "next_6_hours")).value
  {
    if !x.JObj? then Malformed("data is not an object")
    else
      var instant :- InstantFromDict(Get(x, "instant"));
      var next12Hours :- Optional(Next12HoursFromDict, Get(x, "next_12_hours"));
      var next1Hours :- Optional(Next1HoursFromDict, Get(x, "next_1_hours"));
      var next6Hours :- Optional(Next6HoursFromDict, Get(x, "next_6_hours"));
      Ok(Data(instant, next12Hours, next1Hours, next6Hours))
  }

  datatype ForecastTimeStep = ForecastTimeStep(time: AwareDateTime, data: Data)

  /** `ForecastTimeStep.from_dict`: a parsable `time` and decodable `data`. */
  function StepFromDict(parse: DateTimeParser, x: Json): (r: Result<ForecastTimeStep>)
    ensures r.Fail? ==> r.error.MalformedDocument?
    ensures r.Ok? <==> x.JObj? && FromDateTime(parse, Get(x, "time")).Ok? && DataFromDict(Get(x, "data")).Ok?
    ensures r.Ok? ==> Get(x, "time").JStr? && r.value.time == parse(Get(x, "time").s).value
    ensures r.Ok? ==> r.value.data == DataFromDict(Get(x, "data")).value
  {
    if !x.JObj? then Malformed("time step is not an object")
    else
      var time :- FromDateTime(parse, Get(x, "time"));
      var data :- DataFromDict(Get(x, "data"));
      Ok(ForecastTimeStep(time, data))
  }

  datatype Properties = Properties(meta: Meta, timeseries: seq<ForecastTimeStep>)

  /** `Properties.from_dict`: a decodable `meta` and a list of decodable
      time steps, kept in their order. */
  function PropertiesFromDict(parse: DateTimeParser, x: Json): (r: Result<Properties>)
    ensures r.Fail? ==> r.error.MalformedDocument?
    ensures r.Ok? <==> && x.JObj? && MetaFromDict(parse, Get(x, "meta")).Ok?
                       && Get(x, "timeseries").JArr?
                       && forall i :: 0 <= i < |Get(x, "timeseries").items| ==>
                            StepFromDict(parse, Get(x, "timeseries").items[i]).Ok?
    ensures r.Ok? ==> r.value.meta == MetaFromDict(parse, Get(x, "meta")).value
    ensures r.Ok? ==> |r.value.timeseries| == |Get(x, "timeseries").items|
    ensures r.Ok? ==> forall i :: 0 <= i < |r.value.timeseries| ==>
                        StepFromDict(parse, Get(x, "timeseries").items[i]) == Ok(r.value.timeseries[i])
  {
    if !x.JObj? then Malformed("properties is not an object")
    else
      var meta :- MetaFromDict(parse, Get(x, "meta"));
      var timeseries :- FromList(y => StepFromDict(parse, y), Get(x, "timeseries"));
      Ok(Properties(meta, timeseries))
  }

  datatype YrCompleteResponse = YrCompleteResponse(typ: string, geometry: Geometry, properties: Properties)

  /** `YrCompleteResponse.from_dict`: the whole document. */
  function ResponseFromDict(parse: DateTimeParser, x: Json): (r: Result<YrCompleteResponse>)
    ensures r.Fail? ==> r.error.MalformedDocument?
    ensures r.Ok? <==> && x.JObj? && Get(x, "type").JStr? && GeometryFromDict(Get(x, "geometry")).Ok?
                       && PropertiesFromDict(parse, Get(x, "properties")).Ok?
    ensures r.Ok? ==> r.value.typ == Get(x, "type").s
    ensures r.Ok? ==> r.value.geometry == GeometryFromDict(Get(x, "geometry")).value
    ensures r.Ok? ==> r.value.properties == PropertiesFromDict(parse, Get(x, "properties")).value
  {
    if !x.JObj? then Malformed("document is not an object")
    else
      var typ :- FromStr(Get(x, "type"));
      var geometry :- GeometryFromDict(Get(x, "geometry"));
      var properties :- PropertiesFromDict(parse, Get(x, "properties"));
      Ok(YrCompleteResponse(typ, geometry, properties))
  }
}
