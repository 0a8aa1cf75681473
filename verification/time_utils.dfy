/** Time-zone helpers of the bot (`src/time_utils.py`), over fixed UTC offsets.

    A Python `datetime` is a wall-clock reading plus an optional `tzinfo`.
    Here the wall clock is an integer count of microseconds since
    1970-01-01T00:00 on that clock, and the zone is an optional fixed offset
    in seconds east of UTC. An aware datetime denotes the absolute instant
    `Epoch(dt)`, in microseconds since the Unix epoch; aware datetimes compare
    by that instant, as Python's do. */
module TimeUtils {
  import opened Results

  const SecondMicros: int := 1_000_000
  const MinuteMicros: int := 60 * SecondMicros
  const HourMicros: int := 60 * MinuteMicros
  const DayMicros: int := 24 * HourMicros

  /** A fixed UTC offset in seconds; Python requires it strictly within a day. */
  type Offset = o: int | -86400 < o < 86400

  const Utc: Offset := 0

  /** A time of day in microseconds after midnight (Python's `time`). */
  type TimeOfDay = t: int | 0 <= t < DayMicros

  datatype DateTime = DateTime(wall: int, zone: Option<Offset>) {

    /** Python's `dt.tzinfo is not None`. */
    predicate IsAware() {
      zone.Some?
    }

    /** The calendar date of the wall clock, as a day number. */
    function Day(): int {
      wall / DayMicros
    }

    /** The wall-clock time of day. */
    function Time(): TimeOfDay {
      wall % DayMicros
    }
  }

  type AwareDateTime = dt: DateTime | dt.IsAware() witness DateTime(0, Some(Utc))

  /** The absolute instant an aware datetime denotes. */
  function Epoch(dt: AwareDateTime): int {
    dt.wall - dt.zone.value * SecondMicros
  }

  /** Calendar arithmetic: a date plus a time of day is decomposed back into
      the same date and time of day. */
  lemma DayTime(day: int, t: int)
    requires 0 <= t < DayMicros
    ensures (day * DayMicros + t) / DayMicros == day
    ensures (day * DayMicros + t) % DayMicros == t
  {
  }

  /** Every wall-clock reading is its date plus its time of day. */
  lemma DayTimeSplit(w: int)
    ensures w == (w / DayMicros) * DayMicros + w % DayMicros
  {
  }

  /** `dt.replace(hour=.., minute=.., second=.., microsecond=..)`: the same
      date and zone with a new wall-clock time of day. */
  function ReplaceTime(dt: DateTime, t: TimeOfDay): (r: DateTime)
    ensures r.zone == dt.zone
    ensures r.Day() == dt.Day()
    ensures r.Time() == t
  {
    DayTime(dt.Day(), t);
    DateTime(dt.Day() * DayMicros + t, dt.zone)
  }

  /** `dt + timedelta(microseconds=d)`: shifts the wall clock and keeps the zone,
      so with a fixed offset an aware datetime moves by exactly `d`. */
  function AddMicros(dt: DateTime, d: int): (r: DateTime)
    ensures r.zone == dt.zone
    ensures r.IsAware() ==> Epoch(r) == Epoch(dt) + d
  {
    DateTime(dt.wall + d, dt.zone)
  }

  /** `dt.astimezone(zone)` on an aware datetime: the same instant, read in
      the target zone. */
  function ToZone(dt: AwareDateTime, zone: Offset): (r: AwareDateTime)
    ensures Epoch(r) == Epoch(dt)
    ensures r.zone == Some(zone)
  {
    DateTime(Epoch(dt) + zone * SecondMicros, Some(zone))
  }

  /** `assert_timezone`: fails exactly on a naive datetime. */
  function AssertTimezone(dt: DateTime): (r: Result<()>)
    ensures r.Fail? <==> dt.zone.None?
    ensures r.Fail? ==> r.error == NaiveTimestamp
  {
    if dt.zone.None? then Fail(NaiveTimestamp) else Ok(())
  }

  /** `as_time_zone`: rejects a naive datetime, and otherwise expresses the
      same absolute instant in the target zone. */
  function AsTimeZone(dt: DateTime, zone: Offset): (r: Result<AwareDateTime>)
    ensures r.Fail? <==> !dt.IsAware()
    ensures r.Fail? ==> r.error == NaiveTimestamp
    ensures r.Ok? ==> Epoch(r.value) == Epoch(dt) && r.value.zone == Some(zone)
  {
    var _ :- AssertTimezone(dt);
    Ok(ToZone(dt, zone))
  }

  /** `as_utc`: the UTC case of `as_time_zone`. */
  function AsUtc(dt: DateTime): (r: Result<AwareDateTime>)
    ensures r.Fail? <==> !dt.IsAware()
    ensures r.Ok? ==> Epoch(r.value) == Epoch(dt) && r.value.zone == Some(Utc)
    ensures r.Ok? ==> r.value.wall == Epoch(dt)
  {
    AsTimeZone(dt, Utc)
  }

  /** Converting to zone `a` and then to zone `b` is converting to `b`
      directly: the instant never changes. */
  lemma ConvertTwice(dt: DateTime, a: Offset, b: Offset)
    requires dt.IsAware()
    ensures AsTimeZone(dt, a).Ok?
    ensures AsTimeZone(AsTimeZone(dt, a).value, b) == AsTimeZone(dt, b)
    ensures Epoch(AsTimeZone(AsTimeZone(dt, a).value, b).value) == Epoch(dt)
  {
  }

  /** `at_hour`: keeps date and zone, sets the hour and zeroes minute,
      second and microsecond; an hour outside 0..23 is a `ValueError`. */
  function AtHour(hour: int, dt: DateTime): (r: Result<DateTime>)
    ensures r.Ok? <==> 0 <= hour < 24
    ensures r.Ok? ==> r.value.zone == dt.zone && r.value.Day() == dt.Day()
    ensures r.Ok? ==> r.value.Time() == hour * HourMicros
  {
    if 0 <= hour < 24 then Ok(ReplaceTime(dt, hour * HourMicros)) else Fail(InvalidTime)
  }

  /** `parse_time_str`: reads `timeStr` as a time of day in `zone` on the
      date of `now` in that zone, and returns the UTC time of day of that
      instant. `fromIsoFormat` stands for `time.fromisoformat`, and `now` for
      the clock reading `datetime.now(tz=zone)`. */
  function ParseTimeStr(timeStr: string, zone: Offset, now: AwareDateTime,
                        fromIsoFormat: string -> Option<TimeOfDay>): (r: Result<TimeOfDay>)
    ensures r.Fail? <==> fromIsoFormat(timeStr).None?
    ensures r.Ok? ==> r.value == (fromIsoFormat(timeStr).value - zone * SecondMicros) % DayMicros
  {
    match fromIsoFormat(timeStr)
    case None => Fail(InvalidTime)
    case Some(local) =>
      var localDateTime := ReplaceTime(ToZone(now, zone), local);
      var utc := ToZone(localDateTime, Utc);
      DayTime(localDateTime.Day(), local);
      assert utc.wall == localDateTime.Day() * DayMicros + (local - zone * SecondMicros);
      ShiftTime(localDateTime.Day(), local - zone * SecondMicros);
      Ok(utc.Time())
  }

  lemma ShiftTime(day: int, x: int)
    ensures (day * DayMicros + x) % DayMicros == x % DayMicros
  {
    DayTimeSplit(x);
    DayTime(day + x / DayMicros, x % DayMicros);
    assert day * DayMicros + x == (day + x / DayMicros) * DayMicros + x % DayMicros;
  }

  /** The scheduler time does not depend on the date of `now`: with fixed
      offsets there is no daylight-saving change to cross. */
  lemma ParseTimeStrIgnoresDate(timeStr: string, zone: Offset, now1: AwareDateTime, now2: AwareDateTime,
                                fromIsoFormat: string -> Option<TimeOfDay>)
    ensures ParseTimeStr(timeStr, zone, now1, fromIsoFormat) == ParseTimeStr(timeStr, zone, now2, fromIsoFormat)
  {
  }

  /** Reading the returned UTC time of day back in `zone` gives the local
      clock time that was parsed: the conversion wraps around midnight and
      loses nothing but the date. */
  lemma {:induction false} ParseTimeStrRoundTrip(timeStr: string, zone: Offset, now: AwareDateTime,
                                                 fromIsoFormat: string -> Option<TimeOfDay>)
    requires fromIsoFormat(timeStr).Some?
    ensures ParseTimeStr(timeStr, zone, now, fromIsoFormat).Ok?
    ensures (ParseTimeStr(timeStr, zone, now, fromIsoFormat).value + zone * SecondMicros) % DayMicros
            == fromIsoFormat(timeStr).value
  {
    var local := fromIsoFormat(timeStr).value;
    var x := local - zone * SecondMicros;
    var u := ParseTimeStr(timeStr, zone, now, fromIsoFormat).value;
    assert u == x % DayMicros;
    DayTimeSplit(x);
    ShiftTime(x / DayMicros, u + zone * SecondMicros);
    assert (x / DayMicros) * DayMicros + u + zone * SecondMicros == local;
    DayTime(0, local);
  }

  /** With an offset of whole minutes, the parsed seconds and microseconds
      survive the conversion unchanged. */
  lemma {:induction false} ParseTimeStrKeepsSeconds(timeStr: string, zone: Offset, now: AwareDateTime,
                                                    fromIsoFormat: string -> Option<TimeOfDay>)
    requires fromIsoFormat(timeStr).Some?
    requires zone % 60 == 0
    ensures ParseTimeStr(timeStr, zone, now, fromIsoFormat).Ok?
    ensures ParseTimeStr(timeStr, zone, now, fromIsoFormat).value % MinuteMicros
            == fromIsoFormat(timeStr).value % MinuteMicros
  {
    var local := fromIsoFormat(timeStr).value;
    var x := local - zone * SecondMicros;
    var u := ParseTimeStr(timeStr, zone, now, fromIsoFormat).value;
    DayTimeSplit(x);
    var m := zone / 60;
    assert zone * SecondMicros == m * MinuteMicros;
    assert u == x - (x / DayMicros) * DayMicros;
    assert u == local - (m + (x / DayMicros) * 1440) * MinuteMicros;
    MinuteShift(local, m + (x / DayMicros) * 1440);
  }

  lemma MinuteShift(a: int, k: int)
    ensures (a - k * MinuteMicros) % MinuteMicros == a % MinuteMicros
  {
  }
}
