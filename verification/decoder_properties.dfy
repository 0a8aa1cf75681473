/** What the decoder of the complete forecast document promises about whole
    documents and single time steps: which fields are required, which
    windows are optional, and that the time series keeps its order. */
module DecoderProperties {
  import opened Results
  import opened JsonValues
  import opened CompleteResponse

  /** A document that decodes has a string `type`, a `geometry` with a
      coordinate list, and `properties` with `meta.updated_at` parsable and a
      `timeseries` list; the decoded series has one step per entry, in
      order, each stamped with its entry's parsed `time`. */
  lemma DecodedDocumentShape(parse: DateTimeParser, x: Json)
    requires ResponseFromDict(parse, x).Ok?
    ensures Get(x, "type").JStr?
    ensures Get(Get(x, "geometry"), "coordinates").JArr?
    ensures var props := Get(x, "properties");
            && Get(Get(props, "meta"), "updated_at").JStr?
            && parse(Get(Get(props, "meta"), "updated_at").s).Some?
            && Get(props, "timeseries").JArr?
    ensures var entries := Get(Get(x, "properties"), "timeseries").items;
            var steps := ResponseFromDict(parse, x).value.properties.timeseries;
            && |steps| == |entries|
            && forall i :: 0 <= i < |steps| ==>
                 Get(entries[i], "time").JStr? && steps[i].time == parse(Get(entries[i], "time").s).value
  {
    var props := Get(x, "properties");
    var entries := Get(props, "timeseries").items;
    var steps := ResponseFromDict(parse, x).value.properties.timeseries;
    forall i | 0 <= i < |steps|
      ensures Get(entries[i], "time").JStr? && steps[i].time == parse(Get(entries[i], "time").s).value
    {
      assert StepFromDict(parse, entries[i]) == Ok(steps[i]);
    }
  }

  /** Removing any required top-level field, or the time series, makes the
      document malformed. */
  lemma {:induction false} MissingFieldIsMalformed(parse: DateTimeParser, m: map<string, Json>, props: map<string, Json>)
    ensures var r := ResponseFromDict(parse, JObj(m - {"type"})); r.Fail? && r.error.MalformedDocument?
    ensures var r := ResponseFromDict(parse, JObj(m - {"geometry"})); r.Fail? && r.error.MalformedDocument?
    ensures var r := ResponseFromDict(parse, JObj(m - {"properties"})); r.Fail? && r.error.MalformedDocument?
    ensures var r := ResponseFromDict(parse, JObj(m["properties" := JObj(props - {"timeseries"})]));
            r.Fail? && r.error.MalformedDocument?
  {
    assert Get(JObj(m - {"type"}), "type") == JNull;
    assert Get(JObj(m - {"geometry"}), "geometry") == JNull;
    assert Get(JObj(m - {"properties"}), "properties") == JNull;
    var y := JObj(m["properties" := JObj(props - {"timeseries"})]);
    assert Get(y, "properties") == JObj(props - {"timeseries"});
    assert Get(Get(y, "properties"), "timeseries") == JNull;
  }

  /** One entry of the time series that does not decode makes the whole
      document malformed. */
  lemma BadStepFailsDocument(parse: DateTimeParser, x: Json, i: int)
    requires Get(Get(x, "properties"), "timeseries").JArr?
    requires 0 <= i < |Get(Get(x, "properties"), "timeseries").items|
    requires StepFromDict(parse, Get(Get(x, "properties"), "timeseries").items[i]).Fail?
    ensures ResponseFromDict(parse, x).Fail?
    ensures ResponseFromDict(parse, x).error.MalformedDocument?
  {
  }

  /** A step's data with the given `instant` and `next_1_hours`, and no
      other window. */
  function StepData(instant: Json, next1Hours: Json): Json {
    JObj(map["instant" := instant, "next_1_hours" := next1Hours])
  }

  /** What the decoder reads from `StepData`. */
  lemma StepDataReads(instant: Json, next1Hours: Json)
    ensures Get(StepData(instant, next1Hours), "instant") == instant
    ensures Get(StepData(instant, next1Hours), "next_1_hours") == next1Hours
    ensures Get(StepData(instant, next1Hours), "next_6_hours") == JNull
    ensures Get(StepData(instant, next1Hours), "next_12_hours") == JNull
  {
  }

  /** What the decoder reads from data holding only an instant. */
  lemma InstantOnlyReads(instant: Json)
    ensures Get(JObj(map["instant" := instant]), "instant") == instant
    ensures Get(JObj(map["instant" := instant]), "next_1_hours") == JNull
    ensures Get(JObj(map["instant" := instant]), "next_6_hours") == JNull
    ensures Get(JObj(map["instant" := instant]), "next_12_hours") == JNull
  {
  }

  /** A window that is present but malformed is not read as absent: it
      fails the data of its step, and so the step. Here `next_1_hours`
      without `details`. */
  lemma {:induction false} WindowWithoutDetailsFailsStep(instant: Json, summary: Json)
    ensures DataFromDict(StepData(instant, JObj(map["summary" := summary]))).Fail?
  {
    var window := JObj(map["summary" := summary]);
    assert Get(window, "details") == JNull;
    assert DetailsFromDict(JNull).Fail?;
    StepDataReads(instant, window);
  }

  /** A `next_1_hours` whose precipitation amount is a boolean fails its
      step too: `from_float` rejects booleans. */
  lemma {:induction false} BooleanAmountFailsStep(instant: Json, summary: Json, b: bool)
    ensures DataFromDict(StepData(instant, JObj(map["summary" := summary,
                                                    "details" := JObj(map["precipitation_amount" := JBool(b)])]))).Fail?
  {
    var details := JObj(map["precipitation_amount" := JBool(b)]);
    var window := JObj(map["summary" := summary, "details" := details]);
    assert Get(details, DetailKeys[2]) == JBool(b);
    assert DetailsFromDict(details).Fail?;
    assert Get(window, "details") == details;
    assert Next1HoursFromDict(window).Fail?;
    StepDataReads(instant, window);
  }

  /** Data whose three windows all read as `null` decode to no windows. */
  lemma NoWindowsDecode(x: Json)
    requires x.JObj? && InstantFromDict(Get(x, "instant")).Ok?
    requires Get(x, "next_1_hours") == JNull && Get(x, "next_6_hours") == JNull && Get(x, "next_12_hours") == JNull
    ensures DataFromDict(x).Ok? && DataFromDict(x).value.next1Hours.None?
  {
  }

  /** A `null` window is `None`, and the step still decodes. */
  lemma {:induction false} NullWindowIsNone(instant: Json)
    requires InstantFromDict(instant).Ok?
    ensures DataFromDict(StepData(instant, JNull)).Ok?
    ensures DataFromDict(StepData(instant, JNull)).value.next1Hours.None?
  {
    StepDataReads(instant, JNull);
    NoWindowsDecode(StepData(instant, JNull));
  }

  /** A missing window is `None` too, and the step still decodes. */
  lemma {:induction false} MissingWindowIsNone(instant: Json)
    requires InstantFromDict(instant).Ok?
    ensures DataFromDict(JObj(map["instant" := instant])).Ok?
    ensures DataFromDict(JObj(map["instant" := instant])).value.next1Hours.None?
  {
    InstantOnlyReads(instant);
    NoWindowsDecode(JObj(map["instant" := instant]));
  }

  /** The `details` of the 12-hour and 6-hour windows are optional, while
      the 1-hour window requires them. */
  lemma {:induction false} WindowDetails(summary: Json)
    requires SummaryFromDict(summary).Ok? && DetailsFromDict(summary).Ok?
    ensures Next12HoursFromDict(JObj(map["summary" := summary])).Ok?
    ensures Next12HoursFromDict(JObj(map["summary" := summary])).value.details.None?
    ensures Next6HoursFromDict(JObj(map["summary" := summary])).Ok?
    ensures Next6HoursFromDict(JObj(map["summary" := summary])).value.details.None?
    ensures Next1HoursFromDict(JObj(map["summary" := summary])).Fail?
  {
    var w := JObj(map["summary" := summary]);
    assert Get(w, "summary") == summary;
    assert Get(w, "details") == JNull;
    assert DetailsFromDict(JNull).Fail?;
  }
}
