/** The pure string helpers of `src/discord_messages.py`: the symbol-to-emoji
    mapping, the choice of a place name from a reverse-geocoded address, and
    the line structure of the rainy-hours message. Converting an hour to the
    user's zone and formatting it with `strftime("%H:%M")`, and printing a
    float, are left abstract as the parameters `formatTime` and
    `formatAmount`. */
module DiscordMessages {
  import opened Results
  import opened TimeUtils
  import opened Strings
  import opened Models

  // ---------------------------------------------------------------------
  // Emoji

  const RainEmoji: string := "\U{1F327}"
  const CloudEmoji: string := "\U{2601}"
  const ShowerEmoji: string := "\U{1F6BF}"
  const UnknownEmoji: string := "\U{2753}"

  /** Python's `s * n`. */
  function Repeat(s: string, n: nat): string {
    if n == 0 then "" else Repeat(s, n - 1) + s
  }

  /** The number of rain emojis the three rain symbols deserve; zero for
      every other symbol. */
  function RainIntensity(symbol: string): nat {
    if symbol == "lightrain" then 1
    else if symbol == "rain" then 2
    else if symbol == "heavyrain" then 3
    else 0
  }

  /** `_rain_symbol_to_emoji`. */
  function RainSymbolToEmoji(rainSymbol: string): (r: string)
    ensures RainIntensity(rainSymbol) > 0 ==> r == Repeat(RainEmoji, RainIntensity(rainSymbol))
    ensures RainIntensity(rainSymbol) == 0 && Contains(rainSymbol, "cloud") ==> r == CloudEmoji
    ensures RainIntensity(rainSymbol) == 0 && !Contains(rainSymbol, "cloud") && Contains(rainSymbol, "shower")
            ==> r == ShowerEmoji
    ensures RainIntensity(rainSymbol) == 0 && !Contains(rainSymbol, "cloud") && !Contains(rainSymbol, "shower")
            ==> r == UnknownEmoji
  {
    if rainSymbol == "lightrain" then Repeat(RainEmoji, 1)
    else if rainSymbol == "rain" then Repeat(RainEmoji, 2)
    else if rainSymbol == "heavyrain" then Repeat(RainEmoji, 3)
    else if Contains(rainSymbol, "cloud") then CloudEmoji
    else if Contains(rainSymbol, "shower") then ShowerEmoji
    else UnknownEmoji
  }

  /** The message shows rain emojis for exactly the three rain symbols, one,
      two and three of them; the result is never empty. */
  lemma RainEmojiOnlyForRainSymbols(rainSymbol: string)
    ensures |RainSymbolToEmoji(rainSymbol)| >= 1
    ensures Contains(RainSymbolToEmoji(rainSymbol), RainEmoji) <==>
              rainSymbol == "lightrain" || rainSymbol == "rain" || rainSymbol == "heavyrain"
    ensures |RainSymbolToEmoji(rainSymbol)| == if RainIntensity(rainSymbol) > 0 then RainIntensity(rainSymbol) else 1
  {
    var r := RainSymbolToEmoji(rainSymbol);
    if RainIntensity(rainSymbol) > 0 {
      assert OccursAt(r, RainEmoji, 0);
    } else {
      assert r == CloudEmoji || r == ShowerEmoji || r == UnknownEmoji;
      assert r[0] != RainEmoji[0];
      assert !OccursAt(r, RainEmoji, 0);
    }
  }

  /** The cloud test comes before the shower test, so a symbol naming both
      gets the cloud; none of the three rain symbols names either. */
  lemma CloudBeforeShower(rainSymbol: string)
    requires Contains(rainSymbol, "cloud")
    ensures RainSymbolToEmoji(rainSymbol) == CloudEmoji
  {
    var i :| 0 <= i <= |rainSymbol| - 5 && OccursAt(rainSymbol, "cloud", i);
    assert rainSymbol[i..i + 5][0] == 'c' && rainSymbol[i..i + 5][3] == 'u';
  }

  // ---------------------------------------------------------------------
  // City

  /** The address fields that may name the place, most preferred first. */
  const CityKeys: seq<string> := ["city", "town", "village", "hamlet", "suburb", "county", "state"]

  /** `i` is the first position of `keys` present in `address`. */
  predicate IsFirstPresent(address: map<string, string>, keys: seq<string>, i: int) {
    0 <= i < |keys| && keys[i] in address && forall j :: 0 <= j < i ==> keys[j] !in address
  }

  /** The value of the first of `keys` present in `address`. */
  function FirstPresent(address: map<string, string>, keys: seq<string>): (r: Option<string>)
    ensures r.None? <==> forall i :: 0 <= i < |keys| ==> keys[i] !in address
    ensures r.Some? ==> exists i :: IsFirstPresent(address, keys, i) && r.value == address[keys[i]]
    decreases |keys|
  {
    if |keys| == 0 then None
    else if keys[0] in address then
      assert IsFirstPresent(address, keys, 0);
      Some(address[keys[0]])
    else
      var r := FirstPresent(address, keys[1..]);
      assert forall i :: 1 <= i < |keys| ==> keys[i] == keys[1..][i - 1];
      if r.Some? then
        var i :| IsFirstPresent(address, keys[1..], i) && r.value == address[keys[1..][i]];
        assert IsFirstPresent(address, keys, i + 1);
        r
      else r
  }

  /** `_extract_city` over the `address` map of the geocoder's answer: the
      value of the first of city, town, village, hamlet, suburb, county and
      state that is present, or `None` when none is. */
  function ExtractCity(address: map<string, string>): (r: Option<string>)
    ensures r.None? <==> forall i :: 0 <= i < |CityKeys| ==> CityKeys[i] !in address
    ensures r.Some? ==> exists i :: IsFirstPresent(address, CityKeys, i) && r.value == address[CityKeys[i]]
  {
    FirstPresent(address, CityKeys)
  }

  /** A city wins over everything else, and a town over every later key. */
  lemma CityPreferred(address: map<string, string>)
    ensures "city" in address ==> ExtractCity(address) == Some(address["city"])
    ensures "city" !in address && "town" in address ==> ExtractCity(address) == Some(address["town"])
  {
    if "city" in address || "town" in address {
      var r := ExtractCity(address);
      var i :| IsFirstPresent(address, CityKeys, i) && r.value == address[CityKeys[i]];
      assert CityKeys[0] == "city" && CityKeys[1] == "town";
    }
  }

  // ---------------------------------------------------------------------
  // Rainy hours message

  const SeparationLine: string := "------------------------------------\n"

  /** One line of the message: a separator, or the entry of one hour. */
  datatype Line = Separator | Entry(hour: RainyForecastHour)

  /** More than one hour passes between two consecutive listed hours. */
  predicate IsGap(prev: RainyForecastHour, next: RainyForecastHour) {
    Epoch(prev.time) + HourMicros < Epoch(next.time)
  }

  /** The separator owed before `next` when `init` was listed before it. */
  function GapLines(init: seq<RainyForecastHour>, next: RainyForecastHour): seq<Line> {
    if |init| > 0 && IsGap(init[|init| - 1], next) then [Separator] else []
  }

  /** The line structure of the message: an opening separator, then per hour
      a separator when it does not follow its predecessor within the hour,
      and the hour's entry. */
  function Lines(hours: seq<RainyForecastHour>): seq<Line>
    decreases |hours|
  {
    if |hours| == 0 then [Separator]
    else
      var init := hours[..|hours| - 1];
      var last := hours[|hours| - 1];
      Lines(init) + GapLines(init, last) + [Entry(last)]
  }

  /** The number of gaps between consecutive hours. */
  function GapCount(hours: seq<RainyForecastHour>): nat
    decreases |hours|
  {
    if |hours| <= 1 then 0
    else GapCount(hours[..|hours| - 1]) + (if IsGap(hours[|hours| - 2], hours[|hours| - 1]) then 1 else 0)
  }

  /** The hours of the entry lines, in order. */
  function Entries(lines: seq<Line>): seq<RainyForecastHour>
    decreases |lines|
  {
    if |lines| == 0 then []
    else
      var init := Entries(lines[..|lines| - 1]);
      match lines[|lines| - 1]
      case Separator => init
      case Entry(h) => init + [h]
  }

  lemma EntriesAppend(a: seq<Line>, b: seq<Line>)
    ensures Entries(a + b) == Entries(a) + Entries(b)
    decreases |b|
  {
    if |b| > 0 {
      EntriesAppend(a, b[..|b| - 1]);
      assert (a + b)[..|a + b| - 1] == a + b[..|b| - 1];
      assert (a + b)[|a + b| - 1] == b[|b| - 1];
    } else {
      assert a + b == a;
    }
  }

  /** One unfolding of `Lines` on a list with a last hour, and the gap
      count that goes with it. */
  lemma LinesSnoc(init: seq<RainyForecastHour>, last: RainyForecastHour)
    ensures Lines(init + [last]) == Lines(init) + GapLines(init, last) + [Entry(last)]
    ensures GapCount(init + [last]) == GapCount(init) + |GapLines(init, last)|
  {
    var hours := init + [last];
    assert hours[..|hours| - 1] == init;
    if |init| > 0 {
      assert hours[|hours| - 2] == init[|init| - 1];
    }
  }

  /** The lines of a shorter list are a prefix of the lines of a longer
      one. */
  lemma LinesPrefix(init: seq<RainyForecastHour>, last: RainyForecastHour)
    ensures |Lines(init)| < |Lines(init + [last])|
    ensures Lines(init + [last])[..|Lines(init)|] == Lines(init)
  {
    LinesSnoc(init, last);
  }

  lemma {:induction false} LinesLength(hours: seq<RainyForecastHour>)
    ensures |Lines(hours)| == 1 + |hours| + GapCount(hours)
    decreases |hours|
  {
    if |hours| > 0 {
      var init := hours[..|hours| - 1];
      assert init + [hours[|hours| - 1]] == hours;
      LinesLength(init);
      LinesSnoc(init, hours[|hours| - 1]);
    }
  }

  lemma {:induction false} LinesFirst(hours: seq<RainyForecastHour>)
    ensures |Lines(hours)| > 0 && Lines(hours)[0] == Separator
    decreases |hours|
  {
    if |hours| > 0 {
      var init := hours[..|hours| - 1];
      assert init + [hours[|hours| - 1]] == hours;
      LinesFirst(init);
      LinesPrefix(init, hours[|hours| - 1]);
      assert Lines(hours)[0] == Lines(hours)[..|Lines(init)|][0];
    }
  }

  lemma LinesLast(hours: seq<RainyForecastHour>)
    requires |hours| > 0
    ensures Lines(hours)[|Lines(hours)| - 1] == Entry(hours[|hours| - 1])
  {
    var init := hours[..|hours| - 1];
    assert init + [hours[|hours| - 1]] == hours;
    LinesSnoc(init, hours[|hours| - 1]);
  }

  lemma {:induction false} LinesEntries(hours: seq<RainyForecastHour>)
    ensures Entries(Lines(hours)) == hours
    decreases |hours|
  {
    if |hours| > 0 {
      var init := hours[..|hours| - 1];
      var last := hours[|hours| - 1];
      assert init + [last] == hours;
      LinesEntries(init);
      LinesSnoc(init, last);
      EntriesAppend(Lines(init) + GapLines(init, last), [Entry(last)]);
      EntriesAppend(Lines(init), GapLines(init, last));
      assert Entries(GapLines(init, last)) == [];
      assert Entries([Entry(last)]) == [last];
    } else {
      assert Entries([Separator]) == [];
    }
  }

  /** The message has one line more than it has hours and gaps, opens with a
      separator, and closes with the last hour's entry; its entries are the
      hours, in order. */
  lemma LinesShape(hours: seq<RainyForecastHour>)
    ensures |Lines(hours)| == 1 + |hours| + GapCount(hours)
    ensures Lines(hours)[0] == Separator
    ensures |hours| > 0 ==> Lines(hours)[|Lines(hours)| - 1] == Entry(hours[|hours| - 1])
    ensures Entries(Lines(hours)) == hours
  {
    LinesLength(hours);
    LinesFirst(hours);
    if |hours| > 0 {
      LinesLast(hours);
    }
    LinesEntries(hours);
  }

  /** Where the entry of hour `i` stands among the lines. */
  function EntryPosition(hours: seq<RainyForecastHour>, i: nat): int
    requires i < |hours|
  {
    1 + i + GapCount(hours[..i + 1])
  }

  /** The entry of the last hour stands last, and the line before it is a
      separator exactly when the last hour opens a gap. */
  lemma LastEntryPosition(init: seq<RainyForecastHour>, last: RainyForecastHour)
    ensures var hours := init + [last];
            && EntryPosition(hours, |init|) == |Lines(hours)| - 1
            && Lines(hours)[|Lines(hours)| - 1] == Entry(last)
            && (|init| == 0 ==> EntryPosition(hours, |init|) == 1)
            && (|init| > 0 ==> (Lines(hours)[|Lines(hours)| - 2] == Separator <==> IsGap(init[|init| - 1], last)))
  {
    var hours := init + [last];
    assert hours[..|init| + 1] == hours;
    LinesLength(hours);
    LinesLength(init);
    LinesSnoc(init, last);
    if |init| > 0 && !IsGap(init[|init| - 1], last) {
      LinesLast(init);
      assert Lines(hours)[|Lines(hours)| - 2] == Lines(init)[|Lines(init)| - 1];
    }
  }

  /** The entry of hour `i` stands at `EntryPosition`; there is no separator
      between the opening one and the first hour, and a separator precedes
      any later hour exactly when more than an hour passed since the hour
      before it. */
  lemma {:induction false} SeparatorExactlyAtGaps(hours: seq<RainyForecastHour>, i: nat)
    requires i < |hours|
    ensures 1 <= EntryPosition(hours, i) < |Lines(hours)|
    ensures Lines(hours)[EntryPosition(hours, i)] == Entry(hours[i])
    ensures i == 0 ==> EntryPosition(hours, i) == 1
    ensures i > 0 ==> (Lines(hours)[EntryPosition(hours, i) - 1] == Separator <==> IsGap(hours[i - 1], hours[i]))
    decreases |hours|
  {
    var n := |hours|;
    var init := hours[..n - 1];
    assert init + [hours[n - 1]] == hours;
    if i < n - 1 {
      SeparatorExactlyAtGaps(init, i);
      assert init[..i + 1] == hours[..i + 1];
      LinesPrefix(init, hours[n - 1]);
      if i > 0 {
        assert init[i - 1] == hours[i - 1] && init[i] == hours[i];
      }
    } else {
      LastEntryPosition(init, hours[n - 1]);
      if i > 0 {
        assert init[|init| - 1] == hours[i - 1];
      }
    }
  }

  /** The entry line of one hour: its time, amount, symbol and emoji. */
  function EntryLine(hour: RainyForecastHour, formatTime: AwareDateTime -> string, formatAmount: real -> string): string {
    "**" + formatTime(hour.time) + "** -  " + formatAmount(hour.precipitationAmount) + " mm. "
    + hour.symbolCode + " " + RainSymbolToEmoji(hour.symbolCode) + "\n"
  }

  /** Every entry line ends its line and shows the amount, the symbol code
      and the symbol's emoji. */
  lemma EntryLineContents(hour: RainyForecastHour, formatTime: AwareDateTime -> string, formatAmount: real -> string)
    ensures var line := EntryLine(hour, formatTime, formatAmount);
            && line[|line| - 1] == '\n'
            && Contains(line, formatAmount(hour.precipitationAmount))
            && Contains(line, hour.symbolCode)
            && Contains(line, RainSymbolToEmoji(hour.symbolCode))
  {
    var head := "**" + formatTime(hour.time) + "** -  ";
    var amount := formatAmount(hour.precipitationAmount);
    var symbol := hour.symbolCode;
    var emoji := RainSymbolToEmoji(hour.symbolCode);
    var s1 := head + amount;
    var s2 := s1 + " mm. ";
    var s3 := s2 + symbol;
    var s4 := s3 + " ";
    var s5 := s4 + emoji;
    var line := s5 + "\n";
    assert line == EntryLine(hour, formatTime, formatAmount);
    ContainsSelf(amount);
    ContainsExtend(amount, head, amount);
    ContainsExtend(s1, " mm. ", amount);
    ContainsExtend(s2, symbol, amount);
    ContainsExtend(s3, " ", amount);
    ContainsExtend(s4, emoji, amount);
    ContainsExtend(s5, "\n", amount);
    ContainsSelf(symbol);
    ContainsExtend(symbol, s2, symbol);
    ContainsExtend(s3, " ", symbol);
    ContainsExtend(s4, emoji, symbol);
    ContainsExtend(s5, "\n", symbol);
    ContainsSelf(emoji);
    ContainsExtend(emoji, s4, emoji);
    ContainsExtend(s5, "\n", emoji);
  }

  function RenderLine(line: Line, formatTime: AwareDateTime -> string, formatAmount: real -> string): string {
    match line
    case Separator => SeparationLine
    case Entry(hour) => EntryLine(hour, formatTime, formatAmount)
  }

  /** The text of a list of lines. */
  function Render(lines: seq<Line>, formatTime: AwareDateTime -> string, formatAmount: real -> string): string
    decreases |lines|
  {
    if |lines| == 0 then ""
    else Render(lines[..|lines| - 1], formatTime, formatAmount) + RenderLine(lines[|lines| - 1], formatTime, formatAmount)
  }

  lemma RenderAppend(a: seq<Line>, b: seq<Line>, formatTime: AwareDateTime -> string, formatAmount: real -> string)
    ensures Render(a + b, formatTime, formatAmount) == Render(a, formatTime, formatAmount) + Render(b, formatTime, formatAmount)
    decreases |b|
  {
    if |b| > 0 {
      RenderAppend(a, b[..|b| - 1], formatTime, formatAmount);
      assert (a + b)[..|a + b| - 1] == a + b[..|b| - 1];
      assert (a + b)[|a + b| - 1] == b[|b| - 1];
    } else {
      assert a + b == a;
    }
  }

  /** Text whose first line is a separator opens with the separator line. */
  lemma RenderFromSeparator(lines: seq<Line>, formatTime: AwareDateTime -> string, formatAmount: real -> string)
    requires |lines| > 0 && lines[0] == Separator
    ensures var message := Render(lines, formatTime, formatAmount);
            |message| >= |SeparationLine| && message[..|SeparationLine|] == SeparationLine
  {
    assert lines == [Separator] + lines[1..];
    RenderAppend([Separator], lines[1..], formatTime, formatAmount);
    assert Render([Separator], formatTime, formatAmount) == SeparationLine;
  }

  /** The first hour's entry directly follows the opening separator. */
  lemma FirstEntrySecond(hours: seq<RainyForecastHour>)
    requires |hours| > 0
    ensures |Lines(hours)| > 1 && Lines(hours)[1] == Entry(hours[0])
  {
    SeparatorExactlyAtGaps(hours, 0);
  }

  /** The rendered message opens with exactly one separator line, followed
      by the first hour's entry when there is one. */
  lemma RenderOpensWithSeparator(hours: seq<RainyForecastHour>,
                                 formatTime: AwareDateTime -> string, formatAmount: real -> string)
    ensures var message := Render(Lines(hours), formatTime, formatAmount);
            |message| >= |SeparationLine| && message[..|SeparationLine|] == SeparationLine
    ensures |hours| > 0 ==> |Lines(hours)| > 1 && Lines(hours)[1] == Entry(hours[0])
  {
    LinesFirst(hours);
    RenderFromSeparator(Lines(hours), formatTime, formatAmount);
    if |hours| > 0 {
      FirstEntrySecond(hours);
    }
  }

  /** No hours: the message is the opening separator alone. */
  lemma RenderLinesEmpty(hours: seq<RainyForecastHour>, formatTime: AwareDateTime -> string, formatAmount: real -> string)
    ensures Render(Lines(hours[..0]), formatTime, formatAmount) == SeparationLine
  {
    assert hours[..0] == [];
    assert Render([Separator], formatTime, formatAmount) == SeparationLine;
  }

  /** Listing one more hour adds a separator line when the hour does not
      follow the previous one within the hour, then the hour's entry line. */
  lemma RenderLinesSnoc(init: seq<RainyForecastHour>, hour: RainyForecastHour,
                        formatTime: AwareDateTime -> string, formatAmount: real -> string)
    ensures |init| > 0 && IsGap(init[|init| - 1], hour) ==>
              Render(Lines(init + [hour]), formatTime, formatAmount)
              == Render(Lines(init), formatTime, formatAmount) + SeparationLine + EntryLine(hour, formatTime, formatAmount)
    ensures !(|init| > 0 && IsGap(init[|init| - 1], hour)) ==>
              Render(Lines(init + [hour]), formatTime, formatAmount)
              == Render(Lines(init), formatTime, formatAmount) + EntryLine(hour, formatTime, formatAmount)
  {
    LinesSnoc(init, hour);
    var entry := [Entry(hour)];
    var gap := GapLines(init, hour);
    RenderAppend(Lines(init) + gap, entry, formatTime, formatAmount);
    RenderAppend(Lines(init), gap, formatTime, formatAmount);
    RenderOne(Entry(hour), formatTime, formatAmount);
    if gap == [] {
      assert Lines(init) + gap == Lines(init);
    } else {
      RenderOne(Separator, formatTime, formatAmount);
    }
  }

  lemma RenderOne(line: Line, formatTime: AwareDateTime -> string, formatAmount: real -> string)
    ensures Render([line], formatTime, formatAmount) == RenderLine(line, formatTime, formatAmount)
  {
    assert [line][..0] == [];
  }

  /** `RenderLinesSnoc` stated on the prefixes of one list of hours. */
  lemma RenderLinesStep(hours: seq<RainyForecastHour>, i: nat,
                        formatTime: AwareDateTime -> string, formatAmount: real -> string)
    requires i < |hours|
    ensures i > 0 && IsGap(hours[i - 1], hours[i]) ==>
              Render(Lines(hours[..i + 1]), formatTime, formatAmount)
              == Render(Lines(hours[..i]), formatTime, formatAmount) + SeparationLine
                 + EntryLine(hours[i], formatTime, formatAmount)
    ensures !(i > 0 && IsGap(hours[i - 1], hours[i])) ==>
              Render(Lines(hours[..i + 1]), formatTime, formatAmount)
              == Render(Lines(hours[..i]), formatTime, formatAmount) + EntryLine(hours[i], formatTime, formatAmount)
  {
    var init := hours[..i];
    assert hours[..i + 1] == init + [hours[i]];
    if i > 0 {
      assert init[|init| - 1] == hours[i - 1];
    }
    RenderLinesSnoc(init, hours[i], formatTime, formatAmount);
  }

  /** `_create_rainy_hours_message_simple`: the text of `Lines`, built line
      by line as the source does (the source appends each entry line in
      several pieces; here it is appended whole). */
  method CreateRainyHoursMessageSimple(forecastHours: seq<RainyForecastHour>,
                                       formatTime: AwareDateTime -> string, formatAmount: real -> string)
    returns (message: string)
    ensures message == Render(Lines(forecastHours), formatTime, formatAmount)
  {
    message := SeparationLine;
    var prevHour: Option<AwareDateTime> := None;
    RenderLinesEmpty(forecastHours, formatTime, formatAmount);
    for i := 0 to |forecastHours|
      invariant message == Render(Lines(forecastHours[..i]), formatTime, formatAmount)
      invariant prevHour == if i == 0 then None else Some(forecastHours[i - 1].time)
    {
      var forecastHour := forecastHours[i];
      RenderLinesStep(forecastHours, i, formatTime, formatAmount);
      if prevHour.Some? && Epoch(prevHour.value) + HourMicros < Epoch(forecastHour.time) {
        message := message + SeparationLine;
      }
      prevHour := Some(forecastHour.time);
      message := message + EntryLine(forecastHour, formatTime, formatAmount);
    }
    assert forecastHours[..|forecastHours|] == forecastHours;
  }
}
