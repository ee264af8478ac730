/**
 * The report strings of `current_weather` and `forecast_weather`, over the
 * fields they read from the decoded response. Temperatures arrive already
 * rendered with `%.2f` and are opaque strings here.
 */
module Reports {
  import opened Wrappers
  import opened Tables
  import opened Calendar
  import opened Sequences

  /** The fields `current_weather` reads: sys.country, name, weather[0].description and .icon, main.temp, .temp_max, .temp_min. */
  datatype CurrentPayload = CurrentPayload(
    country: string, city: string, description: string, icon: string,
    temp: string, tempMax: string, tempMin: string)

  /** One element of the forecast `list`: main.temp, weather[0].description and .icon, dt_txt. */
  datatype ForecastEntry = ForecastEntry(temp: string, description: string, icon: string, dtTxt: string)

  /** The fields `forecast_weather` reads: city.country, city.name and the entry list, in the order received. */
  datatype ForecastPayload = ForecastPayload(country: string, city: string, entries: seq<ForecastEntry>)

  /**
   * The single-expression report of `current_weather`. The only way it can
   * fail is the glyph lookup, and then nothing is reported.
   */
  function CurrentReport(p: CurrentPayload): (r: Result<string, ReportError>)
    ensures r.Ok? <==> IconKey(p.icon) in IconCodes
    ensures r.Err? ==> r.error == UnknownIcon(IconKey(p.icon))
  {
    match IconGlyph(p.icon)
    case Err(e) => Err(e)
    case Ok(glyph) =>
      Ok("City: " + p.city + " \nCountry: " + p.country + " \n\n" + p.description + glyph
         + "\n \nCurrent Temperature: " + p.temp + " \nMax Temperature: " + p.tempMax
         + " \nMin Temperature: " + p.tempMin)
  }

  /** On success the current report opens with the city and country lines. */
  lemma CurrentReportShape(p: CurrentPayload)
    requires CurrentReport(p).Ok?
    ensures "City: " + p.city + " \nCountry: " + p.country <= CurrentReport(p).value
  {
  }

  /**
   * The London sample: clear sky by day is shown with the sun glyph, under
   * the city and country lines and above the three temperatures.
   */
  lemma CurrentReportSample()
    ensures CurrentReport(CurrentPayload("GB", "London", "clear sky", "01d", "20.50", "22.00", "18.00"))
         == Ok("City: London \nCountry: GB \n\nclear sky \U{2600}\U{FE0F}\n \nCurrent Temperature: 20.50"
               + " \nMax Temperature: 22.00 \nMin Temperature: 18.00")
  {
    var p := CurrentPayload("GB", "London", "clear sky", "01d", "20.50", "22.00", "18.00");
    IconExamples();
    assert IconGlyph(p.icon) == Ok(" \U{2600}\U{FE0F}");
    SampleReportText();
  }

  // SampleReportText and the four lemmas after it only join string literals:
  // they are steps for the solver, split so that each stays small, and say
  // nothing about the model beyond CurrentReportSample.
  lemma SampleReportText()
    ensures "City: " + "London" + " \nCountry: " + "GB" + " \n\n" + "clear sky" + " \U{2600}\U{FE0F}"
            + "\n \nCurrent Temperature: " + "20.50" + " \nMax Temperature: " + "22.00"
            + " \nMin Temperature: " + "18.00"
         == "City: London \nCountry: GB \n\nclear sky \U{2600}\U{FE0F}\n \nCurrent Temperature: 20.50"
            + " \nMax Temperature: 22.00 \nMin Temperature: 18.00"
  {
    SampleHead();
    SampleCurrent();
    SampleMax();
    SampleMin();
  }

  lemma SampleHead()
    ensures "City: " + "London" + " \nCountry: " + "GB" + " \n\n" + "clear sky" + " \U{2600}\U{FE0F}"
         == "City: London \nCountry: GB \n\nclear sky \U{2600}\U{FE0F}"
  {
  }

  lemma SampleCurrent()
    ensures "City: London \nCountry: GB \n\nclear sky \U{2600}\U{FE0F}" + "\n \nCurrent Temperature: " + "20.50"
         == "City: London \nCountry: GB \n\nclear sky \U{2600}\U{FE0F}\n \nCurrent Temperature: 20.50"
  {
  }

  lemma SampleMax()
    ensures "City: London \nCountry: GB \n\nclear sky \U{2600}\U{FE0F}\n \nCurrent Temperature: 20.50" + " \nMax Temperature: " + "22.00"
         == "City: London \nCountry: GB \n\nclear sky \U{2600}\U{FE0F}\n \nCurrent Temperature: 20.50"
            + " \nMax Temperature: 22.00"
  {
  }

  lemma SampleMin()
    ensures ("City: London \nCountry: GB \n\nclear sky \U{2600}\U{FE0F}\n \nCurrent Temperature: 20.50"
            + " \nMax Temperature: 22.00") + " \nMin Temperature: " + "18.00"
         == "City: London \nCountry: GB \n\nclear sky \U{2600}\U{FE0F}\n \nCurrent Temperature: 20.50"
            + " \nMax Temperature: 22.00 \nMin Temperature: 18.00"
  {
  }

  /**
   * The opening of the forecast report: the city line and the country line.
   * It shares "City: <city> \nCountry: <country>" with the current report,
   * but ends its country line without the trailing space.
   */
  function ForecastHeader(city: string, country: string): (h: string)
    ensures "City: " + city + " \nCountry: " + country <= h
    ensures |h| == |city| + |country| + 18 && h[|h| - 1] == '\n'
  {
    "City: " + city + " \nCountry: " + country + "\n"
  }

  /**
   * The block one forecast entry adds: a blank line, weekday and hour, the
   * description with its glyph, the temperature. The timestamp is parsed
   * before the glyph is looked up, so a bad timestamp is the error reported
   * when both are wrong.
   */
  function EntryBlock(e: ForecastEntry): (r: Result<string, ReportError>)
    ensures r.Ok? <==> ParseTimestamp(e.dtTxt).Some? && IconKey(e.icon) in IconCodes
    ensures ParseTimestamp(e.dtTxt).None? ==> r == Err(BadTimestamp(e.dtTxt))
    ensures ParseTimestamp(e.dtTxt).Some? && r.Err? ==> r.error == UnknownIcon(IconKey(e.icon))
    ensures r.Ok? ==> |r.value| > 0 && r.value[0] == '\n'
  {
    match ParseTimestamp(e.dtTxt)
    case None => Err(BadTimestamp(e.dtTxt))
    case Some(dt) =>
      match IconGlyph(e.icon)
      case Err(err) => Err(err)
      case Ok(glyph) =>
        Ok("\n" + WeekdayName(Weekday(dt)) + " " + Decimal(dt.hour) + "h\n"
           + e.description + glyph + "\nTemperature: " + e.temp + "\n")
  }

  /**
   * The sample entry of 2023-06-05 12:00 (a Monday), clear sky by day: the
   * whole block, from the "Monday 12h" heading to the temperature line.
   */
  lemma EntryBlockSample(temp: string, description: string)
    ensures EntryBlock(ForecastEntry(temp, description, "01d", "2023-06-05 12:00:00"))
         == Ok("\nMonday 12h\n" + description + " \U{2600}\U{FE0F}" + "\nTemperature: " + temp + "\n")
  {
    ParseExample();
    IconExamples();
    SampleHeading();
  }

  lemma SampleHeading()
    ensures var dt := DateTime(2023, 6, 5, 12, 0, 0);
      "\n" + WeekdayName(Weekday(dt)) + " " + Decimal(dt.hour) + "h\n" == "\nMonday 12h\n"
  {
    SampleDayMonday();
    assert Decimal(12) == "12";
  }

  /** The London header: no space before the line break after the country. */
  lemma ForecastHeaderSample()
    ensures ForecastHeader("London", "GB") == "City: London \nCountry: GB\n"
  {
  }

  /** The report of `forecast_weather`: the header, then one block per entry in input order. */
  function ForecastReport(p: ForecastPayload): (r: Result<string, ReportError>)
    ensures r.Ok? ==> ForecastHeader(p.city, p.country) <= r.value
  {
    match Collect(MapResults(p.entries, EntryBlock))
    case Err(e) => Err(e)
    case Ok(bs) => Ok(ForecastHeader(p.city, p.country) + Concat(bs))
  }

  /** An empty entry list reports the header alone. */
  lemma ForecastReportEmpty(city: string, country: string)
    ensures ForecastReport(ForecastPayload(country, city, [])) == Ok(ForecastHeader(city, country))
  {
    assert ForecastHeader(city, country) + Concat([]) == ForecastHeader(city, country);
  }

  /** The forecast report is produced exactly when every entry's block is. */
  lemma ForecastReportOkIff(p: ForecastPayload)
    ensures ForecastReport(p).Ok? <==> forall i :: 0 <= i < |p.entries| ==> EntryBlock(p.entries[i]).Ok?
  {
    MapResultsAll(p.entries, EntryBlock);
  }

  /** A produced forecast report is the header followed by one block per entry, in input order. */
  lemma ForecastReportBlocks(p: ForecastPayload)
    requires ForecastReport(p).Ok?
    ensures exists bs: seq<string> ::
      && |bs| == |p.entries|
      && (forall i :: 0 <= i < |bs| ==> EntryBlock(p.entries[i]) == Ok(bs[i]))
      && ForecastReport(p).value == ForecastHeader(p.city, p.country) + Concat(bs)
  {
    var rs := MapResults(p.entries, EntryBlock);
    var bs := Collect(rs).value;
    forall i | 0 <= i < |bs| ensures EntryBlock(p.entries[i]) == Ok(bs[i]) {
      MapResultsAt(p.entries, EntryBlock, i);
    }
    assert ForecastReport(p).value == ForecastHeader(p.city, p.country) + Concat(bs);
  }

  /** A failed forecast report carries the error of the first entry that fails. */
  lemma ForecastReportFirstError(p: ForecastPayload)
    requires ForecastReport(p).Err?
    ensures exists k ::
      && 0 <= k < |p.entries|
      && EntryBlock(p.entries[k]).Err?
      && (forall i :: 0 <= i < k ==> EntryBlock(p.entries[i]).Ok?)
      && ForecastReport(p).error == EntryBlock(p.entries[k]).error
  {
    var rs := MapResults(p.entries, EntryBlock);
    MapResultsAll(p.entries, EntryBlock);
    var k :| FirstError(rs, k) && Collect(rs).error == rs[k].error;
    assert EntryBlock(p.entries[k]).Err?;
  }

  /** Appending one entry to a list that reports fine appends exactly that entry's block. */
  lemma ForecastReportSnoc(p: ForecastPayload, e: ForecastEntry)
    requires ForecastReport(p).Ok? && EntryBlock(e).Ok?
    ensures ForecastReport(p.(entries := p.entries + [e]))
         == Ok(ForecastReport(p).value + EntryBlock(e).value)
  {
    var r := EntryBlock(e);
    var rs := MapResults(p.entries, EntryBlock);
    MapResultsSnoc(p.entries, e, EntryBlock);
    CollectSnoc(rs, r);
    var vs := Collect(rs).value;
    ConcatSnoc(vs, r.value);
    var header := ForecastHeader(p.city, p.country);
    AppendAssoc(header, Concat(vs), r.value);
  }

  /**
   * Order is preserved: the report of a longer list extends the report of
   * any of its prefixes, so earlier entries' blocks come first.
   */
  lemma ForecastReportPrefix(p: ForecastPayload, n: nat)
    requires n <= |p.entries| && ForecastReport(p).Ok?
    ensures ForecastReport(p.(entries := p.entries[..n])).Ok?
    ensures ForecastReport(p.(entries := p.entries[..n])).value <= ForecastReport(p).value
  {
    var rs := MapResults(p.entries, EntryBlock);
    MapResultsPrefix(p.entries, EntryBlock, n);
    CollectPrefix(rs, n);
    var vs := Collect(rs).value;
    ConcatPrefix(vs, n);
    var header := ForecastHeader(p.city, p.country);
    PrefixExtend(header, Concat(vs[..n]), Concat(vs));
  }
}
