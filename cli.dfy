/**
 * The commands `current` and `forecast` and the two functions that fetch
 * and format, `current_weather` and `forecast_weather`. The global
 * `--celsius` and `--api-key` options arrive as explicit parameters. The
 * weather service is a parameter too: a function from the query string sent
 * to the decoded response.
 */
module Cli {
  import opened Wrappers
  import opened Tables
  import opened Config
  import opened Query
  import opened Reports
  import opened Sequences

  const Banner := "OpenWeather CLI \U{2728}\n\n"
  const MissingKeyMessage := "Please enter your OpenWeather API KEY"

  /** How a command ends: stopped for want of a key, a printed report, or an exception from the formatter. */
  datatype Outcome =
    | Stopped(message: string)
    | Printed(text: string)
    | Raised(error: ReportError)

  /** `print("OpenWeather CLI ✨\n\n" + weather)`, reached only when the report was produced. */
  function Shown(report: Result<string, ReportError>): (out: Outcome)
    ensures out.Printed? <==> report.Ok?
    ensures out.Printed? ==> Banner <= out.text && out.text[|Banner|..] == report.value
    ensures report.Err? ==> out == Raised(report.error)
  {
    match report
    case Ok(weather) => Printed(Banner + weather)
    case Err(e) => Raised(e)
  }

  /** `current_weather`: build the query, ask the service, format the answer. */
  method CurrentWeather(location: string, celsius: bool, apiKey: string,
                        service: map<string, string> -> CurrentPayload)
    returns (request: Params, report: Result<string, ReportError>)
    ensures IsCurrentQuery(request, location, celsius, apiKey)
    ensures report == CurrentReport(service(Sent(request)))
  {
    request := CurrentQuery(location, celsius, apiKey);
    var response := service(Sent(request));
    report := CurrentReport(response);
  }

  /**
   * `forecast_weather`: build the query, ask the service, then extend the
   * report entry by entry; the first entry that cannot be formatted ends
   * the loop with its error.
   */
  method ForecastWeather(location: string, celsius: bool, days: Option<string>, apiKey: string,
                         service: map<string, string> -> ForecastPayload)
    returns (request: Params, report: Result<string, ReportError>)
    ensures IsForecastQuery(request, location, celsius, days, apiKey)
    ensures report == ForecastReport(service(Sent(request)))
  {
    request := ForecastQuery(location, celsius, days, apiKey);
    var response := service(Sent(request));
    var entries := response.entries;
    var header := ForecastHeader(response.city, response.country);
    var strList := header;
    var i := 0;
    while i < |entries|
      invariant 0 <= i <= |entries|
      invariant Collect(MapResults(entries[..i], EntryBlock)).Ok?
      invariant strList == header + Concat(Collect(MapResults(entries[..i], EntryBlock)).value)
    {
      var block := EntryBlock(entries[i]);
      if block.Err? {
        CollectStop(entries, EntryBlock, i);
        report := Err(block.error);
        return;
      }
      var done := Collect(MapResults(entries[..i], EntryBlock)).value;
      CollectStep(entries, EntryBlock, i);
      ConcatSnoc(done, block.value);
      AppendAssoc(header, Concat(done), block.value);
      strList := strList + block.value;
      i := i + 1;
    }
    assert entries[..i] == entries;
    report := Ok(strList);
  }

  /**
   * The `current` command. The key comes from the file, overridden by the
   * explicit key whenever that is not None; an empty key stops the command
   * before any request is made.
   */
  method Current(file: Option<string>, explicitKey: Option<string>, celsius: bool, location: string,
                 service: map<string, string> -> CurrentPayload)
    returns (request: Option<Params>, out: Outcome)
    ensures request.None? <==> ResolvedKey(file, explicitKey) == ""
    ensures request.None? ==> out == Stopped(MissingKeyMessage)
    ensures request.Some? ==> IsCurrentQuery(request.value, location, celsius, ResolvedKey(file, explicitKey))
    ensures request.Some? ==> out == Shown(CurrentReport(service(Sent(request.value))))
  {
    var apiKey := ResolveApiKey(file, explicitKey);
    if apiKey == "" {
      return None, Stopped(MissingKeyMessage);
    }
    var params, weather := CurrentWeather(location, celsius, apiKey, service);
    request := Some(params);
    out := Shown(weather);
  }

  /** The `forecast` command: the same key handling, with `--results` passed on as `cnt`. */
  method Forecast(file: Option<string>, explicitKey: Option<string>, celsius: bool, location: string,
                  results: Option<string>, service: map<string, string> -> ForecastPayload)
    returns (request: Option<Params>, out: Outcome)
    ensures request.None? <==> ResolvedKey(file, explicitKey) == ""
    ensures request.None? ==> out == Stopped(MissingKeyMessage)
    ensures request.Some? ==> IsForecastQuery(request.value, location, celsius, results, ResolvedKey(file, explicitKey))
    ensures request.Some? ==> out == Shown(ForecastReport(service(Sent(request.value))))
  {
    var apiKey := ResolveApiKey(file, explicitKey);
    if apiKey == "" {
      return None, Stopped(MissingKeyMessage);
    }
    var params, weather := ForecastWeather(location, celsius, results, apiKey, service);
    request := Some(params);
    out := Shown(weather);
  }
}
