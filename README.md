# openweather-cli in Dafny

A model of the core of `openweather.py`, a small command-line client for the
OpenWeather service. It has three commands: `config` stores an API key in
`~/.weather.cfg`. `current <location>` prints the current weather. `forecast
<location> [-r N]` prints the 3-hourly forecast. The global options are
`--celsius` and `--api-key`, and the key may also come from `OW_API_KEY`.

What is modelled:

- **Credential** (module `Config`). `config` writes the key as the whole file.
  `get_api_key` returns the file's first line, read in Python 3 text mode,
  where `'\n'`, `'\r'` and `"\r\n"` all end a line and come back as `'\n'`.
  `current` and `forecast` start from `""`. They take the file key when the
  file exists, then the explicit key (flag or environment variable) whenever
  it is not `None`. An empty key stops the command before any request is made.
- **Query** (module `Query`). The `query_params` dict of `current_weather` and
  `forecast_weather`, and what `requests` puts on the wire (entries whose value
  is `None` are dropped).
- **Tables** (module `Tables`). `WEEK_DAYS` (Monday = 0, with the source's
  spelling `'Wenesday'` kept) and `ICONS`. The icon code is looked up after its
  last character is cut off.
- **Timestamps** (module `Calendar`). Parsing of the upstream `dt_txt`
  (`YYYY-MM-DD HH:MM:SS`), the proleptic Gregorian day number behind
  `datetime.weekday()`, and the `%i` rendering of the hour.
- **Reports** (modules `Reports` and `Sequences`). The current-weather report.
  The forecast report is a header plus one block per entry, in input order,
  or the error of the first entry that cannot be formatted.
- **Commands** (module `Cli`). `current_weather`, `forecast_weather` (its loop
  kept as a `while` loop proved against `ForecastReport`), and the commands
  `current` and `forecast`, whose output is the banner `"OpenWeather CLI ✨\n\n"`
  followed by the report.

Inputs that come from the outside are parameters:

- the config file is an `Option<string>`, `None` when the file does not exist;
- the explicit key is an `Option<string>`;
- the weather service is a total function from the query string sent to the
  decoded response fields;
- temperatures are opaque strings, already rendered with `%.2f`.

A command ends in an `Outcome`:

- `Stopped` is the "Please enter your OpenWeather API KEY" message;
- `Printed` is the printed text;
- `Raised` is the `KeyError` or `ValueError` that escapes from the formatter.

Notes on the source that the model keeps:

- Any explicit key that is not `None` replaces the file key, even `""`
  (openweather.py:78-79, 107-108). A key given as `--api-key ""` therefore
  stops the command even when a key is configured. Whether an empty
  `OW_API_KEY` reaches the command as `""` or as `None` is decided by click,
  which is not part of this model. The explicit key is taken as click hands
  it over.
- The stored key reads back exactly only if it is a single line: no `'\r'`
  or `'\n'`, except one trailing `'\n'`. This is because `readline` works in
  universal-newline mode (`Config.ConfigRoundTrip`).
- Missing-key exit: `sys.exit()` with no argument exits with status 0
  (openweather.py:81-83). The model records only that the command stopped.
- Malformed responses are not handled. A missing field raises `KeyError`,
  an empty `weather` list `IndexError` (openweather.py:134, 166), a body of
  the wrong JSON type `TypeError`, and a body that is not JSON a decoding
  error from `response.json()`. Each escapes as an uncaught exception.

## Model

| member | source | states |
|---|---|---|
| `Tables.WeekDaysTotal` | openweather.py:13-21 | the weekday table is defined exactly for 0..6, 0 is Monday, 6 is Sunday, and no name is empty |
| `Tables.WeekdayName` | openweather.py:171-173 | a weekday number 0..6 always has a name in the table (at least six characters) |
| `Tables.IconKey` | openweather.py:135 | `icon[:-1]`: the key plus the dropped last character gives back the icon; the empty icon gives the empty key |
| `Tables.IconGlyph` | openweather.py:23-33 | lookup succeeds exactly for the nine codes 01, 02, 03, 04, 09, 10, 11, 13, 50; otherwise it fails with the sliced code; a glyph is never empty (a space and an emoji) |
| `Tables.IconVariantIrrelevant` | openweather.py:167 | the day/night character never changes the glyph lookup |
| `Tables.IconExamples` | openweather.py:24 | "01d" and "01n" give the sun; "99d" and "" fail, naming "99" and "" |
| `Calendar.Decimal` | openweather.py:173 | `%i` of the hour: only digits, no leading zero, one digit exactly below 10 |
| `Calendar.DecimalRoundTrip` | openweather.py:173 | reading back the digits of the rendered hour gives the hour |
| `Calendar.ParseTimestamp` | openweather.py:169-170 | a parsed timestamp is a valid date and time of the fixed-width form |
| `Calendar.ParseFormat` | openweather.py:170 | every valid date and time, written in the upstream form, parses back to itself |
| `Calendar.FormatParse` | openweather.py:170 | every string that parses is exactly the upstream form of what it parses to |
| `Calendar.ParseExample` | openweather.py:170 | "2023-06-05 12:00:00" parses to 2023-06-05 12:00:00 |
| `Calendar.Weekday` | openweather.py:171 | the weekday number is always in 0..6 |
| `Calendar.Ordinal` | openweather.py:171 | `toordinal()`, the day number `weekday()` rests on: a valid date of year y is numbered after all days of earlier years and within y's 365 or 366 days |
| `Calendar.NextDayOrdinal` | openweather.py:171 | every day but 9999-12-31, the last one `date` allows, is followed by a day with the next day number, across month and year ends |
| `Calendar.NextDayWeekday` | openweather.py:171 | consecutive days up to 9999-12-31 have consecutive weekdays, Sunday wrapping to Monday |
| `Calendar.FirstDayMonday` | openweather.py:171 | 0001-01-01 is a Monday (weekday 0) |
| `Calendar.SampleDayMonday` | openweather.py:171 | 2023-06-05 is a Monday (weekday 0) |
| `Config.FirstLine` | openweather.py:182 | `readline`: without a line break, the whole contents; otherwise the text before the first `'\n'` or `'\r'`, then one `'\n'` |
| `Config.WriteConfig` | openweather.py:61-62 | the file opened with 'w' exists afterwards and holds exactly the key, whatever it held before |
| `Config.GetApiKey` | openweather.py:178-187 | `FileNotFoundError` (None) exactly when the file is missing; otherwise its first line, which is always a single line |
| `Config.ConfigRoundTrip` | openweather.py:181-187 | reading back a key written by `config` gives exactly that key if and only if it is a single line (no line break, except possibly one final `'\n'`), whatever the file held before |
| `Config.OneLineReadBack` | openweather.py:182 | `readline` on a file holding a single line returns exactly that line, its final `'\n'` included |
| `Config.FirstLineEmpty` | openweather.py:182 | the key read is empty exactly when the file is empty |
| `Config.ResolvedKey` | openweather.py:71-79 | the key sent: the explicit key whenever there is one; otherwise a single line, non-empty only when the file exists |
| `Config.ResolveApiKey` | openweather.py:71-79 | an explicit key that is not None always wins, even ""; otherwise the file key; otherwise "" (the same steps as lines 100-108) |
| `Config.MissingKeyIff` | openweather.py:78-83 | the key is empty exactly when the explicit key is "", or there is none and the file is missing or empty |
| `Config.ConfiguredKeyUsed` | openweather.py:61-62 | after `config` stores a key without line breaks over any previous file, a command without an explicit key uses exactly that key |
| `Query.CurrentQuery` | openweather.py:122-128 | the dict holds `q` = location and `APPID` = key, and `units` = metric exactly when Celsius is set, nothing else |
| `Query.ForecastQuery` | openweather.py:147-154 | the same, plus `cnt` holding the `--results` value or None |
| `Query.Sent` | openweather.py:130 | the wire carries exactly the dict entries whose value is not None, with those values |
| `Query.CurrentWire` | openweather.py:122-130 | a current request sends `q` and `APPID`, never `cnt`, and `units=metric` if and only if Celsius is set |
| `Query.ForecastWire` | openweather.py:147-156 | a forecast request sends `cnt` if and only if `--results` was given, and `units=metric` if and only if Celsius is set |
| `Sequences.Collect` | openweather.py:164-173 | a loop that stops at the first exception gives all values in order, one per element, or the error of the first failing element |
| `Sequences.CollectErrStable` | openweather.py:164-173 | entries after the first failing one do not change the outcome |
| `Reports.CurrentReport` | openweather.py:132-140 | the current report is produced exactly when the icon code is known; otherwise it fails, naming the sliced code |
| `Reports.CurrentReportShape` | openweather.py:140 | a produced current report opens with the city and country lines |
| `Reports.CurrentReportSample` | openweather.py:140 | the London clear-sky sample (GB, "01d", 20.50/22.00/18.00) gives exactly the report text: city and country lines, the description with the sun glyph, then the current, max and min temperatures |
| `Reports.EntryBlock` | openweather.py:165-173 | a block is produced exactly when the timestamp parses and the icon is known; a bad timestamp is reported before a bad icon; a block opens with a newline |
| `Reports.EntryBlockSample` | openweather.py:169-173 | the whole block of a clear-sky 2023-06-05 12:00:00 entry: "Monday 12h", then the description with the sun glyph, then "Temperature: " and the temperature, each on its own line |
| `Reports.ForecastHeader` | openweather.py:162 | the header is exactly "City: " + city + " \nCountry: " + country + "\n": the current report's opening, then a line break with no trailing space |
| `Reports.ForecastHeaderSample` | openweather.py:162 | the London header is "City: London \nCountry: GB\n" |
| `Reports.ForecastReport` | openweather.py:162-175 | a produced forecast report always opens with the header; its blocks, failure and order are stated by the lemmas below |
| `Reports.ForecastReportEmpty` | openweather.py:162 | an empty entry list gives the header alone |
| `Reports.ForecastReportOkIff` | openweather.py:164-175 | the forecast report is produced exactly when every entry's block is |
| `Reports.ForecastReportBlocks` | openweather.py:162-175 | a produced forecast report is the header followed by exactly one block per entry, in input order |
| `Reports.ForecastReportFirstError` | openweather.py:164-173 | a failed forecast report carries the error of the first failing entry |
| `Reports.ForecastReportSnoc` | openweather.py:173 | one more formattable entry appends exactly its block to the report |
| `Reports.ForecastReportPrefix` | openweather.py:164-175 | the report for a prefix of the entries is a prefix of the full report: order is preserved |
| `Cli.Shown` | openweather.py:86 | text is printed exactly for a produced report, and it is the banner followed by the report; a failed report becomes `Raised` with its error unchanged |
| `Cli.CurrentWeather` | openweather.py:118-140 | the query is the current-weather dict, and the result is the current report of the service's answer to what was sent |
| `Cli.ForecastWeather` | openweather.py:143-175 | the query is the forecast dict, and the loop's result equals the forecast report of the service's answer |
| `Cli.Current` | openweather.py:65-86 | no request exactly when the resolved key is empty, and then the missing-key message; otherwise the request carries the resolved key and the output is the banner and the report |
| `Cli.Forecast` | openweather.py:89-115 | the same for `forecast`, with `--results` passed on as `cnt` |

## Left out

- The HTTP request (`requests.get`) and JSON decoding. The service is a function from the sent query to the decoded fields. Network errors and malformed responses (an uncaught `KeyError`, `IndexError`, `TypeError` or JSON decoding error) are not modelled.
- The order of the query parameters on the wire (the dict's insertion order). A query is a map.
- The `click` group, its options, the context object and `click.prompt` in `config`. The flags and the key are parameters. click re-prompts on empty input, so a prompted key is never empty. The model's `WriteConfig` accepts any string.
- File I/O: `expanduser`, the path `~/.weather.cfg`, text encoding, errors other than a missing file, and the `'\n'` to `os.linesep` translation on write (taken as POSIX, where nothing changes).
- `%.2f` formatting of temperatures, which are floating point. Temperatures are opaque, already-rendered strings.
- `print`'s trailing newline and the exit status of `sys.exit()`. An `Outcome` holds the text handed to `print`.
- Calendar.ParseTimestamp: accepts only the zero-padded fixed-width `YYYY-MM-DD HH:MM:SS`. `strptime` also takes single-digit fields, runs of whitespace for the space and non-ASCII digits. Those forms are reported as `BadTimestamp` here. The service sends the fixed-width form.
