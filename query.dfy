/**
 * The `query_params` dict that `current_weather` and `forecast_weather`
 * build and hand to `requests.get`, and what of it reaches the wire.
 */
module Query {
  import opened Wrappers

  /** A `query_params` dict; a value is a string or Python's None. */
  type Params = map<string, Option<string>>

  const MetricUnits := "metric"

  /** The dict of `current_weather`: `q` and `APPID` always, `units` exactly when Celsius was asked for. */
  predicate IsCurrentQuery(q: Params, location: string, celsius: bool, apiKey: string) {
    && q.Keys == {"q", "APPID"} + (if celsius then {"units"} else {})
    && q["q"] == Some(location)
    && q["APPID"] == Some(apiKey)
    && (celsius ==> q["units"] == Some(MetricUnits))
  }

  /** The dict of `forecast_weather`: the same, plus `cnt` holding the `--results` option, None when it was not given. */
  predicate IsForecastQuery(q: Params, location: string, celsius: bool, days: Option<string>, apiKey: string) {
    && q.Keys == {"q", "APPID", "cnt"} + (if celsius then {"units"} else {})
    && q["q"] == Some(location)
    && q["APPID"] == Some(apiKey)
    && q["cnt"] == days
    && (celsius ==> q["units"] == Some(MetricUnits))
  }

  method CurrentQuery(location: string, celsius: bool, apiKey: string) returns (q: Params)
    ensures IsCurrentQuery(q, location, celsius, apiKey)
  {
    q := map["q" := Some(location), "APPID" := Some(apiKey)];
    if celsius {
      q := q["units" := Some(MetricUnits)];
    }
  }

  method ForecastQuery(location: string, celsius: bool, days: Option<string>, apiKey: string) returns (q: Params)
    ensures IsForecastQuery(q, location, celsius, days, apiKey)
  {
    q := map["q" := Some(location), "APPID" := Some(apiKey), "cnt" := days];
    if celsius {
      q := q["units" := Some(MetricUnits)];
    }
  }

  /** The query string `requests` sends: entries whose value is None are left out. */
  function Sent(q: Params): (wire: map<string, string>)
    ensures forall k :: k in wire <==> k in q && q[k].Some?
    ensures forall k :: k in wire ==> q[k] == Some(wire[k])
  {
    map k | k in q && q[k].Some? :: q[k].value
  }

  /** On the wire, a current-weather request carries `q` and `APPID`, never `cnt`, and `units=metric` exactly when Celsius was asked for. */
  lemma CurrentWire(q: Params, location: string, celsius: bool, apiKey: string)
    requires IsCurrentQuery(q, location, celsius, apiKey)
    ensures Sent(q).Keys == {"q", "APPID"} + (if celsius then {"units"} else {})
    ensures Sent(q)["q"] == location && Sent(q)["APPID"] == apiKey
    ensures "units" in Sent(q) <==> celsius
    ensures celsius ==> Sent(q)["units"] == "metric"
  {
  }

  /** A forecast request carries `cnt` exactly when `--results` was given, and `units=metric` exactly when Celsius was asked for. */
  lemma ForecastWire(q: Params, location: string, celsius: bool, days: Option<string>, apiKey: string)
    requires IsForecastQuery(q, location, celsius, days, apiKey)
    ensures Sent(q)["q"] == location && Sent(q)["APPID"] == apiKey
    ensures "cnt" in Sent(q) <==> days.Some?
    ensures days.Some? ==> Sent(q)["cnt"] == days.value
    ensures "units" in Sent(q) <==> celsius
    ensures celsius ==> Sent(q)["units"] == "metric"
    ensures Sent(q).Keys <= {"q", "APPID", "cnt", "units"}
  {
  }
}
