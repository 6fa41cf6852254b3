/** How the dashboard reads the backend's replies: the message a failed
    search shows for each way `get_weather` and `get_news` can fail, and the
    search-history entry a dashboard search leaves behind.
 */
module Integration {
  import opened Payload
  import opened Handlers
  import Persistence
  import Weather
  import News
  import Dashboard

  /** What `await response.json()` yields for a backend response: the JSON
      reply (`fetch` does not reject on a 404 or a 500), or a failure for
      the HTML error page Flask serves when a handler raises. */
  function ClientView(r: Response): (v: Dashboard.Reply)
    ensures v.Unreadable? <==> r.Crash?
    ensures v.Readable? ==> (v.success <==> !r.body.Failure?)
    ensures v.Readable? && !v.success ==> v.error == Present(Val(r.body.error))
  {
    match r
    case Crash(_) => Dashboard.Unreadable
    case Reply(_, body) =>
      if body.Failure? then Dashboard.Readable(false, Present(Val(body.error)))
      else Dashboard.Readable(true, Absent)
  }

  /** Each way a weather search ends, as the dashboard shows it: the data
      on success, "City not found" for a non-200 provider status, the
      exception text (or the fixed fallback when that text is empty) for a
      transport error, and the network-error text when the handler raised. */
  lemma WeatherSearchMessages(city: Option<string>, upstream: Upstream<Weather.Report>,
                              round1: real -> real, now: string)
    ensures var shown := Dashboard.WeatherMessage(ClientView(WeatherResponse(city, upstream, round1, now)));
      && (upstream.Status? && upstream.code != 200 ==> shown == Some(CityNotFound))
      && (upstream.Transport? && upstream.message != "" ==> shown == Some(upstream.message))
      && (upstream.Transport? && upstream.message == "" ==> shown == Some(Dashboard.WeatherFallback))
      && (upstream.Status? && upstream.code == 200 ==>
            (shown.None? <==> Weather.WellFormed(upstream.body)) &&
            (shown.Some? ==> shown == Some(Dashboard.NetworkError)))
  {
  }

  /** The same for a news search, whose non-200 text is "Failed to fetch news". */
  lemma NewsSearchMessages(category: Option<string>, country: Option<string>,
                           upstream: Upstream<News.Headlines>,
                           parse: string -> Option<News.DateTime>)
    ensures var shown := Dashboard.NewsMessage(ClientView(NewsResponse(category, country, upstream, parse)));
      && (upstream.Status? && upstream.code != 200 ==> shown == Some(NewsFailed))
      && (upstream.Transport? && upstream.message != "" ==> shown == Some(upstream.message))
      && (upstream.Transport? && upstream.message == "" ==> shown == Some(Dashboard.NewsFallback))
      && (upstream.Status? && upstream.code == 200 && Collected(upstream.body, parse).Err? ==>
            shown == Some(Dashboard.NetworkError))
      && (shown.None? <==> NewsResponse(category, country, upstream, parse).Reply? &&
                           NewsResponse(category, country, upstream, parse).status == 200)
  {
  }

  /** A dashboard weather search that succeeds logs the trimmed text typed
      into the city field, and its history entry shows the weather icon. */
  lemma DashboardSearchLogged(input: string, upstream: Upstream<Weather.Report>,
                              round1: real -> real, now: string)
    requires Dashboard.CityToSearch(input).Some?
    requires WeatherResponse(Dashboard.CityToSearch(input), upstream, round1, now).Reply?
    requires WeatherResponse(Dashboard.CityToSearch(input), upstream, round1, now).status == 200
    ensures var effects := WeatherEffects(Dashboard.CityToSearch(input), upstream, round1, now);
      && |effects| == 2
      && effects[1] == Persistence.LogSearch("weather", Dashboard.Trim(input))
      && Dashboard.HistoryIcon(effects[1].searchType) == Dashboard.WeatherIcon
  {
    WeatherEffectsOnSuccess(Dashboard.CityToSearch(input), upstream, round1, now);
  }
}
