/** The three JSON endpoints of app.py: `/api/weather`, `/api/news` and
    `/api/search-history`. Each handler is a method over the `Store` whose
    postconditions tie its response to a pure function of the query
    parameters and of the provider's outcome, and its storage calls to
    another. Because every storage call returns an unconstrained value, the
    response functions having no storage parameter is the statement that
    the response does not depend on what storage answers.
 */
module Handlers {
  import opened Payload
  import Weather
  import News
  import opened Persistence

  /** What `requests.get` gave: a transport-level `RequestException` with its
      text, or an HTTP status with the decoded body. */
  datatype Upstream<P> = Transport(message: string) | Status(code: int, body: P)

  /** The `data` or `error` member of a JSON reply. */
  datatype Body =
    | WeatherData(reading: Weather.Reading)
    | NewsData(articles: seq<News.Item>)
    | HistoryData(entries: seq<HistoryEntry>)
    | Failure(error: string)

  /** A JSON reply `{success, data | error}` with its status, or the
      generic error page Flask serves when the handler raises. */
  datatype Response = Reply(status: int, body: Body) | Crash(fault: Fault)

  const DefaultCity := "London"
  const DefaultCategory := "general"
  const DefaultCountry := "us"
  const CityNotFound := "City not found"
  const NewsFailed := "Failed to fetch news"
  const HistoryLimit := 15

  /** `request.args.get(name, default)`: the default only when the
      parameter is absent; an empty parameter is kept. */
  function Arg(arg: Option<string>, default: string): (r: string)
    ensures arg.None? ==> r == default
    ensures arg.Some? ==> r == arg.value
  {
    match arg
    case None => default
    case Some(v) => v
  }

  /** The search-history entry of a news search, `f'{category} - {country}'`:
      the category and the country actually sent upstream, with their
      defaults, around a " - " separator. */
  function NewsQuery(category: Option<string>, country: Option<string>): (q: string)
    ensures var cat, ctry := Arg(category, DefaultCategory), Arg(country, DefaultCountry);
      && |q| == |cat| + 3 + |ctry|
      && q[..|cat|] == cat && q[|cat|..|cat| + 3] == " - " && q[|cat| + 3..] == ctry
    ensures category.None? && country.None? ==> q == "general - us"
  {
    Arg(category, DefaultCategory) + " - " + Arg(country, DefaultCountry)
  }

  // ---------------------------------------------------------------- weather

  /** The reply of `get_weather`. */
  function WeatherResponse(city: Option<string>, upstream: Upstream<Weather.Report>,
                           round1: real -> real, now: string): (r: Response)
    ensures upstream.Transport? ==> r == Reply(500, Failure(upstream.message))
    ensures upstream.Status? && upstream.code != 200 ==> r == Reply(404, Failure(CityNotFound))
    ensures upstream.Status? && upstream.code == 200 ==>
      (r.Reply? <==> Weather.WellFormed(upstream.body))
    ensures r.Reply? ==> (r.status == 200 <==> r.body.WeatherData?)
    ensures upstream.Status? && upstream.code == 200 ==>
      r == (match Weather.Normalize(upstream.body, round1, now)
            case Ok(rd) => Reply(200, WeatherData(rd))
            case Err(f) => Crash(f))
  {
    match upstream
    case Transport(message) => Reply(500, Failure(message))
    case Status(code, body) =>
      if code != 200 then Reply(404, Failure(CityNotFound))
      else
        Weather.NormalizeOk(body, round1, now);
        match Weather.Normalize(body, round1, now)
        case Err(f) => Crash(f)
        case Ok(reading) => Reply(200, WeatherData(reading))
  }

  /** The storage calls of `get_weather`, in order. */
  function WeatherEffects(city: Option<string>, upstream: Upstream<Weather.Report>,
                          round1: real -> real, now: string): (e: seq<Effect>)
    ensures |e| == 0 || |e| == 2
    ensures e != [] ==> e[0].InsertWeather? && e[1] == Effect.LogSearch("weather", Arg(city, DefaultCity))
  {
    if upstream.Transport? || upstream.code != 200 then []
    else match Weather.Normalize(upstream.body, round1, now)
      case Err(_) => []
      case Ok(rd) =>
        [InsertWeather(rd.city, rd.temperature, rd.description, rd.humidity, rd.windSpeed),
         Effect.LogSearch("weather", Arg(city, DefaultCity))]
  }

  method GetWeather(store: Store, city: Option<string>, upstream: Upstream<Weather.Report>,
                    round1: real -> real, now: string) returns (response: Response)
    modifies store
    ensures response == WeatherResponse(city, upstream, round1, now)
    ensures store.trace == old(store.trace) + WeatherEffects(city, upstream, round1, now)
  {
    var query := Arg(city, DefaultCity);
    match upstream
    case Transport(message) =>
      response := Reply(500, Failure(message));
    case Status(code, body) =>
      if code == 200 {
        var reading := Weather.Normalize(body, round1, now);
        if reading.Err? {
          response := Crash(reading.fault);
          return;
        }
        var rd := reading.value;
        var stored := store.InsertWeatherData(rd.city, rd.temperature, rd.description, rd.humidity, rd.windSpeed);
        var logged := store.LogSearch("weather", query);
        response := Reply(200, WeatherData(rd));
      } else {
        response := Reply(404, Failure(CityNotFound));
      }
  }

  /** Storage is touched exactly when the reply is a success; a success
      first inserts the reading it returns and then logs the city argument
      as given (not the provider's `name`). */
  lemma WeatherEffectsOnSuccess(city: Option<string>, upstream: Upstream<Weather.Report>,
                                round1: real -> real, now: string)
    ensures var r := WeatherResponse(city, upstream, round1, now);
      && (WeatherEffects(city, upstream, round1, now) != [] <==> r.Reply? && r.status == 200)
      && (r.Reply? && r.status == 200 ==>
            var rd := r.body.reading;
            WeatherEffects(city, upstream, round1, now) ==
              [InsertWeather(rd.city, rd.temperature, rd.description, rd.humidity, rd.windSpeed),
               Effect.LogSearch("weather", Arg(city, DefaultCity))])
  {
  }

  // ------------------------------------------------------------------- news

  /** The reply of `get_news`. */
  function NewsResponse(category: Option<string>, country: Option<string>,
                        upstream: Upstream<News.Headlines>,
                        parse: string -> Option<News.DateTime>): (r: Response)
    ensures upstream.Transport? ==> r == Reply(500, Failure(upstream.message))
    ensures upstream.Status? && upstream.code != 200 ==> r == Reply(404, Failure(NewsFailed))
    ensures r.Reply? ==> (r.status == 200 <==> r.body.NewsData?)
    ensures upstream.Status? && upstream.code == 200 ==>
      && (r.Reply? <==> Collected(upstream.body, parse).Ok?)
      && (r.Reply? ==> r == Reply(200, NewsData(Collected(upstream.body, parse).value.articles)))
      && (r.Crash? ==> r.fault == Collected(upstream.body, parse).fault)
  {
    match upstream
    case Transport(message) => Reply(500, Failure(message))
    case Status(code, body) =>
      if code != 200 then Reply(404, Failure(NewsFailed))
      else match Collected(body, parse)
        case Err(f) => Crash(f)
        case Ok(batch) => Reply(200, NewsData(batch.articles))
  }

  /** `data.get('articles', [])` followed by the loop. */
  function Collected(body: News.Headlines, parse: string -> Option<News.DateTime>): (r: Result<News.Batch>)
    ensures body.articles.Absent? ==> r == Ok(News.Batch([], []))
    ensures body.articles == Present(Null) ==> r == Err(TypeError)
    ensures body.articles.Present? && body.articles.json.Val? ==>
      r == News.Collect(body.articles.json.value, parse)
  {
    var raws :- News.ArticleList(body);
    News.Collect(raws, parse)
  }

  /** The storage calls of `get_news`, in order. */
  function NewsEffects(category: Option<string>, country: Option<string>,
                       upstream: Upstream<News.Headlines>,
                       parse: string -> Option<News.DateTime>): (e: seq<Effect>)
    ensures |e| <= 2
    ensures e != [] ==> e[|e| - 1] == Effect.LogSearch("news", NewsQuery(category, country))
    ensures |e| == 2 ==> e[0].InsertNews? && e[0].rows != []
  {
    if upstream.Transport? || upstream.code != 200 then []
    else match Collected(upstream.body, parse)
      case Err(_) => []
      case Ok(batch) =>
        (if batch.toStore != [] then [InsertNews(batch.toStore)] else []) +
        [Effect.LogSearch("news", NewsQuery(category, country))]
  }

  method GetNews(store: Store, category: Option<string>, country: Option<string>,
                 upstream: Upstream<News.Headlines>,
                 parse: string -> Option<News.DateTime>) returns (response: Response)
    modifies store
    ensures response == NewsResponse(category, country, upstream, parse)
    ensures store.trace == old(store.trace) + NewsEffects(category, country, upstream, parse)
  {
    match upstream
    case Transport(message) =>
      response := Reply(500, Failure(message));
    case Status(code, body) =>
      if code == 200 {
        var raws := News.ArticleList(body);
        if raws.Err? {
          response := Crash(raws.fault);
          return;
        }
        var batch := News.CollectArticles(raws.value, parse);
        if batch.Err? {
          response := Crash(batch.fault);
          return;
        }
        if batch.value.toStore != [] {
          var stored := store.InsertNewsData(batch.value.toStore);
        }
        var logged := store.LogSearch("news", NewsQuery(category, country));
        response := Reply(200, NewsData(batch.value.articles));
      } else {
        response := Reply(404, Failure(NewsFailed));
      }
  }

  /** A successful news reply logs exactly one search, last; it inserts
      the stored records first exactly when at least one article was kept,
      and those records match the returned articles index for index. */
  lemma NewsEffectsOnSuccess(category: Option<string>, country: Option<string>,
                             upstream: Upstream<News.Headlines>,
                             parse: string -> Option<News.DateTime>)
    ensures var r := NewsResponse(category, country, upstream, parse);
      var effects := NewsEffects(category, country, upstream, parse);
      && (effects != [] <==> r.Reply? && r.status == 200)
      && (r.Reply? && r.status == 200 ==>
            && effects[|effects| - 1] == Effect.LogSearch("news", NewsQuery(category, country))
            && |effects| == (if r.body.articles == [] then 1 else 2)
            && (|effects| == 2 ==>
                  && effects[0].InsertNews?
                  && |effects[0].rows| == |r.body.articles|
                  && forall i :: 0 <= i < |r.body.articles| ==>
                       News.Agree(r.body.articles[i], effects[0].rows[i])))
  {
  }

  /** A reply without an `articles` key is an empty success that still logs
      the search and inserts nothing. */
  lemma NewsWithoutArticles(category: Option<string>, country: Option<string>,
                            parse: string -> Option<News.DateTime>)
    ensures NewsResponse(category, country, Status(200, News.Headlines(Absent)), parse) == Reply(200, NewsData([]))
    ensures NewsEffects(category, country, Status(200, News.Headlines(Absent)), parse) ==
      [Effect.LogSearch("news", NewsQuery(category, country))]
  {
  }

  /** On success the returned articles are the upstream articles that pass
      the title test, in upstream order. */
  lemma NewsArticlesAreKept(category: Option<string>, country: Option<string>,
                            raws: seq<News.Article>, parse: string -> Option<News.DateTime>)
    requires NewsResponse(category, country, Status(200, News.Headlines(Present(Val(raws)))), parse).Reply?
    ensures var r := NewsResponse(category, country, Status(200, News.Headlines(Present(Val(raws)))), parse);
      && |r.body.articles| == |News.Filter(raws)|
      && forall i :: 0 <= i < |r.body.articles| ==>
           var a := News.Filter(raws)[i];
           News.Kept(a) && News.MakeItem(a, a.title.json.value) == Ok(r.body.articles[i])
  {
    News.CollectIsFilter(raws, parse);
  }

  /** The dashboard scenario: a sports/gb search with two articles, one of
      them "[Removed]", returns the other one and logs "sports - gb". */
  lemma NewsRemovedScenario(parse: string -> Option<News.DateTime>)
    requires parse("2024-01-01T10:00:00Z").Some?
    ensures var kept := News.Article(Present(Val("Cup final")), Absent, Present(Val("https://a")), Absent,
                                     Present(Val(News.Source(Present(Val("BBC"))))),
                                     Present(Val("2024-01-01T10:00:00Z")), Absent);
      var removed := News.Article(Present(Val(News.Removed)), Absent, Absent, Absent, Absent, Absent, Absent);
      var upstream := Status(200, News.Headlines(Present(Val([removed, kept]))));
      && NewsResponse(Some("sports"), Some("gb"), upstream, parse) ==
           Reply(200, NewsData([News.Item("Cup final", Val(News.NoDescription), Val("https://a"), Val(""),
                                          Val("BBC"), Val("2024-01-01T10:00:00Z"), Val(News.UnknownAuthor))]))
      && NewsEffects(Some("sports"), Some("gb"), upstream, parse)[1] == Effect.LogSearch("news", "sports - gb")
  {
    var kept := News.Article(Present(Val("Cup final")), Absent, Present(Val("https://a")), Absent,
                             Present(Val(News.Source(Present(Val("BBC"))))),
                             Present(Val("2024-01-01T10:00:00Z")), Absent);
    var removed := News.Article(Present(Val(News.Removed)), Absent, Absent, Absent, Absent, Absent, Absent);
    assert [removed, kept][..1] == [removed];
    assert [removed][..0] == [];
    assert News.Step(removed, parse) == Ok(None);
    assert News.Collect([removed], parse) == Ok(News.Batch([], []));
    assert News.Step(kept, parse).Ok?;
  }

  // --------------------------------------------------------- search history

  /** The reply of `search_history` for what the history read gave. */
  function HistoryResponse(outcome: HistoryRead): (r: Response)
    ensures r.Reply? && (r.status == 200 <==> outcome.Rows?)
    ensures outcome.Rows? ==> r.body == HistoryData(outcome.rows)
    ensures outcome.Raised? ==> r == Reply(500, Failure(outcome.message))
  {
    match outcome
    case Rows(rows) => Reply(200, HistoryData(rows))
    case Raised(message) => Reply(500, Failure(message))
  }

  method SearchHistory(store: Store) returns (response: Response)
    modifies store
    ensures |store.trace| == |old(store.trace)| + 1
    ensures store.trace[..|old(store.trace)|] == old(store.trace)
    ensures var last := store.trace[|store.trace| - 1];
      last.ReadHistory? && last.limit == HistoryLimit && response == HistoryResponse(last.outcome)
  {
    var outcome := store.RecentSearches(HistoryLimit);
    match outcome
    case Rows(rows) =>
      response := Reply(200, HistoryData(rows));
    case Raised(message) =>
      response := Reply(500, Failure(message));
  }
}
