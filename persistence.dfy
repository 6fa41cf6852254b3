/** The four storage calls the handlers make. The MySQL server is outside
    the model: each call is recorded, in order, in `trace`, and returns a
    value the model does not constrain (the success flag of an insert or a
    log call, the rows or the error of a history read).
 */
module Persistence {
  import opened Payload
  import News

  /** One row of `search_history`, as the history query returns it. */
  datatype HistoryEntry = HistoryEntry(searchType: string, searchQuery: string, timestamp: string)

  /** What reading the history gives: rows, or an exception with its text. */
  datatype HistoryRead = Rows(rows: seq<HistoryEntry>) | Raised(message: string)

  /** A call into storage, with its arguments. */
  datatype Effect =
    | InsertWeather(city: Json<string>, temperature: real, description: string, humidity: Json<int>, windSpeed: real)
    | InsertNews(rows: seq<News.Row>)
    | LogSearch(searchType: string, searchQuery: string)
    | ReadHistory(limit: int, outcome: HistoryRead)

  class Store {
    /** Every storage call made so far, oldest first. */
    var trace: seq<Effect>

    constructor ()
      ensures trace == []
    {
      trace := [];
    }

    /** `insert_weather_data(city, temperature, description, humidity, wind_speed)`. */
    method InsertWeatherData(city: Json<string>, temperature: real, description: string,
                             humidity: Json<int>, windSpeed: real) returns (ok: bool)
      modifies this
      ensures trace == old(trace) + [InsertWeather(city, temperature, description, humidity, windSpeed)]
    {
      ok := *;
      trace := trace + [InsertWeather(city, temperature, description, humidity, windSpeed)];
    }

    /** `insert_news_data(articles)`. */
    method InsertNewsData(rows: seq<News.Row>) returns (ok: bool)
      modifies this
      ensures trace == old(trace) + [InsertNews(rows)]
    {
      ok := *;
      trace := trace + [InsertNews(rows)];
    }

    /** `log_search(search_type, search_query)`. */
    method LogSearch(searchType: string, searchQuery: string) returns (ok: bool)
      modifies this
      ensures trace == old(trace) + [Effect.LogSearch(searchType, searchQuery)]
    {
      ok := *;
      trace := trace + [Effect.LogSearch(searchType, searchQuery)];
    }

    /** `get_recent_searches(limit)`. */
    method RecentSearches(limit: int) returns (outcome: HistoryRead)
      modifies this
      ensures trace == old(trace) + [ReadHistory(limit, outcome)]
    {
      outcome := *;
      trace := trace + [ReadHistory(limit, outcome)];
    }
  }
}
