# Weather and news dashboard: a Dafny model of its request logic

The system is a small Flask backend. It fetches current weather (OpenWeatherMap)
and top headlines (NewsAPI), normalises both into fixed record shapes, writes
each successful fetch and each search to MySQL, and serves the results as JSON
to a browser dashboard. The model covers the decision and transform logic in
between. The network, the database and the page are opaque effects.

- `Payload` (payload.dfy): decoded JSON as Python sees it. A key is absent, or
  present with a value that may be `null`. `obj[key]`, `obj.get(key, default)`
  and Python truthiness are defined here. `Fault` lists the exceptions that no
  handler catches (`KeyError`, `TypeError`, `AttributeError`, `IndexError`,
  `ValueError`).
- `TitleCase` (titlecase.dfy): `str.title()` on ASCII letters.
- `Weather` (weather.dfy): the `weather_data` record built from the provider
  body, entry by entry. The first lookup that raises decides the fault.
- `News` (news.dfy): the `get_news` loop. It filters by title and builds the
  response list and the storage list index for index. It is a method with a
  loop, proved equal to the recursive specification `Collect`.
- `Persistence` (persistence.dfy): a `Store` class that records every storage
  call, in order, in `trace`. Each call returns an unconstrained value.
- `Handlers` (handlers.dfy): the three endpoints, as methods over a `Store`.
  Their postconditions equate the response with a pure function of the query
  parameters and the provider outcome. They equate the storage calls with
  another such function. No response function takes a storage result as input,
  so the response cannot depend on what storage answers.
- `Dashboard` (dashboard.dfy): the pure decisions in static/js/app.js. These
  are the trim-and-non-empty city guard, the image and error-text fallbacks,
  the history icon, and `getTimeAgo` (a method with a loop over the unit table).
- `Integration` (integration.dfy): what the dashboard shows for each way a
  backend search ends.

Effects and inputs that are parameters of the model:
- The provider outcome is `Upstream`: a transport error with its text, or a status with a decoded body.
- `round(x, 1)` is the function parameter `round1`.
- `datetime.now()` is the string `now`.
- `strptime(..., '%Y-%m-%dT%H:%M:%SZ')` is the parameter `parse`. It returns `None` where strptime raises `ValueError`.
- `getTimeAgo` takes the elapsed whole seconds as an integer.

Three behaviours of the code that the model keeps as written:
- `city` defaults to "London" only when the parameter is absent. `?city=` sends an empty city upstream.
- A 200 reply that lacks a field the handler subscripts is not turned into a JSON error. The `KeyError` (or `TypeError`, `IndexError`, `AttributeError`), or the `ValueError` from `strptime`, escapes the `RequestException` handler. Flask then serves its HTML 500 page. The model calls this `Crash(fault)`. The dashboard reads it as a network error.
- One bad article aborts the whole news request before anything is stored or logged. Nothing is skipped and continued.

## Model

| member | source | states |
|---|---|---|
| `TitleCase.Title` | app.py:58 | `str.title()` keeps the length of its input; its pointwise rule is `TitleAt` |
| `TitleCase.TitleAt` | app.py:58 | the title-cased description has the input's length; each letter is lower-cased exactly when the character before it is a letter, and upper-cased otherwise |
| `TitleCase.TitleIdempotent` | app.py:58 | title-casing a title-cased string changes nothing |
| `TitleCase.TitleLightRain` | app.py:58 | "light rain" becomes "Light Rain" |
| `Weather.Normalize` | app.py:53-64 | building `weather_data` never raises `ValueError`; a built reading carries the fetch time and a description that is already in title form; the full characterisation is `NormalizeOk` |
| `Weather.NormalizeOk` | app.py:53-64 | a reading is built exactly when every subscripted key is present and every value the code rounds, indexes or title-cases is non-null; the reading then copies city, country, icon, humidity and pressure, rounds temperature, feels_like and wind speed, title-cases the description and stamps the fetch time |
| `Weather.MissingKeys` | app.py:54-55 | a missing `name` raises KeyError('name'); with `name` present, a missing `sys` raises KeyError('sys') and a null `sys` raises TypeError |
| `News.Admits` | app.py:108 | the title test succeeds exactly when the `title` key exists (otherwise KeyError), and then keeps the article exactly when the title is non-null, non-empty and not "[Removed]" |
| `News.Step` | app.py:108-130 | one iteration raises KeyError('title') when the title is missing; when it completes it yields records exactly for a kept article, with that article's title, and the two records agree |
| `News.MakeItem` | app.py:109-117 | the `article_data` literal has the given title and raises KeyError('url') when `url` is missing; defaults and faults in full are `ItemDefaults` and `MakeItemFaults` |
| `News.Stamp` | app.py:126-129 | `strptime` of `publishedAt` succeeds exactly when the value is non-null and parses, and gives the parsed time; a null raises TypeError and an unparsable string ValueError |
| `News.ArticleList` | app.py:107 | `data.get('articles', [])` is the empty list when the key is absent, the stored list when it holds one, and raises TypeError exactly when it holds null |
| `News.Collect` | app.py:104-130 | when the loop completes, the response list and the storage list have equal length (at most the upstream count) and agree at each index on title, description, url and source |
| `News.CollectArticles` | app.py:104-130 | the loop that appends to `articles` and `articles_to_store` returns exactly `Collect` of the upstream list, including the fault of the first article that raises |
| `News.CollectErrPersists` | app.py:107-130 | once an article raises, the whole loop raises that same fault |
| `News.CollectOk` | app.py:107-130 | the loop completes exactly when no single iteration raises |
| `News.CollectIsFilter` | app.py:107-130 | on completion, the i-th returned article is the normalised i-th kept upstream article, and the i-th stored record is that article with its parsed timestamp |
| `News.FilterIsSubsequence` | app.py:107-118 | the kept articles form an order-preserving subsequence of the upstream list |
| `News.FilterMembers` | app.py:107-108 | an article is kept exactly when it is upstream and passes the title test |
| `News.FilterAppend` | app.py:107-108 | filtering a concatenation filters each part, so relative order is preserved |
| `News.ItemDefaults` | app.py:109-117 | description, urlToImage and author default to "No description available", "" and "Unknown" only when the key is absent; a null value is passed through; url, source name and publishedAt are copied |
| `News.MakeItemFaults` | app.py:112-115 | a kept article needs `url`, a non-null `source` with `name`, and `publishedAt`; a missing `url` raises KeyError('url'), a missing `source` raises KeyError('source'), and a null `source` raises TypeError |
| `Persistence.Store.InsertWeatherData` | config/database.py:97-117 | records one weather insert with its five arguments and returns an unconstrained success flag |
| `Persistence.Store.InsertNewsData` | config/database.py:119-148 | records one batch insert of the storage records and returns an unconstrained flag |
| `Persistence.Store.LogSearch` | config/database.py:150-167 | records one search-history write of (type, query) and returns an unconstrained flag |
| `Persistence.Store.RecentSearches` | config/database.py:169-191 | records one history read with its limit and its unconstrained outcome |
| `Handlers.Arg` | app.py:39 | `request.args.get(name, default)` gives the default exactly when the parameter is absent, and the parameter as given (empty included) otherwise; the same call reads `category` and `country` at app.py:88-89 |
| `Handlers.NewsQuery` | app.py:137 | the logged news query is the effective category, " - ", then the effective country; with both parameters absent it is "general - us" |
| `Handlers.WeatherResponse` | app.py:36-83 | transport error gives 500 with the error text; a non-200 status gives 404 "City not found"; on 200 a JSON reply is produced exactly when the body is well formed, and it is then the 200 reply carrying `Weather.Normalize` of the body, while a malformed body crashes with `Normalize`'s fault; status 200 goes with data and every other status with an error |
| `Handlers.WeatherEffects` | app.py:66-76 | `get_weather` makes no storage call or two: an insert of a reading, then `log_search('weather', city)` with the effective city argument |
| `Handlers.GetWeather` | app.py:36-83 | the handler's response is `WeatherResponse`, which has no storage input; its storage calls are exactly `WeatherEffects`, appended to the trace |
| `Handlers.WeatherEffectsOnSuccess` | app.py:66-78 | storage is touched exactly when the reply is a 200 success; the calls are then the insert of the returned reading's fields followed by `log_search('weather', city)` with the raw city argument |
| `Handlers.NewsResponse` | app.py:85-144 | transport error gives 500 with the error text; a non-200 status gives 404 "Failed to fetch news"; on 200 a JSON reply is produced exactly when `Collected` succeeds, and it is then the 200 reply carrying the collected articles, while a null `articles` or a raising article crashes with that fault; status 200 goes with data and every other status with an error |
| `Handlers.Collected` | app.py:107-130 | the loop's outcome: an empty batch when `articles` is absent, TypeError when it is null, and otherwise `News.Collect` of the upstream list |
| `Handlers.NewsEffects` | app.py:132-137 | `get_news` makes at most two storage calls; the last one is `log_search('news', f'{category} - {country}')`, and when there are two the first inserts a non-empty batch |
| `Handlers.GetNews` | app.py:85-144 | the handler's response is `NewsResponse` and its storage calls are exactly `NewsEffects`, appended to the trace |
| `Handlers.NewsEffectsOnSuccess` | app.py:132-139 | storage is touched exactly on a 200 success; the last call is the news log with the composite query; the calls are the log alone when no article was kept, and otherwise an insert followed by the log, whose records match the returned articles index for index |
| `Handlers.NewsWithoutArticles` | app.py:107-137 | a body without `articles` gives an empty 200 success that logs the search and inserts nothing |
| `Handlers.NewsArticlesAreKept` | app.py:104-139 | on success the returned articles are the upstream articles that pass the title test, in upstream order, each normalised |
| `Handlers.NewsRemovedScenario` | app.py:104-139 | sports/gb with one "[Removed]" article and one normal article returns only the normal one with its defaults filled in, and logs "sports - gb" |
| `Handlers.HistoryResponse` | app.py:146-153 | history rows give 200 with those rows; an exception gives 500 with its text |
| `Handlers.SearchHistory` | app.py:146-153 | the handler reads the history once with limit 15 and responds with `HistoryResponse` of what the read gave |
| `Dashboard.Leading` | static/js/app.js:30 | the count of white-space characters the input starts with: all of them are white space and the next character is not |
| `Dashboard.Trailing` | static/js/app.js:30 | the count of white-space characters the input ends with: all of them are white space and the one before them is not |
| `Dashboard.Trim` | static/js/app.js:30 | `trim()` is the slice that starts after the leading white space and is followed only by white space; it is empty exactly when the input is all white space, and otherwise neither its first nor its last character is white space |
| `Dashboard.TrimIdempotent` | static/js/app.js:30 | trimming twice equals trimming once |
| `Dashboard.CityToSearch` | static/js/app.js:29-34 | a click searches exactly when the input has a non-white-space character, and then sends the trimmed input |
| `Dashboard.CityOnKeyPress` | static/js/app.js:36-43 | a key press searches only on Enter, and then exactly as a click does |
| `Dashboard.ImageUrl` | static/js/app.js:156 | the image is `urlToImage` when truthy and the placeholder otherwise; the result is never empty |
| `Dashboard.ErrorText` | static/js/app.js:71 | the shown error is `result.error` when it is a non-empty string and the fallback otherwise |
| `Dashboard.SearchMessage` | static/js/app.js:61-77 | no message exactly when the reply says success; "Network error. Please try again." when the reply cannot be read; otherwise the error text with its fallback; never empty |
| `Dashboard.HistoryIcon` | static/js/app.js:225-227 | the cloud icon exactly for type "weather" and the newspaper icon for every other type |
| `Dashboard.Decimal` | static/js/app.js:260 | a count prints as at least one decimal digit, with no leading zero |
| `Dashboard.DecimalValue` | static/js/app.js:260 | the printed count reads back as the count |
| `Dashboard.TimeAgo` | static/js/app.js:244-265 | "Just now" exactly when fewer than 1 second has elapsed, negative included; otherwise the first unit from year to second whose floor quotient is at least 1, printed with that quotient |
| `Dashboard.ChosenUnique` | static/js/app.js:257-262 | at most one unit is the first with a quotient of at least 1 |
| `Dashboard.ChosenBelowNext` | static/js/app.js:257-262 | when a unit below year is chosen, its count times its size is less than the next larger unit |
| `Dashboard.ChosenCounts` | static/js/app.js:247-262 | the chosen counts are under 60 seconds, under 60 minutes, under 24 hours and under 7 days, and at most 4 weeks and at most 12 months |
| `Dashboard.Phrase` | static/js/app.js:260 | the phrase starts with the printed count and ends with " ago"; the plural rule is `PhrasePlural` |
| `Dashboard.PhrasePlural` | static/js/app.js:260 | the unit gets an "s" exactly when the count exceeds 1 |
| `Integration.ClientView` | static/js/app.js:62-75 | `response.json()` fails exactly on the HTML page of a crashed handler; a JSON reply reads as success exactly when it is not an error, and an error reply carries its error text |
| `Integration.WeatherSearchMessages` | static/js/app.js:61-77 | against the backend: a non-200 provider status shows "City not found"; a transport error shows its text (or "Failed to fetch weather data" when empty); on 200 the data is shown exactly when the body is well formed, and "Network error. Please try again." otherwise |
| `Integration.NewsSearchMessages` | static/js/app.js:117-133 | against the backend: a non-200 provider status shows "Failed to fetch news"; a transport error shows its text or the fallback; a 200 reply whose article list is null or whose loop raises shows "Network error. Please try again."; the data is shown exactly on a 200 reply |
| `Integration.DashboardSearchLogged` | static/js/app.js:29-34 | a successful dashboard search logs the trimmed city input as typed, and its history entry gets the weather icon |

## Left out

- Connection handling, `initialize_database` (run at start-up, app.py:27-29) and the SQL in config/database.py: the MySQL server does this work. Each storage call is a recorded effect with an unconstrained result.
- Handlers.SearchHistory: does not state that the rows are at most 15 and newest first, because `ORDER BY timestamp DESC LIMIT` runs in the MySQL server.
- Flask routing, `jsonify` serialisation, `render_template` and the `/` route, and the `requests.get` call with its parameters and timeout: these are HTTP plumbing. The model starts from the provider outcome.
- Floating-point rounding, the wall clock and `strptime`'s parsing rules are parameters, as listed above.
- Provider bodies that are not JSON, or whose values have unexpected JSON types (a numeric title, a `null` list entry, a numeric field holding a string): the model types each field as the code uses it.
- `str.title()` on non-ASCII letters: the model treats them as non-letters.
- All DOM and asynchronous work in static/js/app.js: `fetch`, `innerHTML`, `escapeHtml`, `toLocaleDateString`, the "No articles found." and "No search history yet." placeholders, history refresh and smooth scrolling.
- `getTimeAgo` on an invalid date (NaN elapsed time) and JavaScript's exponent notation for counts of 10^21 and above: the model takes a whole number of seconds.
- An exception thrown inside `displayWeather` or `displayNews`: the dashboard's `catch` would show the network-error text. The model assumes a success reply carries well-formed data.
