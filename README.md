# SkyScope weather app: verified model of its sequential logic

SkyScope is a client-side weather lookup page. The user types a city into a
search bar that offers geocoding suggestions; a search fetches the current
conditions and a five-day, three-hour forecast, shows them, and records the
city in a list of recent searches. This project models the parts of it that
are sequential logic and proves what they promise:

- `RecentSearches` (recent_searches.dfy): the most-recently-used list of at most
  five cities updated by each successful search.
- `WeatherApp` (weather_app.dfy): the application state (`city`, `weatherData`,
  `forecastData`, `loading`, `error`, `recentSearches`) as the class `App`, the
  weather fetch with its both-or-nothing commit and its error path, and the
  refresh button. The network is abstracted as a `FetchOutcome` parameter:
  both responses answered (each `ok` or not, and what parsing the bodies gives)
  or a request was rejected with a thrown value.
- `TimeOfDay` (time_of_day.dfy): the header greeting for an hour of the day.
- `Search` (search.dfy): the search bar as the class `SearchBar` (`query`,
  `suggestions`, `showSuggestions`, `selectedIndex`) driven by edits, focus,
  the arrow keys and Enter, choosing a suggestion and the Search button; the
  suggestion label format; the three-character gate on the geocoding lookup,
  whose result is a `Lookup` parameter.
- `Forecast` (forecast.dfy): the card's daily sampling, every eighth entry of
  the forecast list, at most five.
- `Text` (text.dfy): JavaScript's `String.prototype.trim`, used by the search bar.
- `Types` and `Wrappers`: the response shapes of `src/types.ts` as datatypes,
  and `Option`/`Result`.

Each event handler runs to completion as one method. The state invariant of
`App` (`StateValid`) says: not loading between fetches, current conditions
and forecast are both present or both absent, the recent list holds at most
five distinct cities, and when data is shown the shown city heads the list.

Two points where the model follows the code exactly:
- The suggestion lookup is gated on the raw length of the query
  (`query.length < 3`), not on its trimmed length, so "  a" gets a lookup.
- The error after a thrown `Error` is its message verbatim, so an `Error` with
  an empty message leaves `error` empty. A non-success status shows "City not
  found". A rejected request or a failed parse shows the message of the `Error`
  it throws. Only a thrown value that is not an `Error` shows "Failed to fetch
  weather data".

## Model

| member | source | states |
|---|---|---|
| `Text.TrimStart` | src/components/SearchBar.tsx:64-65 | the result is the suffix of the input left after its leading whitespace, every removed character is whitespace, and the result does not start with whitespace |
| `Text.TrimEnd` | src/components/SearchBar.tsx:64-65 | the result is the prefix of the input left before its trailing whitespace, every removed character is whitespace, and the result does not end with whitespace |
| `Text.Trim` | src/components/SearchBar.tsx:122-123 | `trim()` yields the slice of the input between its leading and its trailing whitespace (everything cut at either end is whitespace, and the result has none at either end); it is empty exactly when the input is all whitespace (the blank-query test of Enter and the Search button) |
| `Text.TrimIdempotent` | src/components/SearchBar.tsx:64-65 | trimming an already trimmed query changes nothing, so the searched string is its own trim |
| `RecentSearches.Without` | src/App.tsx:45 | `prev.filter(s => s !== cityName)` contains exactly the entries different from the city and is no longer than `prev` |
| `RecentSearches.WithoutCounts` | src/App.tsx:45 | filtering keeps each other entry as many times as it occurred in `prev` and drops every copy of the city |
| `RecentSearches.Take` | src/App.tsx:45 | `slice(0, n)` is the prefix of length min(n, length) |
| `RecentSearches.Record` | src/App.tsx:44-47 | the new list starts with the city, has the city nowhere else, and continues with the newest filtered earlier entries: its length is one more than the number of other entries, capped at 5, and its tail is that prefix of the filtered list, so the oldest entries are the ones evicted |
| `RecentSearches.WithoutIsSubsequence` | src/App.tsx:45 | filtering keeps the remaining entries in their relative order |
| `RecentSearches.RecordKeepsOrder` | src/App.tsx:45 | the entries after the new city are a subsequence of the previous list (same relative order) |
| `RecentSearches.RecordKeepsAllWhenRoom` | src/App.tsx:45 | when at most four previous entries differ from the city, none of them is dropped |
| `RecentSearches.WithoutKeepsDistinct` | src/App.tsx:45 | filtering a duplicate-free list gives a duplicate-free list |
| `RecentSearches.RecordKeepsDistinct` | src/App.tsx:45 | recording into a duplicate-free list gives a duplicate-free list |
| `RecentSearches.WithoutAbsent` | src/App.tsx:45 | filtering out a city that is not in the list leaves the list as it is |
| `RecentSearches.RecordIdempotent` | src/App.tsx:44-47 | recording the same city twice in a row gives the same list as recording it once |
| `RecentSearches.RecordIsCaseSensitive` | src/App.tsx:45 | equality is exact: recording "Paris" over ["paris"] gives ["Paris", "paris"] |
| `TimeOfDay.GetTimeOfDay` | src/App.tsx:61-67 | "morning" exactly for hours 5-11, "afternoon" for 12-16, "evening" for 17-19, "night" for every other hour; the result is always one of the four words |
| `Forecast.EveryEighthFrom` | src/components/ForecastCard.tsx:11 | the index filter `index % 8 === 0`, from a given position counter: never longer than its input (which entries it keeps is given by `EveryEighthFromAt`) |
| `Forecast.EveryEighthFromAt` | src/components/ForecastCard.tsx:11 | filtering by `index % 8 === 0` from any starting position keeps the entries 8 apart starting at the next multiple of 8, and counts them exactly |
| `Forecast.EveryEighth` | src/components/ForecastCard.tsx:11 | the filtered list has ceil(n/8) entries and entry i is input entry 8i |
| `Forecast.DailyForecasts` | src/components/ForecastCard.tsx:11 | the card shows min(5, ceil(n/8)) entries and entry i is input entry 8i, an order-preserving subsequence of the forecast |
| `Forecast.FortyEntriesShowFiveDays` | src/components/ForecastCard.tsx:11 | a 40-entry forecast shows the entries at 0, 8, 16, 24 and 32 |
| `Forecast.EmptyForecastShowsNothing` | src/components/ForecastCard.tsx:11 | an empty forecast shows no entries |
| `WeatherApp.Attempt` | src/App.tsx:23-38 | the `try` block succeeds exactly when both responses are ok and both bodies parse, yielding both bodies; a non-ok response throws "City not found"; a rejected request or a failed parse throws exactly the value it raised |
| `WeatherApp.ErrorText` | src/App.tsx:48-49 | an `Error`'s message is shown as is; any other thrown value shows "Failed to fetch weather data" |
| `WeatherApp.AfterFetch` | src/App.tsx:20-53 | the state after `fetchWeather` completes: never loading, and either the city, both data sets and the recent searches are all unchanged, or the city is the requested one, both data sets are present, the error is cleared and the city is recorded |
| `WeatherApp.FailedFetchChangesOnlyError` | src/App.tsx:31-52 | a failed fetch leaves the city, both data sets and the recent searches unchanged, ends not loading, and sets the error ("City not found" for a non-ok response, the default message for a non-`Error` throw) |
| `WeatherApp.SuccessfulFetchCommitsBoth` | src/App.tsx:40-52 | a successful fetch clears the error, replaces both data sets together, shows the requested city, records it first in the recent searches, and ends not loading |
| `WeatherApp.AfterFetchKeepsValid` | src/App.tsx:20-53 | every fetch outcome keeps the state invariant: both-or-nothing data, at most five distinct recent searches headed by the shown city, not loading |
| `WeatherApp.App.constructor` | src/App.tsx:12-17 | the initial state: empty city, no data, not loading, no error, no recent searches; it satisfies the invariant |
| `WeatherApp.App.FetchWeather` | src/App.tsx:20-53 | the step-by-step updates of the hooks end in the state `AfterFetch` gives for the outcome, and keep the invariant |
| `WeatherApp.App.HandleRefresh` | src/App.tsx:55-59 | with an empty city nothing is fetched and nothing changes; otherwise exactly the current city is fetched again |
| `Search.Label` | src/components/SearchBar.tsx:70-73 | the label (also the dropdown text of lines 113-115) starts with the name and ", ", ends with the country, holds the state followed by ", " after the name when the state is truthy, and its length is that of "name, country" plus the state and its ", " when present |
| `Search.EmptyStateIsNoState` | src/components/SearchBar.tsx:71-73 | an empty `state` gives the same label as a missing one |
| `Search.LabelNotBlank` | src/components/SearchBar.tsx:70-76 | a label is never blank after trimming |
| `Search.ArrowDownIndex` | src/components/SearchBar.tsx:53-55 | ArrowDown gives min(prev + 1, len - 1) |
| `Search.ArrowUpIndex` | src/components/SearchBar.tsx:56-58 | ArrowUp gives max(prev - 1, -1) |
| `Search.ArrowKeysStayInRange` | src/components/SearchBar.tsx:53-58 | from an index in [-1, len - 1] both arrow keys stay in that range, and with no suggestions the index stays -1 |
| `Search.SearchBar.constructor` | src/components/SearchBar.tsx:11-14 | empty query, no suggestions, dropdown hidden, nothing highlighted |
| `Search.SearchBar.Edit` | src/components/SearchBar.tsx:90-94 | editing sets the query, shows the dropdown and resets the highlight to -1 |
| `Search.SearchBar.Focus` | src/components/SearchBar.tsx:96 | focusing shows the dropdown and changes nothing else |
| `Search.SearchBar.LookUpSuggestions` | src/components/SearchBar.tsx:17-35 | a query of raw length below 3 clears the suggestions and sends no request; otherwise the lookup's array becomes the suggestions, and a failed lookup clears them |
| `Search.SearchBar.HandleSearch` | src/components/SearchBar.tsx:79-83 | every search passes its string to the fetch, hides the dropdown and resets the highlight to -1 |
| `Search.SearchBar.HandleSelectCity` | src/components/SearchBar.tsx:70-77 | choosing a suggestion puts its label in the query and searches that non-blank label |
| `Search.SearchBar.HandleKeyPress` | src/components/SearchBar.tsx:52-68 | the arrow keys move the highlight by the clamped formulas; Enter searches the highlighted suggestion's label, else the trimmed query when not blank, else nothing; other keys change nothing; the index range is preserved |
| `Search.SearchBar.ClickSearch` | src/components/SearchBar.tsx:121-123 | the Search button searches the trimmed query only when not loading and the query is not blank |

## Left out

- The HTTP requests, their `Promise.all` joins and JSON parsing: their results are the `FetchOutcome` and `Lookup` parameters. The API key, URL building and URL encoding of the city go with them.
- The 300 ms debounce of the suggestion lookup, and the ordering between overlapping asynchronous fetches: each handler runs to completion, so a stale response that resolves after a newer one is not represented. The `loading = true` state seen by the page while a fetch awaits is internal to `FetchWeather`.
- `Search.SearchBar.LookUpSuggestions`: does not bound the suggestions to five; `limit=5` is a request parameter and the code does not check it. It also leaves the highlight where it was, so after a shorter list arrives the index may lie past its end; Enter and ArrowDown handle that case, and the model proves range preservation only for the other handlers.
- `Search.SearchBar.LookUpSuggestions`: a `Lookup` is either an array of suggestions or a failure. The code does not check `response.ok` and stores whatever JSON the geocoding endpoint returns, so a non-ok response (a missing or wrong API key, a rate limit) stores a non-array object. After that, `suggestions.length` is undefined, the dropdown stays hidden, and ArrowDown sets the index to NaN. The model does not represent that state.
- `Search.SearchBar.LookUpSuggestions`: measures the query in characters (Unicode scalar values) where JavaScript's `length` counts UTF-16 code units, so a query with characters outside the Basic Multilingual Plane may differ at the three-character gate.
- The input's and button's `disabled={isLoading}` for key and edit events: a disabled input delivers no events, which is left to the caller of `Edit` and `HandleKeyPress`; `ClickSearch` takes `isLoading` as a parameter.
- The click-outside listener, the window resize handler, the theme toggle, and all rendering (`WeatherCard`, `RecentSearches`, `ThemeToggle`, the animation props).
- The clock and locale calls (`new Date().getHours()`, `toLocaleDateString`): the hour is a parameter of `GetTimeOfDay`.
- Floating-point numbers (temperatures, humidity, pressure, wind, coordinates) are carried as `real` values and never computed on; `Math.round` in the cards is not modelled.
- The service worker's caching strategies and the build configuration.
