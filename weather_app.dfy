/**
 * The application root: the state behind the page and the weather fetch that
 * updates it. The two HTTP requests, their join and the JSON parsing are not
 * modelled; what they produce is given to a fetch as a `FetchOutcome`.
 */
module WeatherApp {
  import opened Wrappers
  import opened Types
  import RecentSearches

  /** The message shown when either response has a non-success status. */
  const CityNotFound := "City not found"

  /** The message shown when the thrown value is not an `Error`. */
  const FetchFailed := "Failed to fetch weather data"

  /** A value thrown inside the fetch: an `Error` object with its message, or anything else. */
  datatype Thrown = ErrorInstance(message: string) | NonError

  /** What parsing the two response bodies gave. */
  datatype Bodies = Parsed(weather: WeatherData, forecast: ForecastData) | ParseFailed(thrown: Thrown)

  /**
   * What the network gave a fetch: both requests answered (each with its `ok`
   * flag, and what parsing the bodies would give), or a request was rejected.
   */
  datatype FetchOutcome =
    | Responded(weatherOk: bool, forecastOk: bool, bodies: Bodies)
    | Rejected(thrown: Thrown)

  /** The state the page is rendered from. */
  datatype AppState = AppState(
    city: string,
    weatherData: Option<WeatherData>,
    forecastData: Option<ForecastData>,
    loading: bool,
    error: string,
    recentSearches: seq<string>)

  /** The state between fetches: idle, both-or-nothing data, and a bounded recent list without duplicates headed by the shown city. */
  predicate StateValid(s: AppState) {
    && !s.loading
    && (s.weatherData.Some? <==> s.forecastData.Some?)
    && |s.recentSearches| <= RecentSearches.Capacity
    && RecentSearches.Distinct(s.recentSearches)
    && (s.weatherData.Some? ==> s.recentSearches != [] && s.recentSearches[0] == s.city)
  }

  /** The `try` block of the fetch: the parsed bodies, or the value it throws. */
  function Attempt(outcome: FetchOutcome): (r: Result<(WeatherData, ForecastData), Thrown>)
    ensures r.Success? <==> outcome.Responded? && outcome.weatherOk && outcome.forecastOk && outcome.bodies.Parsed?
    ensures r.Success? ==> r.value == (outcome.bodies.weather, outcome.bodies.forecast)
    ensures outcome.Responded? && !(outcome.weatherOk && outcome.forecastOk) ==> r == Failure(ErrorInstance(CityNotFound))
    ensures outcome.Responded? && outcome.weatherOk && outcome.forecastOk && outcome.bodies.ParseFailed? ==>
            r == Failure(outcome.bodies.thrown)
    ensures outcome.Rejected? ==> r == Failure(outcome.thrown)
  {
    match outcome
    case Rejected(thrown) => Failure(thrown)
    case Responded(weatherOk, forecastOk, bodies) =>
      if !weatherOk || !forecastOk then Failure(ErrorInstance(CityNotFound))
      else match bodies
        case Parsed(weather, forecast) => Success((weather, forecast))
        case ParseFailed(thrown) => Failure(thrown)
  }

  /** The `catch` block's message: `err instanceof Error ? err.message : 'Failed to fetch weather data'`. */
  function ErrorText(thrown: Thrown): (r: string)
    ensures thrown.ErrorInstance? ==> r == thrown.message
    ensures thrown.NonError? ==> r == FetchFailed && r != ""
  {
    match thrown
    case ErrorInstance(message) => message
    case NonError => FetchFailed
  }

  /** The state after `fetchWeather(cityName)` has run to completion with the given network outcome. */
  function AfterFetch(s: AppState, cityName: string, outcome: FetchOutcome): (r: AppState)
    ensures !r.loading
    // both-or-nothing: either nothing shown changes, or the city and both data sets are replaced together
    ensures || (r.city == s.city && r.weatherData == s.weatherData && r.forecastData == s.forecastData
                && r.recentSearches == s.recentSearches)
            || (r.city == cityName && r.weatherData.Some? && r.forecastData.Some? && r.error == ""
                && r.recentSearches == RecentSearches.Record(s.recentSearches, cityName))
  {
    match Attempt(outcome)
    case Success((weather, forecast)) =>
      AppState(cityName, Some(weather), Some(forecast), false, "",
               RecentSearches.Record(s.recentSearches, cityName))
    case Failure(thrown) =>
      s.(loading := false, error := ErrorText(thrown))
  }

  /**
   * A failed fetch changes only `error` and `loading`: the shown city, both data
   * sets and the recent searches stay as they were. A non-success status shows
   * "City not found".
   */
  lemma FailedFetchChangesOnlyError(s: AppState, cityName: string, outcome: FetchOutcome)
    requires Attempt(outcome).Failure?
    ensures var r := AfterFetch(s, cityName, outcome);
            && r.city == s.city && r.weatherData == s.weatherData && r.forecastData == s.forecastData
            && r.recentSearches == s.recentSearches && !r.loading
            && r.error == ErrorText(Attempt(outcome).error)
    ensures outcome.Responded? && !(outcome.weatherOk && outcome.forecastOk) ==>
            AfterFetch(s, cityName, outcome).error == CityNotFound
    ensures outcome.Rejected? && outcome.thrown.NonError? ==>
            AfterFetch(s, cityName, outcome).error == FetchFailed
  {
  }

  /**
   * A successful fetch clears the error, replaces both data sets together,
   * shows the requested city and records it first among the recent searches.
   */
  lemma SuccessfulFetchCommitsBoth(s: AppState, cityName: string, outcome: FetchOutcome)
    requires outcome.Responded? && outcome.weatherOk && outcome.forecastOk && outcome.bodies.Parsed?
    ensures var r := AfterFetch(s, cityName, outcome);
            && r.error == "" && !r.loading && r.city == cityName
            && r.weatherData == Some(outcome.bodies.weather)
            && r.forecastData == Some(outcome.bodies.forecast)
            && r.recentSearches == RecentSearches.Record(s.recentSearches, cityName)
            && r.recentSearches[0] == cityName
  {
  }

  /** Every fetch, whatever its outcome, keeps the state invariant. */
  lemma AfterFetchKeepsValid(s: AppState, cityName: string, outcome: FetchOutcome)
    requires StateValid(s)
    ensures StateValid(AfterFetch(s, cityName, outcome))
  {
    if Attempt(outcome).Success? {
      RecentSearches.RecordKeepsDistinct(s.recentSearches, cityName);
    }
  }

  /** The application root component and its state hooks. */
  class App {
    var city: string
    var weatherData: Option<WeatherData>
    var forecastData: Option<ForecastData>
    var loading: bool
    var error: string
    var recentSearches: seq<string>

    /** The current values of the state hooks. */
    function State(): AppState
      reads this
    {
      AppState(city, weatherData, forecastData, loading, error, recentSearches)
    }

    predicate Valid()
      reads this
    {
      StateValid(State())
    }

    /** The initial state: no city, no data, not loading, no error, no recent searches. */
    constructor ()
      ensures Valid()
      ensures State() == AppState("", None, None, false, "", [])
    {
      city := "";
      weatherData := None;
      forecastData := None;
      loading := false;
      error := "";
      recentSearches := [];
    }

    /**
     * `fetchWeather(cityName)`: set loading and clear the error, then either
     * commit both results, the city and the recent searches, or set only the
     * error; loading ends false either way.
     */
    method FetchWeather(cityName: string, outcome: FetchOutcome)
      requires Valid()
      modifies this
      ensures Valid()
      ensures State() == AfterFetch(old(State()), cityName, outcome)
    {
      ghost var before := State();
      loading := true;
      error := "";
      match Attempt(outcome) {
        case Success((weather, forecast)) =>
          weatherData := Some(weather);
          forecastData := Some(forecast);
          city := cityName;
          recentSearches := RecentSearches.Record(recentSearches, cityName);
        case Failure(thrown) =>
          error := ErrorText(thrown);
      }
      loading := false;
      AfterFetchKeepsValid(before, cityName, outcome);
    }

    /**
     * `handleRefresh`: with no city shown nothing happens; otherwise the shown
     * city is fetched again. `refetched` tells whether a fetch was issued.
     */
    method HandleRefresh(outcome: FetchOutcome) returns (refetched: bool)
      requires Valid()
      modifies this
      ensures Valid()
      ensures refetched <==> old(city) != ""
      ensures State() == if refetched then AfterFetch(old(State()), old(city), outcome) else old(State())
    {
      refetched := city != "";
      if refetched {
        FetchWeather(city, outcome);
      }
    }
  }
}
