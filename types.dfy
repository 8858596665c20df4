/**
 * The shapes of the data the weather app receives from its three endpoints.
 * Numbers from the API (temperatures, humidity, coordinates, ...) are floats in
 * the application and are never computed on by the modelled logic, so they are
 * carried as `real` values.
 */
module Types {
  import opened Wrappers

  /** The `main` block of a current-conditions response. */
  datatype WeatherMain = WeatherMain(temp: real, humidity: real, feelsLike: real, pressure: real)

  /** One entry of the `weather` array of a current-conditions response. */
  datatype Condition = Condition(main: string, description: string, icon: string)

  datatype Wind = Wind(speed: real)

  /** A current-conditions snapshot; replaced wholesale by each successful fetch. */
  datatype WeatherData = WeatherData(name: string, main: WeatherMain, weather: seq<Condition>, wind: Wind)

  datatype ForecastMain = ForecastMain(temp: real)

  /** One entry of the `weather` array of a forecast entry. */
  datatype ForecastCondition = ForecastCondition(main: string, icon: string)

  /** A forecast entry, three hours after the one before it. */
  datatype ForecastEntry = ForecastEntry(dtTxt: string, main: ForecastMain, weather: seq<ForecastCondition>)

  /** The five-day forecast: entries at three-hour steps. */
  datatype ForecastData = ForecastData(list: seq<ForecastEntry>)

  /** A candidate location from the geocoding lookup; `state` may be missing. */
  datatype CitySuggestion = CitySuggestion(name: string, state: Option<string>, country: string, lat: real, lon: real)
}
