/**
 * What the core sees of the weather service: the outcome of one request
 * and the fixed snapshot used as a fallback.
 */
module WeatherService {
  import opened WeatherTypes

  /** The settled outcome of a forecast request: a snapshot, or a rejection. */
  datatype FetchOutcome = Fetched(data: WeatherData) | FetchFailed

  /** The message the coordinate fetch surfaces on failure. */
  const FetchErrorMessage: string := "Failed to fetch weather data"

  /** The built-in fallback snapshot (its location and current conditions). */
  const MockWeatherData: WeatherData :=
    WeatherData(
      Location("New York", "New York", "United States of America", 40.71, -74.01),
      CurrentWeather(
        tempC := 22.0, tempF := 71.6,
        condition := Condition("Partly cloudy", 1003),
        humidity := 65.0,
        windKph := 15.0, windMph := 9.3,
        windDegree := 180.0, windDir := "S",
        pressureMb := 1013.0, pressureIn := 29.91,
        uv := 5.0,
        visKm := 10.0, visMiles := 6.0,
        cloud := 50.0,
        isDay := true))
}
