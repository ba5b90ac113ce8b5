/** The data the dashboard works on: user preferences and the weather snapshot. */
module WeatherTypes {

  datatype TemperatureUnit = Celsius | Fahrenheit
  datatype WindUnit = Kmh | Mph
  datatype PressureUnit = Mb | In
  datatype VisibilityUnit = Km | Miles

  /** The display unit chosen for each dimension. */
  datatype Units = Units(
    temperature: TemperatureUnit,
    wind: WindUnit,
    pressure: PressureUnit,
    visibility: VisibilityUnit)

  datatype ThemeMode = Light | Dark
  datatype Theme = Theme(mode: ThemeMode)

  datatype UserPreferences = UserPreferences(
    units: Units,
    theme: Theme,
    favoriteLocations: seq<string>)

  datatype Location = Location(name: string, region: string, country: string, lat: real, lon: real)

  datatype Condition = Condition(text: string, code: int)

  /**
   * Current conditions. Every dual-unit pair (tempC/tempF, windKph/windMph,
   * ...) carries the same physical quantity in two units, as delivered.
   */
  datatype CurrentWeather = CurrentWeather(
    tempC: real, tempF: real,
    condition: Condition,
    humidity: real,
    windKph: real, windMph: real,
    windDegree: real, windDir: string,
    pressureMb: real, pressureIn: real,
    uv: real,
    visKm: real, visMiles: real,
    cloud: real,
    isDay: bool)

  /**
   * One fetched snapshot. The forecast days and the alerts are carried
   * through unchanged by the core and are not modelled.
   */
  datatype WeatherData = WeatherData(location: Location, current: CurrentWeather)
}
