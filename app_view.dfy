/** Which top-level view the dashboard shows for a state, and two scenarios. */
module AppView {
  import opened Wrappers
  import opened WeatherTypes
  import opened WeatherService
  import opened WeatherContext

  datatype View = Spinner | ErrorView(message: string) | Dashboard

  /**
   * Loading first, then a non-empty error, then the spinner until data
   * exists. The error view shows exactly when there is a non-empty error and
   * no loading flag, with the stored message; the dashboard shows exactly
   * when there is a snapshot, no loading flag and no error to report.
   */
  function CurrentView(state: WeatherState): (r: View)
    ensures state.loading ==> r == Spinner
    ensures r.ErrorView? <==> !state.loading && state.error.Some? && state.error.value != ""
    ensures r.ErrorView? ==> r.message == state.error.value
    ensures r == Dashboard <==>
      !state.loading && state.weatherData.Some? && (state.error.None? || state.error.value == "")
  {
    if state.loading then Spinner
    else if state.error.Some? && state.error.value != "" then ErrorView(state.error.value)
    else if state.weatherData.None? then Spinner
    else Dashboard
  }

  /**
   * Because starting a fetch leaves the loading flag off, a refetch over
   * existing data keeps showing the dashboard rather than the spinner.
   */
  lemma RefetchKeepsDashboard(state: WeatherState)
    requires state.weatherData.Some?
    ensures CurrentView(WeatherReducer(WeatherReducer(state, SetLoading(true)), SetError(None))) == Dashboard
  {
  }

  /** A failed coordinate fetch at startup ends on the error view. */
  method CoordinateFetchFailureScenario() returns (view: View)
    ensures view == ErrorView(FetchErrorMessage)
  {
    var store := new WeatherStore();
    store.FetchWeatherByCoords(0.0, 0.0, FetchFailed);
    view := CurrentView(store.state);
  }

  /** A failed fetch by name ends on the dashboard, showing the fallback snapshot. */
  method NameFetchFailureScenario(location: string) returns (view: View, shown: Option<WeatherData>)
    ensures view == Dashboard
    ensures shown == Some(MockWeatherData)
  {
    var store := new WeatherStore();
    store.FetchWeather(location, FetchFailed);
    view := CurrentView(store.state);
    shown := store.state.weatherData;
  }
}
