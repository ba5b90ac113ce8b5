/**
 * The session state store: the state record, the actions, the pure reducer
 * and the store object whose operations are fixed sequences of dispatches.
 */
module WeatherContext {
  import opened Wrappers
  import opened WeatherTypes
  import opened WeatherService

  datatype WeatherState = WeatherState(
    weatherData: Option<WeatherData>,
    loading: bool,
    error: Option<string>,
    currentLocation: string,
    preferences: UserPreferences)

  /** `Partial<Units>`: a missing key is None. */
  datatype PartialUnits = PartialUnits(
    temperature: Option<TemperatureUnit>,
    wind: Option<WindUnit>,
    pressure: Option<PressureUnit>,
    visibility: Option<VisibilityUnit>)

  /** `Partial<UserPreferences>`: a missing key is None. */
  datatype PartialPreferences = PartialPreferences(
    units: Option<Units>,
    theme: Option<Theme>,
    favoriteLocations: Option<seq<string>>)

  datatype WeatherAction =
    | SetLoading(loading: bool)
    | SetWeatherData(data: WeatherData)
    | SetError(message: Option<string>)
    | SetLocation(location: string)
    | UpdatePreferences(patch: PartialPreferences)
    | ToggleTheme
    | UpdateUnits(unitsPatch: PartialUnits)
      /** An action object whose type names none of the cases above. */
    | Unrecognized

  const DefaultUnits: Units := Units(Celsius, Kmh, Mb, Km)

  const InitialState: WeatherState :=
    WeatherState(
      weatherData := None,
      loading := false,
      error := None,
      currentLocation := "New York",
      preferences := UserPreferences(DefaultUnits, Theme(Light), []))

  // ---------------------------------------------------------------------
  // The reducer

  /** Object spread `{ ...base, ...patch }` for one key. */
  function Override<T>(base: T, patch: Option<T>): T {
    match patch
    case Some(v) => v
    case None => base
  }

  function MergeUnits(units: Units, patch: PartialUnits): Units {
    Units(
      Override(units.temperature, patch.temperature),
      Override(units.wind, patch.wind),
      Override(units.pressure, patch.pressure),
      Override(units.visibility, patch.visibility))
  }

  function MergePreferences(prefs: UserPreferences, patch: PartialPreferences): UserPreferences {
    UserPreferences(
      Override(prefs.units, patch.units),
      Override(prefs.theme, patch.theme),
      Override(prefs.favoriteLocations, patch.favoriteLocations))
  }

  function Flip(mode: ThemeMode): ThemeMode {
    if mode == Light then Dark else Light
  }

  /**
   * Each action writes only its own fields: the snapshot changes only on
   * SET_WEATHER_DATA, the loading flag only on SET_LOADING and SET_ERROR,
   * the error only on SET_WEATHER_DATA and SET_ERROR, the location only on
   * SET_LOCATION, the preferences only on the three preference actions and
   * the favourites only on a preference patch that supplies them.
   */
  function WeatherReducer(state: WeatherState, action: WeatherAction): (r: WeatherState)
    ensures !action.SetWeatherData? ==> r.weatherData == state.weatherData
    ensures !action.SetLoading? && !action.SetError? ==> r.loading == state.loading
    ensures !action.SetWeatherData? && !action.SetError? ==> r.error == state.error
    ensures !action.SetLocation? ==> r.currentLocation == state.currentLocation
    ensures !action.UpdatePreferences? && !action.ToggleTheme? && !action.UpdateUnits? ==>
      r.preferences == state.preferences
    ensures !(action.UpdatePreferences? && action.patch.favoriteLocations.Some?) ==>
      r.preferences.favoriteLocations == state.preferences.favoriteLocations
  {
    match action
    case SetLoading(b) => state.(loading := b)
    case SetWeatherData(data) => state.(weatherData := Some(data), error := None)
    case SetError(message) => state.(error := message, loading := false)
    case SetLocation(location) => state.(currentLocation := location)
    case UpdatePreferences(patch) =>
      state.(preferences := MergePreferences(state.preferences, patch))
    case ToggleTheme =>
      state.(preferences := state.preferences.(theme := Theme(Flip(state.preferences.theme.mode))))
    case UpdateUnits(patch) =>
      state.(preferences := state.preferences.(units := MergeUnits(state.preferences.units, patch)))
    case Unrecognized => state
  }

  /** The theme flips to the other mode and nothing else changes. */
  lemma ToggleThemeFlips(state: WeatherState)
    ensures var s' := WeatherReducer(state, ToggleTheme);
      && s'.preferences.theme.mode != state.preferences.theme.mode
      && s'.preferences.units == state.preferences.units
      && s'.preferences.favoriteLocations == state.preferences.favoriteLocations
      && s'.(preferences := state.preferences) == state
  {
  }

  /** Toggling twice restores the original state. */
  lemma ToggleThemeTwice(state: WeatherState)
    ensures WeatherReducer(WeatherReducer(state, ToggleTheme), ToggleTheme) == state
  {
  }

  /** Exactly the supplied unit fields are overwritten; everything else is kept. */
  lemma UpdateUnitsOverwritesSupplied(state: WeatherState, patch: PartialUnits)
    ensures var s' := WeatherReducer(state, UpdateUnits(patch));
      && (patch.temperature.Some? ==> s'.preferences.units.temperature == patch.temperature.value)
      && (patch.temperature.None? ==> s'.preferences.units.temperature == state.preferences.units.temperature)
      && (patch.wind.Some? ==> s'.preferences.units.wind == patch.wind.value)
      && (patch.wind.None? ==> s'.preferences.units.wind == state.preferences.units.wind)
      && (patch.pressure.Some? ==> s'.preferences.units.pressure == patch.pressure.value)
      && (patch.pressure.None? ==> s'.preferences.units.pressure == state.preferences.units.pressure)
      && (patch.visibility.Some? ==> s'.preferences.units.visibility == patch.visibility.value)
      && (patch.visibility.None? ==> s'.preferences.units.visibility == state.preferences.units.visibility)
      && s'.preferences.theme == state.preferences.theme
      && s'.preferences.favoriteLocations == state.preferences.favoriteLocations
      && s'.(preferences := state.preferences) == state
  {
  }

  /** An empty unit patch changes nothing; applying the same patch twice equals applying it once. */
  lemma UpdateUnitsIdempotent(state: WeatherState, patch: PartialUnits)
    ensures WeatherReducer(state, UpdateUnits(PartialUnits(None, None, None, None))) == state
    ensures var once := WeatherReducer(state, UpdateUnits(patch));
      WeatherReducer(once, UpdateUnits(patch)) == once
  {
  }

  /** A shallow merge: each supplied key replaces its whole sub-object, the others stay. */
  lemma UpdatePreferencesShallowMerge(state: WeatherState, patch: PartialPreferences)
    ensures var s' := WeatherReducer(state, UpdatePreferences(patch));
      && s'.preferences.units == (if patch.units.Some? then patch.units.value else state.preferences.units)
      && s'.preferences.theme == (if patch.theme.Some? then patch.theme.value else state.preferences.theme)
      && s'.preferences.favoriteLocations
         == (if patch.favoriteLocations.Some? then patch.favoriteLocations.value
             else state.preferences.favoriteLocations)
      && s'.(preferences := state.preferences) == state
  {
  }

  /** SET_WEATHER_DATA stores the snapshot and clears the error; SET_ERROR forces loading off. */
  lemma DataAndErrorActions(state: WeatherState, data: WeatherData, message: Option<string>)
    ensures WeatherReducer(state, SetWeatherData(data))
            == state.(weatherData := Some(data), error := None)
    ensures WeatherReducer(state, SetWeatherData(data)).loading == state.loading
    ensures WeatherReducer(state, SetError(message))
            == state.(error := message, loading := false)
    ensures WeatherReducer(state, Unrecognized) == state
  {
  }

  /**
   * Starting a fetch dispatches SET_LOADING true and then SET_ERROR null;
   * since SET_ERROR forces loading off, the flag is already false again
   * while the request is pending.
   */
  lemma FetchStartLeavesLoadingOff(state: WeatherState)
    ensures var s' := WeatherReducer(WeatherReducer(state, SetLoading(true)), SetError(None));
      !s'.loading && s'.error.None? && s'.(loading := state.loading, error := state.error) == state
  {
  }

  // ---------------------------------------------------------------------
  // Favourite locations

  /** The list after adding `location`: unchanged when already present, else appended. */
  function WithFavorite(favorites: seq<string>, location: string): (r: seq<string>)
    ensures location in r
    ensures favorites <= r && |r| <= |favorites| + 1
  {
    if location in favorites then favorites else favorites + [location]
  }

  /** `favorites.filter(loc => loc !== location)`. */
  function Without(favorites: seq<string>, location: string): (r: seq<string>)
    ensures |r| <= |favorites|
    ensures forall x :: x in r <==> x in favorites && x != location
  {
    if favorites == [] then []
    else if favorites[0] != location then [favorites[0]] + Without(favorites[1..], location)
    else Without(favorites[1..], location)
  }

  predicate NoDuplicates(s: seq<string>) {
    forall i, j :: 0 <= i < j < |s| ==> s[i] != s[j]
  }

  /** A present name changes nothing, an absent one is appended, and adding twice equals adding once. */
  lemma WithFavoriteSpec(favorites: seq<string>, location: string)
    ensures location in favorites ==> WithFavorite(favorites, location) == favorites
    ensures location !in favorites ==> WithFavorite(favorites, location) == favorites + [location]
    ensures WithFavorite(WithFavorite(favorites, location), location) == WithFavorite(favorites, location)
  {
  }

  /** Adding never introduces a duplicate. */
  lemma WithFavoriteNoDuplicates(favorites: seq<string>, location: string)
    requires NoDuplicates(favorites)
    ensures NoDuplicates(WithFavorite(favorites, location))
  {
  }

  /** Filtering distributes over concatenation: the kept entries keep their order. */
  lemma {:induction false} WithoutConcat(s: seq<string>, t: seq<string>, location: string)
    ensures Without(s + t, location) == Without(s, location) + Without(t, location)
    decreases |s|
  {
    if s == [] {
      assert s + t == t;
    } else {
      assert (s + t)[1..] == s[1..] + t;
      WithoutConcat(s[1..], t, location);
    }
  }

  /** Removing an absent name changes nothing. */
  lemma {:induction false} WithoutAbsent(favorites: seq<string>, location: string)
    requires location !in favorites
    ensures Without(favorites, location) == favorites
    decreases |favorites|
  {
    if favorites != [] {
      WithoutAbsent(favorites[1..], location);
    }
  }

  /** Every occurrence goes: the count of the name drops to zero, every other count is kept. */
  lemma {:induction false} WithoutMultiset(favorites: seq<string>, location: string)
    ensures multiset(Without(favorites, location)) == multiset(favorites)[location := 0]
    decreases |favorites|
  {
    if favorites != [] {
      WithoutMultiset(favorites[1..], location);
      assert favorites == [favorites[0]] + favorites[1..];
    }
  }

  /** Removing keeps a duplicate-free list duplicate-free. */
  lemma {:induction false} WithoutNoDuplicates(favorites: seq<string>, location: string)
    requires NoDuplicates(favorites)
    ensures NoDuplicates(Without(favorites, location))
    decreases |favorites|
  {
    if favorites != [] {
      var tail := favorites[1..];
      assert forall j :: 0 <= j < |tail| ==> tail[j] == favorites[j + 1] != favorites[0];
      assert favorites[0] !in tail;
      WithoutNoDuplicates(tail, location);
    }
  }

  /** Adding a new name and then removing it gives back the original list. */
  lemma RemoveUndoesAdd(favorites: seq<string>, location: string)
    requires location !in favorites
    ensures Without(WithFavorite(favorites, location), location) == favorites
  {
    WithoutConcat(favorites, [location], location);
    WithoutAbsent(favorites, location);
  }

  /** The star button of the location search: remove when present, add otherwise. */
  function ToggleFavorite(favorites: seq<string>, location: string): (r: seq<string>)
    ensures location in r <==> location !in favorites
    ensures forall x :: x != location ==> (x in r <==> x in favorites)
  {
    if location in favorites then Without(favorites, location) else WithFavorite(favorites, location)
  }

  /**
   * Pressing the star twice restores a list without the name; on a list
   * that had it, the name ends up moved to the end.
   */
  lemma ToggleFavoriteTwice(favorites: seq<string>, location: string)
    ensures location !in favorites ==>
      ToggleFavorite(ToggleFavorite(favorites, location), location) == favorites
    ensures location in favorites ==>
      ToggleFavorite(ToggleFavorite(favorites, location), location)
      == Without(favorites, location) + [location]
  {
    if location !in favorites {
      RemoveUndoesAdd(favorites, location);
    }
  }

  // ---------------------------------------------------------------------
  // The store

  /** The provider: owns the state and changes it only through the reducer. */
  class WeatherStore {
    var state: WeatherState

    constructor ()
      ensures state == InitialState
    {
      state := InitialState;
    }

    method Dispatch(action: WeatherAction)
      modifies this
      ensures state == WeatherReducer(old(state), action)
    {
      state := WeatherReducer(state, action);
    }

    /** The first two dispatches of both fetch operations. */
    method BeginFetch()
      modifies this
      ensures state == old(state).(loading := false, error := None)
    {
      Dispatch(SetLoading(true));
      Dispatch(SetError(None));
    }

    /**
     * Fetch by place name. A failed request is swallowed: the mock snapshot
     * is shown instead and no error is recorded. The location becomes the
     * query, not the name the service returns.
     */
    method FetchWeather(location: string, outcome: FetchOutcome)
      modifies this
      ensures state == old(state).(
        weatherData := Some(if outcome.Fetched? then outcome.data else MockWeatherData),
        loading := false,
        error := None,
        currentLocation := location)
    {
      BeginFetch();
      match outcome {
        case Fetched(data) =>
          Dispatch(SetWeatherData(data));
          Dispatch(SetLocation(location));
        case FetchFailed =>
          Dispatch(SetWeatherData(MockWeatherData));
          Dispatch(SetLocation(location));
      }
      Dispatch(SetLoading(false));
    }

    /**
     * Fetch by coordinates (`lat` and `lon` only form the request). On
     * success the location becomes the returned place name; on failure the
     * error message is recorded and the snapshot and location are kept.
     */
    method FetchWeatherByCoords(lat: real, lon: real, outcome: FetchOutcome)
      modifies this
      ensures outcome.Fetched? ==> state == old(state).(
        weatherData := Some(outcome.data),
        loading := false,
        error := None,
        currentLocation := outcome.data.location.name)
      ensures outcome.FetchFailed? ==> state == old(state).(
        loading := false,
        error := Some(FetchErrorMessage))
    {
      BeginFetch();
      match outcome {
        case Fetched(data) =>
          Dispatch(SetWeatherData(data));
          Dispatch(SetLocation(data.location.name));
        case FetchFailed =>
          Dispatch(SetError(Some(FetchErrorMessage)));
      }
      Dispatch(SetLoading(false));
    }

    method ToggleTheme()
      modifies this
      ensures state == old(state).(preferences := old(state).preferences.(
        theme := Theme(Flip(old(state).preferences.theme.mode))))
    {
      Dispatch(WeatherAction.ToggleTheme);
    }

    method UpdateUnits(units: PartialUnits)
      modifies this
      ensures state == old(state).(preferences := old(state).preferences.(
        units := MergeUnits(old(state).preferences.units, units)))
    {
      Dispatch(WeatherAction.UpdateUnits(units));
    }

    method AddFavoriteLocation(location: string)
      modifies this
      ensures state == old(state).(preferences := old(state).preferences.(
        favoriteLocations := WithFavorite(old(state).preferences.favoriteLocations, location)))
    {
      if location !in state.preferences.favoriteLocations {
        Dispatch(UpdatePreferences(PartialPreferences(
          None, None, Some(state.preferences.favoriteLocations + [location]))));
      }
    }

    method RemoveFavoriteLocation(location: string)
      modifies this
      ensures state == old(state).(preferences := old(state).preferences.(
        favoriteLocations := Without(old(state).preferences.favoriteLocations, location)))
    {
      Dispatch(UpdatePreferences(PartialPreferences(
        None, None, Some(Without(state.preferences.favoriteLocations, location)))));
    }
  }
}
