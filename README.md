# Weather dashboard core, modelled in Dafny

This project models the logic core of a browser weather dashboard:

- **Weather utilities** (`WeatherUtils`): the four unit-conversion pairs, the
  unit-selecting display formatters, the condition-code icon table, the UV and
  air-quality level classifiers, the eight-way wind arrow, the clothing and
  activity advice and the simplified "feels like" temperature.
- **Session state store** (`WeatherContext`): the state record, the reducer's
  actions, the initial state, the pure reducer, and a `WeatherStore` class whose
  operations (fetch by name, fetch by coordinates, toggle theme, update units,
  add and remove a favourite) are the same fixed sequences of dispatches as the
  provider's.
- **Environmental-data panel** (`EnvironmentalData`): the humidity, pressure,
  visibility, UV-risk and cloud-cover band texts and the wind, pressure and
  visibility value strings, lifted out of the panel's inline expressions.

Supporting modules: `JsSemantics` (the JavaScript behaviour the code relies on:
`Math.round` rounds halves up, integers render as decimal text, `%` keeps the
sign of the dividend, `toLowerCase`, `includes`), `Bands` (the reference
definition of a first-match threshold chain: a chain of `x <= bound` tests picks
band number "how many bounds lie below x", a chain of `x < bound` tests picks
"how many bounds x reaches"), `WeatherTypes`, `WeatherService` (the outcome of a
request and the fallback snapshot) and `AppView` (which top-level view a state
shows).

Numbers are `real`, so all arithmetic is exact. The weather service is not
modelled: each fetch operation takes the outcome of its request (`Fetched(data)`
or `FetchFailed`) as a parameter.

Behaviour of the code that the model keeps as written:

- `SET_ERROR` always sets `loading` to false. Both fetch operations dispatch
  `SET_LOADING true` and then `SET_ERROR null`, so the loading flag is already
  false while the request is pending (`FetchStartLeavesLoadingOff`,
  `WeatherStore.BeginFetch`). A refetch over existing data therefore keeps
  showing the dashboard, not the spinner (`RefetchKeepsDashboard`). Once both
  dispatches are applied, `loading` is false. Renders between the two
  dispatches are not modelled.
- A failed fetch by name shows the fallback snapshot and records no error. A
  failed fetch by coordinates records "Failed to fetch weather data" and keeps
  the old snapshot and location.
- The visibility texts are "Poor visibility", "Moderate visibility" and "Good
  visibility".
- The UV level labels ("Very High") and the UV risk texts ("Very high risk")
  differ in case. They still always name the same band.
- `getWindDirection` computes `Math.round(degree / 45) % 8` with a remainder
  that keeps the dividend's sign. A bearing below -22.5 degrees can therefore
  index the arrow table below zero, where JavaScript yields `undefined`. The
  model returns `None` there.

## Model

| member | source | states |
|---|---|---|
| `WeatherUtils.CelsiusToFahrenheit` | src/utils/weatherUtils.ts:5-7 | a temperature is below freezing exactly when its Fahrenheit value is below 32, and the two scales agree only at -40 |
| `WeatherUtils.FahrenheitToCelsius` | src/utils/weatherUtils.ts:9-11 | below 32 °F exactly when below 0 °C, and the two scales agree only at -40 |
| `WeatherUtils.KmhToMph` | src/utils/weatherUtils.ts:14-16 | the sign of the speed is kept, and a positive speed is a smaller number in mph |
| `WeatherUtils.MphToKmh` | src/utils/weatherUtils.ts:18-20 | the sign of the speed is kept, and a positive speed is a larger number in km/h |
| `WeatherUtils.MbToIn` | src/utils/weatherUtils.ts:23-25 | the sign of the pressure is kept, and a positive pressure is a smaller number in inches |
| `WeatherUtils.InToMb` | src/utils/weatherUtils.ts:27-29 | the sign of the pressure is kept, and a positive pressure is a larger number in mb |
| `WeatherUtils.KmToMiles` | src/utils/weatherUtils.ts:32-34 | the sign of the distance is kept, and a positive distance is a smaller number in miles |
| `WeatherUtils.MilesToKm` | src/utils/weatherUtils.ts:36-38 | the sign of the distance is kept, and a positive distance is a larger number in km |
| `WeatherUtils.TemperatureRoundTrip` | src/utils/weatherUtils.ts:5-11 | Celsius to Fahrenheit and back is the identity, in both orders |
| `WeatherUtils.WindSpeedRoundTrip` | src/utils/weatherUtils.ts:14-20 | km/h to mph and back is the identity, in both orders |
| `WeatherUtils.PressureRoundTrip` | src/utils/weatherUtils.ts:23-29 | mb to inches and back is the identity, in both orders |
| `WeatherUtils.DistanceRoundTrip` | src/utils/weatherUtils.ts:32-38 | km to miles and back is the identity, in both orders |
| `WeatherUtils.ConversionsMonotone` | src/utils/weatherUtils.ts:5-38 | every conversion preserves the order of readings |
| `JsSemantics.Round` | src/utils/weatherUtils.ts:44 | `Math.round` gives the integer n with n - 0.5 <= x < n + 0.5, so halves round up |
| `JsSemantics.ReadingRoundTrip` | src/utils/weatherUtils.ts:41-66 | an integer followed by a unit that does not start with a digit reads back as that integer and unit |
| `JsSemantics.NatToStringValue` | src/utils/weatherUtils.ts:44 | the decimal text of a number denotes that number |
| `JsSemantics.RenderingCanonical` | src/utils/weatherUtils.ts:44 | the rendering of an integer before a unit has no leading zero and never reads `-0` |
| `JsSemantics.CanonicalReadingUnique` | src/utils/weatherUtils.ts:41-66 | a canonically written reading is exactly the rendering of the integer and unit it reads back as, so each formatter's contract fixes its text |
| `WeatherUtils.FormatTemperature` | src/utils/weatherUtils.ts:41-45 | the text reads back as the rounded value chosen by the temperature unit, then `°C` or `°F` with no space; the integer is written with no leading zero and no `-0`, as JavaScript writes it |
| `WeatherUtils.FormatWindSpeed` | src/utils/weatherUtils.ts:48-52 | the text reads back as the rounded speed chosen by the wind unit, then ` km/h` or ` mph`; the integer is written with no leading zero and no `-0`, as JavaScript writes it |
| `WeatherUtils.FormatPressure` | src/utils/weatherUtils.ts:55-59 | the text reads back as the rounded pressure chosen by the pressure unit, then ` mb` or ` in`; the integer is written with no leading zero and no `-0`, as JavaScript writes it |
| `WeatherUtils.FormatVisibility` | src/utils/weatherUtils.ts:62-66 | the text reads back as the rounded distance chosen by the visibility unit, then ` km` or ` miles`; the integer is written with no leading zero and no `-0`, as JavaScript writes it |
| `WeatherUtils.FormattersIgnoreUnselected` | src/utils/weatherUtils.ts:41-66 | each formatter's text does not depend on the value its unit does not select |
| `WeatherUtils.ClearSkyIcon` | src/utils/weatherUtils.ts:87-89 | code 1000 shows the sun by day and the moon by night; day is the default |
| `WeatherUtils.IconIgnoresDayExceptClearSky` | src/utils/weatherUtils.ts:87-136 | every code other than 1000 shows the same icon by day and by night |
| `WeatherUtils.IconGroups` | src/utils/weatherUtils.ts:90-135 | each icon is shown for exactly its group of listed codes |
| `WeatherUtils.IconMap` | src/utils/weatherUtils.ts:88-136 | the table has an entry exactly for the 47 listed codes, and none of them is the default icon |
| `WeatherUtils.GetWeatherIcon` | src/utils/weatherUtils.ts:87-139 | the default icon is shown exactly for the codes the table does not list |
| `WeatherUtils.GetUVLevel` | src/utils/weatherUtils.ts:142-148 | the result is one of the five UV levels, each with its colour |
| `WeatherUtils.GetAirQualityLevel` | src/utils/weatherUtils.ts:151-158 | the result is one of the six air-quality levels, each with its colour |
| `WeatherUtils.UVLevelBand` | src/utils/weatherUtils.ts:142-148 | the UV level is the band numbered by how many of the bounds 2, 5, 7, 10 lie below the index |
| `WeatherUtils.AirQualityLevelBand` | src/utils/weatherUtils.ts:151-158 | the air-quality level is the band numbered by how many of the bounds 50, 100, 150, 200, 300 lie below the index |
| `WeatherUtils.LevelBandsMonotone` | src/utils/weatherUtils.ts:142-158 | a higher index never gives a lower UV or air-quality band |
| `Bands.CountBelowBand` | src/utils/weatherUtils.ts:142-158 | a first-match chain of `x <= bound` tests over ascending bounds selects band number "bounds below x" |
| `Bands.CountAtOrBelowBand` | src/utils/weatherUtils.ts:168-174 | a first-match chain of `x < bound` tests over ascending bounds selects band number "bounds reached by x" |
| `JsSemantics.JsRemainder` | src/utils/weatherUtils.ts:163 | `%` gives the remainder of division truncated toward zero: below the divisor in size, with the sign of the dividend, so `-1 % 8` is -1 |
| `WeatherUtils.GetWindDirection` | src/utils/weatherUtils.ts:161-165 | every bearing from -22.5 degrees up gets an arrow |
| `WeatherUtils.NegativeBearings` | src/utils/weatherUtils.ts:161-165 | -45 degrees indexes the table at -1 and gets no arrow, while -360 degrees lands on -0 and gets north |
| `WeatherUtils.WindDirectionCompassPoints` | src/utils/weatherUtils.ts:161-165 | each multiple of 45 degrees from 0 to 315 shows its own arrow |
| `WeatherUtils.WindDirectionNearestPoint` | src/utils/weatherUtils.ts:161-165 | a bearing in [0, 360) shows the arrow of the nearest compass point, ties going clockwise, so 337.5 and up show north |
| `WeatherUtils.GetClothingSuggestion` | src/utils/weatherUtils.ts:168-174 | the result is one of the five suggestions |
| `WeatherUtils.ClothingSuggestionBand` | src/utils/weatherUtils.ts:168-174 | the suggestion is one of five, numbered by how many of 0, 10, 20, 25 the temperature reaches (so exactly 0 gives the winter coat) |
| `WeatherUtils.ClothingSuggestionMonotone` | src/utils/weatherUtils.ts:168-174 | a warmer temperature never gives a colder-weather band |
| `JsSemantics.ToLowerCaseIdempotent` | src/utils/weatherUtils.ts:178-180 | lower-casing twice equals lower-casing once |
| `JsSemantics.IncludesIff` | src/utils/weatherUtils.ts:178-180 | `includes` holds exactly when the keyword occurs at some position |
| `WeatherUtils.GetActivityRecommendation` | src/utils/weatherUtils.ts:177-190 | storm words win over rain, rain over snow; with no keyword the advice is the band of 0, 10, 25, 30 that the temperature reaches |
| `WeatherUtils.KeywordAdviceIgnoresTemperature` | src/utils/weatherUtils.ts:177-184 | once a keyword matches, the temperature does not affect the advice |
| `WeatherUtils.ActivityIgnoresCase` | src/utils/weatherUtils.ts:178-180 | lower-casing the condition text does not change the advice |
| `WeatherUtils.ThunderOverridesRain` | src/utils/weatherUtils.ts:180-183 | "Moderate rain with thunder" gets the storm advice, not the rain advice |
| `WeatherUtils.CalculateFeelsLike` | src/utils/weatherUtils.ts:193-203 | below 10 the wind takes a tenth of its speed off, so the result is never warmer when the wind is non-negative; above 27 the humidity adds a hundredth of itself; on [10, 27] the temperature is unchanged |
| `WeatherContext.WeatherReducer` | src/context/WeatherContext.tsx:41-77 | each action writes only its own fields: the snapshot, loading flag, error, location, preferences and favourites each change only on the actions that set them |
| `WeatherContext.ToggleThemeFlips` | src/context/WeatherContext.tsx:56-65 | the theme flips and nothing else in the state changes |
| `WeatherContext.ToggleThemeTwice` | src/context/WeatherContext.tsx:56-65 | toggling twice restores the original state |
| `WeatherContext.UpdateUnitsOverwritesSupplied` | src/context/WeatherContext.tsx:66-73 | exactly the supplied unit fields are overwritten; other units, theme, favourites and all non-preference fields are kept |
| `WeatherContext.UpdateUnitsIdempotent` | src/context/WeatherContext.tsx:66-73 | an empty unit patch changes nothing, and applying a patch twice equals applying it once |
| `WeatherContext.UpdatePreferencesShallowMerge` | src/context/WeatherContext.tsx:51-55 | each supplied key replaces its whole sub-object, the others and the non-preference fields are kept |
| `WeatherContext.DataAndErrorActions` | src/context/WeatherContext.tsx:43-76 | storing a snapshot clears the error and keeps the loading flag; storing an error forces loading off; an unrecognised action changes nothing |
| `WeatherContext.FetchStartLeavesLoadingOff` | src/context/WeatherContext.tsx:142-143 | after SET_LOADING true and then SET_ERROR null, loading is false and the error is cleared, all else unchanged |
| `WeatherContext.WithFavorite` | src/context/WeatherContext.tsx:185-194 | after adding, the name is present, the old list is a prefix of the new one, and at most one entry is added |
| `WeatherContext.WithFavoriteSpec` | src/context/WeatherContext.tsx:185-194 | adding is a no-op for a present name and appends an absent one; adding twice equals adding once |
| `WeatherContext.WithFavoriteNoDuplicates` | src/context/WeatherContext.tsx:185-194 | adding never introduces a duplicate |
| `WeatherContext.Without` | src/context/WeatherContext.tsx:200-202 | filtering keeps exactly the entries other than the name |
| `WeatherContext.WithoutConcat` | src/context/WeatherContext.tsx:200-202 | filtering distributes over concatenation, so the kept entries keep their order |
| `WeatherContext.WithoutAbsent` | src/context/WeatherContext.tsx:200-202 | removing an absent name changes nothing |
| `WeatherContext.WithoutMultiset` | src/context/WeatherContext.tsx:200-202 | every occurrence of the name goes and every other entry keeps its count |
| `WeatherContext.WithoutNoDuplicates` | src/context/WeatherContext.tsx:196-205 | removing keeps a duplicate-free list duplicate-free |
| `WeatherContext.RemoveUndoesAdd` | src/context/WeatherContext.tsx:185-205 | adding a new name and then removing it restores the list |
| `WeatherContext.ToggleFavorite` | src/components/LocationSearch.tsx:48-58 | pressing the star makes the name present exactly when it was absent, and no other name's membership changes |
| `WeatherContext.ToggleFavoriteTwice` | src/components/LocationSearch.tsx:48-58 | pressing the star twice restores a list without the name, and moves a present name to the end |
| `WeatherContext.WeatherStore.constructor` | src/context/WeatherContext.tsx:22-39 | the store starts in the initial state: no data, not loading, no error, "New York", metric units, light theme, no favourites |
| `WeatherContext.WeatherStore.Dispatch` | src/context/WeatherContext.tsx:105 | every state change goes through the reducer |
| `WeatherContext.WeatherStore.BeginFetch` | src/context/WeatherContext.tsx:142-143 | the fetch start leaves loading false and the error cleared |
| `WeatherContext.WeatherStore.FetchWeather` | src/context/WeatherContext.tsx:141-159 | whatever the outcome: not loading, no error, location is the query; the data is the fetched snapshot or the fallback |
| `WeatherContext.WeatherStore.FetchWeatherByCoords` | src/context/WeatherContext.tsx:161-175 | on success: the snapshot, no error, location is the returned place name; on failure: the fixed error message, not loading, snapshot and location kept |
| `WeatherContext.WeatherStore.ToggleTheme` | src/context/WeatherContext.tsx:177-179 | only the theme mode changes, to the other mode |
| `WeatherContext.WeatherStore.UpdateUnits` | src/context/WeatherContext.tsx:181-183 | only the units change, merged with the patch |
| `WeatherContext.WeatherStore.AddFavoriteLocation` | src/context/WeatherContext.tsx:185-194 | only the favourites change, to the list with the name added |
| `WeatherContext.WeatherStore.RemoveFavoriteLocation` | src/context/WeatherContext.tsx:196-205 | only the favourites change, to the list without the name |
| `EnvironmentalData.HumidityDescription` | src/components/EnvironmentalData.tsx:32-34 | the text is one of the four humidity texts |
| `EnvironmentalData.HumidityDescriptionBand` | src/components/EnvironmentalData.tsx:32-34 | the humidity text is the band of 30, 50, 70 that the humidity reaches |
| `EnvironmentalData.PressureDescription` | src/components/EnvironmentalData.tsx:60-61 | the text is one of the three pressure texts |
| `EnvironmentalData.PressureDescriptionBand` | src/components/EnvironmentalData.tsx:60-61 | low below 1000 mb, high above 1020 mb, normal on [1000, 1020] |
| `EnvironmentalData.PressureBandMonotone` | src/components/EnvironmentalData.tsx:60-61 | a higher pressure never gives a lower pressure band |
| `EnvironmentalData.VisibilityDescription` | src/components/EnvironmentalData.tsx:74-75 | the text is one of the three visibility texts |
| `EnvironmentalData.VisibilityDescriptionBand` | src/components/EnvironmentalData.tsx:74-75 | the visibility text is the band of 5, 10 km that the distance reaches |
| `EnvironmentalData.UVRiskDescription` | src/components/EnvironmentalData.tsx:88-91 | the text is one of the five UV risk texts |
| `EnvironmentalData.UVRiskMatchesLevel` | src/components/EnvironmentalData.tsx:88-91 | the UV risk text and the UV level label name the same band |
| `EnvironmentalData.CloudCoverDescription` | src/components/EnvironmentalData.tsx:102-104 | the text is one of the four cloud-cover texts |
| `EnvironmentalData.CloudCoverDescriptionBand` | src/components/EnvironmentalData.tsx:102-104 | the cloud text is the band of 25, 50, 75 that the cover reaches |
| `EnvironmentalData.WindValueText` | src/components/EnvironmentalData.tsx:44 | the inline wind string equals the shared wind-speed formatter's text |
| `EnvironmentalData.PressureValueText` | src/components/EnvironmentalData.tsx:57 | the inline pressure string equals the shared pressure formatter's text |
| `EnvironmentalData.VisibilityValueText` | src/components/EnvironmentalData.tsx:71 | the inline visibility string equals the shared visibility formatter's text |
| `EnvironmentalData.EnvironmentalPanel` | src/components/EnvironmentalData.tsx:6-14 | the panel is rendered exactly when a snapshot is present |
| `EnvironmentalData.PanelDescriptionsIgnoreUnits` | src/components/EnvironmentalData.tsx:10-107 | only the panel's three value strings depend on the unit preference; every band text is the same for all units |
| `EnvironmentalData.PanelValuesUseFormatters` | src/components/EnvironmentalData.tsx:43-71 | the panel's value strings are the formatters applied to the snapshot |
| `AppView.CurrentView` | src/App.tsx:37-47 | loading always shows the spinner; the error view shows exactly when there is a non-empty error and no loading flag, with that message; the dashboard shows exactly when there is a snapshot, no loading flag and no error to report |
| `AppView.RefetchKeepsDashboard` | src/App.tsx:37-47 | over existing data, starting a fetch leaves the dashboard shown, not the spinner |
| `AppView.CoordinateFetchFailureScenario` | src/App.tsx:37-47 | a failed coordinate fetch from the initial state ends on the error view with the fixed message |
| `AppView.NameFetchFailureScenario` | src/App.tsx:37-47 | a failed fetch by name from the initial state ends on the dashboard with the fallback snapshot |

## Left out

- The HTTP requests of the weather service, and location search. Each fetch takes the settled outcome of its request as a parameter.
- The fallback snapshot's forecast days and alerts. Their hourly temperatures use `Math.sin`, which is floating point. The snapshot keeps only its location and current conditions, and so does every `WeatherData`.
- `formatTime`, `formatDate` and `formatDateTime`. They wrap a date library.
- The startup restore of preferences and location, and the writes back to local storage. Both are browser storage I/O, and the stored preferences also need JSON parsing.
- Applying the theme to the document element. This is browser I/O.
- Overlapping fetches that settle out of order, and the stale copy of `state` read by the add and remove favourite operations. Both need interleaving of asynchronous code; every operation here runs to completion against the current state.
- A `Partial` payload whose key is present but `undefined`. Object spread copies that `undefined` over the old value. In the model a key is either present with a value or absent.
- The rendering of non-integral numbers (the humidity, UV and cloud values shown as raw numbers in the panel). Only integer rendering is modelled.
- Geolocation and the component tree. Only the view choice of the top-level component is modelled.
- The condition code is an integer. A fractional code would also miss the table in JavaScript and show the default icon.
- The console logging of both fetch paths (`console.warn` when falling back to the mock snapshot, `console.error` when a coordinate fetch fails). It is output only and changes no state.
- JsSemantics.IntToString: writes every integer as plain decimal digits, while JavaScript switches to exponent notation from 1e21 up. Readings that large do not occur.
- JsSemantics.ToLowerCase: lower-cases ASCII letters only, while JavaScript also lower-cases other scripts. The keywords are ASCII, but a non-ASCII capital next to a keyword is not modelled.
- WeatherUtils.TemperatureRoundTrip: holds exactly over the reals. With IEEE doubles it holds only up to rounding, and the same goes for the other round trips and for `CalculateFeelsLike`.
