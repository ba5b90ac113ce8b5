/**
 * Stateless helpers of the dashboard: unit conversions, display formatting,
 * condition icons, banded classifiers, the wind arrow, the clothing and
 * activity advice and the simplified "feels like" temperature.
 */
module WeatherUtils {
  import opened Wrappers
  import opened JsSemantics
  import opened Bands
  import opened WeatherTypes

  // ---------------------------------------------------------------------
  // Unit conversions (exact rational arithmetic)

  const MilesPerKm: real := 0.621371
  const InchesPerMb: real := 0.02953

  /** Below freezing exactly when below 32 °F; the two scales meet only at -40. */
  function CelsiusToFahrenheit(celsius: real): (fahrenheit: real)
    ensures celsius < 0.0 <==> fahrenheit < 32.0
    ensures fahrenheit == celsius <==> celsius == -40.0
  {
    (celsius * 9.0 / 5.0) + 32.0
  }

  function FahrenheitToCelsius(fahrenheit: real): (celsius: real)
    ensures celsius < 0.0 <==> fahrenheit < 32.0
    ensures celsius == fahrenheit <==> fahrenheit == -40.0
  {
    (fahrenheit - 32.0) * 5.0 / 9.0
  }

  /** The sign is kept, and a positive speed is a smaller number of the longer mile. */
  function KmhToMph(kmh: real): (mph: real)
    ensures mph < 0.0 <==> kmh < 0.0
    ensures mph == 0.0 <==> kmh == 0.0
    ensures kmh > 0.0 ==> mph < kmh
  {
    kmh * MilesPerKm
  }

  function MphToKmh(mph: real): (kmh: real)
    ensures kmh < 0.0 <==> mph < 0.0
    ensures kmh == 0.0 <==> mph == 0.0
    ensures mph > 0.0 ==> kmh > mph
  {
    mph / MilesPerKm
  }

  /** The sign is kept, and a positive pressure is a smaller number of inches. */
  function MbToIn(mb: real): (inches: real)
    ensures inches < 0.0 <==> mb < 0.0
    ensures inches == 0.0 <==> mb == 0.0
    ensures mb > 0.0 ==> inches < mb
  {
    mb * InchesPerMb
  }

  function InToMb(inches: real): (mb: real)
    ensures mb < 0.0 <==> inches < 0.0
    ensures mb == 0.0 <==> inches == 0.0
    ensures inches > 0.0 ==> mb > inches
  {
    inches / InchesPerMb
  }

  /** The sign is kept, and a positive distance is a smaller number of miles. */
  function KmToMiles(km: real): (miles: real)
    ensures miles < 0.0 <==> km < 0.0
    ensures miles == 0.0 <==> km == 0.0
    ensures km > 0.0 ==> miles < km
  {
    km * MilesPerKm
  }

  function MilesToKm(miles: real): (km: real)
    ensures km < 0.0 <==> miles < 0.0
    ensures km == 0.0 <==> miles == 0.0
    ensures miles > 0.0 ==> km > miles
  {
    miles / MilesPerKm
  }

  /** Each conversion pair is a mutual inverse, in both orders. */
  lemma TemperatureRoundTrip(c: real, f: real)
    ensures FahrenheitToCelsius(CelsiusToFahrenheit(c)) == c
    ensures CelsiusToFahrenheit(FahrenheitToCelsius(f)) == f
  {
  }

  lemma WindSpeedRoundTrip(kmh: real, mph: real)
    ensures MphToKmh(KmhToMph(kmh)) == kmh
    ensures KmhToMph(MphToKmh(mph)) == mph
  {
  }

  lemma PressureRoundTrip(mb: real, inches: real)
    ensures InToMb(MbToIn(mb)) == mb
    ensures MbToIn(InToMb(inches)) == inches
  {
  }

  lemma DistanceRoundTrip(km: real, miles: real)
    ensures MilesToKm(KmToMiles(km)) == km
    ensures KmToMiles(MilesToKm(miles)) == miles
  {
  }

  /** Every conversion preserves order: a larger reading stays larger. */
  lemma ConversionsMonotone(x: real, y: real)
    requires x <= y
    ensures CelsiusToFahrenheit(x) <= CelsiusToFahrenheit(y)
    ensures FahrenheitToCelsius(x) <= FahrenheitToCelsius(y)
    ensures KmhToMph(x) <= KmhToMph(y) && MphToKmh(x) <= MphToKmh(y)
    ensures MbToIn(x) <= MbToIn(y) && InToMb(x) <= InToMb(y)
    ensures KmToMiles(x) <= KmToMiles(y) && MilesToKm(x) <= MilesToKm(y)
  {
  }

  // ---------------------------------------------------------------------
  // Display formatting: pick the precomputed value for the chosen unit,
  // round it half-up and append the unit. Each text reads back as the
  // rounded value and the unit, and its integer is written canonically, so
  // by `CanonicalReadingUnique` the text is fixed exactly.

  function TemperatureSuffix(u: TemperatureUnit): string {
    if u == Celsius then "°C" else "°F"
  }

  function WindSuffix(u: WindUnit): string {
    if u == Kmh then " km/h" else " mph"
  }

  function PressureSuffix(u: PressureUnit): string {
    if u == Mb then " mb" else " in"
  }

  function VisibilitySuffix(u: VisibilityUnit): string {
    if u == Km then " km" else " miles"
  }

  function FormatTemperature(tempC: real, tempF: real, units: Units): (r: string)
    ensures ParseReading(r)
      == Some((Round(if units.temperature == Celsius then tempC else tempF), TemperatureSuffix(units.temperature)))
    ensures CanonicalInteger(r)
  {
    var temp := if units.temperature == Celsius then tempC else tempF;
    var unit := if units.temperature == Celsius then "°C" else "°F";
    ReadingRoundTrip(Round(temp), unit);
    RenderingCanonical(Round(temp), unit);
    IntToString(Round(temp)) + unit
  }

  function FormatWindSpeed(windKph: real, windMph: real, units: Units): (r: string)
    ensures ParseReading(r)
      == Some((Round(if units.wind == Kmh then windKph else windMph), WindSuffix(units.wind)))
    ensures CanonicalInteger(r)
  {
    var speed := if units.wind == Kmh then windKph else windMph;
    var unit := if units.wind == Kmh then "km/h" else "mph";
    var suffix := " " + unit;
    assert suffix == WindSuffix(units.wind);
    ReadingRoundTrip(Round(speed), suffix);
    RenderingCanonical(Round(speed), suffix);
    IntToString(Round(speed)) + suffix
  }

  function FormatPressure(pressureMb: real, pressureIn: real, units: Units): (r: string)
    ensures ParseReading(r)
      == Some((Round(if units.pressure == Mb then pressureMb else pressureIn), PressureSuffix(units.pressure)))
    ensures CanonicalInteger(r)
  {
    var pressure := if units.pressure == Mb then pressureMb else pressureIn;
    var unit := if units.pressure == Mb then "mb" else "in";
    var suffix := " " + unit;
    assert suffix == PressureSuffix(units.pressure);
    ReadingRoundTrip(Round(pressure), suffix);
    RenderingCanonical(Round(pressure), suffix);
    IntToString(Round(pressure)) + suffix
  }

  function FormatVisibility(visKm: real, visMiles: real, units: Units): (r: string)
    ensures ParseReading(r)
      == Some((Round(if units.visibility == Km then visKm else visMiles), VisibilitySuffix(units.visibility)))
    ensures CanonicalInteger(r)
  {
    var visibility := if units.visibility == Km then visKm else visMiles;
    var unit := if units.visibility == Km then "km" else "miles";
    var suffix := " " + unit;
    assert suffix == VisibilitySuffix(units.visibility);
    ReadingRoundTrip(Round(visibility), suffix);
    RenderingCanonical(Round(visibility), suffix);
    IntToString(Round(visibility)) + suffix
  }

  /** A formatter's text depends only on the value its own unit selects. */
  lemma FormattersIgnoreUnselected(a: real, b: real, b': real, units: Units)
    ensures units.temperature == Celsius ==> FormatTemperature(a, b, units) == FormatTemperature(a, b', units)
    ensures units.temperature == Fahrenheit ==> FormatTemperature(b, a, units) == FormatTemperature(b', a, units)
    ensures units.wind == Kmh ==> FormatWindSpeed(a, b, units) == FormatWindSpeed(a, b', units)
    ensures units.wind == Mph ==> FormatWindSpeed(b, a, units) == FormatWindSpeed(b', a, units)
    ensures units.pressure == Mb ==> FormatPressure(a, b, units) == FormatPressure(a, b', units)
    ensures units.pressure == In ==> FormatPressure(b, a, units) == FormatPressure(b', a, units)
    ensures units.visibility == Km ==> FormatVisibility(a, b, units) == FormatVisibility(a, b', units)
    ensures units.visibility == Miles ==> FormatVisibility(b, a, units) == FormatVisibility(b', a, units)
  {
  }

  // ---------------------------------------------------------------------
  // Condition code -> icon

  datatype WeatherIcon =
    | Sun | Moon | SunBehindCloud | Cloud | Fog | SunBehindRainCloud
    | SnowCloud | ThunderCloud | RainCloud | SunBehindSmallCloud
  {
    /** The emoji shown for the icon. */
    function Glyph(): string {
      match this
      case Sun => "\U{2600}\U{FE0F}"
      case Moon => "\U{1F319}"
      case SunBehindCloud => "\U{26C5}"
      case Cloud => "\U{2601}\U{FE0F}"
      case Fog => "\U{1F32B}\U{FE0F}"
      case SunBehindRainCloud => "\U{1F326}\U{FE0F}"
      case SnowCloud => "\U{1F328}\U{FE0F}"
      case ThunderCloud => "\U{26C8}\U{FE0F}"
      case RainCloud => "\U{1F327}\U{FE0F}"
      case SunBehindSmallCloud => "\U{1F324}\U{FE0F}"
    }
  }

  /** The icon shown for a code the table does not list. */
  const DefaultIcon: WeatherIcon := SunBehindSmallCloud

  /**
   * The icon table; only the clear-sky entry depends on day or night. It has
   * an entry exactly for the listed codes, and never the default icon.
   */
  function IconMap(conditionCode: int, isDay: bool): (r: Option<WeatherIcon>)
    ensures r.Some? <==> IsListedCode(conditionCode)
    ensures r != Some(DefaultIcon)
  {
    match conditionCode
    case 1000 => Some(if isDay then Sun else Moon)
    case 1003 => Some(SunBehindCloud)
    case 1006 => Some(Cloud)
    case 1009 => Some(Cloud)
    case 1030 => Some(Fog)
    case 1063 => Some(SunBehindRainCloud)
    case 1066 => Some(SnowCloud)
    case 1069 => Some(SnowCloud)
    case 1087 => Some(ThunderCloud)
    case 1114 => Some(SnowCloud)
    case 1117 => Some(SnowCloud)
    case 1135 => Some(Fog)
    case 1147 => Some(Fog)
    case 1150 => Some(RainCloud)
    case 1153 => Some(RainCloud)
    case 1168 => Some(RainCloud)
    case 1171 => Some(RainCloud)
    case 1180 => Some(RainCloud)
    case 1183 => Some(RainCloud)
    case 1186 => Some(RainCloud)
    case 1189 => Some(RainCloud)
    case 1192 => Some(RainCloud)
    case 1195 => Some(RainCloud)
    case 1198 => Some(RainCloud)
    case 1201 => Some(RainCloud)
    case 1204 => Some(SnowCloud)
    case 1207 => Some(SnowCloud)
    case 1210 => Some(SnowCloud)
    case 1213 => Some(SnowCloud)
    case 1216 => Some(SnowCloud)
    case 1219 => Some(SnowCloud)
    case 1222 => Some(SnowCloud)
    case 1225 => Some(SnowCloud)
    case 1237 => Some(SnowCloud)
    case 1240 => Some(RainCloud)
    case 1243 => Some(RainCloud)
    case 1246 => Some(RainCloud)
    case 1249 => Some(SnowCloud)
    case 1252 => Some(SnowCloud)
    case 1255 => Some(SnowCloud)
    case 1258 => Some(SnowCloud)
    case 1261 => Some(SnowCloud)
    case 1264 => Some(SnowCloud)
    case 1273 => Some(ThunderCloud)
    case 1276 => Some(ThunderCloud)
    case 1279 => Some(ThunderCloud)
    case 1282 => Some(ThunderCloud)
    case _ => None
  }

  /** The condition codes the table lists, grouped by the icon they show. */
  predicate IsCloudCode(code: int) {
    code == 1006 || code == 1009
  }

  predicate IsFogCode(code: int) {
    code == 1030 || code == 1135 || code == 1147
  }

  predicate IsRainCode(code: int) {
    code == 1150 || code == 1153 || code == 1168 || code == 1171
    || code == 1180 || code == 1183 || code == 1186 || code == 1189
    || code == 1192 || code == 1195 || code == 1198 || code == 1201
    || code == 1240 || code == 1243 || code == 1246
  }

  predicate IsSnowCode(code: int) {
    code == 1066 || code == 1069 || code == 1114 || code == 1117
    || code == 1204 || code == 1207 || code == 1210 || code == 1213
    || code == 1216 || code == 1219 || code == 1222 || code == 1225
    || code == 1237 || code == 1249 || code == 1252 || code == 1255
    || code == 1258 || code == 1261 || code == 1264
  }

  predicate IsThunderCode(code: int) {
    code == 1087 || code == 1273 || code == 1276 || code == 1279
    || code == 1282
  }

  predicate IsListedCode(code: int) {
    code == 1000 || code == 1003 || code == 1063
    || IsCloudCode(code) || IsFogCode(code) || IsRainCode(code) || IsSnowCode(code) || IsThunderCode(code)
  }

  /**
   * Table lookup with the default icon for a missing entry: the default icon
   * appears exactly for the codes the table does not list.
   */
  function GetWeatherIcon(conditionCode: int, isDay: bool := true): (r: WeatherIcon)
    ensures r == DefaultIcon <==> !IsListedCode(conditionCode)
  {
    match IconMap(conditionCode, isDay)
    case Some(icon) => icon
    case None => DefaultIcon
  }

  /** Clear sky (1000) is the sun by day and the moon by night. */
  lemma ClearSkyIcon(isDay: bool)
    ensures GetWeatherIcon(1000, isDay) == (if isDay then Sun else Moon)
    ensures GetWeatherIcon(1000) == Sun
  {
  }

  /** Every other code shows the same icon by day and by night. */
  lemma IconIgnoresDayExceptClearSky(conditionCode: int)
    requires conditionCode != 1000
    ensures GetWeatherIcon(conditionCode, true) == GetWeatherIcon(conditionCode, false)
  {
  }

  /** Each group of listed codes shows its own icon, and no other code shows it. */
  lemma IconGroups(conditionCode: int, isDay: bool)
    ensures IsCloudCode(conditionCode) <==> GetWeatherIcon(conditionCode, isDay) == Cloud
    ensures IsFogCode(conditionCode) <==> GetWeatherIcon(conditionCode, isDay) == Fog
    ensures IsRainCode(conditionCode) <==> GetWeatherIcon(conditionCode, isDay) == RainCloud
    ensures IsSnowCode(conditionCode) <==> GetWeatherIcon(conditionCode, isDay) == SnowCloud
    ensures IsThunderCode(conditionCode) <==> GetWeatherIcon(conditionCode, isDay) == ThunderCloud
    ensures conditionCode == 1003 <==> GetWeatherIcon(conditionCode, isDay) == SunBehindCloud
    ensures conditionCode == 1063 <==> GetWeatherIcon(conditionCode, isDay) == SunBehindRainCloud
  {
  }

  // ---------------------------------------------------------------------
  // UV index and air quality: first match of `x <= bound`

  datatype LevelInfo = LevelInfo(level: string, color: string)

  const UVBounds: seq<real> := [2.0, 5.0, 7.0, 10.0]

  const UVLevels: seq<LevelInfo> := [
    LevelInfo("Low", "#10b981"),
    LevelInfo("Moderate", "#f59e0b"),
    LevelInfo("High", "#f97316"),
    LevelInfo("Very High", "#ef4444"),
    LevelInfo("Extreme", "#7c3aed")
  ]

  function GetUVLevel(uv: real): (r: LevelInfo)
    ensures r in UVLevels
  {
    if uv <= 2.0 then LevelInfo("Low", "#10b981")
    else if uv <= 5.0 then LevelInfo("Moderate", "#f59e0b")
    else if uv <= 7.0 then LevelInfo("High", "#f97316")
    else if uv <= 10.0 then LevelInfo("Very High", "#ef4444")
    else LevelInfo("Extreme", "#7c3aed")
  }

  const AqiBounds: seq<real> := [50.0, 100.0, 150.0, 200.0, 300.0]

  const AirQualityLevels: seq<LevelInfo> := [
    LevelInfo("Good", "#10b981"),
    LevelInfo("Moderate", "#f59e0b"),
    LevelInfo("Unhealthy for Sensitive Groups", "#f97316"),
    LevelInfo("Unhealthy", "#ef4444"),
    LevelInfo("Very Unhealthy", "#7c3aed"),
    LevelInfo("Hazardous", "#dc2626")
  ]

  function GetAirQualityLevel(aqi: real): (r: LevelInfo)
    ensures r in AirQualityLevels
  {
    if aqi <= 50.0 then LevelInfo("Good", "#10b981")
    else if aqi <= 100.0 then LevelInfo("Moderate", "#f59e0b")
    else if aqi <= 150.0 then LevelInfo("Unhealthy for Sensitive Groups", "#f97316")
    else if aqi <= 200.0 then LevelInfo("Unhealthy", "#ef4444")
    else if aqi <= 300.0 then LevelInfo("Very Unhealthy", "#7c3aed")
    else LevelInfo("Hazardous", "#dc2626")
  }

  /** The UV level is the band numbered by how many bounds lie below the index. */
  lemma UVLevelBand(uv: real)
    ensures GetUVLevel(uv) == UVLevels[CountBelow(UVBounds, uv)]
  {
    var i := if uv <= 2.0 then 0 else if uv <= 5.0 then 1 else if uv <= 7.0 then 2
             else if uv <= 10.0 then 3 else 4;
    CountBelowBand(UVBounds, uv, i);
  }

  /** The same for the air-quality level. */
  lemma AirQualityLevelBand(aqi: real)
    ensures GetAirQualityLevel(aqi) == AirQualityLevels[CountBelow(AqiBounds, aqi)]
  {
    var i := if aqi <= 50.0 then 0 else if aqi <= 100.0 then 1 else if aqi <= 150.0 then 2
             else if aqi <= 200.0 then 3 else if aqi <= 300.0 then 4 else 5;
    CountBelowBand(AqiBounds, aqi, i);
  }

  /** A higher index never yields a lower UV or air-quality band. */
  lemma LevelBandsMonotone(x: real, y: real)
    requires x <= y
    ensures CountBelow(UVBounds, x) <= CountBelow(UVBounds, y)
    ensures CountBelow(AqiBounds, x) <= CountBelow(AqiBounds, y)
  {
    CountBelowMonotone(UVBounds, x, y);
    CountBelowMonotone(AqiBounds, x, y);
  }

  // ---------------------------------------------------------------------
  // Wind direction

  datatype Arrow = Up | UpRight | Right | DownRight | Down | DownLeft | Left | UpLeft {
    function Glyph(): string {
      match this
      case Up => "↑"
      case UpRight => "↗\U{FE0F}"
      case Right => "→"
      case DownRight => "↘\U{FE0F}"
      case Down => "↓"
      case DownLeft => "↙\U{FE0F}"
      case Left => "←"
      case UpLeft => "↖\U{FE0F}"
    }
  }

  const Directions: seq<Arrow> := [Up, UpRight, Right, DownRight, Down, DownLeft, Left, UpLeft]

  /**
   * `directions[Math.round(degree / 45) % 8]`. The remainder keeps the sign
   * of the dividend, so a bearing below -22.5 can index below zero, where
   * the array lookup yields `undefined` (None). Every bearing from -22.5 up
   * is shown with an arrow.
   */
  function GetWindDirection(degree: real): (r: Option<Arrow>)
    ensures degree >= -22.5 ==> r.Some?
  {
    var index := JsRemainder(Round(degree / 45.0), 8);
    if 0 <= index < 8 then Some(Directions[index]) else None
  }

  /**
   * Below -22.5 the arrow can be missing: -45 degrees indexes the table at
   * -1, while -360 degrees lands on index -0, which is north.
   */
  lemma NegativeBearings()
    ensures GetWindDirection(-45.0) == None
    ensures GetWindDirection(-360.0) == Some(Up)
  {
    RoundUnique(-45.0 / 45.0, -1);
    RoundUnique(-360.0 / 45.0, -8);
  }

  /** Each multiple of 45 degrees shows its own compass arrow. */
  lemma WindDirectionCompassPoints(k: nat)
    requires k < 8
    ensures GetWindDirection(45.0 * k as real) == Some(Directions[k])
  {
    RoundUnique(45.0 * k as real / 45.0, k);
  }

  /**
   * For a bearing in [0, 360) the arrow is that of the nearest of the eight
   * compass points, a bearing exactly between two going clockwise; from
   * 337.5 up this is north again.
   */
  lemma WindDirectionNearestPoint(degree: real, k: nat)
    requires 0.0 <= degree < 360.0
    requires k <= 8
    requires 45.0 * k as real - 22.5 <= degree < 45.0 * k as real + 22.5
    ensures GetWindDirection(degree) == Some(Directions[k % 8])
  {
    RoundUnique(degree / 45.0, k);
  }

  // ---------------------------------------------------------------------
  // Clothing and activity advice: first match of `x < threshold`

  const ClothingThresholds: seq<real> := [0.0, 10.0, 20.0, 25.0]

  const ClothingSuggestions: seq<string> := [
    "Heavy winter coat, gloves, scarf, and hat",
    "Winter coat or heavy jacket",
    "Light jacket or sweater",
    "T-shirt and light clothing",
    "Light summer clothing"
  ]

  function GetClothingSuggestion(tempC: real): (r: string)
    ensures r in ClothingSuggestions
  {
    if tempC < 0.0 then "Heavy winter coat, gloves, scarf, and hat"
    else if tempC < 10.0 then "Winter coat or heavy jacket"
    else if tempC < 20.0 then "Light jacket or sweater"
    else if tempC < 25.0 then "T-shirt and light clothing"
    else "Light summer clothing"
  }

  /** The suggestion is the band numbered by how many thresholds the temperature reaches. */
  lemma ClothingSuggestionBand(tempC: real)
    ensures GetClothingSuggestion(tempC) == ClothingSuggestions[CountAtOrBelow(ClothingThresholds, tempC)]
  {
    var i := if tempC < 0.0 then 0 else if tempC < 10.0 then 1 else if tempC < 20.0 then 2
             else if tempC < 25.0 then 3 else 4;
    CountAtOrBelowBand(ClothingThresholds, tempC, i);
  }

  /** A warmer day never calls for heavier clothing. */
  lemma ClothingSuggestionMonotone(x: real, y: real)
    requires x <= y
    ensures CountAtOrBelow(ClothingThresholds, x) <= CountAtOrBelow(ClothingThresholds, y)
  {
    CountAtOrBelowMonotone(ClothingThresholds, x, y);
  }

  const StormAdvice: string := "Stay indoors - avoid outdoor activities"
  const RainAdvice: string := "Indoor activities recommended"
  const SnowAdvice: string := "Great for winter sports if conditions allow"

  const ActivityThresholds: seq<real> := [0.0, 10.0, 25.0, 30.0]

  const TemperatureAdvice: seq<string> := [
    "Indoor activities or winter sports",
    "Light outdoor activities with proper clothing",
    "Perfect for outdoor activities",
    "Good for outdoor activities, stay hydrated",
    "Limit outdoor activities, stay in shade"
  ]

  /** Case-insensitive keyword test: `condition.toLowerCase().includes(keyword)`. */
  predicate Mentions(condition: string, keyword: string) {
    Includes(ToLowerCase(condition), keyword)
  }

  predicate IsStormy(condition: string) {
    Mentions(condition, "thunder") || Mentions(condition, "storm")
  }

  predicate IsRainy(condition: string) {
    Mentions(condition, "rain")
  }

  predicate IsSnowy(condition: string) {
    Mentions(condition, "snow")
  }

  function GetActivityRecommendation(tempC: real, condition: string): (r: string)
    ensures IsStormy(condition) ==> r == StormAdvice
    ensures !IsStormy(condition) && IsRainy(condition) ==> r == RainAdvice
    ensures !IsStormy(condition) && !IsRainy(condition) && IsSnowy(condition) ==> r == SnowAdvice
    ensures !IsStormy(condition) && !IsRainy(condition) && !IsSnowy(condition) ==>
              r == TemperatureAdvice[CountAtOrBelow(ActivityThresholds, tempC)]
  {
    var band := if tempC < 0.0 then 0 else if tempC < 10.0 then 1 else if tempC < 25.0 then 2
                else if tempC < 30.0 then 3 else 4;
    CountAtOrBelowBand(ActivityThresholds, tempC, band);
    var isRainy := Includes(ToLowerCase(condition), "rain");
    var isSnowy := Includes(ToLowerCase(condition), "snow");
    var isStormy := Includes(ToLowerCase(condition), "thunder") || Includes(ToLowerCase(condition), "storm");
    if isStormy then "Stay indoors - avoid outdoor activities"
    else if isRainy then "Indoor activities recommended"
    else if isSnowy then "Great for winter sports if conditions allow"
    else if tempC < 0.0 then "Indoor activities or winter sports"
    else if tempC < 10.0 then "Light outdoor activities with proper clothing"
    else if tempC < 25.0 then "Perfect for outdoor activities"
    else if tempC < 30.0 then "Good for outdoor activities, stay hydrated"
    else "Limit outdoor activities, stay in shade"
  }

  /** Once a weather keyword matches, the temperature plays no part. */
  lemma KeywordAdviceIgnoresTemperature(t1: real, t2: real, condition: string)
    requires IsStormy(condition) || IsRainy(condition) || IsSnowy(condition)
    ensures GetActivityRecommendation(t1, condition) == GetActivityRecommendation(t2, condition)
  {
  }

  /** The keyword test does not depend on letter case. */
  lemma ActivityIgnoresCase(tempC: real, condition: string)
    ensures GetActivityRecommendation(tempC, ToLowerCase(condition)) == GetActivityRecommendation(tempC, condition)
  {
    ToLowerCaseIdempotent(condition);
  }

  /** A condition mentioning thunder and rain gets the storm advice, not the rain advice. */
  lemma ThunderOverridesRain(tempC: real, condition: string)
    requires condition == "Moderate rain with thunder"
    ensures GetActivityRecommendation(tempC, condition) == StormAdvice
  {
    var lower := ToLowerCase(condition);
    assert forall j :: 0 <= j < 7 ==> lower[19 + j] == LowerChar(condition[19 + j]) == "thunder"[j];
    assert lower[19..26] == "thunder";
    IncludesAt(lower, "thunder", 19);
  }

  // ---------------------------------------------------------------------
  // Simplified "feels like"

  /**
   * Below 10 degrees the wind takes a tenth of its speed off; above 27 the
   * humidity adds a hundredth of its percentage; in between nothing changes.
   */
  function CalculateFeelsLike(tempC: real, humidity: real, windKph: real): (r: real)
    ensures tempC < 10.0 ==> tempC - r == windKph / 10.0
    ensures tempC > 27.0 ==> r - tempC == humidity / 100.0
    ensures 10.0 <= tempC <= 27.0 ==> r == tempC
    ensures tempC < 10.0 && windKph >= 0.0 ==> r <= tempC
    ensures tempC > 27.0 && humidity >= 0.0 ==> r >= tempC
  {
    if tempC < 10.0 then tempC - (windKph * 0.1)
    else if tempC > 27.0 then tempC + (humidity * 0.01)
    else tempC
  }
}
