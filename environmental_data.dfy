/**
 * The environmental-data panel: the band texts and unit-selected value
 * strings the panel computes inline from the current conditions.
 */
module EnvironmentalData {
  import opened Wrappers
  import opened JsSemantics
  import opened Bands
  import opened WeatherTypes
  import opened WeatherUtils

  // ---------------------------------------------------------------------
  // Band texts

  const HumidityThresholds: seq<real> := [30.0, 50.0, 70.0]
  const HumidityTexts: seq<string> := ["Very dry", "Comfortable", "Moderate", "High humidity"]

  function HumidityDescription(humidity: real): (r: string)
    ensures r in HumidityTexts
  {
    if humidity < 30.0 then "Very dry"
    else if humidity < 50.0 then "Comfortable"
    else if humidity < 70.0 then "Moderate"
    else "High humidity"
  }

  lemma HumidityDescriptionBand(humidity: real)
    ensures HumidityDescription(humidity) == HumidityTexts[CountAtOrBelow(HumidityThresholds, humidity)]
  {
    var i := if humidity < 30.0 then 0 else if humidity < 50.0 then 1 else if humidity < 70.0 then 2 else 3;
    CountAtOrBelowBand(HumidityThresholds, humidity, i);
  }

  const PressureTexts: seq<string> := ["Low pressure", "Normal pressure", "High pressure"]

  /** Low below 1000 mb, high above 1020 mb, normal on [1000, 1020]. */
  function PressureDescription(pressureMb: real): (r: string)
    ensures r in PressureTexts
  {
    if pressureMb < 1000.0 then "Low pressure"
    else if pressureMb > 1020.0 then "High pressure"
    else "Normal pressure"
  }

  /** The pressure band: 1000 counts when reached, 1020 only when exceeded. */
  function PressureBand(pressureMb: real): (i: nat)
    ensures i < |PressureTexts|
  {
    CountAtOrBelow([1000.0], pressureMb) + CountBelow([1020.0], pressureMb)
  }

  lemma PressureDescriptionBand(pressureMb: real)
    ensures PressureDescription(pressureMb) == PressureTexts[PressureBand(pressureMb)]
  {
    CountAtOrBelowBand([1000.0], pressureMb, if pressureMb < 1000.0 then 0 else 1);
    CountBelowBand([1020.0], pressureMb, if pressureMb <= 1020.0 then 0 else 1);
  }

  lemma PressureBandMonotone(x: real, y: real)
    requires x <= y
    ensures PressureBand(x) <= PressureBand(y)
  {
    CountAtOrBelowMonotone([1000.0], x, y);
    CountBelowMonotone([1020.0], x, y);
  }

  const VisibilityThresholds: seq<real> := [5.0, 10.0]
  const VisibilityTexts: seq<string> := ["Poor visibility", "Moderate visibility", "Good visibility"]

  function VisibilityDescription(visKm: real): (r: string)
    ensures r in VisibilityTexts
  {
    if visKm < 5.0 then "Poor visibility"
    else if visKm < 10.0 then "Moderate visibility"
    else "Good visibility"
  }

  lemma VisibilityDescriptionBand(visKm: real)
    ensures VisibilityDescription(visKm) == VisibilityTexts[CountAtOrBelow(VisibilityThresholds, visKm)]
  {
    var i := if visKm < 5.0 then 0 else if visKm < 10.0 then 1 else 2;
    CountAtOrBelowBand(VisibilityThresholds, visKm, i);
  }

  const UVRiskTexts: seq<string> := ["Low risk", "Moderate risk", "High risk", "Very high risk", "Extreme risk"]

  function UVRiskDescription(uv: real): (r: string)
    ensures r in UVRiskTexts
  {
    if uv <= 2.0 then "Low risk"
    else if uv <= 5.0 then "Moderate risk"
    else if uv <= 7.0 then "High risk"
    else if uv <= 10.0 then "Very high risk"
    else "Extreme risk"
  }

  /** The risk text and the UV level label always name the same band. */
  lemma UVRiskMatchesLevel(uv: real)
    ensures var band := CountBelow(UVBounds, uv);
      UVRiskDescription(uv) == UVRiskTexts[band] && GetUVLevel(uv) == UVLevels[band]
  {
    var i := if uv <= 2.0 then 0 else if uv <= 5.0 then 1 else if uv <= 7.0 then 2
             else if uv <= 10.0 then 3 else 4;
    CountBelowBand(UVBounds, uv, i);
  }

  const CloudThresholds: seq<real> := [25.0, 50.0, 75.0]
  const CloudTexts: seq<string> := ["Clear skies", "Partly cloudy", "Mostly cloudy", "Overcast"]

  function CloudCoverDescription(cloud: real): (r: string)
    ensures r in CloudTexts
  {
    if cloud < 25.0 then "Clear skies"
    else if cloud < 50.0 then "Partly cloudy"
    else if cloud < 75.0 then "Mostly cloudy"
    else "Overcast"
  }

  lemma CloudCoverDescriptionBand(cloud: real)
    ensures CloudCoverDescription(cloud) == CloudTexts[CountAtOrBelow(CloudThresholds, cloud)]
  {
    var i := if cloud < 25.0 then 0 else if cloud < 50.0 then 1 else if cloud < 75.0 then 2 else 3;
    CountAtOrBelowBand(CloudThresholds, cloud, i);
  }

  // ---------------------------------------------------------------------
  // Inline value strings

  // Each inline string is exactly what the shared formatter produces.

  function WindValueText(current: CurrentWeather, units: Units): (r: string)
    ensures r == FormatWindSpeed(current.windKph, current.windMph, units)
  {
    var value := IntToString(Round(if units.wind == Kmh then current.windKph else current.windMph));
    var unit := if units.wind == Kmh then "km/h" else "mph";
    assert value + " " + unit == value + (" " + unit);
    value + " " + unit
  }

  function PressureValueText(current: CurrentWeather, units: Units): (r: string)
    ensures r == FormatPressure(current.pressureMb, current.pressureIn, units)
  {
    var value := IntToString(Round(if units.pressure == Mb then current.pressureMb else current.pressureIn));
    var unit := if units.pressure == Mb then "mb" else "in";
    assert value + " " + unit == value + (" " + unit);
    value + " " + unit
  }

  function VisibilityValueText(current: CurrentWeather, units: Units): (r: string)
    ensures r == FormatVisibility(current.visKm, current.visMiles, units)
  {
    var value := IntToString(Round(if units.visibility == Km then current.visKm else current.visMiles));
    var unit := if units.visibility == Km then "km" else "miles";
    assert value + " " + unit == value + (" " + unit);
    value + " " + unit
  }

  // ---------------------------------------------------------------------
  // The whole panel

  datatype Panel = Panel(
    humidityText: string,
    windValue: string,
    windArrow: Option<Arrow>,
    windDir: string,
    pressureValue: string,
    pressureText: string,
    visibilityValue: string,
    visibilityText: string,
    uvLevel: LevelInfo,
    uvText: string,
    cloudText: string)

  /** Nothing is rendered until a snapshot is present. */
  function EnvironmentalPanel(weatherData: Option<WeatherData>, units: Units): (r: Option<Panel>)
    ensures r.Some? <==> weatherData.Some?
  {
    match weatherData
    case None => None
    case Some(data) =>
      var c := data.current;
      Some(Panel(
        HumidityDescription(c.humidity),
        WindValueText(c, units), GetWindDirection(c.windDegree), c.windDir,
        PressureValueText(c, units), PressureDescription(c.pressureMb),
        VisibilityValueText(c, units), VisibilityDescription(c.visKm),
        GetUVLevel(c.uv), UVRiskDescription(c.uv),
        CloudCoverDescription(c.cloud)))
  }

  /**
   * The band texts ignore the unit preference (pressure is judged in mb,
   * visibility in km), and only the three value strings follow it.
   */
  lemma PanelDescriptionsIgnoreUnits(weatherData: Option<WeatherData>, u1: Units, u2: Units)
    ensures weatherData.Some? ==>
      var p1 := EnvironmentalPanel(weatherData, u1).value;
      var p2 := EnvironmentalPanel(weatherData, u2).value;
      p1.(windValue := "", pressureValue := "", visibilityValue := "")
      == p2.(windValue := "", pressureValue := "", visibilityValue := "")
  {
  }

  /** The three value strings equal the formatters applied to the snapshot's values. */
  lemma PanelValuesUseFormatters(data: WeatherData, units: Units)
    ensures var p := EnvironmentalPanel(Some(data), units).value;
      var c := data.current;
      && p.windValue == FormatWindSpeed(c.windKph, c.windMph, units)
      && p.pressureValue == FormatPressure(c.pressureMb, c.pressureIn, units)
      && p.visibilityValue == FormatVisibility(c.visKm, c.visMiles, units)
  {
  }
}
