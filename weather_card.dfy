/**
 * The pure logic of the weather card: the compass bucketing of a wind
 * direction, the weather-code tables, and the chart series built from the
 * provider's parallel arrays.
 */
module WeatherCard {
  import opened Wrappers
  import opened WeatherTypes
  import opened JsArrays

  /** The eight compass points, clockwise from north. */
  const CompassPoints: seq<string> := ["N", "NE", "E", "SE", "S", "SW", "W", "NW"]

  /** Where the sector of `CompassPoints[k]` begins, for 1 <= k < 8. */
  function SectorStart(k: int): real
  {
    22.5 + 45.0 * (k - 1) as real
  }

  /** `getDirection`: the compass point of a wind direction in degrees. */
  function GetDirection(deg: real): (d: string)
    ensures d in CompassPoints
    ensures d == "N" <==> deg < 22.5 || 337.5 <= deg
    ensures forall k :: 1 <= k < |CompassPoints| ==> (d == CompassPoints[k] <==> SectorStart(k) <= deg < SectorStart(k) + 45.0)
  {
    if deg < 22.5 then "N"
    else if deg < 67.5 then "NE"
    else if deg < 112.5 then "E"
    else if deg < 157.5 then "SE"
    else if deg < 202.5 then "S"
    else if deg < 247.5 then "SW"
    else if deg < 292.5 then "W"
    else if deg < 337.5 then "NW"
    else "N"
  }

  /** On a full turn, the compass point is the 45-degree sector around it, counted from north. */
  lemma DirectionBySector(deg: real)
    requires 0.0 <= deg < 360.0
    ensures GetDirection(deg) == CompassPoints[((deg + 22.5) / 45.0).Floor % 8]
  {
    var k := ((deg + 22.5) / 45.0).Floor;
    assert 45.0 * k as real <= deg + 22.5 < 45.0 * k as real + 45.0;
    assert 0 <= k <= 8;
    if k == 0 || k == 8 {
      assert GetDirection(deg) == "N";
    } else {
      assert SectorStart(k) <= deg < SectorStart(k) + 45.0;
    }
  }

  /** The icons the card draws. */
  datatype Icon = Sun | Cloud | CloudRain

  /** `weatherIcons`: WMO weather code to icon. */
  const WeatherIcons: map<int, Icon> := map[
    0 := Sun, 1 := Sun,
    2 := Cloud, 3 := Cloud, 45 := Cloud, 48 := Cloud,
    51 := CloudRain, 53 := CloudRain, 55 := CloudRain,
    61 := CloudRain, 63 := CloudRain, 65 := CloudRain,
    80 := CloudRain, 95 := CloudRain]

  /** `weatherDescriptions`: WMO weather code to text. */
  const WeatherDescriptions: map<int, string> := map[
    0 := "Clear sky", 1 := "Mainly clear", 2 := "Partly cloudy", 3 := "Overcast",
    45 := "Fog", 48 := "Depositing rime fog",
    51 := "Light drizzle", 53 := "Moderate drizzle", 55 := "Dense drizzle",
    61 := "Slight rain", 63 := "Moderate rain", 65 := "Heavy rain",
    80 := "Rain showers", 95 := "Thunderstorm"]

  /** Both tables know the same codes. */
  lemma TablesShareCodes()
    ensures WeatherIcons.Keys == WeatherDescriptions.Keys
  {
  }

  /**
   * `weatherIcons[code] || Cloud`: the table's icon, or Cloud for a code it
   * does not know or an index past the end of the code array.
   */
  function IconFor(code: Option<int>): (icon: Icon)
    ensures code.None? || code.value !in WeatherIcons ==> icon == Cloud
    ensures icon == Sun <==> code.Some? && code.value in {0, 1}
    ensures icon == CloudRain <==> code.Some? && code.value in WeatherIcons && code.value >= 51
  {
    if code.Some? && code.value in WeatherIcons then WeatherIcons[code.value] else Cloud
  }

  const DailyPoints: nat := 7
  const HourlyPoints: nat := 24

  /** One bar of the temperature chart; `day` is the raw date the label is formatted from. */
  datatype TemperaturePoint = TemperaturePoint(day: string, max: Option<real>, min: Option<real>)
  datatype PrecipitationPoint = PrecipitationPoint(day: string, precipitation: Option<real>)
  /** One point of the hourly chart; `hour` is the raw time the label is formatted from. */
  datatype HourPoint = HourPoint(hour: string, temp: Option<real>, precip: Option<real>)

  /** `temperatureChartData`. */
  function TemperatureChartData(daily: Daily): (r: seq<TemperaturePoint>)
    ensures |r| == Min(|daily.time|, DailyPoints)
    ensures forall i :: 0 <= i < |r| ==>
      r[i].day == daily.time[i] && r[i].max == At(daily.temperatureMax, i) && r[i].min == At(daily.temperatureMin, i)
  {
    MapWithIndex(Take(daily.time, DailyPoints),
      (date, i) => TemperaturePoint(date, At(daily.temperatureMax, i), At(daily.temperatureMin, i)))
  }

  /** `precipitationData`. */
  function PrecipitationData(daily: Daily): (r: seq<PrecipitationPoint>)
    ensures |r| == Min(|daily.time|, DailyPoints)
    ensures forall i :: 0 <= i < |r| ==>
      r[i].day == daily.time[i] && r[i].precipitation == At(daily.precipitationProbabilityMax, i)
  {
    MapWithIndex(Take(daily.time, DailyPoints),
      (date, i) => PrecipitationPoint(date, At(daily.precipitationProbabilityMax, i)))
  }

  /** `hourlyData`. */
  function HourlyData(hourly: Hourly): (r: seq<HourPoint>)
    ensures |r| == Min(|hourly.time|, HourlyPoints)
    ensures forall i :: 0 <= i < |r| ==>
      r[i].hour == hourly.time[i] && r[i].temp == At(hourly.temperature, i) && r[i].precip == At(hourly.precipitationProbability, i)
  {
    MapWithIndex(Take(hourly.time, HourlyPoints),
      (time, i) => HourPoint(time, At(hourly.temperature, i), At(hourly.precipitationProbability, i)))
  }

  /** The icon of each row of the daily forecast list. */
  function DailyIcons(daily: Daily): (r: seq<Icon>)
    ensures |r| == Min(|daily.time|, DailyPoints)
    ensures forall i :: 0 <= i < |r| ==> r[i] == IconFor(At(daily.weatherCode, i))
  {
    MapWithIndex(Take(daily.time, DailyPoints), (date, i) => IconFor(At(daily.weatherCode, i)))
  }

  /** Every daily array is as long as `time`: index i describes the same day throughout. */
  predicate DailyAligned(daily: Daily)
  {
    && |daily.temperatureMax| == |daily.time|
    && |daily.temperatureMin| == |daily.time|
    && |daily.precipitationProbabilityMax| == |daily.time|
    && |daily.weatherCode| == |daily.time|
  }

  predicate HourlyAligned(hourly: Hourly)
  {
    |hourly.temperature| == |hourly.time| && |hourly.precipitationProbability| == |hourly.time|
  }

  /** With aligned arrays no chart point is missing a value. */
  lemma AlignedSeriesComplete(daily: Daily, hourly: Hourly)
    requires DailyAligned(daily) && HourlyAligned(hourly)
    ensures forall p :: p in TemperatureChartData(daily) ==> p.max.Some? && p.min.Some?
    ensures forall p :: p in PrecipitationData(daily) ==> p.precipitation.Some?
    ensures forall p :: p in HourlyData(hourly) ==> p.temp.Some? && p.precip.Some?
  {
  }

  /** What the card shows. */
  datatype CardView =
    | LoadingPlaceholder
    | Card(
        temperature: seq<TemperaturePoint>,
        precipitation: seq<PrecipitationPoint>,
        hourly: seq<HourPoint>,
        dailyIcons: seq<Icon>)
    /** Reading `forecast.daily.time` or `forecast.hourly.time` of a missing block throws. */
    | RenderError

  /** The card for the page's `weather` and `forecast`. */
  function Render(data: Option<Snapshot>, forecast: Option<ForecastResponse>): (v: CardView)
    ensures v.LoadingPlaceholder? <==> data.None? || forecast.None?
    ensures v.RenderError? <==> data.Some? && forecast.Some? && (forecast.value.daily.None? || forecast.value.hourly.None?)
    ensures v.Card? ==>
      && v.temperature == TemperatureChartData(forecast.value.daily.value)
      && v.precipitation == PrecipitationData(forecast.value.daily.value)
      && v.hourly == HourlyData(forecast.value.hourly.value)
      && v.dailyIcons == DailyIcons(forecast.value.daily.value)
  {
    if data.None? || forecast.None? then LoadingPlaceholder
    else match (forecast.value.daily, forecast.value.hourly)
      case (Some(daily), Some(hourly)) =>
        Card(TemperatureChartData(daily), PrecipitationData(daily), HourlyData(hourly), DailyIcons(daily))
      case _ => RenderError
  }
}
