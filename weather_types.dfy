/**
 * The records that flow between the geocoder, the forecast provider, the home
 * page and the weather card. Numbers from the provider are reals; an array that
 * the page tests with `Array.isArray` is an Option of a sequence.
 */
module WeatherTypes {
  import opened Wrappers

  datatype Coords = Coords(latitude: real, longitude: real)

  /** One entry of the recent-search list: `{ name, country, coords }`. */
  datatype Entry = Entry(name: string, country: string, coords: Coords)

  /** A raw geocoding result offered as an autocomplete suggestion; `country` may be missing. */
  datatype Suggestion = Suggestion(name: string, country: Option<string>, latitude: real, longitude: real)

  /** What the geocoder answers for free text. */
  datatype GeoMatch = GeoMatch(name: string, country: string, latitude: real, longitude: real)

  /** The provider's `current` block: the fields the page requests. */
  datatype Current = Current(
    temperature: real,
    relativeHumidity: real,
    apparentTemperature: real,
    precipitation: real,
    weatherCode: int,
    pressure: real,
    windSpeed: real,
    windDirection: real,
    isDay: int)

  /** The provider's `daily` block: parallel arrays, one index per day. */
  datatype Daily = Daily(
    time: seq<string>,
    temperatureMax: seq<real>,
    temperatureMin: seq<real>,
    apparentTemperatureMax: seq<real>,
    precipitationSum: seq<real>,
    precipitationProbabilityMax: seq<real>,
    weatherCode: seq<int>,
    uvIndexMax: seq<real>,
    sunrise: Option<seq<string>>,
    sunset: Option<seq<string>>)

  /** The provider's `hourly` block: parallel arrays, one index per hour. */
  datatype Hourly = Hourly(time: seq<string>, temperature: seq<real>, precipitationProbability: seq<real>)

  /** A parsed forecast response; any block may be missing. */
  datatype ForecastResponse = ForecastResponse(current: Option<Current>, hourly: Option<Hourly>, daily: Option<Daily>)

  /** The page's `weather` value: the current block plus the place and the first day's sun times. */
  datatype Snapshot = Snapshot(
    current: Current,
    city: string,
    country: string,
    sunrise: Option<string>,
    sunset: Option<string>)
}
