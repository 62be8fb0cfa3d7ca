/**
 * The browser state shared by the pages: the payloads the application
 * persists, the weather provider's request, and `localStorage`.
 *
 * `localStorage` holds one JSON string per key. The model keeps one slot per
 * key the application uses, holding the value that was serialised there
 * (`JSON.parse(JSON.stringify(x))` is taken to give back `x`); `None` is a key
 * that was never written, for which `getItem` returns null.
 */
module Browser {
  import opened Wrappers

  /** A GPS position `{lat, lon}`. */
  datatype Coord = Coord(lat: real, lon: real)

  /**
   * The open-meteo answer used by the home page: `current_weather.temperature`,
   * `hourly.temperature_2m` and `hourly.precipitation_probability`.
   */
  datatype SimpleForecast = SimpleForecast(temperature: int, hourlyTemperature: seq<int>, hourlyRain: seq<int>)

  /**
   * The open-meteo answer used by the detailed forecast page: `hourly.time`
   * ("YYYY-MM-DDTHH:MM"), `hourly.temperature_2m` and
   * `hourly.precipitation_probability`, index-aligned by hour.
   */
  datatype DetailForecast = DetailForecast(time: seq<string>, temperature: seq<int>, rain: seq<int>)

  /** One logged care event `{id, type, date, desc}`; `id` is the `Date.now()` of its creation. */
  datatype CareEvent = CareEvent(id: int, kind: string, date: string, desc: string)

  /** The horse profile `{nom, race, age}`, as the three form fields hold it. */
  datatype HorseInfo = HorseInfo(nom: string, race: string, age: string)

  /**
   * The query string of a request to https://api.open-meteo.com/v1/forecast
   * (`models=best_match` is sent by both pages).
   */
  datatype ForecastQuery = ForecastQuery(
    at: Coord,
    currentWeather: bool,
    hourly: seq<string>,
    forecastDays: nat,
    timezoneAuto: bool)

  /** The contents of `localStorage`, one slot per key. */
  datatype Storage = Storage(
    lastKnownLocation: Option<Coord>,
    meteoCacheSimple: Option<SimpleForecast>,
    meteoCacheDetail: Option<DetailForecast>,
    saveInfo: Option<HorseInfo>,
    saveEvents: Option<seq<CareEvent>>)

  /** A storage nothing has been written to yet. */
  const EMPTY_STORAGE := Storage(None, None, None, None, None)

  class LocalStorage {
    var lastKnownLocation: Option<Coord>          // "lastKnownLocation"
    var meteoCacheSimple: Option<SimpleForecast>  // "meteoCacheSimple"
    var meteoCacheDetail: Option<DetailForecast>  // "meteoCacheDetail"
    var saveInfo: Option<HorseInfo>               // "equitrack_save_info"
    var saveEvents: Option<seq<CareEvent>>        // "equitrack_save_events"

    function State(): Storage
      reads this
    {
      Storage(lastKnownLocation, meteoCacheSimple, meteoCacheDetail, saveInfo, saveEvents)
    }

    constructor Empty()
      ensures State() == EMPTY_STORAGE
    {
      lastKnownLocation, meteoCacheSimple, meteoCacheDetail := None, None, None;
      saveInfo, saveEvents := None, None;
    }
  }
}
