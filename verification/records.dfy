/** The shapes of the data the weather tool passes around: the current-weather record,
    the forecast record and the "result or error" wrapper both fetch operations return.
    Python dictionaries become typed records. Of the fields the formatters never read,
    only `weather[0].main` and `wind.deg` are kept; `icon` and `dt` are not. */
module Records {
  import opened Basics
  import opened Grouping

  /** The current-weather record (`/weather` response or the sample record). */
  datatype Observation = Observation(
    name: string,
    country: Option<string>,      // data['sys']['country'], may be missing
    temp: real,
    feelsLike: real,
    humidity: int,
    pressure: int,
    condition: string,            // data['weather'][0]['main']
    description: string,          // data['weather'][0]['description']
    windSpeed: real,
    windDeg: Option<int>,
    visibility: Option<int>,      // data['visibility'], may be missing
    demo: bool                    // data.get('demo'): only the sample record sets it
  )

  /** What one forecast entry carries besides its timestamp. */
  datatype Reading = Reading(temp: real, humidity: int, condition: string, description: string)

  /** The forecast record (`/forecast` response or the sample record). */
  datatype ForecastData = ForecastData(
    cityName: string,
    country: Option<string>,
    entries: seq<Entry<Reading>>,
    demo: bool
  )

  /** A fetch result as the formatters see it: either the record, or a dictionary whose
      `'error'` key holds a message. */
  datatype Response<T> = Failed(message: string) | Fetched(data: T)
}
