/** The data-source side of `WeatherCLI`: credential resolution, the choice between the
    sample records and a live request, and the request each fetch operation issues.
    The HTTP exchange itself (`requests.get`, `raise_for_status`, JSON decoding) is the
    `fetch` parameter: it maps a request to a decoded body or to the text of the
    exception it raised. */
module Adapter {
  import opened Basics
  import opened Grouping
  import opened Records

  const BaseUrl := "http://api.openweathermap.org/data/2.5"
  /** `timeout=10` on both requests. */
  const TimeoutSeconds := 10
  /** The provider returns one entry every 3 hours: 8 per day. */
  const EntriesPerDay := 8
  /** `get_forecast(self, city, units='metric', days=5)`. */
  const DefaultDays := 5
  /** Prefix of the message that replaces a `RequestException`. */
  const FailurePrefix := "API request failed: "

  /** The query of one GET: the URL and its parameters. `cnt` is sent only for forecasts. */
  datatype Request = Request(
    url: string,
    q: string,
    appid: string,
    units: string,
    cnt: Option<int>,
    timeout: int
  )

  /** One HTTP exchange: the decoded JSON body, or the text of the exception. */
  datatype Transport<T> = Delivered(body: T) | RequestFailed(reason: string)

  /** `api_key or os.getenv('OPENWEATHER_API_KEY')`: an empty flag counts as absent. */
  function ResolveKey(flag: Option<string>, env: Option<string>): Option<string>
  {
    if flag.Some? && flag.value != "" then flag else env
  }

  /** The truth value of `self.api_key`: neither `None` nor the empty string. */
  predicate HasKey(key: Option<string>)
  {
    key.Some? && key.value != ""
  }

  /** A usable credential results exactly when the flag or the environment provides one,
      and a usable flag wins over the environment. */
  lemma ResolveKeyChoosesFlagFirst(flag: Option<string>, env: Option<string>)
    ensures HasKey(ResolveKey(flag, env)) <==> HasKey(flag) || HasKey(env)
    ensures HasKey(flag) ==> ResolveKey(flag, env) == flag
    ensures !HasKey(flag) ==> ResolveKey(flag, env) == env
  {
  }

  /** The sample record of `_get_demo_weather`; `title` stands for `str.title`. */
  function DemoWeather(city: string, title: string -> string): Observation
  {
    Observation(
      name := title(city),
      country := Some("DEMO"),
      temp := 22.5,
      feelsLike := 24.1,
      humidity := 65,
      pressure := 1013,
      condition := "Clear",
      description := "clear sky",
      windSpeed := 3.2,
      windDeg := Some(180),
      visibility := Some(10000),
      demo := true)
  }

  /** The sample record of `_get_demo_forecast`: two midday entries on consecutive dates. */
  function DemoForecast(city: string, title: string -> string): ForecastData
  {
    ForecastData(
      cityName := title(city),
      country := Some("DEMO"),
      entries := [
        Entry("2024-09-22 12:00:00", Reading(25.0, 60, "Sunny", "sunny")),
        Entry("2024-09-23 12:00:00", Reading(23.0, 70, "Clouds", "partly cloudy"))
      ],
      demo := true)
  }

  function CurrentRequest(key: string, city: string, units: string): Request
  {
    Request(BaseUrl + "/weather", city, key, units, None, TimeoutSeconds)
  }

  /** The forecast query asks for `days * 8` entries. */
  function ForecastRequest(key: string, city: string, units: string, days: int): (req: Request)
    ensures req.cnt.Some? && req.cnt.value == days * EntriesPerDay
    ensures req.q == city && req.appid == key && req.units == units
  {
    Request(BaseUrl + "/forecast", city, key, units, Some(days * EntriesPerDay), TimeoutSeconds)
  }

  /** The `try`/`except RequestException` around a request: failures become an error
      response carrying the exception text, never a fault. */
  function Receive<T>(t: Transport<T>): Response<T>
  {
    match t
    case Delivered(body) => Fetched(body)
    case RequestFailed(reason) => Failed(FailurePrefix + reason)
  }

  /** `get_current_weather`: the sample record without a credential, one request with one. */
  function GetCurrentWeather(
    key: Option<string>, city: string, units: string,
    title: string -> string, fetch: Request -> Transport<Observation>): (r: Response<Observation>)
    ensures !HasKey(key) ==> r == Fetched(DemoWeather(city, title))
    ensures !HasKey(key) ==> r.data.demo && r.data.name == title(city)
    ensures HasKey(key) ==>
              var t := fetch(CurrentRequest(key.value, city, units));
              && (t.Delivered? ==> r == Fetched(t.body))
              && (t.RequestFailed? ==> r == Failed(FailurePrefix + t.reason))
  {
    if !HasKey(key) then Fetched(DemoWeather(city, title))
    else Receive(fetch(CurrentRequest(key.value, city, units)))
  }

  /** `get_forecast`: the sample record without a credential, one request for
      `days * 8` entries with one. */
  function GetForecast(
    key: Option<string>, city: string, units: string, days: int,
    title: string -> string, fetch: Request -> Transport<ForecastData>): (r: Response<ForecastData>)
    ensures !HasKey(key) ==> r == Fetched(DemoForecast(city, title))
    ensures !HasKey(key) ==> r.data.demo && r.data.cityName == title(city)
    ensures HasKey(key) ==>
              var t := fetch(ForecastRequest(key.value, city, units, days));
              && (t.Delivered? ==> r == Fetched(t.body))
              && (t.RequestFailed? ==> r == Failed(FailurePrefix + t.reason))
  {
    if !HasKey(key) then Fetched(DemoForecast(city, title))
    else Receive(fetch(ForecastRequest(key.value, city, units, days)))
  }

  /** Without a credential neither operation consults the network: any two `fetch`
      functions give the same result, for any units and any day count. */
  lemma DemoModeIgnoresNetwork(
    key: Option<string>, city: string, u1: string, u2: string, d1: int, d2: int,
    title: string -> string,
    f1: Request -> Transport<Observation>, f2: Request -> Transport<Observation>,
    g1: Request -> Transport<ForecastData>, g2: Request -> Transport<ForecastData>)
    requires !HasKey(key)
    ensures GetCurrentWeather(key, city, u1, title, f1) == GetCurrentWeather(key, city, u2, title, f2)
    ensures GetForecast(key, city, u1, d1, title, g1) == GetForecast(key, city, u2, d2, title, g2)
  {
  }

  /** With a credential a failed request is reported, never replaced by sample data. */
  lemma LiveFailureIsNotMasked(
    key: Option<string>, city: string, units: string, days: int, title: string -> string,
    fetch: Request -> Transport<ForecastData>)
    requires HasKey(key)
    requires fetch(ForecastRequest(key.value, city, units, days)).RequestFailed?
    ensures GetForecast(key, city, units, days, title, fetch).Failed?
  {
  }

  /** The default request size is exactly the number of entries the formatter keeps. */
  lemma DefaultRequestFillsTruncation(key: string, city: string, units: string)
    ensures ForecastRequest(key, city, units, DefaultDays).cnt == Some(MaxEntries)
  {
  }
}
