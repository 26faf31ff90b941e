/** The presentation side of `WeatherCLI`: `format_current_weather` and
    `format_forecast`. The multi-line text is kept structured, one field per rendered
    value, so that what the output says can be stated without its emoji and layout.
    The weekday name of a date and `str.title` are parameters. */
module Formatter {
  import opened Basics
  import opened Grouping
  import opened Records

  const ErrorPrefix := "❌ Error: "
  const MetricUnits := "metric"

  /** The temperature and wind-speed suffixes. */
  datatype UnitLabels = UnitLabels(temp: string, speed: string)

  /** `'°C' if units == 'metric' else '°F'`, and likewise for the wind speed. */
  function Labels(units: string): UnitLabels
  {
    if units == MetricUnits then UnitLabels("°C", "m/s") else UnitLabels("°F", "mph")
  }

  /** The metric suffixes are chosen exactly for the string `metric`; every other
      value, not only `imperial`, gets the imperial ones. */
  lemma LabelsFollowUnits(units: string)
    ensures Labels(units).temp == "°C" <==> units == MetricUnits
    ensures Labels(units).speed == "m/s" <==> units == MetricUnits
    ensures Labels(units).temp == "°F" <==> units != MetricUnits
    ensures Labels(units).speed == "mph" <==> units != MetricUnits
  {
  }

  /** The current-weather report: every value the f-string of lines 135-144 shows. */
  datatype CurrentView = CurrentView(
    city: string,
    country: Option<string>,
    temp: real,
    feelsLike: real,
    tempLabel: string,
    description: string,
    humidity: int,
    pressure: int,
    windSpeed: real,
    speedLabel: string,
    visibility: Option<int>,
    demoNote: bool
  )

  /** One day block of the forecast (lines 175-180). */
  datatype DayBlock = DayBlock(
    weekday: string,
    date: string,
    temp: real,
    tempLabel: string,
    description: string,
    humidity: int
  )

  /** The forecast report: the header values and the day blocks. */
  datatype ForecastView = ForecastView(
    city: string,
    country: Option<string>,
    demoNote: bool,
    days: seq<DayBlock>
  )

  /** What a formatter returns: the one-line error text, or a report. */
  datatype Output<V> = ErrorText(text: string) | Report(view: V)

  /** `format_current_weather`. */
  function FormatCurrentWeather(data: Response<Observation>, units: string, title: string -> string)
    : (out: Output<CurrentView>)
    ensures data.Failed? <==> out.ErrorText?
    ensures data.Failed? ==> out.text == ErrorPrefix + data.message
    ensures data.Fetched? ==>
              && out.view.city == data.data.name
              && out.view.country == data.data.country
              && out.view.description == title(data.data.description)
              && out.view.pressure == data.data.pressure
              && out.view.visibility == data.data.visibility
              && out.view.temp == data.data.temp
              && out.view.feelsLike == data.data.feelsLike
              && out.view.windSpeed == data.data.windSpeed
              && out.view.humidity == data.data.humidity
              && out.view.demoNote == data.data.demo
              && (units == MetricUnits ==> out.view.tempLabel == "°C" && out.view.speedLabel == "m/s")
              && (units != MetricUnits ==> out.view.tempLabel == "°F" && out.view.speedLabel == "mph")
  {
    match data
    case Failed(message) => ErrorText(ErrorPrefix + message)
    case Fetched(d) =>
      var labels := Labels(units);
      Report(CurrentView(
        city := d.name,
        country := d.country,
        temp := d.temp,
        feelsLike := d.feelsLike,
        tempLabel := labels.temp,
        description := title(d.description),
        humidity := d.humidity,
        pressure := d.pressure,
        windSpeed := d.windSpeed,
        speedLabel := labels.speed,
        visibility := d.visibility,
        demoNote := d.demo))
  }

  /** The block rendered for one summarised day. */
  function Block(day: Day<Reading>, tempLabel: string, weekday: string -> string, title: string -> string)
    : DayBlock
  {
    DayBlock(
      weekday := weekday(day.date),
      date := day.date,
      temp := day.rep.payload.temp,
      tempLabel := tempLabel,
      description := title(day.rep.payload.description),
      humidity := day.rep.payload.humidity)
  }

  /** `format_forecast`: the error line, or the header and one block per rendered day.
      Block `i` belongs to the `i`-th distinct date among the first 40 entries and
      shows the values of that date's representative entry. */
  function FormatForecast(
    data: Response<ForecastData>, units: string,
    weekday: string -> string, title: string -> string): (out: Output<ForecastView>)
    ensures data.Failed? <==> out.ErrorText?
    ensures data.Failed? ==> out.text == ErrorPrefix + data.message
    ensures data.Fetched? ==>
              var kept := Truncate(data.data.entries);
              var ks := DistinctKeys(kept);
              && out.view.city == data.data.cityName
              && out.view.country == data.data.country
              && out.view.demoNote == data.data.demo
              && |out.view.days| == Min(MaxDays, |ks|)
              && forall i :: 0 <= i < |out.view.days| ==>
                   && |EntriesOn(kept, ks[i])| > 0
                   && var rep := Representative(EntriesOn(kept, ks[i]));
                   && out.view.days[i].date == ks[i]
                   && out.view.days[i].weekday == weekday(ks[i])
                   && out.view.days[i].temp == rep.payload.temp
                   && out.view.days[i].humidity == rep.payload.humidity
                   && out.view.days[i].description == title(rep.payload.description)
                   && (units == MetricUnits ==> out.view.days[i].tempLabel == "°C")
                   && (units != MetricUnits ==> out.view.days[i].tempLabel == "°F")
  {
    match data
    case Failed(message) => ErrorText(ErrorPrefix + message)
    case Fetched(d) =>
      var days := Summarize(d.entries);
      var suffix := Labels(units).temp;
      Report(ForecastView(
        city := d.cityName,
        country := d.country,
        demoNote := d.demo,
        days := seq(|days|, i requires 0 <= i < |days| => Block(days[i], suffix, weekday, title))))
  }

  /** The error short-circuit: an error response yields the same single line from both
      formatters, whatever the units and however weekdays and titles are computed. */
  lemma ErrorShortCircuit(
    message: string, u1: string, u2: string,
    w1: string -> string, w2: string -> string, t1: string -> string, t2: string -> string)
    ensures FormatCurrentWeather(Failed(message), u1, t1) == ErrorText(ErrorPrefix + message)
    ensures FormatForecast(Failed(message), u1, w1, t1) == FormatForecast(Failed(message), u2, w2, t2)
    ensures FormatForecast(Failed(message), u1, w1, t1).text[|ErrorPrefix|..] == message
  {
  }

  /** Changing the unit system changes only the suffixes: every number is shown as
      given, with no conversion. */
  lemma UnitsOnlyRelabel(
    data: Response<ForecastData>, u1: string, u2: string,
    weekday: string -> string, title: string -> string)
    requires data.Fetched?
    ensures var v1 := FormatForecast(data, u1, weekday, title).view;
      var v2 := FormatForecast(data, u2, weekday, title).view;
      && |v1.days| == |v2.days|
      && v1.(days := []) == v2.(days := [])
      && forall i :: 0 <= i < |v1.days| ==> v1.days[i].(tempLabel := "") == v2.days[i].(tempLabel := "")
  {
  }

  /** The same for the current-weather report. */
  lemma CurrentUnitsOnlyRelabel(data: Response<Observation>, u1: string, u2: string, title: string -> string)
    requires data.Fetched?
    ensures FormatCurrentWeather(data, u1, title).view.(tempLabel := "", speedLabel := "") ==
            FormatCurrentWeather(data, u2, title).view.(tempLabel := "", speedLabel := "")
  {
  }
}
