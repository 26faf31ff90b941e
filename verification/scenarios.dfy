/** Whole-invocation properties: fetch followed by format, for the sample records
    and for a failed live request. */
module Scenarios {
  import opened Basics
  import opened Text
  import opened Grouping
  import opened Records
  import opened Adapter
  import opened Formatter

  /** Without a credential the current-weather report shows the sample values for the
      requested city, in Celsius under metric units, with the sample-data notice. */
  lemma DemoCurrentReport(
    key: Option<string>, city: string, title: string -> string,
    fetch: Request -> Transport<Observation>)
    requires !HasKey(key)
    ensures var out := FormatCurrentWeather(GetCurrentWeather(key, city, MetricUnits, title, fetch), MetricUnits, title);
      && out.Report?
      && out.view.city == title(city)
      && out.view.country == Some("DEMO")
      && out.view.temp == 22.5
      && out.view.tempLabel == "°C"
      && out.view.humidity == 65
      && out.view.demoNote
  {
  }

  /** Two entries on different dates give exactly those two keys, in order. */
  lemma TwoDatesKeys<P>(e0: Entry<P>, e1: Entry<P>)
    requires KeyOf(e0) != KeyOf(e1)
    ensures DistinctKeys([e0, e1]) == [KeyOf(e0), KeyOf(e1)]
  {
    assert [e0, e1] == [e0] + [e1];
    assert [e0] == [] + [e0];
    DistinctKeysSnoc([], e0);
    DistinctKeysSnoc([e0], e1);
  }

  /** Two entries on different dates each form a bucket of their own. */
  lemma TwoDatesBuckets<P>(e0: Entry<P>, e1: Entry<P>)
    requires KeyOf(e0) != KeyOf(e1)
    ensures EntriesOn([e0, e1], KeyOf(e0)) == [e0]
    ensures EntriesOn([e0, e1], KeyOf(e1)) == [e1]
  {
    assert [e0, e1] == [e0] + [e1];
    assert [e0] == [] + [e0];
    EntriesOnSnoc([], e0, KeyOf(e0));
    EntriesOnSnoc([e0], e1, KeyOf(e0));
    EntriesOnSnoc([], e0, KeyOf(e1));
    EntriesOnSnoc([e0], e1, KeyOf(e1));
  }

  /** Two entries on different dates become two days, each represented by its entry. */
  lemma TwoDatesTwoDays<P>(e0: Entry<P>, e1: Entry<P>)
    requires KeyOf(e0) != KeyOf(e1)
    ensures Summarize([e0, e1]) == [Day(KeyOf(e0), e0), Day(KeyOf(e1), e1)]
  {
    var es := [e0, e1];
    TwoDatesKeys(e0, e1);
    TwoDatesBuckets(e0, e1);
    assert Truncate(es) == es;
    var days := Summarize(es);
    assert |days| == 2;
    assert days[0] == Day(KeyOf(e0), Representative([e0])) == Day(KeyOf(e0), e0);
    assert days[1] == Day(KeyOf(e1), Representative([e1])) == Day(KeyOf(e1), e1);
    assert days == [days[0], days[1]];
  }

  /** The sample timestamps key to two different dates. */
  lemma DemoDateKeys()
    ensures DateKey("2024-09-22 12:00:00") == "2024-09-22"
    ensures DateKey("2024-09-23 12:00:00") == "2024-09-23"
    ensures "2024-09-22" != "2024-09-23"
  {
    assert "2024-09-22 12:00:00" == "2024-09-22" + " " + "12:00:00";
    assert "2024-09-23 12:00:00" == "2024-09-23" + " " + "12:00:00";
    DateKeyOfTimestamp("2024-09-22", "12:00:00");
    DateKeyOfTimestamp("2024-09-23", "12:00:00");
    assert "2024-09-22"[9] != "2024-09-23"[9];
  }

  /** The sample forecast summarises to its two entries, each representing its own day. */
  lemma DemoForecastSummary(city: string, title: string -> string)
    ensures var es := DemoForecast(city, title).entries;
      Summarize(es) == [Day("2024-09-22", es[0]), Day("2024-09-23", es[1])]
  {
    var es := DemoForecast(city, title).entries;
    DemoDateKeys();
    assert KeyOf(es[0]) == "2024-09-22" && KeyOf(es[1]) == "2024-09-23";
    assert es == [es[0], es[1]];
    TwoDatesTwoDays(es[0], es[1]);
  }

  /** Without a credential the forecast shows exactly the two sample days, in order,
      each represented by its single midday entry. */
  lemma DemoForecastReport(
    key: Option<string>, city: string, units: string, days: int,
    weekday: string -> string, title: string -> string,
    fetch: Request -> Transport<ForecastData>)
    requires !HasKey(key)
    ensures var out := FormatForecast(GetForecast(key, city, units, days, title, fetch), units, weekday, title);
      && out.Report?
      && out.view.demoNote
      && |out.view.days| == 2
      && out.view.days[0].date == "2024-09-22" && out.view.days[0].temp == 25.0
      && out.view.days[0].humidity == 60
      && out.view.days[1].date == "2024-09-23" && out.view.days[1].temp == 23.0
      && out.view.days[1].humidity == 70
  {
    DemoForecastSummary(city, title);
  }

  /** A failed live request reaches the user as one error line that ends with the
      exception text. */
  lemma FailedRequestReport(
    key: Option<string>, city: string, units: string, title: string -> string,
    fetch: Request -> Transport<Observation>, reason: string)
    requires HasKey(key)
    requires fetch(CurrentRequest(key.value, city, units)) == RequestFailed(reason)
    ensures var out := FormatCurrentWeather(GetCurrentWeather(key, city, units, title, fetch), units, title);
      && out == ErrorText(ErrorPrefix + FailurePrefix + reason)
      && out.text[|out.text| - |reason|..] == reason
  {
  }

  /** An empty entry list renders the header and no day blocks. */
  lemma EmptyForecastHasNoBlocks(
    data: ForecastData, units: string, weekday: string -> string, title: string -> string)
    requires data.entries == []
    ensures FormatForecast(Fetched(data), units, weekday, title) ==
            Report(ForecastView(data.cityName, data.country, data.demo, []))
  {
  }
}
