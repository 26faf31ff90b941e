# Weather CLI: forecast summarising, in Dafny

A Dafny model of the logic inside the `WeatherCLI` class of `weather_cli.py`. The
class fetches current weather or a forecast for a city, either from the
OpenWeatherMap API or, when no API key is configured, from fixed sample records.
It then formats the result for the terminal.

The heart of the model is the summarising rule of `format_forecast`:

- keep the first 40 forecast entries;
- bucket them by date, the part of `dt_txt` before the first space;
- keep buckets in first-seen order and entries in original order inside a bucket;
- render at most the first 5 buckets;
- represent each bucket by its first entry whose `dt_txt` contains `12:00:00`, or
  by its first entry when none does.

Around it the model covers:

- the error short-circuit shared by both formatters;
- the choice of unit suffixes;
- how the API key is resolved;
- the switch between demo mode and a live request;
- the request each fetch issues, including `cnt = days * 8`.

Files (one module each):

- `basics.dfy`: `Option` and `Min`.
- `text.dfy`: `DateKey` (`s.split(' ')[0]`) and `Contains` (Python's `t in s`).
- `grouping.dfy`: entries, buckets and the summarising rule. It has two
  independent reference definitions, the distinct keys in first-seen order and
  one date's entries in original order. Lemmas relate them to the grouping loop.
- `records.dfy`: the current-weather and forecast records, and the
  "record or `'error'`" response.
- `adapter.dfy`: API-key resolution, the sample records, the requests, and
  `get_current_weather` / `get_forecast`.
- `formatter.dfy`: `format_current_weather` and `format_forecast`. Each returns a
  structured view (one field per rendered value) or the error line.
- `scenarios.dfy`: properties of whole runs, fetch followed by format, and the
  grouping facts about two entries on different dates that they rest on.

External behaviour becomes a parameter:

- the HTTP exchange is `fetch: Request -> Transport<T>`, giving a decoded body or
  the text of the raised exception;
- `str.title` is `title: string -> string`;
- the weekday name of a date is `weekday: string -> string`.

Three places where the code does something narrower or wider than its own comments
and interface suggest; the model follows the code:

- **Midday test.** The comment at `weather_cli.py:169` speaks of the "midday
  forecast". Line 170 tests whether `dt_txt` *contains* the substring `'12:00:00'`,
  and `IsMidday` uses substring search.
- **Units.** `argparse` limits `--units` to `metric` or `imperial`
  (`weather_cli.py:200`). The formatters test only `units == 'metric'`
  (`weather_cli.py:130-131`, `152`), so every other string gets `°F` / `mph`.
- **API key.** `api_key or os.getenv(...)` followed by `if not self.api_key` treats
  an empty key like a missing one (`HasKey`).

## Model

| member | source | states |
|---|---|---|
| Text.DateKey | weather_cli.py:163 | The date key is a prefix of `dt_txt`, holds no space, and is followed by a space or the end of the string. |
| Text.DateKeyUnique | weather_cli.py:163 | Any prefix with those three properties is the date key, so they define `split(' ')[0]` exactly. |
| Text.DateKeyOfTimestamp | weather_cli.py:163 | A timestamp `date + " " + time` with a space-free date has that date as its key. |
| Text.Contains | weather_cli.py:170 | `t in s` holds exactly when some window of `s` equals `t`. |
| Grouping.Truncate | weather_cli.py:162 | The kept entries are the first `min(40, n)` entries, in order. |
| Grouping.DistinctKeys | weather_cli.py:161-166 | The bucket keys are exactly the date keys that occur among the entries, each once. |
| Grouping.EntriesOn | weather_cli.py:164-166 | A date's entries are entries of the list with that key, and every entry with that key is among them. |
| Grouping.EntriesOnNonEmpty | weather_cli.py:164-166 | A date has at least one entry exactly when it is a bucket key, so no bucket is empty. |
| Grouping.FirstIndex | weather_cli.py:164 | The position where a date is first seen: that entry has the key and no earlier entry does. |
| Grouping.KeysInEncounterOrder | weather_cli.py:161-168 | Bucket keys are ordered by the position of each date's first entry (dict insertion order). |
| Grouping.AddNewDate | weather_cli.py:164-166 | An entry whose date has no bucket yet adds one bucket, at the end, holding just that entry. |
| Grouping.AddKnownDate | weather_cli.py:164 | An entry whose date already has a bucket adds no bucket. |
| Grouping.AddUpdatesOwnDate | weather_cli.py:164-166 | With distinct bucket dates, one loop step appends the entry to its own date's bucket and leaves every other bucket as it was, in place. |
| Grouping.AddExtendsGroup | weather_cli.py:161-166 | One loop step turns the grouping of a prefix into the grouping of the prefix extended by one entry. |
| Grouping.AddExtendsKnownDate | weather_cli.py:164-166 | The same step for an entry whose date is already a key: the keys stay, and only that date's entries grow. |
| Grouping.AddExtendsNewDate | weather_cli.py:164-166 | The same step for an entry with an unseen date: its date becomes the last key, holding just that entry. |
| Grouping.Group | weather_cli.py:161-166 | After the loop, bucket `i` has the `i`-th first-seen date. It holds exactly that date's entries, in original order. |
| Grouping.AddKeepsEntries | weather_cli.py:164-166 | One loop step adds exactly the new entry to the buckets' contents. |
| Grouping.GroupIsPermutation | weather_cli.py:161-166 | The buckets together are a permutation of the grouped entries. |
| Grouping.GroupPartition | weather_cli.py:161-170 | Keys are distinct and buckets non-empty. Every entry lies in the bucket of its own date, and every member of a bucket is a grouped entry with that date. |
| Grouping.Cap | weather_cli.py:168 | The rendered buckets are the first `min(5, number of buckets)` buckets. |
| Grouping.ShownBuckets | weather_cli.py:161-168 | The rendered buckets are the first `min(5, distinct dates)` dates in first-seen order. Each holds that date's entries and is non-empty. |
| Grouping.MiddayIndex | weather_cli.py:170 | Finds the first entry whose timestamp contains `12:00:00`, or reports that none does. |
| Grouping.Representative | weather_cli.py:170 | The chosen entry belongs to the bucket. It is the earliest midday entry if there is one, and the bucket's first entry otherwise. |
| Grouping.Summarize | weather_cli.py:161-170 | Gives `min(5, distinct dates among the first 40)` days. Day `i` has the `i`-th first-seen date and that date's representative. |
| Grouping.TailBeyondCapIgnored | weather_cli.py:162 | Entries after the 40th never change the rendered days. |
| Grouping.RepresentativeOfDate | weather_cli.py:168-170 | A date's representative is one of the entries and carries that date. |
| Grouping.KeyPairInEncounterOrder | weather_cli.py:161-168 | Of two bucket keys, the earlier one's first entry comes first in the list. |
| Grouping.DaysInEncounterOrder | weather_cli.py:161-168 | Rendered days have distinct dates, ordered by each date's first appearance. |
| Grouping.DistinctKeysSnoc | weather_cli.py:164-165 | A new entry adds its date at the end of the keys exactly when that date is unseen. |
| Grouping.EntriesOnSnoc | weather_cli.py:166 | A new entry is appended to its own date's entries and to no other date's. |
| Grouping.FirstIndexExtend | weather_cli.py:164 | Appending an entry does not move the first occurrence of a date already seen. |
| Grouping.FirstIndexOfNewKey | weather_cli.py:164-165 | An unseen date is first seen at the appended entry. |
| Grouping.EntriesOnFirst | weather_cli.py:164-170 | A bucket's first entry (`forecasts[0]`) is the first entry of the list with that date. |
| Grouping.FallbackIsFirstOfDate | weather_cli.py:170 | If no entry of a date contains `12:00:00`, the date is represented by its first entry in the list. |
| Grouping.MiddayPreferred | weather_cli.py:170 | If some entry of a date contains `12:00:00`, the date is represented by such an entry. |
| Adapter.ResolveKeyChoosesFlagFirst | weather_cli.py:16-19 | There is a usable key exactly when the flag or the environment gives a non-empty one. A usable flag wins over the environment. |
| Adapter.ForecastRequest | weather_cli.py:48-54 | The forecast query sends the city, key and units and asks for `days * 8` entries. |
| Adapter.GetCurrentWeather | weather_cli.py:24-41 | Without a key: the sample record of lines 65-87 (every field the model keeps), flagged as demo and named after the city. With a key: the fetched body, or an error carrying `API request failed: ` and the exception text. |
| Adapter.GetForecast | weather_cli.py:43-61 | Without a key: the sample forecast of lines 91-123 (every field the model keeps), with its two entries. With a key: the same as above, for the `days * 8` query. |
| Adapter.DemoModeIgnoresNetwork | weather_cli.py:24-46 | Without a key, results do not depend on the network, the units or the day count. |
| Adapter.LiveFailureIsNotMasked | weather_cli.py:45-61 | With a key, a failed request gives an error result, never sample data. |
| Adapter.DefaultRequestFillsTruncation | weather_cli.py:43-53 | The default 5-day request asks for exactly as many entries as the formatter keeps (40). |
| Formatter.LabelsFollowUnits | weather_cli.py:130-131 | `°C` and `m/s` exactly when units is `metric`; `°F` and `mph` for every other value. |
| Formatter.FormatCurrentWeather | weather_cli.py:125-145 | An error gives exactly `❌ Error: ` plus the message. Otherwise every value the report shows is the record's own, unchanged, with the description title-cased. The suffixes are `°C` / `m/s` for `metric` and `°F` / `mph` for any other units. The demo note appears exactly for demo records. |
| Formatter.FormatForecast | weather_cli.py:147-182 | An error gives exactly `❌ Error: ` plus the message. Otherwise block `i` shows the `i`-th first-seen date among the first 40 entries, its weekday, and its representative's temperature, humidity and title-cased description. The suffix is `°C` for `metric` and `°F` otherwise. There are at most 5 blocks. |
| Formatter.ErrorShortCircuit | weather_cli.py:127-150 | An error response gives one error line regardless of units, weekday naming or title-casing. Removing the prefix gives back the message. |
| Formatter.UnitsOnlyRelabel | weather_cli.py:152-179 | Switching units changes only the temperature suffix of a forecast: same header, same blocks, same numbers. |
| Formatter.CurrentUnitsOnlyRelabel | weather_cli.py:130-142 | Switching units changes only the two suffixes of the current-weather report. |
| Scenarios.DemoCurrentReport | weather_cli.py:63-87 | In demo mode the metric report shows the title-cased city, country DEMO, 22.5 °C, 65 % humidity and the demo note. |
| Scenarios.TwoDatesKeys | weather_cli.py:161-166 | Two entries on different dates give exactly those two keys, in order. |
| Scenarios.TwoDatesBuckets | weather_cli.py:161-166 | Two entries on different dates each form a bucket of their own. |
| Scenarios.TwoDatesTwoDays | weather_cli.py:161-170 | Two entries on different dates render as two days, each shown by its own entry. |
| Scenarios.DemoDateKeys | weather_cli.py:107-119 | The sample timestamps have the dates 2024-09-22 and 2024-09-23, which differ. |
| Scenarios.DemoForecastSummary | weather_cli.py:89-123 | The sample forecast summarises to its two entries as the days 2024-09-22 and 2024-09-23. |
| Scenarios.DemoForecastReport | weather_cli.py:89-123 | The demo forecast renders exactly two blocks with the sample temperatures and humidities, and carries the demo note. |
| Scenarios.FailedRequestReport | weather_cli.py:36-41 | A failed live request renders as one error line ending with the exception text. |
| Scenarios.EmptyForecastHasNoBlocks | weather_cli.py:155-168 | An empty entry list renders the header and no day blocks. |

## Left out

- HTTP transport (`requests.get`, `raise_for_status`, JSON decoding, the 10-second timeout): network I/O through a library. It is the `fetch` parameter. The request carries the timeout value, but timing is not modelled.
- Malformed responses (a missing `'main'`, `'weather'` or `'list'` key raising `KeyError`, caught in `main`): records are typed, so every required field is present.
- `argparse`, `os.getenv`, the constructor's warning prints, and `main`'s exception handling and exit codes: plumbing and side effects. The environment value is a parameter of `ResolveKey`.
- Weekday computation (`datetime.strptime` / `strftime('%A')`): a calendar library computation. It is the `weekday` parameter. An unparsable date, which would raise in the source, is not modelled.
- `str.title()`: Unicode-dependent library behaviour. It is the `title` parameter.
- Exact text layout (emoji, rulers, line breaks, the `'N/A'` placeholders, `str()` of floats): cosmetic. The views keep each rendered value as a field, and optional fields stay `Option`.
- Temperatures and wind speeds are Dafny `real` values carried through unchanged. Floating-point behaviour is not modelled, and no arithmetic is done on them.
- Adapter.GetCurrentWeather / Adapter.GetForecast: the sample records drop `'icon': '01d'` (`weather_cli.py:76`) and the two `'dt'` values (`weather_cli.py:98`, `110`), because no formatter reads them. Every other field of the sample data is kept.
