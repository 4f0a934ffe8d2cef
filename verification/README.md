# Met Éireann weather forecast — a Dafny model of the forecast pipeline

`get_weather_forecast` in `meteireannweatherforcast.py` does the following:

1. It fetches the Met Éireann location forecast for the current UTC day.
2. It folds the `time` elements of the XML answer into a dictionary keyed by each element's `from` attribute.
3. It writes that dictionary to a text report.

This project models the three pure pieces of that function and proves what they guarantee.

- **The day window** (module `DayWindow`). The request runs from midnight UTC of the current instant to one second before the next midnight. Instants are integer microseconds since the epoch, the resolution of Python's `datetime`, and lie in its range, 0001-01-01 to 9999-12-31. On 9999-12-31, adding a day to midnight leaves that range and the script stops with an `OverflowError`. The model returns no window there.
- **The aggregation fold** (module `Aggregation`).
  - The `time` elements are records. `Elements.TimeElement` holds `from`, `to`, and the first `temperature`, `precipitation`, `humidity` and `windSpeed` descendant, each optional.
  - The fold builds an insertion-ordered dictionary: `Table`, a key sequence plus a map.
  - A new key gets the element's `to` and four nulls.
  - Every measurement an element carries overwrites its field as formatted text.
  - `to` is never updated.
  - The result is also described independently of the fold:
    - the keys are the distinct `from` values, in first-occurrence order;
    - each `to` comes from the first element with that `from`;
    - a field is null exactly when no element for the key carries it;
    - otherwise the field holds the last such element's text.
- **The report** (module `Report`). The report is a sequence of lines, one per `write` call, without the trailing newline:
  - the title `Weather forecast for <date>`;
  - forty `=`;
  - then one block per key, in insertion order.

  A block is `From <from> to <to>:`, then one two-space-indented line per non-null field in the order Temperature, Precipitation, Humidity, Wind Speed, then an empty line.
- **End to end** (module `Forecast`): the report of the fold of the elements.

Attributes read with `Element.get` may be absent. An absent attribute is `None`, and the f-strings render it as `None`. The model therefore keeps every attribute as `Option<string>`, and `Elements.Show` renders `None` as `"None"`. A missing `from` is a key like any other, as it is for a Python dictionary.

## Model

| member | source | states |
|---|---|---|
| Elements.Show | meteireannweatherforcast.py:63 | An attribute as an f-string renders it: its text when present, `None` when absent. |
| Elements.FormatValueUnit | meteireannweatherforcast.py:63 | The temperature or precipitation text: the `value` attribute, one space, the `unit` attribute. |
| Elements.FormatPercent | meteireannweatherforcast.py:71 | The humidity text: the `value` attribute followed by ` %`. |
| Elements.FormatSpeed | meteireannweatherforcast.py:75-76 | The wind speed text: the `mps` attribute followed by ` m/s`. |
| Elements.Contribution | meteireannweatherforcast.py:61-76 | What one element writes into a field: the formatted text of that measurement when the element has it, nothing otherwise. |
| Elements.ValueUnitRoundTrip | meteireannweatherforcast.py:61-67 | The temperature and precipitation text is value, one space, unit. When the unit has no space, splitting at the last space gives back exactly the value and the unit. |
| Elements.PercentRoundTrip | meteireannweatherforcast.py:69-71 | The humidity text is the value followed by `" %"`; stripping that suffix gives back the value. |
| Elements.SpeedRoundTrip | meteireannweatherforcast.py:73-76 | The wind speed text is the `mps` value followed by `" m/s"`; stripping that suffix gives back the value. |
| Aggregation.NewReading | meteireannweatherforcast.py:58-59 | A newly created entry has the element's `to` and all four fields null. |
| Aggregation.Merge | meteireannweatherforcast.py:61-76 | `to` is kept. A field the element carries becomes that element's formatted text; any other field keeps its value. |
| Aggregation.Step | meteireannweatherforcast.py:57-76 | One loop pass keeps the dictionary well formed. The element's key is present afterwards. The key list is unchanged for a known key and gets the new key appended otherwise. Every other entry is unchanged. `to` is taken only when the entry is created. Each field is the element's text if it carries one, else the old value, or null for a new entry. |
| Aggregation.Aggregate | meteireannweatherforcast.py:44-76 | The fold over all elements yields a well-formed dictionary: distinct keys, listed exactly once each. |
| Aggregation.CollectReadings | meteireannweatherforcast.py:44-76 | The loop, written as a loop, computes the same dictionary as the fold. |
| Aggregation.FirstIndex | meteireannweatherforcast.py:47-58 | The first element whose `from` is a given key; no earlier element has that `from`. |
| Aggregation.AggregateKeySet | meteireannweatherforcast.py:47-59 | A key is in the dictionary exactly when some element has it as its `from`. |
| Aggregation.AggregateKeys | meteireannweatherforcast.py:47-59 | The keys are the occurring `from` values, listed in strictly increasing order of first occurrence. |
| Aggregation.AggregateToTime | meteireannweatherforcast.py:58-59 | Every entry's `to` is the `to` of the first element with its `from`; later elements never change it. |
| Aggregation.AggregateNullFields | meteireannweatherforcast.py:59-76 | A field of an entry is null exactly when no element with that `from` carries the measurement. |
| Aggregation.AggregateLastWrite | meteireannweatherforcast.py:61-76 | A field holds the text of the last element with that `from` that carries the measurement (last write wins). |
| Aggregation.NewEntryAllNull | meteireannweatherforcast.py:58-76 | An element with no measurements, for a new key, creates an entry with its `to` and four nulls. |
| Report.Title | meteireannweatherforcast.py:80 | The first line: `Weather forecast for ` followed by the date text. |
| Report.BlockTitle | meteireannweatherforcast.py:91 | A block's first line: `From `, the key, ` to `, the entry's `to`, `:`, with an absent value shown as `None`. |
| Report.FieldLines | meteireannweatherforcast.py:93-103 | The four conditional writes: for Temperature, Precipitation, Humidity, Wind Speed in turn, one line `  <Label>: <text>` when that field is non-null. |
| Report.Block | meteireannweatherforcast.py:91-105 | One pass of the report loop: the title line, the field lines, then an empty line. |
| Report.Blocks | meteireannweatherforcast.py:84-105 | The report loop over the first `n` keys in insertion order: their blocks, one after another. |
| Report.Repeat | meteireannweatherforcast.py:81 | `c * n` has length `n` and every character is `c`. |
| Report.RuleShape | meteireannweatherforcast.py:81 | The separator line is exactly forty `=` characters. |
| Report.Render | meteireannweatherforcast.py:79-84 | The report starts with the title line and the separator. With an empty dictionary it is exactly those two lines. |
| Report.Present | meteireannweatherforcast.py:93-103 | The fields listed are exactly the non-null ones, in the order Temperature, Precipitation, Humidity, Wind Speed. |
| Report.FieldLinesInOrder | meteireannweatherforcast.py:93-103 | A block's field lines are one per non-null field, in report order. Each line is the field's two-space-indented label followed by its text. |
| Report.BlockLength | meteireannweatherforcast.py:91-105 | A block has two lines plus one per non-null field. |
| Report.BlockShape | meteireannweatherforcast.py:91-105 | A block has `2 + n` lines for `n` non-null fields: the `From … to …:` line, the field lines in order, and an empty line. |
| Report.BlocksLength | meteireannweatherforcast.py:84-105 | The blocks take two lines per key plus one line per non-null field. |
| Report.RenderLength | meteireannweatherforcast.py:79-105 | The whole report is two heading lines plus two lines per key plus one line per non-null field. |
| Report.BlockTitles | meteireannweatherforcast.py:91-105 | Each block contains exactly one title line, its first. |
| Report.BlocksTitles | meteireannweatherforcast.py:84-105 | The title lines of the blocks are the expected titles of the keys, in key order. |
| Report.RenderTitles | meteireannweatherforcast.py:79-105 | The report has exactly one block title per key, in insertion order, naming that key and its `to`. |
| Report.FieldLineRoundTrip | meteireannweatherforcast.py:93-103 | A field line determines both its field and its text. |
| DayWindow.Midnight | meteireannweatherforcast.py:22 | Truncating to midnight gives a multiple of a day that is at most `now` and less than a day before it. |
| DayWindow.ForecastWindow | meteireannweatherforcast.py:21-23 | There is no window exactly when `now` is on 9999-12-31, where adding a day overflows. Otherwise the start is midnight of the day holding `now`, and the end is the start plus a day less one second. The end falls on the same day as the start, and both are representable. |
| DayWindow.MidnightUnique | meteireannweatherforcast.py:22 | Truncating to midnight gives the only midnight in the day-long stretch ending at `now`. |
| DayWindow.LastDayOverflows | meteireannweatherforcast.py:23 | The first and the last instant of 9999-12-31 have no window; the last instant of 9999-12-30 has one. |
| DayWindow.Clock | meteireannweatherforcast.py:26-27 | The `%H:%M:%S` reading of an instant: hour below 24, minute and second below 60. |
| DayWindow.WindowClock | meteireannweatherforcast.py:22-27 | Whenever there is a window, its start reads 00:00:00 and its end reads 23:59:59. |
| Forecast.ForecastReport | meteireannweatherforcast.py:44-105 | The lines written for a report date and the `time` elements: the report of the dictionary the fold builds. |
| Forecast.ReportFollowsInput | meteireannweatherforcast.py:44-105 | The report has one block per distinct `from` value, in first-occurrence order. Each block's title is that `from` and the `to` of its first element. |
| Forecast.EmptyForecast | meteireannweatherforcast.py:44-84 | With no `time` elements the report is exactly the title and the separator. |
| Forecast.RenderOneKey | meteireannweatherforcast.py:79-105 | A dictionary with one key renders as the heading, that key's title, its field lines, and an empty line. |
| Forecast.SingleIntervalExample | meteireannweatherforcast.py:44-105 | Worked example: one interval with 5 celsius and 80 % humidity gives the six expected lines. |
| Forecast.MergeExample | meteireannweatherforcast.py:58-105 | Two elements for the same interval are merged. The first carries only a temperature and the second only a humidity. The result is one block with both lines. |

## Left out

- The HTTP request, the status check and the console messages (lines 33-37, 107-109) are network I/O and output, not logic.
- XML parsing and the `findall`/`find` lookups (lines 41, 47-55) are library calls. The model takes the extracted element records in document order as its input. Each measurement is the first matching descendant, or absent.
- Removing, opening and writing `weather_forecast.txt` (lines 12-15, 79) are file I/O. The report is a sequence of lines, and the newline ending each `write` is left out.
- Reading the clock and `strftime` (lines 21, 26-27, 80) are environment and calendar-library dependent. The current instant is a parameter of `DayWindow`. The report's date text is a parameter of `Report.Render`, so the report functions do not depend on the window. They do not model the stop on 9999-12-31 either; that stop is modelled by `DayWindow.ForecastWindow`. The window's timestamps are not formatted.
- Building the request URL from float coordinates (line 30) depends on float-to-text formatting.
- Line breaks inside attribute values, which would split one written line into several, are not modelled: each `write` is one line.
