# Real-estate query analyser, modelled in Dafny

The application answers questions such as "Wakad" or "compare Wakad, Baner"
against a table of real-estate records. A React page uploads a CSV or Excel
dataset, sends the query to a Django server and shows the result:

- a summary text;
- a price/demand chart per year;
- a preview of the matching rows;
- a CSV download link.

The server finds the locality the query names and filters the rows. It
groups the filtered rows by year, averaging price and summing demand, and
replies with JSON.

This project models the logic of both halves and proves what that logic
promises.

**The page:**

- `App`, the orchestrator, with its
  - session state;
  - request parameters;
  - three-way reply classification;
  - single-slot 250 ms re-run timer.
- `UploadPanel`, the upload status machine.
- `MetricSelector`, the metric picker.
- `ResultsPanel`, which covers
  - the chart and table derivations;
  - the 8-column by 25-row table;
  - the download link;
  - which cards are shown.
- The chart components: `ChartPanel`, `ChartView`, `MultiSeriesLine`,
  `MultiBarChart` and `ScatterGeoChart`. They map props to datasets and
  fill in defaults.

**The server:**

- `backend/analysis/utils.py`:
  - which columns may hold locality names;
  - which locality value a query mentions, longest first;
  - the row filter, with its fallbacks and its `top` cap;
  - the structure of the year aggregation.
- `backend/analysis/views.py`:
  - parameter parsing;
  - the comparison-mode test;
  - the table and its 500-row cap;
  - the upload replies;
  - the download file name.

**Form of the model:**

- The two stateful components are classes whose methods update their
  fields: `App.Analyzer` and `UploadPanel.Uploader`.
- The server's loops are methods with loop invariants:
  - the candidate-column loop;
  - the nested loop that collects values;
  - the longest-first sort and scan;
  - the mask loops;
  - the year-column search.

  Most of these methods are proved equal to a specification function,
  and the lemmas about the behaviour are stated over those functions.
  The sort (`SortByLength`), the first-mention scan (`FirstMentioned`)
  and the locality extraction (`ExtractArea`) walk values collected from
  a set, whose order is not fixed. They are proved against properties
  instead: every value once, longest first; and a value the query
  mentions with no longer mentioned value, or None when none is
  mentioned.
- The components that only compute are functions.
- The module `EndToEnd` connects the halves:
  - the request the page sends is read back by the server exactly as the
    page meant it;
  - a saved upload reaches the upload panel as success, carrying the
    saved path;
  - the served table is what the table card draws.

**Value models:**

- JavaScript values (`JsValues`) cover `undefined`, `null`, booleans,
  integers, strings, arrays and objects. An object is its list of bindings:
  - a read takes the last binding;
  - `Object.keys` lists keys in first-occurrence order;
  - spreading concatenates binding lists.
- A pandas `DataFrame` (`Frames`) is a list of typed, named columns and a
  list of rows. A row maps column names to cells. A cell is missing (`NA`)
  or present, and each carries the text `astype(str)` gives it.
- The network, the file system, the clock and the language model are
  parameters:
  - an `Exchange` is what `fetch` settled to;
  - a loader function reads a dataset;
  - a timestamp `now` stands for the clock;
  - the model's reply is `llm`.

## Model

| member | source | states |
|---|---|---|
| App.RequestParamNames | frontend/src/App.js:21-25 | The request carries exactly `query`, `top` and `use_llm`, plus `file` exactly when `filePath` is truthy. |
| App.Classify | frontend/src/App.js:33-61 | A thrown error shows `e.message` or else `String(e)`. A JSON content type whose body fails to parse shows the parse error's `message` or else `String(e)`. A failed status without JSON shows "Server error (non-JSON): " followed by exactly the first 400 characters of the body, or the whole body when it is shorter. An ok status without JSON shows "Server did not return JSON: " followed by exactly the first 300. A result is loaded exactly for an ok status with a JSON content type and a body that parses, and the result is that body. |
| App.StructuredError | frontend/src/App.js:35-39 | For a failed status with a JSON body: a `null` body makes `j.error` throw, and that TypeError's text is the message. Otherwise the message is the body's `error` when truthy, else `JSON.stringify` of the body. An array, string, number or boolean body has no `error`, so it always gets its JSON text. An object body's text starts with "{". |
| App.FailureIsVisible | frontend/src/App.js:35-58 | A failure's message is falsy only when the exception's `message` and its `String(e)` are both empty. |
| App.OutcomeExclusive | frontend/src/App.js:55-61 | A completed run never leaves both a truthy result and a truthy error. |
| App.Analyzer.constructor | frontend/src/App.js:8-13 | Initial state: no file, empty query, LLM off, not loading, no result, error "", no timer, and the class invariant holds. |
| App.Analyzer.SetQuery | frontend/src/App.js:84-86 | Typing stores the query and changes nothing else; in particular no re-run is scheduled, because the effect depends on `filePath` alone (line 72). |
| App.Analyzer.ToggleLLM | frontend/src/App.js:90 | The switch flips `useLLM` and changes nothing else; no re-run is scheduled. |
| App.Analyzer.Start | frontend/src/App.js:16-25 | Before the request is issued: `errorMsg` is "", `loading` is true, `result` is null, and the request is the parameter list for the run's query, LLM flag and path; nothing else changes. |
| App.Analyzer.Complete | frontend/src/App.js:33-61 | Every completion ends with `loading` false (the `finally`), `result` and `errorMsg` as the classified outcome leaves them, the invariant restored and the other fields unchanged. |
| App.Analyzer.Analyze | frontend/src/App.js:16-61 | A manual run sends the override query or else the stored one, with the stored LLM flag and path; the stored query is not changed; the new result and error are those of the server's reply. |
| App.Analyzer.SetFilePath | frontend/src/App.js:65-72 | A path equal by `Object.is` triggers nothing. A new path clears the pending timer and schedules a re-run 250 later only when the path is truthy and the query is non-empty, so at most one timer is pending. |
| App.Analyzer.Tick | frontend/src/App.js:65-70 | A due timer fires exactly once, with the query, flag and path its closure captured, and is then gone; otherwise nothing changes. |
| UploadPanel.UploadOutcome | frontend/src/components/UploadPanel.js:19-46 | A caught error shows its message or `String(err)`. A failed status shows "Upload failed: " followed by the whole body. An ok non-JSON reply shows "Upload response (non-json): " followed by exactly the first 200 characters, or the whole body when it is shorter. `onUpload` is called exactly for an ok JSON reply with a truthy `path`, with that path, and then the status is "Upload successful.". |
| UploadPanel.NoPathReported | frontend/src/components/UploadPanel.js:32-39 | A JSON reply without a truthy `path` shows "Upload succeeded (no path returned)." and calls nothing. |
| UploadPanel.SuccessStyleMeansPath | frontend/src/components/UploadPanel.js:70-72 | Unless an exception's own text is shown, the status is styled as success exactly when `onUpload` received a path, so the "no path returned" message is styled as an error; every settled status is shown. |
| UploadPanel.Uploader.constructor | frontend/src/components/UploadPanel.js:4-5 | No file and an empty status. |
| UploadPanel.Uploader.HandleFile | frontend/src/components/UploadPanel.js:7-11 | Choosing stores the first selected file (none for an empty selection) and resets the status to "". |
| UploadPanel.Uploader.BeginUpload | frontend/src/components/UploadPanel.js:13-18 | Without a file the status is "Please choose a file first." and nothing is sent; with one the status is "uploading" and that file is sent. |
| UploadPanel.Uploader.FinishUpload | frontend/src/components/UploadPanel.js:19-46 | The status and the `onUpload` argument are those of the settled reply; the file is kept. |
| UploadPanel.Uploader.Upload | frontend/src/components/UploadPanel.js:13-47 | The whole button: no request without a file; otherwise the server's reply decides the status and the callback, and a callback only ever receives a truthy path, after "Upload successful.". |
| UploadPanel.Uploader.Clear | frontend/src/components/UploadPanel.js:49-52 | The file is forgotten, the status is "" and `onUpload(null)` is called. |
| MetricSelector.Current | frontend/src/components/MetricSelector.js:12 | Missing value or fields default to `[]`, "multi-line" and "year". |
| MetricSelector.CurrentOfPayload | frontend/src/components/MetricSelector.js:12-17 | A payload fed back as the `value` prop is read back unchanged. |
| MetricSelector.Toggle | frontend/src/components/MetricSelector.js:14-16 | An absent key is appended at the end; a present key loses every occurrence and the other keys keep their multiplicities; membership flips for the key only. |
| MetricSelector.FilterOtherMultiset | frontend/src/components/MetricSelector.js:16 | Filtering out a key removes all its occurrences and keeps every other element as often as before. |
| MetricSelector.ToggleKeepsOrder | frontend/src/components/MetricSelector.js:16 | Removal keeps the relative order of the other keys. |
| MetricSelector.ToggleTwiceAbsent | frontend/src/components/MetricSelector.js:15-16 | Toggling an absent key twice restores the list. |
| MetricSelector.ToggleTwicePresent | frontend/src/components/MetricSelector.js:15-16 | Toggling a present key twice gives the other keys in order followed by the key once. |
| MetricSelector.ToggleTwiceReorders | frontend/src/components/MetricSelector.js:15-16 | So a double toggle of a key that is not last moves it to the end: `["area","price"]` becomes `["price","area"]`. |
| MetricSelector.ToggleMetric | frontend/src/components/MetricSelector.js:14-18 | The checkbox payload changes only the metric list; chart type and aggregation pass through. |
| MetricSelector.ChooseChartType | frontend/src/components/MetricSelector.js:43-45 | A chart-type button changes only `chartType`, to one of "multi-line", "multi-bar", "geo", namely its own. |
| MetricSelector.OneActiveButton | frontend/src/components/MetricSelector.js:43-45 | At most one chart-type button is highlighted. |
| MetricSelector.SelectAggregate | frontend/src/components/MetricSelector.js:51 | The select changes only `aggregateBy`, to the chosen value. |
| MetricSelector.Checkboxes | frontend/src/components/MetricSelector.js:26-35 | One checkbox per numeric column, in order, with id `m-<key>`, checked exactly when its key is selected, captioned by its label or else its key. |
| MetricSelector.ToggleFlipsOnlyItsBox | frontend/src/components/MetricSelector.js:32-33 | Clicking a checkbox flips that box and no box with another key. |
| ResultsPanel.ChartDataOf | frontend/src/components/ResultsPanel.js:6-15 | No chart data without a truthy result and `chart`; otherwise labels, price and demand are the result's arrays when truthy and never falsy (the `[]` default), and the column names are copied. |
| ResultsPanel.ChartDrawsResultArrays | frontend/src/components/ResultsPanel.js:57-61 | The line chart draws exactly the chart data's labels, price and demand: its own `= []` defaults never apply. |
| ResultsPanel.TableRows | frontend/src/components/ResultsPanel.js:17-20 | The rows are `[]` or the result's `table`, and the table card is shown exactly when there is a result whose own `table` would show one. |
| ResultsPanel.NoResultNoTable | frontend/src/components/ResultsPanel.js:17-20 | Before a result arrives the table card is absent. |
| ResultsPanel.NullishCellIsBlank | frontend/src/components/ResultsPanel.js:77 | A `null` or `undefined` cell renders as "". |
| ResultsPanel.TableView | frontend/src/components/ResultsPanel.js:64-82 | There is no card exactly when `tableRows && tableRows.length > 0` fails. The render throws exactly when the guard passes but the table is not an array, its first row is `null` or `undefined`, or a drawn row is nullish while the header has a key. An array of objects always gets a card. In a card: the title counts all rows; the header is the first at most 8 keys of the first row (indices for a string or array), without repeats; at most 25 body rows, each cell read under the header's key; the "Showing first 25 rows." note exactly when there are more than 25. |
| ResultsPanel.NonRecordTablesThrow | frontend/src/components/ResultsPanel.js:64-77 | A non-empty string table, a table whose first row is `null`, and a table with a `null` row under a header all end the render with an error. |
| ResultsPanel.HrefCarriesFileIffPath | frontend/src/components/ResultsPanel.js:46 | The link always starts with the encoded query and contains `&file=` exactly when `filePath` is truthy. |
| ResultsPanel.FileParam | frontend/src/components/ResultsPanel.js:46 | A dataset path is carried exactly when `filePath` is truthy. |
| ResultsPanel.HrefFields | frontend/src/components/ResultsPanel.js:46 | Splitting the link's query string on `&` gives back the encoded `query=` field and, only with a path, the encoded `file=` field. |
| ResultsPanel.OneStatusCard | frontend/src/components/ResultsPanel.js:24-38 | Between events exactly one of the error card, the "No results yet" card and the summary card is shown. |
| ScatterGeoChart.Datasets | frontend/src/components/ScatterGeoChart.js:11-21 | The render throws exactly when some point is `null` or `undefined` (`p.x` on it). Otherwise: one dataset titled by `title` (default "Geo scatter"); one point and one colour per input point, in order; `x` and `y` copied; radius `p.r` when truthy else 6; colour `p.color` when truthy else "rgba(255,99,132,0.6)". |
| ScatterGeoChart.ZeroRadiusBecomesDefault | frontend/src/components/ScatterGeoChart.js:17 | A point with radius 0 is drawn, with radius 6. |
| ScatterGeoChart.TooltipShape | frontend/src/components/ScatterGeoChart.js:26-30 | The tooltip is "label (y, x) : value", latitude first. |
| ScatterGeoChart.TooltipOfNothing | frontend/src/components/ScatterGeoChart.js:27-29 | A missing point gives "" for the label and value and "undefined" for the coordinates. |
| MultiSeriesLine.Build | frontend/src/components/MultiSeriesLine.js:12-26 | The render throws exactly when some series is `null` or `undefined` (`s.label` on it). Otherwise: labels default to `[]`; one dataset per series, in order, with the label and colours copied, `data` defaulting to `[]` and `yAxisID` to "y"; no series gives no datasets. |
| MultiSeriesLine.Options | frontend/src/components/MultiSeriesLine.js:28-44 | The options are an object, except for a `null` options prop, where reading `options.title` throws. |
| MultiSeriesLine.CallerKeysOverride | frontend/src/components/MultiSeriesLine.js:43 | Every top-level key the caller gives wins; every other key keeps its computed value. |
| MultiSeriesLine.ComputedReads | frontend/src/components/MultiSeriesLine.js:36-41 | The computed title is displayed exactly for a truthy `title`, the x axis is titled `xLabel` or else "Period", the right axis is displayed exactly for a truthy `includeRightAxis`. |
| MultiSeriesLine.TitleShownIffGiven | frontend/src/components/MultiSeriesLine.js:36 | Unless the caller replaces `plugins`, the chart title is displayed exactly when `options.title` is truthy. |
| MultiSeriesLine.ScalesFollowOptions | frontend/src/components/MultiSeriesLine.js:38-41 | Unless the caller replaces `scales`, the x title defaults to "Period" and the right axis shows exactly for a truthy `includeRightAxis`. |
| MultiSeriesLine.DefaultOptions | frontend/src/components/MultiSeriesLine.js:12 | Without options: x titled "Period", no title, no right axis. |
| MultiBarChart.Build | frontend/src/components/MultiBarChart.js:11-20 | The render throws exactly when some series is `null` or `undefined` (`s.label` on it). Otherwise: labels default to `[]`; one dataset per series, in order, with `label` and `backgroundColor` copied, `data` defaulting to `[]` and `borderWidth` 1. |
| MultiBarChart.SeriesOrderKept | frontend/src/components/MultiBarChart.js:14-19 | Concatenated series throw exactly when one of the parts does; otherwise their datasets are the concatenated datasets. |
| ChartPanel.Render | frontend/src/components/ChartPanel.js:28-53 | "No chart data" exactly for a falsy chart, falsy labels or empty labels; otherwise the labels as given and two datasets, "Average Price" on "y" then "Demand" on "y1", with `price`/`demand` defaulting to `[]`. |
| ChartPanel.DatasetsOnTitledAxes | frontend/src/components/ChartPanel.js:35-81 | The x, y and y1 scales have distinct ids, and each dataset is drawn on a declared axis titled with the dataset's own caption. |
| ChartPanel.GuardCases | frontend/src/components/ChartPanel.js:29-31 | A chart without labels and one with empty labels show the note; one with a label draws. |
| ChartPanel.MismatchedLengthsPassThrough | frontend/src/components/ChartPanel.js:33-53 | Labels and series of different lengths are drawn as given. |
| ChartView.OrEmpty | frontend/src/components/ChartView.js:17 | The `= []` default replaces `undefined` only. |
| ChartView.Build | frontend/src/components/ChartView.js:17-44 | Exactly two datasets, "Price" on "y" then "Demand" on "y1"; labels, price and demand passed through (defaulting to `[]` when undefined). |
| ChartView.DatasetsOnOwnAxes | frontend/src/components/ChartView.js:21-71 | The y and y1 scales have distinct ids, and the datasets sit on two different declared axes, displayed left and right. |
| ChartView.NoLengthCheck | frontend/src/components/ChartView.js:20-34 | Arrays of different lengths, and even `null`, pass through unpadded and unchecked. |
| JsValues.Or | frontend/src/components/ResultsPanel.js:9-11 | `a \|\| b` is one of its operands and is truthy exactly when either operand is. |
| JsValues.Coalesce | frontend/src/components/ResultsPanel.js:77 | `a ?? b` is one of its operands and is nullish exactly when both are. It agrees with `a \|\| b` on a truthy `a` and, unlike `\|\|`, keeps a falsy non-nullish `a` such as `0` or `""`. |
| JsValues.KeysOfExact | frontend/src/components/ResultsPanel.js:71 | `Object.keys` lists every bound key exactly once. |
| JsValues.SpreadGet | frontend/src/components/MultiSeriesLine.js:28-44 | In `{...a, ...b}` a key bound by `b` reads `b`'s value, any other key `a`'s. |
| JsValues.Stringify | frontend/src/App.js:39 | `JSON.stringify` of a parsed value is non-empty and starts with "{" exactly for an object, "[" for an array, `"` for a string. |
| Http.Describe | frontend/src/App.js:58 | `e.message \|\| String(e)` is the message or the text, the message whenever it is non-empty, and is empty exactly when both are. |
| Uri.EncodeURIComponent | frontend/src/components/ResultsPanel.js:46 | The encoding uses only unreserved characters and `%XY` escapes. |
| Uri.EncodeUnreserved | frontend/src/components/ResultsPanel.js:46 | Unreserved text passes through unchanged. |
| Uri.DecodeEncode | frontend/src/components/ResultsPanel.js:46 | Percent-decoding the encoding gives exactly the text's UTF-8 bytes. |
| Text.Lower | backend/analysis/utils.py:54 | Lower-casing keeps the length and folds each character. |
| Text.LowerIdempotent | backend/analysis/utils.py:86 | Lower-casing twice is lower-casing once. |
| Text.ContainsIff | backend/analysis/utils.py:86 | The substring test holds exactly when the needle occurs at some position. |
| Text.StripShape | backend/analysis/utils.py:78-79 | `strip()` removes the surrounding whitespace and nothing else. |
| Text.StripEmptyIff | backend/analysis/utils.py:99-100 | `strip()` is empty exactly for an all-whitespace string. |
| Text.StripIdempotent | backend/analysis/utils.py:78-79 | Stripping a stripped string changes nothing. |
| Text.JoinSplit | backend/analysis/views.py:107 | `split(",")` loses nothing: joining the parts gives the string back. |
| Text.SplitAtSep | backend/analysis/views.py:107 | Splitting at the first comma puts the part before it first. |
| Text.ParseIntToString | backend/analysis/views.py:57 | `int(str(n)) == n`. |
| Text.Take | frontend/src/components/ResultsPanel.js:71 | `slice(0, n)` is the prefix of length `min(n, length)`. |
| Text.PreviewIsTake | frontend/src/App.js:42-50 | A preview is exactly the prefix followed by `t.slice(0, n)`. |
| Seqs.FilterMembership | backend/analysis/utils.py:59 | A comprehension with a test keeps exactly the elements passing it. |
| Seqs.FilterConcat | frontend/src/components/MetricSelector.js:16 | Filtering distributes over concatenation. |
| Frames.Names | backend/analysis/utils.py:53 | The names are the columns' names, in order. |
| Frames.Head | backend/analysis/utils.py:101 | `head(n)` is a prefix: the first `n` rows, or for negative `n` all but the last `-n`. |
| Frames.HeadIdempotent | backend/analysis/utils.py:135 | The final `head(top)` after `head(top)` changes nothing for `top >= 0`. |
| Frames.HeadNegativeTwice | backend/analysis/utils.py:135 | For negative `top` the second `head` drops another `-top` rows. |
| Frames.WithoutRows | backend/analysis/utils.py:134 | The empty frame keeps the names, has no rows and object-typed columns. |
| AnalysisUtils.LocationColumnsIff | backend/analysis/utils.py:52-59 | When some name contains "location", "area", "locality" or "place" (case-insensitively) the candidates are exactly those names; otherwise exactly the object-typed columns. |
| AnalysisUtils.FinalLocationRedundant | backend/analysis/utils.py:55 | The "final location" test adds nothing to the "location" test. |
| AnalysisUtils.CandidateLocationColumns | backend/analysis/utils.py:48-60 | The loop and its fallback compute the candidate columns in column order. |
| AnalysisUtils.ValuesOfIff | backend/analysis/utils.py:74-79 | A value is collected exactly when some row has it, present and non-blank, stripped, in some candidate column. |
| AnalysisUtils.ValuesAreStripped | backend/analysis/utils.py:78-79 | Every collected value is non-empty and stripped. |
| AnalysisUtils.CollectValues | backend/analysis/utils.py:74-81 | The nested loop collects exactly the values of all candidate columns. |
| AnalysisUtils.CollectColumn | backend/analysis/utils.py:77-79 | The inner loop adds exactly one column's values. |
| AnalysisUtils.SortByLength | backend/analysis/utils.py:84 | Every value once, longest first. |
| AnalysisUtils.FirstMentioned | backend/analysis/utils.py:85-88 | None exactly when no value's lower-case form is in the query; otherwise a mentioned value no mentioned value is longer than. |
| AnalysisUtils.ExtractArea | backend/analysis/utils.py:63-88 | None for an empty query or when no value is mentioned; otherwise a mentioned value, with no strictly longer mentioned value. |
| AnalysisUtils.MaskFor | backend/analysis/utils.py:107-113 | No mask without candidate columns; otherwise one entry per row, set exactly when some candidate cell contains the needle. |
| AnalysisUtils.SelectIsFilter | backend/analysis/utils.py:115 | `df[mask]` keeps exactly the rows the mask's test passes, in order. |
| AnalysisUtils.FilterByArea | backend/analysis/utils.py:91-135 | The method computes the filter; when the query-wide match is empty the fallback value is a detection as `ExtractArea` promises. |
| AnalysisUtils.BlankQueryKeepsHead | backend/analysis/utils.py:99-101 | An empty or blank query gives the first `top` rows unfiltered. |
| AnalysisUtils.FilteredKeepsColumnNames | backend/analysis/utils.py:101-135 | The result always has the input's column names. |
| AnalysisUtils.FilteredAtMostTop | backend/analysis/utils.py:115-135 | At most `top` rows for non-negative `top`. |
| AnalysisUtils.FilteredNegativeTop | backend/analysis/utils.py:115-135 | For a negative `top`, at most all but the last `-top` rows of the frame, because `head(top)` drops them. |
| AnalysisUtils.FilteredRowsMatch | backend/analysis/utils.py:108-135 | The rows are a prefix of the rows matching the query, or of those matching the detected value, so they keep their original order; each is an input row matching one of the two. |
| AnalysisUtils.NoMatchGivesEmptyFrame | backend/analysis/utils.py:133-134 | When neither the query nor the detection matches, the result is the empty frame with the same columns. |
| ChartAggregate.FirstDatetime | backend/analysis/utils.py:151-155 | None exactly when no column is `datetime64`; otherwise a `datetime64` column's name. |
| ChartAggregate.Resolve | backend/analysis/utils.py:158-163 | The requested name when it exists; otherwise None exactly when no name passes the test, else a passing name. |
| ChartAggregate.PreferredNamesWin | backend/analysis/utils.py:158-163 | Columns literally named "price" and "demand" are used as they are. |
| ChartAggregate.SortedKeys | backend/analysis/utils.py:189-193 | The group keys ascend strictly and are exactly the present keys. |
| ChartAggregate.SortedYears | backend/analysis/utils.py:189-193 | The years ascend strictly and are exactly the years some row has; rows without one are dropped. |
| ChartAggregate.Agg | backend/analysis/utils.py:195-196 | One aggregated entry per year. |
| ChartAggregate.FindYear | backend/analysis/utils.py:146-155 | The year column search returns the year source and the names after a derived year column is added. |
| ChartAggregate.PickColumn | backend/analysis/utils.py:158-163 | The candidate loop keeps the names passing the test so far, in order. The column it picks is the requested one when present and otherwise the first passing name, or None when no name passes (`Resolve`). |
| ChartAggregate.AggregateForChart | backend/analysis/utils.py:138-204 | The procedure computes the payload as the code does. When the price or demand column cannot be resolved, the lists are empty and the resolved names are kept. Otherwise the payload is the intended chart. |
| ChartAggregate.LabelsAreSortedYears | backend/analysis/utils.py:189-203 | Labels, price and demand have equal length; the labels read back as strictly ascending years; every label is some row's year and every row's year is a label. |
| ChartAggregate.LabelsAreSortedYearsAsWritten | backend/analysis/utils.py:177-203 | For the payload the code returns: equal-length lists and strictly ascending year labels, each some row's year. It is the intended chart when both columns resolve, and otherwise it has no labels and keeps the resolved names. |
| ChartAggregate.MissingAggregatesAreZero | backend/analysis/utils.py:177-203 | Each entry is the group's mean or sum with NaN read as 0; an unresolved column gives 0 entries and the name "". |
| ChartAggregate.NoYearNoEntries | backend/analysis/utils.py:165-167 | Without a year source the chart has no labels. |
| ChartAggregate.AsWrittenDropsYears | backend/analysis/utils.py:177-191 | As written, a missing price or demand column empties the chart although a row has a year. |
| AnalysisViews.QueryGet | backend/analysis/views.py:56-60 | `request.GET.get` finds nothing exactly when no pair has the name; otherwise the value of the last pair with it. |
| AnalysisViews.ErrorBody | backend/analysis/views.py:35 | An error body is `{"error": message}` and nothing else. |
| AnalysisViews.PosixJoin | backend/analysis/views.py:38 | An absolute name replaces the directory. A relative name joined to a non-empty directory keeps the directory as prefix and ends the path with "/" and the name, adding at most one "/". A relative name joined to an empty directory is itself. |
| AnalysisViews.UploadView | backend/analysis/views.py:33-47 | No file or an empty name gives 400 "No file provided."; a failed save gives 500 "Failed to save file: …"; status 200 exactly otherwise, with body `{"status": "ok", "path": <temp dir joined with the name>}`. |
| AnalysisViews.SavedPathEndsWithName | backend/analysis/views.py:38 | The saved path ends with the uploaded name. |
| AnalysisViews.ParseAnalyzeParams | backend/analysis/views.py:56-60 | The request fails exactly when `top` is given and is not an integer; otherwise the query (default ""), `top` (default 200), `use_llm` in "1", "true", "yes" after lower-casing (default off) and the optional file. |
| AnalysisViews.ParamDefaults | backend/analysis/views.py:56-60 | No parameters: "", 200, no LLM, no file. |
| AnalysisViews.LlmSpellings | backend/analysis/views.py:58-59 | "TRUE", "Yes" and "1" switch the LLM on; "on" and "false" do not. |
| AnalysisViews.TopNotANumber | backend/analysis/views.py:57 | `top=ten` fails the request. |
| AnalysisViews.Mode | backend/analysis/views.py:107 | The mode is "comparison" or "single". |
| AnalysisViews.ModeIff | backend/analysis/views.py:107 | "comparison" exactly when the lower-cased query contains " vs " or "compare ", or the query has more than one non-blank comma-separated part (the "," test is implied). |
| AnalysisViews.TrailingCommaIsSingle | backend/analysis/views.py:107 | "Wakad," has one non-blank part. |
| AnalysisViews.TwoAreasCompare | backend/analysis/views.py:107 | "Wakad, Baner" has two. |
| AnalysisViews.Record | backend/analysis/views.py:105 | A record has one property per column. With distinct column names its keys are the column names in column order and each column's property is the cell, with a missing value as "". |
| AnalysisViews.TableJson | backend/analysis/views.py:105 | The table has `min(rows, 500)` records, the first rows' records in order. |
| AnalysisViews.TableCellsServed | backend/analysis/views.py:105 | A missing cell is served as "", any other as its text. |
| AnalysisViews.SummaryChoice | backend/analysis/views.py:87-103 | The summary is the model's text exactly when the LLM is on, the key is set and the text is non-empty; otherwise the fallback. |
| AnalysisViews.CoerceYearCell | backend/analysis/views.py:77-81 | A year cell is kept exactly when it is present and holds an integer text. It then becomes that integer's decimal form and reads back as the same integer; any other cell becomes `<NA>`. |
| AnalysisViews.CoerceYear | backend/analysis/views.py:77-81 | Without a "year" column the frame is unchanged. With one, that column becomes numeric and each row's year is coerced; every other column and cell is kept as it was; the names and the row count are preserved. |
| AnalysisViews.CoerceYearIdempotent | backend/analysis/views.py:77-81 | Coercing an already coerced frame changes nothing. |
| AnalysisViews.CoercionKeepsYears | backend/analysis/views.py:77-84 | The coercion does not change the year that `aggregate_for_chart` groups a row by. |
| AnalysisViews.AnalyzeView | backend/analysis/views.py:50-118 | A malformed `top` gives the framework's error page, and a failed load gives 500 "Failed to load dataset: …". After a good parse and load, the served frame is the year-coerced `filter_by_area` of the first 50000 loaded rows, with the detection contract for the fallback. The uncaught `fillna("")` of line 105 gives the framework's error page exactly when the served frame has a "year" column with a missing year; otherwise there is a result. The result carries: the query and its mode; the chart as the code computes it; the at most 500-row table of the served frame; the chosen summary. The served frame has the loaded column names. For a non-negative `top` it has at most `top` rows; for a negative `top`, where `head(top)` drops the last `-top` rows, at most all but the last `-top` of the loaded rows. |
| AnalysisViews.BlankYearRaises | backend/analysis/views.py:77-105 | A frame with a "year" column and a blank year cell still has a missing year after the coercion, so `fillna("")` raises on it. |
| AnalysisViews.DownloadFilename | backend/analysis/views.py:141 | "filtered_<query>.csv", or "filtered_dataset.csv" for an empty query. |
| AnalysisViews.DownloadView | backend/analysis/views.py:121-142 | A failed load gives 500 "Failed to prepare download: …". Otherwise the reply is a CSV carrying the file name, the filtered frame's columns (the loaded ones) and the first 500 rows of `filter_by_area(df, query, top=500)` over the first 50000 loaded rows, with the detection contract. Each row is an input row. |
| AnalysisViews.RowsFromFrame | backend/analysis/views.py:132 | Every filtered row is a row of the input. |
| EndToEnd.RequestLookups | frontend/src/App.js:21-25 | The server's lookups find the page's query, "200", "true"/"false" and the path exactly when there is one. |
| EndToEnd.RequestReadBack | backend/analysis/views.py:56-60 | The server parses the page's request as the query, 200 rows, the page's LLM flag and the page's path. |
| EndToEnd.ToHttp | backend/analysis/views.py:47 | A reply reaches the browser with its status, a JSON content type and its body. |
| EndToEnd.UploadSucceeds | frontend/src/components/UploadPanel.js:32-36 | A saved upload shows "Upload successful." and hands the saved path to `onUpload`. |
| EndToEnd.UploadFailureReported | frontend/src/components/UploadPanel.js:27-30 | A rejected or failed upload shows "Upload failed: " with the reply text and hands nothing on. |
| EndToEnd.TableCardShowsFrame | frontend/src/components/ResultsPanel.js:17-82 | For a result whose `table` is the served records of a non-empty frame, the card drawn through the `tableRows` memo counts the served rows, heads the first 8 column names and draws each cell as "" when missing and as its text otherwise. |

## Left out

- Concurrency: overlapping `runAnalysis` calls and out-of-order replies. Runs are sequential, and the timer is a single optional slot.
- `fetch`, `FormData`, React rendering and Chart.js drawing. A settled request is an `Exchange` value.
- The DOM reset line in `clear` (`document.getElementById`).
- `URLSearchParams.toString()`. Parameters travel as name/value pairs, and the server is not modelled as URL-decoding them.
- File and network I/O: reading the dataset (`load_dataset_from_path`), the chunked file write in `upload_view`, and the OpenAI call (`generate_llm_summary`).
  - The loader is a parameter that returns a frame or an error text.
  - The file write is a parameter: the save error.
  - The model's reply is a parameter.
  - Whether `OPENAI_API_KEY` is set is a boolean parameter.
  - The file name is an optional string. An empty name counts as no file.
- `make_summary` is a parameter. Its text depends on floating-point formatting.
- Floating point: means, sums, `round(4)` and the fraction digits of `tension`. The aggregators are parameters, and JavaScript numbers are integers.
- Regular expressions: pandas `str.contains` is read as plain substring search.
- Case folding is ASCII-only. Lengths count code points, not UTF-16 units.
- AnalysisUtils.ExtractArea: among values of equal length it may return any one. The code's choice follows set iteration order.
- CSV text and the `text/csv` body of `download_view`. The reply carries the columns and rows that would be written.
- `schema_view`, `settings.py`, `urls.py`, NavBar, QueryBar, ChartCard and FileUploader: markup, configuration or code not used by the page.
- The "Filtering failed" (views.py:70-74) and "Failed to build CSV" (views.py:143-145) replies. In the model, filtering and CSV building cannot raise.
- AnalysisViews.CoerceYear and ChartAggregate.YearOf do not model two pandas behaviours:
  - `to_numeric` accepts spellings such as "2020.0" and "1e3".
  - `astype("Int64")` raises on a non-integral number, which skips the coercion.

  Only decimal integers count as years.
- AnalysisViews.Record serves every present cell as its text, not as a JSON number. Whether `fillna("")` raises is decided only for the coerced year column (`AnalysisViews.FillRaises`); other typed columns with missing values, such as datetimes, are modelled as filling without error.
- Text.ParseInt does not accept underscores or non-ASCII digits.
- JsValues: `Object.keys` puts integer-like keys first in JavaScript. The model keeps insertion order, and column names are strings.
- Http.Describe: the engine's exact `TypeError` texts are abstract strings.
- EndToEnd.ToHttp: DRF's JSON rendering is approximated by `JSON.stringify`.
- The chart components' length handling follows the code, which has no length-validation path. Labels and series of different lengths are passed through (`ChartView.NoLengthCheck`, `ChartPanel.MismatchedLengthsPassThrough`).
- ResultsPanel.TableView compares `length > 0` only for a numeric `length`. An object table whose `length` is a numeric string gets no card in the model, where the page would go on and throw.
- MetricSelector: a double toggle restores a list only when the key was absent (`ToggleTwiceAbsent`). When the key is present, the other keys come back in order and the key moves to the end (`ToggleTwicePresent`, `ToggleTwiceReorders`).

## Findings

| source | as written | input that shows it | evidently intended | confidence | as-written member | corrected member |
|---|---|---|---|---|---|---|
| backend/analysis/utils.py:177-191 | When the price or demand column is missing, the stand-in aggregation still names that column (`price_col or "price"`). The named `groupby().agg` raises, and the fallback frame leaves labels, price and demand empty (`ChartAggregate.AggregatedAsWritten`). The endpoint model keeps this behaviour: `ChartAggregate.AggregateForChart` and `AnalysisViews.AnalyzeView` ensure the as-written chart. The intended chart is `ChartAggregate.Aggregated`, with `LabelsAreSortedYears` and `MissingAggregatesAreZero` proved of it. | Columns `year` and `demand` with one row `year=2020, demand=5`, and no price-like column. | One label "2020", price `[0]` and demand `[5]`: a missing column contributes zeros per year (the `np.nan` stand-in and `fillna(0)`). | medium, not executed | ChartAggregate.AsWrittenDropsYears | ChartAggregate.Aggregated |
