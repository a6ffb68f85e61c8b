# Batted-ball explorer: client state and backend handlers

The system is a small dashboard of batted-ball data. A Flask backend
(`backend/app.py`) loads a spreadsheet of batted balls once and serves three
routes:

- `/api/data` narrows the rows by optional query arguments and returns them as
  JSON records of eleven columns.
- `/api/summary` returns averages and counts over the whole dataset.
- `/health` reports whether any data was loaded.

A React component (`frontend/src/App.js`) keeps a filter object. It sends the
non-empty filters to `/api/data`, fetches the summary, plots launch angle
against exit speed, and opens a detail modal for a clicked point.

The model has six modules:

- `Wire` holds the shapes that cross the network: records, the summary, HTTP
  responses, and ordered string pairs. A pair list stands for a JavaScript
  object's entries, a `URLSearchParams`, and Flask's `request.args`.
- `Backend` holds the handlers as functions over the dataset.
  - `get_data` is also an imperative method. It reassigns the frame through
    up to six boolean-mask selections, and each selection is a loop.
  - Each method is proved equal to the function.
  - The function is proved sound and complete against a reference reading of
    the arguments (`Admits`) and order-preserving.
- `Filters` holds the filter object. It covers the spread-merge of
  `handleFilterChange` and the query-building loop of `fetchData`.
- `View` holds the pure view computations: the scatter points, the tooltip
  lines, `data[index]` for a click, and the modal and video conditions.
- `Client` holds the `App` component as a class. Each `useState` hook is a
  field. Each async fetch is split at its `await` into a start step and a
  settle step. Every request issued is recorded.
- `Integration` puts the two sides together.

**The numeric filters are sent under keys the backend never reads.** The
page renders only four text fields: batter, pitcher, `minExitSpeed` and
`maxExitSpeed`. The filter object also declares `minLaunchAngle` and
`maxLaunchAngle`, but nothing ever sets them, so they stay empty and are
never sent. The only bounds the page can send are `minExitSpeed` and
`maxExitSpeed`. The handler reads its bounds from `min_exit_speed`,
`max_exit_speed`, `min_launch_angle` and `max_launch_angle`. So a bound typed
into the page never narrows the result. `Integration.BoundsNeverConstrain` and
`Integration.TypedBoundReturnsEverything` prove this. The page's invariant
`Client.App.Valid` keeps exactly the six declared keys, so
`Integration.RunningPageBoundsNeverConstrain` proves it for every state the
page can reach. The model keeps both
sides as written.

**The summary is re-fetched on every filter change.** The effect that
issues the summary request depends on `fetchData`, and `fetchData` changes
with every filter change. So the summary is requested again together with the
data on every change. `Client.App.HandleFilterChange` appends both requests.

## Model

| member | source | states |
|---|---|---|
| Wire.Lookup | backend/app.py:52-53 | a key's value is found exactly when the key occurs, and the value found is paired with the key |
| Wire.LookupFindsFirst | backend/app.py:52-53 | the value found is the one stored with the key's first occurrence (the first value of a multi-valued argument) |
| Wire.ColumnsCoverTheRecord | backend/app.py:75-76 | the selected columns are every record field exactly once, under the JSON keys of the handler's column list, in its order |
| Filters.SetField | frontend/src/App.js:81-84 | the spread merge on an object's entries; what it does to each key is stated by `Filters.SetFieldLookup` and to the key order by `Filters.SetFieldKeys` |
| Filters.SetFieldLookup | frontend/src/App.js:79-85 | after `{...prev, [name]: value}` the named field reads `value` and every other field reads as before |
| Filters.SetFieldKeys | frontend/src/App.js:81-84 | the merge keeps the key order, appending the name only when it is new |
| Filters.SetFieldDistinct | frontend/src/App.js:81-84 | object keys stay distinct through the merge |
| Filters.InputKeepsKeys | frontend/src/App.js:172-207 | a change from any of the four text fields leaves exactly the six declared keys in declaration order |
| Filters.QueryOf | frontend/src/App.js:52-53 | the parameters are never more than the entries; which pairs they are is stated by `Filters.QueryExactly` |
| Filters.BuildParams | frontend/src/App.js:51-54 | the loop over `Object.entries(filters)` appends exactly the pairs `QueryOf` selects |
| Filters.QueryExactly | frontend/src/App.js:52-53 | a pair is sent if and only if it is a filter entry with a truthy (non-empty) value |
| Filters.QueryInOrder | frontend/src/App.js:52-53 | the sent pairs keep the filter object's key order |
| Filters.QueryByKey | frontend/src/App.js:52-53 | reading a key back from the query gives the filter's value when non-empty, and nothing when empty or absent |
| Filters.BlankFiltersSendNothing | frontend/src/App.js:39-54 | the initial all-empty filters send no parameter at all |
| Filters.ZeroBoundIsSent | frontend/src/App.js:53 | "0" is a truthy string, so a zero bound is sent |
| Filters.SmithAt95Filters | frontend/src/App.js:79-85 | typing "Smith" as batter and then "95" as minimum exit speed changes those two fields in place and leaves the other four empty |
| Filters.SmithAt95 | frontend/src/App.js:51-54 | batter "Smith" and minimum exit speed "95" send exactly those two pairs, in declaration order |
| View.IsOpen | frontend/src/App.js:256 | `Boolean(selectedPoint)`: the modal is open only for a record (truthiness stated by `View.OnlyARecordIsTruthy`) |
| View.OnlyARecordIsTruthy | frontend/src/App.js:256 | `null` and `undefined` keep the modal closed and any record opens it (a case-by-case reading of `View.IsOpen`) |
| View.ShowsVideo | frontend/src/App.js:321 | the video is embedded only inside an open modal |
| View.Interpolate | frontend/src/App.js:133-138 | template interpolation: a string is inserted as it is and a number as `numText` writes it |
| View.Resolve | frontend/src/App.js:87-92 | `data[index]` is a record exactly for an in-range index and `undefined` otherwise |
| View.ChartPoints | frontend/src/App.js:98-109 | one point per record, at the record's position, with x the launch angle and y the exit speed |
| View.ClickedPointIsPlotted | frontend/src/App.js:87-104 | clicking the point drawn at index i selects the record that point was drawn from |
| View.Label | frontend/src/App.js:130-139 | six tooltip lines, each a caption, the interpolated column value and its unit |
| Client.Deliver | frontend/src/App.js:56-61 | an awaited request succeeds with the body exactly when the response is not an error |
| Client.App.constructor | frontend/src/App.js:35-77 | the initial state (blank filters, no data, no summary, loading, nothing selected) and the mount effect's two requests, the data request without parameters |
| Client.App.RunEffect | frontend/src/App.js:74-77 | the effect raises the loading flag and issues the data request for the current filters, then the summary request |
| Client.App.FetchDataStart | frontend/src/App.js:48-56 | `fetchData` sets loading and requests `/api/data` with the non-empty filters |
| Client.App.FetchDataSettle | frontend/src/App.js:56-62 | a response replaces `data`, a failure keeps it, and loading is cleared either way |
| Client.App.FetchSummaryStart | frontend/src/App.js:65-67 | `fetchSummary` requests `/api/summary` and changes nothing else |
| Client.App.FetchSummarySettle | frontend/src/App.js:67-71 | a response replaces `summary` and a failure keeps it |
| Client.App.HandleFilterChange | frontend/src/App.js:79-85 | for one of the four rendered field names, only that field changes, the keys stay exactly the six declared ones, and both fetches are re-issued for the new filters |
| Client.App.HandlePointClick | frontend/src/App.js:87-92 | with no element nothing changes; otherwise the first element's index is resolved, and the modal is open exactly when the index is in range |
| Client.App.HandleCloseModal | frontend/src/App.js:94-96 | the selection is cleared and the modal closes |
| Client.App.ModalOpen | frontend/src/App.js:256 | the modal's `open` prop is `IsOpen` of the current selection |
| Client.App.ChartData | frontend/src/App.js:98-109 | the plotted dataset has one point per record |
| Client.App.TooltipLabel | frontend/src/App.js:130-139 | the tooltip for a data index is the label of the record `data[dataIndex]` |
| Backend.Matches | backend/app.py:61-72 | one mask on one row: a case-insensitive substring for a name, a comparison for a bound, a missing cell failing; its meaning is stated by `Backend.CriteriaMeanAdmits` |
| Backend.Criteria | backend/app.py:61-72 | at most six criteria, none exactly when no argument is supplied |
| Backend.ReadParams | backend/app.py:52-57 | each name is the first value of its argument, or absent; each bound is the conversion of the first value of its snake_case argument when that argument is present, and absent otherwise |
| Backend.FloatArg | backend/app.py:54-57 | a bound is the converted first value of its argument whenever the argument is present (absent only when the conversion rejects it), and absent when the argument is |
| Backend.Keep | backend/app.py:60-72 | every kept row passes every criterion and no more rows than given are kept |
| Backend.Selected | backend/app.py:52-72 | every returned row satisfies the criteria read from the arguments |
| Backend.KeepCount | backend/app.py:60-72 | each copy of a passing row is kept and each copy of a failing row dropped |
| Backend.SelectedCount | backend/app.py:52-72 | an admitted row is returned as many times as the dataset holds it, and a rejected row never |
| Backend.KeepIsSubsequence | backend/app.py:60-72 | successive mask selections keep rows in their original order and never add one |
| Backend.KeepMembers | backend/app.py:60-72 | a row survives the selections if and only if it is in the frame and passes every criterion |
| Backend.KeepAll | backend/app.py:60 | with no criterion applied the frame is the unfiltered copy |
| Backend.KeepNarrow | backend/app.py:61-72 | applying one more mask to a filtered frame equals filtering by the criteria so far plus that one |
| Backend.Select | backend/app.py:62 | one boolean-mask selection keeps exactly the rows passing its criterion, in order |
| Backend.CriteriaMeanAdmits | backend/app.py:61-72 | the criteria applied hold of a row if and only if every supplied argument accepts it: a truthy name as a case-insensitive substring, a bound with a missing cell failing |
| Backend.SelectedIsSubsequence | backend/app.py:60-72 | the `/api/data` rows are an order-preserving subsequence of the dataset |
| Backend.SelectedExactly | backend/app.py:52-72 | a row is returned if and only if it is in the dataset and satisfies every argument as read |
| Backend.NoArgumentsSelectAll | backend/app.py:52-72 | with no query arguments the whole dataset is selected |
| Backend.ProjectAll | backend/app.py:78 | one record per row, in order, each column the row's cell or the empty string |
| Backend.Project | backend/app.py:75-78 | each of the eleven columns of a record is the row's cell, with a missing cell filled by the empty string |
| Backend.PatternError | backend/app.py:61-64 | the name masks fail exactly when a supplied batter or pitcher pattern does not compile, with the batter's error taking precedence |
| Backend.DataResponse | backend/app.py:45-81 | 500 exactly for an empty dataset or a name pattern that does not compile; otherwise the projected selection, no longer than the dataset |
| Backend.GetData | backend/app.py:45-79 | the handler, reading its arguments and reassigning the frame, answers exactly `DataResponse` |
| Backend.Filter | backend/app.py:59-72 | the six conditional reassignments leave exactly the rows passing the applied criteria, in order |
| Backend.Narrow | backend/app.py:61-72 | one conditional reassignment extends the applied criteria by one |
| Backend.DistinctNames | backend/app.py:93-94 | the distinct non-missing names number at most the rows |
| Backend.NameIsCounted | backend/app.py:93-94 | every name a row carries in the column is among the counted names |
| Backend.DistinctNamesExactly | backend/app.py:93-94 | a name is counted if and only if some row carries it in that column |
| Backend.Mean | backend/app.py:90-91 | the skipna mean: `None` (NaN) exactly when no row has a reading, otherwise the exact-real value that times the number of present readings gives their sum; its meaning is stated by `Backend.MeanMissingExactly`, `Backend.MeanAtLeast` and `Backend.MeanAtMost` |
| Backend.MeanMissingExactly | backend/app.py:90-91 | the mean is NaN exactly when no row has a reading in that column |
| Backend.TotalAtLeast | backend/app.py:90-91 | readings all at least lo sum to at least lo once per present reading |
| Backend.TotalAtMost | backend/app.py:90-91 | readings all at most hi sum to at most hi once per present reading |
| Backend.UniformIsProduct | backend/app.py:90-91 | adding c once per present reading gives c times the number of present readings |
| Backend.MeanAtLeast | backend/app.py:90-91 | the mean over the present readings is at least any lower bound of those readings |
| Backend.MeanAtMost | backend/app.py:90-91 | the mean over the present readings is at most any upper bound of those readings |
| Backend.SummaryResponse | backend/app.py:83-96 | an empty dataset gives a 500 error and nothing else does; the total is the row count and each unique count is the number of distinct non-missing names in its column (what those names are is stated by `Backend.DistinctNamesExactly`), hence between 0 and the total |
| Backend.SummaryExitSpeedBounded | backend/app.py:90 | the reported average exit speed, in exact arithmetic, lies between the slowest and fastest recorded ball |
| Backend.HealthCheck | backend/app.py:38-43 | the status is always 200 and "healthy", and `data_loaded` holds exactly when the dataset has rows |
| Integration.BoundsNeverArrive | backend/app.py:54-57 | whatever camelCase filters the client sends, the handler reads all four numeric bounds as absent |
| Integration.BoundsNeverConstrain | backend/app.py:52-57 | two filter states that agree on batter and pitcher get the same `/api/data` answer, whatever their numeric fields |
| Integration.RunningPageBoundsNeverConstrain | frontend/src/App.js:79-85 | on every state the page can reach, any filter object with the declared, distinct keys that agrees on batter and pitcher gets the same `/api/data` answer, so the typed bounds never change the records returned |
| Integration.DeclaredKeysAreCamelCase | frontend/src/App.js:39-46 | the declared filter keys include none of the handler's snake_case bound names |
| Integration.InitialFiltersAreCamelCase | frontend/src/App.js:39-46 | the initial filter object has distinct, camelCase keys |
| Integration.TypedBoundStaysCamelCase | frontend/src/App.js:190-207 | typing into the exit-speed fields of a fresh page keeps every key camelCase |
| Integration.TypedBoundKeepsKeysDistinct | frontend/src/App.js:190-207 | typing into the exit-speed fields of a fresh page keeps the keys distinct |
| Integration.InitialFiltersSendNothing | frontend/src/App.js:39-54 | a fresh page's data request carries no parameter |
| Integration.AgreeingWithBlankReturnsEverything | backend/app.py:54-72 | filters agreeing with blank ones on batter and pitcher get the whole dataset back |
| Integration.TypedBoundReturnsEverything | backend/app.py:54-68 | a minimum or maximum exit speed typed into a fresh page returns every row, a slower or faster ball included |
| Integration.EmptyDatasetFailsBothFetches | backend/app.py:45-86 | without data both client fetches fail, so the client keeps its previous data and summary |
| Integration.VideoShownForLinkedRows | frontend/src/App.js:321 | the modal embeds a video exactly for a row whose link is present and non-empty |
| Integration.PlottedRowsKeepTheirPlace | frontend/src/App.js:101-104 | point i of an `/api/data` answer shows row i's launch angle and exit speed, and a missing cell becomes the empty string |
| Integration.FetchFromBackend | frontend/src/App.js:48-62 | a full data fetch against the handler replaces `data` with a successful answer and keeps it on an error; with blank name filters and a loaded dataset the answer is the projected selection; loading is cleared |

## Left out

- Network transport is not modelled. This covers CORS, `config.apiUrl` (a constructor parameter), URL percent-encoding and the query-string serialization; pairs travel as they are.
- Rendering is not modelled: Material-UI layout, Chart.js drawing, the loading spinner, and the modal's table of all fields.
- The summary's `toFixed(1)` display is not modelled.
- The means are exact real numbers, with no float rounding. A column with no reading gives `None` where pandas gives NaN.
- `load_data` is not modelled: it reads the spreadsheet from disk. The dataset is a parameter of every handler, and its failure path is the empty dataset. `passenger_wsgi.py` is not part of this model.
- Python's `float()` parsing of a bound is the parameter `toFloat`; a rejected value reads as absent. NaN and infinite bounds are not modelled.
- JavaScript's Number-to-String conversion in the tooltip is the parameter `numText`.
- Backend.Matches: `str.contains` treats the pattern as a regular expression. The model matches it as a literal substring, with case folding only for ASCII letters.
- The `except` branches are modelled only for a name pattern that does not compile as a regular expression (the parameter `regexError` gives the exception's text). No other exception is modelled, such as a column missing from the spreadsheet or a non-numeric bound column.
- `console.error` logging is not modelled.
- The interleaving of overlapping fetches is not modelled; each start step is followed by its own settle step. React StrictMode's double effects are not modelled either.
- JavaScript orders integer-like keys first in an object. The filter keys are never integer-like, so insertion order is modelled.
- Rows carry only the eleven columns the handlers read.
