# IllinoisAgriDB — a verified model of its state-and-transform core

IllinoisAgriDB is a small farming-data application. It has a React front end
with three screens and a Flask service over a weather/soil database. This
project models what those components do to their state and data, and proves
what they promise:

- **View shell** (`App`, module `App`). It holds the in-memory list of
  contributed observation records and the current-screen tag. It adds,
  updates and deletes records. The class `App.AppState` holds the two state
  cells. Its methods assign the results of the pure list functions.
- **Contributions screen** (module `ContributionsScreen`). It filters the
  list by an optional inclusive date range. ISO `YYYY-MM-DD` dates are read as
  calendar triples, and any other text is an Invalid Date. It also has the
  edit state machine (`editId`, `editData`, `dateRange`). Saving calls the
  shell's update.
- **Data-entry form** (module `DataEntryScreen`). It has the form record,
  single-field updates, and submission. Submission parses the four numeric
  fields (0 when they do not parse), hands one record to the shell, and
  resets the form to today's blank form.
- **Prediction screen** (module `HomeScreen`). It builds the posted form
  body, maps the service's optional-field reply into the display record, and
  runs the loading/error/result transitions of a submit. It also loads the
  reference lists on mount.
- **Flask service** (module `Backend`):
  - region normalisation (split on commas, strip, deduplicate, sort);
  - the crop list;
  - the three-way date clause;
  - the three-stage station-query fallback;
  - assembly of the response dictionary.

  The database is an oracle that answers each query with no result, no
  rows, or rows.
- **Integration** (module `Integration`). The body the screen posts is the
  form the service reads. The service's reply, read as JSON, drives the
  screen's banner or results.

Shared modules:
- `Wrappers` holds `Option`.
- `Seqs` is a generic order-preserving filter with its subsequence,
  multiplicity and idempotence lemmas.
- `Strings` renders naturals in decimal, with a round-trip proof.
- `Records` holds the record types and the two numeric coercions.

`parseFloat` and `Number` are two abstract parameters, `string -> Option<real>`,
where `None` is NaN, each with a zero fallback. `Date.now()`, today's
`toISOString()`, number-to-text rendering and every network or database reply
are parameters.

Two behaviours of the contributions screen that a reader might not expect:

- Cancelling an edit only clears `editId`. The working copy stays in `editData` until the next edit overwrites it.
- A date bound that is set but is not a valid date hides every record. A record whose own date is not valid is hidden as soon as any bound is set.

One behaviour of the service that a reader might not expect:

- When no date has both weather and soil readings, the fallback rows are read
  whole by pandas. A row whose columns are all numbers becomes one float series,
  so its date prints as `2024.0-5.0-1.0`, not `2024-5-1`. The soil row is always
  like this. The weather row is like this whenever `precip` is a number.

## Model

| member | source | states |
|---|---|---|
| App.RenderedScreens | IllinoisAgriDB/src/App.tsx:51-65 | a screen is rendered exactly when its tag equals `currentScreen`; at most one screen is rendered; an unknown tag renders none |
| App.NewContribution | IllinoisAgriDB/src/App.tsx:12-19 | the new record has the fresh id, the form's region and date, and each numeric field converted with `Number` |
| App.AddRecord | IllinoisAgriDB/src/App.tsx:11-21 | exactly one record is appended at the end; the earlier records are unchanged; the new record has the fresh id, the input's region and date, and the four coerced numbers |
| App.Merge | IllinoisAgriDB/src/App.tsx:26-34 | a field present in the patch overrides the record's field; an absent numeric field keeps its old value; a present numeric field is re-coerced with `Number` |
| App.UpdateRecords | IllinoisAgriDB/src/App.tsx:24-37 | length and order are kept; every record with another id is unchanged; every record with the id is merged with the patch; an unknown id leaves the list as it was |
| App.UpdateKeepsIds | IllinoisAgriDB/src/App.tsx:25-35 | a patch without an id, or with the same id, leaves every record's id in place |
| App.DeleteRecords | IllinoisAgriDB/src/App.tsx:40-42 | no record with the id remains; every other record remains; the result is an order-preserving subsequence; each other record keeps its multiplicity; an unknown id is a no-op |
| App.DeleteFacts | IllinoisAgriDB/src/App.tsx:41 | the filter drops exactly the records carrying the id, counted with multiplicity, and keeps the list when no record carries it |
| App.DeleteIdempotent | IllinoisAgriDB/src/App.tsx:41 | deleting an id twice gives the same list as deleting it once |
| App.DeleteCount | IllinoisAgriDB/src/App.tsx:41 | the list shrinks by exactly the number of records carrying the id |
| App.AppState.constructor | IllinoisAgriDB/src/App.tsx:8-9 | the shell starts on screen `home` with an empty list |
| App.AppState.SetCurrentScreen | IllinoisAgriDB/src/App.tsx:8 | the tag becomes the given screen and the list is untouched |
| App.AppState.AddContribution | IllinoisAgriDB/src/App.tsx:11-21 | the list becomes the appended list and the screen tag is untouched |
| App.AppState.UpdateContribution | IllinoisAgriDB/src/App.tsx:23-38 | the list becomes the updated list and the screen tag is untouched |
| App.AppState.DeleteContribution | IllinoisAgriDB/src/App.tsx:40-42 | the list becomes the filtered list and the screen tag is untouched |
| Seqs.Filter | IllinoisAgriDB/src/App.tsx:41 | `Array.prototype.filter`: it keeps only elements satisfying the predicate, keeps every one that does, and is no longer than its input |
| Seqs.FilterIsSubsequence | IllinoisAgriDB/src/components/ContributionsScreen.tsx:36 | the filtered list is a subsequence of the original list, in the original order |
| Seqs.FilterMultiplicity | IllinoisAgriDB/src/App.tsx:41 | an element occurs in the filtered list as often as in the input when it satisfies the predicate, and never otherwise |
| Seqs.FilterAllKept | IllinoisAgriDB/src/components/ContributionsScreen.tsx:37 | filtering with a predicate every element satisfies returns the list itself |
| Seqs.FilterIdempotent | IllinoisAgriDB/src/App.tsx:41 | filtering twice with one predicate equals filtering once |
| Strings.NatToString | IllinoisAgriDB/app.py:203 | the decimal text of a natural is non-empty, all digits, and has no leading zero |
| Strings.DecimalRoundTrip | IllinoisAgriDB/app.py:203 | reading the decimal text back gives the number |
| Strings.NatToStringInjective | IllinoisAgriDB/app.py:203 | distinct numbers render as distinct texts |
| Records.ParseOrZero | IllinoisAgriDB/src/components/ContributionsScreen.tsx:61 | `parseFloat(s) \|\| 0` is the parsed value, or 0 when the text does not parse |
| Records.ParseFieldOrZero | IllinoisAgriDB/ag-frontend/src/components/DataEntryScreen.tsx:40-43 | a number field is read back as itself; a text field is parsed or 0 |
| Records.ToNumber | IllinoisAgriDB/src/App.tsx:14-17 | `Number` is the identity on numbers and the abstract conversion, with a zero fallback, on text |
| ContributionsScreen.DateLeIsTotalOrder | IllinoisAgriDB/src/components/ContributionsScreen.tsx:42 | the date order used by the comparisons is reflexive, antisymmetric, transitive and total |
| ContributionsScreen.ParseIsoDate | IllinoisAgriDB/src/components/ContributionsScreen.tsx:38-40 | a date is produced only for a well-formed calendar date whose ISO text is exactly the input |
| ContributionsScreen.ParseFormatRoundTrip | IllinoisAgriDB/src/components/ContributionsScreen.tsx:8 | every well-formed date is read back from its `YYYY-MM-DD` text |
| ContributionsScreen.Passes | IllinoisAgriDB/src/components/ContributionsScreen.tsx:36-49 | once any bound is set, a passing record has a valid date, on or after a set start and on or before a set end |
| ContributionsScreen.FilteredContributions | IllinoisAgriDB/src/components/ContributionsScreen.tsx:35-50 | the shown records are an order-preserving subsequence of the list; each passing record appears as often as it is listed, and no failing record appears; so "Showing X of Y" counts the passing records and X ≤ Y |
| ContributionsScreen.FilterCounts | IllinoisAgriDB/src/components/ContributionsScreen.tsx:36 | each record is shown as many times as it is listed when it passes, and never otherwise |
| ContributionsScreen.NoBoundsShowsAll | IllinoisAgriDB/src/components/ContributionsScreen.tsx:37 | with both bounds empty every record is shown |
| ContributionsScreen.BothBoundsInclusive | IllinoisAgriDB/src/components/ContributionsScreen.tsx:41-42 | with both bounds valid, a record passes if and only if start ≤ date ≤ end, inclusive |
| ContributionsScreen.StartBoundOnly | IllinoisAgriDB/src/components/ContributionsScreen.tsx:43-44 | with only the start set, a record passes if and only if its date is on or after it |
| ContributionsScreen.EndBoundOnly | IllinoisAgriDB/src/components/ContributionsScreen.tsx:45-46 | with only the end set, a record passes if and only if its date is on or before it |
| ContributionsScreen.InvalidDateHiddenByAnyBound | IllinoisAgriDB/src/components/ContributionsScreen.tsx:38-46 | a record whose date is an Invalid Date is hidden as soon as any bound is set |
| ContributionsScreen.InvalidBoundHidesAll | IllinoisAgriDB/src/components/ContributionsScreen.tsx:39-46 | a bound that is set but is not a valid date hides every record |
| ContributionsScreen.FullCopy | IllinoisAgriDB/src/components/ContributionsScreen.tsx:53-55 | the working copy has every field of the record present, with the record's value |
| ContributionsScreen.WithEditChange | IllinoisAgriDB/src/components/ContributionsScreen.tsx:57-63 | only the named field changes; a number-typed input stores the parsed value or 0; text and date inputs store the text |
| ContributionsScreen.WithBound | IllinoisAgriDB/src/components/ContributionsScreen.tsx:64-69 | only the named bound changes |
| ContributionsScreen.MergeFullCopy | IllinoisAgriDB/src/components/ContributionsScreen.tsx:70-75 | saving an untouched copy writes back the record unchanged |
| ContributionsScreen.SaveUntouchedCopyKeepsList | IllinoisAgriDB/src/components/ContributionsScreen.tsx:51-75 | with unique ids, start-edit then save leaves the whole list unchanged |
| ContributionsScreen.SaveOneEditChangesOneField | IllinoisAgriDB/src/components/ContributionsScreen.tsx:51-75 | with unique ids, start-edit, one field change and save alter only that record and only the edited field, to the stored value |
| ContributionsScreen.ContributionsScreenState.constructor | IllinoisAgriDB/src/components/ContributionsScreen.tsx:29-34 | the screen starts not editing, with an empty working copy and both bounds empty |
| ContributionsScreen.ContributionsScreenState.Shown | IllinoisAgriDB/src/components/ContributionsScreen.tsx:147 | the count shown never exceeds the count of contributions |
| ContributionsScreen.ContributionsScreenState.StartEdit | IllinoisAgriDB/src/components/ContributionsScreen.tsx:51-56 | `editId` becomes the record's id and `editData` a full copy of the record; the range is untouched |
| ContributionsScreen.ContributionsScreenState.HandleEditChange | IllinoisAgriDB/src/components/ContributionsScreen.tsx:57-63 | only `editData` changes, by the one-field edit |
| ContributionsScreen.ContributionsScreenState.HandleDateRangeChange | IllinoisAgriDB/src/components/ContributionsScreen.tsx:64-69 | only the named bound of `dateRange` changes |
| ContributionsScreen.ContributionsScreenState.SaveEdit | IllinoisAgriDB/src/components/ContributionsScreen.tsx:70-75 | the shell's list is updated with (`editId`, `editData`) only when `editId` is set, and is unchanged otherwise; `editId` is then cleared |
| ContributionsScreen.ContributionsScreenState.CancelEdit | IllinoisAgriDB/src/components/ContributionsScreen.tsx:76-78 | `editId` is cleared; there is no callback, so the list cannot change |
| ContributionsScreen.ContributionsScreenState.ClearDateRange | IllinoisAgriDB/src/components/ContributionsScreen.tsx:79-84 | both bounds become empty; the edit state is untouched |
| DataEntryScreen.DatePart | IllinoisAgriDB/ag-frontend/src/components/DataEntryScreen.tsx:23 | `split('T')[0]` is the longest prefix without a `T` |
| DataEntryScreen.DatePartOfTimestamp | IllinoisAgriDB/ag-frontend/src/components/DataEntryScreen.tsx:23 | for an ISO timestamp, the date part is exactly the text before the `T` |
| DataEntryScreen.InitialForm | IllinoisAgriDB/ag-frontend/src/components/DataEntryScreen.tsx:21-28 | the blank form has an empty region and empty numeric fields, and today's date |
| DataEntryScreen.WithInput | IllinoisAgriDB/ag-frontend/src/components/DataEntryScreen.tsx:29-34 | the named input takes the text and the other five are unchanged |
| DataEntryScreen.Submission | IllinoisAgriDB/ag-frontend/src/components/DataEntryScreen.tsx:38-44 | region and date are verbatim; each numeric field is its parsed value, or 0 |
| DataEntryScreen.StoredRecordIsParsedForm | IllinoisAgriDB/ag-frontend/src/components/DataEntryScreen.tsx:38-45 | the record the shell stores has the fresh id, the verbatim region and date, and the parsed-or-0 numbers, whatever `Number` does |
| DataEntryScreen.DataEntryScreenState.constructor | IllinoisAgriDB/ag-frontend/src/components/DataEntryScreen.tsx:21-28 | the form starts blank, with every numeric input holding text |
| DataEntryScreen.DataEntryScreenState.HandleInputChange | IllinoisAgriDB/ag-frontend/src/components/DataEntryScreen.tsx:29-34 | the form takes the one-field update; numeric inputs stay text |
| DataEntryScreen.DataEntryScreenState.HandleSubmit | IllinoisAgriDB/ag-frontend/src/components/DataEntryScreen.tsx:35-57 | exactly one record, the parsed form's, is appended to the shell's list; the screen tag is untouched; the form is reset to the blank form |
| HomeScreen.WithSearchInput | IllinoisAgriDB/ag-frontend/src/components/HomeScreen.tsx:74-78 | only the named search field changes |
| HomeScreen.RequestBody | IllinoisAgriDB/ag-frontend/src/components/HomeScreen.tsx:85-89 | the body always starts with `region` set to the location; it has two entries when the crop is non-empty and one otherwise; it carries a `crop` entry if and only if the crop is non-empty, and that entry has the crop |
| HomeScreen.MapResults | IllinoisAgriDB/ag-frontend/src/components/HomeScreen.tsx:109-128 | yield is "Data for name" or "N/A"; planting date is the weather date or "N/A"; watering and soil lines are "N/A" when their field is undefined; exactly one pest line; the fixed fertilizer text; the raw fields copied unchanged |
| HomeScreen.WateringScheduleNotApplicableIffAbsent | IllinoisAgriDB/ag-frontend/src/components/HomeScreen.tsx:114 | the watering schedule is "N/A" if and only if the precipitation is undefined |
| HomeScreen.SoilHealthNotApplicableIffAbsent | IllinoisAgriDB/ag-frontend/src/components/HomeScreen.tsx:117 | the soil-health line is "N/A" if and only if the maximum soil temperature is undefined |
| HomeScreen.SubmitOutcome | IllinoisAgriDB/ag-frontend/src/components/HomeScreen.tsx:97-134 | a non-OK status gives the "HTTP error! status: N" message; an `error` field gives its text; a thrown error gives its message or "An unknown error occurred"; only a reply without an error gives results |
| HomeScreen.StationNotFoundBanner | IllinoisAgriDB/ag-frontend/src/components/HomeScreen.tsx:103-105 | a reply `{error: "station not found"}` ends with that message |
| HomeScreen.ListAfterFetch | IllinoisAgriDB/ag-frontend/src/components/HomeScreen.tsx:47-51 | a list is replaced only by a fetched array; otherwise it stays as it was |
| HomeScreen.HomeScreenState.constructor | IllinoisAgriDB/ag-frontend/src/components/HomeScreen.tsx:30-40 | empty search, no results, not loading, no error, empty lists still loading |
| HomeScreen.HomeScreenState.LoadReferenceLists | IllinoisAgriDB/ag-frontend/src/components/HomeScreen.tsx:43-72 | each list takes the fetched array when there is one, and otherwise keeps its value, which is empty on mount; both loading flags end false; nothing else changes |
| HomeScreen.HomeScreenState.HandleInputChange | IllinoisAgriDB/ag-frontend/src/components/HomeScreen.tsx:74-78 | only the search data changes, by the one-field update |
| HomeScreen.HomeScreenState.ShowsResults | IllinoisAgriDB/ag-frontend/src/components/HomeScreen.tsx:226 | the result panel renders only with results present, and never together with the error banner |
| HomeScreen.HomeScreenState.ShowsError | IllinoisAgriDB/ag-frontend/src/components/HomeScreen.tsx:219 | the error banner renders only for a non-empty message |
| HomeScreen.HomeScreenState.BeginSubmit | IllinoisAgriDB/ag-frontend/src/components/HomeScreen.tsx:79-89 | loading is set, error and results are cleared, and the body is built from the search data |
| HomeScreen.HomeScreenState.CompleteSubmit | IllinoisAgriDB/ag-frontend/src/components/HomeScreen.tsx:91-137 | a failure sets the error message and leaves the results; a success sets the results; loading ends false on every path |
| HomeScreen.HomeScreenState.HandleSubmit | IllinoisAgriDB/ag-frontend/src/components/HomeScreen.tsx:79-137 | after a submit, a failure shows its message and no results; a success shows results and no error; the result panel is displayed if and only if the submit succeeded; the search data, both lists and their loading flags are untouched |
| Backend.Strip | IllinoisAgriDB/app.py:29 | the stripped text is a slice of the input with no whitespace at either end, and only whitespace was removed |
| Backend.Split | IllinoisAgriDB/app.py:29 | `split(',')` gives at least one piece and no piece holds a comma |
| Backend.JoinSplit | IllinoisAgriDB/app.py:29 | joining the pieces with the separator gives back the text |
| Backend.RegionPieces | IllinoisAgriDB/app.py:29 | one stripped piece per comma-separated piece, in order |
| Backend.StrLessIrreflexive | IllinoisAgriDB/app.py:31 | Python's string `<` is irreflexive |
| Backend.StrLessTransitive | IllinoisAgriDB/app.py:31 | Python's string `<` is transitive |
| Backend.StrLessTotal | IllinoisAgriDB/app.py:31 | Python's string `<` orders any two distinct strings |
| Backend.StrLessAsymmetric | IllinoisAgriDB/app.py:31 | Python's string `<` is asymmetric |
| Backend.AscendingHasNoDuplicates | IllinoisAgriDB/app.py:31 | a strictly ascending list holds no value twice |
| Backend.SortedUnique | IllinoisAgriDB/app.py:31 | `sorted(list(set(xs)))` is strictly ascending and has exactly the elements of `xs` |
| Backend.AscendingUnique | IllinoisAgriDB/app.py:31 | two strictly ascending lists with the same elements are equal, so the region list is determined by its set |
| Backend.GetRegions | IllinoisAgriDB/app.py:20-32 | the region list is strictly ascending; a region is in it if and only if it is a stripped comma piece of some location; no rows gives an empty list |
| Backend.GetCrops | IllinoisAgriDB/app.py:48-54 | no result or an empty one gives an empty list; otherwise it is the query's crop names |
| Backend.FormGet | IllinoisAgriDB/app.py:59-62 | the value of the first entry sent under the key, and absent exactly when no entry has that key |
| Backend.SelectedRegion | IllinoisAgriDB/app.py:59 | the region sent, or the text `None` when no region was sent |
| Backend.SelectedCrop | IllinoisAgriDB/app.py:60 | the crop sent, or the empty default |
| Backend.StartDateOf | IllinoisAgriDB/app.py:61 | the start date sent, or the empty default |
| Backend.EndDateOf | IllinoisAgriDB/app.py:62 | the end date sent, or the empty default |
| Backend.DateConditions | IllinoisAgriDB/app.py:65-71 | the lower bound is the start date exactly when it is non-empty; the upper bound is the end date exactly when it is non-empty; no clause when both are empty |
| Backend.InitialStationQuery | IllinoisAgriDB/app.py:75-94 | the first station query filters by region and the date clause, and by crop if and only if a crop was selected |
| Backend.Attempts | IllinoisAgriDB/app.py:99-127 | the queries tried, in order: the first query, then the region-and-date query only when a crop was selected, then the plain region query |
| Backend.FirstHit | IllinoisAgriDB/app.py:102-130 | there is no station exactly when every attempted query returns no rows |
| Backend.DateQueryFor | IllinoisAgriDB/app.py:146-151 | the date query's own if-chain chooses the same clause as the station query's |
| Backend.DateText | IllinoisAgriDB/app.py:203 | the `year-month-day` text is made of digits and dashes, with a dash right after the year |
| Backend.DateTextInjective | IllinoisAgriDB/app.py:203 | distinct dates give distinct texts, so equal weather and soil date strings mean the same date |
| Backend.FloatText | IllinoisAgriDB/app.py:249-254 | a whole number taken from a float row prints as its decimal digits followed by `.0` |
| Backend.FloatDateText | IllinoisAgriDB/app.py:248-254 | the date text of a float row is made of digits, dashes and dots, and contains a dot |
| Backend.RowDateText | IllinoisAgriDB/app.py:227-233 | a weather row's date prints as float text when every selected column is numeric, and as integer text otherwise |
| Backend.FloatDateNotIntegerText | IllinoisAgriDB/app.py:248-254 | a float-rendered date text never equals the integer text of any date |
| Backend.FloatDateTextInjective | IllinoisAgriDB/app.py:248-254 | distinct dates give distinct float texts |
| Backend.FindStation | IllinoisAgriDB/app.py:96-134 | the fallback chain's station is the first row of the first attempt with rows |
| Backend.AssembleResponse | IllinoisAgriDB/app.py:136-257 | the response has the station's name and location; a `crop` key if and only if a crop was selected; weather and soil from the combined row with integer date text, or else from the separate fallback queries, where the soil date is float text and the weather date is float text exactly when `precip` is a number; empty when none |
| Backend.GetRandomStation | IllinoisAgriDB/app.py:57-259 | the error reply comes exactly when no attempt found a station, and carries the fixed message; otherwise the assembled response for the first station found |
| Backend.CombinedReadingsShareDate | IllinoisAgriDB/app.py:198-213 | when a combined date was found, weather and soil are both present or both empty, with identical date strings |
| Backend.FallbackDatesAreFloatText | IllinoisAgriDB/app.py:215-257 | without a combined date, the soil date, and the weather date when `precip` is a number, is not the whole-number `year-month-day` text of any date |
| Backend.ErrorOnlyWhenAllEmpty | IllinoisAgriDB/app.py:102-130 | there is no station if and only if the first query, the crop fallback (when tried) and the region query all return no rows |
| Integration.PostedFormReadsBack | IllinoisAgriDB/ag-frontend/src/components/HomeScreen.tsx:85-89 | the service reads back the posted location and crop, finds no dates, and so uses no date clause |
| Integration.CropFilterFollowsScreen | IllinoisAgriDB/app.py:84-94 | the service's first query filters by crop exactly when the screen had a crop chosen |
| Integration.WeatherJson | IllinoisAgriDB/app.py:202-206 | the `weather` object as the screen reads it: date, temperature and precipitation present, or every field undefined for `{}` |
| Integration.SoilJson | IllinoisAgriDB/app.py:209-213 | the `soil` object as the screen reads it: date and the two temperatures present, or every field undefined for `{}` |
| Integration.ReplyJson | IllinoisAgriDB/app.py:160-171 | the error reply is an object with only `error`; a station reply has the station, the always-present weather and soil objects, and the crop |
| Integration.NoStationReplyBecomesBanner | IllinoisAgriDB/app.py:130 | the service's "no stations" reply ends the screen's submit with exactly that message |
| Integration.StationReplyBecomesResults | IllinoisAgriDB/ag-frontend/src/components/HomeScreen.tsx:109-128 | a station reply always gives results; these are headed by the station name and carry the crop's pest line; the watering and soil lines are "N/A" exactly when the service found no weather or soil |

## Left out

- HTTP, `fetch`, Flask routing (including the status route `/`), CORS and JSON serialisation are plumbing; each reply is an abstract outcome value.
- SQL text and database semantics (`LIKE`, joins, `STR_TO_DATE`, `ORDER BY RAND()`) are out of scope. The database is an oracle, and its choice of row stands for the random pick.
- The string-interpolated SQL is open to injection. That is not modelled, because the query text is not modelled.
- Float parsing and float arithmetic are out of scope. `parseFloat`, `Number` and number-to-text rendering are parameters, and readings are carried as reals.
- Records.ToNumber: `Number` of unparseable text is NaN in JavaScript, not 0. NaN has no real value, so the model applies the zero fallback. No screen reaches that path, because both callers pass numbers.
- Ids are integers (`Date.now()`). The interface's `string | number`, and id uniqueness, are not enforced. Uniqueness is a hypothesis of the lemmas that need it.
- ContributionsScreen.ParseIsoDate: only `YYYY-MM-DD` text with years up to 9999 is a date. Other formats that `new Date` accepts are Invalid Dates in the model.
- `Date.now()` and `new Date()` are parameters of the operations that read them.
- `alert`, `console` logging and the service's `print` lines are output only.
- The ordering of overlapping prediction submits (a stale reply can land after a newer one) is not modelled. HomeScreen.HomeScreenState.HandleSubmit is one whole submit with nothing interleaved.
- JSX rendering and styling are out of scope. The only modelled parts are the conditions that decide which screen, banner or panel appears.
- IllinoisAgriDB/src/components/Navbar.tsx is pure UI: a dropdown and screen-change callbacks.
- `src/App.tsx` imports `HomeScreen`, `DataEntryScreen` and `FormData` from `src/components`. Those two files are not part of this model. The `ag-frontend` versions stand for them.
- IllinoisAgriDB/ml/ (training, inference, the prediction route) and IllinoisAgriDB/database/ (connection, loading, example queries) are not part of this model.
- Backend.GetRegions: a NULL location, on which `split` would raise, is not modelled; locations are strings.
- Backend.AssembleResponse: the numeric columns are carried as reals without `float()`. Whether a fallback weather row is read as floats is an input flag (`precipIsNumber`), since it depends on the column's type in the database. The `'0.0'` precipitation default is unreachable, because the queried row always has `precip`, so it is not modelled.
- Backend.FloatText: Python prints floats of 10^16 and above in exponent form. The model does not, since no calendar field is that large.
- The degree suffix: the source's degree suffix is the mis-encoded text `Â°C`. It is modelled as written.
