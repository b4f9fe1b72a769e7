# dxc-datavis in Dafny

A functional model of the logic of the dxc-datavis dashboard, a React
front end that shows a Magic: The Gathering archetype matchup matrix.
The model covers these parts:

- how the dashboard orders archetypes (by games played, by win rate, or
  alphabetically, each ascending or descending) and the sort control's
  two-field state machine;
- the sidebar's editing of the visible-archetype list and its sort arrows;
- the matrix view: the per-cell win-rate statistic, its colour, the grey
  diagonal and the square layout;
- the API client: query construction for the two endpoints, the mapping of
  HTTP failures to error messages, and the lookup of an archetype's record;
- the initial load in `App`: fetch the matrix, then every archetype's record,
  and commit either everything or nothing;
- the `useMetaData` hook: retry up to three times, a five-minute snapshot in
  local storage, and its own load;
- the minimum-frequency input and the custom date-range inputs.

Every module is pure. Each React state update is a field of a state
datatype, and each handler is a function from the old state to the new one.
The things the code cannot compute itself are parameters:

- answers from the server (`Transport`, `Attempt`);
- the clock readings (`now`, `writeTime`);
- local storage (`Storage`);
- the Wilson interval library (`wilson`);
- `parseFloat` (`parse`) and `Number.toString` (`show`).

A JSON object is an association list, and `Object.keys` lists its keys in
list order. JavaScript puts integer-like keys first; archetype names are
not integers, so that rule is not modelled.

Files, one module each: `wrappers.dfy` (Option, Result), `strings.dfy`
(decimal digits, code-point string order, `join`), `seqs.dfy` (`filter`,
subsequences, reversal), `shapes.dfy` (record and matchup shapes),
`sort_engine.dfy`, `sidebar.dfy`, `meta_matrix.dfy`, `api_client.dfy`,
`app.dfy`, `meta_data.dfy`, `percentage_filter.dfy`, `date_range.dfy`.

Where the code's behaviour is easy to misread:

- **A missing record.** `getArchetypeWinRate` throws "No record found for
  archetype: X" (`src/lib/api-client.ts:126-129`), and `App` turns every
  thrown error into an error line (`src/App.tsx:112-126`). One missing
  record fails the whole load rather than showing an empty record
  (`App.MissingRecordFailsLoad`).
- **Missing data and zero games.** `calculateWinrate` returns null both when
  the pair has no entry and when it has no decided games
  (`src/components/MetaMatrix.tsx:41-50`), so the two render alike
  (`MetaMatrix.MissingAndEmptyAlike`).
- **Win rate with no games.** The win-rate comparator divides 0 by 0 for a
  record with no games and compares NaN (`src/App.tsx:55-59`). The model
  requires every listed archetype with a record to have played at least one
  game (`SortEngine.RatesDefined`).

## Model

| member | source | states |
|---|---|---|
| SortEngine.SortArchetypes | src/App.tsx:45-64 | the result is a permutation of the list; games and win rate are non-increasing for desc and non-decreasing for asc, with a missing record counting as 0; alphabetical desc is A to Z and asc is Z to A |
| SortEngine.SortedMeaning | src/App.tsx:47-62 | for each key and direction, a list is sorted under the comparator if and only if its keys are ordered that way (games or win rate non-increasing for descending, non-decreasing for ascending; names Z to A for ascending alphabetical, A to Z for descending) |
| SortEngine.Compare | src/App.tsx:47-62 | the comparator is at most 0 exactly when the first name may come first: fewer or equal games (asc) or more or equal (desc), likewise for win rate, and for names the reversed string order (Z to A ascending, A to Z descending) |
| SortEngine.Sort | src/App.tsx:45-46 | the ordering of a copy of the list is a permutation of it and is sorted under the comparator |
| SortEngine.SortBy | src/App.tsx:46 | the stable sort returns a permutation that is sorted under any total preorder |
| SortEngine.InsertSorted | src/App.tsx:46 | inserting into a sorted list keeps it sorted |
| SortEngine.OrderIsPreorder | src/App.tsx:46-63 | each of the six comparators is total and transitive, so the sort is well defined |
| SortEngine.CompareAntisymmetric | src/App.tsx:47-62 | swapping the arguments negates the comparator |
| SortEngine.CompareFlip | src/App.tsx:47-62 | the opposite direction compares the arguments the other way round |
| SortEngine.SortOfSorted | src/App.tsx:46 | a stable sort leaves a list that is already sorted unchanged |
| SortEngine.SortIdempotent | src/App.tsx:46 | sorting twice is the same as sorting once |
| SortEngine.SortKeepsSorted | src/App.tsx:46 | a list already in the active order comes back unchanged |
| SortEngine.SortFilterCommute | src/App.tsx:71-73 | filtering a stably sorted list equals stably sorting the filtered list |
| SortEngine.SortCommutesWithFilter | src/App.tsx:71-73 | the same for the dashboard's comparator |
| SortEngine.SortStable | src/App.tsx:46 | archetypes that tie keep their input order |
| SortEngine.SortedUnique | src/App.tsx:46 | with no ties there is only one sorted arrangement of a multiset |
| SortEngine.ConverseReverses | src/App.tsx:46 | with no ties, sorting under the converse order gives the reverse list |
| SortEngine.FlipReverses | src/App.tsx:47-60 | with no ties, the other direction gives exactly the reversed list |
| SortEngine.AlphaFlipReverses | src/App.tsx:62 | the alphabetical directions always reverse each other, because distinct names never tie |
| SortEngine.SortDeterminedByContents | src/App.tsx:45-64 | with no ties, the result depends only on which names are listed |
| SortEngine.RatesDefinedByContents | src/App.tsx:54-60 | whether win rates are defined depends only on which names are listed |
| SortEngine.NextSortState | src/App.tsx:66-82 | choosing the active key flips the direction; choosing another key selects it, descending |
| SortEngine.NextSortStateTwice | src/App.tsx:67-77 | choosing the active key twice restores the state; choosing a new key twice leaves it ascending |
| Sidebar.CheckboxChange | src/components/AppSidebar.tsx:43-49 | checking appends the name at the end with no de-duplication; unchecking removes every copy and keeps the rest in order |
| Sidebar.CheckThenUncheck | src/components/AppSidebar.tsx:43-49 | unchecking after checking is the same as only unchecking, and restores the list when the name was absent |
| Sidebar.UncheckIdempotent | src/components/AppSidebar.tsx:46-47 | unchecking twice is the same as unchecking once |
| Sidebar.SelectAll | src/components/AppSidebar.tsx:51-57 | select-all gives a copy of all archetypes and deselect gives the empty list |
| Sidebar.AllSelectedIgnoresMembership | src/components/AppSidebar.tsx:59 | the length test can report "all selected" while an archetype is hidden |
| Sidebar.AllSelected | src/components/AppSidebar.tsx:59 | the "all selected" test compares lengths only; its meaning is stated by `AllSelectedIgnoresMembership` and `AllSelectedMeansEveryArchetype`, and it carries no contract of its own |
| Sidebar.AllSelectedMeansEveryArchetype | src/components/AppSidebar.tsx:59 | for lists without repeats, with every visible name listed, equal length means that every archetype is visible |
| Sidebar.SortIcon | src/components/AppSidebar.tsx:61-64 | only the active key shows an arrow: up iff ascending, down iff descending |
| Sidebar.IconFollowsChoice | src/components/AppSidebar.tsx:61-64 | after a choice only the chosen key has an arrow, and choosing it again turns the arrow over |
| Shapes.FromApi | src/lib/api-client.ts:11-15 | the API's matchup gives the canonical cell's wins and losses; draws are dropped |
| Shapes.FromLegacy | src/components/MetaMatrix.tsx:12-15 | the matrix component's matchup gives the row archetype's wins and the column archetype's wins as losses |
| Shapes.Get | src/components/MetaMatrix.tsx:41 | an object lookup finds a value iff the key is among the object's keys |
| MetaMatrix.Lookup | src/components/MetaMatrix.tsx:41 | the pair is found iff the hero has a row and that row has the villain, and the cell found is the one stored under the villain in the hero's row |
| MetaMatrix.CalculateWinrate | src/components/MetaMatrix.tsx:40-59 | absent iff the pair is missing or has no decided games; otherwise the counts are kept, 0 ≤ winrate ≤ 100, winrate × total = 100 × wins, and the interval is scaled to percent |
| MetaMatrix.WinrateBounds | src/components/MetaMatrix.tsx:52 | 100 × wins / total lies in [0, 100] and multiplies back to 100 × wins |
| MetaMatrix.WinrateRecoversWins | src/components/MetaMatrix.tsx:44-52 | the win rate and the two counts give back the wins |
| MetaMatrix.MissingAndEmptyAlike | src/components/MetaMatrix.tsx:41-50 | a missing pair and a pair with no decided games both give null |
| MetaMatrix.WinrateColour | src/components/MetaMatrix.tsx:34-38 | the hue lies in [0, 120] for a win rate in [0, 100]; saturation 70, lightness 45 |
| MetaMatrix.HueIsLinear | src/components/MetaMatrix.tsx:35-36 | the hue is strictly increasing in the win rate and gives it back |
| MetaMatrix.RenderCell | src/components/MetaMatrix.tsx:98-124 | the diagonal is always grey; off the diagonal, the placeholder shows iff there is no statistic, and otherwise the statistic is shown with the win rate's colour, whose hue is in range |
| MetaMatrix.DiagonalIgnoresData | src/components/MetaMatrix.tsx:99-101 | the diagonal cell does not depend on the matrix |
| MetaMatrix.RenderHeader | src/components/MetaMatrix.tsx:86-97 | the record is shown iff the hero has one; the percentage is defined iff there are decided games, and then lies in [0, 100] and equals 100 × wins / (wins + losses) |
| MetaMatrix.Render | src/components/MetaMatrix.tsx:61-127 | an empty list renders the placeholder; otherwise rows and columns are the same list, and cell (i, j) is hero i against villain j |
| MetaMatrix.RenderedTableShape | src/components/MetaMatrix.tsx:73-127 | every table has the grey diagonal, and every coloured cell has a win rate in [0, 100] and a hue in [0, 120] |
| ApiClient.TimeFrameNameRoundTrip | src/lib/api-client.ts:42 | every time frame reads back from its wire name |
| ApiClient.KeyNameInjective | src/lib/api-client.ts:88-100 | different query keys have different wire names |
| ApiClient.FilterParams | src/lib/api-client.ts:88-100 | time_frame appears iff given and not all_time; min_percentage iff defined, 0 included; each date iff non-empty; always in the order time_frame, min_percentage, start_date, end_date |
| ApiClient.FilterKeys | src/lib/api-client.ts:88-100 | each key is in the query exactly when its filter is included |
| ApiClient.FilterRanks | src/lib/api-client.ts:88-100 | keys appear in strictly increasing position, each at most once |
| ApiClient.FilterQueryLookup | src/lib/api-client.ts:88-100 | looking a key up in the query asks the time frame, percentage, start and end contributions in that order |
| ApiClient.GetParamAppend | src/lib/api-client.ts:88-100 | a lookup in appended parameters finds the earlier part's value, else the later part's |
| ApiClient.GetParamFinds | src/lib/api-client.ts:88-100 | a lookup answers exactly when some appended parameter carries the key |
| ApiClient.FilterParamsRoundTrip | src/lib/api-client.ts:88-100 | reading the query back gives exactly the filters, with all_time and empty dates meaning "not given" |
| ApiClient.FilterParamsTimeFrame | src/lib/api-client.ts:89-91 | the time_frame read back is the given one unless absent or all_time |
| ApiClient.FilterParamsPercentage | src/lib/api-client.ts:92-94 | min_percentage reads back as given |
| ApiClient.FilterParamsStart | src/lib/api-client.ts:95-97 | start_date reads back when non-empty |
| ApiClient.FilterParamsEnd | src/lib/api-client.ts:98-100 | end_date reads back when non-empty |
| ApiClient.SameQueryIffSameFilters | src/lib/api-client.ts:88-100 | two settings send the same query iff they agree once normalised |
| ApiClient.QueryString | src/lib/api-client.ts:101 | the query string is empty iff there are no parameters |
| ApiClient.MatrixEndpoint | src/lib/api-client.ts:101-102 | the matrix path, then `?` and the query only when the query is non-empty |
| ApiClient.UnfilteredMatrixEndpoint | src/lib/api-client.ts:87-102 | no filters, all_time and empty dates all give the bare path |
| ApiClient.RecordsParams | src/lib/api-client.ts:106-119 | the archetype comes first, followed by the filter parameters |
| ApiClient.RecordsEndpoint | src/lib/api-client.ts:120-121 | the records path always has `?` and a non-empty query |
| ApiClient.FetchJson | src/lib/api-client.ts:52-84 | a missing token fails before any request; network errors pass through; OK answers give the body; 403 gives the authentication message; any other status gives "API error: status - text" |
| ApiClient.ClassifyFetchJson | src/lib/api-client.ts:61-82 | each failure message names its cause without ambiguity, and the status reads back from the API error |
| ApiClient.GetMatchupData | src/lib/api-client.ts:87-104 | requests `MatrixEndpoint(f)`; succeeds iff a token is set and that answer is OK, then gives its body, and otherwise fails with `fetchJson`'s message |
| ApiClient.FindRecord | src/lib/api-client.ts:124-130 | the first record for the archetype, or "No record found for archetype: X" when none matches |
| ApiClient.GetArchetypeWinRate | src/lib/api-client.ts:105-132 | requests `RecordsEndpoint(archetype, f)`; a `fetchJson` failure passes through unchanged; after an OK answer the result is the first record for the archetype, and it fails with "No record found for archetype: X" iff none matches |
| ApiClient.RecordIn | src/lib/api-client.ts:122-131 | what `getArchetypeWinRate` makes of one answer; the contract of `GetArchetypeWinRate`, whose whole body it is, states its meaning, and it carries none of its own |
| ApiClient.UnfilteredRecordsEndpoint | src/lib/api-client.ts:105-121 | without filters the records request is `?archetype=X` and nothing else |
| Strings.NatToStringRoundTrip | src/lib/api-client.ts:81 | the decimal rendering of a status reads back as the same number |
| Strings.StrCompareAntisymmetric | src/App.tsx:62 | the string order is antisymmetric |
| Strings.StrCompareTransitive | src/App.tsx:62 | the string order is transitive |
| Strings.Join | src/App.tsx:123 | the joined text starts with the first line, has the separator right after it when there are two or more lines, and its length is the lines' total plus one separator between each neighbouring pair |
| Strings.JoinLines | src/App.tsx:123 | every line appears, in order, at its offset: after all earlier lines, each followed by one separator |
| Strings.JoinSeparators | src/App.tsx:123 | the separator sits right before every line but the first |
| App.HandleSort | src/App.tsx:66-82 | the sort state moves on; other data is unchanged; the list is the stable sort of the old list in the new order, so ties keep their old order; the visible list is the old visible members of the list in the new order; both lists stay in the active order |
| App.HandleSortTwice | src/App.tsx:66-82 | with no ties, choosing the active key twice restores the list and the sort state |
| App.AlphaToggleReverses | src/App.tsx:62-73 | toggling the alphabetical direction reverses the list and the visible list |
| App.HandleSortKeepsSidebar | src/App.tsx:66-82 | re-sorting never changes the sidebar's A-to-Z list |
| App.HandleVisibilityChange | src/App.tsx:84-86 | the new visible list is the stable sort, in the active order, of the list the sidebar emits, so ties keep their ticking order; nothing else changes |
| App.UncheckKeepsOrder | src/App.tsx:84-86 | unchecking a name removes it and leaves the rest of the visible list in place |
| App.VisibilityIgnoresTickOrder | src/App.tsx:84-86 | with no ties, the order in which boxes were ticked does not matter |
| App.SidebarArchetypes | src/App.tsx:159 | the sidebar's list is a permutation of the archetypes, from A to Z |
| App.ErrorLines | src/App.tsx:109-119 | one line per failed archetype (as many lines as failures), empty iff every record was fetched |
| App.ErrorLinesComplete | src/App.tsx:112-115 | every failed archetype's "archetype: message" line is in the list |
| App.ErrorLinesSound | src/App.tsx:112-115 | every line is the "archetype: message" line of a failed archetype |
| App.WinRateRequest | src/App.tsx:25-27 | App's record fetch is `getArchetypeWinRate` with no filters |
| App.WinRate | src/App.tsx:25-33 | the outcome of `fetchArchetypeWinRate`; `WinRateRequest` proves it is the unfiltered `GetArchetypeWinRate`, and it carries no contract of its own |
| App.Records | src/App.tsx:106-118 | an entry for exactly the archetypes whose record was fetched, holding that archetype's record |
| App.FetchAndSetData | src/App.tsx:91-142 | any failure commits nothing, ends loading and reports the matrix error or the joined win-rate errors; success stores the matrix, stores for each key exactly the record fetched for it, and shows the keys in the stable games-descending order, all visible |
| App.FetchIsConsistent | src/App.tsx:129-140 | the loaded lists follow the sort control's initial order |
| App.MissingRecordFailsLoad | src/App.tsx:112-126 | an archetype the records endpoint does not list fails the load |
| App.View | src/App.tsx:146-177 | loading wins over errors; a non-empty error shows the error screen; otherwise the dashboard shows the A-to-Z sidebar and the visible list |
| App.LoadEndsLoading | src/App.tsx:91-155 | after the load the loading screen is gone; a failed record shows the error screen; a complete load shows every archetype |
| MetaData.Retry | src/hooks/use-meta-data.ts:23-35 | the first OK try among the remaining ones wins; otherwise the last failure, after every try |
| MetaData.FetchWithRetry | src/hooks/use-meta-data.ts:23-35 | at most the given number of tries; succeeds iff some try is OK, with the first OK body; otherwise the last try's error |
| MetaData.RetryInterchangeable | src/hooks/use-meta-data.ts:26-33 | the outcome depends only on which tries were OK, their bodies and the last try |
| MetaData.FailuresAreInterchangeable | src/hooks/use-meta-data.ts:26-33 | every kind of failure is retried the same way |
| MetaData.ThreeTries | src/hooks/use-meta-data.ts:13-33 | with the default, two failures are followed by a third and last try |
| MetaData.CacheExpiry | src/hooks/use-meta-data.ts:50-51 | a stored snapshot is used iff it is less than 300000 ms old |
| MetaData.CacheValidEarlier | src/hooks/use-meta-data.ts:51 | a snapshot valid now was valid at every earlier moment |
| MetaData.CacheValid | src/hooks/use-meta-data.ts:50-51 | a stored snapshot is fresh; the 300000 ms bound is stated by `CacheExpiry` and its monotonicity by `CacheValidEarlier`, and it carries no contract of its own |
| MetaData.FirstRecordFailure | src/hooks/use-meta-data.ts:73-83 | no failure iff every record request succeeded; otherwise the message of a failed request |
| MetaData.CollectRecords | src/hooks/use-meta-data.ts:78-81 | an entry for exactly the archetypes whose body is truthy |
| MetaData.LoadResults | src/hooks/use-meta-data.ts:69-106 | a failed record commits nothing and reports the message of a record request that gave up (the first in key order); otherwise each stored record is the body fetched for its key, the keys are in the stable games-descending order, and the snapshot written equals the state set |
| MetaData.LoadMetaData | src/hooks/use-meta-data.ts:41-117 | a valid cache is served with no request; a failed matrix request reports its error; a body without results sets nothing; a failed record request reports its own message and commits nothing; after a fresh load the records are the bodies fetched and the keys are in the stable games-descending order; the only write is the snapshot of the state set |
| MetaData.ReloadServesSnapshot | src/hooks/use-meta-data.ts:47-102 | a reload within five minutes of a write makes no request and shows the same state |
| PercentageFilter.InputChange | src/components/PercentageFilter.tsx:22-34 | the text follows the keystroke; empty or unparsable input emits undefined; a value in [0, 100] is emitted; a value outside emits nothing |
| PercentageFilter.Blur | src/components/PercentageFilter.tsx:36-46 | unparsable or negative input clears the box and emits undefined; a value above 100 becomes "100" and emits 100; a value in range changes nothing |
| PercentageFilter.SyncFromProp | src/components/PercentageFilter.tsx:14-20 | the box shows the prop's string, or "" when it is undefined |
| PercentageFilter.BlurSettles | src/components/PercentageFilter.tsx:36-46 | a second blur finds nothing to correct |
| PercentageFilter.TypingThenBlur | src/components/PercentageFilter.tsx:22-46 | typing and then blurring agree: an emitted value is kept, a value held back above 100 is clamped, cleared text is erased |
| PercentageFilter.SyncThenBlurSilent | src/components/PercentageFilter.tsx:14-46 | showing a prop in range and then blurring emits nothing |
| PercentageFilter.RunEmitsAcceptable | src/components/PercentageFilter.tsx:22-46 | over any run of keystrokes, blurs and prop changes, every emitted value is undefined or in [0, 100] |
| DateRange.OrUndefined | src/components/CustomDateRangeSelector.tsx:21 | the empty string becomes undefined and anything else passes through |
| DateRange.OrEmpty | src/components/CustomDateRangeSelector.tsx:16-17 | an absent prop becomes the empty input and a present one is shown as is |
| DateRange.Report | src/components/CustomDateRangeSelector.tsx:21 | each date is reported absent iff its input is empty, and otherwise as the input's text |
| DateRange.Init | src/components/CustomDateRangeSelector.tsx:16-17 | the local dates start from the props, with "" for an absent prop |
| DateRange.StartChanged | src/components/CustomDateRangeSelector.tsx:19-22 | the start follows the input, the end is kept, and both are reported |
| DateRange.EndChanged | src/components/CustomDateRangeSelector.tsx:24-27 | the end follows the input, the start is kept, and both are reported |
| DateRange.Clear | src/components/CustomDateRangeSelector.tsx:29-33 | both inputs are emptied and both dates are reported as absent |
| DateRange.ReportsFollowState | src/components/CustomDateRangeSelector.tsx:19-33 | every edit reports exactly the local state it leaves |
| DateRange.ClearControl | src/components/CustomDateRangeSelector.tsx:57 | the clear control shows iff either input holds text; clearing hides it; a non-empty edit shows it |
| DateRange.ShowClear | src/components/CustomDateRangeSelector.tsx:57 | the clear control's visibility test; `ClearControl` proves it holds iff something would be reported, and it carries no contract of its own |
| DateRange.ReportThenInit | src/components/CustomDateRangeSelector.tsx:16-21 | passing the reported pair back as props rebuilds the same local state |
| DateRange.AnyPairPassesThrough | src/components/CustomDateRangeSelector.tsx:19-27 | no order is imposed between the dates |
| DateRange.ReportedDatesReachQuery | src/lib/api-client.ts:95-100 | a reported date becomes a query parameter iff its input holds text |

## Left out

- Network, local storage and the clock: `fetch`, `localStorage` and `Date.now()` are parameters. The parsed body of an answer is part of the `Transport`/`Attempt` value given for it; a `response.json()` that rejects is not modelled separately, and in `App` it would reach the same `catch` as a network error (`src/App.tsx:16-22`).
- Timers and cancellation: the one-second `setTimeout` between retries is dropped, and nothing in the model waits. The hook creates an `AbortController` and aborts it on unmount (`src/hooks/use-meta-data.ts:38`, `:123`), but its signal is never passed to `fetch` (`:25`), so it cancels nothing; the model leaves it out.
- MetaMatrix.CalculateWinrate: the Wilson score interval is a third-party library and is the parameter `wilson`, a total function. The source calls it before the zero-games check (`src/components/MetaMatrix.tsx:48-50`), so the model assumes it returns normally when the total is 0; a library that throws there would make a zero-game cell fail rather than show empty.
- IEEE floating point. Win rates and percentages are exact `real`s. `parseFloat` is the parameter `parse`, `Number.toString` is `show`, and `toFixed(1)` and the number formatting inside `hsl(...)` are not modelled.
- SortEngine.SortArchetypes: `localeCompare` is replaced by plain code-point order (`Strings.StrCompare`, over Dafny's Unicode-scalar `char`), because locale collation is outside Dafny.
- SortEngine.SortArchetypes: the win-rate key requires every listed archetype with a record to have at least one game. The source divides 0 by 0 there and sorts on NaN, which breaks the comparator's consistency.
- App.ErrorLines: the lines are in key order. In the source they are pushed in completion order, so the message matches the source only up to a permutation of its lines.
- MetaData.Retry: requires at least one attempt. The source's stopping test is `attempts === 1` (`src/hooks/use-meta-data.ts:31`), so a call with 0 or fewer attempts would retry without end; every caller passes 3.
- MetaData.FirstRecordFailure: reports the first failure in key order. `Promise.all` rejects with whichever request fails first in time.
- MetaData.LoadMetaData: the component stays mounted, so the `isMounted` guards never fire. A stored snapshot that fails `JSON.parse` is not modelled. A timestamp that is not a number is treated like a missing one, which has the same effect.
- URL percent-encoding by `URLSearchParams`: the query is an ordered list of key/value pairs, and `QueryString` shows it unencoded. `API_BASE_URL` and the `Authorization` header are not modelled.
- The record shapes disagree. `App` passes the API's `{wins, losses, draws}` matrix to the matrix component, which reads `archetype_1_wins`/`archetype_2_wins`. The matrix view works on a canonical `Cell` with one adapter per shape (`Shapes.FromApi`, `Shapes.FromLegacy`). JavaScript's arithmetic on the missing fields is not modelled.
- The `winrateOption` state and prop in `App` are not declared by either component, so they are ignored.
- React rendering, effects, the theme provider and the sidebar's collapse toggle. Only the choice of screen (`App.View`) and the matrix's table structure (`MetaMatrix.Render`) are modelled.
- `TimePeriodSelector` is a radio-button list. It offers `1_month`, which is outside the API client's `TimeFrame` type. The error boundary and `ErrorMessage` are presentation only. The Netlify proxy function forwards HTTP requests. None of these is modelled.
- Console logging in development mode.
