# A verified model of the UTD hackathon telecom dashboard

The dashboard shows network outage "hotspots" on a map, compares carriers,
and lets a user query a city and generate JSON reports. It is mostly
presentational React. Under the JSX sit small pieces of sequential logic
over plain records, and this project models that logic in Dafny and proves
what each piece promises:

- the hotspot provider filter, the badge and severity counts, the hotspot
  overlay of the analysis record and the three-way report payload, on both
  the command-centre page (`src/App2.tsx`) and the coverage page
  (`src/pages/Index.tsx`), including the `"City, ST"` label split and the
  key-driver and trend lists;
- the competitor chart rows, the tab-to-metric key and the winner, taken as
  the head of a stable descending sort;
- the city query panel's suggestion rule, validator, geocoded-name matcher
  and its state machine (typing, picking, auto-detect, "Analyze");
- the module-level toast store with its listeners;
- the 24-hour trend window, the celebration "sweep" and latch, the agent
  status updates and timer schedule, the API URL join, and the severity and
  CHI colour bands.

One Dafny module models each source file. Three helper modules hold shared
pieces: `Wrappers` (Option and Result), `Seqs` (`filter`, `find`, `slice(0, n)`
and `map`, each with its contract proved once) and `Strings` (ASCII
lower-casing, `includes`, `split`/`join`, decimal rendering). String-literal
unions are datatypes with a `Name()` and a parser that is its exact inverse.
Fractional numbers are `real`. React state lives in classes whose methods
state the whole new state. When one method — a click or a settled request —
sets several pieces of state, it does so in one step.

The clock, random ids, network answers, geolocation and the date parser
are inputs:
- a `generatedAt` string in the report methods;
- `now` and `randomText` in the toast store;
- sum-type outcomes in the query panel (`CitiesOutcome`, `AnalyzeOutcome`,
  `GeoOutcome`);
- a `fetch` function in `Api.Get`;
- `now` and a `timeOf` parser in `TrendTimeline.Filtered`.

The ten hotspots and the provider buttons of the command centre are the
constants `CommandCenter.MockHotspots` (`src/App2.tsx:14-25`) and
`CommandCenter.ProviderIds` (`src/App2.tsx:27-32`). An `AnalysisResult`
value always has all eight parts, because every field of the datatype is
required (`src/types/index.ts:81-96`). Datatypes are values, so
`WinnerName` sorting its own copy can never reorder the chart rows it is
given (`src/components/CompetitorComparison.tsx:76`).

Where the declared types and the code disagree, the model follows the code:
- `LocationData.state` is optional, because the coverage page stores
  `split(', ')[1]`, which can be `undefined`.
- `CompetitorData.marketShare` is optional, because the chart falls back to
  0 when it is missing.

## Model

| member | source | states |
|---|---|---|
| `Types.ParseSeverity` | src/types/index.ts:19 | the only severities are "critical", "warning" and "moderate"; parsing is the exact inverse of `Name` |
| `Types.ParseAgentState` | src/types/index.ts:39 | the only agent states are idle, processing, complete and error; parsing inverts `Name` |
| `Types.ParseSentiment` | src/types/index.ts:49 | the only sentiments are positive, negative and neutral |
| `Types.ParseDriverCategory` | src/types/index.ts:52 | the only driver categories are network, pricing, support, coverage and features |
| `Types.ParseLoadingState` | src/types/index.ts:156 | the only loading states are idle, loading, success and error |
| `HotspotSelection.FilterByProvider` | src/App2.tsx:61-63 | "all" gives the list unchanged; any other provider gives exactly the hotspots with that tag, in original order, as many as there are |
| `HotspotSelection.BadgeCount` | src/App2.tsx:153 | a badge shows the whole length for "all", otherwise the number of hotspots with that tag, which is the number of markers the button would show |
| `HotspotSelection.SeverityCount` | src/App2.tsx:163 | a severity card never counts more hotspots than the list shown |
| `HotspotSelection.SeverityCountsPartition` | src/App2.tsx:163-177 | the critical, warning and moderate cards add up to the length of the list shown |
| `HotspotSelection.ReportPayload` | src/App2.tsx:82-87 | the payload has the clock reading and the target; a target with a non-empty city gets the hotspot overlay, a point target gets the note and its coordinates, and nothing else gets an analysis |
| `HotspotSelection.EmptyCityHotspotHasNoAnalysis` | src/App2.tsx:83 | a hotspot with an empty city label is falsy for the city test, so its report has no analysis |
| `CommandCenter.AnalysisForHotspot` | src/App2.tsx:68-77 | the overlay sets the location's city to the hotspot's label and the CHI to the hotspot's; every other field of the analysis and of the location is unchanged |
| `CommandCenter.MarkerColor` | src/App2.tsx:238-243 | critical, warning and moderate get their own colours; any other severity gets '#94a3b8' |
| `CommandCenter.MarkerRadius` | src/App2.tsx:245 | the radius is 16 exactly when the severity is critical, and 12 otherwise |
| `CommandCenter.Dashboard.constructor` | src/App2.tsx:44-47 | the page starts with no selection, provider "all", the modal closed and no target |
| `CommandCenter.Dashboard.SelectProvider` | src/App2.tsx:140 | a provider button selects that provider |
| `CommandCenter.Dashboard.OpenReportModal` | src/App2.tsx:125 | the header button opens the modal and leaves the target as it was |
| `CommandCenter.Dashboard.ClickMarker` | src/App2.tsx:254 | a marker click selects its hotspot |
| `CommandCenter.Dashboard.ClickPopupReport` | src/App2.tsx:277-279 | the popup button makes the hotspot both the target and the selection, and opens the modal |
| `CommandCenter.Dashboard.ClickMap` | src/App2.tsx:300-304 | a map click targets the point, clears the selected hotspot and opens the modal |
| `CommandCenter.Dashboard.ClosePanel` | src/App2.tsx:323 | the side panel's close button clears the selection |
| `CommandCenter.Dashboard.CloseReportModal` | src/App2.tsx:423 | the modal's close button closes it |
| `CommandCenter.Dashboard.GenerateReport` | src/App2.tsx:80-99 | with no target nothing is produced and the modal stays as it is; otherwise the payload for the target is produced and the modal closes |
| `CoverageDashboard.CityIsTextBeforeFirstComma` | src/pages/Index.tsx:31 | the derived city is the label up to its first comma, or the whole label when there is none |
| `CoverageDashboard.StateIsSecondSegment` | src/pages/Index.tsx:32 | the derived state is absent exactly when the label has no ", "; otherwise it is the text after the first ", " up to the next one |
| `CoverageDashboard.AnalysisForHotspot` | src/pages/Index.tsx:26-36 | the overlay sets the city and state from the label and the CHI from the hotspot; nothing else changes |
| `CoverageDashboard.DriverTexts` | src/pages/Index.tsx:87-96 | a driver list holds min(5, number of matching drivers) texts; entry i is the text of the i-th driver of that sentiment in the original order, so the list is the texts of the first five matches; with at most five matches, all of them are kept |
| `CoverageDashboard.KeyDriversData` | src/pages/Index.tsx:87-96 | the positive list is exactly `DriverTexts` for the positive sentiment and the negative list for the negative one; both hold at most five texts, and neutral drivers feed neither |
| `CoverageDashboard.TrendsData` | src/pages/Index.tsx:98-101 | min(24, n) entries, the first points in order, each with its hour as the date and its score as the value |
| `CoverageDashboard.IndexPage.constructor` | src/pages/Index.tsx:16-20 | the page starts with no selection, provider "all", the modal closed and no target |
| `CoverageDashboard.IndexPage.FilteredHotspots` | src/pages/Index.tsx:22-24 | the same filter as the command centre: "all" gives the list unchanged, otherwise the matching hotspots in order, as many as the list holds for that provider |
| `CoverageDashboard.IndexPage.CurrentAnalysis` | src/pages/Index.tsx:76-78 | the base analysis when nothing is selected, otherwise exactly the selected hotspot's overlay of it (`AnalysisForHotspot`) |
| `CoverageDashboard.IndexPage.SelectProvider` | src/pages/Index.tsx:140 | the provider filter's change selects that provider |
| `CoverageDashboard.IndexPage.ClickHotspot` | src/pages/Index.tsx:38-40 | a hotspot click selects it |
| `CoverageDashboard.IndexPage.ClickMap` | src/pages/Index.tsx:42-45 | a map click targets the point and opens the modal; the selected hotspot is kept |
| `CoverageDashboard.IndexPage.ClickHeaderReport` | src/pages/Index.tsx:116-119 | the header button targets the selected hotspot, or the general view when none is selected, and opens the modal |
| `CoverageDashboard.IndexPage.CloseReportModal` | src/pages/Index.tsx:187 | closing the modal |
| `CoverageDashboard.IndexPage.GenerateReport` | src/pages/Index.tsx:47-74 | with no target nothing is produced; otherwise the payload built with this page's overlay is produced and the modal closes |
| `CoverageDashboard.GeneralReportHasNoAnalysis` | src/pages/Index.tsx:55-62 | a general target yields a payload without analysis |
| `CompetitorComparison.Round` | src/components/CompetitorComparison.tsx:51 | `Math.round` gives the nearest integer, with halves rounding up |
| `CompetitorComparison.Normalize` | src/components/CompetitorComparison.tsx:48-57 | sentiment is the rounded CHI, network is the signal strength, value is the market share or 0 when it is absent; the other fields are copied |
| `CompetitorComparison.ChartData` | src/components/CompetitorComparison.tsx:46-58 | one row per competitor, in the same order |
| `CompetitorComparison.KeyForTab` | src/components/CompetitorComparison.tsx:60-73 | CHI, Sentiment, Network and Value each select their own field; any other tab selects the CHI |
| `CompetitorComparison.SortDescPermutation` | src/components/CompetitorComparison.tsx:76 | the sorted copy holds exactly the rows, each as often as before: it is a permutation |
| `CompetitorComparison.SortDescSorted` | src/components/CompetitorComparison.tsx:76 | the sorted copy is in descending order of the tab's metric |
| `CompetitorComparison.FirstMaxIndex` | src/components/CompetitorComparison.tsx:75-78 | the reference winner: no row has a larger metric, and every earlier row has a strictly smaller one |
| `CompetitorComparison.SortDescHead` | src/components/CompetitorComparison.tsx:76-77 | the head of the stable descending sort is the first row with the largest metric |
| `CompetitorComparison.WinnerName` | src/components/CompetitorComparison.tsx:75-78 | the winner is absent exactly when there are no rows; otherwise it is the name of a row that none beats, with ties going to the earliest row |
| `CompetitorComparison.WinnerIsFirstBest` | src/components/CompetitorComparison.tsx:75-78 | a panel's winner is the name of the first best row for the selected tab |
| `CompetitorComparison.FormatTick` | src/components/CompetitorComparison.tsx:24-26 | a tick changes exactly when it equals the winner's name, and then only by the trophy suffix |
| `CompetitorComparison.BarColor` | src/components/CompetitorComparison.tsx:106 | a bar is pink exactly when its name is 'T-Mobile', and gray otherwise |
| `QueryPanel.Suggest` | src/components/QueryPanel.tsx:49-58 | an empty query gives no suggestions; otherwise at most eight, each containing the query case-insensitively, in list order, and exactly the matches within some prefix of the list, so they are the first matches |
| `QueryPanel.AllMatchesSuggestedWhenFew` | src/components/QueryPanel.tsx:54-57 | with at most eight matches, every matching city is suggested |
| `QueryPanel.ValidateCity` | src/components/QueryPanel.tsx:120-124 | false for no city or the empty string; otherwise true exactly when some city equals it case-insensitively |
| `QueryPanel.MatchGeocodedCity` | src/components/QueryPanel.tsx:101 | the first city containing the geocoded name case-insensitively, or the raw name when none does |
| `QueryPanel.FirstNonEmpty` | src/components/QueryPanel.tsx:98 | the first present, non-empty name field, or "" when there is none |
| `QueryPanel.Panel.constructor` | src/components/QueryPanel.tsx:12-27 | the initial state, with the cities request started |
| `QueryPanel.Panel.Unmount` | src/components/QueryPanel.tsx:43-45 | the cleanup marks the panel unmounted |
| `QueryPanel.Panel.CitiesLoaded` | src/components/QueryPanel.tsx:33-41 | an array body becomes the list, any other body the fallback list (both only while mounted); a failed request always installs the fallback list; loading ends only while mounted |
| `QueryPanel.Panel.SuggestionEffect` | src/components/QueryPanel.tsx:49-60 | the suggestions follow `Suggest`; after a non-empty query the dropdown shows exactly when there are suggestions |
| `QueryPanel.Panel.Type` | src/components/QueryPanel.tsx:175-178 | editing sets the query and clears the selected city |
| `QueryPanel.Panel.Focus` | src/components/QueryPanel.tsx:179 | focusing shows the dropdown exactly when there are suggestions |
| `QueryPanel.Panel.ClickOutside` | src/components/QueryPanel.tsx:63-70 | a click outside closes the dropdown |
| `QueryPanel.Panel.HandleSelect` | src/components/QueryPanel.tsx:72-77 | picking a city sets both the selection and the query to it, closes the dropdown and clears the error |
| `QueryPanel.Panel.AnalyzeBranch` | src/components/QueryPanel.tsx:126-135 | the 'Please select' branch is taken exactly when no city or an empty one is selected; the 'not valid' branch exactly when a non-empty selection is not in the list; otherwise the call is made |
| `QueryPanel.Panel.CanAnalyze` | src/components/QueryPanel.tsx:146 | an enabled button is idle and never takes the 'Please select' branch; while idle, a disabled button is exactly that branch |
| `QueryPanel.Panel.RunAnalyze` | src/components/QueryPanel.tsx:126-144 | the guards run in order, following `AnalyzeBranch`: no selection gives 'Please select…' and no call; an unknown city gives '…is not valid…' and no call; otherwise exactly one call, the rejection message or 'Analyze failed' as the error, and loading off afterwards |
| `QueryPanel.Panel.DetectLocation` | src/components/QueryPanel.tsx:80-118 | no geolocation sets its own error and stops; a position error, a failed reverse lookup and a missing name each set their own message; a name is matched and selected as `handleSelect` does; every failure leaves the selection, query and dropdown as they were; loading ends in every case that started it |
| `ToastStore.Slice` | src/hooks/use-toast.ts:21 | `slice(2, 7)` takes at most five characters from position 2, clamped to the string |
| `ToastStore.ToastId` | src/hooks/use-toast.ts:21 | an id is the decimal clock reading followed by `slice(2, 7)` of the random text, so at most five more characters |
| `ToastStore.Opened` | src/hooks/use-toast.ts:22 | `open` puts one record in front and keeps the previous list as the suffix |
| `ToastStore.Closed` | src/hooks/use-toast.ts:27 | `close` removes every record with that id and keeps the others in order, as many as there are records with another id; an absent id leaves the list unchanged |
| `ToastStore.OpenThenCloseRestores` | src/hooks/use-toast.ts:22-27 | with a fresh id, `open` followed by `close` of its id gives back the prior list |
| `ToastStore.Without` | src/hooks/use-toast.ts:42 | deleting a listener removes it and keeps the others in order |
| `ToastStore.UnsubscribeAfterSubscribeRestores` | src/hooks/use-toast.ts:40-43 | the function `subscribe` returns undoes the subscription of a new listener |
| `ToastStore.Store.constructor` | src/hooks/use-toast.ts:12-13 | the store starts with no toasts and no listeners |
| `ToastStore.Store.GetSnapshot` | src/hooks/use-toast.ts:36-38 | the snapshot is the current list itself |
| `ToastStore.Store.Notify` | src/hooks/use-toast.ts:15-17 | every subscribed listener is invoked exactly once, in set order |
| `ToastStore.Store.Open` | src/hooks/use-toast.ts:20-25 | `open` prepends a record with the new id, notifies every listener once and returns that id |
| `ToastStore.Store.Close` | src/hooks/use-toast.ts:26-29 | `close` removes by id and notifies every listener once |
| `ToastStore.Store.Show` | src/hooks/use-toast.ts:31-33 | `show` behaves exactly as `open` |
| `ToastStore.Store.Subscribe` | src/hooks/use-toast.ts:40-41 | `subscribe` adds a listener once, as a set does |
| `ToastStore.Store.Unsubscribe` | src/hooks/use-toast.ts:42 | the returned function deletes the listener, keeping the set duplicate-free |
| `TrendTimeline.Cutoff` | src/components/TrendTimeline.tsx:23-24 | the cutoff is now minus 86,400,000 ms |
| `TrendTimeline.Filtered` | src/components/TrendTimeline.tsx:21-27 | empty data gives empty; when some point is recent, exactly the recent points in order, as many as there are; when none is, the data unchanged; so the result is non-empty exactly when the data is |
| `TrendTimeline.LastPoint` | src/components/TrendTimeline.tsx:29 | the last point is the final shown element, absent exactly when nothing is shown |
| `TrendTimeline.IsCurrentDot` | src/components/TrendTimeline.tsx:43 | a dot is highlighted exactly when there is a last point with the dot's timestamp |
| `TrendTimeline.LastShownPointIsCurrent` | src/components/TrendTimeline.tsx:43 | with any data, the last shown point is drawn highlighted |
| `DelightEffect.IsTMobileSweep` | src/components/DelightEffect.tsx:19-22 | the sweep holds exactly when all four tabs are present and map, lower-cased, to 't-mobile' or 'tmobile' |
| `DelightEffect.MissingTabIsNoSweep` | src/components/DelightEffect.tsx:21 | a missing tab counts as the empty name, so there is no sweep |
| `DelightEffect.ShouldAutoTrigger` | src/components/DelightEffect.tsx:72-76 | the auto celebration needs auto mode, a CHI score strictly above 80 and a sweep |
| `DelightEffect.DefaultsNeverAutoTrigger` | src/components/DelightEffect.tsx:15 | with the default score and winners nothing fires |
| `DelightEffect.SoundPlays` | src/components/DelightEffect.tsx:69 | the sound plays exactly when the override is true, or when no options were given and the sound prop is on |
| `DelightEffect.Delight.constructor` | src/components/DelightEffect.tsx:15-17 | the latch starts open and the toast hidden |
| `DelightEffect.Delight.TriggerDelight` | src/components/DelightEffect.tsx:46-70 | once the latch is set nothing happens; otherwise the latch is set, one celebration starts, the toast shows and the sound follows `SoundPlays` |
| `DelightEffect.Delight.HideToast` | src/components/DelightEffect.tsx:57 | the toast timer hides the toast |
| `DelightEffect.Delight.AutoEffect` | src/components/DelightEffect.tsx:72-78 | without the trigger condition nothing changes; with it, the latch fires at most once, and the toast is shown once it has fired |
| `DelightEffect.Delight.ManualTrigger` | src/components/DelightEffect.tsx:91 | the manual button resets the latch and always celebrates once, with sound |
| `AgentFlow.InitialStates` | src/components/AgentFlow.tsx:7-15 | the initial cards are the `agents` prop, or by default four idle agents |
| `AgentFlow.MarkLoading` | src/components/AgentFlow.tsx:27 | only card i becomes loading; the length and every other card are unchanged |
| `AgentFlow.MarkComplete` | src/components/AgentFlow.tsx:33 | only card i becomes complete, with result 'Done'; every other card is unchanged |
| `AgentFlow.ScheduleFor` | src/components/AgentFlow.tsx:24-36 | the effect registers exactly two timers per agent |
| `AgentFlow.ScheduleEntries` | src/components/AgentFlow.tsx:24-36 | timer 2i starts agent i and timer 2i+1 completes it |
| `AgentFlow.ScheduleTiming` | src/components/AgentFlow.tsx:22-34 | agent i goes loading at 500·i ms and completes at 500·i + 1200 ms, so loading precedes completion and the starts are 500 ms apart |
| `AgentFlow.Schedule` | src/components/AgentFlow.tsx:24-36 | the registration loop produces exactly that schedule |
| `AgentFlow.SchedulePrefixCompletes` | src/components/AgentFlow.tsx:24-36 | after the first n agents' timers fire in registration order, those cards are done and the rest untouched |
| `AgentFlow.FullScheduleCompletesAll` | src/components/AgentFlow.tsx:24-36 | firing the whole schedule leaves every card complete with result 'Done' |
| `AgentFlow.ApplyAllAtCard` | src/components/AgentFlow.tsx:24-36 | card j after any sequence of timers depends only on card j's own timers, in their order |
| `AgentFlow.CompletesWhenEachStartPrecedesItsFinish` | src/components/AgentFlow.tsx:24-36 | in any firing order where each card's start comes before its finish, every card ends complete with result 'Done' |
| `AgentFlow.Run.constructor` | src/components/AgentFlow.tsx:15 | the run starts from the initial cards with no timers |
| `AgentFlow.Run.Mount` | src/components/AgentFlow.tsx:17-36 | mounting an unmounted run registers the two timers per card and starts with no timer cleared |
| `AgentFlow.Run.Fire` | src/components/AgentFlow.tsx:25-34 | a fired timer applies its update only while mounted and not cleared |
| `AgentFlow.Run.Cleanup` | src/components/AgentFlow.tsx:38-41 | the cleanup clears every timer and unmounts, which blocks any later update |
| `Api.BaseUrl` | src/services/api.ts:4 | the base is the environment value, or 'http://localhost:8000/api' when it is unset or empty |
| `Api.StripTrailingSlash` | src/services/api.ts:7 | at most one trailing slash is removed |
| `Api.StripLeadingSlash` | src/services/api.ts:7 | at most one leading slash is removed |
| `Api.SeamSlashIrrelevant` | src/services/api.ts:7 | with or without a slash at the end of the base and at the start of the path, all four forms give base + '/' + path |
| `Api.DoubleSlashKept` | src/services/api.ts:7 | a base ending in '//' keeps one of them, so the URL has a double slash at the seam |
| `Api.Get` | src/services/api.ts:6-11 | an ok response gives its body; any other gives an error 'Request failed: ' followed by the status |
| `CoverageMap.SeverityColor` | src/components/CoverageMap.tsx:21-28 | critical, warning and moderate get their colours, and any other severity '#6b7280' |
| `CoverageMap.OwnColourOnlyForSeverities` | src/components/CoverageMap.tsx:21-28 | only the three severities escape the default colour |
| `CoverageMap.MarkerRadius` | src/components/CoverageMap.tsx:47 | 16 for critical, 12 for warning, 8 for anything else |
| `CoverageMap.RadiusFollowsSeriousness` | src/components/CoverageMap.tsx:47 | the radius strictly decreases from critical to warning to moderate |
| `LocationSummary.BandOf` | src/components/LocationSummaryHeader.tsx:12 | 75 and up is the moderate band, 65 up to 75 the warning band, below 65 the critical band |
| `LocationSummary.ChiColor` | src/components/LocationSummaryHeader.tsx:12 | each class string is chosen exactly for its score range |
| `LocationSummary.BandIsMonotone` | src/components/LocationSummaryHeader.tsx:12 | raising the score never moves it to a worse band |
| `LocationSummary.ClassNamesDistinct` | src/components/LocationSummaryHeader.tsx:12 | the band can be read back from its class |

## Left out

- Rendering is not modelled: JSX, Leaflet maps and tiles, recharts, framer-motion
  and CSS classes are presentation and foreign libraries.
- Browser effects become counters or values. The report's Blob, object URL
  and anchor download become a payload value. Confetti, Web Audio and the DOM
  shake become counters.
- The time the celebration toast stays visible is not modelled; hiding it is
  the separate `HideToast` step.
- `Date.now`, `toISOString` and `Math.random` are inputs.
- `fetch`, Nominatim and geolocation are inputs. Their answers are the
  sum-type outcomes or function parameters named above.
- `src/hooks/useWebSocket.ts` is not part of this model.
- Floating point is not modelled: numbers are exact `real`s.
  - The 2.3 affected-customers factor and its `Math.floor`
    (`src/App2.tsx:222`, `src/App2.tsx:336`) and the 84.2 baseline drop with
    `toFixed` (`src/App2.tsx:351`) are display arithmetic.
  - `Round` is exact rounding, not IEEE rounding.
  - A NaN metric in the competitor sort is not modelled.
- `toLowerCase` is ASCII-only: `Lower` folds A–Z and leaves every other
  character as it is.
- The legend's outage-count thresholds (`src/App2.tsx:196-210`) are left out.
  The mock data does not follow them.
- `analyse_insights.py` and `archive/get_siteinfo.py` are not part of this
  model: they are an LLM HTTP call with a file write, and HTML scraping
  through foreign libraries.
- The purely visual components are not part of this model (ReportModal,
  KeyDrivers, NetworkHealth, TrendChart, ProviderFilter, MockPreview,
  AgentCard). `AgentCard` contributes only its status type.
- `tailwind.config.js` and `src/utils/helpers.ts` are not part of this model.
- The `@/mocks/index.mock` module (the mock analysis, the Index hotspots and
  `mockCities`) is not part of this model. Its values are parameters.
- React's batching and effect scheduling are not modelled:
  - each handler is one atomic step, with the final values its setters leave;
  - effects such as `SuggestionEffect` are separate steps the caller runs;
  - the asynchronous middle of `RunAnalyze`, while `loadingAnalyze` is true,
    is not observable in the model.
- The `cities` list that `detectLocation` sees is the current one. In the
  component, the closure can hold an older list.
- Timer firing order is chosen by whoever calls `AgentFlow.Run.Fire`.
  `CompletesWhenEachStartPrecedesItsFinish` covers every order in which each
  card's start fires before its finish; orders that fire a finish first are
  not characterised.
- The tab selection of the competitor panel is the `tab` field of a `Panel`
  value rather than a class.
- `CommandCenter.MarkerColor` reads the `colors` record only for the three
  severity names. JavaScript prototype keys of that record are not modelled.
- The per-provider badge numbers for the ten built-in hotspots are stated
  generally (`BadgeCount`), not computed for that literal list.
- `ToastStore.ToastPayload` carries only a title and a description. The
  arbitrary extra props a toast can carry are not modelled.
- Listeners are modelled as numbers in insertion order. Two subscriptions
  of the same function are one element, as in a JavaScript `Set`.
