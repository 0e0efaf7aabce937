# PlantDoctor session model

PlantDoctor is a single-page React app. A user photographs a plant or a
soil sample. The app sends it to an analysis service and shows the report.
The catalogue lists 26 languages. English is the base language: the
reports are written in it, and choosing it drops every translation. A report
can be translated into any of the other 25. Plant reports are
kept in a history that is saved in the browser's storage. The app can also
fetch a list of general care tips.

The model covers the logic that decides what the app shows and remembers:

- `App` (app.dfy) models the session. `Session` is a class whose field
  `state` holds every state variable of the app component, grouped as the
  component groups them: plant analysis, soil analysis and care tips each
  get a sub-record; the view, image, scan mode, language, translation mark
  and history sit at the top level. There is one method per event
  handler, and handlers that await a service are split at the `await` into
  a `Start…` half and a `Settle…` half. The pure functions `RenderView` and
  `RenderPage` choose the screen and its props from a state snapshot.
  `HistoryStore` is the browser storage, which outlives a session.
- `Types` (types.dfy) holds the records and enums the app passes around.
- `Languages` (languages.dfy) holds the language catalogue and the
  case-insensitive substring filter.
- `LanguageSelector` (language_selector.dfy) models the drop-down: a
  toggle disabled while translating, a search box, and a listing.
- `AnalysisScreen` and `SoilAnalysisScreen` model the two result screens.
  Each tests four branches in order: loading, failure, no result, report.
  `ScreenParts` holds the pieces they share.
- `Loading` (loading.dfy) models the progress-message step counter both
  result screens use.
- `Scenarios` (scenarios.dfy) describes whole sessions on fresh objects. It
  states what the page or the store shows at the end.

Service answers are `Outcome` parameters: success with any value, or failure.
The user's answer to the confirmation dialog and whether a storage write or
removal throws are plain `bool` parameters. The clock readings for a history
record are plain `string` parameters.

## Model

| member | source | states |
|---|---|---|
| Types.AllViews | types.ts:1-12 | There are exactly ten views, `Home` first, pairwise distinct and with pairwise distinct string values |
| Types.AllViewsComplete | types.ts:1-12 | Every view is one of the ten |
| Types.HealthStatusText | types.ts:22 | A health verdict is one of "Healthy", "Unhealthy", "Needs Care", and each text belongs to exactly one verdict |
| Languages.Find | App.tsx:51 | The lookup finds a language exactly when it is in the list, and what it finds is that language |
| Languages.DefaultLanguage | App.tsx:51 | The start-up lookup `find(English) or first entry` yields "English", which is in the catalogue |
| Languages.CatalogueDistinct | App.tsx:16-21 | No catalogue entry appears twice, so entries can serve as list keys |
| Languages.Lower | components/LanguageSelector.tsx:18 | Lower-casing keeps the length, leaves no upper-case letter, replaces each upper-case letter by its lower-case partner at the same place, and keeps every other character |
| Languages.LowerIdempotent | components/LanguageSelector.tsx:18 | Lower-casing twice is the same as once |
| Languages.FilterByTerm | components/LanguageSelector.tsx:17-19 | The filter keeps an order-preserving subsequence, and keeps an entry exactly when its lower-cased name contains the lower-cased term |
| Languages.FilteredLanguages | components/LanguageSelector.tsx:17-19 | Over the catalogue: a subsequence, and an entry is listed iff its lower-cased name contains the lower-cased search term |
| Languages.IncludesEmpty | components/LanguageSelector.tsx:18 | Every name contains the empty string |
| Languages.FilterKeepsAll | components/LanguageSelector.tsx:17-19 | When every entry matches, the filter returns the list unchanged |
| Languages.EmptyTermOffersAll | components/LanguageSelector.tsx:14-19 | The initial empty search term lists the whole catalogue, in order |
| Languages.FilterIgnoresCase | components/LanguageSelector.tsx:17-19 | Two terms that lower-case alike select the same entries |
| Languages.SearchIsCaseInsensitive | components/LanguageSelector.tsx:17-19 | Searching for a term or for its lower-cased form gives the same list |
| Languages.FilterKeepsNone | components/LanguageSelector.tsx:17-19 | When no entry matches, the filter returns the empty list |
| Languages.FilterKeepsDistinct | components/LanguageSelector.tsx:17-19 | Filtering a list without repeats gives a list without repeats |
| LanguageSelector.NoMatchShowsPlaceholder | components/LanguageSelector.tsx:75-89 | A term that no catalogue entry contains gets the "No results found" placeholder instead of a list |
| LanguageSelector.ListingMarksCurrentOnce | components/LanguageSelector.tsx:76-86 | In a shown list at most one entry is marked selected, and one is marked exactly when the current language is among the matches |
| LanguageSelector.Selector.constructor | components/LanguageSelector.tsx:13-14 | A mounted selector is closed with an empty search term |
| LanguageSelector.Selector.Toggle | components/LanguageSelector.tsx:43-46 | A click on an enabled toggle flips the list open or closed; while translating it changes nothing |
| LanguageSelector.Selector.Search | components/LanguageSelector.tsx:65-69 | Typing sets the search term and leaves the list open |
| LanguageSelector.Selector.SelectLanguage | components/LanguageSelector.tsx:35-39 | Picking a listed language forwards exactly it, closes the list and clears the term |
| LanguageSelector.ClickWhileTranslating | components/LanguageSelector.tsx:45-46 | While translating, any number of clicks leaves a closed selector closed |
| LanguageSelector.ReopenAfterSelect | components/LanguageSelector.tsx:35-39 | After any selection the list shown on reopening is the listing for the empty term, with all 26 languages |
| Loading.IndexAfterTicks | components/AnalysisScreen.tsx:27-39 | After n ticks the index is min(n, last): up by one per tick, never past the last message |
| Loading.IndexMonotone | components/SoilAnalysisScreen.tsx:26-40 | The index never decreases and grows by at most one per tick |
| Loading.LoadingIndicator.constructor | components/AnalysisScreen.tsx:27-30 | Mounting starts at message 0 with the timer running |
| Loading.LoadingIndicator.Message | components/AnalysisScreen.tsx:55-57 | The displayed message is one of the screen's messages |
| Loading.LoadingIndicator.Tick | components/AnalysisScreen.tsx:30-39 | A tick advances the index by one below the last message; at the last it stops the timer and keeps the index; the index is min(ticks, last) |
| AnalysisScreen.ProgressAfter | components/AnalysisScreen.tsx:18-39 | After n ticks the plant loading screen shows message min(n, 4) of its five, and "Finalizing your report..." from the fourth tick on |
| AnalysisScreen.BadgeShowsStatus | components/AnalysisScreen.tsx:64-73 | Each verdict's badge carries its own text, and distinct verdicts get distinct tones |
| AnalysisScreen.Render | components/AnalysisScreen.tsx:75-169 | Loading, else failure panel on a non-empty error, else "No Result", else the report; every other branch has a button calling the done action; the selector only in the report; the photo, issues and recommendations only when present; the report button has the given label |
| SoilAnalysisScreen.ProgressAfter | components/SoilAnalysisScreen.tsx:17-40 | After n ticks the soil loading screen shows message min(n, 4) of its five, and "Finalizing your report..." from the fourth tick on |
| SoilAnalysisScreen.Render | components/SoilAnalysisScreen.tsx:62-141 | The same precedence and buttons; recommended plants only when the list is non-empty, in order; the done button reads "Analyze Another Soil" |
| App.InitialState | App.tsx:26-55 | A session starts on Home, in English, with no image, results or tips, nothing loading and an empty history |
| App.TranslationTarget | App.tsx:195-210 | A language change translates the plant result on the plant screens when there is one, the tips on the tips screen when there are some, the soil result on the soil screens when there is one, and nothing otherwise |
| App.TranslationBegun | App.tsx:193-207 | Starting a translation marks it in flight and clears exactly the two translated slots other than the target's; nothing else changes |
| App.TranslationSettled | App.tsx:194-216 | When the translation call settles, only the target's translated slot can change, and only on success; the in-flight mark is cleared either way; nothing else changes |
| App.FailedTranslationKeepsScreen | App.tsx:211-216 | A failed translation into a non-base language leaves every view showing what it showed before, apart from the new language name |
| App.TranslatedReportShown | App.tsx:195-199 | A successful translation on a plant screen with a result puts the translated result on screen, with the same loading flag, image, done button and error as before |
| App.TranslationReplacesOnlyTarget | App.tsx:184-216 | A change to a non-base language, start to finish: the target's slot gets the translation on success and keeps the earlier one on failure, the other two slots are emptied, no translation stays in flight, and only the language and the translated slots differ from before |
| App.HistoryStore.constructor | App.tsx:23 | The store starts with the given record |
| App.Session.constructor | App.tsx:26-55 | A mounted session is in the initial state |
| App.Session.HydrateHistory | App.tsx:57-66 | On mount a stored record becomes the history; with none, the history stays as it is |
| App.Session.StartPlantAnalysis | App.tsx:69-76 | Submitting a plant image shows the analyzing screen, clears the previous result, error, history flag and translation, and resets the language |
| App.Session.SettlePlantAnalysis | App.tsx:79-105 | Success shows the result and puts a record for the image at the front of the history, storing it unless the write throws; failure shows the fixed error; loading ends either way |
| App.Session.AnalyzePlant | App.tsx:68-106 | The whole handler: on success the result and `[new record] + old history`; on failure the fixed error, no result and the history unchanged; the view is Result either way |
| App.Session.StartSoilAnalysis | App.tsx:109-115 | Submitting a soil image shows the soil analyzing screen and clears the previous soil result, error and translation |
| App.Session.SettleSoilAnalysis | App.tsx:117-126 | The soil result or the fixed soil error, the view SoilResult, loading over |
| App.Session.AnalyzeSoil | App.tsx:108-127 | The whole handler ends on SoilResult with the result or the fixed error, and never touches the history |
| App.Session.NavigateToScan | App.tsx:129-136 | A new plant scan: plant mode, no image, result or error, not from history |
| App.Session.NavigateToSoilScan | App.tsx:138-144 | A new soil scan: soil mode, no image, soil result or soil error |
| App.Session.NavigateToCamera | App.tsx:146-150 | Opening the camera dismisses both scan errors |
| App.Session.BackToScan | App.tsx:152-158 | Back from the camera to the scan screen of the current mode |
| App.Session.BackToHome | App.tsx:160-162 | Only the view changes, to Home |
| App.Session.StartCareTips | App.tsx:165-172 | The tips screen, in English, untranslated; a fetch starts exactly when no tips are cached, and only then are the loading and error flags touched |
| App.Session.SettleCareTips | App.tsx:173-180 | The tips on success, the fixed error on failure, loading over |
| App.Session.OpenCareTips | App.tsx:164-181 | The whole handler: fetched exactly when no tips were cached; cached tips are left as they are |
| App.Session.StartLanguageChange | App.tsx:184-207 | English clears all three translations and starts nothing; any other language begins the translation of the target workflow |
| App.Session.SettleTranslation | App.tsx:198-216 | Only the target's translated slot can change, and only on success; the in-flight mark is cleared |
| App.Session.ChangeLanguage | App.tsx:183-217 | The whole handler: English clears every translation and leaves the in-flight mark; other languages fill exactly the target's slot on success, keep it on failure, clear the other two, and end not translating |
| App.Session.NavigateToHistory | App.tsx:219-221 | Only the view changes, to History |
| App.Session.ViewHistoryItem | App.tsx:223-230 | A record opens in the result view, in English, untranslated, marked as from history; the scan error is left as it was |
| App.Session.ViewHistoryItemClearingError | App.tsx:223-230 | The same with the scan error dismissed, so the page shows the record's report with "Back to History" |
| App.Session.ClearHistory | App.tsx:232-242 | Confirmed: history emptied and the record removed unless removal throws; declined: nothing changes |
| Scenarios.FailedScanShowsError | App.tsx:100-105 | A failed scan shows "Analysis Failed" with the fixed message and a "Try Again" button back to scanning; nothing is recorded or stored |
| Scenarios.LoadingWhileAnalyzing | App.tsx:69-71 | While the analysis runs, the result screen shows the loading indicator |
| Scenarios.RetryAfterFailure | App.tsx:68-106 | A retry after a failure shows the new report, with the error gone and "Scan Another Plant" on the done button |
| Scenarios.RetryRecordsOnlySecond | App.tsx:83-98 | After a failure and a retry, the history and the store hold exactly the retry's record |
| Scenarios.Restart | App.tsx:57-66 | A new session over a store restores the stored record, or an empty history when there is none |
| Scenarios.HistorySurvivesRestart | App.tsx:57-98 | A stored record is read back by the next session |
| Scenarios.UnsavedHistoryLostOnRestart | App.tsx:92-96 | A record whose write throws stays in the session but is gone after a restart |
| Scenarios.ClearedHistoryStaysCleared | App.tsx:232-242 | A confirmed clear empties the history screen, and a restart finds nothing |
| Scenarios.DeclinedClearKeepsHistory | App.tsx:233 | A declined clear leaves the list and the store as they were |
| Scenarios.CareTipsFetchedOnce | App.tsx:169 | Tips fetched once are not fetched again and stay on screen |
| Scenarios.CareTipsRefetchedAfterFailure | App.tsx:169-177 | A failed fetch caches nothing, so the next visit fetches again |
| Scenarios.TranslateAndRevert | App.tsx:183-217 | A translated report is shown; a failed second translation keeps the first one; English shows the original again |
| Scenarios.HistoryDetailReturnsToHistory | App.tsx:223-230 | A report opened from the history offers "Back to History", which leads there |
| Scenarios.LateResultReturnsToResultScreen | App.tsx:79-81 | An analysis that settles after the user went home still switches to the result screen |
| Scenarios.StaleErrorHidesHistoryItem | App.tsx:223-230 | As written: after a failed scan, opening a history record shows the old failure panel instead of the record |
| Scenarios.HistoryItemShownAfterFailedScan | App.tsx:223-230 | With the error dismissed, the same steps show the record's report |

The handler's comment at App.tsx:169 ("Don't re-fetch") reads as if tips
were fetched at most once. The code caches only a successful fetch: after a
failure (`careTips` still null) the next visit fetches again. The model follows the code (`Scenarios.CareTipsRefetchedAfterFailure`).

A service call that settles after the user navigated away still sets the
view: a late plant result brings the user back to the result screen
(`Scenarios.LateResultReturnsToResultScreen`). The settle methods therefore
have no precondition on the current view.

## Left out

- The analysis, care-tips and translation service calls (services/geminiService.ts) are not part of this model. Each call is an `Outcome` parameter. The rule that a translation keeps `healthStatus` is only a prompt instruction, so nothing here relies on it.
- JSON encoding and decoding of the history are taken to round-trip exactly. A stored record that does not parse is not modelled: the app would log it and keep an empty history.
- `localStorage` reads never fail in the model. Write and removal failures are the `storageWritable` and `storageRemovable` flags.
- `window.confirm` is the `confirmed` parameter.
- `Date.now()` and `toISOString()` are the `id` and `date` parameters. Ids are not claimed to be unique.
- Concurrent in-flight requests, React's batching of state updates and interleavings other than "start, navigate, settle" are not modelled.
- The confidence percentage line of the plant report is left out. It is floating-point display formatting.
- `setInterval` timing is left out: the loading indicator is modelled one tick at a time. Unmounting the indicator, which clears its timer, is also left out.
- The click-outside listener of the language selector (components/LanguageSelector.tsx:21-33) is DOM event handling and is left out.
- Languages.Lower: only ASCII letters are lower-cased. JavaScript's full Unicode case mapping is not modelled; the catalogue itself is ASCII.
- The markup-only screens and capacitor.config.ts are not part of this model. These are the home, header, scan, soil-scan, camera, care-tips and history screens. Of the props the app passes them, the model keeps the data props; the callbacks are listed in the next line.
- App.RenderView: a screen's props record only the data the app passes and the camera screen's two callbacks. The callbacks that are the same on every render are left out: the four navigation handlers of the home screen (App.tsx:248-253), `onAnalyze` and `onNavigateToCamera` of the two scan screens (App.tsx:255-265), `onViewItem` and `onClearHistory` of the history screen (App.tsx:278-282), and `onLanguageChange` of the tips, plant and soil screens (App.tsx:274, 294, 308), which the screens' `SelectorProps` leave out too. Each one is a fixed handler, modelled as a `Session` method.

## Findings

| source | as written | input that shows it | evidently intended | confidence | as-written member | corrected member |
|---|---|---|---|---|---|---|
| App.tsx:223-230 | `handleViewHistoryItem` sets the result, image, language and view, but leaves `analysisError` set | a history with one record; a plant scan that fails; Back to Home; History; open the record. The result screen tests `error` first (components/AnalysisScreen.tsx:80), so it shows "Analysis Failed" and not the record | opening a record shows that record's report | not executed; medium (the failure panel's button does lead back to the history) | Scenarios.StaleErrorHidesHistoryItem | App.Session.ViewHistoryItemClearingError, Scenarios.HistoryItemShownAfterFailedScan |
