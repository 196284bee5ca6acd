# F1 pit wall: request handling and panel state, modelled in Dafny

This project models the F1 telemetry comparison tool, apart from its Python
data engine. The backend is an Express server. It proxies two calls to the
engine, `/api/telemetry` and `/api/stints`. A successful telemetry call
auto-saves the query as a "run" in a MongoDB `Comparison` collection, and
two archive routes create and list those runs. The frontend has three small
state machines (the garage gallery, the saved-history sidebar and the query
form) and two pure panel transforms (the tyre-stint strip and the
track-dominance map).

Every route is a pure function. It takes the request, the outcome of the one
outbound call it makes, the store's surroundings (reachable or not, the clock
reading, the Number cast of `year`) and the stored documents. It returns the
HTTP response and the new store. Every component is a pure function from
state and event to new state and effects, or from props to view.

Modules, one per source file:

- `Values`: `Option`, `Result`, the outcome of a frontend fetch, JSON documents, and string-keyed field maps.
- `ComparisonModel`: the schema of `backend/models/Comparison.js`, plus the store's create and sorted-list operations.
- `Server` and `ServerProperties`: the four routes of `backend/server.js`, and lemmas that relate several calls.
- `HistoryGallery`, `Sidebar`, `Controls`, `StintChart`, `TrackMap`: the frontend components of the same names.

## Notes

- Nothing checks that a telemetry payload has 500 samples.
- The frontend has no submission generation tokens and no shared cursor, and it does not fetch telemetry and stints as an atomic pair.
- The form's status is `'loading'`, `'error'` or anything else; there is no separate idle value.
- The gallery shows one fixed error message, whatever the failure.
- `GET /api/comparisons` lists newest first with ties allowed: `createdAt` never increases along the list, but need not strictly decrease.
- The application shell renders the form with no props, so in the shipped app Analyze does nothing (`Controls.ShellFormIsInert`).

## Model

| member | source | states |
|---|---|---|
| `ComparisonModel.Problems` | backend/models/Comparison.js:3-27 | a path fails validation exactly when its required value is missing, or, for `year`, when the value does not cast to a Number |
| `ComparisonModel.Create` | backend/models/Comparison.js:3-32 | a draft is rejected with a validation error exactly when the schema rejects it, and otherwise with a storage fault exactly when the database is unreachable; on success the document carries the draft's values, the cast year, the store-assigned id and `createdAt` (the current time when none is given), and is appended to the store |
| `ComparisonModel.EmptyStoreValid` | backend/models/Comparison.js:3-32 | an empty collection has unique identifiers, and listing it returns nothing |
| `ComparisonModel.CreatePreservesValid` | backend/models/Comparison.js:3-32 | saving keeps document ids unique, and the new id belongs to no earlier document |
| `ComparisonModel.InsertByRecency` | backend/server.js:138 | inserting a document into a newest-first list gives a newest-first list holding exactly the old elements plus the new one |
| `ComparisonModel.SortByRecency` | backend/server.js:138 | the sorted list is newest first and is a permutation of the stored documents |
| `ComparisonModel.ListRecent` | backend/server.js:138 | listing fails exactly when the store is unreachable; otherwise it returns every stored document once, newest first |
| `Server.Forwarded` | backend/server.js:28-37 | the engine parameters are the query's entries for the five named keys, values unchanged, and nothing else |
| `Server.Title` | backend/server.js:43 | the auto-save title is the template `year race - driver1 vs driver2` with the query's values as given, and a missing year prints as `undefined ` at its start |
| `Server.AutoSaveDraft` | backend/server.js:42-49 | the auto-save document has the generated title, reads every other path from the query key of its own name (absent when the key is missing), and carries no `createdAt` |
| `Server.AutoSaveAcceptable` | backend/server.js:42-50 | the auto-save passes the schema exactly when all five query keys are present and `year` casts to a Number |
| `Server.PostDraft` | backend/server.js:112-121 | the POSTed document reads each of the six paths from the body key of its own name (absent when the key is missing), and carries no `createdAt` |
| `Server.ClassifyFailure` | backend/server.js:59-72 | a rejection mirrors the engine's status and body; no response gives 503 with the "Python Data Engine not reachable" message; a setup fault gives 500 with "Server Error" |
| `Server.TelemetryRoute` | backend/server.js:25-73 | on an engine answer the response is 200 with exactly the engine's body, whatever the auto-save does; the store gains the one auto-saved document exactly when the save succeeds and is unchanged otherwise; on an engine failure the response is the classified error and nothing is stored |
| `Server.StintsRoute` | backend/server.js:80-103 | the stints proxy returns the engine's body with 200 or the same classified error, and has no store in its signature |
| `Server.PostComparison` | backend/server.js:110-129 | 200 with the saved document, which has the fresh id and the body's values, exactly when the store accepts it; otherwise 500 with plain-text "Server Error" and the store unchanged |
| `Server.ListComparisons` | backend/server.js:136-144 | 200 with every stored document, newest first, when the store is reachable; 500 with plain-text "Server Error" otherwise |
| `ServerProperties.TelemetryResponseIgnoresStore` | backend/server.js:39-58 | the telemetry response is the same for any store contents and any store outcome |
| `ServerProperties.ProxiesAgree` | backend/server.js:80-103 | the stints route answers exactly as the telemetry route does for the same engine outcome |
| `ServerProperties.OnlyQueryKeysMatter` | backend/server.js:28-37 | two queries that agree on the five named keys send the same engine requests and produce the same response and store |
| `ServerProperties.MissingYearIsNeverSaved` | backend/server.js:41-55 | without `year` the engine's data is still returned with 200; the attempted title starts with `undefined `; nothing is stored |
| `ServerProperties.RejectionCanMimicUnreachable` | backend/server.js:61-67 | an engine that itself answers 503 with the unreachable message gives the client the same response as an engine that never answered |
| `ServerProperties.SavedRunIsListed` | backend/server.js:110-144 | a document saved by the POST route is in the list a later GET returns |
| `ServerProperties.RepeatedRunsAreStored` | backend/models/Comparison.js:3-32 | no field is unique: posting the same body twice stores two documents that differ only in id and time |
| `ServerProperties.PostIgnoresOtherKeys` | backend/server.js:112-121 | body keys other than the six destructured ones do not affect the POST route |
| `ServerProperties.SilverstoneRunIsAutoSaved` | backend/server.js:35-58 | for the Silverstone VER/NOR query with the engine answering, the data is returned and exactly one run titled `2024 Silverstone - VER vs NOR` is appended |
| `ServerProperties.SilverstoneUnreachable` | backend/server.js:65-67 | with an unreachable engine the client gets 503 with the fixed message and nothing is stored |
| `ServerProperties.SilverstoneRejected` | backend/server.js:61-64 | an engine 404 with `{msg: "unknown race"}` reaches the client as that status and body, and nothing is stored |
| `HistoryGallery.SessionLabel` | frontend/src/components/HistoryGallery.jsx:78 | `Q` reads "Qualifying", `R` reads "Race", anything else is shown as is |
| `HistoryGallery.OfferedSessionsReadApart` | frontend/src/components/HistoryGallery.jsx:78 | the four sessions the form offers (Q, R, FP1, FP2) get four different labels, while a stored session spelled "Race" reads the same as "R" |
| `HistoryGallery.CardsOf` | frontend/src/components/HistoryGallery.jsx:64-101 | one card per run, in list order, each with its run and session label |
| `HistoryGallery.Render` | frontend/src/components/HistoryGallery.jsx:27-101 | the loading view exactly while loading, then the error view with the message, then the empty garage exactly for an empty successful list, otherwise the cards of the list, each with its session label |
| `HistoryGallery.FetchHistory` | frontend/src/components/HistoryGallery.jsx:14-15 | the status becomes loading before the one request goes out; the list and message are kept |
| `HistoryGallery.Settle` | frontend/src/components/HistoryGallery.jsx:16-24 | on success the list is replaced by the data and the status is success; on failure the status is error with "Database Connection Error" and the list is unchanged |
| `HistoryGallery.Handle` | frontend/src/components/HistoryGallery.jsx:10-94 | mounting runs `fetchHistory`; a settled fetch settles the state and emits nothing; retry in the error view runs `fetchHistory` (only the status changes) and elsewhere does nothing; "Load Analysis" on a shown card hands `onLoad` exactly that run, and any other load press emits nothing; the state is unchanged by load presses; no event emits more than one effect |
| `HistoryGallery.Run` | frontend/src/components/HistoryGallery.jsx:10-94 | a sequence of events is handled one after another, and emits at most as many effects as there are events |
| `HistoryGallery.RunConcat` | frontend/src/components/HistoryGallery.jsx:10-94 | handling `a + b` is handling `a`, then `b` from where `a` left off, with the effects back to back |
| `HistoryGallery.MountFetchesOnce` | frontend/src/components/HistoryGallery.jsx:6-12 | the first render is the loading view, and mounting sends exactly one request |
| `HistoryGallery.HandlePreservesConsistent` | frontend/src/components/HistoryGallery.jsx:20-24 | every event keeps an error status paired with the database message |
| `HistoryGallery.RunPreservesConsistent` | frontend/src/components/HistoryGallery.jsx:14-24 | any sequence of events keeps an error status paired with the database message |
| `HistoryGallery.RepeatedLoadIsNotSuppressed` | frontend/src/components/HistoryGallery.jsx:94 | pressing the same card twice calls `onLoad` twice with the same run |
| `HistoryGallery.RetryRecovers` | frontend/src/components/HistoryGallery.jsx:10-44 | failed fetch, retry, then success shows the fetched runs, after exactly two requests |
| `Sidebar.Settle` | frontend/src/components/Sidebar.jsx:9-19 | loading ends whether the fetch succeeds or fails; success replaces the list with the data; failure leaves it unchanged |
| `Sidebar.Render` | frontend/src/components/Sidebar.jsx:31-48 | entries only when not loading; "No history found." exactly when not loading and the list is empty |
| `Sidebar.FirstRenderIsLoading` | frontend/src/components/Sidebar.jsx:6-7 | the panel starts with an empty list and loading, so it first shows only the loading line |
| `Sidebar.MountedFetchSettles` | frontend/src/components/Sidebar.jsx:6-19 | after the one fetch the panel lists exactly the response, or after a swallowed failure shows no entries and the empty-history line |
| `Sidebar.ViewsExclusive` | frontend/src/components/Sidebar.jsx:31-48 | exactly one of the loading line, the entries and the empty-history line is shown |
| `Controls.Change` | frontend/src/components/Controls.jsx:27-117 | a select change sets its own field to the chosen value and leaves the other four unchanged |
| `Controls.RenderButton` | frontend/src/components/Controls.jsx:123-136 | the button is disabled, and reads "Loading...", exactly when the status is `'loading'`; otherwise it reads "Analyze" |
| `Controls.RenderBanner` | frontend/src/components/Controls.jsx:140-145 | the banner is shown exactly when the status is `'error'`, and displays `errorMsg` |
| `Controls.HandleAnalyze` | frontend/src/components/Controls.jsx:13-17 | `onAnalyze` receives the current params, unchanged, exactly when it is supplied |
| `Controls.ClickAnalyze` | frontend/src/components/Controls.jsx:123-125 | a click dispatches the params exactly when `onAnalyze` is supplied and the status is not `'loading'` |
| `Controls.DefaultsSelectable` | frontend/src/components/Controls.jsx:5-11 | the defaults 2024 / Silverstone / Q / VER / NOR are all among the offered options |
| `Controls.ChangePreservesSelectable` | frontend/src/components/Controls.jsx:27-117 | choosing an offered option keeps every field on an offered value |
| `Controls.ChangesStaySelectable` | frontend/src/components/Controls.jsx:27-117 | any sequence of offered choices keeps every field on an offered value |
| `Controls.SameDriverTwiceIsSelectable` | frontend/src/components/Controls.jsx:83-117 | both drivers come from one list and may be equal |
| `Controls.ShellFormIsInert` | frontend/src/App.jsx:27 | with the props the shell passes (none), the button is enabled, no banner shows, and a click dispatches nothing |
| `StintChart.Upper` | frontend/src/components/StintChart.jsx:28 | upper-casing keeps the length and maps each character on its own |
| `StintChart.CompoundOf` | frontend/src/components/StintChart.jsx:12-28 | a name whose upper-cased form is a key selects that key's compound; any other compound result matches its key |
| `StintChart.ColorOf` | frontend/src/components/StintChart.jsx:12-28 | the lookup is total; a matching key gives its colour; the UNKNOWN colour comes exactly when no other key matches |
| `StintChart.BarOf` | frontend/src/components/StintChart.jsx:27-49 | a bar starts at `StartLap` and ends at `EndLap`, sits on the driver's row, takes the compound colour, and its text is the compound's first character as written |
| `StintChart.Traces` | frontend/src/components/StintChart.jsx:26-50 | one bar per stint, in input order |
| `StintChart.Render` | frontend/src/components/StintChart.jsx:5-9 | the placeholder exactly for missing or empty data; otherwise one bar per stint |
| `StintChart.UpperIdempotent` | frontend/src/components/StintChart.jsx:28 | upper-casing twice equals upper-casing once |
| `StintChart.ColorIgnoresCase` | frontend/src/components/StintChart.jsx:28 | names with the same upper-cased form get the same colour |
| `StintChart.KeysRoundTrip` | frontend/src/components/StintChart.jsx:12-19 | each key looks up its own compound |
| `StintChart.ColorsDistinct` | frontend/src/components/StintChart.jsx:12-19 | distinct compounds have distinct colours |
| `StintChart.MixedCaseNamesMatch` | frontend/src/components/StintChart.jsx:28 | "Soft" is drawn red and "wet" blue |
| `StintChart.UnlistedNamesFallBack` | frontend/src/components/StintChart.jsx:28 | an unlisted name and the empty name get the UNKNOWN colour |
| `StintChart.TracesOfConcat` | frontend/src/components/StintChart.jsx:26-50 | the bars of concatenated stint lists are the concatenated bars |
| `TrackMap.Dominance` | frontend/src/components/TrackMap.jsx:17 | one colour per delta sample; cyan exactly when the delta is below 0, red otherwise, zero included |
| `TrackMap.Track` | frontend/src/components/TrackMap.jsx:16-31 | the track trace draws `d1.X` against `d1.Y`; each delta sample's point is cyan exactly when the delta is below 0 and red exactly when it is 0 or more |
| `TrackMap.Scrubber` | frontend/src/components/TrackMap.jsx:34-53 | the dot exists exactly when the hover index is set, lies within `d1.X`, and its X is not 0; the dot is `(d1.X[i], d1.Y[i])`, with Y undefined past the end of `d1.Y` |
| `TrackMap.PlotData` | frontend/src/components/TrackMap.jsx:56-59 | the plot is the track alone, or the track then the scrubber exactly when there is one |
| `TrackMap.Render` | frontend/src/components/TrackMap.jsx:5-9 | the placeholder exactly when the data is missing |
| `TrackMap.DominanceOfConcat` | frontend/src/components/TrackMap.jsx:17 | the colouring of concatenated deltas is the concatenated colourings |
| `TrackMap.ScrubberHiddenAtZeroX` | frontend/src/components/TrackMap.jsx:35 | as written, a valid hover index whose X is exactly 0 shows no dot |
| `TrackMap.ScrubberFollowsHover` | frontend/src/components/TrackMap.jsx:35-39 | a valid hover index with a non-zero X puts the dot on that sample, after the track |
| `TrackMap.NoHoverNoScrubber` | frontend/src/components/TrackMap.jsx:35 | no hover index, or one outside the samples, draws only the track |

## Left out

- The Python data engine (`data-engine/main.py`) is not part of this model. It loads FastF1 sessions and does floating-point interpolation. Its answer is an abstract outcome: `Ok(body)`, `Rejected(status, body)`, `NoResponse` or `SetupFault`.
- The 500-sample length of a telemetry payload is not stated anywhere. Neither the server nor the frontend checks it.
- Express, axios, mongoose, `dotenv` and `console` logging are abstracted away. The engine URL, the CORS middleware and the port do not affect any response modelled here.
- `Date.now` is an integer `now` that the store's surroundings supply.
- Mongoose's cast of `year` to a Number is the abstract `castNumber` function into the reals, so a fractional year such as `2024.5` is stored as given. The cast's rules (trimming, exponents) are not modelled, and the non-finite Numbers `Infinity` and `NaN` have no real to stand for them.
- Mongoose's `required` validator also rejects an empty string. The model treats any present value as given.
- Query-string and body values are text. Repeated or nested query keys, which Express can decode to arrays or objects, are not modelled. A JSON number in a POST body is represented by its decimal text.
- The auto-save is awaited before the response is sent. Only the response's content is modelled, not its timing.
- `StintChart.Upper`: only the ASCII letters are upper-cased. JavaScript's `toUpperCase` also maps other Unicode letters, for example `ß` to `SS`, which can change the length.
- `StintChart.BarOf`: the bar text is the compound's first Unicode scalar value. JavaScript's `substring(0, 1)` takes the first UTF-16 code unit, which for a compound starting outside the Basic Multilingual Plane is a lone surrogate.
- A stint whose `Compound` is not a string crashes the strip in the source. The model assumes it is a string.
- The strip's hover text and trace names, the plot layouts, the `useMemo` caching, and all styling and markup are pure presentation.
- JSON numbers in the track data are reals. `NaN` and `null` samples are not modelled. A fractional hover index is not modelled either.
- `TelemetryCharts.jsx`, `api/client.js` (axios configuration, and an interceptor that logs and rethrows), `tailwind.config.js` and the layout of `App.jsx` are configuration or rendering only. The one exception is that `App.jsx` renders the form with no props; `Controls.ShellFormIsInert` states it.
- The verification scripts make live network calls and are not modelled.
- A component that unmounts with a fetch still pending is not modelled.
