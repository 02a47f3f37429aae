# Night-light map client: overlay and analysis state, in Dafny

This project models the client-side core of an urban night-light mapping app
(`Frontend/frontend/src/App.js`). The core is a React component over a Google map. It:

- resolves tile addresses from a backend-supplied template (`getTileUrl`);
- keeps at most one night-light overlay mounted (`loadNightLights`, `loadComparison`, `clearLayers`);
- binds point-analysis responses to the result panel (`analyzePoint`, the panel's close button);
- gates everything behind a backend health check (`checkBackendHealth`).

Modules:

- `Wrappers` (`wrappers.dfy`): `Option` for nullable state slots, and `Fetch` for the outcome of an awaited request. A `Fetch` is either the decoded body or the error text that the alert would show.
- `Decimal` (`decimal.dfy`): `NumberString`, JavaScript's `String(n)` for an integer, with its inverse `ParseNumber`.
- `TileUrl` (`tile_url.dfy`): the resolver. `ReplaceFirst` is `String.prototype.replace` with a string pattern and a replacement text without `$`, such as a rendered number, so only the first occurrence is replaced. `Resolve` applies it for `{z}`, then `{x}`, then `{y}`. Two independent reference definitions sit beside it:
  - `Count`: how often a placeholder occurs;
  - `Expand`: every placeholder occurrence replaced, scanning left to right.
  
  The lemmas connect `Resolve` to both references.
- `Readiness` (`readiness.dfy`): the health-status mapping, the screen each status renders, and when the map gets created.
- `NightMap` (`app.dfy`): the values (layers, analysis bodies, queries, markers), the year list, and the class `App`.
  - `App` holds the component's state slots as fields. `overlays` stands for `map.overlayMapTypes`.
  - Each handler is one method whose `modifies` clause names the slots it writes.
  - `App.Valid()` is the invariant every handler keeps: one overlay is mounted exactly when `currentLayer` is set, and it is that layer.
- `Sessions` (`scenarios.dfy`): short user sessions written against the contracts of `App` (load then clear, two loads, a failed load, two analyses, a failed analysis, a click after start-up).

Each asynchronous handler runs as one step. The awaited response is a parameter, and the method covers the handler from `setLoading(true)` to its `finally`. That is why `Valid()` can say that `loading` is false between steps.

Four behaviours one might expect of such a client are not what the code does, and the model follows the code:

- Stale-response rejection: the code has no sequence numbers and no stale-response check for point analysis. The response handled last is shown (`Sessions.LastCompletedWins`).
- A failing resolver: the resolver never fails. A missing placeholder is skipped, and a repeated one is substituted once (`TileUrl.ResolveCounts`).
- Markers placed at click time: the marker is created only after a successful analysis response, not when the user clicks.
- Rejecting a request while busy: the in-flight flag does not reject anything by itself. The code only disables the Load and Compare buttons while `loading` is set. Clicks on the map and "Clear Layers" are not gated.

## Model

| member | source | states |
|---|---|---|
| `Decimal.NatDigits` | Frontend/frontend/src/App.js:99-101 | the digits of a number are non-empty decimal digits with no leading zero |
| `Decimal.NumberString` | Frontend/frontend/src/App.js:99-101 | the text put in place of `zoom`, `coord.x` and `coord.y`; its properties are stated by `Decimal.NumberStringShape` and `Decimal.NumberStringInjective` |
| `Decimal.NumberStringShape` | Frontend/frontend/src/App.js:99-101 | the text a number is replaced by is non-empty, uses only digits and '-', starts with '-' exactly for negative numbers, and reads back to the number |
| `Decimal.NumberStringInjective` | Frontend/frontend/src/App.js:99-101 | different coordinates give different replacement texts |
| `TileUrl.IndexOf` | Frontend/frontend/src/App.js:99 | the position found is the first occurrence of the pattern, and no position is found exactly when the pattern does not occur |
| `TileUrl.ReplaceFirst` | Frontend/frontend/src/App.js:99 | a string without the pattern comes back unchanged; otherwise only the first occurrence is replaced |
| `TileUrl.ReplaceCount` | Frontend/frontend/src/App.js:99-101 | one replacement step removes one occurrence of its own placeholder if there is one, and leaves the occurrence count of every other placeholder unchanged |
| `TileUrl.ExpandReplaceStep` | Frontend/frontend/src/App.js:99-101 | one replacement step does not change what substituting every placeholder yields |
| `TileUrl.Resolve` | Frontend/frontend/src/App.js:98-101 | the body of `getTileUrl`: `{z}`, then `{x}`, then `{y}` replaced at their first occurrence; its properties are stated by `TileUrl.ResolveCounts`, `TileUrl.ResolveWellFormed`, `TileUrl.ResolveKeyFree` and `TileUrl.ResolveOrderedLayout` |
| `TileUrl.ResolveCounts` | Frontend/frontend/src/App.js:97-102 | on any template, resolving removes exactly the first occurrence of each placeholder present and keeps the others, so it is total and a missing placeholder is skipped |
| `TileUrl.ResolveWellFormed` | Frontend/frontend/src/App.js:97-102 | on a template with exactly one `{z}`, one `{x}` and one `{y}`, the address is the template with every placeholder replaced by the decimal zoom, column and row, and no placeholder is left |
| `TileUrl.ResolveKeyFree` | Frontend/frontend/src/App.js:97-102 | a template without placeholders is used as it is for every tile |
| `TileUrl.ResolveOrderedLayout` | Frontend/frontend/src/App.js:97-102 | a template laid out as text, `{z}`, text, `{x}`, text, `{y}`, rest resolves to the same layout with the three numbers in place |
| `TileUrl.ExampleAddress` | Frontend/frontend/src/App.js:97-102 | `https://host/{z}/{x}/{y}.png` at zoom 5, column 3, row 2 gives `https://host/5/3/2.png` |
| `TileUrl.ExampleRepeated` | Frontend/frontend/src/App.js:99 | in `{z}/{z}/{x}/{y}` only the first `{z}` is substituted |
| `Readiness.HealthStatus` | Frontend/frontend/src/App.js:30-41 | a reachable backend reporting Earth Engine ready gives 'ready', a reachable one reporting not ready gives 'earth_engine_error', and a failed request gives 'backend_error' (each in both directions) |
| `Readiness.ScreenFor` | Frontend/frontend/src/App.js:198-225 | the checking screen exactly while checking, the main view exactly when ready, each error with its own message |
| `Readiness.CreatesMap` | Frontend/frontend/src/App.js:24-28 | the effect runs when `backendStatus` changes and creates the map when the new status is ready; stated for a health check by `Readiness.HealthCheckCreatesMap` |
| `Readiness.HealthCheckCreatesMap` | Frontend/frontend/src/App.js:24-28 | a health check creates the map exactly when it reports the backend and Earth Engine ready |
| `NightMap.YearOptions` | Frontend/frontend/src/App.js:246 | twelve years, from 2023 down to 2012; membership and order are stated by `NightMap.YearOptionsRange` |
| `NightMap.YearOptionsRange` | Frontend/frontend/src/App.js:246 | the year selectors offer exactly 2012 to 2023, newest first, each once |
| `NightMap.RecentValues` | Frontend/frontend/src/App.js:323 | the panel lists the last six samples of the series, or all of them when there are fewer |
| `NightMap.RemoveAt` | Frontend/frontend/src/App.js:92 | removing at an index drops that element and shifts the rest; an index past the end changes nothing |
| `NightMap.TileAddress` | Frontend/frontend/src/App.js:97-102 | an overlay's `getTileUrl` (also Frontend/frontend/src/App.js:134-139): on a template with one of each placeholder, the address is the template with every placeholder replaced by its number, and no placeholder is left |
| `NightMap.App.OneOverlay` | Frontend/frontend/src/App.js:90-109 | one overlay is mounted exactly when a current layer is set, and it is that layer; kept by `NightMap.App.Mount` |
| `NightMap.App.Valid` | Frontend/frontend/src/App.js:82-196 | between handler steps: the overlay invariant, a map exists exactly in the ready state, no map means no layer and no marker, and no request is pending; every handler's contract keeps it |
| `NightMap.App.constructor` | Frontend/frontend/src/App.js:8-16 | the state on first render: no map, no overlay, not loading, year 2023, comparison 2020 vs 2023, no analysis, status checking |
| `NightMap.App.CheckBackendHealth` | Frontend/frontend/src/App.js:18-41 | the status becomes the health mapping, the map exists exactly when the check reports ready, and the invariant is kept |
| `NightMap.App.CreateMap` | Frontend/frontend/src/App.js:60-80 | the map exists afterwards, and the click handler's `map` is null: it is the binding of the render in which the effect ran, which `setMap` does not change, whatever the order of the two statements |
| `NightMap.App.SelectYear` | Frontend/frontend/src/App.js:245 | the selected year becomes the chosen option's text |
| `NightMap.App.SelectCompareYears` | Frontend/frontend/src/App.js:261-277 | each comparison year changes only when its own selector does |
| `NightMap.App.Mount` | Frontend/frontend/src/App.js:90-109 | removing index 0 when a layer is current, then pushing, leaves exactly the new layer mounted and current |
| `NightMap.App.LoadNightLights` | Frontend/frontend/src/App.js:82-117 | no map: nothing happens and nothing is requested. Success: the request goes to the selected year's path, and the only mounted overlay is the new 256×256 layer named "Night Lights <year>". Failure: the earlier overlay and current layer stay and the alert is shown. The invariant is kept and `loading` ends false |
| `NightMap.App.LoadComparison` | Frontend/frontend/src/App.js:119-154 | the same for the comparison: the two selected years are posted, and the layer is named with the server's comparison label |
| `NightMap.App.ClearLayers` | Frontend/frontend/src/App.js:191-196 | afterwards no overlay is mounted and no layer is current; with no current layer nothing changes |
| `NightMap.App.BindAnalysis` | Frontend/frontend/src/App.js:156-189 | the query is the clicked point with the window 2020 to 2023 (Frontend/frontend/src/App.js:159-164). Success: the response becomes the panel's data and one marker is added. Failure: data and markers stay and the alert is shown. `loading` ends false |
| `NightMap.App.AnalyzePointAsWritten` | Frontend/frontend/src/App.js:169-171 | as the click listener runs it: the new marker is given the map the handler closed over |
| `NightMap.App.AnalyzePoint` | Frontend/frontend/src/App.js:156-189 | `analyzePoint` with the marker placed on the current map, so the marker is shown |
| `NightMap.App.DismissAnalysis` | Frontend/frontend/src/App.js:302 | the close button empties the analysis slot |
| `Sessions.StartReady` | Frontend/frontend/src/App.js:18-28 | after a health check that reports ready there is a map, with no overlay, no analysis and no marker |
| `Sessions.LoadThenClear` | Frontend/frontend/src/App.js:104-109 | loading a year mounts only that year's overlay; clearing afterwards leaves none mounted and none current |
| `Sessions.LoadTwice` | Frontend/frontend/src/App.js:127-146 | a second successful load replaces the first overlay, so exactly one overlay is mounted |
| `Sessions.FailedLoadKeepsOverlay` | Frontend/frontend/src/App.js:111-116 | a failed load after a successful one keeps the earlier overlay mounted and shows the failure alert |
| `Sessions.LoadWithoutReadyBackend` | Frontend/frontend/src/App.js:83 | with a backend that is not ready there is no map, and loading sends nothing and mounts nothing |
| `Sessions.LastCompletedWins` | Frontend/frontend/src/App.js:166 | of two analyses, the one handled last is shown; nothing rejects a stale response |
| `Sessions.FailedAnalysisKeepsResult` | Frontend/frontend/src/App.js:183-188 | a failed analysis keeps the result already shown and adds no marker; dismissing hides it |
| `Sessions.ClickAfterStartupAsWritten` | Frontend/frontend/src/App.js:75-79 | as written, the marker of the first analysed click has no map and is never shown |
| `Sessions.ClickAfterStartup` | Frontend/frontend/src/App.js:169-171 | with the marker placed on the current map, the clicked point's marker is shown |

## Left out

- Backend/app.py: Earth Engine authentication and the Flask health route. These are foreign calls and HTTP plumbing; the client sees only the decoded health response.
- Google Maps script loading, map options and styling (Frontend/frontend/src/App.js:43-72) are third-party I/O. Map creation is modelled as always succeeding once the status is ready. What is kept is that the click listener closes over the render's null `map` binding.
- HTTP transport: `API_BASE` is configuration, so request paths are given after it. `console.error` is logging only.
- Number formatting of floats and fixed presentation constants: `toFixed`, the overlay opacity 0.8, and the marker's title and SVG icon. Coordinates and values are exact `real`s.
- `NumberString` renders integers only and does not model JavaScript's exponent notation for magnitudes of 10^21 and more. Map-host zoom levels and tile coordinates are small integers.
- A response without `tile_url_template` is not modelled. The template is a string; in the code, `undefined.replace` would throw inside `getTileUrl`.
- The truthiness of `earth_engine_ready` is reduced to a boolean.
- JSX rendering beyond the screen choice and the last-six-samples helper: the mode selector (`setMode`) only chooses which controls are drawn, and the panel layout is view code.
- TileUrl.ReplaceFirst: inserts its replacement as plain text and does not model the `$$`, `$&`, `` $` `` and `$'` patterns that JavaScript expands in a replacement string, because the resolver only inserts rendered numbers, which contain no `$`.
- Interleavings of asynchronous completions. Each handler is one step, so the model does not show a handler reading a `currentLayer` or `selectedYear` that went stale while its request was pending. Overlapping analyses appear only in completion order.
- Markers only record their position and whether they were given a map; the code never removes them.
- NightMap.App.CheckBackendHealth: requires that the status is not ready. The check runs on mount and from the error screen's retry button, which is only shown when the status is not ready.

## Findings

| source | as written | input that shows it | evidently intended | confidence | as-written member | corrected member |
|---|---|---|---|---|---|---|
| Frontend/frontend/src/App.js:75-79 | the click listener keeps the `analyzePoint` of the render in which the map-creating effect ran; that render's `map` binding (Frontend/frontend/src/App.js:9) is null, and `setMap(googleMap)` does not change it, so every marker is created with `map: null` (Frontend/frontend/src/App.js:169-171) whatever the order of the listener and `setMap` | any successful click on the map after start-up | the marker appears on the map at the clicked point (for example by reading the map through a ref, or by registering the listener from an effect that depends on `map`) | high, not executed | `Sessions.ClickAfterStartupAsWritten` (with `NightMap.App.AnalyzePointAsWritten`) | `Sessions.ClickAfterStartup` (with `NightMap.App.AnalyzePoint`, which the other sessions use) |
