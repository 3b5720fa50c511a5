# WireMock Manager: a Dafny model of its console logic

WireMock Manager is a browser console for a WireMock server's admin API. It
lists the stub mappings and lets the user create, edit, view and delete them,
including bulk deletes over a selection. It also pages through the request
journal, copies URLs and bodies, and shows whether the server is reachable.

This project models the sequential logic under the rendering. It covers:

- the application store's reducer, with its eight actions, and the store's
  initial state;
- the view flows built on the reducer: load, refresh, single and bulk
  delete, clear-all, selection toggling and select-all, pagination, and
  form editing and submission. Each flow is a function from the outcomes
  of its remote calls and its confirmation answers to the sequence of
  actions it dispatches. `Run` folds that sequence through the reducer;
- the pure classifiers and display choices: badge classes, URL and body
  fallbacks, the UUID row, and the navigation bar's active item;
- the connectivity indicator's state machine;
- the URL helpers in the API configuration, and the development proxy's
  path rewrite and target.

The model includes the JavaScript semantics these rely on:

- truthiness of optional strings and `a || b` fallbacks;
- template interpolation of `undefined`;
- `String.prototype.trim` over the ECMAScript white-space and line-terminator set;
- `toUpperCase`, for the characters whose upper case is ASCII;
- `Array.prototype.slice` with negative indices;
- `Math.ceil`;
- insertion-ordered `Set<string>`.

Modules follow the source files:

- `AppStore`: the store, including the `Run` fold;
- `WireMockTypes`: the records;
- `MappingsList`, `RequestsPage`, `MappingForm`, `ViewMappingPage`,
  `ViewRequestPage`, `Header`, `ApiConfig`, `DevProxy`: one per source file;
- `Badges`: the badge functions, which come as three identical copies and a
  different variant on the mapping detail page;
- `DetailLoad`: the fetch-by-id step the three detail views share;
- `JsStrings` and `Wrappers`: the JavaScript string helpers and the
  `Option`/`Remote` types.

The model follows the code, including where it departs from what an admin
console of this kind is usually expected to do:

- **Each component has its own store.** `useAppStore` calls `useReducer`
  inside a custom hook (src/store/app-store.ts:54-55). Every component
  therefore holds its own independent store, not one shared source of truth.
  Every flow here runs against the store of the component that dispatches.
- **Page changes are not clamped.** A page change stores the requested page
  as is. Page 0 and pages past the last show an empty table. A negative page
  shows a window counted from the end of the journal, because `slice` reads
  negative bounds that way (`RequestsPage.PagesBelowOne`).
- **Only clear-all resets the page.** A refresh keeps the current page
  (`RequestsPage.RefreshCanStrandThePage`).
- **The connectivity indicator's `checking` flag is only raised at mount.**
  Later probes never raise it again.
- **Two defaults apply when the value is empty, not only when it is absent.**
  These are the API base URL and the proxy target: both use `||`.
- **The form's test button uses a fixed host.** It opens
  `http://localhost:8080`, not the configured base URL.

## Model

| member | source | states |
|---|---|---|
| AppStore.InitialStateIsEmpty | src/store/app-store.ts:5-11 | the initial store has empty mappings and requests, is not loading, has no error and nothing selected, so an update or delete on it changes nothing |
| AppStore.Reduce | src/store/app-store.ts:14-51 | every action leaves the four fields it does not write identical; SET_* installs its payload; ADD_MAPPING grows the list by one, keeping the old list as a prefix and ending with the payload; UPDATE_MAPPING keeps the length and replaces exactly the elements whose (optional) id equals the payload's; DELETE_MAPPING keeps exactly the elements whose id differs from the payload |
| AppStore.ReduceDispatched | src/store/app-store.ts:48-49 | an action with an unrecognised tag returns the state unchanged; a recognised one writes only its field |
| AppStore.ReplaceById | src/store/app-store.ts:37-39 | same length; element i becomes the payload iff its id equals the payload's id, otherwise it is unchanged |
| AppStore.RemoveById | src/store/app-store.ts:45 | a mapping is in the result iff it is in the input with a different id (an id-less mapping is never removed) |
| AppStore.RemoveByIdConcat | src/store/app-store.ts:45 | filtering distributes over concatenation |
| AppStore.RemoveByIdIsFilter | src/store/app-store.ts:45 | the result is a subsequence of the input (relative order kept) and keeps every non-matching element with its multiplicity |
| AppStore.RemoveByIdIdempotent | src/store/app-store.ts:42-46 | deleting the same id twice equals deleting it once |
| AppStore.RemoveAbsentId | src/store/app-store.ts:42-46 | deleting an id no mapping has leaves the list identical |
| AppStore.RemoveAllIds | src/components/MappingsList.tsx:50-53 | a mapping survives a series of deletes iff it has no id or its id is not among those deleted |
| AppStore.RunAppend | src/store/app-store.ts:14-51 | dispatching two action sequences one after the other equals dispatching their concatenation |
| AppStore.RunOne | src/store/app-store.ts:14-51 | dispatching a single action is one reducer step |
| AppStore.RunFour | src/store/app-store.ts:14-51 | a four-action sequence is four reducer steps in order |
| AppStore.RunKeepsUnwritten | src/store/app-store.ts:14-51 | a field no action in a sequence writes is the same after the whole sequence |
| AppStore.DeleteActions | src/components/MappingsList.tsx:50-53 | one DELETE_MAPPING per id, in order |
| AppStore.RunDeleteActions | src/components/MappingsList.tsx:50-53 | dispatching a DELETE_MAPPING per id removes exactly the mappings with those ids and changes nothing else |
| AppStore.UpdateMappingCases | src/store/app-store.ts:34-40 | UPDATE_MAPPING is a no-op when no id matches, and with an id-less payload replaces every id-less mapping |
| AppStore.DeleteMappingCases | src/store/app-store.ts:42-46 | DELETE_MAPPING is idempotent, and a no-op for an absent id |
| AppStore.AddThenDelete | src/store/app-store.ts:31-46 | ADD_MAPPING(m) then DELETE_MAPPING(m's id) leaves the list as deleting that id from the original: m and every other mapping with that id are gone |
| JsStrings.TrimStart | src/pages/ViewRequestPage.tsx:206 | the result is a suffix of the input; what was dropped is all white space; the result starts with a non-white-space character or is empty |
| JsStrings.TrimEnd | src/pages/ViewRequestPage.tsx:206 | the result is a prefix of the input; what was dropped is all white space; the result ends with a non-white-space character or is empty |
| JsStrings.TrimIsEmptyIffBlank | src/pages/ViewRequestPage.tsx:206-224 | `Trim` (`String.prototype.trim`): `trim()` yields '' exactly when every character is white space |
| JsStrings.ToUpperCaseConcat | src/components/MappingsList.tsx:91 | upper-casing distributes over concatenation |
| JsStrings.UpperOfIsUpper | src/components/MappingsList.tsx:91 | the upper-case form of each character is its own upper case |
| JsStrings.UpperAsciiIsFixed | src/components/MappingsList.tsx:91 | a string of ASCII capitals is its own upper case |
| JsStrings.ToUpperCaseIdempotent | src/components/MappingsList.tsx:91 | `ToUpperCase` (`String.prototype.toUpperCase`): upper-casing twice equals upper-casing once |
| Badges.CssClassIsFaithful | src/components/MappingsList.tsx:83-99 | each badge renders as a `badge-` class, and two badges share a class exactly when they are the same badge (also src/pages/ViewMappingPage.tsx:301-321) |
| Badges.MethodBadge | src/components/MappingsList.tsx:83-92 | GET→success; POST or PATCH→info; PUT→warning; DELETE→error; anything else→secondary, each iff, after upper-casing (also src/pages/RequestsPage.tsx:81-90 and src/pages/ViewRequestPage.tsx:45-54) |
| Badges.MethodBadgeIgnoresCase | src/components/MappingsList.tsx:91 | the list's method class does not depend on letter case |
| Badges.StatusBadge | src/components/MappingsList.tsx:94-99 | 2xx→success, 4xx→warning, ≥500→error, below 200 or 3xx→info, each iff (also src/pages/RequestsPage.tsx:92-97 and src/pages/ViewRequestPage.tsx:56-61) |
| Badges.DetailMethodBadge | src/pages/ViewMappingPage.tsx:301-313 | case-sensitive: GET→success, POST→primary, PUT→warning, DELETE→danger, PATCH or ANY→info, anything else→secondary, each iff |
| Badges.DetailStatusBadge | src/pages/ViewMappingPage.tsx:315-321 | 2xx→success, 3xx→warning, ≥400→danger, below 200→secondary, each iff |
| Badges.StatusClassifiersCompared | src/pages/ViewMappingPage.tsx:315-321 | the detail page agrees with the list on 2xx, merges 4xx and 5xx into danger, and splits the list's info into warning (3xx) and secondary (below 200) |
| Badges.MethodBadgeOfCapitals | src/components/MappingsList.tsx:91 | a method already in ASCII capitals is looked up in the table unchanged |
| Badges.MethodClassifiersCompared | src/pages/ViewMappingPage.tsx:301-313 | on the same key the list's and the detail page's tables agree on GET, PUT and PATCH and disagree on POST (info/primary), DELETE (error/danger) and ANY (secondary/info) |
| Badges.LowerCaseGetCompared | src/pages/ViewMappingPage.tsx:301-313 | "get" is a success on the list but secondary on the detail page, which does not upper-case |
| ApiConfig.BaseUrl | src/config/api.ts:4 | the configured value when it is non-empty, else http://localhost:8080; never empty |
| ApiConfig.BuildAbsoluteUrl | src/config/api.ts:15-17 | exactly the base URL followed by the relative URL, with no slash handling |
| ApiConfig.GetProxyUrl | src/config/api.ts:20-22 | '/api' iff the proxy flag is exactly "true", else the base URL |
| ApiConfig.ProxyFlagIsExact | src/config/api.ts:21 | "TRUE", "1", an absent flag and an empty one all mean no proxy |
| DevProxy.ProxyTarget | vite.config.ts:14 | the configured target when non-empty, else http://localhost:8080 |
| DevProxy.Rewrite | vite.config.ts:17 | a path starting with '/api' loses exactly its first four characters; any other path is unchanged |
| DevProxy.RewriteUndoesPrefix | vite.config.ts:17 | rewriting '/api' + rest yields rest |
| DevProxy.RewriteExamples | vite.config.ts:17 | only the leading '/api' goes ('/api/api/x'→'/api/x'), with no segment check ('/apiary'→'ary') |
| DevProxy.ProxiedCallReachesEndpoint | src/config/api.ts:20-22 | an admin endpoint (starting with '/', so the client joins it by plain concatenation) called through the proxy URL reaches the server as that endpoint (also vite.config.ts:17) |
| DevProxy.AdminEndpointsReachedThroughProxy | src/config/api.ts:7-11 | the three admin endpoints each start with '/' and, called through the proxy, reach the server unchanged |
| MappingsList.LoadMappingsSettles | src/components/MappingsList.tsx:16-28 | `LoadMappings` (loadMappings): a load ends with loading off; success installs the list with no error, failure keeps the list and sets the load error |
| MappingsList.DeleteOneOutcome | src/components/MappingsList.tsx:30-42 | `DeleteOne` (handleDelete): declined: no change; success: the id is removed locally; failure: list unchanged, delete error set |
| MappingsList.Without | src/components/MappingsList.tsx:72 | removing an id keeps every other member exactly as often as it occurred and keeps the set duplicate-free |
| MappingsList.WithoutConcat | src/components/MappingsList.tsx:72 | removing from a concatenation removes from each part and keeps the parts in order, so the other members keep their insertion order |
| MappingsList.WithoutAbsent | src/components/MappingsList.tsx:72 | removing an id the set lacks changes nothing |
| MappingsList.WithoutLast | src/components/MappingsList.tsx:72 | removing the id just added restores the set |
| MappingsList.Toggle | src/components/MappingsList.tsx:69-77 | the toggled id is in the result iff it was not in the selection; no other id changes; an absent id goes to the end |
| MappingsList.ToggleTwice | src/components/MappingsList.tsx:69-77 | toggling twice restores the same set of ids; an absent id leaves the order as it was, and a present id moves to the end |
| MappingsList.ToggleTwiceRestoresOrder | src/components/MappingsList.tsx:69-77 | toggling twice restores the order exactly when the id was absent or was the last member |
| MappingsList.RowKeys | src/components/MappingsList.tsx:65 | one key per mapping, its id or '' |
| MappingsList.AddAll | src/components/MappingsList.tsx:65 | building a Set from a list gives exactly the listed ids, without duplicates, with the members already present kept first and in their order |
| MappingsList.AddAllOrder | src/components/MappingsList.tsx:65 | the members added come from the list, are new, and are ordered by where they first occur in the list |
| MappingsList.AddAllKeepsAllIffDistinct | src/components/MappingsList.tsx:65 | the Set has one entry per listed id iff no id repeats |
| MappingsList.SelectAll | src/components/MappingsList.tsx:61-67 | equal sizes clear the selection; otherwise it becomes exactly the set of row keys |
| MappingsList.SelectAllTwiceClears | src/components/MappingsList.tsx:61-67 | with distinct row keys, a second select-all clears |
| MappingsList.SelectAllStuckOnRepeatedKey | src/components/MappingsList.tsx:61-67 | with a repeated row key (two id-less mappings) the second select-all selects everything again and never clears |
| MappingsList.FirstFailure | src/components/MappingsList.tsx:50-53 | the index of the first failed delete: every earlier one succeeded |
| MappingsList.DeleteEach | src/components/MappingsList.tsx:49-58 | the loop dispatches DELETE_MAPPING for exactly the ids before the first failure, then one bulk error iff a delete failed |
| MappingsList.DeleteSelectedOutcome | src/components/MappingsList.tsx:44-59 | `DeleteSelected` (handleDeleteSelected): ids before the first failure are removed; on failure one error and the selection stays, on success the selection clears; loading, requests and selectedMapping are untouched |
| MappingsList.FailedBulkDeleteKeepsTheRest | src/components/MappingsList.tsx:49-58 | mappings with the failing id or a later one survive the aborted loop |
| MappingsList.DeclinedBulkDeleteIsNoOp | src/components/MappingsList.tsx:45-47 | a declined confirmation changes nothing |
| RequestsPage.SliceIndex | src/pages/RequestsPage.tsx:102 | a slice index is clamped into 0..length, counting negative indices from the end |
| RequestsPage.TotalPages | src/pages/RequestsPage.tsx:103 | the least page count whose pages hold every entry |
| RequestsPage.PageWindow | src/pages/RequestsPage.tsx:100-102 | `PageItems` (the `slice` of the current page): a page from 1 on shows the window starting at (page−1)·10, of length min(10, max(0, len−start)) |
| RequestsPage.PageInRangeIsNonEmpty | src/pages/RequestsPage.tsx:100-103 | each page from 1 to the page count shows at least one entry |
| RequestsPage.PagesArePrefix | src/pages/RequestsPage.tsx:100-103 | pages 1..k concatenated are the journal's first min(10k, len) entries |
| RequestsPage.PagesRebuildList | src/pages/RequestsPage.tsx:100-103 | pages 1..page count concatenated are the whole journal |
| RequestsPage.PaginationExamples | src/pages/RequestsPage.tsx:100-103 | 0, 10, 11 and 25 entries give 0, 1, 2 and 3 pages; page 3 of 25 shows the last five |
| RequestsPage.PagesBelowOne | src/pages/RequestsPage.tsx:100-102 | page 0 shows nothing; page −1 shows entries 5..14 of 25, because slice counts negative bounds from the end |
| RequestsPage.LoadRequestsKeepsMappings | src/pages/RequestsPage.tsx:20-32 | `LoadRequests` (loadRequests) never changes the store's mappings or its selected mapping |
| RequestsPage.RefreshOutcome | src/pages/RequestsPage.tsx:20-38 | `HandleRefresh` (handleRefresh) around `LoadRequests` (loadRequests): a refresh ends with loading and refreshing off, keeps the page, and installs the journal with no error or keeps it with the load error |
| RequestsPage.RefreshCanStrandThePage | src/pages/RequestsPage.tsx:105-107 | a refresh that shrinks the journal can leave the view past the last page, showing nothing while the journal is non-empty |
| RequestsPage.ClearAllOutcome | src/pages/RequestsPage.tsx:40-53 | `HandleClearAll` (handleClearAll): declined: no change; success: empty journal and page 1; failure: error set, journal and page kept |
| RequestsPage.HandlePageChange | src/pages/RequestsPage.tsx:105-107 | the page becomes exactly the one requested, unclamped; the journal shown is that page's window |
| RequestsPage.CopiedUrl | src/pages/RequestsPage.tsx:59-75 | `handleCopyUrl`: a double click copies exactly `BuildAbsoluteUrl` of the entry's URL, i.e. the configured base URL followed by that URL; any other click copies the entry's URL |
| DetailLoad.LoadByIdOutcome | src/pages/ViewRequestPage.tsx:21-35 | `LoadById` (loadMapping / loadRequest): without a route id nothing happens; with one the loading flag ends down, and a failure sets only the store's error and keeps the held record (also src/pages/ViewMappingPage.tsx:22-36 and src/components/MappingForm.tsx:37-50) |
| ViewMappingPage.DisplayUrl | src/pages/ViewMappingPage.tsx:192 | urlPath if non-empty, else url if non-empty, else 'N/A' |
| ViewMappingPage.CopyUrlMatchesDisplay | src/pages/ViewMappingPage.tsx:192-195 | `CopyUrl` (the URL copy button's fallback chain): the URL copy button copies what is shown, except '' where 'N/A' is shown |
| ViewMappingPage.BodySection | src/pages/ViewMappingPage.tsx:260-292 | the body is shown iff a structured body exists or the raw body has a non-white-space character; the structured body wins, and without one the raw text is what is shown |
| ViewMappingPage.CopiedBodyMatchesShown | src/pages/ViewMappingPage.tsx:264-283 | `CopiedBody` (the body copy button): when the body is shown, its copy button copies exactly what is shown |
| ViewMappingPage.ShowsUuidRow | src/pages/ViewMappingPage.tsx:138 | the UUID row is shown iff the uuid is present, non-empty and differs from the id: hidden when it repeats the id, shown on an id-less mapping |
| ViewMappingPage.LoadMappingOutcome | src/pages/ViewMappingPage.tsx:13-36 | a failure ends loading with no mapping and the load error; without a route id the page stays on its loading placeholder |
| ViewMappingPage.HandleDelete | src/pages/ViewMappingPage.tsx:38-51 | nothing without an id or confirmation; it goes back to the list iff the delete succeeded, after DELETE_MAPPING of that id |
| ViewMappingPage.HandleDeleteOutcome | src/pages/ViewMappingPage.tsx:38-51 | success removes every stored mapping with that id; failure only sets the delete error |
| ViewRequestPage.ExactlyOneBodyBranch | src/pages/ViewRequestPage.tsx:206-229 | exactly one of the body and the placeholder renders; the body renders iff it has a non-white-space character |
| ViewRequestPage.LoadRequestFailure | src/pages/ViewRequestPage.tsx:21-35 | a load failure sets the store's error, holds no entry and ends loading |
| MappingForm.HandleInputChange | src/components/MappingForm.tsx:52-57 | writes the one top-level field and leaves request, response and every other top-level field identical |
| MappingForm.HandleRequestChange | src/components/MappingForm.tsx:59-67 | writes the one request field; every other request field, the response and the top-level fields are identical |
| MappingForm.HandleResponseChange | src/components/MappingForm.tsx:69-77 | writes the one response field; every other response field, the request and the top-level fields are identical |
| MappingForm.EditIdempotentAndLastWins | src/components/MappingForm.tsx:52-77 | for every field of the three setters (`FieldOf`), two writes to the same field keep only the second value, and writing the value the field already holds (`Holds`) changes nothing |
| MappingForm.OnJsonText | src/components/MappingForm.tsx:217-322 | an unparsable text leaves the draft identical; a parsed one touches neither method, path, status nor raw body |
| MappingForm.JsonTextsKeepCoreFields | src/components/MappingForm.tsx:219-322 | no sequence of edits in the JSON text areas changes the draft's method, URL path, status, raw body, id or name |
| MappingForm.ShowsBodyPatternEditor | src/components/MappingForm.tsx:253 | the pattern editor shows iff the method is exactly POST, PUT or PATCH |
| MappingForm.MethodChangeKeepsHiddenPatterns | src/components/MappingForm.tsx:253 | switching to a method without the editor hides it but keeps the body patterns |
| MappingForm.LowerCasePostHidesEditor | src/components/MappingForm.tsx:253 | a loaded "post" does not show the editor |
| MappingForm.UrlOnlyMappingIsBlocked | src/components/MappingForm.tsx:206-213 | `PassesConstraints` (the browser's check of the required and min/max inputs): a mapping matched by url alone fails the required URL path check until a path is typed |
| MappingForm.DefaultDraftNeedsAPath | src/components/MappingForm.tsx:17-29 | the default draft (GET, empty path, 200, empty body, empty name, priority 1, persistent, no id) fails the required path check and passes it after any non-empty path |
| MappingForm.HandleSubmit | src/components/MappingForm.tsx:79-101 | after the browser's constraint check: error cleared first; edit mode dispatches UPDATE_MAPPING of the local draft, create mode ADD_MAPPING of the server's answer; a failure dispatches only the save error and stays on the form |
| MappingForm.SubmitOutcome | src/components/MappingForm.tsx:79-101 | edit replaces the stored mappings that share the draft's id; create appends the server's answer; failure leaves the list and sets the error |
| MappingForm.EditIgnoresServerAnswer | src/components/MappingForm.tsx:86-88 | in edit mode the server's answer never reaches the store |
| MappingForm.FailedLoadThenSubmit | src/components/MappingForm.tsx:37-88 | after a failed load the edit form holds the id-less default draft; saving it replaces every id-less stored mapping and keeps the rest |
| MappingForm.TestUrlAsWrittenForUrlOnlyMapping | src/components/MappingForm.tsx:103-106 | `TestUrlAsWritten` (testMapping as written): for a mapping matched by url alone, the test button opens http://localhost:8080undefined |
| MappingForm.TestUrl | src/components/MappingForm.tsx:103-106 | the corrected test URL is the fixed host followed by the URL the detail page copies |
| MappingForm.TestUrlCorrected | src/components/MappingForm.tsx:103-106 | the corrected URL agrees with the written one whenever a path is set, and otherwise targets the mapping's url or the bare host |
| Header.CheckConnection | src/components/Header.tsx:17-26 | after a probe, checking is off and connected holds iff the probe answered true (a thrown probe means false) |
| Header.ProbesSettle | src/components/Header.tsx:7-26 | after any non-empty series of probes, checking stays off and connected reflects only the last probe |
| Header.NoProbeKeepsChecking | src/components/Header.tsx:7-8 | before any probe: checking, not connected |
| Header.ShowIndicator | src/components/Header.tsx:64-76 | the spinner shows iff checking; "connected" iff not checking and connected |
| Header.ReconnectLabel | src/components/Header.tsx:79-85 | the button reads 'Verificando...' iff checking (it is then disabled) |
| Header.SpinnerOnlyBeforeFirstProbe | src/components/Header.tsx:64-85 | once a probe completed, the spinner never returns and reconnect stays enabled |
| Header.IsActive | src/components/Header.tsx:46 | a nav item is active iff the pathname equals its path exactly |
| Header.ActiveItemIsUnique | src/components/Header.tsx:28-46 | at most one item is active; one is iff the pathname is '/', '/requests' or '/create'; '/requests/' and edit pages activate none |

## Left out

- HTTP: the axios service in src/services/wiremock-api.ts is not part of this model. Every remote call is a `Remote` outcome (a value or a failure) passed in.
- React: rendering, hooks, effects and CSS. Only the pure classifier results (`Badges.CssClass`) and the display choices are modelled.
- Browser effects are left out: `navigator.clipboard`, `window.open`, `console`, and router navigation. Navigation is the `navigateHome` flag. `confirm()` is a boolean input, and the double-click `event.detail` is an integer input.
- Polling and concurrency: the `setInterval` timer, and races between overlapping fetches or probes. Each flow runs alone. A probe's completion is a `Probe` value.
- JSON: the internals of `JSON.parse`/`JSON.stringify` are left out. A text area's parse result is an `Option`. A parse that succeeds but has the wrong shape (headers given as a number, say) is stored as is by the source. The typed model cannot hold such a value.
- Dates: `Date`/`toLocaleString` formatting is left out.
- Numbers are integers. `parseInt` producing `NaN` and fractional statuses or delays are left out.
- The detail page's case-sensitive method lookup also matches `Object.prototype` members, such as "constructor". This is left out: the model's table holds only the eight listed methods. The list's upper-cased lookup cannot hit those members.
- JsStrings.ToUpperCase: covers ASCII letters and the characters whose upper case is ASCII (ß, ı, ſ and the Latin ligatures U+FB00–FB06). Other characters are kept as they are. This is exact for every comparison against the ASCII method names.
- MappingForm.PassesConstraints: models the browser's constraint check only for the URL path, status and delay inputs. It ignores the `step` of number inputs.
- AppStore.ReduceDispatched: models the reducer's `default` branch through an explicit `Unrecognised` tag. TypeScript's closed union makes that branch unreachable from typed code.
- The `isSaving` flag, the priority select's `|| 1` display and the checkbox's `|| false` display are not modelled. They change what is drawn, not the draft.
- The pager component is not part of this model. Only the page count and the page handler are.
- Routing (src/App.tsx) and the page wrappers are not part of this model. The `/mapping/:id` and `/request/:id` links have no route there. The two detail pages are modelled as written all the same.

## Findings

| source | as written | input that shows it | evidently intended | confidence | as-written member | corrected member |
|---|---|---|---|---|---|---|
| src/components/MappingForm.tsx:104 | the test URL interpolates `formData.request.urlPath` directly | editing a mapping whose request uses `url: "/users?page=1"` and has no `urlPath` opens `http://localhost:8080undefined` | fall back to `url`, as the detail page's copy button does (`urlPath \|\| url \|\| ''`) | not executed | MappingForm.TestUrlAsWrittenForUrlOnlyMapping | MappingForm.TestUrlCorrected |
