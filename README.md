# AnyTrip dashboard — a Dafny model of its list and record logic

The AnyTrip dashboard is a browser client (React) over a small Express API. It manages two
collections: links to Google Sheets and tasks. This project models the parts of it whose
behaviour can be stated precisely:

- **The client's data provider** (`DataContext`). It holds `sheets`, `tasks`, `loading`,
  `serverConnected`, browser storage and the list of pushes sent to the server. Every mutation
  builds a new list from the old one. The new list is then set in memory, written to browser
  storage and pushed to the server when connected. The startup load chooses each
  collection's source: the server first, then the bundled JSON file, and on the error path
  browser storage or the built-in data.
- **The API server** (`Server`). It holds two collections in memory.
  `POST /api/update-sheets` and `POST /api/update-tasks` refuse a payload that is not an
  array. Otherwise they replace the collection with the records that pass a shape check, and
  report how many were kept and how many were dropped. The GET routes and `/api/health` read
  the collections. Unknown routes get a 404.
- **The view logic of the pages and components.**
  - The Google Sheets page (`GoogleSheets`): search and filters, the category list, status
    colours, and the form handlers.
  - The Tasks page (`TasksPage`): the pending/completed split and the form handlers.
  - The dashboard's counts and previews (`Dashboard`).
  - The sidebar's badges and active-entry rule (`Sidebar`).
  - The toast queue (`Toast`).
- **How a push reaches the server** (`Sync`). This module holds the one finding below.

JavaScript values are the datatype `Js.Value`: undefined, null, booleans, integer numbers,
strings, arrays and plain objects. A record is a `map<string, Value>`, and a missing property
reads as `undefined`. `===` is structural equality on these values. Truthiness, `typeof`,
`trim` (with the full JavaScript white-space set), ASCII `toLowerCase` and `includes` are
modelled in `Js`. `Array.prototype.filter`, the `[...new Set(xs)]` idiom and `slice(0, n)`
are modelled in `Lists`.

Where the code can throw (destructuring `null`, `.trim()` on a non-string, `.length` of
`null`), the model has an explicit outcome (`Option`, `Submission.Threw`, the error path of
the load). It does not exclude such inputs with a precondition.

Each source of data is a parameter:
- the health probe (`Probe`);
- each server GET (`Fetched`: a network failure, or the `ok` flag and a body that is
  unparsable, `null` or an array);
- each bundled JSON file (`LocalFile`);
- whether browser storage accepts writes (`DataProvider.storageWritable`);
- the server's answer to a push (`PushOutcome`);
- the clock (`now` stands for `Date.now()`).

`StorageKey` names the browser storage keys ("allSheets", "allTasks").

Behaviours worth knowing:
- The lists keep the order in which they are stored. `pinned` is only counted, by the
  sidebar.
- The load takes records as they come: it fills in no default fields and generates no ids.
- The built-in data is used only on the error path. With the server unreachable and no
  bundled files, both collections load empty (`StartupOfflineLoadsEmpty`).
- The load does not push anything back to the server.
- The two server GETs run one after the other inside one `try`. A network failure of the
  tasks GET therefore also discards the sheets (`StartupTasksFailureDiscardsSheets`).
- The update response reports the number of dropped records as `filtered`, and the health
  counts are under `dataStatus`.
- The server's JSON parser runs in strict mode: a body whose top level is `null`, a number,
  a string or a boolean is refused like a body that is not JSON, and the error handler
  answers 500.

## Model

| member | source | states |
|---|---|---|
| Js.Get | client/src/context/DataContext.jsx:266 | a property read gives the stored value, or `undefined` when the property is missing |
| Js.TypeOf | server/index.js:184-188 | `typeof` is "object" exactly for null, arrays and objects, and "string" exactly for strings |
| Js.ReadOwn | server/index.js:181 | `const { sheets } = body` throws exactly on `undefined`/`null`; on an object it reads the property |
| Js.Trim | client/src/pages/GoogleSheets.jsx:30 | `trim()` gives a result with no white space at either end, no longer than the input |
| Js.TrimEmptyIffBlank | client/src/pages/GoogleSheets.jsx:30 | `trim()` gives the empty string exactly when the input is all white space, so the guard rejects a blank title |
| Js.TrimIsInnerSlice | client/src/pages/GoogleSheets.jsx:30 | what `trim()` keeps is a contiguous piece of the input, and everything it removes before and after that piece is white space |
| Js.TrimValue | client/src/pages/GoogleSheets.jsx:30 | `.trim()` succeeds exactly on strings |
| Js.ToLower | client/src/pages/GoogleSheets.jsx:111 | lowercasing keeps the length and maps each character |
| Js.Includes | client/src/pages/GoogleSheets.jsx:111-112 | `includes` holds exactly when the needle occurs at some index |
| Lists.Filter | client/src/context/DataContext.jsx:234 | `filter` keeps exactly the elements satisfying the callback, no more than the input |
| Lists.FilterIsSubseq | client/src/context/DataContext.jsx:234 | what `filter` returns is an order-preserving sub-list of its input |
| Lists.Dedup | client/src/pages/GoogleSheets.jsx:120 | `[...new Set(xs)]` holds each element of `xs` once and nothing else, in the order of first occurrence |
| Lists.FilterKeepsFirstOccurrenceOrder | client/src/pages/GoogleSheets.jsx:120 | filtering a list that is in first-occurrence order keeps that order |
| Lists.Take | client/src/pages/Dashboard.jsx:12 | `slice(0, n)` is the first `min(n, length)` elements |
| DataContext.NewRecord | client/src/context/DataContext.jsx:225-228 | the new record carries every input field; the generated id is used only when the input has no `id` |
| DataContext.Appended | client/src/context/DataContext.jsx:224-231 | the list is one longer, the old records come first unchanged and in order, and the new record is last |
| DataContext.HasId | client/src/context/DataContext.jsx:240 | `record.id === id`: a record with an id matches exactly that id, and one without an id matches only `undefined` |
| DataContext.WithoutId | client/src/context/DataContext.jsx:233-236 | no record has the id; every other record stays, in order; an absent id leaves the list unchanged |
| DataContext.RemoveIdempotent | client/src/context/DataContext.jsx:259-262 | removing an id twice is removing it once |
| DataContext.StampedSheet | client/src/context/DataContext.jsx:240 | the merged record has the update's fields over the sheet's, and `lastUpdated` "Just now" even when the update supplies one |
| DataContext.SheetsUpdated | client/src/context/DataContext.jsx:238-243 | same length; non-matching sheets unchanged; matching sheets merged and stamped |
| DataContext.UpdateStampsSheet | client/src/context/DataContext.jsx:238-243 | every matching sheet reads `lastUpdated: "Just now"` after an update |
| DataContext.StatusedTask | client/src/context/DataContext.jsx:266 | the merged task's `completed` is exactly `status === "completed"` of the update |
| DataContext.TasksUpdated | client/src/context/DataContext.jsx:264-269 | same length; non-matching tasks unchanged; matching tasks merged with derived `completed` |
| DataContext.UpdateDerivesCompleted | client/src/context/DataContext.jsx:264-269 | after an update a matching task's `completed` is the status test whatever it was before; other tasks are untouched |
| DataContext.FlippedTask | client/src/context/DataContext.jsx:255 | `completed` becomes the negation of its truthiness; every other field stays |
| DataContext.TasksToggled | client/src/context/DataContext.jsx:254-257 | same length; only matching tasks are flipped |
| DataContext.FlipKeepsId | client/src/context/DataContext.jsx:255 | toggling never changes a task's id |
| DataContext.ToggleTwiceRestores | client/src/context/DataContext.jsx:254-257 | toggling the same id twice restores the list when the matching tasks hold a boolean `completed` |
| DataContext.ToggleTwiceAddsCompleted | client/src/context/DataContext.jsx:255 | a task without `completed` comes back from two toggles with `completed: false`, so not restored |
| DataContext.StripTrailingSlash | client/src/context/DataContext.jsx:83 | `replace(/\/$/, "")` removes exactly one trailing slash, if any |
| DataContext.PushUrl | client/src/context/DataContext.jsx:185 | the push URL starts with the base URL as configured, unstripped, and the endpoint path follows it, so a base ending in "/" gives "//" |
| DataContext.Payload | client/src/context/DataContext.jsx:181 | the payload has exactly one property, `sheets` or `tasks` by kind, holding the list's records in order |
| DataContext.AsValues | client/src/context/DataContext.jsx:182 | the pushed records are the list's records as JSON objects, in order |
| DataContext.ConnectedAfter | client/src/context/DataContext.jsx:80-95 | the flag is set on a 2xx health answer, cleared on a network failure, left alone on another status |
| DataContext.ServerPhase | client/src/context/DataContext.jsx:109-121 | a network failure of either GET leaves both lists empty; a collection becomes `null` exactly when its GET answered 2xx with `null` and the block was not ended earlier |
| DataContext.Settle | client/src/context/DataContext.jsx:123-147 | a `null` list goes to the error path; otherwise each empty list takes the bundled file; with working storage both are stored; a failing write ends on the error path |
| DataContext.Recover | client/src/context/DataContext.jsx:148-167 | each collection is storage's copy if present, else the built-in data; a failing write leaves the tasks as they were; with working storage both are stored |
| DataContext.Startup | client/src/context/DataContext.jsx:98-170 | the connection flag follows the health probe; without a 2xx probe each collection is its bundled file, or empty |
| DataContext.StartupPersists | client/src/context/DataContext.jsx:142-167 | with working storage every path of the load leaves browser storage equal to both collections in memory |
| DataContext.StartupServerFirst | client/src/context/DataContext.jsx:109-140 | a non-empty server list is taken as is; an empty one is replaced by the bundled file |
| DataContext.StartupSourcesIndependent | client/src/context/DataContext.jsx:123-140 | each collection's source does not depend on the other collection's bundled file |
| DataContext.StartupTasksFailureDiscardsSheets | client/src/context/DataContext.jsx:109-121 | a network failure of the tasks GET makes the sheets come from the bundled file |
| DataContext.StartupOfflineLoadsEmpty | client/src/context/DataContext.jsx:101-140 | server unreachable and no bundled files: both collections load empty and the flag is false |
| DataContext.StartupErrorPathRestores | client/src/context/DataContext.jsx:148-167 | on the error path each collection is browser storage's copy if present, else the built-in data |
| DataContext.DataProvider.constructor | client/src/context/DataContext.jsx:31-34 | empty collections, `loading` true, not connected |
| DataContext.DataProvider.CheckServerConnection | client/src/context/DataContext.jsx:80-95 | returns true exactly on a 2xx health answer and updates the flag as `ConnectedAfter` |
| DataContext.DataProvider.LoadData | client/src/context/DataContext.jsx:98-170 | the new collections, storage and flag are those of `Startup` for the given sources; `loading` ends false |
| DataContext.DataProvider.FetchFromServer | client/src/context/DataContext.jsx:109-121 | the two GETs give `ServerPhase` of their results |
| DataContext.DataProvider.SettleCollections | client/src/context/DataContext.jsx:123-147 | bundled-file fallback and storage writes give `Settle` of the server results |
| DataContext.DataProvider.RecoverFromStorage | client/src/context/DataContext.jsx:148-167 | the error path gives `Recover` of storage and the current tasks |
| DataContext.DataProvider.UpdateJsonFiles | client/src/context/DataContext.jsx:177-208 | a push to `PushUrl` of the configured base is sent only while connected; the result is true exactly when connected and answered 2xx |
| DataContext.DataProvider.UpdateSheetsData | client/src/context/DataContext.jsx:211-215 | the list is set in memory and in storage, and pushed when connected; tasks are untouched; storage stays a mirror |
| DataContext.DataProvider.UpdateTasksData | client/src/context/DataContext.jsx:218-222 | the same for tasks |
| DataContext.DataProvider.AddSheet | client/src/context/DataContext.jsx:224-231 | commits `Appended` of the old sheets |
| DataContext.DataProvider.RemoveSheet | client/src/context/DataContext.jsx:233-236 | commits `WithoutId` of the old sheets |
| DataContext.DataProvider.UpdateSheet | client/src/context/DataContext.jsx:238-243 | commits `SheetsUpdated` of the old sheets |
| DataContext.DataProvider.AddTask | client/src/context/DataContext.jsx:245-252 | commits `Appended` of the old tasks |
| DataContext.DataProvider.ToggleTask | client/src/context/DataContext.jsx:254-257 | commits `TasksToggled` of the old tasks |
| DataContext.DataProvider.RemoveTask | client/src/context/DataContext.jsx:259-262 | commits `WithoutId` of the old tasks |
| DataContext.DataProvider.UpdateTask | client/src/context/DataContext.jsx:264-269 | commits `TasksUpdated` of the old tasks |
| Server.ValidSheet | server/index.js:193-202 | a sheet passes exactly when it is a plain object whose `title` and `url` are non-empty strings |
| Server.ValidTask | server/index.js:248-250 | a task passes exactly when it is a plain object whose `title` is a non-empty string |
| Server.ValidSheets | server/index.js:193-202 | the kept sheets are exactly the valid ones, in input order; an all-valid input is kept whole |
| Server.ValidTasks | server/index.js:248-250 | the kept tasks are exactly those with a non-empty string `title`, in input order |
| Server.ValidSheetsAppend | server/index.js:193-202 | validation is per record: two batches validate as their concatenation |
| Server.Route | server/index.js:131-350 | OPTIONS is always the CORS preflight; only POST reaches the update handlers; only GET/HEAD reach the read handlers |
| Server.InvalidArrayReply | server/index.js:185-189 | the refusal is status 400 with `success: false` |
| Server.UpdatedReply | server/index.js:212-218 | status 200, `count` is the number kept and `filtered` the number dropped, so they add up to the input length |
| Server.NotFoundReply | server/index.js:341-350 | status 404 with `success: false`, echoing the path and the method |
| Server.ApiServer.constructor | server/index.js:64-128 | the collections start as the seed data |
| Server.ApiServer.HealthCheck | server/index.js:131-147 | `dataStatus` holds the current collection lengths |
| Server.ApiServer.ServeSheets | server/index.js:150-161 | returns the current sheets |
| Server.ApiServer.ServeTasks | server/index.js:164-175 | returns the current tasks |
| Server.ApiServer.ServeDebug | server/index.js:281-303 | answers 200 |
| Server.ApiServer.ServeRoot | server/index.js:306-327 | answers 200 |
| Server.ApiServer.UpdateSheetsHandler | server/index.js:178-230 | a missing or non-array `sheets` gets 400 and changes nothing; otherwise the sheets are replaced (not merged) by the valid subset and `count`/`filtered` are reported |
| Server.ApiServer.UpdateTasksHandler | server/index.js:233-278 | the same for tasks |
| Server.ApiServer.Handle | server/index.js:8-350 | preflight 204; a body the strict JSON parser refuses gets 500; unknown routes get the 404 reply; health and the GETs report the current collections and change nothing; an update route replies and stores as its handler does (400 for a non-array, otherwise the valid subset) and touches only its own collection |
| Server.UpdateAndReadRoutes | server/index.js:150-178 | `POST /api/update-sheets` and `GET /api/sheets` reach their handlers |
| Server.DropsUntitled | server/index.js:193-202 | a record whose title is empty is dropped from between two valid sheets, which keep their order |
| Server.UpdateThenRead | server/index.js:150-230 | on a fresh server, posting two valid sheets around one with an empty title reports `count` 2 and `filtered` 1, and a later `GET /api/sheets` returns exactly the two valid sheets: the seed sheets are gone |
| GoogleSheets.StatusColor | client/src/pages/GoogleSheets.jsx:95-106 | active is green, pending orange, inactive red, anything else gray (the dashboard repeats this mapping at client/src/pages/Dashboard.jsx:14-25) |
| GoogleSheets.SearchMatch | client/src/pages/GoogleSheets.jsx:110-112 | true exactly when the lowercased title, or a string description, contains the lowercased term; throws on a non-string title |
| GoogleSheets.FilteredSheets | client/src/pages/GoogleSheets.jsx:109-117 | the view is an order-preserving sub-list of the sheets, every shown sheet passing all three clauses; defined exactly when the search clause can be evaluated |
| GoogleSheets.FilteredSheetsIff | client/src/pages/GoogleSheets.jsx:110-116 | a sheet is shown exactly when the search, status and category clauses all hold |
| GoogleSheets.IncludesEmpty | client/src/pages/GoogleSheets.jsx:111 | every string includes the empty term |
| GoogleSheets.UnfilteredShowsAll | client/src/pages/GoogleSheets.jsx:109-117 | empty term and both filters "all" show every sheet, in order |
| GoogleSheets.CategoryOf | client/src/pages/GoogleSheets.jsx:120 | `sheets.map(s => s.category)` |
| GoogleSheets.Categories | client/src/pages/GoogleSheets.jsx:120 | no duplicates, no falsy entry, each a sheet's category, every truthy category present, in the order the categories first appear |
| GoogleSheets.SheetSubmission | client/src/pages/GoogleSheets.jsx:28-53 | submit goes ahead exactly when the trimmed title and url are non-empty (and the fields are strings); the record holds the trimmed values |
| GoogleSheets.AddedSheet | client/src/pages/GoogleSheets.jsx:43-50 | the add path keeps every submitted field and stamps `lastUpdated: "Just now"` |
| GoogleSheets.EditForm | client/src/pages/GoogleSheets.jsx:64-74 | the form copies the sheet, with category "General" and description "" when falsy |
| GoogleSheets.EditThenSubmit | client/src/pages/GoogleSheets.jsx:28-74 | opening a well-formed sheet for editing and submitting it unchanged goes ahead with exactly the edit form's fields |
| GoogleSheets.EditedSheetKeepsFields | client/src/context/DataContext.jsx:238-243 | updating a sheet with its own edit form keeps its title, url, status and a truthy description; the category is the form's |
| GoogleSheets.GoogleSheetsPage.constructor | client/src/pages/GoogleSheets.jsx:12-26 | the page's initial state |
| GoogleSheets.GoogleSheetsPage.HandleSubmit | client/src/pages/GoogleSheets.jsx:28-62 | updates the sheet being edited or adds a stamped one, then resets the form; otherwise changes nothing |
| GoogleSheets.GoogleSheetsPage.Commit | client/src/pages/GoogleSheets.jsx:31-61 | once the guard has passed: the sheet being edited is updated and the edit dialog closed, or a sheet stamped "Just now" is added and the add dialog closed; the other dialog is untouched and the form is reset |
| GoogleSheets.GoogleSheetsPage.HandleEdit | client/src/pages/GoogleSheets.jsx:64-74 | loads `EditForm` of the sheet and opens the edit form |
| GoogleSheets.GoogleSheetsPage.HandleDeleteClick | client/src/pages/GoogleSheets.jsx:76-79 | remembers the id and opens the confirmation |
| GoogleSheets.GoogleSheetsPage.ConfirmDelete | client/src/pages/GoogleSheets.jsx:81-88 | removes only while a truthy id is pending, then clears it |
| GoogleSheets.GoogleSheetsPage.CancelDelete | client/src/pages/GoogleSheets.jsx:90-93 | clears the pending id and closes the confirmation |
| TasksPage.PendingTasks | client/src/pages/Tasks.jsx:80 | exactly the tasks that are not completed, in order |
| TasksPage.CompletedTasks | client/src/pages/Tasks.jsx:81 | exactly the completed tasks, in order |
| TasksPage.TasksPartition | client/src/pages/Tasks.jsx:80-81 | every task is in exactly one of the two lists, and their lengths add up |
| TasksPage.TaskSubmission | client/src/pages/Tasks.jsx:21-40 | submit goes ahead exactly when the trimmed title is non-empty (and the fields are strings) |
| TasksPage.NewTask | client/src/pages/Tasks.jsx:33-38 | a new task is completed exactly when the chosen status is "completed" |
| TasksPage.TaskEditForm | client/src/pages/Tasks.jsx:46-54 | the status is "completed" exactly when that task is completed |
| TasksPage.EditThenSubmitKeepsCompleted | client/src/pages/Tasks.jsx:21-54 | editing a task whose title is not blank and submitting it unchanged goes ahead and keeps whether it is completed (exactly, for a boolean) |
| TasksPage.NewTaskStatusRoundTrip | client/src/pages/Tasks.jsx:33-54 | a new task opened for editing shows the status it was created with |
| TasksPage.TasksPage.constructor | client/src/pages/Tasks.jsx:11-19 | the page's initial state |
| TasksPage.TasksPage.OpenAddForm | client/src/pages/Tasks.jsx:92-96 | an empty form, not editing |
| TasksPage.TasksPage.HandleSubmit | client/src/pages/Tasks.jsx:21-44 | updates the edited task or adds a new one, then resets and closes the form; otherwise changes nothing |
| TasksPage.TasksPage.Commit | client/src/pages/Tasks.jsx:24-43 | once the guard has passed: the edited task is updated and editing ends, or a new task is added; the form is reset and closed |
| TasksPage.TasksPage.HandleEdit | client/src/pages/Tasks.jsx:46-54 | loads `TaskEditForm` of that task and remembers its id |
| TasksPage.TasksPage.HandleToggle | client/src/pages/Tasks.jsx:56-59 | commits `TasksToggled` |
| TasksPage.TasksPage.HandleDeleteClick | client/src/pages/Tasks.jsx:61-64 | remembers the id and opens the confirmation |
| TasksPage.TasksPage.ConfirmDelete | client/src/pages/Tasks.jsx:66-73 | removes only while a truthy id is pending, then clears it |
| TasksPage.TasksPage.CancelDelete | client/src/pages/Tasks.jsx:75-78 | clears the pending id |
| Dashboard.CompletedCount | client/src/pages/Dashboard.jsx:10 | at most the number of tasks, zero exactly when no task is completed |
| Dashboard.PendingCount | client/src/pages/Dashboard.jsx:11 | at most the number of tasks, zero exactly when every task is completed |
| Dashboard.CountsAddUp | client/src/pages/Dashboard.jsx:10-11 | the two counts add up to the number of tasks |
| Dashboard.RecentSheets | client/src/pages/Dashboard.jsx:12 | the first `min(4, n)` sheets |
| Dashboard.TaskPreview | client/src/pages/Dashboard.jsx:123 | the first `min(5, n)` tasks |
| Dashboard.PreviewsOfShortLists | client/src/pages/Dashboard.jsx:12 | a short list is previewed whole |
| Sidebar.PinnedCount | client/src/components/Sidebar.jsx:11-12 | at most the list's length, zero exactly when nothing is pinned |
| Sidebar.MenuItems | client/src/components/Sidebar.jsx:14-41 | the two list entries count their collections; Dashboard and Settings carry `null` |
| Sidebar.BadgesFollowLists | client/src/components/Sidebar.jsx:72-77 | the pinned badge shows exactly when some record is pinned; only the list entries show a count |
| Sidebar.IsActive | client/src/components/Sidebar.jsx:43-48 | an entry is active when the location is its path, and Dashboard also at "/" |
| Sidebar.OneActiveEntry | client/src/components/Sidebar.jsx:14-48 | at most one entry is active, and each routed location activates one |
| Toast.GetIcon | client/src/components/Toast.jsx:31-42 | success shows Check, error and warning AlertTriangle, anything else Info |
| Toast.WithoutToast | client/src/components/Toast.jsx:27-29 | no toast with the id remains; the others stay, in order |
| Toast.RemovePresent | client/src/components/Toast.jsx:18-20 | with increasing ids, removing a present id drops exactly that toast |
| Toast.RemoveAbsent | client/src/components/Toast.jsx:27-29 | removing an absent id changes nothing |
| Toast.RemoveKeepsOrder | client/src/components/Toast.jsx:27-29 | removal keeps the ids increasing |
| Toast.ToastKind | client/src/components/Toast.jsx:13 | a missing type is "info" |
| Toast.ToastDuration | client/src/components/Toast.jsx:13 | a missing duration is 3000 |
| Toast.ToastCenter.constructor | client/src/components/Toast.jsx:6-9 | the counter starts at 0 with no toasts |
| Toast.ToastCenter.HandleToast | client/src/components/Toast.jsx:12-21 | the new toast's id is one more than the counter, larger than every earlier id; it is appended and the others are unchanged |
| Toast.ToastCenter.RemoveToast | client/src/components/Toast.jsx:27-29 | the queue becomes `WithoutToast` of itself, ids still increasing |
| Sync.CorrectedPushUrl | client/src/context/DataContext.jsx:83 | the intended push URL: with the base's trailing slash stripped it is `PushUrl` of the slash-free base |
| Sync.RouteOfEndpoint | server/index.js:178-278 | an endpoint path routes to its update handler; the same path with a doubled leading slash routes to none |
| Sync.AsWrittenPushMisses | client/src/context/DataContext.jsx:185 | with a base URL ending in "/", the pushed path starts with "//" and the server answers 404 |
| Sync.AsWrittenPushMissesLocalhost | client/src/context/DataContext.jsx:28 | the base "http://localhost:3001/" shows it |
| Sync.PushUrlReachesHandler | client/src/context/DataContext.jsx:83 | with the slash stripped, the push URL is the same with or without a trailing slash and reaches the update handler |
| Sync.PushedListIsStored | client/src/context/DataContext.jsx:180-191 | a pushed payload carries the list under its key, and a list of valid records is stored whole, in order |

## Left out

- Rendering, modals, CSS classes and routing of pages (`App.jsx`). There is no behaviour to state there.
- Network I/O, `response.json()` and `JSON.stringify`/`JSON.parse`. Each GET, bundled file
  and push answer is a parameter.
- A bundled file holding `null` is not modelled: the code would set the collection to `null`
  (`setSheets(null)`) and store "null", and the model's collections are always lists. A
  server body or bundled file that is JSON but neither `null` nor an array is not modelled
  either.
- The loaded lists hold records (plain objects) only. An array element that is not an object,
  from the server or a bundled file, is not modelled on the client side.
- Browser storage is a map from key to parsed list. It either accepts every write or none
  (`storageWritable`). A write that fails part-way and an entry holding invalid JSON are not
  modelled.
- Timestamps, `process.uptime()`, the environment name and logging are not modelled.
  `Date.now()` is the parameter `now`.
- Concurrency is not modelled: the asynchronous interleaving of mutations, the timing of
  `setTimeout` (expiry is `RemoveToast` at a time of the caller's choosing), and React's
  batching of state updates. Each handler runs to completion before the next.
- JavaScript numbers are unbounded integers; NaN and fractions are not modelled. `===` on
  objects and arrays is structural equality, not reference identity. `toLowerCase` maps ASCII
  letters only.
- The toasts that page handlers show (`showToast(...)`) are not modelled. The toast queue is
  modelled on its own.
- The module-level `toastId` is a field of the single `ToastCenter`. Two mounted toast
  containers sharing the counter are not modelled.
- Server.ApiServer.ServeDebug: models only the counts and items of `/api/debug`, not the timestamp or server details.
- Server.ApiServer.ServeRoot: models only the status and counts of `/`, not the message and endpoint list.
- Server.ApiServer.Handle: a body that is not JSON is `Malformed`, and a JSON body is its parsed value; the `Content-Type` check that decides whether the parser runs at all is not modelled. The CORS origin check, the logging middleware, `urlencoded` bodies and the 10 MB body limit are not modelled. Every 500 reply is `InternalError`, without the `details`/`message` text.
- Server.Route: Express path matching is modelled as ASCII case-insensitive with one optional trailing slash. Percent-decoding and other methods are not modelled.
- `UploadFiles.jsx`, `Settings.jsx`, `Header.jsx` and ThemeContext are not part of this model. They are
  file-size formatting, random ids and settings glue.

## Findings

| source | as written | input that shows it | evidently intended | confidence | as-written member | corrected member |
|---|---|---|---|---|---|---|
| client/src/context/DataContext.jsx:185 | `updateJsonFiles` posts to `${API_BASE_URL}${endpoint}` without removing a trailing slash, unlike the health check (line 83) and the loads (line 112) | `VITE_API_URL = "http://localhost:3001/"`: the health check succeeds, but every push goes to `//api/update-sheets`, which the server answers 404, so no change ever reaches the server | strip the trailing slash as lines 83 and 112 do | medium, not executed | Sync.AsWrittenPushMisses | Sync.PushUrlReachesHandler |

The data provider records every push at the URL as written, `DataContext.PushUrl`. `Sync.CorrectedPushUrl` is the URL evidently intended.
