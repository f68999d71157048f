# Port monitoring dashboard — a verified model of its core

This project models the client-side core of a port-monitoring dashboard in
Dafny and proves properties of the model:

- **Socket service** (`socket.dfy`, module `Socket`). This is the single shared
  connection to the back end. It opens a transport once, keeps an
  `isConnected` flag and an error message, rewrites both on the
  `connect`, `connect_error` and `disconnect` events, and forwards `on`/`off`
  subscriptions to the transport. It is a class whose methods are proved
  against a state machine (`Step`/`Run`), plus a registry for the
  singleton.
- **Vessel table and vessel details** (`vessels.dfy`, module `Vessels`). The
  table's state is modelled as a class: the vessel list, search term, sort
  field and direction, the four filters, the connection error and the
  selection. It covers the live update that inserts a new vessel at the front
  or merges an update in place, the search-and-filter step, the sort, the
  sorted option lists, the status colours, and the time-left and date
  formatters. The details panel has its own id-guarded update.
- **Environmental dashboard** (`environmental.dfy`, module `Environmental`).
  It keeps a window of the last 50 readings, mirrors the connection status
  from the socket events, and decides which view to render: connecting,
  error, or dashboard. It also toggles the selected chart metrics, formats
  the metric labels and builds the oil-spill series.
- **Route middleware** (`middleware.dfy`, module `Middleware`). This decides
  between a redirect to sign-in and letting the request through, and flags
  employees on manager-only pages.
- **Sign-in e-mail** (`verification.dfy`, module `VerificationRequest`). It
  covers host escaping, theme colour defaults, the subject and plain-text
  body, and the failed-recipient check.
- **Text helpers** (`strings.dfy`, module `Strings`). These are the JavaScript
  string operations the rest relies on: `startsWith`, `includes`, ASCII case
  mapping, `split`, `join`, and decimal rendering and parsing of integers.

Three facts about the code shape the model:
- `disconnect()` in `src/services/socket.ts:41-47` closes the transport,
  drops it and clears the connected flag, but keeps the last error message.
  When the transport was connected, socket.io's `close()` fires the
  service's own `disconnect` handler on the way, which sets the
  "connection lost" message. That library behaviour is left out (see
  below), so the model's `disconnect()` leaves the error as it was.
- The environmental dashboard appends every reading to its window
  (`src/components/EnvironmentalDashboard.tsx:110`). Readings that share an
  id are not merged.
- `off(event, callback?)` (`src/services/socket.ts:66-70`) always forwards
  two arguments to the transport. Without a callback the emitter therefore
  removes only the first handler registered for the event, not all of them.
  For `connect`, `connect_error` and `disconnect` that first handler is the
  service's own status handler, which `connect()` registered
  (`src/services/socket.ts:25-38`). Once it is gone, that event no longer
  changes the status. The model keeps the service's three handlers at the
  head of the transport's handler list for this reason.

## Model

| member | source | states |
|---|---|---|
| Strings.IncludesIffOccurs | src/components/VesselTable.tsx:202-203 | `includes` holds exactly when the needle occurs at some offset of the text |
| Strings.Lower | src/components/VesselTable.tsx:202-203 | `toLowerCase` keeps the length and maps every character through the ASCII lower-case map |
| Strings.IntRoundTrip | src/components/VesselTable.tsx:181 | reading back the decimal text a template literal prints for an integer gives the integer again |
| Strings.Split | src/components/EnvironmentalDashboard.tsx:515 | `split` always yields at least one piece, and no piece holds the separator |
| Strings.JoinSplit | src/components/EnvironmentalDashboard.tsx:515 | joining the pieces of `split` with the separator gives back the original string |
| Socket.Endpoint | src/services/socket.ts:21-23 | the configured back-end URL is used when present and non-empty, `http://localhost:3001` otherwise |
| Socket.HandlersFor | src/services/socket.ts:60-64 | the handlers an event reaches are exactly those subscribed to that event name |
| Socket.HandlersForCounts | src/services/socket.ts:60-64 | a handler registered several times for an event is reached that many times |
| Socket.HandlersForAppend | src/services/socket.ts:60-64 | handlers are reached in registration order: the handlers of a concatenated list are those of each part, in turn |
| Socket.OnRunsLast | src/services/socket.ts:60-64 | a handler added with `on` is reached after every handler already registered for its event |
| Socket.UnsubscribeOne | src/services/socket.ts:66-70 | `off(event, h)` removes one subscription of `h` to `event` and no other; when there is none, the subscriptions are unchanged |
| Socket.UnsubscribeFirst | src/services/socket.ts:66-70 | `off(event)` with no callback removes only the earliest handler of that event, whoever registered it, and keeps the handlers of every other event |
| Socket.UnsubscribeClientKeepsService | src/services/socket.ts:66-70 | `off(event, callback)` with a caller's callback never removes one of the service's own status handlers |
| Socket.UnsubscribeNoCallbackKeepsSecond | src/services/socket.ts:66-70 | with two handlers on one event, `off(event)` leaves the second one registered |
| Socket.Step | src/services/socket.ts:18-70 | only `connect` creates a transport and only `disconnect` drops it; only an event heard by the service's own handler on a live transport changes the error or sets the connected flag; every operation keeps the invariant that the service is never connected without a transport and only ever holds one of the two fixed error messages |
| Socket.RunConsistent | src/services/socket.ts:18-47 | any sequence of operations from a consistent state keeps that invariant |
| Socket.ConnectIdempotent | src/services/socket.ts:18-19 | after one `connect` a transport exists, and a second `connect` changes nothing |
| Socket.ConnectListens | src/services/socket.ts:18-38 | a transport opened by `connect` carries the service's own handler for each of `connect`, `connect_error` and `disconnect`, and no other handler for them |
| Socket.EventSetsStatus | src/services/socket.ts:25-38 | while the service's handler for an event is registered on the transport, that event sets the status to its fixed value: connected with no error, or disconnected with the "Server is down" or "connection lost" message |
| Socket.EventUnheard | src/services/socket.ts:25-38 | without a transport, or after the service's handler for the event was removed, the event leaves the state unchanged |
| Socket.OffWithoutCallbackSilencesStatus | src/services/socket.ts:25-70 | after `connect()` and `off("connect")` a `connect` event no longer marks the service connected |
| Socket.DisconnectKeepsError | src/services/socket.ts:41-47 | `disconnect` drops the transport and the connected flag, keeps the error, and does nothing without a transport |
| Socket.LastEventDecides | src/services/socket.ts:25-38 | the status is decided by the last transport event the service's handler heard; later connect, on and off calls do not change it |
| Socket.RunAppend | src/services/socket.ts:18-70 | running two operation sequences one after the other is the same as running their concatenation |
| Socket.RunKeepsStatus | src/services/socket.ts:18-19 | connect, on and off calls never change the status |
| Socket.SocketService.constructor | src/services/socket.ts:4-9 | a new service has no transport, is not connected and has no error |
| Socket.SocketService.Connect | src/services/socket.ts:18-39 | opens a transport to the endpoint carrying only the service's three status handlers when there is none, and otherwise changes nothing; the status is untouched |
| Socket.SocketService.Deliver | src/services/socket.ts:25-38 | an event on an open transport reaches its handlers in order, and sets the status for that event exactly when the service's own handler is still registered; otherwise nothing changes |
| Socket.SocketService.Emit | src/services/socket.ts:60-64 | a data event reaches exactly the handlers subscribed to its name, each as often as it was registered, and none when there is no transport |
| Socket.SocketService.Disconnect | src/services/socket.ts:41-47 | drops the transport and clears the connected flag but keeps the error |
| Socket.SocketService.GetConnectionStatus | src/services/socket.ts:53-58 | reports the current flag and error |
| Socket.SocketService.GetSocket | src/services/socket.ts:49-51 | returns the current transport |
| Socket.SocketService.On | src/services/socket.ts:60-64 | appends the caller's handler to an open transport's list; without a transport it changes nothing |
| Socket.SocketService.Off | src/services/socket.ts:66-70 | removes the first registration of the callback from an open transport, or, with no callback, the event's first handler, which for a status event is the service's own one while it is there; without a transport it changes nothing |
| Socket.ServiceRegistry.GetInstance | src/services/socket.ts:11-16 | creates the service on first use and returns the same one afterwards |
| Socket.SameInstance | src/services/socket.ts:11-16 | two calls to `getInstance` return the same object |
| Vessels.FindIndex | src/components/VesselTable.tsx:72 | `findIndex` returns -1 exactly when no vessel has the id, and otherwise the first index holding it |
| Vessels.Upsert | src/components/VesselTable.tsx:71-91 | a live update grows the list by one for an unseen id and keeps its length otherwise; the ids afterwards are the old ones plus the incoming one |
| Vessels.UpsertUnseen | src/components/VesselTable.tsx:73-81 | an unseen vessel is put at the front, with both timestamps set to now, ahead of the unchanged list |
| Vessels.UpsertSeen | src/components/VesselTable.tsx:83-90 | a known vessel is merged in place at the first index holding its id: the incoming fields win, `createdAt` is kept, `updatedAt` is now, and every other entry is unchanged, later ones with the same id included |
| Vessels.UpsertDuplicateIds | src/components/VesselTable.tsx:72-90 | when two listed vessels share the incoming id, only the first one is updated |
| Vessels.UpsertKeepsCreation | src/components/VesselTable.tsx:71-91 | every vessel already listed keeps its id and creation time under any update, even when ids repeat |
| Vessels.UpsertKeepsIdsUnique | src/components/VesselTable.tsx:71-91 | a list with unique ids keeps unique ids under any update |
| Vessels.SetFilter | src/components/VesselTable.tsx:184-189 | changing one filter sets that filter and leaves the other three as they were |
| Vessels.FilterVessels | src/components/VesselTable.tsx:197-221 | the filter never adds rows: every vessel it keeps is from the list and matches the search and every filter |
| Vessels.FilterKeepsExactlyMatches | src/components/VesselTable.tsx:197-221 | a vessel is shown exactly when it is listed, its name or id contains the search term case-insensitively (or the term is empty), and every non-empty filter equals its field |
| Vessels.FilterMembership | src/components/VesselTable.tsx:197-221 | membership after filtering is membership before filtering together with the match predicate |
| Vessels.FilterAppend | src/components/VesselTable.tsx:197-221 | filtering keeps the relative order of the vessels it keeps |
| Vessels.FilterNothingKeepsAll | src/components/VesselTable.tsx:41-46 | with an empty search and no filters every vessel is shown, in order |
| Vessels.SortBy | src/components/VesselTable.tsx:222-242 | the sort returns the same vessels, each as often as before |
| Vessels.SortByCorrect | src/components/VesselTable.tsx:222-242 | the sort returns a permutation of its input ordered by the sort key in the chosen direction |
| Vessels.VisibleCorrect | src/components/VesselTable.tsx:197-242 | the rows shown are exactly the matching vessels, each as often as in the list, in sorted order |
| Vessels.NextSort | src/components/VesselTable.tsx:150-157 | clicking the current column flips the direction; clicking another column selects it in descending order |
| Vessels.NextSortTwice | src/components/VesselTable.tsx:150-157 | clicking the same column twice restores the original order |
| Vessels.CodeUnitRank | src/components/VesselTable.tsx:194 | ranks characters as their UTF-16 encodings compare: below U+D800 by code point, then every character above U+FFFF, then U+E000 to U+FFFF |
| Vessels.TextLessIsCodeUnitOrder | src/components/VesselTable.tsx:194 | the string order of the model is exactly JavaScript's comparison of the strings' UTF-16 code units, a proper prefix first |
| Vessels.EmojiBeforeFullWidth | src/components/VesselTable.tsx:194 | U+1F600 sorts before U+FF01 although its code point is larger |
| Vessels.TextLessTotal | src/components/VesselTable.tsx:194 | that order is total on distinct strings (with the irreflexivity and transitivity lemmas next to it) |
| Vessels.InsertUnique | src/components/VesselTable.tsx:192-194 | adding a value to the set of options adds exactly that value |
| Vessels.UniqueValues | src/components/VesselTable.tsx:191-195 | a filter's options are strictly sorted in `sort()` order |
| Vessels.UniqueValuesCorrect | src/components/VesselTable.tsx:191-195 | a filter's options are free of duplicates and exactly the values that field takes in the list |
| Vessels.StatusColor | src/components/VesselTable.tsx:244-253 | the five known statuses get their own colour classes and anything else gets grey |
| Vessels.StatusColorDistinguishes | src/components/VesselTable.tsx:244-253 | a known status never shares its colour with another status or with the default |
| Vessels.TruncRem | src/components/VesselTable.tsx:180 | `%` takes the sign of the dividend, is smaller than the divisor in size, and with the quotient truncated toward zero rebuilds the dividend |
| Vessels.TimeLeftRoundTrip | src/components/VesselTable.tsx:181 | the `"<h>h <m>m"` text can be read back to the hours and minutes printed |
| Vessels.FormatTimeLeft | src/components/VesselTable.tsx:177-182 | a missing count prints `N/A` and nothing else does; a count prints a label that reads back as the floored hours and the truncated remainder, between -60 and 60 |
| Vessels.FormatTimeLeftNonNegative | src/components/VesselTable.tsx:177-182 | for a non-negative minute count the printed hours and minutes satisfy `h*60 + m` = count with `0 <= m < 60` |
| Vessels.FormatTimeLeftNegativeOffByAnHour | src/components/VesselTable.tsx:177-182 | for a negative count that is not a multiple of 60, the printed `h*60 + m` is the count minus 60 |
| Vessels.FormatTimeLeftMinusOne | src/components/VesselTable.tsx:177-182 | -1 minutes prints as `-1h -1m` |
| Vessels.FormatTimeLeftFlooredCorrect | src/components/VesselTable.tsx:177-182 | with a floored remainder the printed `h*60 + m` equals the count for every integer, with `0 <= m < 60`, and the text agrees with the original for non-negative counts |
| Vessels.FormatDate | src/components/VesselTable.tsx:159-175 | a missing or empty date prints `N/A`, an unparsable one `Invalid Date`, and a parsable one its rendering |
| Vessels.ConnectionErrorText | src/components/VesselTable.tsx:110-115 | a lost connection always shows a non-empty message: the service's error when it is non-empty, and `Connection lost` when it is missing or empty |
| Vessels.VesselTable.constructor | src/components/VesselTable.tsx:34-46 | the table starts empty, loading, unfiltered, sorted by creation time descending, with no error and no selection |
| Vessels.VesselTable.LoadInitialData | src/components/VesselTable.tsx:51-61 | a fetch error is shown and keeps the list; otherwise the fetched vessels replace the list; loading ends either way |
| Vessels.VesselTable.HandleVesselData | src/components/VesselTable.tsx:70-108 | the list becomes the upsert of the update, the selected vessel is merged when its id matches, and the error is cleared |
| Vessels.VesselTable.CheckConnection | src/components/VesselTable.tsx:110-115 | a disconnected status shows the error text, and a connected one leaves the error as it was |
| Vessels.VesselTable.HandleConnect | src/components/VesselTable.tsx:118 | a connect event clears the error |
| Vessels.VesselTable.HandleSort | src/components/VesselTable.tsx:150-157 | a header click moves sort field and direction as `NextSort` says |
| Vessels.VesselTable.HandleFilterChange | src/components/VesselTable.tsx:184-189 | a filter change updates exactly that filter |
| Vessels.VesselTable.SetSearchTerm | src/components/VesselTable.tsx:302 | typing replaces the search term |
| Vessels.VesselTable.SelectVessel | src/components/VesselTable.tsx:136-144 | selecting or closing sets the selection |
| Vessels.VesselDetails.constructor | src/components/VesselDetails.tsx:14 | the panel starts with the vessel it was opened on |
| Vessels.VesselDetails.HandleVesselUpdate | src/components/VesselDetails.tsx:17-26 | an update for another id changes nothing; one for the shown id is merged; the id and creation time never change |
| Vessels.MergeForSameId | src/components/VesselDetails.tsx:19-24 | a merge takes every incoming field except `createdAt`, kept from before, and `updatedAt`, set to now |
| Vessels.TableAndDetailsAgree | src/components/VesselDetails.tsx:17-26 | after one update the table row and the open details panel show the same vessel |
| Environmental.SliceLast | src/components/EnvironmentalDashboard.tsx:110 | `slice(-n)` is the suffix of length `min(n, len)` |
| Environmental.Ingest | src/components/EnvironmentalDashboard.tsx:110 | a new reading is the last record, the window never exceeds 50, and it grows by one until it is full |
| Environmental.IngestEvictsOldest | src/components/EnvironmentalDashboard.tsx:110 | below 50 the reading is appended; at 50 the oldest one is dropped |
| Environmental.IngestAllIsSuffix | src/components/EnvironmentalDashboard.tsx:110 | after any sequence of readings the window is the last 50 of everything received |
| Environmental.Without | src/components/EnvironmentalDashboard.tsx:162 | filtering a metric out keeps exactly the other metrics |
| Environmental.Toggle | src/components/EnvironmentalDashboard.tsx:159-173 | a toggle flips that metric's membership, keeps the others in their order, and appends an absent metric at the end |
| Environmental.ToggleTwiceRestores | src/components/EnvironmentalDashboard.tsx:159-173 | toggling an unselected metric on and off restores the selection |
| Environmental.WithoutTwice | src/components/EnvironmentalDashboard.tsx:162 | removing a metric twice is the same as removing it once |
| Environmental.FormatLabel | src/components/EnvironmentalDashboard.tsx:514-519 | the label has the metric's length; each `_` becomes a space and each word's first letter is upper-cased |
| Environmental.NoiseLevelLabel | src/components/EnvironmentalDashboard.tsx:514-519 | `noise_level` is labelled `Noise Level` |
| Environmental.OilSpillSeriesMeaning | src/components/EnvironmentalDashboard.tsx:455-457 | the oil-spill series has one point per record, 1 for a detection and 0 otherwise, and sums to the number of detections |
| Environmental.DashboardMirrorsService | src/components/EnvironmentalDashboard.tsx:88-107 | the dashboard's own status handlers set the same status the service sets for each event |
| Environmental.Gate | src/components/EnvironmentalDashboard.tsx:136-157 | the loading view shows exactly while not initialised; then the error view shows exactly when disconnected with a non-empty error, carrying that message, and the dashboard otherwise |
| Environmental.MountView | src/components/EnvironmentalDashboard.tsx:114-119 | on mount, a consistent service status leads to the dashboard when connected, to the error page when an error was reported, and to the loading view when neither |
| Environmental.Dashboard.constructor | src/components/EnvironmentalDashboard.tsx:59-81 | the dashboard starts with no records and nothing received, all metrics selected, disconnected with no error, and not initialised |
| Environmental.Dashboard.Mount | src/components/EnvironmentalDashboard.tsx:114-119 | mounting copies the service status and sets the initialised flag from it |
| Environmental.Dashboard.HandleStatusEvent | src/components/EnvironmentalDashboard.tsx:88-107 | a status event sets the status and marks the dashboard initialised; a connect shows the dashboard and the others show the error page |
| Environmental.Dashboard.HandleEnvironmentalData | src/components/EnvironmentalDashboard.tsx:109-112 | a reading enters the 50-record window and becomes the latest record; the window stays the last 50 of every reading received |
| Environmental.Dashboard.ToggleAirMetric | src/components/EnvironmentalDashboard.tsx:159-165 | the air-quality selection becomes its toggle |
| Environmental.Dashboard.ToggleEnvMetric | src/components/EnvironmentalDashboard.tsx:167-173 | the environment selection becomes its toggle |
| Middleware.PublicIff | src/middleware.ts:12-31 | a path is public exactly when it is `/`, `/unauthorized`, or starts with `/auth/` |
| Middleware.RestrictedIff | src/middleware.ts:6-9 | a path is employee-restricted exactly when it starts with `/dashboard/environmental` or `/dashboard/sensors` |
| Middleware.Decide | src/middleware.ts:43-74 | the answer is a redirect to `/auth/signin` exactly when there is no token and the path is not public; without a token a public path passes untouched |
| Middleware.UnauthorizedIff | src/middleware.ts:49-74 | the `x-unauthorized` header is set exactly for an EMPLOYEE token on a restricted path; MANAGER and every other type pass without it |
| Middleware.PrefixExamples | src/middleware.ts:58-60 | an employee on `/dashboard/environmental/historical` is flagged, while `/sensors` is not restricted and redirects without a token |
| VerificationRequest.EscapeHost | src/lib/verification-request.ts:29 | escaping adds seven characters per dot and nothing else, and leaves a host without dots as it is |
| VerificationRequest.EscapeHostRoundTrip | src/lib/verification-request.ts:29 | deleting every `&#8203;` from the escaped host gives back a host that has no `&` |
| VerificationRequest.EscapedDotsFollowMarker | src/lib/verification-request.ts:29 | every dot of the escaped host comes right after a `&#8203;` |
| VerificationRequest.OrDefault | src/lib/verification-request.ts:30-37 | `value \|\| fallback` takes a non-empty value and falls back for an absent or empty one |
| VerificationRequest.PaletteProperties | src/lib/verification-request.ts:30-38 | button background and border are both the brand colour, which defaults to `#346df1`; button text defaults to `#ffffff`; the page colours are fixed |
| VerificationRequest.EmptyThemeIsDefault | src/lib/verification-request.ts:30-37 | an absent theme and a theme of empty strings give the same colours |
| VerificationRequest.Subject | src/lib/verification-request.ts:18 | the subject is `Sign in to ` followed by the host |
| VerificationRequest.TextBody | src/lib/verification-request.ts:90-92 | the text body is the subject, a line break, the link and two line breaks |
| VerificationRequest.TextBodyLines | src/lib/verification-request.ts:90-92 | for a host and link without line breaks, the body splits into the subject, the link and two empty pieces |
| VerificationRequest.Truthful | src/lib/verification-request.ts:22 | `filter(Boolean)` keeps exactly the truthy entries |
| VerificationRequest.TruthfulAppend | src/lib/verification-request.ts:22 | failed rejected recipients come before failed pending ones, each in its list's order |
| VerificationRequest.Outcome | src/lib/verification-request.ts:22-25 | sending throws exactly when some rejected or pending entry is truthy, and the message starts with `Email(s) (` |
| VerificationRequest.FalsyEntriesIgnored | src/lib/verification-request.ts:22-25 | empty and missing entries never make the send fail |
| VerificationRequest.SingleRejection | src/lib/verification-request.ts:22-25 | one rejected address is named verbatim in the error message |

## Left out

- The socket.io transport itself is not modelled. This covers connecting, reconnection, what `close()` emits, and the library's internal listeners. A transport is a URL plus the ordered list of handlers registered on it, the service's own three first. Events are explicit method calls.
- React effects, their clean-up, stale closures and batched state updates are not modelled. Each handler is a method on the component's state. In particular the table's `off` of a fresh arrow function (`src/components/VesselTable.tsx:126`) removes nothing in the source, and the model does not capture that.
- Partial payloads are not modelled. Incoming vessels and readings are complete records, so spreading an update over the previous vessel takes every incoming field.
- Numbers are mathematical reals and integers. Floating-point rounding, `NaN` and `toFixed` are outside the model, and `timeLeftMinutes` is an integer.
- `Date` parsing, `toISOString` and `toLocaleString` are parameters. "Now" is a string argument, and `FormatDate` takes the parser and renderer as functions.
- Vessels.SortKey: the comparator's date branch and `localeCompare` are abstracted to a caller-given rank of text values, so the sort is proved ordered and a permutation for any such rank. Stability is not proved.
- Strings.Lower: case mapping covers ASCII letters only.
- Socket.UnsubscribeFirst: handlers registered with `once` are not modelled. The emitter wraps those, so `off(event)` without a callback would skip them.
- Vessels.StatusColor: the lookup ignores JavaScript prototype keys such as `constructor`, which the source's object lookup would find.
- Vessels.UniqueValues: this is modelled for the four filter fields only, which are the only fields the table asks for options of.
- The HTML markup of the sign-in e-mail is static text and is not modelled. Only its computed values are: the escaped host and the colours. URL parsing is outside the model too, so the host is an input.
- nodemailer's `createTransport` and `sendMail` are not modelled. The rejected and pending lists are inputs.
- The Next.js `matcher` and `getToken` are not modelled. The token arrives decoded, and only its `type` claim is kept.
- `src/app/api/environmental/export/route.ts`, `src/app/api/environmental/historical/route.ts`, the server actions, authentication and the seed script are not part of this model. They are network, database and identity-provider plumbing.
- The pages, layouts, charts and icons are not part of this model. They are rendering only.

## Findings

| source | as written | input that shows it | evidently intended | confidence | as-written member | corrected member |
|---|---|---|---|---|---|---|
| src/components/VesselTable.tsx:177-182 (same code in src/components/VesselDetails.tsx:53-58) | hours use `Math.floor` (rounds down) but minutes use `%` (takes the dividend's sign), so a negative count prints an hour too few | `formatTimeLeft(-1)` prints `-1h -1m`, which reads as -61 minutes | `h*60 + m` equals the count with `0 <= m < 60`, as it does for non-negative counts | medium, not executed | Vessels.FormatTimeLeftNegativeOffByAnHour, Vessels.FormatTimeLeftMinusOne | Vessels.FormatTimeLeftFlooredCorrect |
