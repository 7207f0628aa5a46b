# MioPoint frontend client state, modelled in Dafny

This project models the client-side state logic of the MioPoint web frontend. It covers six pieces:

- the realtime store (`wsStore`): a single state record driven by the socket's lifecycle callbacks, the inbound-frame dispatcher, outbound chat sends with optimistic tracking, and a few mutators;
- the auth-gated request wrapper (`fetchWithAuth`), with its single-flight token refresh, retry-once on 401, error-message selection and 204 handling, plus `logout`;
- the search store's URL parser (`parseUrlToQuery`), the parameter builders of `set` and `searchFiles`, and `initialize`'s choice of source;
- the tag store's load-once flags (`initTags`, `loadTags`);
- the prefetch page cache;
- the party-indicator registry.

Every store is an immutable datatype, and every operation is a pure function. The outside world comes in as parameters:

- sockets, responses and fetch outcomes are abstract values;
- client ids, timestamps and the `browser` flag are arguments;
- concurrent `fetchWithAuth` callers are interleaved events over one shared world, which holds the in-flight refresh marker.

JavaScript's own semantics are written out where the code relies on them:

- `===` on primitives and truthiness;
- `String()` of integers;
- `parseInt(s, 10)`, including its skipping of leading whitespace and its longest-digit-prefix reading;
- `URLSearchParams.get`, `getAll` and `set`;
- object spread;
- the fact that a `throw` inside a store `update` commits nothing.

The modules are:

- `Optional`: the option type;
- `JsValue`: JavaScript primitives;
- `WsStore`, `AuthApi`, `SearchStore`, `TagStore`, `PrefetchStore` and `PartyIndicatorStore`, one per source file.

## Model

| member | source | states |
|---|---|---|
| `JsValue.ParseIntSkipsWhitespace` | src/lib/searchStore.ts:51-55 | `parseInt(value, 10)` ignores leading white space. |
| `JsValue.ParseIntOfNonNumeric` | src/lib/searchStore.ts:51-55 | Text that starts with anything other than white space, a sign or a digit is NaN. |
| `JsValue.ParseIntOfBareSign` | src/lib/searchStore.ts:51-55 | A sign with no digit right behind it is NaN. |
| `JsValue.ParseIntOfDigitRun` | src/lib/searchStore.ts:51-55 | Text that starts with a digit parses to the value of its longest digit prefix, whatever follows. |
| `JsValue.ParseIntOfNegativeRun` | src/lib/searchStore.ts:51-55 | A minus sign followed by digits parses to the negated value of those digits. |
| `JsValue.ParseIntOfPositiveRun` | src/lib/searchStore.ts:51-55 | A plus sign followed by digits parses to the value of those digits. |
| `JsValue.ParseIntOfDecimal` | src/lib/searchStore.ts:51-55 | Reading back the decimal text of any integer gives that integer. |
| `JsValue.ParseIntReadsDecimal` | src/lib/searchStore.ts:51-55 | A decimal integer followed by any text that does not start with a digit parses to that integer. |
| `WsStore.Put` | src/lib/wsStore.ts:256-259 | Adding a pending entry under a new client id appends it last. An existing id keeps its position and takes the new value. Other entries are untouched and ids stay unique. |
| `WsStore.SetStatus` | src/lib/wsStore.ts:261-288 | Changing a pending entry's status changes only that entry's status: ids, payloads, timestamps, order and every other entry stay the same. |
| `WsStore.FirstMatch` | src/lib/wsStore.ts:182-186 | The index found is the first pending entry whose thread and content both equal the broadcast's; none is found only when no entry matches. |
| `WsStore.ReconcileRemovesFirstMatch` | src/lib/wsStore.ts:182-191 | Reconciling a broadcast removes exactly the first matching pending entry and keeps every other entry in order; with no match nothing changes. |
| `WsStore.SendMessage` | src/lib/wsStore.ts:229-293 | Without an open socket nothing changes and nothing is sent. A trackable send (thread or party message with truthy content) adds exactly one entry, ending `sent` or `failed` if the send throws, and never rethrows. A non-trackable send leaves the state alone, sends the frame, and rethrows a send error. |
| `WsStore.SendMessageKeepsValid` | src/lib/wsStore.ts:229-293 | After any send, pending ids are still distinct and no entry is left in `sending`. |
| `WsStore.Dispatch` | src/lib/wsStore.ts:89-206 | A frame whose branch throws (a missing payload, or the party-status send of `authenticated` throwing) commits nothing; every other frame sets `lastMessage` to itself, whether or not its guard holds. The socket fields are never touched. Only `authenticated` sends or touches the user, only `new_chat_message` touches pending messages, only `transcoding_complete` touches transcoding status, and an unrecognised type changes nothing but `lastMessage`. |
| `WsStore.PartyFramesInstallParty` | src/lib/wsStore.ts:107-131 | `active_party_info` and `joined_watch_party_success` set the party's thread id, file id and owner flag to the payload's and change nothing else but `lastMessage`; without a payload they commit nothing. `watch_party_left` resets the party to no party. |
| `WsStore.TranscodingFrameRecordsCompletion` | src/lib/wsStore.ts:195-203 | `transcoding_complete` stores `{url, completed: true}` under the file id's property key, keeps every other entry, and changes nothing else but `lastMessage`; without a payload it commits nothing. |
| `WsStore.OnMessage` | src/lib/wsStore.ts:84-211 | A frame that is not valid JSON changes nothing; the socket fields are never touched. |
| `WsStore.DispatchKeepsValid` | src/lib/wsStore.ts:172-194 | Every inbound frame keeps pending ids distinct and no entry in `sending`. |
| `WsStore.AuthenticatedQueriesPartyStatus` | src/lib/wsStore.ts:96-105 | On an open socket, `authenticated` marks the session authenticated, records the user id, and sends exactly one `get_my_party_status` frame. |
| `WsStore.AuthenticatedEdgeCases` | src/lib/wsStore.ts:96-105 | Without a payload, `authenticated` still sends the party-status query and then commits nothing. If that send throws, nothing is committed or sent. With a closed socket nothing is sent, and the user is recorded as usual. |
| `WsStore.OwnershipFramesTouchOnlyIsOwner` | src/lib/wsStore.ts:149-163 | `ownership_transferred` and `ownership_revoked` set or clear `party.isOwner` only when the thread id equals the party's; thread and file ids are kept. |
| `WsStore.UserBannedClearsOnlySelf` | src/lib/wsStore.ts:133-138 | `user_banned` clears the party exactly when the banned id is strictly equal to this session's user id. |
| `WsStore.FileChangeFramesTouchOnlyFileId` | src/lib/wsStore.ts:139-170 | `party_file_changed` and `party_list_updated` change only `party.fileId`, and do so exactly when a party is active and the id differs. `party_list_updated` also requires a truthy new id. |
| `WsStore.PartyReducerIsPure` | src/lib/wsStore.ts:107-170 | The party after a frame depends only on the previous party, the user id and the frame. |
| `WsStore.OwnEchoRemovesFirstPending` | src/lib/wsStore.ts:172-194 | The user's own broadcast removes exactly the first matching pending entry. Anyone else's broadcast removes none. |
| `WsStore.SendThenEchoClearsPending` | src/lib/wsStore.ts:172-194 | A tracked send followed by its own echo leaves nothing pending. |
| `WsStore.Connect` | src/lib/wsStore.ts:65-77 | `connect()` never changes the state. It creates a socket exactly when in the browser and no socket is recorded. |
| `WsStore.ConnectFollowsOpenAndClose` | src/lib/wsStore.ts:65-216 | Once a socket has opened, `connect()` does nothing; once it has closed, `connect()` in the browser creates a new socket. |
| `WsStore.ErrorThenCloseResets` | src/lib/wsStore.ts:213-221 | An error closes exactly the failing socket and changes nothing itself; the close that follows resets the store. |
| `WsStore.DisconnectEndsInInitial` | src/lib/wsStore.ts:298-305 | `disconnect()` ends in the initial state: at once when no socket is held, otherwise when the held socket's close arrives. |
| `WsStore.SetPartyAgreesWithPartyFrames` | src/lib/wsStore.ts:107-309 | `setParty` with all three fields installs the same party as a `joined_watch_party_success` or `active_party_info` frame with those fields. |
| `WsStore.SetPartyIsIdempotent` | src/lib/wsStore.ts:307-309 | An empty patch changes nothing, and a patch applied twice acts as once. |
| `WsStore.SetPartyFileAgreesWithFileChangeFrame` | src/lib/wsStore.ts:165-318 | `setPartyFile(id)` has the effect of a `party_file_changed` frame naming that id, apart from `lastMessage`. |
| `WsStore.UpdateAgreesWithTranscodingFrame` | src/lib/wsStore.ts:195-328 | `updateTranscodingStatus(id, {url, completed: true})` has the effect of a `transcoding_complete` frame for that id, apart from `lastMessage`. |
| `WsStore.ConnectBeforeOpenCreatesTwoSockets` | src/lib/wsStore.ts:65-82 | The store records a socket only in `onopen`, so two `connect()` calls before the first socket opens create two sockets. |
| `WsStore.OnOpen` | src/lib/wsStore.ts:79-82 | Opening records the socket and sets `isConnected`; nothing else changes. |
| `WsStore.OnError` | src/lib/wsStore.ts:218-221 | An error closes the socket and leaves the state for `onclose` to reset. |
| `WsStore.OnClose` | src/lib/wsStore.ts:213-216 | A close yields the initial state: all flags false, ids null, no party, both collections empty. |
| `WsStore.Disconnect` | src/lib/wsStore.ts:298-305 | With no socket, `disconnect()` resets to the initial state. With a socket, it only closes it. |
| `WsStore.SetParty` | src/lib/wsStore.ts:307-309 | Each supplied party field replaces the old one, each omitted field is kept, and nothing outside the party changes. |
| `WsStore.SetPartyFile` | src/lib/wsStore.ts:311-318 | The file id changes only while a party is active; otherwise the state is unchanged. |
| `WsStore.UpdateTranscodingStatus` | src/lib/wsStore.ts:320-328 | Only the entry keyed by the file id's decimal text is written; other entries and fields are unchanged. |
| `WsStore.RunKeepsValid` | src/lib/wsStore.ts:229-293 | Any sequence of lifecycle, frame, send and mutator events keeps pending ids distinct and no entry in `sending`. |
| `AuthApi.WithCredentials` | src/lib/services/authapi.ts:118-122 | Every request carries `credentials: 'include'`, whatever the caller passed; every other option passes through. |
| `AuthApi.FailureOf` | src/lib/services/authapi.ts:155-165 | A failed response's message is the JSON `detail` when the body is an object with a truthy one; the raw body text when the body is not JSON or is `null` and the text is non-empty; otherwise `Request failed with status N`. |
| `AuthApi.FailureOfAgreesOnJsonBodies` | src/lib/services/authapi.ts:157-159 | Where the JSON read succeeds with a non-null value, the corrected failure equals the code's. |
| `AuthApi.PlainTextErrorBodyIsLost` | src/lib/services/authapi.ts:160-163 | As written, a 502 with body `Bad Gateway` rejects with a body-already-used error; the intended result is the message `Bad Gateway`. |
| `AuthApi.Finish` | src/lib/services/authapi.ts:155-171 | A non-ok response rejects: with the server's message whenever the body is non-null JSON; otherwise, as written, with the consumed-body error, and corrected with the body text. A 204 resolves to null without reading the body. Any other ok response resolves to its JSON, or rejects when it is not JSON. |
| `AuthApi.BadGatewayThroughTheWrapper` | src/lib/services/authapi.ts:124-164 | A call answered by a 502 with a plain-text body rejects with the consumed-body error as written, and with the text once corrected. |
| `AuthApi.RespondRefreshesOnlyWhenIdle` | src/lib/services/authapi.ts:126-138 | A 401 issues a refresh request exactly when none is marked, and the caller then awaits the marked refresh. Any other first answer settles the call without a new request. |
| `AuthApi.ResumeRetriesOnlyOnSuccess` | src/lib/services/authapi.ts:136-151 | After the shared refresh settles, the caller retries once with the same URL and options only if the refresh was ok, keeping the marker. Otherwise it rejects with the session-expired message, or with the network error, issues nothing, and its `finally` runs: as written the marker becomes null whatever it named; guarded, it is cleared only while it names this refresh. |
| `AuthApi.RetryIsFinal` | src/lib/services/authapi.ts:140-155 | The retry's answer settles the call, even another 401, with no further refresh. Its `finally` then sets the marker to null as written, whatever refresh it names by then; guarded, it clears the marker only while it names this caller's refresh. |
| `AuthApi.StepKeepsWellFormed` | src/lib/services/authapi.ts:118-151 | Every event keeps the world well formed under either `finally`: refs to known refreshes, credentials on every request, at most one retry per caller. |
| `AuthApi.StepKeepsSingleFlight` | src/lib/services/authapi.ts:126-151 | With the guarded `finally`, every event keeps every in-flight refresh the marked one. |
| `AuthApi.RunKeepsInvariants` | src/lib/services/authapi.ts:118-151 | Every interleaving from the start stays well formed, and with the guarded `finally` single-flight. |
| `AuthApi.GuardedRunsAreSingleFlight` | src/lib/services/authapi.ts:126-151 | However callers interleave, the guarded wrapper never has two refreshes in flight, sends every request with credentials, and retries each call at most once. |
| `AuthApi.TwoRefreshesInFlightAsWritten` | src/lib/services/authapi.ts:148-151 | As written, one interleaving of four callers ends with two refreshes in flight at once. |
| `AuthApi.RaceStaysSingleFlightGuarded` | src/lib/services/authapi.ts:148-151 | On the same interleaving, the guarded wrapper has the fourth caller await the one refresh still in flight. |
| `AuthApi.RunKeepsCallersAndRequests` | src/lib/services/authapi.ts:111-151 | Any run only adds callers and requests; a caller's URL and options are never changed. |
| `AuthApi.LogoutRunsThroughTheWrapper` | src/lib/services/authapi.ts:83-93 | `logout`'s call is a credentialed POST to `/api/auth/logout` through the wrapper, whatever else runs; once it settles, the user is cleared and a rejection is handed on. |
| `AuthApi.Logout` | src/lib/services/authapi.ts:83-93 | `logout` always clears the user and, in the browser, goes to `/login`, whether or not the request failed. A failure still reaches the caller. |
| `SearchStore.Dedupe` | src/lib/searchStore.ts:31-34 | The keys iterated are each distinct parameter name exactly once. |
| `SearchStore.NonEmpty` | src/lib/searchStore.ts:37-37 | `filter(Boolean)` keeps exactly the non-empty values, and keeps a list with no empty values whole. |
| `SearchStore.NonEmptyCounts` | src/lib/searchStore.ts:37-37 | Each non-empty value is kept as many times as it occurs, and every empty one is dropped. |
| `SearchStore.NonEmptyAppend` | src/lib/searchStore.ts:37-37 | Filtering a concatenation filters each part and keeps their order; a single value survives exactly when it is non-empty. |
| `SearchStore.ParseUrlToQuery` | src/lib/searchStore.ts:28-65 | The query has distinct keys, all from the URL, and each present key holds exactly what the schema makes of that key's values. |
| `SearchStore.FileTypeKeepsNonEmptyValues` | src/lib/searchStore.ts:36-42 | `file_type` holds all non-empty values in order, and is absent when none remain. |
| `SearchStore.EmptyFirstValueIsDropped` | src/lib/searchStore.ts:45-48 | A single-value key whose first value is empty never appears. |
| `SearchStore.IntegerKeyNeedsANumber` | src/lib/searchStore.ts:51-55 | An integer key appears exactly when `parseInt` reads a number from its first value, and holds that number. |
| `SearchStore.BooleanKeyIsTrueOnlyForTrue` | src/lib/searchStore.ts:56-58 | `is_encrypted` is true exactly when its first value lower-cases to `true`. |
| `SearchStore.OtherKeysAreVerbatim` | src/lib/searchStore.ts:59-62 | Every other key holds its first value verbatim. |
| `SearchStore.Block` | src/lib/searchStore.ts:165-171 | A property contributes nothing when undefined, null or empty; one pair per array element, holding that element; and otherwise one pair holding `String(value)`; all under its own key. |
| `SearchStore.ParamSetGetAll` | src/lib/searchStore.ts:127-128 | After `params.set`, the key has exactly the new value and every other name keeps its values. |
| `SearchStore.SetAgreesWithSearchFiles` | src/lib/searchStore.ts:120-131 | Since a query's keys are distinct, `set` builds the same parameters as `searchFiles`. |
| `SearchStore.Set` | src/lib/searchStore.ts:114-134 | `set` stores the query and targets the given route, else the current path in the browser, else `/search`. The route gets `?` and the built parameters exactly when there is at least one parameter. |
| `SearchStore.SearchFilesRequest` | src/lib/searchStore.ts:155-176 | `searchFiles` requests `/api/cards` with every emitted property appended in order. |
| `SearchStore.Initialize` | src/lib/searchStore.ts:96-106 | The URL's parameters win when it has a search string. Otherwise the saved query is used in the browser, and the empty query outside it. |
| `SearchStore.InitializeFromSetUrl` | src/lib/searchStore.ts:96-134 | A URL written by `set` from a canonical query initializes the store to that same query. |
| `SearchStore.ParseUndoesSet` | src/lib/searchStore.ts:28-134 | Round trip: for a query with non-empty strings, integers, booleans and a non-empty `file_type` list of non-empty strings, parsing the parameters `set` builds gives the query back. |
| `TagStore.InitTags` | src/lib/stores/tagStore.ts:26-35 | Each supplied list is taken only if not yet fetched, and is then marked fetched. The two lists are independent, and loading and error are untouched. |
| `TagStore.BeginLoad` | src/lib/stores/tagStore.ts:41-60 | Nothing happens while loading or once both lists are present. Otherwise the store starts loading, clears the error, and requests exactly the missing lists, tags first. |
| `TagStore.FinishLoadAsWritten` | src/lib/stores/tagStore.ts:60-78 | The load always ends with loading off. A fetched list is never overwritten. A success marks both lists fetched. A failure records the message and keeps lists and flags. |
| `TagStore.FinishLoad` | src/lib/stores/tagStore.ts:60-78 | As above, and each list still missing receives its own endpoint's result. |
| `TagStore.FinishAgreesWhenUndisturbed` | src/lib/stores/tagStore.ts:62-72 | When nothing runs between the start and the end of a load, the positional assignment and the corrected one agree. |
| `TagStore.StepWith` | src/lib/stores/tagStore.ts:26-78 | Any call or settlement keeps loading set exactly while a load is in flight, and that load covers every list still missing. |
| `TagStore.FetchedListsAreNeverOverwritten` | src/lib/stores/tagStore.ts:26-72 | Once a list is fetched, no sequence of `initTags`, `loadTags` and settlements replaces it or clears its flag. |
| `TagStore.SettleEndsLoading` | src/lib/stores/tagStore.ts:76-78 | Every settlement, success or failure, leaves loading off. |
| `TagStore.FailedLoadKeepsLists` | src/lib/stores/tagStore.ts:73-78 | A failed load records the error's message, or the default text, and changes no list or flag. |
| `TagStore.MetaTagsGetTagsResultAsWritten` | src/lib/stores/tagStore.ts:62-72 | As written, when `initTags` supplies the tags during a two-list load, the meta-tag list receives the tags endpoint's result. |
| `TagStore.MetaTagsGetMetaResult` | src/lib/stores/tagStore.ts:62-72 | Routed by request, the same events give the meta-tag list its own result and keep the preloaded tags. |
| `PrefetchStore.StartsFetch` | src/lib/stores/prefetchStore.ts:15-22 | The fetcher is called exactly when the page is not cached. |
| `PrefetchStore.Complete` | src/lib/stores/prefetchStore.ts:24-29 | A resolved fetch stores its data under the page index; a rejected one leaves the cache unchanged. |
| `PrefetchStore.Prefetch` | src/lib/stores/prefetchStore.ts:15-30 | A cached page makes no fetcher call and no change. A fetched page is stored under its index, a failed fetch changes nothing, and other pages are untouched. |
| `PrefetchStore.PrefetchIsOncePerPage` | src/lib/stores/prefetchStore.ts:15-26 | A second prefetch of a page the first one stored makes no fetcher call and keeps the first data. |
| `PrefetchStore.LateFetchOverwritesSet` | src/lib/stores/prefetchStore.ts:22-26 | The cached check happens only before the `await`, so a fetch settling after `set` wrote the same page overwrites it. |
| `PrefetchStore.Set` | src/lib/stores/prefetchStore.ts:38-40 | `set` writes or overwrites only the given index. |
| `PrefetchStore.Get` | src/lib/stores/prefetchStore.ts:47-54 | `get` returns the cached value exactly when the index is cached, and has no effect. |
| `PrefetchStore.Clear` | src/lib/stores/prefetchStore.ts:59-61 | After `clear`, no page is cached. |
| `PartyIndicatorStore.Register` | src/lib/partyIndicatorStore.ts:16-21 | `register` maps the id to the priority, overwriting any earlier one; other ids and the flag are unchanged. |
| `PartyIndicatorStore.Unregister` | src/lib/partyIndicatorStore.ts:23-27 | `unregister` removes the id; other ids and the flag are unchanged. |
| `PartyIndicatorStore.SetAlwaysFollow` | src/lib/partyIndicatorStore.ts:30-32 | `setAlwaysFollow` changes only the flag. |
| `PartyIndicatorStore.UnregisterAbsentIsNoOp` | src/lib/partyIndicatorStore.ts:23-27 | Unregistering an id that is not registered leaves the store unchanged. |
| `PartyIndicatorStore.RegisterThenUnregisterRestores` | src/lib/partyIndicatorStore.ts:16-27 | Registering a new id and then unregistering it restores the store. |
| `PartyIndicatorStore.FlagCommutesWithRegistry` | src/lib/partyIndicatorStore.ts:16-32 | A flag change commutes with a registration and with an unregistration. |

### Where the code and its comments disagree

The comment at src/lib/wsStore.ts:68 says the `store.ws` check prevents reconnecting while connected. But `store.ws` is written only in `onopen` (src/lib/wsStore.ts:80), so a second `connect()` before the first socket opens creates a second socket. The model follows the code, and `WsStore.ConnectBeforeOpenCreatesTwoSockets` records this.

The comments at src/lib/services/authapi.ts:7 and :149 say the marker keeps refreshes single-flight and is cleared "so the next 401 can trigger a new refresh". In the code, the `finally` that clears it runs only after the retry too has been answered, and it clears whatever refresh the marker names by then. The model follows the code: a successful refresh keeps the marker through the retry (`AuthApi.ResumeRetriesOnlyOnSuccess`), and it is cleared when the retry answers (`AuthApi.RetryIsFinal`). The first row under "Findings" shows where this breaks single flight.

## Left out

- Real `WebSocket`, `fetch`, `localStorage`, `goto`, `window.location` and console logging. Sockets, responses, fetch outcomes, the saved query and the current path are parameters. The websocket URL derivation (src/lib/wsStore.ts:73-77) is not modelled.
- Client-id generation and timestamps (src/lib/wsStore.ts:57-59, 252) are arguments of `WsStore.SendMessage`. A fresh id is meant to be new; the contract states the append case under that assumption.
- JSON parsing: inbound frames come already parsed into one constructor per frame type, and response bodies into the three shapes the wrapper distinguishes.
- `AuthApi.FailureOf`: an error body's `detail` is a primitive. A non-primitive `detail`, such as the array of validation errors a 422 carries, would become the message through `String()` on the array (`Error` converts its argument); the model cannot represent it.
- True promise concurrency: interleavings are explicit event sequences. Svelte subscriber notification is not modelled.
- `JsValue.ParseInt`: numbers are unbounded integers. JavaScript numbers lose precision above 2^53, and non-integral values never arise from the parser.
- `JsValue.Decimal`: gives plain decimal text, whereas `String()` switches to exponent notation from 1e21.
- `SearchStore.ParseUrlToQuery`: query objects keep insertion order. JavaScript would list array-index-like keys first. A `__proto__` key is kept as an ordinary key here; in JavaScript the assignment hits the prototype setter, which ignores the string value, so the key is silently dropped.
- `SearchStore.LowerAscii`: `toLowerCase()` also maps non-ASCII letters, which the model leaves alone. Only the comparison with `true` uses it, and no non-ASCII character lower-cases to any of the letters `t`, `r`, `u` or `e`, so the outcome of that comparison is the same.
- URL percent-encoding and `URLSearchParams.toString()`: both directions work on the same pair list, so the text form cancels out.
- `searchFiles`' `for...in` would also visit inherited enumerable properties, which plain query objects do not have.
- `checkSession` and `getMyProfile` in src/lib/services/authapi.ts are thin calls of the wrapper. `register` and `login` do not use the wrapper: they call `fetch` directly, without `credentials: 'include'` and without a refresh, and read the JSON body themselves. They are single requests that share no state with the wrapper, so they are not modelled.
- `PrefetchStore`: page indexes are integers. The source's `Map<number, …>` would also take fractional, `NaN` or `-0` keys, which no caller passes.
- src/lib/actions/, src/lib/utils/formatters.ts, src/lib/TagManager/tagapi.ts, the route loaders, src/lib/userstore.ts and src/app.d.ts are not part of this model. They are DOM handling, floating-point or locale formatting, URL wrappers, load glue or type declarations.

## Findings

| source | as written | input that shows it | evidently intended | confidence | as-written member | corrected member |
|---|---|---|---|---|---|---|
| src/lib/services/authapi.ts:148-151 | The `finally` clears `refreshPromise` unconditionally, and only after the retry. A caller can therefore clear a newer refresh's marker, letting a later 401 start a second refresh while that one is still in flight. | Four calls: 0 and 1 get 401 and share refresh 0; it succeeds; 1 retries and clears the marker; 2 gets 401 and starts refresh 1; 0's retry answers and clears refresh 1's marker; 3 gets 401 and starts refresh 2. | Clear the marker only while it still names the refresh this caller awaited. Then at most one refresh is ever in flight. | not executed | `AuthApi.TwoRefreshesInFlightAsWritten` | `AuthApi.GuardedRunsAreSingleFlight` |
| src/lib/services/authapi.ts:155-165 | The error path reads the body with `response.json()` and, in the catch, reads it again with `response.text()`. The second read rejects because the body was consumed, so the raw-text fallback never happens. | A 502 response with body `Bad Gateway`. | Read the text once and try to parse it, so a non-JSON body's text becomes the message. | not executed | `AuthApi.PlainTextErrorBodyIsLost` | `AuthApi.FailureOf` |
| src/lib/stores/tagStore.ts:62-72 | After the `await`, results are handed out by position to the lists missing at that moment, not to the lists requested. | `loadTags()` with both lists missing, then `initTags({tags})` before the requests settle: the meta-tag list receives the tags endpoint's result. | Each result goes to the list it was requested for, if that list is still missing. | not executed | `TagStore.MetaTagsGetTagsResultAsWritten` | `TagStore.FinishLoad` |
