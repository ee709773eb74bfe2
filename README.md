# TrainingCamp core, modelled in Dafny

This project models three small applications from one training repository.

- **ChatSystem** is a Lynx chat client with a Node WebSocket relay.
  - The relay (`server/index.mjs`) validates each frame, stamps it with the server clock and broadcasts it to every open client.
  - The `useWebSocket` hook owns the socket. It has a connect timeout. After each abnormal close it announces a reconnect, up to ten in all. Each reconnect is requested on the 180th call of a frame callback, 179 animation frames after the close, because the first call is synchronous. As written, only the first announced reconnect creates a socket (see "## Findings").
  - `App.tsx` keeps a bounded message list, drops echoes of the user's own messages and checks a message before sending it.
  - `utils.ts` builds the socket URL and formats time labels.
  - `lynx.config.ts` picks a LAN address for the dev server's QR code.
- **ProductList** is a React shop backed by a mock catalogue.
  - The mock (`mock/product.ts`) generates 150 products once and caches them. It filters, sorts and pages them, and enriches one product with specs, SKUs and images.
  - The `Pagination` component computes a windowed list of page numbers.
  - `ProductDetail` picks an initial spec selection, finds the matching SKU and clamps the quantity.
  - `Filter` turns three inputs into filter parameters.
- **TodoServer** is a Koa JSON API over a `todos.json` file.
  - It lists, creates, partially updates and deletes todos.
  - `storage.js` reads the file leniently, refuses to write non-arrays, and generates ids as the largest numeric id plus one.

Each source file is one Dafny module: `ChatServer`, `ConnectionManager`, `Reconciler`, `ChatUtils`, `DevServer`, `Catalogue`, `Pagination`, `ProductDetail`, `Filter`, `TodoServer` and `TodoStorage`. `Base`, `Json`, `Text`, `ChatTypes` and `ProductTypes` hold the shared types. They also model the JavaScript built-ins the code relies on: `trim`, `parseInt`, `Number`, `padStart`, `replace(/…/g)`, `slice` with negative indices, and truthiness.

Code that keeps state becomes a class whose methods are proved against pure specification functions:

- the relay's clients and `Broadcast` loop;
- the hook, as `ConnectionManager.WebSocketSession` over the `Hook` state and its `Step` function;
- the App component, as `Reconciler.ChatApp`;
- the mock's product cache, as `Catalogue.ProductStore`;
- the detail page, as `ProductDetail.DetailPage`;
- the filter panel, as `Filter.FilterPanel`;
- the todo service, as `TodoServer.TodoService`.

Loops in the source are methods with loop invariants:

- the broadcast;
- the reconnect chains;
- the page-number builder;
- the interface scan;
- the SKU cross product;
- the initial spec selection.

The mock's sort is an insertion sort in place on an `array`, with a sortedness and permutation postcondition.

Values that come from I/O are parameters:

- clocks (`Date.now`, `new Date().toISOString()`, the local hour and minute of a timestamp);
- Mock.js draws;
- `os.networkInterfaces()`;
- the JavaScript runtime's `WebSocket` and timer functions;
- the state of `todos.json`.

The hook is modelled as an event system. The events are socket open, socket close with a code, timeout, animation frame, user-id change and unmount. `Run` applies a sequence of events.

## Model

| member | source | states |
|---|---|---|
| ChatServer.Truncate | ChatSystem/server/index.mjs:73 | `slice(0, 50)`: the result is the prefix of the input whose length is the smaller of the two |
| ChatServer.SafeParseJson | ChatSystem/server/index.mjs:30-37 | a frame that fails to parse becomes `null`, any other is its parse; `NonChatFramesDropped` states that both `null` and a non-chat value are dropped |
| ChatServer.Encode | ChatSystem/server/index.mjs:79 | the relayed frame is the envelope serialised with `type`, `userId`, `text` and `timestamp` (`ChatTypes.ToJson`); `DecodeToJson` states the client reads it back unchanged |
| ChatServer.Ingest | ChatSystem/server/index.mjs:43-77 | an accepted frame carries the server's `Date.now()` as its timestamp, whatever the client sent |
| ChatServer.NonChatFramesDropped | ChatSystem/server/index.mjs:30-50 | a frame that does not parse as JSON, or whose `type` is not `chat-message`, is dropped |
| ChatServer.MalformedFieldsDropped | ChatSystem/server/index.mjs:52-56 | a chat frame whose `userId` or `text` is not a string is dropped as invalid |
| ChatServer.LengthCheckedBeforeTrim | ChatSystem/server/index.mjs:58-62 | text longer than 1000 characters is dropped, judged before trimming |
| ChatServer.PaddedTextDropped | ChatSystem/server/index.mjs:58-69 | a one-character message padded with 1000 or more spaces is dropped as too long, although its trim is short |
| ChatServer.BlankTextDropped | ChatSystem/server/index.mjs:64-69 | text of at most 1000 characters that is all whitespace is dropped as empty |
| ChatServer.AcceptedEnvelope | ChatSystem/server/index.mjs:71-77 | an accepted frame becomes the trimmed user id cut to 50 characters, the trimmed text, and the server time |
| ChatServer.EnvelopeInvariant | ChatSystem/server/index.mjs:59-77 | every accepted envelope has a user id of at most 50 characters, non-empty trimmed text of at most 1000, and the server's time |
| ChatServer.OnlyThreeFieldsRead | ChatSystem/server/index.mjs:47-76 | the outcome depends only on the frame's `type`, `userId` and `text`; the client timestamp and extra fields are ignored |
| ChatServer.EnvelopeReaccepted | ChatSystem/server/index.mjs:47-79 | relaying a broadcast frame again yields the same message with a new timestamp (idempotent normalisation) |
| ChatServer.Client.Send | ChatSystem/server/index.mjs:84-88 | `send` delivers the frame unless it throws, and a throw is swallowed |
| ChatServer.Broadcast | ChatSystem/server/index.mjs:81-90 | exactly the clients that are OPEN and whose send does not throw receive the frame, once; the others are untouched |
| ChatServer.HandleMessage | ChatSystem/server/index.mjs:43-91 | the result is `Ingest`; a drop delivers nothing; an accepted frame is encoded once and broadcast to every open client, the sender included |
| ChatTypes.ToJson | ChatSystem/src/hooks/useWebSocket.ts:172 | the serialised payload has `type`, `userId`, `text` and `timestamp` properties holding the message's fields |
| ConnectionManager.CloseRequested | ChatSystem/src/hooks/useWebSocket.ts:159 | `socket.close()` leaves a socket closing or closed, and a closed socket closed |
| ConnectionManager.Cleanup | ChatSystem/src/hooks/useWebSocket.ts:152-165 | the cleanup clears the timer when `clearTimeout` exists, closes the effect's own socket and nulls `socketRef`; it changes nothing else |
| ConnectionManager.Connect | ChatSystem/src/hooks/useWebSocket.ts:26-64 | a reconnect request at 10 or more attempts is skipped; otherwise a socket is created, stored in `socketRef` and given a timeout, or the status becomes error |
| ConnectionManager.Rerun | ChatSystem/src/hooks/useWebSocket.ts:152-166 | a re-run runs the old cleanup, then the effect with the current `shouldReconnect` |
| ConnectionManager.Commit | ChatSystem/src/hooks/useWebSocket.ts:166 | after a render the effect re-runs only when `shouldReconnect` differs from the value it last ran with |
| ConnectionManager.Init | ChatSystem/src/hooks/useWebSocket.ts:12-48 | mounting starts with no attempts, no chains and no reconnect requested, with one connecting socket in `socketRef`, or `error` and no socket |
| ConnectionManager.OnOpen | ChatSystem/src/hooks/useWebSocket.ts:66-74 | `handleOpen` keeps the hook state well formed |
| ConnectionManager.OnClose | ChatSystem/src/hooks/useWebSocket.ts:76-114 | `handleClose` keeps the hook state well formed |
| ConnectionManager.OnTimeout | ChatSystem/src/hooks/useWebSocket.ts:51-64 | the timeout callback keeps the hook state well formed |
| ConnectionManager.AdvanceChainsFacts | ChatSystem/src/hooks/useWebSocket.ts:93-109 | a frame requests a reconnect iff some chain reaches its 180th call; chains below it advance by one and keep waiting |
| ConnectionManager.AdvanceChains | ChatSystem/src/hooks/useWebSocket.ts:93-109 | at most as many chains remain as were pending; `AdvanceChainsFacts` states which chains advance and when a reconnect is requested |
| ConnectionManager.OnFrame | ChatSystem/src/hooks/useWebSocket.ts:93-109 | one animation frame advances every chain and sets `shouldReconnect` when one requests; `FrameAdvances` states it |
| ConnectionManager.Step | ChatSystem/src/hooks/useWebSocket.ts:66-166 | each event handler followed by the React commit keeps the state well formed |
| ConnectionManager.StepKeepsValid | ChatSystem/src/hooks/useWebSocket.ts:26-166 | every event preserves the hook invariant: at most 10 attempts, `socketRef` is the latest socket or null, the effect ran with the current `shouldReconnect`, chains are below 180 |
| ConnectionManager.Run | ChatSystem/src/hooks/useWebSocket.ts:26-166 | applying a sequence of events keeps the state well formed |
| ConnectionManager.WebSocketSession.constructor | ChatSystem/src/hooks/useWebSocket.ts:11-48 | the mounted hook is `Init`, with nothing sent |
| ConnectionManager.WebSocketSession.RunCleanup | ChatSystem/src/hooks/useWebSocket.ts:152-165 | the fields become `Cleanup` of the old state |
| ConnectionManager.WebSocketSession.ConnectEffect | ChatSystem/src/hooks/useWebSocket.ts:26-64 | the fields become `Connect` of the old state |
| ConnectionManager.WebSocketSession.CommitEffects | ChatSystem/src/hooks/useWebSocket.ts:166 | the fields become `Commit` of the old state |
| ConnectionManager.WebSocketSession.HandleOpen | ChatSystem/src/hooks/useWebSocket.ts:66-74 | the fields become `Step` with the open event, and the invariant is kept |
| ConnectionManager.WebSocketSession.OpenHandler | ChatSystem/src/hooks/useWebSocket.ts:66-74 | the handler body before the commit: the fields become `OnOpen` |
| ConnectionManager.WebSocketSession.HandleClose | ChatSystem/src/hooks/useWebSocket.ts:76-114 | the fields become `Step` with the close event, and the invariant is kept |
| ConnectionManager.WebSocketSession.CloseHandler | ChatSystem/src/hooks/useWebSocket.ts:76-114 | the handler body before the commit: the fields become `OnClose` |
| ConnectionManager.WebSocketSession.HandleTimeout | ChatSystem/src/hooks/useWebSocket.ts:51-64 | the fields become `Step` with the timeout event, and the invariant is kept |
| ConnectionManager.WebSocketSession.TimeoutHandler | ChatSystem/src/hooks/useWebSocket.ts:51-64 | the callback body before the commit: the fields become `OnTimeout` |
| ConnectionManager.WebSocketSession.HandleFrame | ChatSystem/src/hooks/useWebSocket.ts:93-109 | the fields become `Step` with a frame event, and the invariant is kept |
| ConnectionManager.WebSocketSession.SyncUserId | ChatSystem/src/hooks/useWebSocket.ts:21-24 | only `userIdRef` changes |
| ConnectionManager.WebSocketSession.Unmount | ChatSystem/src/hooks/useWebSocket.ts:152-165 | the fields become `Step` with the unmount event |
| ConnectionManager.WebSocketSession.SendMessage | ChatSystem/src/hooks/useWebSocket.ts:168-178 | returns true iff `socketRef` holds an open socket, and only then is the serialised payload sent on it |
| ConnectionManager.RunChains | ChatSystem/src/hooks/useWebSocket.ts:93-109 | the loop over pending chains computes `AdvanceChains` |
| ConnectionManager.AdvanceFromChains | ChatSystem/src/hooks/useWebSocket.ts:93-109 | running the chains one at a time appends what `AdvanceChains` leaves, and requests exactly when it does |
| ConnectionManager.Decode | ChatSystem/src/hooks/useWebSocket.ts:120-126 | only a parsed frame of type `chat-message` is taken |
| ConnectionManager.Deliver | ChatSystem/src/hooks/useWebSocket.ts:120-136 | a delivered message keeps the frame's fields, and `self` holds iff its user id is the current one |
| ConnectionManager.DecodeToJson | ChatSystem/src/hooks/useWebSocket.ts:120-134 | a frame the relay serialises is decoded back to the same message |
| ConnectionManager.NonChatFramesIgnored | ChatSystem/src/hooks/useWebSocket.ts:120-139 | an unparsable or non-chat frame delivers nothing |
| ConnectionManager.InitialStatus | ChatSystem/src/hooks/useWebSocket.ts:12-48 | mounting gives `connecting`; without `WebSocket`, or when its constructor throws, `error` with no socket to send on |
| ConnectionManager.ConnectStatus | ChatSystem/src/hooks/useWebSocket.ts:39-49 | each connect attempt creates exactly one socket and sets `connecting`, or creates none and sets `error` |
| ConnectionManager.ExhaustedRequestSkipped | ChatSystem/src/hooks/useWebSocket.ts:26-30 | with a reconnect requested and 10 attempts made, the effect changes nothing |
| ConnectionManager.TenthRetrySkipped | ChatSystem/src/hooks/useWebSocket.ts:28-30 | as written, the tenth announced reconnect is skipped: no socket, status still `connecting`; with the guard at 11 the same request creates a socket |
| ConnectionManager.OpenWithoutPendingReconnect | ChatSystem/src/hooks/useWebSocket.ts:66-74 | opening resets the counter, sets `open`, clears the timeout and keeps the socket |
| ConnectionManager.OpenAfterReconnectRestarts | ChatSystem/src/hooks/useWebSocket.ts:66-74 | as written, opening a reconnect socket closes it and starts a new attempt in `connecting` |
| ConnectionManager.NormalCloseIsFinal | ChatSystem/src/hooks/useWebSocket.ts:80-85 | code 1000 gives `closed`, no retry and a null `socketRef` |
| ConnectionManager.AbnormalCloseRetries | ChatSystem/src/hooks/useWebSocket.ts:87-109 | any other code below the bound adds one attempt, sets `connecting` and starts a chain whose first call is immediate and whose 180th call requests the reconnect |
| ConnectionManager.AbnormalCloseExhausted | ChatSystem/src/hooks/useWebSocket.ts:110-113 | at the bound, an abnormal close gives `error` and requests nothing |
| ConnectionManager.StaleCloseBlocksSending | ChatSystem/src/hooks/useWebSocket.ts:80 | the close of an earlier socket nulls `socketRef`, so the current socket can no longer send |
| ConnectionManager.TimeoutOutcome | ChatSystem/src/hooks/useWebSocket.ts:51-64 | a timeout on a socket that is not open closes it and sets `error`; on an open socket it does nothing |
| ConnectionManager.FrameAdvances | ChatSystem/src/hooks/useWebSocket.ts:93-108 | a frame advances every chain by one and fires none before its 180th call |
| ConnectionManager.UnmountKeepsChains | ChatSystem/src/hooks/useWebSocket.ts:152-165 | unmounting closes the socket and clears `socketRef`, but pending reconnect chains keep running |
| ConnectionManager.UnmountedStep | ChatSystem/src/hooks/useWebSocket.ts:152-166 | after unmount no event creates a socket |
| ConnectionManager.NoSocketAfterUnmount | ChatSystem/src/hooks/useWebSocket.ts:152-166 | after unmount no sequence of events creates a socket |
| ConnectionManager.SendGate | ChatSystem/src/hooks/useWebSocket.ts:168-178 | sending is possible iff `socketRef` is the live socket and it is open |
| ConnectionManager.FirstFailureRetried | ChatSystem/src/hooks/useWebSocket.ts:87-166 | the first failed attempt is followed by a reconnection attempt on the 179th animation frame after the close, the 180th call of its chain |
| ConnectionManager.LaterFailureLost | ChatSystem/src/hooks/useWebSocket.ts:95-98 | as written, a failure while `shouldReconnect` is already true announces a retry but creates no socket |
| ConnectionManager.StalledForever | ChatSystem/src/hooks/useWebSocket.ts:166 | from that stalled state no sequence of events creates a socket |
| ConnectionManager.AsWrittenStallsAfterOneRetry | ChatSystem/src/hooks/useWebSocket.ts:87-166 | as written, two failures leave two sockets and the counter at 2 in `connecting`, and no event ever creates a third |
| ConnectionManager.StallEndsInTimeoutError | ChatSystem/src/hooks/useWebSocket.ts:51-64 | in that stall, with `setTimeout` present, the reconnect socket's connect timeout is still pending, and firing it sets `error` without creating a socket |
| ConnectionManager.CommitIntended | ChatSystem/src/hooks/useWebSocket.ts:98 | the corrected commit re-runs the effect on every reconnect request, not only on a change, and with the guard raised to `>= 11` so that the tenth announced reconnect is made |
| ConnectionManager.StepIntended | ChatSystem/src/hooks/useWebSocket.ts:66-166 | the corrected hook keeps the state well formed |
| ConnectionManager.IntendedFailureRetried | ChatSystem/src/hooks/useWebSocket.ts:87-109 | corrected, every failure below the bound is followed by a new attempt |
| ConnectionManager.IntendedFailuresRetried | ChatSystem/src/hooks/useWebSocket.ts:87-109 | corrected, n failures below the bound lead to n new attempts |
| ConnectionManager.IntendedRetriesUntilError | ChatSystem/src/hooks/useWebSocket.ts:87-113 | corrected, ten retries are made and the eleventh failure leaves `error`, all sockets closed and nothing pending |
| ConnectionManager.IntendedOpenKeepsConnection | ChatSystem/src/hooks/useWebSocket.ts:66-74 | corrected, an opened socket is kept: `open`, counter reset, and sending possible |
| Reconciler.AddMessage | ChatSystem/src/App.tsx:57-65 | the list is the last `min(n+1, 500)` entries of the old list plus the new one, ending with the new one |
| Reconciler.AddMessageBelowBound | ChatSystem/src/App.tsx:61-64 | below 500 the message is appended |
| Reconciler.AddMessageEvictsOldest | ChatSystem/src/App.tsx:61-64 | at 500 the oldest message is evicted |
| Reconciler.SystemMessage | ChatSystem/src/App.tsx:68-78 | a system message has user `系统`, is not the user's own, and takes the next id |
| Reconciler.Incoming | ChatSystem/src/App.tsx:26-54 | an incoming message is either dropped, keeping list and counter, or added with the next id |
| Reconciler.AddMessageKeepsIds | ChatSystem/src/App.tsx:44-65 | adding with the next id keeps ids strictly increasing and below the counter |
| Reconciler.SuffixKeepsIds | ChatSystem/src/App.tsx:63 | eviction keeps the id ordering |
| Reconciler.SelfDropIff | ChatSystem/src/App.tsx:28-45 | the list comes back unchanged iff the message is the user's own and duplicates an own message with the same text within 2000 ms |
| Reconciler.Echoes | ChatSystem/src/App.tsx:35-39 | an entry echoes a message iff it is the user's own, with the same user id and text, and its timestamp within 2000 ms either way; `SelfDropIff` and `EchoDeduplicated` use it |
| Reconciler.IsDuplicate | ChatSystem/src/App.tsx:34-40 | `prev.some(...)`: some entry of the list echoes the message; `SelfDropIff` states the drop happens iff this holds for one's own message |
| Reconciler.ValidUserId | ChatSystem/src/App.tsx:87-101 | the user ids the screen can hold: none, or a trimmed id of at most 50 characters; `ConfirmedIdValid` and `ChatApp.Sound` keep it |
| Reconciler.OthersAppended | ChatSystem/src/App.tsx:46-50 | messages of other users are always added |
| Reconciler.SendDecision | ChatSystem/src/App.tsx:105-136 | a send happens only when `open`, with a user id, and with the trimmed text |
| Reconciler.SendChecksOrdered | ChatSystem/src/App.tsx:106-136 | the checks run in order: connection, blank text, length over 1000, missing user id |
| Reconciler.SentTextNormalised | ChatSystem/src/App.tsx:115-127 | sent text is trimmed, non-empty and at most 1000 characters |
| Reconciler.Notice | ChatSystem/src/App.tsx:107-136 | a notice is shown iff the send failed for connection, length or user id; blank text is silent |
| Reconciler.ConfirmDecision | ChatSystem/src/App.tsx:87-102 | a confirmed id is the trimmed input |
| Reconciler.ConfirmedIdValid | ChatSystem/src/App.tsx:87-101 | the input is confirmed iff its trim is non-empty and at most 50 long; blank input is ignored |
| Reconciler.SentMessageAccepted | ChatSystem/src/App.tsx:138-158 | a message the client sends passes every relay check and comes back with the same user id and text |
| Reconciler.EchoDeduplicated | ChatSystem/src/App.tsx:31-43 | the relay's echo of a message just sent is dropped when the clocks differ by less than 2000 ms |
| Reconciler.ChatApp.constructor | ChatSystem/src/App.tsx:14-23 | empty user, inputs and messages, and the id counter at 1 |
| Reconciler.ChatApp.EditUserId | ChatSystem/src/App.tsx:170 | the user id input takes the typed text |
| Reconciler.ChatApp.EditMessage | ChatSystem/src/App.tsx:180 | the message input takes the typed text |
| Reconciler.ChatApp.AppendNotice | ChatSystem/src/App.tsx:93-96 | a notice is appended without the 500 bound and takes one id |
| Reconciler.ChatApp.Append | ChatSystem/src/App.tsx:92-95 | an entry under the next id goes at the end and takes that id; ids stay below the counter and increasing |
| Reconciler.ChatApp.ConfirmUserId | ChatSystem/src/App.tsx:87-102 | the result is `ConfirmDecision`; a confirmed id is adopted and clears the input; a too long id adds a notice |
| Reconciler.ChatApp.ApplyConfirmation | ChatSystem/src/App.tsx:88-101 | an empty input changes nothing, a too long id adds the notice only, a confirmed id is adopted and clears the input |
| Reconciler.ChatApp.RejectUserId | ChatSystem/src/App.tsx:91-97 | the too-long notice is appended and nothing else changes |
| Reconciler.ChatApp.AdoptUserId | ChatSystem/src/App.tsx:100-101 | the id is set, also in the hook's `userIdRef`, and the input is cleared |
| Reconciler.ChatApp.SendMessage | ChatSystem/src/App.tsx:105-159 | the result is `SendDecision`; a notice on failure; a sent message is shown at once, the input cleared and the payload handed to the hook |
| Reconciler.ChatApp.ApplySend | ChatSystem/src/App.tsx:106-158 | a refusal adds its notice and keeps the input, a blank message changes nothing, a sent one is shown, clears the input and is queued when the socket can send |
| Reconciler.ChatApp.NoticeOnly | ChatSystem/src/App.tsx:107-136 | a refused send adds just the notice |
| Reconciler.ChatApp.ShowAndSend | ChatSystem/src/App.tsx:138-158 | the local copy is added with the next id, the input cleared, and the payload sent when the socket is open |
| Reconciler.ChatApp.Show | ChatSystem/src/App.tsx:150 | the entry is added to the list by `addMessage`, takes the next id, and the ids stay increasing below the counter |
| Reconciler.ChatApp.Transmit | ChatSystem/src/App.tsx:158 | the payload is queued on the live socket exactly when the hook can send, otherwise dropped |
| Reconciler.ChatApp.ReceiveMessage | ChatSystem/src/App.tsx:26-54 | list and counter become `Incoming` of the old ones |
| Reconciler.ChatApp.ReceiveFrame | ChatSystem/src/hooks/useWebSocket.ts:120-140 | a frame the hook delivers goes through `Incoming`; anything else changes nothing |
| ChatUtils.CreateWebSocketUrl | ChatSystem/src/utils.ts:4-28 | every URL starts with `ws://` and ends with `:8080` |
| ChatUtils.LoopbackUrl | ChatSystem/src/utils.ts:10-12 | `localhost` and `127.0.0.1` both give `ws://localhost:8080` |
| ChatUtils.HostUrl | ChatSystem/src/utils.ts:14-21 | any other host name, IP or not, gives `ws://<host>:8080` |
| ChatUtils.FallbackUrl | ChatSystem/src/utils.ts:5-27 | no location, an empty host name, or a throw gives `ws://localhost:8080` |
| ChatUtils.UrlNamesHost | ChatSystem/src/utils.ts:14-21 | the host name is recovered from the URL |
| ChatUtils.TwoDigits | ChatSystem/src/utils.ts:35-36 | `padStart(2, "0")` of a number below 100 is two digits |
| ChatUtils.FormatTimeLabel | ChatSystem/src/utils.ts:33-38 | the label is five characters with `:` in the middle |
| ChatUtils.TwoDigitsValue | ChatSystem/src/utils.ts:35-36 | the two digits read back as the number |
| ChatUtils.TimeLabelRoundTrip | ChatSystem/src/utils.ts:33-38 | hours and minutes are recovered from the label |
| DevServer.NetCandidates | ChatSystem/lynx.config.ts:19-24 | exactly the external IPv4 addresses of an interface become candidates |
| DevServer.Candidates | ChatSystem/lynx.config.ts:13-25 | the candidates of all interfaces in enumeration order; `CandidatesExactly` states which addresses they are |
| DevServer.CandidatesExactly | ChatSystem/lynx.config.ts:16-25 | every external IPv4 address of every interface is a candidate, and nothing else |
| DevServer.NetCandidatesAppend | ChatSystem/lynx.config.ts:19-24 | the candidates of one interface keep the order of its addresses |
| DevServer.FirstNetCandidate | ChatSystem/lynx.config.ts:19-24 | an interface's first external IPv4 address is its first candidate |
| DevServer.CandidatesAppend | ChatSystem/lynx.config.ts:16-25 | the candidates keep the enumeration order of the interfaces |
| DevServer.CandidatePosition | ChatSystem/lynx.config.ts:16-25 | an interface's first external IPv4 address follows exactly the candidates of the interfaces before it |
| DevServer.CandidateSource | ChatSystem/lynx.config.ts:16-25 | every candidate is named after an interface that has an external IPv4 address |
| DevServer.CollectCandidates | ChatSystem/lynx.config.ts:13-25 | the loop computes `Candidates` |
| DevServer.PushInterface | ChatSystem/lynx.config.ts:17-24 | one interface's candidates are appended |
| DevServer.FindIndex | ChatSystem/lynx.config.ts:28 | `find` gives the first match, or none when nothing matches |
| DevServer.IsPreferred | ChatSystem/lynx.config.ts:28-37 | the name contains `wi-fi`, `wlan`, `eth` or `en` and none of the virtual markers, case-folded; `PreferredChosen` uses it |
| DevServer.IsBackup | ChatSystem/lynx.config.ts:44-49 | the name contains none of `vmware`, `virtual`, `vethernet` or `wsl`, case-folded; `BackupChosen` uses it |
| DevServer.SelectIP | ChatSystem/lynx.config.ts:27-57 | the chosen address is a candidate's address or `localhost` |
| DevServer.PreferredChosen | ChatSystem/lynx.config.ts:28-41 | the first Wi-Fi, WLAN, Ethernet or `en` candidate that is not virtual wins |
| DevServer.BackupChosen | ChatSystem/lynx.config.ts:43-53 | without one, the first candidate that is not virtual wins |
| DevServer.LastResort | ChatSystem/lynx.config.ts:55-56 | with only virtual interfaces, the first address, or `localhost` when there is none or it is empty |
| DevServer.PreferredInterfaceChosen | ChatSystem/lynx.config.ts:13-41 | in interface terms: the first external IPv4 address of the first non-virtual Wi-Fi, WLAN, Ethernet or `en` interface that has one is chosen |
| DevServer.BackupInterfaceChosen | ChatSystem/lynx.config.ts:13-53 | without such an interface, the first external IPv4 address of the first non-virtual interface that has one is chosen |
| DevServer.GetLocalNetworkIP | ChatSystem/lynx.config.ts:12-57 | the address is `SelectIP` of the collected candidates |
| DevServer.Schema | ChatSystem/lynx.config.ts:76-85 | every QR URL ends with `?fullscreen=true` |
| DevServer.SchemaWithoutHost | ChatSystem/lynx.config.ts:80-84 | a URL without `0.0.0.0` or `localhost` only gains the query |
| DevServer.SchemaWithFallback | ChatSystem/lynx.config.ts:79-84 | with the `localhost` fallback, only `0.0.0.0` is rewritten |
| DevServer.SchemaRewritesAnyHost | ChatSystem/lynx.config.ts:80-84 | `0.0.0.0` in the URL is replaced by the LAN address |
| DevServer.SchemaRewritesLocalhost | ChatSystem/lynx.config.ts:80-84 | `localhost` in the URL is replaced by the LAN address |
| Catalogue.ProductIdInjective | ProductList/src/mock/product.ts:26 | distinct sequence numbers give distinct `product_<n>` ids |
| Catalogue.ProductId | ProductList/src/mock/product.ts:26 | the id `product_<n>`; `ProductIdInjective` states distinct numbers give distinct ids |
| Catalogue.Finish | ProductList/src/mock/product.ts:24-30 | the `n`-th product: id `product_<n>`, the original price kept when above the price, else the price plus the bump; `GenerateProducts` states it |
| Catalogue.GenerateProducts | ProductList/src/mock/product.ts:5-31 | one product per draw, ids `product_1`…, the original price always above the price, kept when the draw already was |
| Catalogue.GeneratedIdsDistinct | ProductList/src/mock/product.ts:10-26 | generated ids are pairwise distinct |
| Catalogue.Keep | ProductList/src/mock/product.ts:131-139 | `filter` keeps exactly the elements satisfying the predicate |
| Catalogue.FilteredExactly | ProductList/src/mock/product.ts:129-140 | a product is listed iff it is in the catalogue and matches category, minimum and maximum price |
| Catalogue.Filtered | ProductList/src/mock/product.ts:129-140 | the three `filter` steps, each only when its parameter is given; `FilteredExactly` states what is kept |
| Catalogue.KeepAppend | ProductList/src/mock/product.ts:131-139 | `filter` keeps order: filtering a concatenation concatenates the filtered parts |
| Catalogue.KeepCount | ProductList/src/mock/product.ts:131-139 | `filter` keeps multiplicity: a kept product occurs as often as before, a dropped one not at all |
| Catalogue.FilteredAppend | ProductList/src/mock/product.ts:129-140 | the filtered list keeps the catalogue's order |
| Catalogue.FilteredCount | ProductList/src/mock/product.ts:129-140 | a matching product occurs in the filtered list as often as in the catalogue, any other not at all |
| Catalogue.UnfilteredKeepsAll | ProductList/src/mock/product.ts:129-140 | without filters every product is kept |
| Catalogue.SortInPlace | ProductList/src/mock/product.ts:143-157 | the array is sorted by the chosen key and is a permutation of the old one |
| Catalogue.OrderOf | ProductList/src/mock/product.ts:143-156 | `price_asc`, `price_desc` and `sales_desc` name the three orders; any other or no value leaves the order unsorted |
| Catalogue.Key | ProductList/src/mock/product.ts:144-154 | the comparator of each order as a key: price, minus price, minus sales; `SortInPlace` sorts by it |
| Catalogue.Sift | ProductList/src/mock/product.ts:143-157 | one insertion step: a sorted prefix grows by one entry and the array stays a permutation |
| Catalogue.SortProducts | ProductList/src/mock/product.ts:142-157 | ascending price, descending price or descending sales, a permutation; an unknown or missing sort keeps the order |
| Catalogue.SliceIndex | ProductList/src/mock/product.ts:162 | a negative `slice` index counts from the end and every index is clamped |
| Catalogue.SliceBounds | ProductList/src/mock/product.ts:162 | `slice` bounds are ordered, inside the list, and no wider than requested |
| Catalogue.JsSlice | ProductList/src/mock/product.ts:162 | `slice(start, end)` with JavaScript's clamping; `SliceBounds` and `PageRange` state its range |
| Catalogue.Page | ProductList/src/mock/product.ts:159-162 | a page has at most `pageSize` products, all from the list |
| Catalogue.PageRange | ProductList/src/mock/product.ts:159-162 | page `p` is the slice from `(p-1)·size` to `p·size` |
| Catalogue.PagesTile | ProductList/src/mock/product.ts:159-162 | pages 1 to n together form a prefix of the list |
| Catalogue.PagerPagesCoverList | ProductList/src/mock/product.ts:159-162 | the pages the pager offers cover the whole filtered list |
| Catalogue.ListedPageFacts | ProductList/src/mock/product.ts:159-169 | a listed page has at most `pageSize` products, all matching; `total` counts the filtered list |
| Catalogue.Row | ProductList/src/mock/product.ts:67-78 | one SKU per size for a colour |
| Catalogue.Skus | ProductList/src/mock/product.ts:66-79 | the SKUs of the nested `forEach`, colour by colour; `SkusLength`, `SkuAt` and `SkuIsPair` state their number and order |
| Catalogue.MakeSku | ProductList/src/mock/product.ts:68-77 | one SKU: id `sku_<product>_<colour>_<size>`, its specs, price at least 50, drawn stock; `EnrichedSkuOfPair` and `SkusBounds` state it |
| Catalogue.SkuSpecs | ProductList/src/mock/product.ts:71-74 | a spec key for each non-empty value; `SkuSpecsKeys` states it |
| Catalogue.SkusLength | ProductList/src/mock/product.ts:66-79 | there are colours × sizes SKUs |
| Catalogue.SkuAt | ProductList/src/mock/product.ts:66-79 | SKU `i·|sizes|+j` is colour `i` with size `j` |
| Catalogue.SkuIsPair | ProductList/src/mock/product.ts:66-79 | every SKU is some colour and size pair |
| Catalogue.BuildSkus | ProductList/src/mock/product.ts:66-79 | the nested loops compute `Skus` |
| Catalogue.PushRow | ProductList/src/mock/product.ts:67-78 | the inner loop appends exactly the colour's `Row`, one SKU per size in order, after what was pushed before |
| Catalogue.StockSumBounds | ProductList/src/mock/product.ts:82 | the summed stock lies between the per-SKU bounds times the count |
| Catalogue.StockSum | ProductList/src/mock/product.ts:82 | the `reduce` sum of SKU stock; `StockSumBounds` bounds it |
| Catalogue.GenerateProductDetail | ProductList/src/mock/product.ts:38-97 | the enriched product is `Enriched` |
| Catalogue.Enriched | ProductList/src/mock/product.ts:38-97 | the product `generateProductDetail` returns; `EnrichedImages`, `EnrichedSpecs`, `EnrichedSkus` and `EnrichedKeepsIdentity` state its parts |
| Catalogue.EnrichedImages | ProductList/src/mock/product.ts:88-93 | the images are the main image followed by 3 to 6 detail images |
| Catalogue.EnrichedWithoutSpecs | ProductList/src/mock/product.ts:41-96 | without specs only images and description are added |
| Catalogue.EnrichedSpecs | ProductList/src/mock/product.ts:47-60 | specs are colour and/or size, never neither, each with 2 to 4 values |
| Catalogue.OfferedLengths | ProductList/src/mock/product.ts:51-58 | 2 to 4 colours and 2 to 4 sizes are offered |
| Catalogue.Offered | ProductList/src/mock/product.ts:51-58 | `values.slice(0, count)`; `OfferedLengths` states 2 to 4 values are offered |
| Catalogue.DrawnSpecs | ProductList/src/mock/product.ts:47-60 | a colour spec on heads, then a size spec on heads or when there is no colour; `DrawnSpecsShape` states its shape |
| Catalogue.DrawnSpecsShape | ProductList/src/mock/product.ts:47-60 | one or two specs, colour first iff it was drawn, each named colour or size with 2 to 4 values |
| Catalogue.PaletteValues | ProductList/src/mock/product.ts:39-58 | offered values come from the palettes and are non-empty |
| Catalogue.DimensionValues | ProductList/src/mock/product.ts:63-64 | a missing dimension contributes the single value `""` |
| Catalogue.SpecValues | ProductList/src/mock/product.ts:63-64 | `specs.find(...)?.values || ['']`; `DimensionValues` states the missing case |
| Catalogue.SkuSpecsKeys | ProductList/src/mock/product.ts:71-74 | a SKU's spec map has a key for each non-empty value, and no others |
| Catalogue.EnrichedParts | ProductList/src/mock/product.ts:81-85 | stock becomes the SKU stock sum; specs and SKUs are set |
| Catalogue.SkuKeys | ProductList/src/mock/product.ts:63-74 | each SKU has a spec key for exactly the dimensions on offer |
| Catalogue.EnrichedSkus | ProductList/src/mock/product.ts:66-85 | there are colours × sizes SKUs, and stock is their sum |
| Catalogue.SkusBounds | ProductList/src/mock/product.ts:68-76 | SKU price is at least 50 and within 50 of the product price; stock is in 10 to 200 |
| Catalogue.EnrichedSkuOfPair | ProductList/src/mock/product.ts:66-79 | the SKU of a colour and size has their specs and the id `sku_<id>_<colour>_<size>` |
| Catalogue.EnrichedKeepsIdentity | ProductList/src/mock/product.ts:38-97 | enrichment keeps id, name, price, category and sales |
| Catalogue.FindProduct | ProductList/src/mock/product.ts:177 | `find` gives the first product with the id, or none |
| Catalogue.CatalogueLookup | ProductList/src/mock/product.ts:176-177 | in the generated catalogue `product_<n>` is found at position n−1 |
| Catalogue.CatalogueMisses | ProductList/src/mock/product.ts:176-177 | in the generated catalogue an id that is not `product_1`…`product_150` is not found |
| Catalogue.ProductStore.constructor | ProductList/src/mock/product.ts:100 | the cache starts empty |
| Catalogue.ProductStore.GetAllProducts | ProductList/src/mock/product.ts:103-108 | the first call generates and caches; later calls return the cache |
| Catalogue.ProductStore.GetProductList | ProductList/src/mock/product.ts:111-170 | the page is a listed page of the cached catalogue, filtered by the query |
| Catalogue.ProductStore.GetProductDetail | ProductList/src/mock/product.ts:173-185 | an unknown id fails with "Product not found"; a known one is enriched |
| Pagination.CeilDiv | ProductList/src/components/Pagination/Pagination.tsx:11 | `Math.ceil(a / b)` is the least r with a ≤ r·b |
| Pagination.TotalPages | ProductList/src/components/Pagination/Pagination.tsx:11 | `Math.ceil(total / pageSize)`; `CeilDiv` states it is the least page count that holds every product |
| Pagination.ShownIffMoreThanOnePage | ProductList/src/components/Pagination/Pagination.tsx:11-13 | the pager renders iff there are more products than fit on one page |
| Pagination.Range | ProductList/src/components/Pagination/Pagination.tsx:20-22 | a run of consecutive page numbers |
| Pagination.GetPageNumbers | ProductList/src/components/Pagination/Pagination.tsx:15-48 | the loops compute the page window |
| Pagination.Window | ProductList/src/components/Pagination/Pagination.tsx:15-48 | the list `getPageNumbers` returns, branch by branch; `WindowShape` and the three `Window*` lemmas state its form |
| Pagination.PushRange | ProductList/src/components/Pagination/Pagination.tsx:20-22 | one `for … push` loop appends a range |
| Pagination.FewPagesAllListed | ProductList/src/components/Pagination/Pagination.tsx:19-23 | with at most 5 pages all are listed |
| Pagination.WindowAtStart | ProductList/src/components/Pagination/Pagination.tsx:24-29 | near the start: 1–4, `…`, last |
| Pagination.WindowAtEnd | ProductList/src/components/Pagination/Pagination.tsx:30-36 | near the end: 1, `…`, the last four |
| Pagination.WindowInMiddle | ProductList/src/components/Pagination/Pagination.tsx:36-44 | in the middle: 1, `…`, current ±1, `…`, last |
| Pagination.WindowShape | ProductList/src/components/Pagination/Pagination.tsx:15-48 | listed numbers are increasing and inside 1..total, and every ellipsis hides at least one page |
| Pagination.HandlePrevious | ProductList/src/components/Pagination/Pagination.tsx:50-54 | previous moves back one page iff not on page 1 |
| Pagination.HandleNext | ProductList/src/components/Pagination/Pagination.tsx:56-60 | next moves on one page iff not on the last |
| Pagination.Render | ProductList/src/components/Pagination/Pagination.tsx:62-102 | nothing is rendered iff there is one page at most; otherwise the entries are the page window |
| Pagination.ButtonsMatchHandlers | ProductList/src/components/Pagination/Pagination.tsx:62-102 | a disabled button is one whose handler does nothing, and every page button leads inside 1..total |
| ProductDetail.InitialSelectionKeys | ProductList/src/pages/ProductDetail/ProductDetail.tsx:28-36 | the initial selection has a key exactly for each spec with values |
| ProductDetail.InitialSelectionFirstValues | ProductList/src/pages/ProductDetail/ProductDetail.tsx:28-36 | each such key selects the spec's first value |
| ProductDetail.InitialSpecs | ProductList/src/pages/ProductDetail/ProductDetail.tsx:29-34 | the loop computes `InitialSelection` |
| ProductDetail.InitialSelection | ProductList/src/pages/ProductDetail/ProductDetail.tsx:29-35 | the first value of every spec with values; `InitialSelectionKeys` and `InitialSelectionFirstValues` state it |
| ProductDetail.SkuMatches | ProductList/src/pages/ProductDetail/ProductDetail.tsx:67-69 | a SKU agrees with every selected spec; `FindSku` uses it |
| ProductDetail.FindSku | ProductList/src/pages/ProductDetail/ProductDetail.tsx:67-71 | the first SKU agreeing with every selected spec, or none |
| ProductDetail.FirstMatchFound | ProductList/src/pages/ProductDetail/ProductDetail.tsx:67-71 | the first matching SKU is the one found |
| ProductDetail.StockLookup | ProductList/src/pages/ProductDetail/ProductDetail.tsx:61-74 | without SKUs the product stock; otherwise the matched SKU's stock, or 0 |
| ProductDetail.CurrentStock | ProductList/src/pages/ProductDetail/ProductDetail.tsx:61-74 | `getCurrentStock`; `StockLookup` states its cases |
| ProductDetail.EmptySelectionTakesFirstSku | ProductList/src/pages/ProductDetail/ProductDetail.tsx:67-88 | an empty selection matches the first SKU |
| ProductDetail.PriceFallback | ProductList/src/pages/ProductDetail/ProductDetail.tsx:76-88 | a missing SKU or a price of 0 falls back to the product price |
| ProductDetail.CurrentPrice | ProductList/src/pages/ProductDetail/ProductDetail.tsx:76-88 | `getCurrentPrice`; `PriceFallback` states its cases |
| ProductDetail.InitialSelectionPicksFirstSku | ProductList/src/pages/ProductDetail/ProductDetail.tsx:28-36 | on a mock product the initial selection is the first SKU's specs, so that SKU is found |
| ProductDetail.InitialMatchesFirstPair | ProductList/src/pages/ProductDetail/ProductDetail.tsx:28-36 | the initial selection is the first colour and first size on offer |
| ProductDetail.Clamp | ProductList/src/pages/ProductDetail/ProductDetail.tsx:57 | the quantity is at least 1 and at most the stock when the stock is positive |
| ProductDetail.ClampCases | ProductList/src/pages/ProductDetail/ProductDetail.tsx:54-59 | in range kept, above clamped to stock, below or no stock gives 1 |
| ProductDetail.TypedQuantity | ProductList/src/pages/ProductDetail/ProductDetail.tsx:207 | `parseInt(v) || 1` is never 0 |
| ProductDetail.TypedQuantityOfNumber | ProductList/src/pages/ProductDetail/ProductDetail.tsx:206-210 | typing a non-zero number gives that number |
| ProductDetail.DisplayImages | ProductList/src/pages/ProductDetail/ProductDetail.tsx:95 | the gallery is never empty; the images when present, else the main image |
| ProductDetail.DetailImagesShown | ProductList/src/pages/ProductDetail/ProductDetail.tsx:95 | for a mock product the gallery is the main image and its detail images |
| ProductDetail.ControlsFor | ProductList/src/pages/ProductDetail/ProductDetail.tsx:197-234 | which buttons are disabled, each iff its condition |
| ProductDetail.QuantityButtons | ProductList/src/pages/ProductDetail/ProductDetail.tsx:194-217 | an enabled −/+ button moves by one and a disabled − does nothing |
| ProductDetail.DetailPage.constructor | ProductList/src/pages/ProductDetail/ProductDetail.tsx:13-18 | the page starts loading, without a product, at quantity 1 |
| ProductDetail.DetailPage.FetchProduct | ProductList/src/pages/ProductDetail/ProductDetail.tsx:20-45 | without an id nothing happens; a fetched product is shown and its initial selection set; a failure keeps the old state |
| ProductDetail.DetailPage.HandleSpecChange | ProductList/src/pages/ProductDetail/ProductDetail.tsx:47-52 | one spec is set and the others kept |
| ProductDetail.DetailPage.HandleQuantityChange | ProductList/src/pages/ProductDetail/ProductDetail.tsx:54-59 | the quantity is the clamped sum, or unchanged without a product |
| ProductDetail.DetailPage.HandleQuantityInput | ProductList/src/pages/ProductDetail/ProductDetail.tsx:206-210 | the typed quantity, clamped |
| ProductDetail.DetailPage.HandleAddToCart | ProductList/src/pages/ProductDetail/ProductDetail.tsx:90-93 | the cart modal opens iff there is a product |
| ProductDetail.DetailPage.CloseCartModal | ProductList/src/pages/ProductDetail/ProductDetail.tsx:251 | the modal closes |
| ProductDetail.DetailPage.SelectImage | ProductList/src/pages/ProductDetail/ProductDetail.tsx:149 | the thumbnail index is selected |
| ProductDetail.SpecChangeKeepsQuantity | ProductList/src/pages/ProductDetail/ProductDetail.tsx:47-59 | changing spec does not re-clamp: the quantity can exceed the new SKU's stock |
| Filter.ToNumber | ProductList/src/components/Filter/Filter.tsx:34-35 | `Number` of blank text is 0 |
| Filter.Numeral | ProductList/src/components/Filter/Filter.tsx:34-35 | the value of a trimmed numeral; `ToNumberOfIntToString` and `LettersAreNaN` state what it reads |
| Filter.ToNumberOfIntToString | ProductList/src/components/Filter/Filter.tsx:34-35 | `Number` reads back any integer written in decimal |
| Filter.LettersAreNaN | ProductList/src/components/Filter/Filter.tsx:34-35 | under the model's integer-only `Number`, text with a lower-case letter is NaN |
| Filter.FiltersFor | ProductList/src/components/Filter/Filter.tsx:31-37 | each filter is set iff its input is non-empty, prices via `Number` |
| Filter.EmptyInputsNoFilter | ProductList/src/components/Filter/Filter.tsx:31-44 | empty inputs give the empty filter that reset emits |
| Filter.ApplyFilters | ProductList/src/components/Filter/Filter.tsx:31-37 | the method builds `FiltersFor` |
| Filter.Toggle | ProductList/src/components/Filter/Filter.tsx:16 | clicking the selected category clears it, any other selects it |
| Filter.ToggleTwice | ProductList/src/components/Filter/Filter.tsx:15-19 | clicking twice restores a selected category, and clears otherwise |
| Filter.AllButtonClears | ProductList/src/components/Filter/Filter.tsx:51-54 | the "all" button always clears the category |
| Filter.FilterPanel.constructor | ProductList/src/components/Filter/Filter.tsx:11-13 | all inputs start empty |
| Filter.FilterPanel.HandleCategoryChange | ProductList/src/components/Filter/Filter.tsx:15-19 | the category toggles and the new filters are emitted |
| Filter.FilterPanel.HandlePriceChange | ProductList/src/components/Filter/Filter.tsx:21-29 | one bound changes and the new filters are emitted |
| Filter.FilterPanel.ResetFilters | ProductList/src/components/Filter/Filter.tsx:39-44 | inputs cleared and the empty filter emitted |
| TodoStorage.AfterRead | TodoServer/utils/storage.js:17-21 | a missing file is created holding `[]`; any other is untouched |
| TodoStorage.StoredTodos | TodoServer/utils/storage.js:14-34 | a non-empty read comes from a written file or a parsed non-blank array |
| TodoStorage.ReadFallbacks | TodoServer/utils/storage.js:14-34 | missing, unreadable, blank or non-array content reads as `[]`; an array reads as itself |
| TodoStorage.ReadIsStable | TodoServer/utils/storage.js:17-21 | reading twice gives the same todos and file |
| TodoStorage.WriteTodos | TodoServer/utils/storage.js:37-49 | writing fails iff the value is not an array; otherwise reading gives it back |
| TodoStorage.ParsedIds | TodoServer/utils/storage.js:56 | `parseInt(id, 10) \|\| 0` per todo |
| TodoStorage.ParsedId | TodoServer/utils/storage.js:56 | `parseInt(id, 10) \|\| 0`: `NaN` and 0 count as 0; `GenerateIdAboveAll` uses it |
| TodoStorage.MaxOf | TodoServer/utils/storage.js:56 | `Math.max` is an element not below any other |
| TodoStorage.GenerateId | TodoServer/utils/storage.js:52-58 | `"1"` for no todos, else the largest numeric id plus one |
| TodoStorage.GenerateIdAboveAll | TodoServer/utils/storage.js:52-58 | while every numeric id is below 2^53 − 1, the new id parses above every existing numeric id |
| TodoStorage.GenerateIdFresh | TodoServer/utils/storage.js:52-58 | while every numeric id is below 2^53 − 1, the new id differs from every existing id, whatever its form |
| TodoStorage.GenerateIdCounts | TodoServer/utils/storage.js:52-58 | ids 1..n lead to n+1, for n below 2^53 − 1 |
| TodoServer.CreateResult | TodoServer/server/index.js:47-65 | a 400 iff the title is not a non-blank string or `completed` is given and not boolean; else a todo with a fresh id, the trimmed title and the time |
| TodoServer.UsableTitle | TodoServer/server/index.js:49 | a string whose trim is non-empty; `CreateResult` and `UpdateResult` reject any other title |
| TodoServer.UpdateResult | TodoServer/server/index.js:84-103 | a 400 iff a given title is blank or non-string or a given `completed` non-boolean; else only the given fields change |
| TodoServer.UpdateIdempotent | TodoServer/server/index.js:86-103 | applying the same update twice equals once |
| TodoServer.EmptyUpdateKeepsTodo | TodoServer/server/index.js:86-103 | an empty body leaves the todo as it was |
| TodoServer.FindTodo | TodoServer/server/index.js:77 | `findIndex` gives the first todo with the id, or none |
| TodoServer.Remove | TodoServer/server/index.js:118 | `splice(i, 1)` removes exactly position i |
| TodoServer.RemoveTakesOne | TodoServer/server/index.js:118 | removal takes one todo out of the multiset |
| TodoServer.DeleteSparesLaterDuplicates | TodoServer/server/index.js:112-118 | with duplicate ids only the first is deleted |
| TodoServer.TodoService.constructor | TodoServer/utils/storage.js:12 | the service holds the file's state |
| TodoServer.TodoService.Load | TodoServer/utils/storage.js:14-34 | the todos read, with the missing file created |
| TodoServer.TodoService.List | TodoServer/server/index.js:42-45 | a 200 with the stored todos |
| TodoServer.TodoService.Create | TodoServer/server/index.js:47-70 | a 400 without touching the file, or a 201 with the todo appended and written |
| TodoServer.TodoService.Update | TodoServer/server/index.js:72-107 | a 404, a 400 with nothing written, or a 200 with the todo replaced in place |
| TodoServer.TodoService.Delete | TodoServer/server/index.js:109-122 | a 404, or a 204 with the first todo of that id removed |
| TodoServer.CreateAppends | TodoServer/server/index.js:59-69 | a create keeps every todo in place and appends one with a trimmed non-empty title and, while every numeric id is below 2^53 − 1, a new id |
| Text.Trim | ChatSystem/server/index.mjs:65 | the trim is no longer than the input, is empty iff the input is all white space, and does not start or end with white space |
| Text.ParseInt | TodoServer/utils/storage.js:56 | `parseInt(s, 10)`: leading white space, a sign and the longest digit run; `ParseIntOfIntToString` states it reads back any decimal integer |
| Text.IntToString | TodoServer/utils/storage.js:57 | `String(i)` is non-empty, a `-` sign and the digits of the magnitude; `IntToStringInjective` states distinct integers give distinct text |
| Text.PadStart | ChatSystem/src/utils.ts:35-36 | the result has length `max(n, s.length)`, ends with `s`, and is padded with the fill character |
| Text.ReplaceAll | ChatSystem/lynx.config.ts:81-82 | `replace(/p/g, r)` scanning left to right; `ReplaceAllWithoutMatch` and `ReplaceAllBySelf` state its identities |
| Text.ToLower | ChatSystem/lynx.config.ts:28-48 | each character is lower-cased, the length kept |

## Findings

| source | as written | input that shows it | evidently intended | confidence | as-written member | corrected member |
|---|---|---|---|---|---|---|
| ChatSystem/src/hooks/useWebSocket.ts:98 | the connect effect depends on `[shouldReconnect]`, so `setShouldReconnect(true)` only re-runs it when the value was false; after a first reconnect that never opens, the value stays true | the server is unreachable: every socket closes with code 1006; after the second close, "reconnecting (2/10)" is logged but no third socket is ever created; the status is `connecting` until socket 1's connect timeout, which nothing clears, fires and sets `error` | up to 10 reconnection attempts, one after each failed close, then `error`; `CommitIntended` corrects this together with the guard of the next row | not executed | ConnectionManager.AsWrittenStallsAfterOneRetry | ConnectionManager.IntendedRetriesUntilError |
| ChatSystem/src/hooks/useWebSocket.ts:28 | the effect returns early when a reconnect is requested and the counter is `>= 10`; the tenth abnormal close increments the counter to 10, logs "reconnecting (10/10)" and sets `connecting`, so its request is skipped | even with the effect re-run on every request, the tenth failed close: the tenth reconnection (the eleventh socket) is not created, and the re-run's cleanup clears the closed socket's connect timeout, so unless that timeout fired before the request the status stays `connecting` instead of reaching `error` | the tenth announced reconnect is made, and the eleventh failure gives `error` | not executed | ConnectionManager.TenthRetrySkipped | ConnectionManager.IntendedRetriesUntilError |
| ChatSystem/src/hooks/useWebSocket.ts:70 | `handleOpen` calls `setShouldReconnect(false)`; after a reconnect this changes the effect's dependency, so the effect's cleanup closes the socket that has just opened and a new one is created | a first close with code 1006, then the reconnect socket opens: status goes back to `connecting` and that socket is closed | the reopened socket is kept and the session is `open` | not executed | ConnectionManager.OpenAfterReconnectRestarts | ConnectionManager.IntendedOpenKeepsConnection |

`ConnectionManager.Step` follows the code as written, and so does the `WebSocketSession` class built on it. The corrected behaviour is `ConnectionManager.StepIntended` with `CommitIntended`. It re-runs the effect on every reconnect request, with the guard raised from `>= 10` to `>= 11`, and `handleOpen` does not force a re-run. `Design` and `Run` run the same event sequences under either definition.

Some other behaviours of the code are modelled as written. Each has a lemma:

- `StaleCloseBlocksSending`: the close of an earlier socket clears `socketRef`.
- `UnmountKeepsChains`: reconnect chains outlive the component.
- `PaddedTextDropped`: the relay checks text length before trimming.
- `SpecChangeKeepsQuantity`: a spec change does not re-clamp the quantity.

A few further facts about the code, which the model keeps:

- The relay accepts an empty user id.
- It cuts the user id to 50 characters rather than rejecting it.
- It keeps no membership list of its own: it broadcasts to the WebSocket server's clients.
- A connect timeout sets `error` but does not itself schedule a reconnect.
- The reconnect delay counts animation frames: the request comes on the 180th call of the chain, 179 frames after the close.

## Left out

- JSON text: `JSON.parse` and `JSON.stringify` are abstracted as a parsed `JsonValue`, or `None` when parsing fails. Numbers are integers.
- String length counts characters of `seq<char>`. JavaScript counts UTF-16 code units, so the 50- and 1000-character limits differ for text outside the Basic Multilingual Plane.
- Text.ToLower: folds ASCII letters only. Interface names compared by the dev server are taken to be ASCII.
- Filter.LettersAreNaN: holds of the integer-only `Number` modelled here, not of JavaScript's `Number`, which reads `1e3`, `0x1f` and `Infinity` as numbers although they contain letters.
- Filter.ToNumber: only optional sign plus decimal digits, surrounded by whitespace, is read as a number. Fractions, exponents, hexadecimal, `Infinity` and other forms read as NaN, whereas `Number` would accept some of them.
- ConnectionManager.Decode: a chat frame is delivered only when `userId` and `text` are strings and `timestamp` is a number. The hook itself would pass other field types through unchecked. The relay never sends such frames.
- TodoStorage.GenerateId: ids are computed on unbounded integers. JavaScript computes `Math.max(...) + 1` and `String(...)` on doubles, so from 2^53 the new id rounds onto an existing one, and from 10^21 it is written in exponent form (`1e+21`).
- TodoStorage.GenerateIdAboveAll: holds only while every parsed id is below 2^53 − 1 (`Number.MAX_SAFE_INTEGER`), for the reason above.
- TodoStorage.GenerateIdFresh: holds only while every parsed id is below 2^53 − 1, for the reason above. An id of `9007199254740992` would be handed out again.
- TodoServer.CreateAppends: the new id is fresh only while every parsed id is below 2^53 − 1, as for `GenerateIdFresh`.
- TodoStorage.StoredTodos: a parsed array is taken to hold todo objects with string ids. Arrays with other elements are outside the model. With `[null]`, `findIndex` would throw and Koa would answer 500. With `[{"id": 3}]`, POST (the update route) and DELETE of `/api/todos/3` would never match, while `generateId` counts the id as 3.
- Reconciler.SystemMessage: `createSystemMessage` reads `Date.now()` twice, once for the timestamp and once for the label. The model takes one reading for both, so a label naming the minute after the timestamp is not represented.
- Floating point: product `rating` and any non-integer price are not modelled. Prices, sales and stock are integers.
- Mock.js and `Math.random` draws are parameters of the mock functions. Names, descriptions, image URLs and category choice are opaque values.
- The mock's network delays (`delay(300..800)`) and its async/await are left out. Each call is one atomic step.
- Catalogue.ProductStore.GetProductList: a sorted listing may be any sorted permutation of the filtered list, because the stability of `Array.prototype.sort` is not stated; ties need not keep their filtered order.
- Catalogue.SortProducts: does not state that products with equal keys keep their filtered order, although `Array.prototype.sort` is stable. The listed page may be any sorted permutation.
- Clocks and time zones: `Date.now()`, ISO timestamps and the local hour and minute of a timestamp are parameters.
- Timers: the connect timeout and animation frames are events the environment delivers. The model does not decide whether a timed-out socket later reports a close.
- Logging, `onerror` (which only logs), and the relay's `close` and `error` handlers are left out. So are `listen`, CORS, body parsing, the error middleware and static file serving of the todo server.
- The file system: `todos.json` is a `StoredFile` value, and a failing `writeFileSync` is not modelled apart from the non-array refusal.
- Rendering: JSX markup, CSS and components outside the core (headers, cards, modals' contents) are not part of this model. `ProductList/src/api/product.ts` is a thin wrapper and is not part of this model.
- Concurrency: React batching and interleaving beyond the event order given to `Run` are not modelled.
