# Shallot wallet relay, content bridge and provisioning form in Dafny

A Dafny model of the request-relay part of the Shallot browser-extension
wallet (a fork of the SPL token wallet):

- **Relay** (`relay.dfy`) models the extension's background page. Its one
  `chrome.runtime.onMessage` listener handles three channels. The page
  channel carries `connect`, `disconnect`, `connectProvision` and every other
  method. The popup's result channel answers a pending request by id. The
  mnemonic channel does `set` and `get`. The state is the consent map `connectedWallets`
  (origin to `{publicKey, autoApprove}`, possibly never stored), the
  pending-response table `responseHandlers`, and `unlockedMnemonic`. Each
  `sendResponse` callback is a `Token`, and calling it is logged as a
  `Delivery`. Each approval popup opened is logged as a `Popup` holding the
  origin, the network and the request. The pure transition `Dispatch` is the
  specification. The class `Background` holds the same state in fields, and
  every one of its methods ensures that it moves its state exactly as
  `Dispatch` (or the handler's own function) says.
- **Bridge** (`bridge.dfy`) models `window.shallot.postMessage` in the
  injected script. Every request installs a one-shot listener tied to its id,
  then dispatches the request event. A matching answer removes the listener
  and is posted back to the page. The window's listeners are a multiset of
  ids. The class `Window` keeps an invariant per id: the answers forwarded
  plus the listeners still waiting equal the requests posted.
- **Provision** (`provision.dfy`) models the logic of `ProvisionPage`: the
  default account map, the per-name `onChange` with its completeness scan,
  the monotone `formComplete` flag, the empty-value guard of
  `AccountSelector`, the empty-accounts error and the submit button. The
  scans that the source writes as loops (`defaultState`, the `for…in` in
  `onChange`) are methods with loops, proved equal to their specification.

Three error and timing paths are kept as the code has them:
- A result whose id has no handler makes the listener call `undefined`,
  which throws (background.js:87-89). The model returns
  `Threw(NoHandler(id))` and changes nothing.
- `disconnect` when no consent map was ever stored throws at the `delete`
  (background.js:48). By then the listener has already returned `true`; the
  exception is raised in the `chrome.storage.local.get` callback. The model
  folds that callback into the same step and returns
  `Threw(NoStoredWallets)`, with no write and no answer.
- The `connect` fast path answers from inside the storage callback, so in the
  code it runs after the listener has returned. The model folds that
  callback into the same step as the message.

## Model

| member | source | states |
|---|---|---|
| `Relay.Start` | extension/src/background.js:1-2 | The background page's starting state: the stored consent map, an empty table, the mnemonic `''`, nothing delivered or opened. Its use is stated by `EveryCallbackAtMostOnce` and `MnemonicGetAnswersLastSet`. |
| `Relay.Escalate` | extension/src/background.js:4-25 | `launchPopup`: logs one popup and sets `id -> sendResponse`, answering nothing. Stated by `EscalateReplacesPending`, `ConnectUnknownOriginEscalates` and `OtherMethodsEscalate`. |
| `Relay.Connect` | extension/src/background.js:27-44 | `handleConnect`: answers from the stored entry or escalates. Stated by `ConnectKnownOriginAnswers` and `ConnectUnknownOriginEscalates`. |
| `Relay.Disconnect` | extension/src/background.js:46-54 | `handleDisconnect`: deletes the origin, writes the map and answers, or throws when no map is stored. Stated by `DisconnectForgetsOnlyOrigin` and `DisconnectThenConnectEscalates`. |
| `Relay.Route` | extension/src/background.js:72-83 | The page channel's dispatch on `method`, always keeping the channel open. Stated by `OtherMethodsEscalate` and by the contract of `Dispatch`. |
| `Relay.Resolve` | extension/src/background.js:84-89 | The result channel: looks up, deletes and calls the handler, or throws for an unknown id. Stated by `ResultFiresHandlerAtMostOnce` and `ResolveInAnyOrder`. |
| `Relay.Mnemonic` | extension/src/background.js:90-95 | The mnemonic channel's `set` and `get`. Stated by `MnemonicIsLastSet` and `MnemonicGetAnswersLastSet`. |
| `Relay.WriteConsent` | src/App.js:55 | An outside step, not the relay's own code: the popup app's `ConnectedWalletsProvider`, mounted here, writes the whole `connectedWallets` value. The stored map becomes the written one. The table, the mnemonic, the responses and the popups are untouched. |
| `Relay.Dispatch` | extension/src/background.js:70-97 | No message adds an entry to the consent map or changes a kept one. A message that throws leaves the whole state unchanged. Each message calls at most one `sendResponse`, and only appends to the response log. |
| `Relay.ConnectKnownOriginAnswers` | extension/src/background.js:29-42 | `connect` from an origin with a stored entry answers `connected` at once with that entry's `publicKey` and `autoApprove` and the request's id. Its post-state differs from the pre-state only by that delivery: no handler, no popup, no storage write. |
| `Relay.ConnectUnknownOriginEscalates` | extension/src/background.js:4-32 | `connect` from an origin with no entry, or with no map stored, answers nothing. It opens one popup with `sender.origin`, `params.network` and the request, and registers `id -> sendResponse`. |
| `Relay.OtherMethodsEscalate` | extension/src/background.js:73-81 | `connectProvision` and every method other than `connect` or `disconnect` always escalate in the same way and never answer directly. |
| `Relay.EscalateReplacesPending` | extension/src/background.js:24 | Escalating a request whose id is already pending keeps the table's ids. The new callback replaces the earlier one for that id, and every other id keeps its own. |
| `Relay.SharedIdStrandsFirstCaller` | extension/src/background.js:24 | When two escalated requests share an id, the second takes the id over. The first caller's callback is left in no table entry, and the popup's result for that id reaches only the second caller. The first caller's count of answers does not change. |
| `Relay.DisconnectForgetsOnlyOrigin` | extension/src/background.js:46-54 | With a map stored, `disconnect` removes exactly the caller's origin and keeps every other origin's entry and value. It writes the map back and answers `disconnected` with the request's id, also when the origin had no entry. With no map stored it throws, and nothing is written or answered. |
| `Relay.DisconnectThenConnectEscalates` | extension/src/background.js:27-54 | After a `disconnect`, a `connect` from the same origin always escalates, whatever was stored before. |
| `Relay.RunKeepsConsent` | extension/src/background.js:27-54 | Over any sequence of listener messages the consent map only loses entries: the relay itself never adds or changes consent. Writes by the popup app are not listener messages. |
| `Relay.ApprovedConnectIsRemembered` | extension/src/background.js:27-44 | A first `connect` from an origin with no entry escalates. Once the popup app writes consent for that origin and the approval result arrives, the first request is answered through its handler, and a later `connect` from that origin is answered at once with the written `publicKey` and `autoApprove`. |
| `Relay.ResultFiresHandlerAtMostOnce` | extension/src/background.js:84-89 | A result for a pending id removes the id and calls its handler once with the result. A replay of the same id throws `NoHandler` and calls nothing. A result for an unknown id throws and changes nothing. |
| `Relay.ResolveInAnyOrder` | extension/src/background.js:84-89 | Results for distinct pending ids, in any order, each call the handler registered for their own id once, in arrival order. The table loses exactly those ids, and nothing else changes. |
| `Relay.DispatchKeepsAtMostOnce` | extension/src/background.js:70-97 | One message with a new callback keeps the invariant: pending callbacks are distinct and not yet called, and no callback has been called twice. |
| `Relay.RunKeepsAtMostOnce` | extension/src/background.js:70-97 | The at-most-once invariant holds over any interleaving of requests, results and mnemonic messages, provided each listener call gets its own callback. |
| `Relay.EveryCallbackAtMostOnce` | extension/src/background.js:1-97 | From a fresh start, with one callback per listener call, no `sendResponse` is ever called twice. |
| `Relay.MnemonicIsLastSet` | extension/src/background.js:90-95 | After any sequence of messages, the mnemonic is the data of the most recent `set`, or its earlier value if there was none. |
| `Relay.MnemonicGetAnswersLastSet` | extension/src/background.js:90-95 | From a fresh start, `get` answers the most recent `set`, and `''` before any `set`. It changes nothing else. |
| `Relay.Background.constructor` | extension/src/background.js:1-2 | The background page starts with the stored consent map, an empty table and the mnemonic `''`. |
| `Relay.Background.LaunchPopup` | extension/src/background.js:4-25 | Logs the popup with its origin, network and request, and sets `id -> sendResponse` in the table. |
| `Relay.Background.HandleConnect` | extension/src/background.js:27-44 | Moves the state as `Connect`: answers from the stored entry, or escalates. |
| `Relay.Background.HandleDisconnect` | extension/src/background.js:46-54 | Moves the state as `Disconnect`: deletes the origin, writes the map, answers; or throws and changes nothing when no map is stored. |
| `Relay.Background.StorageChanged` | src/App.js:55 | An outside step: the stored consent map becomes the one the popup app's `ConnectedWalletsProvider` wrote, as `WriteConsent` states. |
| `Relay.Background.HandleConnectProvision` | extension/src/background.js:56-68 | Always escalates. |
| `Relay.Background.OnMessage` | extension/src/background.js:70-97 | The listener's new state and outcome are exactly those `Dispatch` gives. For the result channel it looks up, deletes and then calls, as the code does. |
| `Bridge.Listen` | extension/src/script.js:3-9 | Adds one listener for the request's id. Stated by `PostListensThenDispatches` and `ListenDispatchKeepsConserved`. |
| `Bridge.Dispatch` | extension/src/script.js:11-13 | Dispatches the request event with the message unchanged. Stated by `PostListensThenDispatches`. |
| `Bridge.Post` | extension/src/script.js:2-14 | `postMessage`: listen, dispatch, then the answers that arrive during dispatch. Stated by `PostListensThenDispatches`, `AnswerDuringDispatchIsCaught` and `PostKeepsConserved`. |
| `Bridge.Receive` | extension/src/script.js:3-8 | An answer event: every listener waiting for its id forwards it once and is removed. Stated by `ReceiveKeepsConserved`, `MismatchIgnored` and `LaterAnswersIgnored`. |
| `Bridge.ReceiveAllEffect` | extension/src/script.js:3-8 | A run of answer events fires, once each, exactly the listeners whose id some answer carries, and removes exactly those. Every other id keeps its listeners and its forwarded count, and the dispatched requests are untouched. |
| `Bridge.ListenDispatchKeepsConserved` | extension/src/script.js:9-13 | Adding the listener and dispatching the request keeps every id's balance. |
| `Bridge.PostListensThenDispatches` | extension/src/script.js:9-13 | `postMessage` dispatches the message unchanged as the request event, whatever answers come back during dispatch. With none, it adds one listener for the message's id and forwards nothing. |
| `Bridge.AnswerDuringDispatchIsCaught` | extension/src/script.js:3-13 | The listener is installed before the request is dispatched. So when an answer with the request's id arrives during dispatch, exactly one more answer with that id is forwarded and no listener for it is left. |
| `Bridge.ListeningLateMissesAnswer` | extension/src/script.js:9-13 | For contrast, with the two steps swapped (dispatch, then listen) such an answer is not forwarded and the listener is left waiting. |
| `Bridge.MismatchIgnored` | extension/src/script.js:3-7 | An event leaves every listener for another id, and the forwarded count of every other id, unchanged. An event whose `detail.id` matches no waiting listener changes nothing at all. |
| `Bridge.LaterAnswersIgnored` | extension/src/script.js:4-6 | After the first matching event, later events with the same id are not forwarded again. |
| `Bridge.AnswersInAnyOrder` | extension/src/script.js:3-8 | With outstanding requests of distinct ids, answers arriving in any order are each forwarded exactly once, in arrival order. Exactly their listeners are removed, and the others stay. |
| `Bridge.PostKeepsConserved` | extension/src/script.js:2-13 | Posting, with whatever answers arrive during dispatch, keeps the per-id balance: answers forwarded plus listeners waiting equal requests posted. |
| `Bridge.ReceiveKeepsConserved` | extension/src/script.js:3-8 | An answer event keeps the same per-id balance. Every listener waiting for that id forwards once and is removed. |
| `Bridge.Window.constructor` | extension/src/script.js:1-15 | A window starts with no listeners and nothing dispatched or forwarded, which satisfies the balance. |
| `Bridge.Window.PostMessage` | extension/src/script.js:2-14 | Moves the window as `Post` (listen, dispatch, then each answer arriving during dispatch) and keeps the balance invariant. |
| `Bridge.Window.ContentScriptMessage` | extension/src/script.js:3-8 | Moves the window as `Receive` and keeps the balance invariant. |
| `Provision.Initial` | src/components/ProvisionPage.js:73-76 | A fresh page's state. Stated by `InitialHasExactlyTheNames`. |
| `Provision.Change` | src/components/ProvisionPage.js:87-97 | `onChange`: sets one name and marks the form complete once every entry is filled. Stated by `ChangeSetsOnlyThatName` and `ChangeCompletesWhenFilled`. |
| `Provision.Select` | src/components/ProvisionPage.js:46-52 | `_onChange`: a non-empty value is passed to `Change`, an empty one ignored. Stated by `EmptySelectionIgnored` and `ChosenNameSelected`. |
| `Provision.Render` | src/components/ProvisionPage.js:78-104 | The error for an empty account list, or the form with one selector per name and the button. Stated by `RenderChecksAccounts`. |
| `Provision.ChosenNameSelected` | src/components/ProvisionPage.js:46-52 | A non-empty choice sets its name to exactly that value. |
| `Provision.InitialAsWritten` | src/components/ProvisionPage.js:73-74 | `defaultState` as plain-object assignment builds it: every requested name except `"__proto__"`, whose inherited setter ignores a string. |
| `Provision.ChangeAsWritten` | src/components/ProvisionPage.js:87-97 | `onChange` through plain-object assignment: a choice for `"__proto__"` stores nothing. |
| `Provision.ProtoNameLeftUnchosen` | src/components/ProvisionPage.js:73-96 | For the names `["__proto__", "a"]`, the code's page completes the form once `"a"` alone is chosen, with a map that lacks a requested name. `Initial` and `Change` keep the form incomplete. |
| `Provision.DefaultState` | src/components/ProvisionPage.js:73-74 | The default map has exactly the requested names as keys, each bound to `""`. |
| `Provision.AllFilled` | src/components/ProvisionPage.js:91-95 | The early-returning scan answers true exactly when every entry is non-empty. |
| `Provision.InitialHasExactlyTheNames` | src/components/ProvisionPage.js:73-76 | A fresh page has exactly the requested names, all `""`, and `formComplete` false. |
| `Provision.RenderChecksAccounts` | src/components/ProvisionPage.js:78-80 | An empty account list renders the error and not the form. Otherwise there is one selector per name, and submit is disabled exactly while the form is incomplete. What the error means for behaviour is carried by the page's methods: `OnChange`, `Submit` and `OnSelect` require a non-empty list, or a requested name, because their closures exist only past the guard. |
| `Provision.EmptySelectionIgnored` | src/components/ProvisionPage.js:46-52 | A selection with an empty value changes no state and sends nothing up. |
| `Provision.ChangeSetsOnlyThatName` | src/components/ProvisionPage.js:87-89 | An update sets the chosen name to the address. Every other key keeps its value, and no other key appears. |
| `Provision.ChangeCompletesWhenFilled` | src/components/ProvisionPage.js:90-96 | After an update the form is complete when every entry is non-empty. Otherwise the flag is left as it was. |
| `Provision.CompleteNeverReset` | src/components/ProvisionPage.js:87-97 | Once complete, the form stays complete whatever is chosen next. |
| `Provision.CompleteIffFilled` | src/components/ProvisionPage.js:46-97 | Driven by its selectors, the page keeps exactly the requested names as keys. `formComplete` is true exactly when every entry holds an address. |
| `Provision.ChosenNameStaysFilled` | src/components/ProvisionPage.js:46-52 | A name chosen at least once with a non-empty value holds an address from then on. |
| `Provision.ChoosingEveryNameCompletes` | src/components/ProvisionPage.js:87-97 | Once every requested name has been chosen with a non-empty value, the form is complete. |
| `Provision.ProvisionPage.constructor` | src/components/ProvisionPage.js:71-76 | The page starts with the default map and `formComplete` false, and nothing has been provisioned. |
| `Provision.ProvisionPage.OnChange` | src/components/ProvisionPage.js:87-97 | Callable only for a requested name, since the closure is made per name at line 101. Updates the map in place, scans it, and sets the flag only when every entry is filled, as `Change` states. |
| `Provision.ProvisionPage.Submit` | src/components/ProvisionPage.js:82-85 | Callable only when the list is not empty, since the button exists only past the guard. A submit reaches `onProvision` exactly when `formComplete` holds, with the current account map. That is exactly when the page shows the form with the button enabled. The form state is unchanged. |
| `Provision.AccountSelector.constructor` | src/components/ProvisionPage.js:43-44 | A selector exists only for a requested name (line 101). It starts with no address and the validation error shown. |
| `Provision.AccountSelector.OnSelect` | src/components/ProvisionPage.js:46-52 | For a selector of a requested name: a non-empty value clears the error, becomes the address and is passed to the page's `onChange`. An empty value leaves both the selector and the page unchanged. |

## Findings

| source | as written | input that shows it | evidently intended | confidence | as-written member | corrected member |
|---|---|---|---|---|---|---|
| src/components/ProvisionPage.js:74-91 | The account map is a plain object, so the requested name `"__proto__"` is never stored and never scanned. | `accounts = ["__proto__", "a"]`, then `"a"` is chosen | The form completes only once every requested name holds an address. | not executed | `Provision.ProtoNameLeftUnchosen` | `Provision.CompleteIffFilled` |

## Left out

- Provision.DefaultState: stores the name `"__proto__"` like any other, as do `Initial` and `InitialHasExactlyTheNames`. In the code the assignment at ProvisionPage.js:74 goes to the inherited `__proto__` setter and stores nothing. `InitialAsWritten` models the code; see Findings.
- Provision.Change: stores a choice for `"__proto__"` like any other, as do `ProvisionPage.OnChange`, `ChangeSetsOnlyThatName`, `CompleteIffFilled` and `ChoosingEveryNameCompletes`. The code's assignment at line 88 stores nothing, and the `for…in` at line 91 never sees the key. `ChangeAsWritten` models the code.
- The account vault (`src/utils/Auth0AccountProvider.js`) is not part of this model. It consists of `fetch` calls to the identity provider's management API, AES-GCM encryption done by the browser's `crypto.subtle` with a random 12-byte IV, and React context. The code has no merge function: `setAccount` replaces the whole account after the remote write.
- Popup window geometry (`chrome.windows.getLastFocused` / `create`) is left out. The popup's URL parameters are the record `Popup`, not a `URLSearchParams` string.
- `console.log` calls are left out.
- The interleaving of asynchronous `chrome.storage` callbacks is left out. Each storage read, write and its continuation is one atomic step, so the read-modify-write race in `handleDisconnect` is not modelled.
- Relay.DisconnectForgetsOnlyOrigin: the order "write first, then answer" is stated only as "the answer is given in the same step that writes, and never without the write", because write completion is not a separate step in the model.
- Malformed messages, such as a missing `data`, `id` or `params`, are left out. They throw TypeErrors of their own in the code. Each channel's message is modelled with the fields the code reads, and the mnemonic channel's `data` is a string.
- Whether `sender.origin` can be spoofed is left out. The origin is taken as given.
- In `script.js`, `window.postMessage` and the content script on the other side of the events are logs and parameters. The firing order of several listeners waiting for the same id is not modelled; all of them fire.
- `ProvisionPage` with `props.accounts` undefined is left out. Line 74 would throw before the guard at line 78 runs, and the model takes accounts as a sequence.
- React's rendering semantics are left out: state setters are taken to apply at once, and re-rendering with the same mutated `accountMap` object is not modelled. The styles and the dropdown's address list from `useWalletSelector` are left out too.
- The key order of the `for…in` scan is not modelled, since it does not affect the scan's result.
- The popup app's `ConnectedWalletsProvider` (`src/App.js` and the provider it mounts), which writes consent after the user approves, is not part of this model. Only its effect on storage is: `WriteConsent` replaces the whole stored map, and `RunKeepsConsent` is stated for listener messages only.
- Provision.ProvisionPage.Submit: logs a copy of the account map. In the code `onProvision` receives the live object (ProvisionPage.js:84), which later `onChange` calls mutate in place (line 88), so a receiver that keeps it sees later choices. That aliasing is not modelled.
- `src/App.js` (theming, routing, the iframe check) and `src/components/TestConnectProvisionDialog.js` (a UI test harness) are left out.
