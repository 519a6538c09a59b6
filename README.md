# webrtc-demo: the connection store, the data-channel hook and the signaling registry

This Dafny project models the stateful logic of a two-tab WebRTC demo.

- **`WebrtcManager`** (`src/root.tsx`) owns one `RTCPeerConnection`. It appends every ICE candidate the connection reports to its `candidates` array. This includes the `null` end-of-candidates marker. On the `signalingstatechange`, `connectionstatechange`, `icegatheringstatechange` and `icecandidate` events it rebuilds a snapshot `state`. A snapshot holds a copy of the connection's six state fields and a reference to the manager's own `candidates` array. After each rebuild the manager calls every listener in its `Set`. `subscribe`, `notify` and `getSnapshot` are the store React's `useSyncExternalStore` reads.
- **`useDataChannel`** (`src/root.tsx`) is a hook with three pieces of state: the channel, the channel's last seen `readyState`, and the received messages. `setChannelWrapper` attaches four lifecycle listeners and one `message` listener to a channel. `ready` means the copied state is `"open"`.
- **The signaling handler** (`src/entry-server.tsx`) keeps a module-level record `peers` from names to descriptions. `POST /api/register` stores `payload.description` under `payload.name`; the last write wins. `/api/discover`, with any method, returns the whole record. Any other `/api/` request gets a 404 `{message: "Not found"}`, including `/api/register` with a method other than `POST`. Paths outside `/api/` get no response.

Modules:

- `Util` (`util.dfy`): `Option`, and counting, duplicate-free sequences and element removal. A JavaScript `Set` is modelled as a duplicate-free sequence in insertion order, which is its iteration order.
- `Rtc` (`rtc.dfy`): browser values and the two browser objects the code reads. `PeerConnection` has the six fields and `DataChannel` has `readyState`. The browser changes these fields on its own, so callers that play the browser assign them directly.
- `Manager` (`manager.dfy`): the classes `WebrtcManager`, `CandidateList` and `Snapshot`. `CandidateList` is the shared JavaScript array. `Snapshot` is a fresh object per `updateState`, and its `connection` field is immutable. The peer-connection events form the `PeerEvent` datatype, and `Dispatch` runs the manager's listeners for one event. `delivered` records every listener invocation, in order. `Trace` is the candidate log a sequence of events produces.
- `DataChannels` (`data_channel.dfy`): the class `DataChannelHook`. `listeners` holds the listeners the hook has attached, and `Fire` is the browser dispatching one event on a channel.
- `Signaling` (`signaling.dfy`): the class `Server` whose `Handle` method is proved against the function `Step`. `Run` and `LastRegistered` describe a whole sequence of requests.

The code enforces less than one might expect, and the model follows the code:
- Nothing checks the offer/answer order. The buttons call `setLocalDescription` and `setRemoteDescription` unconditionally, so the browser enforces the order.
- `setChannelWrapper` on the same channel twice attaches every listener twice, so each message is appended twice (`AttachedTwice`).
- A replaced channel keeps its listeners, so its later events still overwrite the hook's state (`ChannelScenario`).
- A snapshot's `candidates` is the live array, so an older snapshot shows later candidates (`CandidateScenario`). Only the `connection` part of a snapshot is immutable.
- An `iceconnectionstatechange` alone does not refresh the snapshot. The snapshot then shows a stale `iceConnectionState` (`SnapshotScenario`).

## Model

| member | source | states |
|---|---|---|
| `Rtc.PeerConnection.constructor` | src/root.tsx:28-35 | a new peer connection has no local or remote description, and its connection, signaling, ICE connection and ICE gathering states are new, stable, new and new |
| `Rtc.DataChannel.constructor` | src/root.tsx:179 | a newly created data channel has its label and is in state `connecting` |
| `Manager.CandidateList.Push` | src/root.tsx:66 | `candidates.push` appends exactly its argument at the end and keeps every earlier entry |
| `Manager.Snapshot.constructor` | src/root.tsx:73-83 | a snapshot holds the given connection fields and the given candidate list object itself, not a copy |
| `Manager.WebrtcManager.constructor` | src/root.tsx:25-70 | after construction the candidate list is a new, empty array. A fresh snapshot already exists, holding the connection's fields and that same array. No listener is registered and none has been called |
| `Manager.WebrtcManager.UpdateState` | src/root.tsx:72-85 | `state` becomes a fresh snapshot whose six connection fields equal the peer connection's current values. Its candidate list is the manager's own list. Then exactly one notification delivers each registered listener once, in set order. The listener set is unchanged |
| `Manager.WebrtcManager.Notify` | src/root.tsx:95-99 | the invocation log grows by exactly the registered listeners, in iteration order |
| `Manager.UnsubscribeKeepsOthers` | src/root.tsx:91-99 | after unsubscribing a listener, a notification no longer reaches it and still reaches every other registered listener exactly once |
| `Manager.NotifyDeliversOnce` | src/root.tsx:95-99 | in one notification each registered listener is invoked exactly once and an unregistered callback not at all |
| `Manager.WebrtcManager.Subscribe` | src/root.tsx:89-91 | `subscribe` adds the listener to the set. Subscribing an already registered listener changes nothing, otherwise the listener goes at the end of the iteration order. The returned unsubscribe function is bound to that listener |
| `Manager.WebrtcManager.CallUnsubscribe` | src/root.tsx:91-93 | calling the returned function removes exactly that listener. The set afterwards is the old set minus that listener, with the others in their order |
| `Manager.WebrtcManager.GetSnapshot` | src/root.tsx:100 | returns the snapshot `updateState` assigned last, whose candidate list is the manager's own list. Two calls with no refresh in between return the same object |
| `Manager.WebrtcManager.Dispatch` | src/root.tsx:55-68 | the three state-change events and `icecandidate` replace the snapshot with a fresh one and notify every listener once. `icecandidate` first appends its candidate, possibly `null`, to the end of the list. Every other event, `iceconnectionstatechange` included, leaves the snapshot, the list and the invocation log unchanged |
| `Manager.DispatchAll` | src/root.tsx:55-68 | after the manager handles a sequence of events one at a time, its candidate list has grown by exactly `Trace` of those events, so the `Trace` lemmas below are about the manager's own list |
| `Manager.TraceAppend` | src/root.tsx:65-68 | the candidate log of consecutive event sequences is the concatenation of their logs |
| `Manager.TraceExtends` | src/root.tsx:25 | the candidate log is append-only: the log after a prefix of the events is a prefix of the final log |
| `Manager.TraceCandidates` | src/root.tsx:65-68 | each `icecandidate` event contributes exactly its candidate, at the position after the candidates of all earlier events |
| `Manager.TraceOfOtherEvents` | src/root.tsx:55-63 | events other than `icecandidate` add nothing to the candidate log |
| `DataChannels.DataChannelHook.constructor` | src/root.tsx:106-108 | before any channel is attached there is no channel, the state is undefined, there are no messages and no listeners |
| `DataChannels.Attachment` | src/root.tsx:111-126 | one `setChannelWrapper` attaches five listeners to the channel, exactly one each for `open`, `close`, `closing`, `error` and `message` |
| `DataChannels.DataChannelHook.SetChannelWrapper` | src/root.tsx:110-128 | the hook's listeners grow by exactly that attachment, even if the channel was attached before. The channel becomes the current one. State, messages and `ready` are unchanged |
| `DataChannels.DataChannelHook.Fire` | src/root.tsx:117-125 | an event on a channel runs every listener the hook attached to that channel for that event. A `message` appends its payload once per such listener at the end of `messages`. Whenever at least one listener runs, the state becomes the channel's current `readyState`, so `ready` holds exactly when that is `"open"`. Otherwise state and `ready` are unchanged |
| `DataChannels.DataChannelHook.Ready` | src/root.tsx:118-133 | `ready` is true exactly when the copied state is `"open"`. `Fire` says how it follows the channel. After an event that runs a listener of the channel, `ready` holds exactly when the channel's `readyState` is `"open"`. After any other event, and after `SetChannelWrapper`, it is unchanged |
| `DataChannels.AttachedOnce` | src/root.tsx:110-128 | a channel attached once runs exactly one listener per event, so each message is appended once. Other channels' listeners may come before or after it, as when the channel is later replaced |
| `DataChannels.AttachedTwice` | src/root.tsx:110-128 | a channel attached twice runs exactly two listeners per event, so each message is appended twice. Other channels' listeners may come before, between or after the two attachments |
| `Signaling.RouteOf` | src/entry-server.tsx:10-21 | a request is outside the API exactly when its path lacks the `/api/` prefix. It registers exactly when the path is `/api/register` and the method is `POST`. It discovers exactly when the path is `/api/discover`, whatever the method. Every other `/api/` request is unknown |
| `Signaling.Step` | src/entry-server.tsx:8-22 | outside `/api/`: no response, registry unchanged. Register: `{ok: true}` with status 200, `payload.name` now maps to `payload.description`, the key set gains only that name, and every other entry is unchanged. Discover: the whole registry with status 200, registry unchanged. Unknown: 404 `{message: "Not found"}`, registry unchanged |
| `Signaling.Server.constructor` | src/entry-server.tsx:6 | the registry starts empty |
| `Signaling.Server.Handle` | src/entry-server.tsx:8-22 | the handler's response and its new registry are those `Step` gives for the old registry |
| `Signaling.HandleAll` | src/entry-server.tsx:8-22 | after the handler serves a sequence of requests one at a time, the registry is `Run` of those requests from the old registry, so the `Run` lemmas below are about the server's own `peers` |
| `Signaling.RunLastWriteWins` | src/entry-server.tsx:13-16 | after any sequence of requests, a registered name maps to the description of its last registration. A name never registered is present exactly when it was before, with the same description |
| `Signaling.LastRegisteredSkips` | src/entry-server.tsx:15 | requests that do not register a name do not change which registration of that name is the last |
| `Signaling.RegisterThenDiscover` | src/entry-server.tsx:13-20 | after a registration of (n, d), a discovery lists n with d, provided no request in between registers n |
| `Signaling.RunWithoutRegistrations` | src/entry-server.tsx:9-21 | a sequence of requests none of which is a `POST /api/register` leaves the registry unchanged |

## Left out

- The browser's `RTCPeerConnection` and `RTCDataChannel` behaviour is left out: the signaling, ICE and connection state machines, description creation, `addIceCandidate` and the STUN configuration (`src/root.tsx:28-35`). The model takes the state fields as inputs that the browser sets before it fires an event.
- The debug listeners (`src/root.tsx:37-53`) only log to the console, so they are left out, and so is the `debug` check on the page URL. That is why `iceconnectionstatechange`, `icecandidateerror` and `negotiationneeded` have no effect in `Dispatch`. The manager's own listeners ignore `datachannel` and `track` too. The UI adds listeners for those two, as described below.
- Listener bodies are left out. A listener is an identity, and an invocation is recorded in `delivered`. So is a listener subscribing or unsubscribing while a notification runs: JavaScript `Set` iteration defines that order, and the code adds no rule of its own.
- React's rendering and the batching of its state updates are left out. The hook's state updates are applied in the order the listeners run.
- The UI is left out: `App` (`src/root.tsx:137-343`), its buttons (`createDataChannel`, `setLocalDescription`, `setRemoteDescription`, the hidden `addIceCandidate`), `window.prompt`, `JSON.parse` and `JSON.stringify`, the clipboard, `getUserMedia` and the video track. The Callee buttons add listeners to the peer connection (`src/root.tsx:225-228, 237-239`). On `datachannel`, such a listener calls `setChannelWrapper(e.channel)`, and each further click of that button adds one more such listener. A caller of the model plays that listener by calling `SetChannelWrapper`, once per listener; with two listeners that is the case `AttachedTwice` describes. The `track` listener only feeds the video element. The form's `send` (`src/root.tsx:282-285`) checks only that a channel exists. `ready` decides only the `disabled` attribute of the message input and of the send button (`src/root.tsx:290-292`). The transmission itself is the browser's.
- HTTP plumbing is left out: `webToNodeHandler`, the `Request` and `Response` objects, URL parsing, and the asynchronous `request.json()` (`src/entry-server.tsx:1, 9, 14, 24`). A request is modelled as its path, its method and its already parsed payload. A body that fails to parse is not modelled. The handler awaits the body after routing and before it writes to `peers` (`src/entry-server.tsx:14-15`), and other requests may be handled completely during that wait, so the order of the requests given to `Run` and `HandleAll` is the order in which registrations are written, not the order in which they arrive.
- Signaling.Server.Handle: treats `peers` as a map from strings to descriptions. In the code it is a plain JavaScript object, so three cases differ. The name `__proto__` reaches the prototype setter instead of becoming an entry. A non-string `payload.name` is converted to a string key. A missing description is stored as `undefined` and dropped from the discovery JSON. The model assumes a string name that is not `__proto__` and a present description.
- Descriptions are kept as opaque JSON text. The relay never inspects them.
- `src/ui/root.tsx`, `src/entry-client.tsx`, `src/index.tsx` and `vite.config.ts` hold markup, DOM bootstrapping and build configuration, with no logic to model.
