# Mock WebSocket interception core, modelled in Dafny

This project models the two cooperating pieces of the library's mock WebSocket layer:

- **The interception registry** `WebSocketStorage` (module `SocketStorage`). It keeps the links, which are the destinations under mock control, and the registrations, which are insertion-ordered `(url, socket)` pairs. It supports append, filter-remove, link lookup, ordered fan-out lookup, and a dispatch that sends one shared message event to every socket registered for a URL.
- **The mock client** `WebSocketOvereride` (module `SocketOverride`, class `WebSocketOverride`). It is a state machine over `CONNECTING`, `OPEN`, `CLOSING` and `CLOSED`:
  - Construction validates the URL and registers the client.
  - The deferred settle step opens or closes the client.
  - `send` and `close` follow the state rules in the table below.
  - The single-slot `on*` handler properties sit on top of the listener set.

Supporting modules:

- `Wrappers` gives `Option`, `Result` and `Outcome`. Thrown errors become `Failure`/`Fail` values.
- `Events` is the slice of the DOM event model the client needs. An `EventTarget` holds a set of `(type, listener)` pairs and a log of the events dispatched to it. Listeners are recorded, not invoked.
- `Scenarios` holds methods that chain several calls. It states what the code guarantees for each sequence as a whole.

How the source's shape is rendered here:

- **The registry** is a class with `seq` fields that its methods reassign. `lookupLink` and `lookupSockets` are functions over those fields. Each is backed by a recursive function (`FindLink`, `SocketsFor`, `Without`), and lemmas relate them.
- **Socket identity.** The registry stores `EventTarget` references, because it only uses a socket's identity and its `dispatchEvent`. Each mock client owns a fresh `target`, which stands for the `EventTarget` it extends. Removal compares these references, so it is identity-precise.
- **Construction.** A Dafny constructor cannot throw, so `new WebSocket(url)` is `WebSocketOverride.Create`. It runs the checks of `CheckUrl` and returns a `Failure` before anything is registered. Only on success does it call the constructor, which registers the client and chooses the settle step.
- **URL parsing** is an input. `record: Option<UrlRecord>` gives the parsed `protocol`, `hash` and serialisation, and `None` means `new URL(url)` threw.
- **Deferred callbacks.** Each `setImmediate` callback is the value of the `pending` field. `RunPending` runs it, which is the scheduler's next turn.
- **Handler slots.** The four `on*` getter/setter pairs differ only in the event type. `Handler(kind)` is the getter and `AttachEventListener(kind, listener)` is the setter.

Behaviour of the code that the model keeps as written:

- **Link lookup uses the raw URL.** The constructor registers under the serialised URL (`WebSocketOverride.ts:64,70`) but looks the link up with the raw `url` (`WebSocketOverride.ts:74`).
- **An empty matching link counts as no link.** `find` returns the matching string and the test is `!link`, so a link equal to `""` is treated as missing (`IsLinked`).
- **Settle ignores the current state.** The settle callbacks never read `readyState` (`WebSocketOverride.ts:83-89, 94-102`). So `close()` before the settle step does not cancel it: a linked client goes from CLOSING back to OPEN, and an unlinked one gets a second close event (`Scenarios.CloseBeforeSettle`). A client following the WHATWG WebSockets Standard only moves its `readyState` forward and fires at most one close event; this code guarantees neither.
- **A failed `send` does not close the client.** `send` while CONNECTING unregisters the client but leaves it CONNECTING. A later `close()` is therefore not a no-op: it moves to CLOSING and dispatches a close event (`Scenarios.SendWhileConnectingThenClose`).
- **Code before state in `close`.** `close` checks the code before it looks at the state, so an invalid code fails even on a closed client.
- **The no-op state list.** The list is `[WebSocket.CLOSING, WebSocket, this.CLOSED]`. Its middle entry is a constructor and never equals a number, so the no-op states are exactly CLOSING and CLOSED.
- **The `!code` test is redundant.** In the close-code guard, the range test already rejects 0 (`ValidCloseCode`).

## Model

| member | source | states |
|---|---|---|
| `SocketStorage.FindLink` | src/ws/webSocketStorage.ts:33-35 | the lookup finds something iff `url` is among the links, and what it finds is `url` itself; an unknown URL yields none, never an error |
| `SocketStorage.Without` | src/ws/webSocketStorage.ts:22-31 | every surviving entry was registered and is not `(url, socket)`; every registered entry other than `(url, socket)` survives |
| `SocketStorage.SocketsFor` | src/ws/webSocketStorage.ts:37-41 | a socket is returned iff it is registered under `url`; no registration under `url` gives the empty sequence |
| `SocketStorage.WithoutAppend` | src/ws/webSocketStorage.ts:22-31 | the removal filter distributes over concatenation, so survivors keep their relative order |
| `SocketStorage.WithoutMultiset` | src/ws/webSocketStorage.ts:22-31 | removal drops every copy of `(url, socket)` and keeps the multiplicity of every other entry |
| `SocketStorage.WithoutAbsent` | src/ws/webSocketStorage.ts:22-31 | removing a pair that is not registered leaves the registrations unchanged |
| `SocketStorage.WithoutIdempotent` | src/ws/webSocketStorage.ts:22-31 | removing twice equals removing once |
| `SocketStorage.WithoutKeepsOtherUrls` | src/ws/webSocketStorage.ts:22-31 | after removal under `url`, the fan-out list of every other URL is unchanged, order included |
| `SocketStorage.ExceptAppend` | src/ws/webSocketStorage.ts:22-31 | taking one socket out of a fan-out list commutes with concatenation, so the remaining sockets keep their relative order |
| `SocketStorage.ExceptMultiset` | src/ws/webSocketStorage.ts:22-31 | taking one socket out of a fan-out list removes every occurrence of it and keeps every other socket's multiplicity |
| `SocketStorage.WithoutKeepsSiblings` | src/ws/webSocketStorage.ts:22-31 | after removal, the fan-out list of `url` is the old one with only `socket` taken out; sibling sockets stay, in order |
| `SocketStorage.SocketsForAppend` | src/ws/webSocketStorage.ts:18-20 | a new registration goes to the end of its URL's fan-out list and leaves other URLs' lists unchanged (insertion order) |
| `SocketStorage.WebSocketStorage.constructor` | src/ws/webSocketStorage.ts:10-12 | a new registry has no links and no registrations |
| `SocketStorage.WebSocketStorage.AddLink` | src/ws/webSocketStorage.ts:14-16 | appends the URL to the links, duplicates kept; the registrations are not touched |
| `SocketStorage.WebSocketStorage.AddSocket` | src/ws/webSocketStorage.ts:18-20 | the registrations become the old ones plus `(url, socket)` at the end; links not touched |
| `SocketStorage.WebSocketStorage.RemoveSocket` | src/ws/webSocketStorage.ts:22-31 | the registrations become the filter `Without` of the old ones; links not touched |
| `SocketStorage.WebSocketStorage.LookupLink` | src/ws/webSocketStorage.ts:33-35 | found iff some link equals `url` exactly, and the result is that link; reads nothing else |
| `SocketStorage.WebSocketStorage.LookupSockets` | src/ws/webSocketStorage.ts:37-41 | returns exactly the sockets registered under `url`, and the empty sequence when none (the order is fixed by `SocketsForAppend`) |
| `SocketStorage.WebSocketStorage.DispatchGlobalEvent` | src/ws/webSocketStorage.ts:43-56 | every socket in `LookupSockets(host)` receives the same single `MessageEventOverride(type, data)` once per registration; the ghost trace `delivered`, which records the socket passed to each `dispatchEvent` call as the call is made, ends equal to `LookupSockets(host)`; no other object changes, and links and registrations stay as they were |
| `SocketOverride.CheckUrl` | src/ws/WebSocketOverride.ts:48-64 | success iff the URL parses, its scheme is `ws:` or `wss:` and its fragment is empty, giving the serialised URL; otherwise the error of the first failed check, in source order |
| `SocketOverride.GetDataLength` | src/ws/WebSocketOverride.ts:200-212 | the length of a string, the size of a Blob, the `byteLength` of a buffer |
| `SocketOverride.ValidCloseCode` | src/ws/WebSocketOverride.ts:179-183 | a close code passes the guard iff it is 1000 or in `[3000, 5000)` |
| `SocketOverride.SwapSlot` | src/ws/WebSocketOverride.ts:30-43 | the new slot listener is present, the old one is gone unless reinstalled, listeners of other types and unrelated listeners of the same type survive, nothing else is added |
| `SocketOverride.WebSocketOverride.constructor` | src/ws/WebSocketOverride.ts:64-102 | a CONNECTING client with `bufferedAmount` 0, no handlers, empty `protocol`/`extensions`, appended to the registrations under its serialised URL whether or not a link exists; the pending settle step is chosen by looking up the raw URL |
| `SocketOverride.WebSocketOverride.Create` | src/ws/WebSocketOverride.ts:45-103 | fails exactly when `CheckUrl` fails, with its error and the registry untouched; otherwise returns a fresh registered CONNECTING client with empty `protocol` and `extensions`, no listeners, no slots and an empty event log |
| `SocketOverride.WebSocketOverride.RunPending` | src/ws/WebSocketOverride.ts:83-102 | without a link: CLOSED, unregistered, one close event with code 1000; with a link: OPEN, one open event, registry untouched; whatever the state before |
| `SocketOverride.WebSocketOverride.AttachEventListener` | src/ws/WebSocketOverride.ts:30-43 | the getter then returns the new value (or none), other slots keep theirs, and the listener set becomes `SwapSlot` of the old one |
| `SocketOverride.WebSocketOverride.Send` | src/ws/WebSocketOverride.ts:160-176 | CONNECTING: unregisters and fails with InvalidStateError, `bufferedAmount` unchanged; CLOSING/CLOSED: `bufferedAmount` grows by exactly the data length, nothing else changes; OPEN: nothing changes |
| `SocketOverride.WebSocketOverride.Close` | src/ws/WebSocketOverride.ts:178-197 | an invalid code (default 1000) fails with InvalidAccessError in every state and changes nothing; a valid one is a no-op in CLOSING/CLOSED, and otherwise sets CLOSING, unregisters and dispatches one close event with that code and reason |
| `Scenarios.CloseTwice` | src/ws/WebSocketOverride.ts:185-193 | two valid `close` calls dispatch at most one close event and unregister once |
| `Scenarios.SendWhileConnectingThenClose` | src/ws/WebSocketOverride.ts:160-164 | a failed `send` leaves the client CONNECTING, so a later `close()` still dispatches a close event; the second unregistration changes nothing |
| `Scenarios.SendAfterClose` | src/ws/WebSocketOverride.ts:166-170 | from any state, after `close` the client is CLOSING or CLOSED, `send` never fails and grows `bufferedAmount` by exactly the data length; a close event is dispatched only if the client was CONNECTING or OPEN |
| `SocketOverride.WebSocketOverride.Handler` | src/ws/WebSocketOverride.ts:125-155 | an `on*` getter returns a listener exactly when one was assigned to that slot, and then the one assigned last |
| `SocketOverride.IsLinked` | src/ws/WebSocketOverride.ts:76 | a lookup result counts as a link only when a link was found and it is non-empty; an empty-string link is treated as missing |
| `Scenarios.CloseBeforeSettle` | src/ws/WebSocketOverride.ts:83-102 | settle after an early `close` reopens a linked client (CLOSING to OPEN) and gives an unlinked client a second close event |
| `Scenarios.ReassignHandler` | src/ws/WebSocketOverride.ts:125-155 | assigning an `on*` property twice leaves only the second listener installed through it, and unrelated listeners stay |
| `Scenarios.ConstructTwo` | src/ws/WebSocketOverride.ts:70 | two clients for one URL are appended to its fan-out list in construction order |
| `Scenarios.DispatchToPair` | src/ws/webSocketStorage.ts:50-55 | two distinct sockets each registered once under a URL each receive exactly one copy of the dispatched message |
| `Scenarios.TwoClientsShareDispatch` | src/ws/webSocketStorage.ts:50-55 | one dispatch delivers the same message exactly once to each of two clients of the same URL |

## Left out

- `src/ws/ws.ts` (`ws.link` and the `BroadcastChannel` relay) is not part of this model. Its local logic is `AddLink` followed by `DispatchGlobalEvent`, which are modelled; the channel is cross-context I/O.
- `src/ws/ws-env.ts` is not part of this model. It patches the global constructor and sets the `__mswPatch` flag, which is ambient global state with no logic.
- `setImmediate` scheduling is not modelled as concurrency. The pending callback is a field, and `RunPending` is the scheduler's next turn.
- WHATWG URL parsing and serialisation are inputs (`UrlRecord`), not modelled.
- Listener callbacks are never invoked. Dispatch appends the event to the target's log. So a listener that calls `close` during a dispatch, and the registry snapshot that protects such a dispatch, are not modelled.
- DispatchGlobalEvent: the per-socket `dispatched` logs cannot observe the order across sockets, because listeners are not invoked and so delivery order has no effect on the model's state. The order appears only in the ghost `delivered` out-parameter, which a compiled caller cannot read.
- `src/ws/utils/createCloseEvent.ts` is not part of this model. The close event is `CloseEvent(code, reason)`, and its type is taken to be `close` in both call sites; `wasClean` is not modelled.
- The `console.error` diagnostic on the no-link path is left out, because it is logging only.
- The `protocols` constructor argument and the `binaryType` field are left out, because the code never reads them.
- The OPEN branch of `send` is an unimplemented placeholder in the source. It is modelled as a no-op.
- `Blob`, `ArrayBuffer` and the message payload are abstracted. A Blob or buffer is reduced to its length, and the payload is a string.
- GetDataLength: counts a string's length in Dafny characters (Unicode scalar values). JavaScript counts UTF-16 code units, so a character outside the Basic Multilingual Plane counts 2 in the source and 1 here.
- Close: takes the close code as an integer. Fractional codes and `NaN`, which JavaScript's comparisons would also handle, are not modelled.
