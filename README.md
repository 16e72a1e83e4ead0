# openim-web client core, modelled in Dafny

This project models the parts of the openim-web chat widget that hold real
logic:

- the shared connection wrapper `WebSocketService` (`src/services/websocket.ts`);
- the structural copy `deepClone` (`src/utils/deepClone.ts`);
- the chat timestamp label `formatChatTime` (`src/utils/time.ts`);
- the signed-in user store (`src/stores/user.ts`).

Files:

- `wrappers.dfy` (module `Wrappers`): `Option`, used for the optional fields of TypeScript records.
- `deep_clone.dfy` (module `DeepClone`):
  - `Json` is the JSON-like value type.
  - `Clone` is the recursive specification of `deepClone`.
  - `DeepClone` is the method as written: an early return for primitives, a recursive copy of each array element (the `map`), and a loop over an object's own keys that fills the result dictionary key by key.
  - The lemmas prove that the copy has the same shape as the input and is equal to it, and that copying twice gives the same result as copying once.
- `time.dfy` (module `ChatTime`):
  - `FormatChatTime` takes the two millisecond instants and the local calendar fields of both dates as inputs.
  - `NatToString` renders an integer in decimal, `Pad` pads it to two digits, and `DigitsValue` is the independent reading used to prove that each label reads back as the numbers it was built from.
- `user_store.dfy` (module `User`):
  - The class `UserStore` holds the four fields, which its methods update in place.
  - `Merge` is the pure specification of `setUserInfo`. The lemmas prove that an update never empties a field, that repeating an update changes nothing more, what the sample login sets, and that `userInfo` never shows the token.
- `websocket.dfy` (module `WebSocket`):
  - The class `WebSocketService` has the nullable socket `ws`, the two append-only handler lists, and two logs:
    - `calls`: every `connect`, `send`, `subscribe`, `unsubscribe` and `disconnect` call the service makes on a socket;
    - `delivered`: every handler run.
  - `Valid()` is the object invariant: every method of `WebSocketService` requires it and ensures it again. It says that the current socket is the newest one and has not been disconnected, and that no call ever goes to a socket after its `disconnect`.
  - `ServiceSingleton` stands for the static `instance` field behind `getInstance`.
  - Two client methods, `DispatchOrder` and `FailedConnectStillSends`, show what callers can derive from these contracts.

Points where the code's behaviour is easy to misread:

- The guard on sends is `ws` being non-null, not the connection being up. `connect` stores the new socket before it awaits the handshake, and a failed handshake rethrows without clearing it. After a failed `connect`, `send`, `sendService`, `subscribe` and `unsubscribe` therefore all reach the library until `disconnect` (`FailedConnectStillSends`).
- The open handlers run on every `connected` event the library emits. Nothing in the service limits them to one run per connection.
- A second `connect` replaces `ws` without disconnecting the previous socket.

## Model

| member | source | states |
|---|---|---|
| `DeepClone.Clone` | src/utils/deepClone.ts:1-13 | A primitive or null comes back unchanged. An array comes back as an array of the same length. An object comes back with exactly the same own keys. |
| `DeepClone.CloneArrayElements` | src/utils/deepClone.ts:3-5 | Element i of a copied array is the copy of element i. |
| `DeepClone.CloneObjectMembers` | src/utils/deepClone.ts:6-11 | A copied object has exactly the input's own keys, and each value is the copy of the input's value. |
| `DeepClone.CloneIsIdentity` | src/utils/deepClone.ts:1-13 | On finite acyclic values the copy is structurally equal to the input. The proof is by induction on strict subterms, which are the same terms the recursion descends into. |
| `DeepClone.CloneIdempotent` | src/utils/deepClone.ts:1-13 | Copying a copy gives the same value as copying once. |
| `DeepClone.DeepClone` | src/utils/deepClone.ts:1-13 | The implementation computes exactly `Clone(obj)`, which equals `obj`. It returns primitives early, copies each array element by a recursive call, and copies each object member by a recursive call in a loop over the keys. |
| `ChatTime.NatToStringRoundTrip` | src/utils/time.ts:9 | `n.toString()` is a non-empty string of decimal digits with no leading zero from 10 on, and it reads back as `n`. |
| `ChatTime.NatToStringLength` | src/utils/time.ts:18 | The rendering has one digit below 10 and two digits from 10 to 99. |
| `ChatTime.PadStart` | src/utils/time.ts:18 | `padStart` returns a string of length `max(|s|, width)`, and returns `s` itself when `s` is already wide enough. |
| `ChatTime.PadStartContents` | src/utils/time.ts:18 | A padded result is `fill` repeated up to the missing width, followed by `s` itself. |
| `ChatTime.PadProperties` | src/utils/time.ts:18 | `pad(n)` is all digits and reads back as `n`. It has exactly two characters for n ≤ 99, is `'0'` followed by the digit for n < 10, and is the plain rendering for n ≥ 10. |
| `ChatTime.DiffMinutes` | src/utils/time.ts:4-5 | The minute count is the floor of the millisecond difference over 60000: `d*60000 ≤ now − date < (d+1)*60000`. |
| `ChatTime.JustNowExactly` | src/utils/time.ts:8-10 | The label is "刚刚" if and only if the minute difference is ≤ 0. Every future instant is therefore "刚刚". |
| `ChatTime.MinutesAgoLabel` | src/utils/time.ts:8-10 | For 1–59 minutes, the label is the unpadded decimal rendering of the minute count followed by "分钟前": one or two digits, no leading zero, reading back as the count. |
| `ChatTime.ClockTextProperties` | src/utils/time.ts:18-19 | `HH:MM` of a valid clock has five characters with ':' at index 2, and its two halves read back as the hours and the minutes. |
| `ChatTime.TodayLabel` | src/utils/time.ts:13-23 | An hour or more ago on the same year, month and day, the label is exactly `pad(hours) + ':' + pad(minutes)`: five characters, ':' at index 2, and two all-digit halves that read back as the hours and the minutes. |
| `ChatTime.DateTextProperties` | src/utils/time.ts:26 | `MM-DD HH:MM` has eleven characters with '-', ' ' and ':' at indexes 2, 5 and 8. Its four fields read back as the 1-based month, the day, the hours and the minutes. |
| `ChatTime.EarlierDayLabel` | src/utils/time.ts:12-26 | An hour or more ago on another day, the label is exactly `MM-DD HH:MM` built from the padded fields. It has eleven characters, four all-digit fields that read back as the 1-based month, the day, the hours and the minutes, and '-', ' ' and ':' between them. |
| `ChatTime.YearNotShown` | src/utils/time.ts:13-26 | Changing either year leaves the label the same as long as the same-day test gives the same answer, so the year never appears in the label. |
| `User.MergeFieldwise` | src/stores/user.ts:26-31 | Each of id, name, avatar and token takes the partial's value exactly when that value is present and non-empty, and keeps its old value otherwise. |
| `User.MergeNeverEmpties` | src/stores/user.ts:26-31 | After `setUserInfo` a field is empty only if it was empty before, and a logged-in store stays logged in. |
| `User.MergeIdempotent` | src/stores/user.ts:26-31 | Applying the same partial update twice gives the same result as applying it once. |
| `User.MergeFalsyIsNoOp` | src/stores/user.ts:26-31 | A partial update whose fields are all missing or empty changes nothing. |
| `User.LoginEffect` | src/stores/user.ts:40-50 | The sample login logs the user in. It sets id '1', the fixed avatar URL and token 'sample-token'. The name becomes `username` only when `username` is non-empty. |
| `User.InfoHidesToken` | src/stores/user.ts:20-24 | The `userInfo` view does not depend on the token. |
| `User.UserStore.constructor` | src/stores/user.ts:14-17 | All four fields start as '', and the store is not logged in. |
| `User.UserStore.IsLoggedIn` | src/stores/user.ts:19 | `isLoggedIn` holds exactly when the token is non-empty. |
| `User.UserStore.UserInfo` | src/stores/user.ts:20-24 | `userInfo` is the id, name and avatar of the current state. |
| `User.UserStore.SetUserInfo` | src/stores/user.ts:26-31 | The new state is `Merge(old state, p)`. |
| `User.UserStore.ClearUserInfo` | src/stores/user.ts:33-38 | All four fields become '', and the store is not logged in. |
| `User.UserStore.Login` | src/stores/user.ts:40-50 | Returns the literal record holding `username`. Applies it as a partial update, which leaves the store logged in with the sample id, avatar and token. Keeps the old name when `username` is empty. |
| `User.UserStore.Logout` | src/stores/user.ts:52-54 | Leads to the same cleared, logged-out state as `clearUserInfo`. |
| `WebSocket.FanOutInOrder` | src/services/websocket.ts:31-46 | Fan-out produces one invocation per registered handler, in registration order, each with the same payload. |
| `WebSocket.WebSocketService.constructor` | src/services/websocket.ts:8-12 | Starts with no socket, no handlers and empty logs, and satisfies the invariant. |
| `WebSocket.ServiceSingleton.GetInstance` | src/services/websocket.ts:14-19 | The first call creates a fresh service with no socket and no handlers. Every later call returns that same object. The returned service always satisfies its invariant, so a caller can use every operation on it. |
| `WebSocket.WebSocketService.Connect` | src/services/websocket.ts:21-95 | Stores a new socket with the given url, headers and options 3000 and 5, and requests one handshake on it. Whatever the handshake's outcome, `ws` stays set, and the outcome is returned. The handler lists are unchanged. |
| `WebSocket.WebSocketService.Subscribe` | src/services/websocket.ts:97-101 | With a socket, makes exactly one subscribe call on it. Without one, nothing changes. |
| `WebSocket.WebSocketService.Unsubscribe` | src/services/websocket.ts:102-106 | With a socket, makes exactly one unsubscribe call on it. Without one, nothing changes. |
| `WebSocket.WebSocketService.Send` | src/services/websocket.ts:108-114 | With a socket, transmits the envelope unchanged, exactly once. Without one, nothing changes. |
| `WebSocket.WebSocketService.SendService` | src/services/websocket.ts:115-121 | With a socket, transmits exactly one envelope `{type: 'service', service: api, data, client_time: now}`. Without one, nothing changes. |
| `WebSocket.WebSocketService.Open` | src/services/websocket.ts:123-125 | Appends the handler to the end of the open handlers. The message handlers, `ws` and the calls are unchanged. |
| `WebSocket.WebSocketService.OnMessage` | src/services/websocket.ts:127-129 | Appends the handler to the end of the message handlers. The open handlers, `ws` and the calls are unchanged. |
| `WebSocket.WebSocketService.Disconnect` | src/services/websocket.ts:131-136 | Leaves `ws` null. With a socket, makes exactly one disconnect call on it. Without one it is a no-op, so a second call changes nothing. |
| `WebSocket.WebSocketService.Notify` | src/services/websocket.ts:33 | The `forEach` loop appends `FanOut(handlers, data)` to the delivered log. |
| `WebSocket.WebSocketService.HandleEvent` | src/services/websocket.ts:30-73 | Once `connect` has created a socket, `message` and `service_response` reach every message handler, and `connected` reaches every open handler, in registration order. Every other event delivers nothing. Socket, calls and handler lists are unchanged. |

No operation removes a handler, so both handler lists only grow. Each
operation either leaves a list unchanged or appends one element to it.

## Left out

- `src/stores/message.ts`: every function in it has an empty body, so there is no behaviour to model.
- The `OpenIMWebSocket` library is foreign code. It is replaced by the `calls` log, so its handshake, framing, reconnection policy and event timing are not modelled. `reconnectInterval: 3000` and `maxReconnectAttempts: 5` are only recorded on the socket.
- Handler bodies: handlers are identifiers, and running one is only recorded. No handler calls back into the service while a dispatch is in progress.
- `WebSocket.WebSocketService.Notify`: a handler that throws is not modelled. In the source, an exception from a handler ends the `forEach`, and the handlers registered after it do not run for that event. `Notify` always delivers to every handler.
- `connect` is async. The model runs it as one step with the handshake outcome as a parameter, and does not model an exception thrown by the library's constructor.
- The eight `on(…)` registrations in `connect` are not logged; `HandleEvent` stands for the callbacks they install, and requires that `connect` has created at least one socket.
- Events from a socket abandoned by a second `connect` reach the handlers as well. `HandleEvent` is not tied to any particular socket.
- `VxeUI.modal` status popups and console logging are user interface and I/O.
- `dayjs().valueOf()` is the clock. `sendService` takes the clock reading as its parameter `now`.
- The module-level `wsService` export exists only to call `getInstance` once when the program starts.
- `Date` parsing of `timeStr`, the local time zone and NaN for invalid strings are host behaviour. The instants and calendar fields are inputs, and the model does not check that they agree with each other.
- `NatToString` renders non-negative integers only. That covers every value `formatChatTime` prints: a positive minute count and calendar fields.
- `DeepClone.DeepClone`: the model works on values, so the copy's separation from the input is not expressed. In the source, the copy is a new array or object that shares nothing with the input.
- `DeepClone.Json`:
  - Objects are maps, so the key order of a JavaScript object is not modelled.
  - Numbers are integers: no floating point and no NaN.
  - Values outside JSON are not modelled: `undefined`, functions, `Date` and class instances, sparse arrays and cyclic graphs. On a cyclic graph the source recurses without end.
  - An own key named `__proto__` is not modelled. The source assigns it with `result[key] = …`, which runs `Object.prototype`'s `__proto__` setter instead of creating an own property. The copy then lacks that key and has the copied value as its prototype, or drops a primitive value silently. `CloneObjectMembers` and `CloneIsIdentity` state "exactly the input's own keys" and "equal to the input" only for objects without that key.
- `login` and `logout` are async but do no awaiting, so they are modelled as synchronous. The password is ignored, as in the source.
- Pinia persistence (`persist: true`) is done by a plugin.
- The rest of the repository takes no part in this model: the keyboard directive, the theme and settings stores, the i18n and dayjs plugins, the build configuration, the application wiring and the type declarations.
