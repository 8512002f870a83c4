# ChatWebSocket connection manager and payload classifier, in Dafny

This project models the client-side chat connection of a small web chat
application and proves properties of the model.

- `ChatWebSocket` (src/utils/websocket.js) owns one WebSocket for a room and a user. Its fields are the socket handle, `isConnected` and `reconnectAttempts`, plus five single-slot callbacks. The transport's open, message, close and error events change these fields. An unclean close schedules a reconnect after a backoff of 1 s, 2 s, 4 s, 8 s and 16 s, with at most five attempts before an open resets the count.
- `sendMessage` wraps trimmed text in a fixed envelope and sends it.
- `disconnect` closes the socket with code 1000.
- `validateMessage` and `validateUserNotification` check inbound shapes.
- `validateNotificationFormat` (src/utils/chatTestUtils.js) classifies a payload as `USER_EVENT`, `TEXT` or `UNKNOWN` by JavaScript truthiness. The `simulate*` builders produce payloads for it.

Files and modules:

- `js.dfy`, module `Js`: the JavaScript value semantics the code relies on. This covers values, truthiness, the value-returning `&&`/`||`, property lookup, `every` with `hasOwnProperty`, and `String.prototype.trim`.
- `protocol.dfy`, module `Protocol`: the two validators (their verdict and the call that may throw), the outbound envelope and the backoff delay.
- `connection_spec.dfy`, module `ConnectionSpec`: the connection state as a value (`Conn`), one `Step` per event, runs of events, the reachable-state invariant `Inv`, and the lemmas about single steps and whole runs.
- `chat_websocket.dfy`, module `ChatSocket`: the class `ChatWebSocket` with the source's fields. Each transport handler, `Connect`, `FireTimer`, `SendMessage`, `Disconnect` and the five setters is proved to change the object exactly as `Step` says and to keep `Inv`; `ScheduleReconnect` is proved to follow `ScheduleStep` and to keep `Inv`, and `Fire` to append exactly the call `Invoke` gives.
- `chat_test_utils.dfy`, module `ChatTestUtils`: the classifier and the builders.

How the environment is represented:

- The transport is a set of event methods (`OnOpen`, `OnMessage`, `OnClose`, `OnError`). Each one names the socket the event comes from, but the handlers ignore it, because in the source they are closures over the one object.
- `new WebSocket` and `send` throwing are boolean parameters.
- Pending `setTimeout`s are a sequence of delays, and `FireTimer(i)` fires any one of them.
- Sent frames, `close` calls and callback invocations are logs, so their order can be stated.
- `JSON.parse` is an `Option` result handed to `OnMessage`. The send time is an opaque string.

Behaviour of the code that the model keeps as written:

- There is no separate "connecting" state.
- The error handler clears `isConnected` and reports `false`.
- `disconnect` does not cancel pending reconnect timers (`DisconnectKeepsPendingReconnect`).
- Events from a superseded socket are not ignored (`StaleCloseAfterDisconnectReconnects`).
- `onMessage` receives the parsed value unclassified.
- The validators call `hasOwnProperty` on the value itself, so an object with an own property of that name makes them throw (`CallValidateMessage`, `CallValidateUserNotification`).
- A failed `new WebSocket` is never retried, and it leaves the previous socket handle in place.
- The classifier's text shape asks for `moment`, while `validateMessage` asks for the older `timestamp`/`room_address`/`type` fields. Both are kept as written (`OutboundEnvelopeIsUnknown`, `SimulateTextMessage`).

## Model

| member | source | states |
|---|---|---|
| `Js.And` | src/utils/chatTestUtils.js:95-99 | `a && b` is truthy iff both operands are; a falsy left operand is the result itself |
| `Js.Or` | src/utils/chatTestUtils.js:102 | `a \|\| b` is truthy iff either operand is; a truthy left operand is the result itself |
| `Js.HasAllOwn` | src/utils/websocket.js:237 | `keys.every(hasOwnProperty)` holds iff every listed key is an own property |
| `Js.TrimStart` | src/utils/websocket.js:126 | the result is the suffix of the input after a run of white space, and does not start with white space |
| `Js.TrimEnd` | src/utils/websocket.js:126 | the result is the prefix of the input before a run of white space, and does not end with white space |
| `Js.Trim` | src/utils/websocket.js:126 | `trim()` keeps the contiguous piece of the input that starts where the leading white space ends, everything after that piece is white space, and neither end of the result is white space |
| `Js.TrimDropsTrailingSpace` | src/utils/websocket.js:126 | everything after the piece that `TrimEnd` keeps of `TrimStart`'s result is white space |
| `Js.TrimIdempotent` | src/utils/websocket.js:126 | trimming an already trimmed message changes nothing |
| `Js.TrimKeepsTrimmed` | src/utils/websocket.js:126 | a message without surrounding white space is sent unchanged |
| `Js.TrimAllSpace` | src/utils/websocket.js:126 | a message of only white space is sent as the empty string |
| `Protocol.ValidateMessage` | src/utils/websocket.js:231-238 | the verdict of a call that returns: false for falsy values and non-objects; true exactly when `message`, `sender`, `timestamp`, `room_address` and `type` are all own properties, whatever their values |
| `Protocol.CallValidateMessage` | src/utils/websocket.js:231-238 | the call throws exactly for an object with an own `hasOwnProperty` property (it shadows the inherited method); otherwise it returns the verdict of `ValidateMessage` |
| `Protocol.ValidateUserNotification` | src/utils/websocket.js:243-254 | the verdict of a call that returns: true exactly for an object with own `user` and `event`, `event` one of `CONNECTED`/`DISCONNECTED`, and a numeric `user` |
| `Protocol.CallValidateUserNotification` | src/utils/websocket.js:243-254 | the call throws exactly for an object with an own `hasOwnProperty` property, before `event` or `user` is read; otherwise it returns the verdict of `ValidateUserNotification` |
| `Protocol.Envelope` | src/utils/websocket.js:125-131 | the envelope has exactly the five fields, passes `validateMessage` without throwing, carries the trimmed text, the object's user and room, the send time and type `TEXT` |
| `Protocol.Pow2` | src/utils/websocket.js:105 | `Math.pow(2, n)` is at least 1 and even for `n >= 1` |
| `Protocol.Backoff` | src/utils/websocket.js:105 | a reconnect delay is never below the 1000 ms base |
| `Protocol.BackoffDoubles` | src/utils/websocket.js:105 | each attempt's delay is twice the previous one's |
| `Protocol.BackoffMonotone` | src/utils/websocket.js:105 | later attempts never wait less |
| `Protocol.BackoffSchedule` | src/utils/websocket.js:103-105 | attempts 1..5 wait 1000, 2000, 4000, 8000, 16000 ms |
| `Protocol.BackoffBounded` | src/utils/websocket.js:11-13 | every delay within the five-attempt budget is between 1000 and 16000 ms |
| `ConnectionSpec.InitInv` | src/utils/websocket.js:6-21 | a new object satisfies the invariant |
| `ConnectionSpec.StepPreservesInv` | src/utils/websocket.js:26-151 | every event and call keeps attempts within 0..5, pending delays among the backoff delays, socket ids allocated, sent frames valid envelopes and close codes 1000 |
| `ConnectionSpec.ScheduleKeepsInv` | src/utils/websocket.js:103-107 | scheduling a reconnect below the budget keeps the attempt bound and adds only a backoff delay |
| `ConnectionSpec.RunPreservesInv` | src/utils/websocket.js:26-151 | the invariant holds after any sequence of events |
| `ConnectionSpec.ReachableInv` | src/utils/websocket.js:11-12 | `0 <= reconnectAttempts <= 5` (and the rest of the invariant) in every state reachable from construction |
| `ConnectionSpec.OpenConnects` | src/utils/websocket.js:32-44 | an open event sets connected, resets attempts to 0, and calls `onOpen` before `onConnectionChange(true)`; timers and socket unchanged |
| `ConnectionSpec.CloseDisconnects` | src/utils/websocket.js:59-75 | a close clears connected, calls `onClose` then `onConnectionChange(false)`, and schedules the next backoff delay iff it was unclean with attempts below 5 |
| `ConnectionSpec.ErrorDisconnects` | src/utils/websocket.js:77-88 | an error clears connected, calls `onError` then `onConnectionChange(false)`, and schedules nothing |
| `ConnectionSpec.ScheduleOnlyOnUncleanClose` | src/utils/websocket.js:72-74 | a timer is added exactly by an unclean close under budget, with delay `Backoff(attempts + 1)` and attempts up by one; no other step adds a timer or changes attempts except open |
| `ConnectionSpec.RetryBudget` | src/utils/websocket.js:103-104 | in a run without an open event, attempts grow by exactly the number of reconnects scheduled, which is at most `5 - attempts` |
| `ConnectionSpec.ExhaustedBudget` | src/utils/websocket.js:72 | with five attempts used, an unclean close schedules nothing |
| `ConnectionSpec.UncleanClosesRun` | src/utils/websocket.js:59-75 | `n` unclean closes schedule the backoff delays of the next attempts up to the fifth, and attempts end at `min(5, attempts + n)` |
| `ConnectionSpec.RetryRound` | src/utils/websocket.js:59-114 | one round of the retry loop: the current socket's unclean close schedules the next attempt's backoff delay, and that timer, firing while disconnected, opens the next socket, with one more attempt spent and no timer left |
| `ConnectionSpec.RetryRoundsRun` | src/utils/websocket.js:59-114 | `n` rounds within the budget spend `n` attempts, leave no timer pending and end on the socket `n` places further on, disconnected |
| `ConnectionSpec.RetryLoopGivesUp` | src/utils/websocket.js:32-114 | after the first socket opens, five close-and-reconnect rounds spend the budget and leave the sixth socket current; its unclean close schedules nothing |
| `ConnectionSpec.ConnectCreatesSocket` | src/utils/websocket.js:26-30 | a `connect()` whose constructor succeeds makes the new socket current, counts it as created, leaves connected, attempts and timers as they were, and calls no callback |
| `ConnectionSpec.UncleanCloseCounters` | src/utils/websocket.js:59-75 | one unclean close spends one attempt and adds its backoff delay while attempts are below 5, and changes neither once they reach 5 |
| `ConnectionSpec.OpenFailureNoRetry` | src/utils/websocket.js:90-97 | a throwing socket constructor clears connected, reports `false`, keeps the old socket and schedules no retry |
| `ConnectionSpec.TimerChecksConnected` | src/utils/websocket.js:109-113 | a firing timer calls `connect` iff not connected; otherwise it only stops being pending |
| `ConnectionSpec.SendEffect` | src/utils/websocket.js:119-139 | a successful send appends exactly one frame with the trimmed text, user, room and type `TEXT` on the current socket and changes nothing else; a failed send changes nothing |
| `ConnectionSpec.SendNeedsConnection` | src/utils/websocket.js:120-123 | sending while disconnected or without a socket changes nothing |
| `ConnectionSpec.DisconnectEffect` | src/utils/websocket.js:145-151 | disconnect drops the socket, closing it with 1000 if present, clears connected, leaves attempts and timers alone, and is idempotent |
| `ConnectionSpec.DisconnectKeepsPendingReconnect` | src/utils/websocket.js:109-113 | a reconnect timer pending at disconnect still opens a new socket when it fires |
| `ConnectionSpec.StaleCloseAfterDisconnectReconnects` | src/utils/websocket.js:59-74 | an unclean close from a socket already let go of by disconnect still schedules a reconnect that opens a new socket |
| `ConnectionSpec.LastRegistrationWins` | src/utils/websocket.js:163-193 | registering a callback twice in a slot leaves only the second |
| `ChatSocket.ChatWebSocket.constructor` | src/utils/websocket.js:6-21 | no socket, not connected, zero attempts, budget 5, base delay 1000, all callbacks empty |
| `ChatSocket.ChatWebSocket.Fire` | src/utils/websocket.js:37-43 | appends one call for a set slot, nothing for an empty one |
| `ChatSocket.ChatWebSocket.Connect` | src/utils/websocket.js:26-98 | follows `Step(Connect)` and keeps the invariant |
| `ChatSocket.ChatWebSocket.OnOpen` | src/utils/websocket.js:32-44 | follows `Step(Open)`; afterwards connected with zero attempts |
| `ChatSocket.ChatWebSocket.OnMessage` | src/utils/websocket.js:46-57 | follows `Step(Message)`: a parsed payload goes to `onMessage`, a parse failure changes nothing |
| `ChatSocket.ChatWebSocket.OnClose` | src/utils/websocket.js:59-75 | follows `Step(Close)`; afterwards not connected |
| `ChatSocket.ChatWebSocket.OnError` | src/utils/websocket.js:77-88 | follows `Step(Error)`; afterwards not connected |
| `ChatSocket.ChatWebSocket.ScheduleReconnect` | src/utils/websocket.js:103-114 | the new state is `ScheduleStep` of the old one (attempts up by exactly one, one timer with delay `1000 * 2^(attempts-1)` added) and the invariant is kept |
| `ChatSocket.ChatWebSocket.FireTimer` | src/utils/websocket.js:109-113 | follows `Step(TimerFires)` and keeps the invariant |
| `ChatSocket.ChatWebSocket.SendMessage` | src/utils/websocket.js:119-140 | returns true iff connected with a socket and `send` does not throw; follows `Step(SendText)` |
| `ChatSocket.ChatWebSocket.Disconnect` | src/utils/websocket.js:145-151 | follows `Step(Disconnect)`; afterwards no socket and not connected |
| `ChatSocket.ChatWebSocket.GetConnectionStatus` | src/utils/websocket.js:156-158 | returns `isConnected` |
| `ChatSocket.ChatWebSocket.SetOnOpen` | src/utils/websocket.js:163-165 | replaces the `onOpen` slot, nothing else |
| `ChatSocket.ChatWebSocket.SetOnMessage` | src/utils/websocket.js:170-172 | replaces the `onMessage` slot, nothing else |
| `ChatSocket.ChatWebSocket.SetOnClose` | src/utils/websocket.js:177-179 | replaces the `onClose` slot, nothing else |
| `ChatSocket.ChatWebSocket.SetOnError` | src/utils/websocket.js:184-186 | replaces the `onError` slot, nothing else |
| `ChatSocket.ChatWebSocket.SetOnConnectionChange` | src/utils/websocket.js:191-193 | replaces the `onConnectionChange` slot, nothing else |
| `ChatTestUtils.IsUserEvent` | src/utils/chatTestUtils.js:95-96 | truthy iff `user` is truthy and `event` is `CONNECTED` or `DISCONNECTED` (so `user: 0` or another event fails); when truthy it is `true` |
| `ChatTestUtils.IsTextMessage` | src/utils/chatTestUtils.js:98-99 | truthy iff `sender` is a nonzero number and `message` and `moment` are truthy (so `sender: 0`, a string sender or an empty message fail); when truthy it is `true` |
| `ChatTestUtils.ValidateNotificationFormat` | src/utils/chatTestUtils.js:94-110 | `isValid` equals `hasRequiredFields` and is truthy iff either flag is; `USER_EVENT` iff user event, `TEXT` iff text and not user event, `UNKNOWN` iff `isValid` is falsy |
| `ChatTestUtils.NeitherShapeIsUnknown` | src/utils/chatTestUtils.js:94-110 | a payload with neither a `user` nor a `moment` field is classified `UNKNOWN` |
| `ChatTestUtils.SimulateUserConnected` | src/utils/chatTestUtils.js:9-14 | exactly `{user, event: "CONNECTED"}`; `validateUserNotification` accepts it iff the id is a number; it classifies as a user event iff the id is truthy |
| `ChatTestUtils.SimulateUserDisconnected` | src/utils/chatTestUtils.js:19-24 | exactly `{user, event: "DISCONNECTED"}`, which is the connected notification for the same id with only `event` changed; same acceptance as the connected builder |
| `ChatTestUtils.SimulateTextMessage` | src/utils/chatTestUtils.js:29-35 | exactly `sender`, `message`, `moment`; classifies as `TEXT` iff nonzero numeric sender, truthy message, nonempty moment; never passes `validateMessage` |
| `ChatTestUtils.UserBuildersClassify` | test-new-format.js:20-29 | for a nonzero id both notifications are `{isValid: true, type: USER_EVENT}` and pass `validateUserNotification` without throwing |
| `ChatTestUtils.TextBuilderClassifies` | test-new-format.js:13-15 | a nonempty text from a nonzero numeric sender with a moment is `{isValid: true, type: TEXT}` |
| `ChatTestUtils.ZeroUserDisagreement` | src/utils/chatTestUtils.js:95-96 | user id 0 passes `validateUserNotification` but the classifier reports `UNKNOWN` with `isValid` undefined |
| `ChatTestUtils.UserEventTakesPrecedence` | src/utils/chatTestUtils.js:103 | a payload with both shapes is `USER_EVENT` |
| `ChatTestUtils.OutboundEnvelopeIsUnknown` | test-new-format.js:63-68 | the envelope `sendMessage` sends passes `validateMessage` but classifies as `UNKNOWN` (no `moment`) |
| `ChatTestUtils.DemonstrationPayloads` | test-new-format.js:13-29 | the demonstration's text message and two notifications classify as `TEXT`, `USER_EVENT`, `USER_EVENT` |

## Left out

- `formatMessageTimestamp` (src/utils/websocket.js:206-226): date arithmetic, floating point and locale formatting.
- `createChatWebSocket` (src/utils/websocket.js:199-201): it only calls the constructor, which is modelled.
- The socket URL built in `connect`: it is only passed to the transport, which is abstract here.
- Console logging, real time and the order in which timers expire. Any pending timer may fire next.
- `JSON.parse`, `JSON.stringify` and `new Date().toISOString()`. A parse result is an `Option` parameter, a send failure is a boolean, and the send time is an opaque string.
- JavaScript numbers are integers here: NaN, infinities and fractions are not modelled.
- Functions, arrays and inherited properties are not modelled as values. Every object is taken to inherit `hasOwnProperty`; an own property of that name is modelled only as making the validators throw. `typeof` is modelled only for the cases used.
- Callbacks are identifiers. They are assumed not to throw and not to call back into the object. A truthy slot that is not a function, which would throw when called, is not modelled.
- Whether a close is clean is decided by the transport: `OnClose` takes `wasClean` as given, including after `disconnect`'s `close(1000)`.
- `ChatSocket.ChatWebSocket.ScheduleReconnect`: requires `reconnectAttempts < 5` and the invariant, because its only caller checks the budget and the handlers keep the invariant. A direct external call at 5 would push the counter to 6.
- `ChatSocket.ChatWebSocket.SendMessage`: takes the message as a string. A non-string message makes `trim()` throw before the `try`, and that is not modelled.
- `ChatTestUtils.ValidateNotificationFormat`: takes an object. Called with `null` or `undefined` it would throw, and that is not modelled.
- The budget (5) and base delay (1000) are constants. The source's fields could be reassigned from outside the class.
- Random default arguments of the builders (`Math.random`): ids and texts are explicit arguments.
- `simulateEventSequence`, `testChatNotifications`, `generateTestUsers`, `simulateRealisticChatActivity` and the `window` exposure (src/utils/chatTestUtils.js:40-89, 112-203): timer-driven or random development helpers with no logic checked here.
- src/utils/navigation.js: a one-line browser history helper.
