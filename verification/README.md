# Web keyboard connection hub, modelled in Dafny

The web keyboard lets a browser act as a remote numeric keypad. Key presses
travel over a WebSocket to a Go server, and the server injects them as
keystrokes on the host. This project models two parts of that server:

- the connection hub of `server/websocket.go`;
- the key-name mapping and operating-system dispatch of `input/simulator.go`.

The hub's event loop (`Run`) handles `register`, `unregister` and
`broadcast` events one at a time, and `Shutdown` adds a fourth transition.
Here each of them is a pure function on a hub state:

- `records`: every connection record ever registered. A record holds its
  buffered outbound queue (capacity 256), whether that channel is open, and
  whether its transport has been closed.
- `members`: the key set of the Go code's `connections` map.

Go panics when code sends on, or closes, a channel that is already closed.
Such a step yields `Panic` here. The main theorem (`HubRun.RunKeepsValid`)
is that from a valid state no admissible sequence of events ever panics.
So no queue is ever closed twice. The invariant behind it (`Hub.Valid`) is:

- a record's queue is open exactly while the record is a member;
- no queue holds more than 256 payloads.

The goroutines appear only as the source of the event sequence. The write
pump's receive from a queue is one more event (`Receive`), so queues can
drain between hub events. `getExistingConnection` returns an arbitrary
member because Go's map order is unspecified. That member is therefore a
parameter of `Register`, and its `requires` asks only that it be a member.

Modules:

- `Payloads`: the server's JSON payloads as a datatype.
- `Connections`: the connection record.
- `Hub`: the four transitions, the write pump's receive, and the invariant.
- `HubLoops`: the `range` loops of broadcast and shutdown, proved equal to
  the whole-set definitions.
- `HubRun`: event traces and the safety theorem.
- `ReadPump`: the per-frame decision of `readPump`.
- `Simulator`: `PressKey` and the key table.
- `Wrappers`: `Option`.

Behaviour of the Go code worth noting:

- The "Another device connected" notice (server/websocket.go:158-161)
  suggests a single active client. Yet lines 169-172 close the incumbent's
  transport and keep it in `connections`. The set holds both records until
  the incumbent's read pump submits `unregister`, as
  `HubRun.ReplacementScenario` shows. If a third device registers before
  that `unregister` and the arbitrary pick is the already evicted record,
  the two later devices both keep open transports
  (`HubRun.TwoLiveClientsScenario`).
- The error reply at server/websocket.go:113 is a blocking send, unlike the
  select-with-default sends at :162-168 and :192-197.
- The 100 ms sleep at server/websocket.go:165 runs only when the notice was
  buffered. It changes no state, so it is not modelled.

## Model

| member | source | states |
|---|---|---|
| Hub.NewHub | server/websocket.go:44-51 | a new server has no connections and satisfies the hub invariant |
| Hub.Register | server/websocket.go:153-178 | panics only if the picked incumbent's channel is closed; otherwise the fresh record joins holding exactly the welcome payload; the set grows by exactly one and the incumbent stays a member; only the incumbent changes: its transport is closed and the notice is buffered only if it had room |
| Hub.Unregister | server/websocket.go:180-187 | a non-member leaves the state unchanged; a member is removed and its queue closed, with its buffered payloads kept, and nothing else changes; it panics only if a member's queue was already closed |
| Hub.Broadcast | server/websocket.go:189-200 | members with room get the message appended and stay; members with a full queue are removed and their queues closed; non-members are untouched; it panics only if some member's queue was already closed |
| Hub.Shutdown | server/websocket.go:215-223 | the set ends empty; every former member has its queue and transport closed and its buffered payloads kept; non-members are untouched |
| Hub.Receive | server/websocket.go:128-134 | the write pump's receive removes the oldest buffered payload of one record and changes nothing else; an empty queue yields nothing |
| HubLoops.BroadcastLoop | server/websocket.go:189-200 | visiting the members one at a time, in any order, ends in exactly the state that Hub.Broadcast gives, panic included |
| HubLoops.ShutdownLoop | server/websocket.go:215-223 | visiting the members one at a time, in any order, ends in exactly the state that Hub.Shutdown gives, panic included |
| HubRun.StepKeepsValid | server/websocket.go:150-202 | from a valid state, every admissible event succeeds without a panic and keeps the invariant |
| HubRun.RunKeepsValid | server/websocket.go:150-202 | for every admissible event sequence from a valid state, the run never panics and ends valid, so no channel is sent to or closed after its close |
| HubRun.NewHubNeverPanics | server/websocket.go:44-51 | the same holds for every admissible event sequence from the server's initial state |
| HubRun.UnregisterIdempotent | server/websocket.go:180-186 | from a valid state, unregister never panics, and unregistering the same record twice equals doing it once |
| HubRun.ReplacementScenario | server/websocket.go:153-187 | after A then B register, A holds the welcome and the "Another device connected" notice and its transport is closed; B holds the welcome; both are members until A's unregister leaves only B |
| HubRun.Apply | server/websocket.go:152-200 | the select hands each event to its case; no step forgets a record, only a register event adds a member, and the write pump's receive never panics |
| HubRun.Run | server/websocket.go:150-202 | the loop applies the events in order and stops at a panic; no record is ever forgotten, and every member at the end was a member at the start or was added by a register event of the trace |
| HubRun.TwoLiveClientsScenario | server/websocket.go:153-178 | after A, B and C register in turn with C's register picking the already evicted A, all three are members and both B's and C's transports are open |
| Connections.NewConnection | server/websocket.go:71-74 | a new record has an empty, open queue and an open transport |
| Connections.Enqueue | server/websocket.go:176 | a send with room appends the payload at the back, leaves the queue open and within capacity |
| Connections.Close | server/websocket.go:184 | closing a channel keeps what it buffers and leaves the transport as it was |
| Connections.TrySend | server/websocket.go:162-168 | a select-with-default send panics on a closed channel, drops the payload on a full open one, and otherwise appends it |
| ReadPump.HandleMessage | server/websocket.go:100-117 | a parse error is skipped; a key press happens exactly when a simulator is set and the type is "key", and it presses the message's key; any other parsed message is ignored; an error payload "Failed to press key: " + key is produced exactly when the press fails |
| ReadPump.PressedKeys | server/websocket.go:88-118 | over a run of frames, at most one key is pressed per frame and nothing is pressed without a simulator |
| ReadPump.PressedKeysFromKeyFrames | server/websocket.go:100-108 | every key the pump presses comes from a frame of type "key" carrying that key |
| ReadPump.Replies | server/websocket.go:88-118 | over a run of frames, at most one payload is enqueued per frame and none without a simulator |
| ReadPump.PressedKeysAreKeyFrames | server/websocket.go:100-108 | with a simulator set, exactly the keys of the frames of type "key" are pressed, each once, in frame order |
| ReadPump.RepliesFollowPresses | server/websocket.go:108-113 | there are at most as many replies as pressed keys, and each reply is an error payload starting "Failed to press key: " |
| ReadPump.ErrorsFor | server/websocket.go:110-113 | one error payload per key, in order, each naming its key |
| ReadPump.PressedKeysCompose | server/websocket.go:88-118 | the keys pressed over a run split in two are those of the two parts, in order |
| ReadPump.RepliesCompose | server/websocket.go:88-118 | the replies over a run split in two are those of the two parts, in order |
| ReadPump.RunsCompose | server/websocket.go:88-118 | frames are handled independently: the presses and replies of a run split in two are those of the two parts in order |
| ReadPump.MalformedFrameSkipped | server/websocket.go:100-104 | a malformed frame produces no press and no reply, and the frames after it are still handled |
| ReadPump.NoSinkNoEffect | server/websocket.go:106 | without an input simulator no frame is pressed or answered |
| ReadPump.SucceedingSinkNoReplies | server/websocket.go:108-116 | a simulator that never fails causes no error payloads |
| ReadPump.FailingSinkRepliesPerPress | server/websocket.go:108-113 | a simulator that always fails causes exactly one error payload per pressed key, naming the keys in order |
| ReadPump.SupportedOsNoReplies | server/websocket.go:108-116 | with the server's simulator on Linux or Windows the client never receives an error payload |
| ReadPump.UnsupportedOsRepliesPerPress | server/websocket.go:108-113 | with the server's simulator on any other system every pressed key is answered with its error payload |
| ReadPump.KeyFramePressedOnce | server/websocket.go:106-108 | the frame with key "5" and type "key" presses "5" exactly once |
| ReadPump.FailedPressReported | server/websocket.go:108-113 | a failed press of "x" sends back exactly the payload with error "Failed to press key: x" |
| Simulator.OsOf | input/simulator.go:22-29 | "linux" selects Linux, "windows" selects Windows, and every other name is unsupported |
| Simulator.PressKey | input/simulator.go:21-30 | fails exactly on unsupported systems, with "unsupported operating system: " and the system's name; otherwise it taps the mapped key |
| Simulator.PressKeyWithRobotGo | input/simulator.go:40-55 | always reports success |
| Simulator.LowerChar | input/simulator.go:48 | ASCII capitals go to lower case, KELVIN SIGN to k and capital dotted I to i; everything else is unchanged; the result is never an ASCII capital |
| Simulator.ToLower | input/simulator.go:48 | lower-cases character by character and keeps the length |
| Simulator.MapKey | input/simulator.go:40-51 | the result is either a value of the table or the key itself |
| Simulator.LowerCharIdempotent | input/simulator.go:48 | lower-casing a character twice equals doing it once |
| Simulator.ToLowerIdempotent | input/simulator.go:48 | lower-casing a string twice equals doing it once |
| Simulator.ToLowerFixes | input/simulator.go:48 | a string that lower-casing does not change character by character is its own lower-case form |
| Simulator.DigitsMapToKeypad | input/simulator.go:42-43 | each digit d maps to "kp_" followed by d |
| Simulator.OperatorsMapToKeypad | input/simulator.go:44 | * + - . / map to kp_multiply, kp_add, kp_subtract, kp_decimal, kp_divide |
| Simulator.NamedKeysMap | input/simulator.go:45 | enter maps to kp_enter; backspace and escape map to themselves |
| Simulator.NamedKeysIgnoreCase | input/simulator.go:45-48 | "ENTER" maps to kp_enter and "Escape" to escape |
| Simulator.KelvinSignFindsBackspace | input/simulator.go:48 | a KELVIN SIGN standing for k still finds the backspace entry, as Go's Unicode lower-casing does |
| Simulator.MapKeyIgnoresCase | input/simulator.go:48 | whenever the lower-cased key is in the table, the key maps like its lower-case form, to that table entry |
| Simulator.UnknownKeyPassesThrough | input/simulator.go:48-51 | a key whose lower-case form is not in the table maps to itself, unchanged in case |
| Simulator.UnknownKeyKeepsItsCase | input/simulator.go:48-51 | "F5" maps to "F5", not to its lower-case form "f5" |
| Simulator.SupportedOsAlwaysPresses | input/simulator.go:21-38 | on Linux and Windows every key press succeeds, tapping the mapped key |
| Simulator.UnsupportedOsNeverPresses | input/simulator.go:27-28 | on any other system every press fails with the same message |

## Left out

- The WebSocket upgrade, read limit, deadlines, pong handler and ping ticker (server/websocket.go:15-23, 57-69, 121-148). These are transport I/O and wall-clock timers. Of the write pump, only its receive from the queue is modelled.
- The 100 ms sleep in `register` (server/websocket.go:165). It is a timing grace period that changes no state.
- The blocking sends at server/websocket.go:113 and :176. In the hub's serialized model the send at :176 goes to a fresh, empty 256-slot queue, so it never blocks, and `Connections.Enqueue` requires and proves that room. The error reply at :113 is computed (`ReadPump.HandleMessage`) but not placed on a hub queue, because a blocking send has no step-function form. The send at :113 would panic on a queue that the hub closed while the read pump was still running, by a broadcast eviction (:195) or by Shutdown (:218); that panic is not modelled.
- The interleaving in which the pumps, started at server/websocket.go:78-79 as soon as Run takes the record at :153, buffer an error reply from :113 ahead of the welcome at :176. The model registers a record and buffers its welcome in one step.
- The two pumps' own transport closes (server/websocket.go:85, 125). Only the read pump submits `unregister` (:84), once, when its loop ends; its effect on the hub is the `UnregisterEvent`. The membership guard at :182 makes that submission harmless for a record that a broadcast eviction (:195-196) or Shutdown (:220) has already removed, as `HubRun.UnregisterIdempotent` shows.
- `json.Marshal` and `json.Unmarshal`. Payloads are a datatype, and decoding is represented only by its outcome (`ReadPump.Inbound`).
- Logging, `robotgo.KeyTap` and `runtime.GOOS`. These are foreign calls. A successful press records the key name it would tap, and the operating system is a parameter.
- Simulator.LowerChar: lower-cases only the characters whose lower case is ASCII. Other non-ASCII capitals are left unchanged, where Go would lower-case them. Such a string can never equal a key of the table, so `MapKey` is unaffected.
- The HTTP routing (`server/http.go`), process wiring and signal handling (`main.go`), and the browser's reconnection logic. None of them is part of this model.
