# simpleChat room hub and session avatar, in Dafny

This project models the core of a small Go chat server:

- the **room hub** (`room.go`). A room keeps the set of its member clients. Its loop `room.run` takes one event at a time: a client joins, a client leaves (and its `send` channel is closed), or a message is forwarded to the `send` channel of every member. Each `send` channel is a FIFO buffer of capacity `messageBufferSize` = 256. The HTTP handler `ServeHTTP` builds a client with an empty channel, joins it, and issues a deferred leave when the session ends.
- the **session-derived avatar** (`avatar.go`). `AuthAvatar.GetAvatarURL` reads the `"avatar_url"` entry of a client's profile map. It returns that URL, or the error `ErrNoAvatarURL` when the entry is missing or is not a string.

Files:

- `chat.dfy`, module `Chat`: messages, profile values and client records. A client pointer becomes a `ClientId`. A client's `send` channel becomes a queue plus a `closed` flag.
- `trace.dfy`, module `Tracing`: the tracer, either on or the no-op `Off`. What it writes is kept as a list of lines.
- `avatar.dfy`, module `Avatar`: `GetAvatarURL` and its properties.
- `hub.dfy`, module `Hub`: the room as a state machine on values. `RoomState` holds the membership set, the client records created for the room, the next fresh identity, the tracer and the traced lines. `Event` lists the events, `Enabled` says when an event can run without blocking or panicking, and `Step` applies one event. `Executes`, `Final`, `ReceivedBy` and `Forwarded` describe whole runs.
- `hub_properties.dfy`, module `HubProperties`: lemmas about `Hub`. They cover each event's effect and frame, the channel bound as an invariant, per-client FIFO delivery, no delivery after leave, and the single deferred leave of a session.
- `room.dfy`, module `Rooms`: class `Room`, whose fields the methods update in place. `State()` gives the abstract value of a room.
  - `NewClient`, `Join`, `Leave`, `Forward` and `Receive` each correspond to one `Hub` step, which their `ensures` state as `State() == Hub.Step(old(State()), …)`.
  - The constructor states `State() == Hub.NewRoom()`.
  - `ServeHTTP` runs three steps (create, join, leave). Its `ensures` give the resulting fields directly.
  - `FanOut` is a static method on values, with no room state. It is the loop over the members that `Forward` calls, and its `ensures` tie its result to `Hub.SendTo` and `Tracing.TraceTimes`.
  - Two client methods (`HiScenario`, `LeaveScenario`) exercise these contracts.

Modelling decisions:

- A forward delivers the message to every member. The sender is a member, so it receives its own message too (`room.go:53-54`).
- In Go, sending on a full buffered channel blocks, and sending on a closed channel panics. So a forward is enabled only when every member's queue is open and holds fewer than 256 messages. With this rule no queue ever holds more than 256 messages.
- Closing a closed channel panics, so a leave requires the client's queue to be open. A leave of a client that is not a member still closes its queue.
- `Receive` stands for `<-client.send` in the client's write pump. It is enabled when the queue has a message or is closed. An open, empty channel would block. On a closed, drained channel it returns `None`.
- A nil profile map reads like an empty one, so both are `map[]`. A profile value is either a Go string (`Str`) or anything else (`Other`).
- Creating a client allocates a fresh identity from the counter `nextId`. This stands for the fresh pointer of `&client{…}`.

## Model

The functions of module `Hub` are the value model of room.go, and they carry no contract of their own:
- `NewRoom` models room.go:28-36.
- `ApplyConnect` models room.go:78-83.
- `ApplyJoin` models room.go:41-44.
- `ApplyLeave` models room.go:45-49.
- `SendTo`, `ForwardLines` and `ApplyForward` model room.go:50-57.
- `ApplyReceive` and `Front` model the channel receive on the queue made at room.go:80.
- `Step`, `Executes` and `Final` model the loop of room.go:38-59.

What they mean is stated by the `HubProperties` lemmas in the table: `NewRoomIsEmpty`, `ConnectCreatesFreshClient`, `JoinAddsMember`, `LeaveRemovesAndCloses`, `ForwardAppendsToMembers`, `ForwardTraceLines`, `ReceiveTakesFront`, and the run lemmas below them.

| member | source | states |
|---|---|---|
| `Avatar.GetAvatarURL` | avatar.go:28-40 | The error is nil exactly when "avatar_url" is present and holds a string. The URL is then that string. Every other case gives `("", ErrNoAvatarURL)`. |
| `Avatar.MissingKey` | avatar.go:29-32 | With no "avatar_url" key the result is `("", ErrNoAvatarURL)`. |
| `Avatar.ZeroClientHasNoAvatar` | avatar_test.go:7-11 | A freshly allocated client (nil profile) gets `ErrNoAvatarURL`. |
| `Avatar.NotAString` | avatar.go:33-36 | A non-string "avatar_url" value gives `("", ErrNoAvatarURL)`. |
| `Avatar.StringReturned` | avatar.go:33-38 | A string value s gives `(s, nil)`; s is returned unchanged. |
| `Avatar.ErrorExcludesUrl` | avatar.go:28-39 | An error comes with an empty URL, and a non-empty URL comes with a nil error. |
| `Avatar.OnlyAvatarEntryMatters` | avatar.go:29 | Two clients whose "avatar_url" entries agree (both absent, or equal) get the same result, whatever the rest of the profile or the client holds. |
| `Avatar.AuthAvatarScenario` | avatar_test.go:5-22 | The test's sequence: the zero client gives the error; after the profile is set to {"avatar_url": testURL}, it gives `(testURL, nil)`. |
| `Tracing.Trace` | trace/tracer.go:23-30 | The no-op tracer leaves the output unchanged. An active tracer appends exactly one line, the concatenated operands. |
| `Tracing.TraceTimesLines` | trace/tracer.go:23-26 | n traced calls append exactly n copies of the line to an active tracer's output, and nothing to the no-op tracer's. |
| `HubProperties.NewRoomIsEmpty` | room.go:28-36 | A new room has no members, no clients and the no-op tracer, and it satisfies the invariant. |
| `HubProperties.ConnectCreatesFreshClient` | room.go:78-83 | Building a client takes an identity not in use and gives it an empty, open queue and the session's profile. Membership is unchanged and the invariant is kept. |
| `HubProperties.JoinAddsMember` | room.go:41-44 | Join adds the client to the membership set. A repeated join leaves the set unchanged, and no queue changes. |
| `HubProperties.LeaveRemovesAndCloses` | room.go:45-49 | Leave removes the client from the membership set and closes its queue, keeping its pending messages and profile. Every other client is unchanged. A non-member's leave leaves membership unchanged but still closes the queue. |
| `HubProperties.LeaveTwiceIsFatal` | room.go:48 | After a leave, a second leave of the same client is not enabled (it would close a closed channel). |
| `HubProperties.ForwardAppendsToMembers` | room.go:50-57 | Forward appends the message exactly once at the end of each member's queue, sender included. Non-members, membership and the set of clients are unchanged. |
| `HubProperties.ForwardBlocksOnFullQueue` | room.go:54 | A forward is not enabled while any member's queue holds 256 messages or is closed. |
| `HubProperties.RejoinAfterLeaveBlocksForward` | room.go:41-54 | After a leave closed c's queue, a join of c is still enabled (room.go:43 does not check the channel). From then on no forward is enabled, because the send to c's closed channel would panic. |
| `HubProperties.ForwardTraceLines` | room.go:51-55 | An active tracer gets 1 + (number of members) lines: "Message received: " followed by the text, then one " -- sent to client" per member. The no-op tracer gets none. |
| `HubProperties.ReceiveTakesFront` | room.go:80 | A receive returns the front of the queue. The new state differs from the old one only in c's queue, which loses that front message: c's closed flag and profile, the other clients, membership, the trace and the allocator are unchanged. On a closed, drained queue a receive returns nothing and changes nothing. |
| `HubProperties.StepPreservesValid` | room.go:38-59 | Every enabled event keeps the invariant: members are known clients, identities are below the allocator, and no queue exceeds 256. |
| `HubProperties.RunPreservesValid` | room.go:38-59 | Any executable sequence of events keeps the invariant, so no queue ever holds more than 256 messages. |
| `HubProperties.MemberStaysOpen` | room.go:38-59 | A member that no event makes leave stays a member with an open queue through any run. |
| `HubProperties.FifoStep` | room.go:50-57 | For a member that does not leave, one event turns its queue q into r, with (what it received at that event) + r == q + (what that event forwarded). |
| `HubProperties.FifoDelivery` | room.go:53-54 | Per-client FIFO: for a member that never leaves, the messages it receives, followed by what is still queued, equal its initial queue followed by every forwarded message in forwarding order. |
| `HubProperties.NoDeliveryAfterLeave` | room.go:45-56 | Once a client's queue is closed it stays closed, and nothing more is ever enqueued on it: later queues are suffixes of the queue at leave time. |
| `HubProperties.SessionEndsWithOneLeave` | room.go:78-88 | A ServeHTTP session creates a fresh member with an empty queue. Whatever events of other sessions interleave, its one deferred leave is enabled when it runs. Afterwards the client is no member, its queue is closed, and a second leave would not be enabled. |
| `Rooms.Room.constructor` | room.go:28-36 | newRoom: no members, no clients, the no-op tracer, no traced lines. |
| `Rooms.Room.NewClient` | room.go:78-83 | Adds a client record with a fresh identity, an empty open queue and the given profile. Membership is unchanged. |
| `Rooms.Room.Join` | room.go:41-44 | The new state is `Hub.Step(old, Join(c))`: membership gains c, and the client records are unchanged. |
| `Rooms.Room.Leave` | room.go:45-49 | Requires an open queue. The new state is `Hub.Step(old, Leave(c))`: c is removed from membership and only c's closed flag changes. |
| `Rooms.Room.Forward` | room.go:50-57 | Requires every member's queue to be open and under 256. The new state is `Hub.Step(old, Forward(m))`: every member's queue gets m at its end, and membership is unchanged. |
| `Rooms.Room.FanOut` | room.go:53-56 | Whatever order the loop visits the members in, the result is the members' queues each with m appended (others unchanged), plus one traced line per member. |
| `Rooms.Room.Receive` | room.go:80 | Returns the front message and removes it, or returns None on a drained, closed channel. The new state is `Hub.Step(old, Receive(c))`. |
| `Rooms.Room.ServeHTTP` | room.go:78-88 | Creates the client with an empty queue, joins it, and runs the deferred leave. At the end the client is no member, its queue is closed and empty, membership is as before, and one joined line and one left line are traced. |

## Left out

- `main.go` as a whole is not modelled: flag parsing, route registration, the logout handler, the `gomniauth` provider setup, template loading with `sync.Once`, and `readSecretsFromJSONFile` (file I/O and JSON decoding). All of it is plumbing over libraries outside the model. The assignment `r.tracer = trace.New(os.Stdout)` corresponds to setting the `tracer` field to `On`.
- Goroutines, the `select` statement and unbuffered channel hand-off are not modelled. Events are sequential calls, each taken whole. In Go, the hub loop takes one event at a time, but the fan-out inside one forward can stall half-way (next line).
- Rooms.Room.Forward: the blocking `client.send <- msg` (room.go:54) is a precondition. A forward that would block is modelled as one the hub has not yet taken. The partly delivered state is not represented: in Go, earlier members already hold the message and later ones do not. Neither is the stall of the whole hub while one member's queue is full, during which senders on `join` and `leave` (room.go:31-32) also wait. In the model, Join and Leave stay enabled while a queue is full, and a forward is one all-or-nothing step (`Hub.ApplyForward`).
- Rooms.Room.Join: a join is enabled for a client whose queue is already closed (`Hub.Enabled`, case `Join`), as in Go, where room.go:43 does not check the channel. ServeHTTP never produces that state, because it joins only a freshly built client. After such a join, no later forward is enabled in the model. Go would instead panic at the send on the closed channel (room.go:54).
- The websocket upgrade, the cookie read, `objx.MustFromBase64` and the `log.Fatal` paths of `ServeHTTP` (room.go:67-77) are not modelled. These are transport and foreign calls, and the decoded profile is a parameter instead.
- `client.read` and `client.write` are not modelled because their source is not part of this model. Only the channel receive of the write pump, `Receive`, is modelled.
- Rooms.Room.ServeHTTP: runs the client's creation, join and deferred leave back to back. The events that other sessions interleave while the pumps run are covered on the value model by `HubProperties.SessionEndsWithOneLeave`.
- The tracer's `io.Writer` and the trailing newline of `fmt.Fprintln` are not modelled. Each call is one line in a list.
- The `Avatar` interface and the `UseAuthAvatar` variable only name `GetAvatarURL`, so they are not modelled separately. Only the session-derived variant is in this model.
- `socketBufferSize` (1024) configures the websocket upgrader only, and it is not modelled.
- A nil client pointer is not modelled, whether passed to the room or to `GetAvatarURL`, which dereferences `c` at avatar.go:29 and would panic on nil. Every `ClientId` the room handles refers to a client it created, and `Avatar.GetAvatarURL` takes a client value.
- A message is reduced to its `Message` text, the only field the room reads. Its other fields are declared in a file that is not part of this model.
