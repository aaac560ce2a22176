/** The room hub of room.go as a sequential state machine. The hub loop
    `room.run` takes one event at a time from its `select`; here every event
    is one application of `Step`, and a run of the server is a sequence of
    events. Client pointers are identities (`ClientId`); the room keeps the
    records of the clients its handler created (`known`), and the membership
    map `r.clients` becomes the set `clients`. */
module Hub {
  import opened Chat
  import opened Tracing

  /** The capacity of every client's `send` channel. */
  const MESSAGE_BUFFER_SIZE := 256

  /** The lines the hub loop traces. */
  const JOINED_LINE := "New client joined"
  const LEFT_LINE := "Client left."
  const RECEIVED_PREFIX := "Message received: "
  const SENT_LINE := " -- sent to client"

  datatype RoomState = RoomState(
    clients: set<ClientId>,          // current members
    known: map<ClientId, Client>,    // every client created for this room
    nextId: ClientId,                // the next fresh client identity
    tracer: Tracer,
    lines: seq<string>)              // what the tracer has written

  /** The invariant every reachable state keeps: members are known clients,
      identities below `nextId` are taken, and no queue holds more than the
      channel capacity. */
  ghost predicate Valid(h: RoomState)
  {
    && h.clients <= h.known.Keys
    && (forall c :: c in h.known ==> c < h.nextId)
    && (forall c :: c in h.known ==> |h.known[c].send| <= MESSAGE_BUFFER_SIZE)
  }

  /** newRoom(): no members, the no-op tracer. */
  function NewRoom(): (r: RoomState)
  {
    RoomState({}, map[], 0, Off, [])
  }

  /** The events: creating a client (ServeHTTP), the three cases of the hub
      loop's select, and a receive on a client's `send` channel (done by the
      client's write pump). */
  datatype Event =
    | Connect(userData: UserData)
    | Join(who: ClientId)
    | Leave(who: ClientId)
    | Forward(msg: Message)
    | Receive(who: ClientId)

  /** The fan-out of Forward can complete: sending on a full channel blocks
      and sending on a closed channel panics, so every member's queue must be
      open and below capacity. */
  predicate ForwardEnabled(h: RoomState)
  {
    forall c :: c in h.clients ==>
      c in h.known && !h.known[c].closed && |h.known[c].send| < MESSAGE_BUFFER_SIZE
  }

  /** A receive returns at once when the queue holds a message or is closed;
      on an open empty channel it would block. */
  predicate ReceiveEnabled(h: RoomState, c: ClientId)
  {
    c in h.known && (h.known[c].send != [] || h.known[c].closed)
  }

  /** The event can be taken without blocking or panicking. Closing a closed
      channel panics, so Leave needs an open queue. */
  predicate Enabled(h: RoomState, e: Event)
  {
    match e
    case Connect(_) => true
    case Join(c) => c in h.known
    case Leave(c) => c in h.known && !h.known[c].closed
    case Forward(_) => ForwardEnabled(h)
    case Receive(c) => ReceiveEnabled(h, c)
  }

  /** `&client{send: make(chan *message, messageBufferSize), userData: ...}`. */
  function ApplyConnect(h: RoomState, u: UserData): (r: RoomState)
  {
    h.(known := h.known[h.nextId := Client([], false, u)], nextId := h.nextId + 1)
  }

  /** `r.clients[client] = true`, then a trace line. */
  function ApplyJoin(h: RoomState, c: ClientId): (r: RoomState)
  {
    h.(clients := h.clients + {c}, lines := Trace(h.tracer, h.lines, JOINED_LINE))
  }

  /** `delete(r.clients, client)`, `close(client.send)`, then a trace line. */
  function ApplyLeave(h: RoomState, c: ClientId): (r: RoomState)
    requires c in h.known
  {
    h.(clients := h.clients - {c},
       known := h.known[c := h.known[c].(closed := true)],
       lines := Trace(h.tracer, h.lines, LEFT_LINE))
  }

  /** The queues after `m` was sent to every client in `targets`. */
  function SendTo(known: map<ClientId, Client>, targets: set<ClientId>, m: Message): (r: map<ClientId, Client>)
  {
    map c | c in known :: if c in targets then known[c].(send := known[c].send + [m]) else known[c]
  }

  /** The trace of one forward: the received line, then one line per member. */
  function ForwardLines(t: Tracer, out: seq<string>, m: Message, members: nat): (r: seq<string>)
  {
    TraceTimes(t, Trace(t, out, RECEIVED_PREFIX + m.message), SENT_LINE, members)
  }

  /** The forward case: `client.send <- msg` for every member. */
  function ApplyForward(h: RoomState, m: Message): (r: RoomState)
  {
    h.(known := SendTo(h.known, h.clients, m),
       lines := ForwardLines(h.tracer, h.lines, m, |h.clients|))
  }

  /** `<-client.send`: takes the front message; a closed, drained channel
      yields nothing and stays as it is. */
  function ApplyReceive(h: RoomState, c: ClientId): (r: RoomState)
    requires c in h.known
  {
    if h.known[c].send == [] then h
    else h.(known := h.known[c := h.known[c].(send := h.known[c].send[1..])])
  }

  /** What a receive on `c`'s channel returns in state `h`. */
  function Front(h: RoomState, c: ClientId): (r: Option<Message>)
    requires c in h.known
  {
    if h.known[c].send == [] then None else Some(h.known[c].send[0])
  }

  function Step(h: RoomState, e: Event): (r: RoomState)
    requires Enabled(h, e)
  {
    match e
    case Connect(u) => ApplyConnect(h, u)
    case Join(c) => ApplyJoin(h, c)
    case Leave(c) => ApplyLeave(h, c)
    case Forward(m) => ApplyForward(h, m)
    case Receive(c) => ApplyReceive(h, c)
  }

  /** Every event of `evs` is enabled when its turn comes. */
  predicate Executes(h: RoomState, evs: seq<Event>)
    decreases |evs|
  {
    evs == [] || (Enabled(h, evs[0]) && Executes(Step(h, evs[0]), evs[1..]))
  }

  /** The state after all of `evs`. */
  function Final(h: RoomState, evs: seq<Event>): (r: RoomState)
    requires Executes(h, evs)
    decreases |evs|
  {
    if evs == [] then h else Final(Step(h, evs[0]), evs[1..])
  }

  /** What client `c` takes from its channel at event `e`. */
  function ReceivedAt(h: RoomState, e: Event, c: ClientId): (r: seq<Message>)
    requires Enabled(h, e)
  {
    if e == Receive(c) && h.known[c].send != [] then [h.known[c].send[0]] else []
  }

  /** The message handed to the room at event `e`, if any. */
  function ForwardedAt(e: Event): (r: seq<Message>)
  {
    if e.Forward? then [e.msg] else []
  }

  /** The messages client `c` takes from its channel during `evs`, in order. */
  function ReceivedBy(h: RoomState, evs: seq<Event>, c: ClientId): (r: seq<Message>)
    requires Executes(h, evs)
    decreases |evs|
  {
    if evs == [] then [] else ReceivedAt(h, evs[0], c) + ReceivedBy(Step(h, evs[0]), evs[1..], c)
  }

  /** The messages forwarded to the room during `evs`, in order. */
  function Forwarded(evs: seq<Event>): (r: seq<Message>)
  {
    if evs == [] then [] else ForwardedAt(evs[0]) + Forwarded(evs[1..])
  }
}
