/** The room of room.go as an object whose fields the hub loop updates in
    place. Each method is one case of `room.run`'s select (or the client
    construction and join/leave sequence of ServeHTTP, or a receive on a
    client's channel) and is specified by the matching step of module Hub. */
module Rooms {
  import opened Chat
  import opened Tracing
  import Hub
  import HubProperties

  class Room {
    var clients: set<ClientId>
    var known: map<ClientId, Client>
    var nextId: ClientId
    var tracer: Tracer
    var lines: seq<string>

    /** The abstract value of the room. */
    function State(): (s: Hub.RoomState)
      reads this
    {
      Hub.RoomState(clients, known, nextId, tracer, lines)
    }

    ghost predicate Valid()
      reads this
    {
      Hub.Valid(State())
    }

    /** newRoom(): no members, the no-op tracer. */
    constructor ()
      ensures Valid() && State() == Hub.NewRoom()
      ensures clients == {} && known == map[] && tracer == Off && lines == []
    {
      clients, known, nextId, tracer, lines := {}, map[], 0, Off, [];
    }

    /** `&client{send: make(chan *message, messageBufferSize), room: r, userData: ...}`. */
    method NewClient(userData: UserData) returns (c: ClientId)
      requires Valid()
      modifies this
      ensures Valid() && State() == Hub.Step(old(State()), Hub.Connect(userData))
      ensures c == old(nextId) && c !in old(known)
      ensures known == old(known)[c := Client([], false, userData)] && clients == old(clients)
    {
      c := nextId;
      known := known[c := Client([], false, userData)];
      nextId := nextId + 1;
    }

    /** The join case: `r.clients[client] = true`. */
    method Join(c: ClientId)
      requires Valid() && c in known
      modifies this
      ensures Valid() && State() == Hub.Step(old(State()), Hub.Join(c))
      ensures clients == old(clients) + {c} && known == old(known)
    {
      clients := clients + {c};
      lines := Trace(tracer, lines, Hub.JOINED_LINE);
    }

    /** The leave case: `delete(r.clients, client)` and `close(client.send)`.
        Closing a closed channel panics, so the queue must still be open. */
    method Leave(c: ClientId)
      requires Valid() && c in known && !known[c].closed
      modifies this
      ensures Valid() && State() == Hub.Step(old(State()), Hub.Leave(c))
      ensures clients == old(clients) - {c}
      ensures known == old(known)[c := old(known[c]).(closed := true)]
    {
      clients := clients - {c};
      known := known[c := known[c].(closed := true)];
      lines := Trace(tracer, lines, Hub.LEFT_LINE);
    }

    /** The forward case: one trace line, then the fan-out to every
        member. Every send must find its channel open and not full. */
    method Forward(m: Message)
      requires Valid() && Hub.ForwardEnabled(State())
      modifies this
      ensures Valid() && State() == Hub.Step(old(State()), Hub.Forward(m))
      ensures clients == old(clients)
      ensures known == Hub.SendTo(old(known), old(clients), m)
    {
      HubProperties.StepPreservesValid(State(), Hub.Forward(m));
      var out := Trace(tracer, lines, Hub.RECEIVED_PREFIX + m.message);
      known, lines := FanOut(known, clients, m, tracer, out);
    }

    /** The loop `for client := range r.clients { client.send <- msg; ... }`:
        every member's queue gets `m` at its end and the tracer writes one
        line per member; the iteration order does not matter. */
    static method FanOut(queues: map<ClientId, Client>, members: set<ClientId>, m: Message,
                         tracer: Tracer, out: seq<string>)
      returns (queues': map<ClientId, Client>, out': seq<string>)
      requires members <= queues.Keys
      ensures queues' == Hub.SendTo(queues, members, m)
      ensures out' == TraceTimes(tracer, out, Hub.SENT_LINE, |members|)
    {
      queues', out' := queues, out;
      var done: set<ClientId> := {};
      while done != members
        invariant done <= members
        invariant queues' == Hub.SendTo(queues, done, m)
        invariant out' == TraceTimes(tracer, out, Hub.SENT_LINE, |done|)
        decreases members - done
      {
        assert members - done != {};
        var c :| c in members - done;
        HubProperties.FanOutOneMore(queues, done, c, m, tracer, out);
        queues' := queues'[c := queues[c].(send := queues[c].send + [m])];
        out' := Trace(tracer, out', Hub.SENT_LINE);
        done := done + {c};
      }
    }

    /** `<-client.send` on a channel that has a message or is closed: the
        front message, or None once the channel is closed and drained. */
    method Receive(c: ClientId) returns (m: Option<Message>)
      requires Valid() && c in known && (known[c].send != [] || known[c].closed)
      modifies this
      ensures Valid() && State() == Hub.Step(old(State()), Hub.Receive(c))
      ensures m == Hub.Front(old(State()), c)
      ensures m == None <==> old(known[c].send) == []
      ensures m == None ==> known == old(known)
      ensures m != None ==> m.value == old(known[c].send[0])
      ensures m != None ==> known == old(known)[c := old(known[c]).(send := old(known[c].send[1..]))]
    {
      if known[c].send == [] {
        m := None;
      } else {
        m := Some(known[c].send[0]);
        known := known[c := known[c].(send := known[c].send[1..])];
      }
    }

    /** One ServeHTTP session without the transport: create the client, join
        it, and run the deferred leave once the read pump returns. The
        events of other sessions that interleave while the pumps run are
        covered by HubProperties.SessionEndsWithOneLeave. */
    method ServeHTTP(userData: UserData) returns (c: ClientId)
      requires Valid()
      modifies this
      ensures Valid()
      ensures c == old(nextId) && c !in old(known) && c !in clients
      ensures clients == old(clients)
      ensures known == old(known)[c := Client([], true, userData)]
      ensures lines == Trace(old(tracer), Trace(old(tracer), old(lines), Hub.JOINED_LINE), Hub.LEFT_LINE)
    {
      c := NewClient(userData);
      Join(c);
      // client.write() and client.read() run here; the events of other
      // sessions in between are covered by HubProperties.SessionEndsWithOneLeave.
      Leave(c);
      assert clients == old(clients);
    }
  }

  /** A client of the specifications above: A and B join a room and A's
      "hi" reaches both queues once (the sender is not excluded), while a
      second room sees none of it. */
  method HiScenario() {
    var r := new Room();
    var a := r.NewClient(map["name" := Str("A")]);
    var b := r.NewClient(map["name" := Str("B")]);
    r.Join(a);
    r.Join(b);
    assert a != b && r.clients == {a, b};
    assert r.known[a].send == [] && r.known[b].send == [] && !r.known[a].closed && !r.known[b].closed;
    var other := new Room();
    r.Forward(Message("hi"));
    assert r.known[a].send == [Message("hi")] && r.known[b].send == [Message("hi")];
    assert other.clients == {} && other.known == map[];
  }

  /** A member with one pending message leaves: it drops out of the room,
      its channel still yields the message, and then reports closed. */
  method LeaveScenario() {
    var r := new Room();
    var a := r.NewClient(map[]);
    r.Join(a);
    assert r.clients == {a} && r.known == map[a := Client([], false, map[])];
    r.Forward(Message("hi"));
    assert r.known[a] == Client([Message("hi")], false, map[]);
    r.Leave(a);
    assert r.known[a] == Client([Message("hi")], true, map[]) && r.clients == {};
    var got := r.Receive(a);
    assert got == Some(Message("hi")) && r.known[a].send == [];
    got := r.Receive(a);
    assert got == None;
  }
}
