/** What the hub promises: each event's effect and frame, the channel bound,
    per-client FIFO delivery, and that a session's single deferred leave
    always succeeds. */
module HubProperties {
  import opened Chat
  import opened Tracing
  import opened Hub

  /** newRoom(): an empty, valid room with the no-op tracer. */
  lemma NewRoomIsEmpty()
    ensures NewRoom().clients == {} && NewRoom().known == map[]
    ensures NewRoom().tracer == Off && Valid(NewRoom())
  {
  }

  /** ServeHTTP's client construction: a fresh identity with an empty, open
      queue; membership and every other client stay as they were. */
  lemma ConnectCreatesFreshClient(h: RoomState, u: UserData)
    requires Valid(h)
    ensures var r := Step(h, Connect(u));
      && h.nextId !in h.known
      && r.known == h.known[h.nextId := Client([], false, u)]
      && r.clients == h.clients && Valid(r)
  {
  }

  /** Join makes the client a member; a repeated join leaves the membership
      set as it is; no queue changes. */
  lemma JoinAddsMember(h: RoomState, c: ClientId)
    requires Enabled(h, Join(c))
    ensures var r := Step(h, Join(c));
      && r.clients == h.clients + {c}
      && (c in h.clients ==> r.clients == h.clients)
      && r.known == h.known
  {
  }

  /** Leave drops the client from the membership set and closes its channel,
      keeping its pending messages; every other client is untouched. Leaving
      a client that is not a member still closes its channel. */
  lemma LeaveRemovesAndCloses(h: RoomState, c: ClientId)
    requires Enabled(h, Leave(c))
    ensures var r := Step(h, Leave(c));
      && r.clients == h.clients - {c}
      && (c !in h.clients ==> r.clients == h.clients)
      && r.known.Keys == h.known.Keys
      && r.known[c].closed && r.known[c].send == h.known[c].send
      && r.known[c].userData == h.known[c].userData
      && (forall d :: d in h.known && d != c ==> r.known[d] == h.known[d])
  {
  }

  /** A second leave of the same client is not enabled: it would close a
      closed channel. */
  lemma LeaveTwiceIsFatal(h: RoomState, c: ClientId)
    requires Enabled(h, Leave(c))
    ensures !Enabled(Step(h, Leave(c)), Leave(c))
  {
  }

  /** Forward appends the message exactly once at the end of every member's
      queue, sender included; non-members, closed flags, profiles and the
      membership set are unchanged. */
  lemma ForwardAppendsToMembers(h: RoomState, m: Message)
    requires Valid(h) && Enabled(h, Forward(m))
    ensures var r := Step(h, Forward(m));
      && r.clients == h.clients && r.known.Keys == h.known.Keys
      && (forall c :: c in h.clients ==> r.known[c] == h.known[c].(send := h.known[c].send + [m]))
      && (forall c :: c in h.known && c !in h.clients ==> r.known[c] == h.known[c])
  {
  }

  /** One more round of the fan-out loop: sending `m` to `c` and tracing one
      line extends a partial fan-out over `done` to one over `done + {c}`. */
  lemma FanOutOneMore(known: map<ClientId, Client>, done: set<ClientId>, c: ClientId, m: Message,
                      t: Tracer, out: seq<string>)
    requires c in known && c !in done
    ensures SendTo(known, done, m)[c := known[c].(send := known[c].send + [m])]
         == SendTo(known, done + {c}, m)
    ensures Trace(t, TraceTimes(t, out, SENT_LINE, |done|), SENT_LINE)
         == TraceTimes(t, out, SENT_LINE, |done + {c}|)
  {
    assert |done + {c}| == |done| + 1;
  }

  /** Forward cannot proceed while some member's queue is full (the send
      would block) or closed (the send would panic). */
  lemma ForwardBlocksOnFullQueue(h: RoomState, m: Message, c: ClientId)
    requires c in h.clients && c in h.known
    requires |h.known[c].send| >= MESSAGE_BUFFER_SIZE || h.known[c].closed
    ensures !Enabled(h, Forward(m))
  {
  }

  /** Join does not look at the channel: a client whose queue was closed by
      a leave can join again, and from then on no forward is enabled (in Go
      the send on the closed channel would panic). */
  lemma RejoinAfterLeaveBlocksForward(h: RoomState, c: ClientId, m: Message)
    requires Enabled(h, Leave(c))
    ensures var left := Step(h, Leave(c));
      && Enabled(left, Join(c))
      && !Enabled(Step(left, Join(c)), Forward(m))
  {
  }

  /** An active tracer writes 1 + |members| lines for one forward: the
      received line carrying the message text, then one line per member. */
  lemma ForwardTraceLines(h: RoomState, m: Message)
    requires Enabled(h, Forward(m))
    ensures h.tracer == Off ==> Step(h, Forward(m)).lines == h.lines
    ensures h.tracer == On ==>
      Step(h, Forward(m)).lines
        == h.lines + [RECEIVED_PREFIX + m.message] + seq(|h.clients|, _ => SENT_LINE)
  {
    TraceTimesLines(h.tracer, Trace(h.tracer, h.lines, RECEIVED_PREFIX + m.message), SENT_LINE, |h.clients|);
  }

  /** A receive takes the front of the queue, or reports a closed, drained
      channel; nothing else changes. */
  lemma ReceiveTakesFront(h: RoomState, c: ClientId)
    requires Enabled(h, Receive(c))
    ensures var r := Step(h, Receive(c));
      && (Front(h, c) == None <==> h.known[c].send == [])
      && (Front(h, c) != None ==> [Front(h, c).value] + r.known[c].send == h.known[c].send)
      && (Front(h, c) == None ==> r == h)
      && (Front(h, c) != None ==>
            r == h.(known := h.known[c := h.known[c].(send := h.known[c].send[1..])]))
      && r.clients == h.clients && r.known.Keys == h.known.Keys
      && (forall d :: d in h.known && d != c ==> r.known[d] == h.known[d])
  {
  }

  /** Every enabled event keeps the invariant; in particular no queue ever
      grows past the channel capacity. */
  lemma StepPreservesValid(h: RoomState, e: Event)
    requires Valid(h) && Enabled(h, e)
    ensures Valid(Step(h, e))
  {
  }

  lemma {:induction false} RunPreservesValid(h: RoomState, evs: seq<Event>)
    requires Valid(h) && Executes(h, evs)
    ensures Valid(Final(h, evs))
    decreases |evs|
  {
    if evs != [] {
      StepPreservesValid(h, evs[0]);
      RunPreservesValid(Step(h, evs[0]), evs[1..]);
    }
  }

  /** A client that nobody makes leave stays a member with an open queue. */
  lemma {:induction false} MemberStaysOpen(h: RoomState, evs: seq<Event>, c: ClientId)
    requires Valid(h) && Executes(h, evs)
    requires c in h.clients && c in h.known && !h.known[c].closed
    requires forall i :: 0 <= i < |evs| ==> evs[i] != Leave(c)
    ensures var r := Final(h, evs); c in r.clients && c in r.known && !r.known[c].closed
    decreases |evs|
  {
    if evs != [] {
      assert evs[0] != Leave(c);
      StepPreservesValid(h, evs[0]);
      MemberStaysOpen(Step(h, evs[0]), evs[1..], c);
    }
  }

  /** One event seen from a member that does not leave: what it takes from
      its channel, followed by its new queue, is its old queue followed by
      what the event forwards. */
  lemma FifoStep(h: RoomState, e: Event, c: ClientId)
    requires Valid(h) && Enabled(h, e) && e != Leave(c)
    requires c in h.clients && c in h.known
    ensures c in Step(h, e).clients && c in Step(h, e).known
    ensures ReceivedAt(h, e, c) + Step(h, e).known[c].send == h.known[c].send + ForwardedAt(e)
  {
  }

  /** Per-client FIFO: for a member that never leaves, what it receives
      followed by what is still queued is what was queued at the start
      followed by every forwarded message, in the order forwarded. */
  lemma {:induction false} FifoDelivery(h: RoomState, evs: seq<Event>, c: ClientId)
    requires Valid(h) && Executes(h, evs)
    requires c in h.clients && c in h.known
    requires forall i :: 0 <= i < |evs| ==> evs[i] != Leave(c)
    ensures var r := Final(h, evs);
      && c in r.clients && c in r.known
      && ReceivedBy(h, evs, c) + r.known[c].send == h.known[c].send + Forwarded(evs)
    decreases |evs|
  {
    if evs != [] {
      var e, h', rest := evs[0], Step(h, evs[0]), evs[1..];
      assert e != Leave(c);
      FifoStep(h, e, c);
      StepPreservesValid(h, e);
      assert forall i :: 0 <= i < |rest| ==> rest[i] == evs[i + 1];
      FifoDelivery(h', rest, c);
      var a, b, q := ReceivedAt(h, e, c), ReceivedBy(h', rest, c), Final(h', rest).known[c].send;
      Regroup(a, b, q, h.known[c].send, h'.known[c].send, ForwardedAt(e), Forwarded(rest));
    }
  }

  /** The concatenations of one FIFO induction step, regrouped. */
  lemma Regroup(a: seq<Message>, b: seq<Message>, q: seq<Message>, s: seq<Message>, s': seq<Message>,
                f: seq<Message>, g: seq<Message>)
    requires b + q == s' + g && a + s' == s + f
    ensures (a + b) + q == s + (f + g)
  {
    calc {
      (a + b) + q;
      a + (s' + g);
      (s + f) + g;
    }
  }

  /** After its leave a client's channel stays closed and nothing more is
      ever queued on it: its queue only loses messages from the front. */
  lemma {:induction false} NoDeliveryAfterLeave(h: RoomState, evs: seq<Event>, c: ClientId)
    requires Valid(h) && Executes(h, evs)
    requires c in h.known && h.known[c].closed
    ensures var r := Final(h, evs);
      && c in r.known && r.known[c].closed
      && |r.known[c].send| <= |h.known[c].send|
      && r.known[c].send == h.known[c].send[|h.known[c].send| - |r.known[c].send|..]
    decreases |evs|
  {
    if evs != [] {
      var h' := Step(h, evs[0]);
      StepPreservesValid(h, evs[0]);
      assert c in h'.known && h'.known[c].closed;
      assert h'.known[c].send == h.known[c].send || h'.known[c].send == h.known[c].send[1..];
      NoDeliveryAfterLeave(h', evs[1..], c);
    }
  }

  /** One session of ServeHTTP: its client is created and joined; while it
      is live, any events of other sessions may interleave, and none of them
      leaves this client. The deferred leave is then always enabled (it
      cannot hit a closed channel), and afterwards the client is no member
      and its channel is closed. */
  lemma {:induction false} SessionEndsWithOneLeave(h: RoomState, u: UserData, during: seq<Event>)
    requires Valid(h)
    requires Executes(Step(Step(h, Connect(u)), Join(h.nextId)), during)
    requires forall i :: 0 <= i < |during| ==> during[i] != Leave(h.nextId)
    ensures var c, joined := h.nextId, Step(Step(h, Connect(u)), Join(h.nextId));
      && c in joined.clients && joined.known[c] == Client([], false, u)
      && Enabled(Final(joined, during), Leave(c))
      && var r := Step(Final(joined, during), Leave(c));
         c !in r.clients && r.known[c].closed && !Enabled(r, Leave(c))
  {
    var c, joined := h.nextId, Step(Step(h, Connect(u)), Join(h.nextId));
    StepPreservesValid(h, Connect(u));
    StepPreservesValid(Step(h, Connect(u)), Join(c));
    MemberStaysOpen(joined, during, c);
  }
}
