/**
 The relay's registry, channels and pending rows changed in place
 (crates/backend/src/ws.rs, lines 299-354, 534, 598-601 and 822-877). Each method takes
 a step of `Delivery`; the two that the source runs through without another task coming
 between, a send and a flush, are runs of them.
 */
module DeliveryObject {
  import opened Prelude
  import opened Delivery

  ghost function TakeSteps(r: Relay, steps: seq<Step>): Option<Relay> {
    if steps == [] then Some(r)
    else
      var before := TakeSteps(r, steps[..|steps| - 1]);
      if before.Some? && Enabled(before.value, steps[|steps| - 1])
      then Some(Next(before.value, steps[|steps| - 1]))
      else None
  }

  lemma OneMoreStep(r: Relay, steps: seq<Step>, step: Step)
    requires TakeSteps(r, steps).Some? && Enabled(TakeSteps(r, steps).value, step)
    ensures TakeSteps(r, steps + [step]) == Some(Next(TakeSteps(r, steps).value, step))
  {
    assert (steps + [step])[..|steps|] == steps;
  }

  /** Query, then the first `n` rows of its answer. */
  function FlushSteps(socket: SocketId, answer: seq<MsgId>, n: nat): seq<Step> {
    if n == 0 then [Query(socket, answer)] else FlushSteps(socket, answer, n - 1) + [FlushRow(socket)]
  }

  class Hub {
    var rows: map<MsgId, Row>
    var registry: map<Device, SocketId>
    var sockets: map<SocketId, Socket>
    var sends: map<MsgId, Sending>

    function State(): Relay
      reads this
    {
      Relay(rows, registry, sockets, sends)
    }

    constructor ()
      ensures State() == START
    {
      rows, registry, sockets, sends := map[], map[], map[], map[];
    }

    method InsertRow(id: MsgId, to: Device, now: int, persisted: bool)
      requires Enabled(State(), Insert(id, to, now, persisted))
      modifies this
      ensures State() == Next(old(State()), Insert(id, to, now, persisted))
    {
      if persisted {
        rows := rows[id := Row(to, now, false)];
      }
      sends := sends[id := Sending(to, Inserted)];
    }

    method LookUp(id: MsgId) returns (found: bool)
      requires Enabled(State(), Look(id))
      modifies this
      ensures State() == Next(old(State()), Look(id)) && found == (sends[id].to in registry)
    {
      found := sends[id].to in registry;
      sends := sends[id := sends[id].(progress := Looked(found))];
    }

    /** `deliver_event_to_device`, ending the send. */
    method DeliverEvent(id: MsgId)
      requires Enabled(State(), Deliver(id))
      modifies this
      ensures State() == Next(old(State()), Deliver(id))
    {
      var d := sends[id].to;
      if d in registry && registry[d] in sockets {
        var s := sockets[registry[d]];
        sockets := sockets[registry[d] := s.(channel := s.channel + [id])];
      }
      sends := sends - {id};
    }

    /** MESSAGE_SEND: the row first, the registry afterwards, delivered on both branches. */
    method SendMessage(id: MsgId, to: Device, now: int, persisted: bool) returns (live: bool)
      requires id !in rows && id !in sends
      modifies this
      ensures State() == SendNow(old(State()), id, to, now, persisted)
      ensures live == (to in old(registry))
    {
      InsertRow(id, to, now, persisted);
      live := LookUp(id);
      DeliverEvent(id);
    }

    method Register(socket: SocketId, d: Device)
      requires Enabled(State(), Connect(socket, d))
      modifies this
      ensures State() == Next(old(State()), Connect(socket, d))
    {
      registry := registry[d := socket];
      sockets := sockets[socket := Socket(d, [], Registered)];
    }

    /** `answer` is what the pending query returns. */
    method QueryPending(socket: SocketId, answer: seq<MsgId>)
      requires Enabled(State(), Query(socket, answer))
      modifies this`sockets
      ensures State() == Next(old(State()), Query(socket, answer))
    {
      sockets := sockets[socket := sockets[socket].(phase := Flushing(answer))];
    }

    ghost predicate FlushedSoFar(start: Relay, socket: SocketId, answer: seq<MsgId>, i: nat)
      requires socket in start.sockets && i <= |answer|
      reads this
    {
      && socket in sockets && sockets[socket].phase == Flushing(answer[i..])
      && sockets[socket].channel == start.sockets[socket].channel + answer[..i]
      && TakeSteps(start, FlushSteps(socket, answer, i)) == Some(State())
    }

    /** One round of the flush loop. */
    method PushNext(ghost start: Relay, socket: SocketId, ghost answer: seq<MsgId>, ghost i: nat)
      requires socket in start.sockets && i < |answer| && FlushedSoFar(start, socket, answer, i)
      modifies this`sockets
      ensures FlushedSoFar(start, socket, answer, i + 1)
    {
      OneMoreStep(start, FlushSteps(socket, answer, i), FlushRow(socket));
      PushRow(socket);
    }

    method PushRow(socket: SocketId)
      requires Enabled(State(), FlushRow(socket))
      modifies this`sockets
      ensures State() == Next(old(State()), FlushRow(socket))
    {
      var s := sockets[socket];
      var todo := s.phase.todo;
      sockets := sockets[socket := Socket(s.device, s.channel + [todo[0]], Flushing(todo[1..]))];
    }

    /** The pending query and its flush: each undelivered row of the device once, in the
        order of the answer. */
    method FlushPending(socket: SocketId, answer: seq<MsgId>)
      requires Enabled(State(), Query(socket, answer))
      modifies this`sockets
      ensures TakeSteps(old(State()), FlushSteps(socket, answer, |answer|) + [EndFlush(socket)]) == Some(State())
      ensures socket in sockets && sockets[socket].channel == old(sockets)[socket].channel + answer
    {
      ghost var start := State();
      QueryPending(socket, answer);
      for i := 0 to |answer|
        invariant FlushedSoFar(start, socket, answer, i)
      {
        PushNext(start, socket, answer, i);
      }
      OneMoreStep(start, FlushSteps(socket, answer, |answer|), EndFlush(socket));
      FinishFlush(socket);
    }

    /** `recv_task.abort()` while the handler waits for its INSERT. */
    method AbortSend(id: MsgId)
      requires Enabled(State(), Abort(id))
      modifies this`sends
      ensures State() == Next(old(State()), Abort(id))
    {
      sends := sends - {id};
    }

    method FinishFlush(socket: SocketId)
      requires Enabled(State(), EndFlush(socket))
      modifies this`sockets
      ensures State() == Next(old(State()), EndFlush(socket))
    {
      sockets := sockets[socket := sockets[socket].(phase := Flushed)];
    }

    method Unregister(d: Device)
      modifies this`registry
      ensures State() == Next(old(State()), Revoke(d))
    {
      registry := registry - {d};
    }

    method CleanUp(socket: SocketId)
      requires Enabled(State(), Cleanup(socket))
      modifies this
      ensures State() == Next(old(State()), Cleanup(socket))
    {
      registry := registry - {sockets[socket].device};
      sockets := sockets - {socket};
    }

    method Acknowledge(id: MsgId)
      requires Enabled(State(), Ack(id))
      modifies this`rows
      ensures State() == Next(old(State()), Ack(id))
    {
      rows := rows[id := rows[id].(delivered := true)];
    }

    /** A step of the theorems is a call of the method it names. */
    method Perform(step: Step)
      requires Enabled(State(), step)
      modifies this
      ensures State() == Next(old(State()), step)
    {
      match step
      case Insert(id, to, now, persisted) => InsertRow(id, to, now, persisted);
      case Abort(id) => AbortSend(id);
      case Look(id) => var _ := LookUp(id);
      case Deliver(id) => DeliverEvent(id);
      case Connect(socket, d) => Register(socket, d);
      case Query(socket, answer) => QueryPending(socket, answer);
      case FlushRow(socket) => PushRow(socket);
      case EndFlush(socket) => FinishFlush(socket);
      case Cleanup(socket) => CleanUp(socket);
      case Revoke(d) => Unregister(d);
      case Ack(id) => Acknowledge(id);
    }
  }
}
