/**
 No missed message, on one backend instance (crates/backend/src/ws.rs). Sending
 inserts the row first and looks in the registry afterwards (lines 822-877);
 connecting registers first and queries the pending rows afterwards (lines 299-354).
 The steps below are the points where the two, for any number of messages, devices
 and sockets, may interleave.
 */
module Delivery {
  type Device = nat

  type MsgId = nat

  type SocketId = nat

  datatype Row = Row(to: Device, createdAt: int, delivered: bool)

  /** `handle_socket` after authentication: registered, then flushing the rows its
      query returned, in their order, then in its message loop. */
  datatype Phase = Registered | Flushing(todo: seq<MsgId>) | Flushed

  datatype Socket = Socket(device: Device, channel: seq<MsgId>, phase: Phase)

  /** `MESSAGE_SEND` after its INSERT: before and after the first registry lookup. */
  datatype Progress = Inserted | Looked(found: bool)

  datatype Sending = Sending(to: Device, progress: Progress)

  datatype Relay = Relay(
    rows: map<MsgId, Row>,
    registry: map<Device, SocketId>,
    sockets: map<SocketId, Socket>,
    sends: map<MsgId, Sending>)

  const START := Relay(map[], map[], map[], map[])

  datatype Step =
    | Insert(id: MsgId, to: Device, now: int, persisted: bool)  // INSERT INTO encrypted_messages
    | Abort(id: MsgId)                                // recv_task.abort() at the INSERT's await
    | Look(id: MsgId)                                 // connections.contains_key(recipient)
    | Deliver(id: MsgId)                              // deliver_event_to_device
    | Connect(socket: SocketId, device: Device)       // connections.insert(device, tx)
    | Query(socket: SocketId, answer: seq<MsgId>)     // SELECT .. WHERE delivered_at IS NULL
    | FlushRow(socket: SocketId)                      // tx.send of the next pending row
    | EndFlush(socket: SocketId)
    | Cleanup(socket: SocketId)                       // connections.remove(device)
    | Revoke(device: Device)                          // connections.remove(device) by a handler
    | Ack(id: MsgId)                                  // SET delivered_at

  /** The rows the pending query returns for a device. */
  function PendingRows(r: Relay, d: Device): set<MsgId> {
    set m | m in r.rows && r.rows[m].to == d && !r.rows[m].delivered
  }

  /** ORDER BY created_at: every pending row once, older ones first. */
  ghost predicate PendingInOrder(r: Relay, d: Device, answer: seq<MsgId>) {
    && (forall m :: m in answer <==> m in PendingRows(r, d))
    && (forall i, j :: 0 <= i < j < |answer| ==> answer[i] != answer[j])
    && forall i, j :: 0 <= i < j < |answer| && answer[i] in r.rows && answer[j] in r.rows ==>
         r.rows[answer[i]].createdAt <= r.rows[answer[j]].createdAt
  }

  /** What the code's own control flow lets happen next. */
  ghost predicate Enabled(r: Relay, step: Step) {
    match step
    case Insert(id, _, _, _) => id !in r.rows && id !in r.sends
    case Abort(id) => id in r.sends && r.sends[id].progress == Inserted
    case Look(id) => id in r.sends && r.sends[id].progress == Inserted
    case Deliver(id) => id in r.sends && r.sends[id].progress.Looked?
    case Connect(socket, _) => socket !in r.sockets
    case Query(socket, answer) =>
      && socket in r.sockets && r.sockets[socket].phase == Registered
      && PendingInOrder(r, r.sockets[socket].device, answer)
    case FlushRow(socket) =>
      socket in r.sockets && r.sockets[socket].phase.Flushing? && r.sockets[socket].phase.todo != []
    case EndFlush(socket) => socket in r.sockets && r.sockets[socket].phase == Flushing([])
    case Cleanup(socket) => socket in r.sockets && r.sockets[socket].phase == Flushed
    case Revoke(_) => true
    case Ack(id) => id in r.rows
  }

  /** `deliver_event_to_device`: to the registered socket's channel, if there is one. */
  function Push(r: Relay, d: Device, id: MsgId): Relay {
    if d in r.registry && r.registry[d] in r.sockets then
      var c := r.registry[d];
      r.(sockets := r.sockets[c := r.sockets[c].(channel := r.sockets[c].channel + [id])])
    else r
  }

  ghost function Next(r: Relay, step: Step): Relay
    requires Enabled(r, step)
  {
    match step
    case Insert(id, to, now, persisted) =>
      r.(rows := if persisted then r.rows[id := Row(to, now, false)] else r.rows,
         sends := r.sends[id := Sending(to, Inserted)])
    case Abort(id) => r.(sends := r.sends - {id})
    case Look(id) =>
      r.(sends := r.sends[id := r.sends[id].(progress := Looked(r.sends[id].to in r.registry))])
    case Deliver(id) => Push(r, r.sends[id].to, id).(sends := r.sends - {id})
    case Connect(socket, d) =>
      r.(registry := r.registry[d := socket], sockets := r.sockets[socket := Socket(d, [], Registered)])
    case Query(socket, answer) =>
      r.(sockets := r.sockets[socket := r.sockets[socket].(phase := Flushing(answer))])
    case FlushRow(socket) =>
      var s := r.sockets[socket];
      r.(sockets := r.sockets[socket := Socket(s.device, s.channel + [s.phase.todo[0]], Flushing(s.phase.todo[1..]))])
    case EndFlush(socket) => r.(sockets := r.sockets[socket := r.sockets[socket].(phase := Flushed)])
    case Cleanup(socket) =>
      r.(registry := r.registry - {r.sockets[socket].device}, sockets := r.sockets - {socket})
    case Revoke(d) => r.(registry := r.registry - {d})
    case Ack(id) => r.(rows := r.rows[id := r.rows[id].(delivered := true)])
  }

  // ── Runs and what happened in them ──────────────────────────────────────────

  /** The messages whose insert, and whose abort, has happened. */
  function Begun(past: seq<Step>): set<MsgId> {
    if past == [] then {}
    else
      var step := past[|past| - 1];
      Begun(past[..|past| - 1]) + if step.Insert? then {step.id} else {}
  }

  function Aborted(past: seq<Step>): set<MsgId> {
    if past == [] then {}
    else
      var step := past[|past| - 1];
      Aborted(past[..|past| - 1]) + if step.Abort? then {step.id} else {}
  }

  function Opened(past: seq<Step>): set<SocketId> {
    if past == [] then {}
    else
      var step := past[|past| - 1];
      Opened(past[..|past| - 1]) + if step.Connect? then {step.socket} else {}
  }

  /** What the pending query of one socket returned. */
  function Answered(past: seq<Step>, s: SocketId): set<MsgId> {
    if past == [] then {}
    else
      var step := past[|past| - 1];
      Answered(past[..|past| - 1], s)
      + if step.Query? && step.socket == s then set m | m in step.answer else {}
  }

  /** Message ids are generated (`Uuid::new_v4`), and every connection is a new one. */
  predicate IsNew(past: seq<Step>, step: Step) {
    (step.Insert? ==> step.id !in Begun(past)) && (step.Connect? ==> step.socket !in Opened(past))
  }

  ghost predicate IsRun(rs: seq<Relay>, steps: seq<Step>) {
    && |rs| == |steps| + 1
    && rs[0] == START
    && forall i :: 0 <= i < |steps| ==>
         Enabled(rs[i], steps[i]) && IsNew(steps[..i], steps[i]) && rs[i + 1] == Next(rs[i], steps[i])
  }

  lemma OneMore(past: seq<Step>, step: Step)
    ensures Begun(past + [step]) == Begun(past) + if step.Insert? then {step.id} else {}
    ensures Aborted(past + [step]) == Aborted(past) + if step.Abort? then {step.id} else {}
    ensures Opened(past + [step]) == Opened(past) + if step.Connect? then {step.socket} else {}
  {
    assert (past + [step])[..|past|] == past;
  }

  lemma OneMoreAnswer(past: seq<Step>, step: Step, s: SocketId)
    ensures Answered(past + [step], s)
         == Answered(past, s) + if step.Query? && step.socket == s then set m | m in step.answer else {}
  {
    assert (past + [step])[..|past|] == past;
  }

  // ── The invariant ───────────────────────────────────────────────────────────

  ghost predicate RegistryOk(r: Relay) {
    forall d :: d in r.registry ==> r.registry[d] in r.sockets && r.sockets[r.registry[d]].device == d
  }

  /** Sends in progress were begun and not aborted; live sockets were opened. */
  ghost predicate Known(r: Relay, past: seq<Step>) {
    && r.rows.Keys <= Begun(past) && r.sends.Keys <= Begun(past) && Aborted(past) <= Begun(past)
    && r.sends.Keys !! Aborted(past)
    && r.sockets.Keys <= Opened(past)
    && forall s :: s !in Opened(past) ==> Answered(past, s) == {}
  }

  function Todo(s: Socket): seq<MsgId> {
    if s.phase.Flushing? then s.phase.todo else []
  }

  /** What a socket was sent or is about to be: all of its query's answer, and besides
      only messages whose send reached its end. */
  ghost predicate SocketOk(r: Relay, past: seq<Step>, s: SocketId)
    requires s in r.sockets
  {
    var c, answered := r.sockets[s], Answered(past, s);
    && (c.phase.Registered? ==> answered == {})
    && (forall m :: m in answered ==> m in c.channel || m in Todo(c))
    && (forall m :: m in Todo(c) ==> m in answered)
    && forall m :: m in c.channel ==>
         m in answered || (m in Begun(past) && m !in r.sends && m !in Aborted(past))
  }

  /** The row `m` is pending for a registered device. */
  ghost predicate Awaited(r: Relay, m: MsgId) {
    m in r.rows && !r.rows[m].delivered && r.rows[m].to in r.registry
  }

  /** A pending row is accounted for at its device's registered socket: it is on the
      channel, or in the flush under way, or its send has yet to look or was aborted. */
  ghost predicate AccountedFor(r: Relay, past: seq<Step>, d: Device, m: MsgId)
    requires RegistryOk(r) && d in r.registry
  {
    var c := r.sockets[r.registry[d]];
    || c.phase.Registered?
    || m in c.channel
    || m in Todo(c)
    || (m in r.sends && r.sends[m].to == d)
    || m in Aborted(past)
  }

  ghost predicate Inv(r: Relay, past: seq<Step>) {
    && RegistryOk(r) && Known(r, past)
    && (forall s :: s in r.sockets ==> SocketOk(r, past, s))
    && forall m :: Awaited(r, m) ==> AccountedFor(r, past, r.rows[m].to, m)
  }

  lemma StepKnown(r: Relay, past: seq<Step>, step: Step)
    requires RegistryOk(r) && Known(r, past) && Enabled(r, step) && IsNew(past, step)
    ensures RegistryOk(Next(r, step)) && Known(Next(r, step), past + [step])
  {
    OneMore(past, step);
    forall s | s !in Opened(past + [step])
      ensures Answered(past + [step], s) == {}
    {
      OneMoreAnswer(past, step, s);
    }
  }

  lemma StepSocket(r: Relay, past: seq<Step>, step: Step, s: SocketId)
    requires RegistryOk(r) && Known(r, past) && Enabled(r, step) && IsNew(past, step)
    requires s in Next(r, step).sockets && (s in r.sockets ==> SocketOk(r, past, s))
    ensures SocketOk(Next(r, step), past + [step], s)
  {
    OneMore(past, step);
    OneMoreAnswer(past, step, s);
  }

  lemma SocketStepAccounted(r: Relay, past: seq<Step>, step: Step, m: MsgId)
    requires RegistryOk(r) && Awaited(r, m) && AccountedFor(r, past, r.rows[m].to, m) && Enabled(r, step)
    requires step.Query? || step.FlushRow? || step.EndFlush?
    ensures RegistryOk(Next(r, step)) && AccountedFor(Next(r, step), past + [step], r.rows[m].to, m)
  {
    OneMore(past, step);
  }

  lemma SendStepAccounted(r: Relay, past: seq<Step>, step: Step, m: MsgId)
    requires RegistryOk(r) && Awaited(r, m) && AccountedFor(r, past, r.rows[m].to, m) && Enabled(r, step)
    requires step.Insert? || step.Abort? || step.Look? || step.Deliver?
    ensures RegistryOk(Next(r, step)) && AccountedFor(Next(r, step), past + [step], r.rows[m].to, m)
  {
    OneMore(past, step);
  }

  lemma NewRowAccounted(r: Relay, past: seq<Step>, step: Step)
    requires RegistryOk(r) && Enabled(r, step) && step.Insert? && Awaited(Next(r, step), step.id)
    ensures AccountedFor(Next(r, step), past + [step], step.to, step.id)
  {
  }

  lemma RegistryStepAccounted(r: Relay, past: seq<Step>, step: Step, m: MsgId)
    requires RegistryOk(r) && Enabled(r, step) && Awaited(Next(r, step), m)
    requires step.Connect? || step.Cleanup? || step.Revoke? || step.Ack?
    requires Awaited(r, m) ==> AccountedFor(r, past, r.rows[m].to, m)
    ensures RegistryOk(Next(r, step)) && AccountedFor(Next(r, step), past + [step], r.rows[m].to, m)
  {
    OneMore(past, step);
  }

  lemma StepAccounted(r: Relay, past: seq<Step>, step: Step, m: MsgId)
    requires RegistryOk(r) && Enabled(r, step) && (Awaited(r, m) ==> AccountedFor(r, past, r.rows[m].to, m))
    requires RegistryOk(Next(r, step)) && Awaited(Next(r, step), m)
    ensures AccountedFor(Next(r, step), past + [step], Next(r, step).rows[m].to, m)
  {
    if step.Connect? || step.Cleanup? || step.Revoke? || step.Ack? {
      RegistryStepAccounted(r, past, step, m);
    } else if step.Insert? && step.id == m {
      NewRowAccounted(r, past, step);
    } else if step.Query? || step.FlushRow? || step.EndFlush? {
      SocketStepAccounted(r, past, step, m);
    } else {
      SendStepAccounted(r, past, step, m);
    }
  }

  lemma StepInv(r: Relay, past: seq<Step>, step: Step)
    requires Inv(r, past) && Enabled(r, step) && IsNew(past, step)
    ensures Inv(Next(r, step), past + [step])
  {
    var r' := Next(r, step);
    StepKnown(r, past, step);
    forall s | s in r'.sockets
      ensures SocketOk(r', past + [step], s)
    {
      StepSocket(r, past, step, s);
    }
    forall m | Awaited(r', m)
      ensures AccountedFor(r', past + [step], r'.rows[m].to, m)
    {
      StepAccounted(r, past, step, m);
    }
  }

  lemma {:induction false} RunInv(rs: seq<Relay>, steps: seq<Step>, i: nat)
    requires IsRun(rs, steps) && i < |rs|
    ensures Inv(rs[i], steps[..i])
  {
    if i > 0 {
      RunInv(rs, steps, i - 1);
      StepInv(rs[i - 1], steps[..i - 1], steps[i - 1]);
      assert steps[..i - 1] + [steps[i - 1]] == steps[..i];
    }
  }

  // ── The guarantee ───────────────────────────────────────────────────────────

  ghost predicate Settled(r: Relay, d: Device) {
    && d in r.registry && r.registry[d] in r.sockets
    && r.sockets[r.registry[d]].phase == Flushed
    && forall m :: m in r.sends ==> r.sends[m].to != d
  }

  ghost predicate WasAborted(steps: seq<Step>, i: nat, m: MsgId) {
    exists j :: 0 <= j < i <= |steps| && steps[j] == Abort(m)
  }

  ghost predicate WasAnswered(steps: seq<Step>, i: nat, s: SocketId, m: MsgId) {
    exists j :: 0 <= j < i <= |steps| && steps[j].Query? && steps[j].socket == s && m in steps[j].answer
  }

  lemma {:induction false} AbortedMeans(steps: seq<Step>, i: nat, m: MsgId)
    requires i <= |steps|
    ensures m in Aborted(steps[..i]) <==> WasAborted(steps, i, m)
  {
    if i > 0 {
      AbortedMeans(steps, i - 1, m);
      assert steps[..i] == steps[..i - 1] + [steps[i - 1]];
      OneMore(steps[..i - 1], steps[i - 1]);
    }
  }

  lemma {:induction false} AnsweredMeans(steps: seq<Step>, i: nat, s: SocketId, m: MsgId)
    requires i <= |steps|
    ensures m in Answered(steps[..i], s) <==> WasAnswered(steps, i, s, m)
  {
    if i > 0 {
      AnsweredMeans(steps, i - 1, s, m);
      assert steps[..i] == steps[..i - 1] + [steps[i - 1]];
      OneMoreAnswer(steps[..i - 1], steps[i - 1], s);
    }
  }

  /**
   Whenever a device is registered, its socket has flushed and no send to it is in
   progress, a stored undelivered row for it is missing from that socket's channel
   exactly when its send was aborted at the insert and the socket's own pending query
   did not return it. This holds for every interleaving, also with several sockets of
   one device.
   */
  lemma NoMissedMessage(rs: seq<Relay>, steps: seq<Step>, i: nat, d: Device, m: MsgId)
    requires IsRun(rs, steps) && i < |rs| && Settled(rs[i], d) && m in PendingRows(rs[i], d)
    ensures var s := rs[i].registry[d];
            m !in rs[i].sockets[s].channel <==> WasAborted(steps, i, m) && !WasAnswered(steps, i, s, m)
  {
    var s := rs[i].registry[d];
    RunInv(rs, steps, i);
    AbortedMeans(steps, i, m);
    AnsweredMeans(steps, i, s, m);
    assert AccountedFor(rs[i], steps[..i], d, m);
    assert SocketOk(rs[i], steps[..i], s);
  }

  // ── Live sockets instead of registered ones ─────────────────────────────────

  /** The device opens a socket only when it has none, and no handler drops it. */
  ghost predicate OneSocket(rs: seq<Relay>, steps: seq<Step>, d: Device)
    requires |rs| == |steps| + 1
  {
    forall i :: 0 <= i < |steps| ==>
      && steps[i] != Revoke(d)
      && (steps[i].Connect? && steps[i].device == d ==>
            forall s :: s in rs[i].sockets ==> rs[i].sockets[s].device != d)
  }

  ghost predicate AllRegistered(r: Relay, d: Device) {
    forall s :: s in r.sockets && r.sockets[s].device == d ==> d in r.registry && r.registry[d] == s
  }

  lemma OneSocketStep(r: Relay, step: Step, d: Device)
    requires RegistryOk(r) && AllRegistered(r, d) && Enabled(r, step) && step != Revoke(d)
    requires step.Connect? && step.device == d ==> forall s :: s in r.sockets ==> r.sockets[s].device != d
    ensures AllRegistered(Next(r, step), d)
  {
  }

  lemma {:induction false} OneSocketRegistered(rs: seq<Relay>, steps: seq<Step>, i: nat, d: Device)
    requires IsRun(rs, steps) && OneSocket(rs, steps, d) && i < |rs|
    ensures AllRegistered(rs[i], d)
  {
    if i > 0 {
      OneSocketRegistered(rs, steps, i - 1, d);
      RunInv(rs, steps, i - 1);
      OneSocketStep(rs[i - 1], steps[i - 1], d);
    }
  }

  /** With one socket of its device at a time, being connected is as good as registered. */
  lemma LiveSocketMissesNothing(rs: seq<Relay>, steps: seq<Step>, i: nat, s: SocketId, m: MsgId)
    requires IsRun(rs, steps) && i < |rs| && s in rs[i].sockets && rs[i].sockets[s].phase == Flushed
    requires OneSocket(rs, steps, rs[i].sockets[s].device)
    requires forall k :: k in rs[i].sends ==> rs[i].sends[k].to != rs[i].sockets[s].device
    requires m in PendingRows(rs[i], rs[i].sockets[s].device)
    ensures m !in rs[i].sockets[s].channel <==> WasAborted(steps, i, m) && !WasAnswered(steps, i, s, m)
  {
    OneSocketRegistered(rs, steps, i, rs[i].sockets[s].device);
    assert Settled(rs[i], rs[i].sockets[s].device);
    NoMissedMessage(rs, steps, i, rs[i].sockets[s].device, m);
  }

  /** What one whole MESSAGE_SEND does when nothing comes between its three points. */
  ghost function SendNow(r: Relay, id: MsgId, d: Device, now: int, persisted: bool): Relay
    requires id !in r.rows && id !in r.sends
  {
    Next(Next(Next(r, Insert(id, d, now, persisted)), Look(id)), Deliver(id))
  }

  /** A live socket is sent its device's next message exactly when it is the registered one. */
  lemma ReachedExactly(r: Relay, s: SocketId, m: MsgId, now: int)
    requires RegistryOk(r) && s in r.sockets && m !in r.rows && m !in r.sends && m !in r.sockets[s].channel
    ensures var d := r.sockets[s].device;
            m in SendNow(r, m, d, now, true).sockets[s].channel <==> d in r.registry && r.registry[d] == s
    ensures m in PendingRows(SendNow(r, m, r.sockets[s].device, now, true), r.sockets[s].device)
  {
    var d := r.sockets[s].device;
    var looked := Next(Next(r, Insert(m, d, now, true)), Look(m));
    assert looked.registry == r.registry && looked.sockets == r.sockets && looked.sends[m].to == d;
    assert SendNow(r, m, d, now, true).sockets == Push(looked, d, m).sockets;
  }

  /** Without it, it is not: cleaning up a device's first socket unregisters its
      second, and messages pass the second by until its next heartbeat finds no registry
      entry and closes it (crates/backend/src/ws.rs, lines 503-511). */
  lemma SecondSocketMissesMessage() returns (rs: seq<Relay>, steps: seq<Step>)
    ensures IsRun(rs, steps)
    ensures var r := rs[|steps|];
            && 2 in r.sockets && r.sockets[2].device == 7 && r.sockets[2].phase == Flushed
            && r.sends == map[]
            && 5 in PendingRows(r, 7) && 5 !in r.sockets[2].channel
  {
    rs, steps := SecondSocketAlone();
    var r := rs[|steps|];
    rs, steps := Extend(rs, steps, Insert(5, 7, 0, true));
    rs, steps := Extend(rs, steps, Look(5));
    rs, steps := Extend(rs, steps, Deliver(5));
    assert rs[|steps|] == SendNow(r, 5, 7, 0, true);
    assert rs[|steps|].sends == map[];
  }

  lemma SecondSocketAlone() returns (rs: seq<Relay>, steps: seq<Step>)
    ensures IsRun(rs, steps)
    ensures rs[|steps|] == Relay(map[], map[], map[2 := Socket(7, [], Flushed)], map[]) && Begun(steps) == {}
  {
    steps := [];
    rs := [START];
    rs, steps := ConnectFlushed(rs, steps, 1);
    rs, steps := ConnectFlushed(rs, steps, 2);
    rs, steps := Extend(rs, steps, Cleanup(1));
    assert rs[|steps|].sockets == map[2 := Socket(7, [], Flushed)];
    assert rs[|steps|].registry == map[];
  }

  lemma NewSocketIsDead(rs: seq<Relay>, steps: seq<Step>, s: SocketId)
    requires IsRun(rs, steps) && s !in Opened(steps)
    ensures s !in rs[|steps|].sockets
  {
    RunInv(rs, steps, |steps|);
    assert steps[..|steps|] == steps;
  }

  lemma ConnectFlushed(rs: seq<Relay>, steps: seq<Step>, s: SocketId) returns (rs': seq<Relay>, steps': seq<Step>)
    requires IsRun(rs, steps) && s !in Opened(steps) && rs[|steps|].rows == map[]
    ensures IsRun(rs', steps') && Opened(steps') == Opened(steps) + {s} && Begun(steps') == Begun(steps)
    ensures var r := rs[|steps|];
            rs'[|steps'|] == r.(registry := r.registry[7 := s], sockets := r.sockets[s := Socket(7, [], Flushed)])
  {
    NewSocketIsDead(rs, steps, s);
    rs', steps' := Extend(rs, steps, Connect(s, 7));
    rs', steps' := FlushNothing(rs', steps', s);
    var r := rs[|steps|];
    assert r.sockets[s := Socket(7, [], Registered)][s := Socket(7, [], Flushed)]
        == r.sockets[s := Socket(7, [], Flushed)];
  }

  lemma FlushNothing(rs: seq<Relay>, steps: seq<Step>, s: SocketId) returns (rs': seq<Relay>, steps': seq<Step>)
    requires IsRun(rs, steps) && rs[|steps|].rows == map[]
    requires s in rs[|steps|].sockets && rs[|steps|].sockets[s] == Socket(7, [], Registered)
    ensures IsRun(rs', steps') && Opened(steps') == Opened(steps) && Begun(steps') == Begun(steps)
    ensures var r := rs[|steps|]; rs'[|steps'|] == r.(sockets := r.sockets[s := Socket(7, [], Flushed)])
  {
    var r := rs[|steps|];
    assert PendingRows(r, 7) == {};
    rs', steps' := Extend(rs, steps, Query(s, []));
    rs', steps' := Extend(rs', steps', EndFlush(s));
    assert r.sockets[s := Socket(7, [], Flushing([]))][s := Socket(7, [], Flushed)]
        == r.sockets[s := Socket(7, [], Flushed)];
  }

  /** A send cut off at its INSERT leaves a row that a connected device is not sent. */
  lemma AbortedSendStrands() returns (rs: seq<Relay>, steps: seq<Step>)
    ensures IsRun(rs, steps)
    ensures var r := rs[|steps|];
            Settled(r, 7) && 5 in PendingRows(r, 7) && 5 !in r.sockets[r.registry[7]].channel
  {
    steps := [];
    rs := [START];
    rs, steps := ConnectFlushed(rs, steps, 1);
    rs, steps := Extend(rs, steps, Insert(5, 7, 0, true));
    rs, steps := Extend(rs, steps, Abort(5));
    assert rs[|steps|].sends == map[];
  }

  lemma Extend(rs: seq<Relay>, steps: seq<Step>, step: Step) returns (rs': seq<Relay>, steps': seq<Step>)
    requires IsRun(rs, steps) && Enabled(rs[|steps|], step) && IsNew(steps, step)
    ensures IsRun(rs', steps') && steps' == steps + [step] && rs'[|steps'|] == Next(rs[|steps|], step)
    ensures Opened(steps') == Opened(steps) + (if step.Connect? then {step.socket} else {})
    ensures Begun(steps') == Begun(steps) + (if step.Insert? then {step.id} else {})
  {
    rs' := rs + [Next(rs[|steps|], step)];
    steps' := steps + [step];
    OneMore(steps, step);
    forall i | 0 <= i < |steps'|
      ensures Enabled(rs'[i], steps'[i]) && IsNew(steps'[..i], steps'[i]) && rs'[i + 1] == Next(rs'[i], steps'[i])
    {
      assert steps'[..i] == steps[..i];
      assert steps[..|steps|] == steps;
    }
  }
}
