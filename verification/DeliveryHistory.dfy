/**
 The relay's state at a point of a run, read off the steps before it: which rows are
 pending, which sends are under way, which sockets are live, registered and flushed, and
 what was put on a channel.
 */
module DeliveryHistory {
  import opened Delivery
  import opened Traces

  // ── Steps ───────────────────────────────────────────────────────────────────

  function Begins(m: MsgId, d: Device): (Relay, Step) -> bool {
    (r: Relay, step: Step) => step.Insert? && step.id == m && step.to == d
  }

  /** The INSERT that succeeds. */
  function Stores(m: MsgId, d: Device): (Relay, Step) -> bool {
    (r: Relay, step: Step) => step.Insert? && step.id == m && step.to == d && step.persisted
  }

  function Acks(m: MsgId): (Relay, Step) -> bool {
    (r: Relay, step: Step) => step == Ack(m)
  }

  function Aborts(m: MsgId): (Relay, Step) -> bool {
    (r: Relay, step: Step) => step == Abort(m)
  }

  function Ends(m: MsgId): (Relay, Step) -> bool {
    (r: Relay, step: Step) => step == Abort(m) || step == Deliver(m)
  }

  function Opens(s: SocketId, d: Device): (Relay, Step) -> bool {
    (r: Relay, step: Step) => step == Connect(s, d)
  }

  function Closes(s: SocketId): (Relay, Step) -> bool {
    (r: Relay, step: Step) => step == Cleanup(s)
  }

  /** What takes a device's registry entry from the socket that has it. */
  function Drops(d: Device): (Relay, Step) -> bool {
    (r: Relay, step: Step) =>
      || step == Revoke(d)
      || (step.Connect? && step.device == d)
      || (step.Cleanup? && step.socket in r.sockets && r.sockets[step.socket].device == d)
  }

  function Answers(s: SocketId, m: MsgId): (Relay, Step) -> bool {
    (r: Relay, step: Step) => step.Query? && step.socket == s && m in step.answer
  }

  function Queries(s: SocketId): (Relay, Step) -> bool {
    (r: Relay, step: Step) => step.Query? && step.socket == s
  }

  function Flushes(s: SocketId): (Relay, Step) -> bool {
    (r: Relay, step: Step) => step == EndFlush(s)
  }

  /** What a step puts on a socket's channel: a message delivered while its device is
      registered with that socket, or the next row of its flush. */
  function PutsOn(s: SocketId): (Relay, Step) -> seq<MsgId> {
    (r: Relay, step: Step) =>
      if step.Deliver? && step.id in r.sends && r.sends[step.id].to in r.registry && r.registry[r.sends[step.id].to] == s
      then [step.id]
      else if step.FlushRow? && step.socket == s && s in r.sockets && Todo(r.sockets[s]) != [] then [Todo(r.sockets[s])[0]]
      else []
  }

  // ── Rows ────────────────────────────────────────────────────────────────────

  lemma StepRow(r: Relay, step: Step, m: MsgId, d: Device)
    requires Enabled(r, step) && (step.Insert? && step.id == m ==> m !in r.rows)
    ensures m in Next(r, step).rows && Next(r, step).rows[m].to == d
       <==> (m in r.rows && r.rows[m].to == d) || Stores(m, d)(r, step)
    ensures m in Next(r, step).rows ==>
              (Next(r, step).rows[m].delivered <==> (m in r.rows && r.rows[m].delivered) || Acks(m)(r, step))
    ensures Acks(m)(r, step) ==> m in r.rows
  {
  }

  lemma {:induction false} RowsExactly(rs: seq<Relay>, steps: seq<Step>, i: nat, m: MsgId, d: Device)
    requires IsRun(rs, steps) && i < |rs|
    ensures m in rs[i].rows && rs[i].rows[m].to == d <==> Ever(rs, steps, i, Stores(m, d))
    ensures m in rs[i].rows ==> (rs[i].rows[m].delivered <==> Ever(rs, steps, i, Acks(m)))
    ensures Ever(rs, steps, i, Acks(m)) ==> m in rs[i].rows
  {
    if i > 0 {
      RowsExactly(rs, steps, i - 1, m, d);
      RunInv(rs, steps, i - 1);
      StepRow(rs[i - 1], steps[i - 1], m, d);
      EverNext(rs, steps, i - 1, Stores(m, d));
      EverNext(rs, steps, i - 1, Acks(m));
    }
  }

  /** A row is pending for a device exactly when it was stored for it and never acknowledged. */
  lemma PendingExactly(rs: seq<Relay>, steps: seq<Step>, i: nat, m: MsgId, d: Device)
    requires IsRun(rs, steps) && i < |rs|
    ensures m in PendingRows(rs[i], d) <==> Ever(rs, steps, i, Stores(m, d)) && !Ever(rs, steps, i, Acks(m))
  {
    RowsExactly(rs, steps, i, m, d);
  }

  /** What the arguments below need of one step of a run. */
  lemma RunStep(rs: seq<Relay>, steps: seq<Step>, i: nat)
    requires IsRun(rs, steps) && i < |steps|
    ensures RegistryOk(rs[i]) && Enabled(rs[i], steps[i]) && rs[i + 1] == Next(rs[i], steps[i])
  {
    RunInv(rs, steps, i);
  }

  // ── Sends ───────────────────────────────────────────────────────────────────

  lemma StepSend(r: Relay, step: Step, m: MsgId, d: Device)
    requires Enabled(r, step)
    ensures m in Next(r, step).sends && Next(r, step).sends[m].to == d
       <==> Begins(m, d)(r, step) || (m in r.sends && r.sends[m].to == d && !Ends(m)(r, step))
    ensures Ends(m)(r, step) ==> m in r.sends
  {
  }

  /** A send is under way exactly from its insert to its abort or delivery. */
  lemma SendsExactly(rs: seq<Relay>, steps: seq<Step>, i: nat, m: MsgId, d: Device)
    requires IsRun(rs, steps) && i < |rs|
    ensures m in rs[i].sends && rs[i].sends[m].to == d <==> Since(rs, steps, i, Begins(m, d), Ends(m))
  {
    forall j | 0 <= j < i
      ensures m in rs[j + 1].sends && rs[j + 1].sends[m].to == d
         <==> Begins(m, d)(rs[j], steps[j]) || (m in rs[j].sends && rs[j].sends[m].to == d && !Ends(m)(rs[j], steps[j]))
    {
      StepSend(rs[j], steps[j], m, d);
    }
    SinceBuilds(rs, steps, i, (r: Relay) => m in r.sends && r.sends[m].to == d, Begins(m, d), Ends(m));
  }

  // ── Sockets and the registry ────────────────────────────────────────────────

  lemma StepSockets(r: Relay, step: Step, s: SocketId, d: Device)
    requires RegistryOk(r) && Enabled(r, step)
    ensures s in Next(r, step).sockets && Next(r, step).sockets[s].device == d
       <==> Opens(s, d)(r, step) || (s in r.sockets && r.sockets[s].device == d && !Closes(s)(r, step))
  {
  }

  /** A socket lives from its connection to its cleanup, whoever else comes and goes. */
  lemma SocketsExactly(rs: seq<Relay>, steps: seq<Step>, i: nat, s: SocketId, d: Device)
    requires IsRun(rs, steps) && i < |rs|
    ensures s in rs[i].sockets && rs[i].sockets[s].device == d <==> Since(rs, steps, i, Opens(s, d), Closes(s))
  {
    forall j | 0 <= j < i
      ensures s in rs[j + 1].sockets && rs[j + 1].sockets[s].device == d
         <==> (Opens(s, d)(rs[j], steps[j])
               || (s in rs[j].sockets && rs[j].sockets[s].device == d && !Closes(s)(rs[j], steps[j])))
    {
      RunStep(rs, steps, j);
      StepSockets(rs[j], steps[j], s, d);
    }
    SinceBuilds(rs, steps, i, (r: Relay) => s in r.sockets && r.sockets[s].device == d, Opens(s, d), Closes(s));
  }

  lemma StepRegistry(r: Relay, step: Step, s: SocketId, d: Device)
    requires RegistryOk(r) && Enabled(r, step)
    ensures d in Next(r, step).registry && Next(r, step).registry[d] == s
       <==> Opens(s, d)(r, step) || (d in r.registry && r.registry[d] == s && !Drops(d)(r, step))
  {
  }

  /** A device is registered with the socket that connected last, unless since then a
      socket of it was cleaned up or a handler dropped it. */
  lemma RegistryExactly(rs: seq<Relay>, steps: seq<Step>, i: nat, s: SocketId, d: Device)
    requires IsRun(rs, steps) && i < |rs|
    ensures d in rs[i].registry && rs[i].registry[d] == s <==> Since(rs, steps, i, Opens(s, d), Drops(d))
  {
    forall j | 0 <= j < i
      ensures d in rs[j + 1].registry && rs[j + 1].registry[d] == s
         <==> (Opens(s, d)(rs[j], steps[j])
               || (d in rs[j].registry && rs[j].registry[d] == s && !Drops(d)(rs[j], steps[j])))
    {
      RunStep(rs, steps, j);
      StepRegistry(rs[j], steps[j], s, d);
    }
    SinceBuilds(rs, steps, i, (r: Relay) => d in r.registry && r.registry[d] == s, Opens(s, d), Drops(d));
  }

  lemma StepPhase(r: Relay, step: Step, s: SocketId)
    requires RegistryOk(r) && Enabled(r, step) && s in Next(r, step).sockets
    ensures s in r.sockets ==>
              && (Next(r, step).sockets[s].phase.Registered? <==> r.sockets[s].phase.Registered? && !Queries(s)(r, step))
              && (Next(r, step).sockets[s].phase.Flushed? <==> r.sockets[s].phase.Flushed? || Flushes(s)(r, step))
    ensures s !in r.sockets ==> Next(r, step).sockets[s].phase.Registered? && step.Connect?
  {
  }

  ghost predicate Untouched(rs: seq<Relay>, steps: seq<Step>, i: nat, s: SocketId)
    requires IsTrace(rs, steps, i)
  {
    !Ever(rs, steps, i, Queries(s)) && !Ever(rs, steps, i, Flushes(s))
  }

  lemma {:induction false} NotOpened(rs: seq<Relay>, steps: seq<Step>, i: nat, s: SocketId)
    requires IsRun(rs, steps) && i < |rs| && s !in Opened(steps[..i])
    ensures Untouched(rs, steps, i, s) && Gather(rs, steps, i, PutsOn(s)) == []
  {
    if i > 0 {
      RunInv(rs, steps, i - 1);
      assert steps[..i] == steps[..i - 1] + [steps[i - 1]];
      OneMore(steps[..i - 1], steps[i - 1]);
      NotOpened(rs, steps, i - 1, s);
      EverNext(rs, steps, i - 1, Queries(s));
      EverNext(rs, steps, i - 1, Flushes(s));
      NotLive(rs[i - 1], steps[..i - 1], steps[i - 1], s);
    }
  }

  lemma NotLive(r: Relay, past: seq<Step>, step: Step, s: SocketId)
    requires RegistryOk(r) && Known(r, past) && Enabled(r, step) && s !in Opened(past)
    ensures !Queries(s)(r, step) && !Flushes(s)(r, step) && PutsOn(s)(r, step) == []
  {
  }

  /** A live socket has flushed exactly when its flush ended. */
  lemma {:induction false} PhaseExactly(rs: seq<Relay>, steps: seq<Step>, i: nat, s: SocketId)
    requires IsRun(rs, steps) && i < |rs| && s in rs[i].sockets
    ensures rs[i].sockets[s].phase.Registered? <==> !Ever(rs, steps, i, Queries(s))
    ensures rs[i].sockets[s].phase.Flushed? <==> Ever(rs, steps, i, Flushes(s))
  {
    if i > 0 {
      var r, step := rs[i - 1], steps[i - 1];
      RunStep(rs, steps, i - 1);
      StepPhase(r, step, s);
      EverNext(rs, steps, i - 1, Queries(s));
      EverNext(rs, steps, i - 1, Flushes(s));
      if s in r.sockets {
        PhaseExactly(rs, steps, i - 1, s);
      } else {
        NotOpened(rs, steps, i - 1, s);
      }
    }
  }

  // ── Channels ────────────────────────────────────────────────────────────────

  ghost predicate ChannelGrows(r: Relay, step: Step, s: SocketId, puts: seq<MsgId>)
    requires Enabled(r, step) && s in Next(r, step).sockets
  {
    Next(r, step).sockets[s].channel == (if s in r.sockets then r.sockets[s].channel else []) + puts
  }

  lemma DeliverChannel(r: Relay, id: MsgId, s: SocketId)
    requires RegistryOk(r) && Enabled(r, Deliver(id)) && s in Next(r, Deliver(id)).sockets
    ensures ChannelGrows(r, Deliver(id), s, PutsOn(s)(r, Deliver(id)))
  {
    var to := r.sends[id].to;
    if to in r.registry && r.registry[to] == s {
      assert PutsOn(s)(r, Deliver(id)) == [id];
    } else {
      assert Next(r, Deliver(id)).sockets[s] == r.sockets[s];
      assert PutsOn(s)(r, Deliver(id)) == [];
    }
  }

  lemma FlushChannel(r: Relay, x: SocketId, s: SocketId)
    requires Enabled(r, FlushRow(x)) && s in Next(r, FlushRow(x)).sockets
    ensures ChannelGrows(r, FlushRow(x), s, PutsOn(s)(r, FlushRow(x)))
  {
    if x == s {
      assert Todo(r.sockets[s]) == r.sockets[s].phase.todo;
      assert PutsOn(s)(r, FlushRow(x)) == [r.sockets[s].phase.todo[0]];
    } else {
      assert Next(r, FlushRow(x)).sockets[s] == r.sockets[s];
      assert PutsOn(s)(r, FlushRow(x)) == [];
    }
  }

  lemma SameChannel(r: Relay, step: Step, s: SocketId)
    requires Enabled(r, step) && !step.Deliver? && !step.FlushRow? && s in Next(r, step).sockets
    ensures ChannelGrows(r, step, s, [])
  {
    assert Next(r, step).sockets[s].channel == if s in r.sockets then r.sockets[s].channel else [];
  }

  lemma StepChannel(r: Relay, step: Step, s: SocketId)
    requires RegistryOk(r) && Enabled(r, step) && s in Next(r, step).sockets
    ensures ChannelGrows(r, step, s, PutsOn(s)(r, step))
  {
    match step
    case Deliver(id) => DeliverChannel(r, id, s);
    case FlushRow(x) => FlushChannel(r, x, s);
    case _ =>
      assert PutsOn(s)(r, step) == [];
      SameChannel(r, step, s);
  }

  /** A live socket's channel is what the steps put on it, in their order. */
  lemma {:induction false} ChannelExactly(rs: seq<Relay>, steps: seq<Step>, i: nat, s: SocketId)
    requires IsRun(rs, steps) && i < |rs| && s in rs[i].sockets
    ensures rs[i].sockets[s].channel == Gather(rs, steps, i, PutsOn(s))
  {
    if i > 0 {
      RunStep(rs, steps, i - 1);
      StepChannel(rs[i - 1], steps[i - 1], s);
      if s in rs[i - 1].sockets {
        ChannelExactly(rs, steps, i - 1, s);
      } else {
        NotOpened(rs, steps, i - 1, s);
      }
    }
  }

  // ── No missed message, from the steps alone ─────────────────────────────────

  lemma SameWords(rs: seq<Relay>, steps: seq<Step>, i: nat, s: SocketId, m: MsgId)
    requires IsTrace(rs, steps, i)
    ensures WasAborted(steps, i, m) <==> Ever(rs, steps, i, Aborts(m))
    ensures WasAnswered(steps, i, s, m) <==> Ever(rs, steps, i, Answers(s, m))
  {
    if WasAborted(steps, i, m) {
      var j :| 0 <= j < i && steps[j] == Abort(m);
      assert Aborts(m)(rs[j], steps[j]);
    }
    if WasAnswered(steps, i, s, m) {
      var j :| 0 <= j < i && steps[j].Query? && steps[j].socket == s && m in steps[j].answer;
      assert Answers(s, m)(rs[j], steps[j]);
    }
  }

  /**
   Let `s` be the socket that connected last for `d`, not cleaned up or dropped since,
   with its flush ended, and every send to `d` ended too. A message stored for `d` and
   not acknowledged was not put on that socket's channel exactly when its send was
   aborted and this socket's query did not answer with it.
   */
  lemma MissedExactly(rs: seq<Relay>, steps: seq<Step>, i: nat, s: SocketId, d: Device, m: MsgId)
    requires IsRun(rs, steps) && i < |rs|
    requires Since(rs, steps, i, Opens(s, d), Drops(d)) && Ever(rs, steps, i, Flushes(s))
    requires forall k :: !Since(rs, steps, i, Begins(k, d), Ends(k))
    requires Ever(rs, steps, i, Stores(m, d)) && !Ever(rs, steps, i, Acks(m))
    ensures m !in Gather(rs, steps, i, PutsOn(s))
       <==> Ever(rs, steps, i, Aborts(m)) && !Ever(rs, steps, i, Answers(s, m))
  {
    RunInv(rs, steps, i);
    RegistryExactly(rs, steps, i, s, d);
    PhaseExactly(rs, steps, i, s);
    ChannelExactly(rs, steps, i, s);
    PendingExactly(rs, steps, i, m, d);
    forall k | k in rs[i].sends
      ensures rs[i].sends[k].to != d
    {
      SendsExactly(rs, steps, i, k, d);
    }
    NoMissedMessage(rs, steps, i, d, m);
    SameWords(rs, steps, i, s, m);
  }
}
