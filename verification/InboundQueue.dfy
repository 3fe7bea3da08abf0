/**
 The inbound side of the desktop client
 (apps/desktop/src/infrastructure/crypto_orchestration.ts): handlers are chained one
 promise per conversation, and each loads the saved session, decrypts, and saves the
 new one. Every `await` is a point where handlers of other conversations, and new
 arrivals, may run.
 */
module InboundQueue {
  import opened Prelude
  import opened KeyTerms
  import opened Ratchet

  /** A conversation id; its bytes are the associated data. */
  type Conv = seq<Byte>

  /** A packet as the handler sees it. `handshake` is the session that X3DH and
      `ratchet_init_receiver` make of its fields, if they can; `gen` is the key
      generation's randomness; `loads` and `saves` are whether the vault answers the
      read and accepts the write when its turn comes. */
  datatype Inbound = Inbound(
    handshake: Option<Session>, header: Option<Header>, ct: Ciphertext, gen: Name, loads: bool, saves: bool)

  // ── One packet at a time: what the client should compute ────────────────────

  /** A failed read counts as no session. */
  function Load(saved: Option<Session>, p: Inbound): Option<Session> {
    if p.loads then saved else None
  }

  /** The session a packet is decrypted with: the one loaded, or that of its handshake. */
  function SessionFor(saved: Option<Session>, p: Inbound): Option<Session> {
    if Load(saved, p).Some? then saved else p.handshake
  }

  function Handle(conv: Conv, saved: Option<Session>, p: Inbound): (Option<Session>, Option<seq<Byte>>) {
    var s := SessionFor(saved, p);
    if s.None? || p.header.None? then (saved, None)
    else
      match RatchetDecryptText(s.value, p.header.value, p.ct, conv, p.gen)
      case Failure(_) => (saved, None)
      case Success((s', plaintext)) => if p.saves then (Some(s'), Some(plaintext)) else (saved, None)
  }

  /** The saved session after the packets, and what each one produced. */
  function Fold(conv: Conv, s: Option<Session>, ps: seq<Inbound>): (Option<Session>, seq<Option<seq<Byte>>>) {
    if ps == [] then (s, [])
    else
      var (before, outs) := Fold(conv, s, ps[..|ps| - 1]);
      var (after, o) := Handle(conv, before, ps[|ps| - 1]);
      (after, outs + [o])
  }

  // ── The asynchronous client ─────────────────────────────────────────────────

  /** Where the handler at the head of a conversation's chain is suspended. */
  datatype Phase =
    | Waiting
    | Loaded(session: Option<Session>)
    | Decrypted(advanced: Session, plaintext: seq<Byte>)

  /** One conversation's promise chain: unfinished handlers in order, the head's phase,
      and the packets finished so far with the value each promise resolved to. */
  datatype Lane = Lane(queue: seq<Inbound>, phase: Phase, finished: seq<Inbound>, results: seq<Option<seq<Byte>>>)

  const EMPTY_LANE := Lane([], Waiting, [], [])

  datatype Client = Client(vault: map<Conv, Session>, lanes: map<Conv, Lane>)

  function LaneOf(c: Client, conv: Conv): Lane {
    if conv in c.lanes then c.lanes[conv] else EMPTY_LANE
  }

  function Saved(c: Client, conv: Conv): Option<Session> {
    if conv in c.vault then Some(c.vault[conv]) else None
  }

  function Finish(l: Lane, result: Option<seq<Byte>>): Lane
    requires l.queue != []
  {
    Lane(l.queue[1..], Waiting, l.finished + [l.queue[0]], l.results + [result])
  }

  /** Entering `processIncomingMessage`, or resuming the head handler of a chain. */
  datatype Event = Arrive(conv: Conv, packet: Inbound) | Resume(conv: Conv)

  function ResumeLane(c: Client, conv: Conv): Client
    requires LaneOf(c, conv).queue != []
  {
    var l := LaneOf(c, conv);
    var p := l.queue[0];
    match l.phase
    case Waiting => c.(lanes := c.lanes[conv := l.(phase := Loaded(Load(Saved(c, conv), p)))])
    case Loaded(None) =>
      if p.handshake.None? then c.(lanes := c.lanes[conv := Finish(l, None)])
      else c.(lanes := c.lanes[conv := l.(phase := Loaded(p.handshake))])
    case Loaded(Some(s)) =>
      (if p.header.None? then c.(lanes := c.lanes[conv := Finish(l, None)])
       else match RatchetDecryptText(s, p.header.value, p.ct, conv, p.gen)
         case Failure(_) => c.(lanes := c.lanes[conv := Finish(l, None)])
         case Success((s', plaintext)) => c.(lanes := c.lanes[conv := l.(phase := Decrypted(s', plaintext))]))
    case Decrypted(s', plaintext) =>
      if p.saves then Client(c.vault[conv := s'], c.lanes[conv := Finish(l, Some(plaintext))])
      else c.(lanes := c.lanes[conv := Finish(l, None)])
  }

  function Next(c: Client, e: Event): Client {
    var l := LaneOf(c, e.conv);
    match e
    case Arrive(conv, p) => c.(lanes := c.lanes[conv := l.(queue := l.queue + [p])])
    case Resume(conv) => if l.queue == [] then c else ResumeLane(c, conv)
  }

  function Run(c: Client, events: seq<Event>): Client {
    if events == [] then c else Next(Run(c, events[..|events| - 1]), events[|events| - 1])
  }

  /** The packets of one conversation, in the order their handlers were chained. */
  function Arrivals(conv: Conv, events: seq<Event>): seq<Inbound> {
    if events == [] then []
    else
      var e := events[|events| - 1];
      Arrivals(conv, events[..|events| - 1]) + (if e.Arrive? && e.conv == conv then [e.packet] else [])
  }

  /** The module-level state and its two entry points, updated in place. */
  class Inbox {
    var vault: map<Conv, Session>
    var lanes: map<Conv, Lane>

    function State(): Client
      reads this
    {
      Client(vault, lanes)
    }

    method ProcessIncoming(conv: Conv, packet: Inbound)
      modifies this
      ensures State() == Next(old(State()), Arrive(conv, packet))
    {
      var lane := if conv in lanes then lanes[conv] else EMPTY_LANE;
      lanes := lanes[conv := lane.(queue := lane.queue + [packet])];
    }

    method ResumeHead(conv: Conv)
      modifies this
      ensures State() == Next(old(State()), Resume(conv))
    {
      if conv !in lanes || lanes[conv].queue == [] {
        return;
      }
      var lane := lanes[conv];
      var packet := lane.queue[0];
      match lane.phase
      case Waiting =>
        var session := if packet.loads && conv in vault then Some(vault[conv]) else None;
        lanes := lanes[conv := lane.(phase := Loaded(session))];
      case Loaded(session) =>
        if session.None? && packet.handshake.Some? {
          lanes := lanes[conv := lane.(phase := Loaded(packet.handshake))];
        } else if session.None? || packet.header.None? {
          lanes := lanes[conv := Finish(lane, None)];
        } else {
          var o := RatchetDecryptText(session.value, packet.header.value, packet.ct, conv, packet.gen);
          if o.Success? {
            lanes := lanes[conv := lane.(phase := Decrypted(o.value.0, o.value.1))];
          } else {
            lanes := lanes[conv := Finish(lane, None)];
          }
        }
      case Decrypted(session, plaintext) =>
        if packet.saves {
          vault := vault[conv := session];
          lanes := lanes[conv := Finish(lane, Some(plaintext))];
        } else {
          lanes := lanes[conv := Finish(lane, None)];
        }
    }
  }

  // ── Refinement ──────────────────────────────────────────────────────────────

  /** A suspended head handler holds exactly what the saved session gives it: nobody
      else writes that conversation's session while it waits. */
  ghost predicate HeadOk(conv: Conv, saved: Option<Session>, l: Lane) {
    match l.phase
    case Waiting => true
    case Loaded(s) => l.queue != [] && (s == Load(saved, l.queue[0]) || s == SessionFor(saved, l.queue[0]))
    case Decrypted(s', plaintext) =>
      && l.queue != [] && l.queue[0].header.Some?
      && var p := l.queue[0];
         var s := SessionFor(saved, p);
         s.Some? && RatchetDecryptText(s.value, p.header.value, p.ct, conv, p.gen) == Success((s', plaintext))
  }

  ghost predicate Sequential(conv: Conv, start: Option<Session>, saved: Option<Session>, l: Lane) {
    && Fold(conv, start, l.finished) == (saved, l.results)
    && HeadOk(conv, saved, l)
  }

  lemma FinishFolds(conv: Conv, start: Option<Session>, saved: Option<Session>, l: Lane)
    requires Sequential(conv, start, saved, l) && l.queue != []
    ensures var (saved', o) := Handle(conv, saved, l.queue[0]);
            Sequential(conv, start, saved', Finish(l, o))
  {
    FoldSnoc(conv, start, l.finished, l.queue[0]);
  }

  lemma OthersUntouched(c: Client, e: Event, conv: Conv)
    requires e.conv != conv
    ensures Saved(Next(c, e), conv) == Saved(c, conv) && LaneOf(Next(c, e), conv) == LaneOf(c, conv)
  {
  }

  /** What a resumption does to its own conversation: it moves its head handler on, or
      finishes it with what `Handle` says. */
  lemma ResumeMoves(c: Client, conv: Conv)
    requires LaneOf(c, conv).queue != [] && HeadOk(conv, Saved(c, conv), LaneOf(c, conv))
    ensures var l, l' := LaneOf(c, conv), LaneOf(Next(c, Resume(conv)), conv);
            var saved, saved' := Saved(c, conv), Saved(Next(c, Resume(conv)), conv);
            || (saved' == saved && l' == l.(phase := l'.phase) && HeadOk(conv, saved, l'))
            || (saved', l') == (Handle(conv, saved, l.queue[0]).0, Finish(l, Handle(conv, saved, l.queue[0]).1))
  {
    match LaneOf(c, conv).phase
    case Waiting =>
    case Loaded(None) =>
    case Loaded(Some(s)) =>
    case Decrypted(s', plaintext) =>
  }

  lemma NextSequential(c: Client, e: Event, conv: Conv, start: Option<Session>)
    requires Sequential(conv, start, Saved(c, conv), LaneOf(c, conv))
    ensures Sequential(conv, start, Saved(Next(c, e), conv), LaneOf(Next(c, e), conv))
  {
    if e.conv != conv {
      OthersUntouched(c, e, conv);
    } else if e.Resume? && LaneOf(c, conv).queue != [] {
      ResumeMoves(c, conv);
      FinishFolds(conv, start, Saved(c, conv), LaneOf(c, conv));
    }
  }

  lemma NextArrivals(c: Client, e: Event, conv: Conv)
    ensures var l, l' := LaneOf(c, conv), LaneOf(Next(c, e), conv);
            l'.finished + l'.queue == l.finished + l.queue + (if e.Arrive? && e.conv == conv then [e.packet] else [])
  {
    var l, l' := LaneOf(c, conv), LaneOf(Next(c, e), conv);
    if e.conv == conv && e.Resume? && l.queue != [] {
      assert l.queue == [l.queue[0]] + l.queue[1..];
    }
  }

  /**
   Refinement. Whatever the interleaving of arrivals and resumptions across all
   conversations, each conversation's saved session and results are those of handling
   its packets one at a time, in arrival order; what is not finished is still queued.
   */
  lemma {:induction false} Refines(vault: map<Conv, Session>, events: seq<Event>, conv: Conv)
    ensures var c := Run(Client(vault, map[]), events);
            var l := LaneOf(c, conv);
            && Sequential(conv, Saved(Client(vault, map[]), conv), Saved(c, conv), l)
            && l.finished + l.queue == Arrivals(conv, events)
  {
    if events != [] {
      var before, e := events[..|events| - 1], events[|events| - 1];
      Refines(vault, before, conv);
      var c := Run(Client(vault, map[]), before);
      NextSequential(c, e, conv, Saved(Client(vault, map[]), conv));
      NextArrivals(c, e, conv);
    }
  }

  /** Once a conversation's chain has drained, the interleaving has left no trace. */
  lemma Drained(vault: map<Conv, Session>, events: seq<Event>, conv: Conv)
    requires LaneOf(Run(Client(vault, map[]), events), conv).queue == []
    ensures var c := Run(Client(vault, map[]), events);
            var start := Saved(Client(vault, map[]), conv);
            Fold(conv, start, Arrivals(conv, events)) == (Saved(c, conv), LaneOf(c, conv).results)
  {
    Refines(vault, events, conv);
    var l := LaneOf(Run(Client(vault, map[]), events), conv);
    assert l.finished + l.queue == l.finished;
  }

  // ── Failed packets leave nothing behind ─────────────────────────────────────

  /** The packets that produced a plaintext. */
  function Successes(conv: Conv, s: Option<Session>, ps: seq<Inbound>): seq<Inbound> {
    if ps == [] then []
    else
      var last := |ps| - 1;
      Successes(conv, s, ps[..last])
      + (if Handle(conv, Fold(conv, s, ps[..last]).0, ps[last]).1.Some? then [ps[last]] else [])
  }

  /** The plaintexts in order, without the failures. */
  function Plaintexts(results: seq<Option<seq<Byte>>>): seq<seq<Byte>> {
    if results == [] then []
    else
      var last := |results| - 1;
      Plaintexts(results[..last]) + (if results[last].Some? then [results[last].value] else [])
  }

  /**
   Deleting every packet that failed changes neither the saved session nor the
   plaintexts, and then every packet succeeds.
   */
  lemma {:induction false} FailuresLeaveNoTrace(conv: Conv, s: Option<Session>, ps: seq<Inbound>)
    ensures var (all, kept) := (Fold(conv, s, ps), Fold(conv, s, Successes(conv, s, ps)));
            && kept.0 == all.0
            && Plaintexts(kept.1) == Plaintexts(all.1)
            && |kept.1| == |Plaintexts(all.1)|
  {
    if ps != [] {
      var last := |ps| - 1;
      FailuresLeaveNoTrace(conv, s, ps[..last]);
      var kept := Successes(conv, s, ps[..last]);
      var all := Fold(conv, s, ps[..last]);
      var o := Handle(conv, all.0, ps[last]).1;
      PlaintextsSnoc(all.1, o);
      FoldSnoc(conv, s, ps[..last], ps[last]);
      assert ps == ps[..last] + [ps[last]];
      if o.Some? {
        FoldSnoc(conv, s, kept, ps[last]);
        PlaintextsSnoc(Fold(conv, s, kept).1, o);
      } else {
        HandleFailed(conv, all.0, ps[last]);
        assert Successes(conv, s, ps) == kept;
      }
    }
  }

  lemma FoldSnoc(conv: Conv, s: Option<Session>, ps: seq<Inbound>, p: Inbound)
    ensures Fold(conv, s, ps + [p]).0 == Handle(conv, Fold(conv, s, ps).0, p).0
    ensures Fold(conv, s, ps + [p]).1 == Fold(conv, s, ps).1 + [Handle(conv, Fold(conv, s, ps).0, p).1]
  {
    assert (ps + [p])[..|ps|] == ps;
  }

  /** A packet that yields no plaintext leaves the session alone. */
  lemma HandleFailed(conv: Conv, s: Option<Session>, p: Inbound)
    requires Handle(conv, s, p).1.None?
    ensures Handle(conv, s, p).0 == s
  {
  }

  lemma PlaintextsSnoc(results: seq<Option<seq<Byte>>>, o: Option<seq<Byte>>)
    ensures Plaintexts(results + [o]) == Plaintexts(results) + (if o.Some? then [o.value] else [])
  {
    assert (results + [o])[..|results|] == results;
  }
}
