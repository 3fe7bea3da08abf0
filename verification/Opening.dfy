/**
 What the decrypt command answers to any packet of the conversation, from any
 session in lockstep with it: one lemma for each place the packet's chain can
 stand relative to the session.
 */
module Opening {
  import opened Prelude
  import opened KeyTerms
  import opened Ratchet
  import opened Conversation

  /** The gaps the two skip checks of `decrypt` let through. */
  predicate WithinSkip(s: Session, h: Header) {
    if s.dhRemote == Some(h.dhPublic) then h.msgCounter <= s.recvCount + MAX_SKIP
    else h.prevCounter <= s.recvCount + MAX_SKIP && h.msgCounter <= MAX_SKIP
  }

  predicate Acceptable(s: Session, h: Header) {
    SlotOf(h) in s.skipped || WithinSkip(s, h)
  }

  ghost predicate PacketFor(v: View, p: Packet)
    requires ViewShape(v)
  {
    PacketOk(v.secret, v.keys, v.counts, p)
  }

  /** The store entries for positions `[from, until)` of a chain of the schedule. */
  function Passed(v: View, c: nat, from: U32, until: U32): map<Slot, Term>
    requires 1 <= c < |v.keys|
  {
    SkippedRange(Point(v.keys[c]), Advance(Chain(v.secret, v.keys, c), from), from, until)
  }

  lemma PassedHolds(v: View, c: nat, from: U32, until: U32)
    requires 1 <= c < |v.keys|
    ensures forall k :: k in Passed(v, c, from, until)
                   <==> k.dhPublic == Point(v.keys[c]) && from <= k.counter < until
    ensures forall k :: k in Passed(v, c, from, until)
                    ==> Passed(v, c, from, until)[k] == MessageKey(v.secret, v.keys, c, k.counter)
  {
    var ck := Advance(Chain(v.secret, v.keys, c), from);
    SkippedRangeHolds(Point(v.keys[c]), ck, from, until);
    forall k | k in Passed(v, c, from, until)
      ensures Passed(v, c, from, until)[k] == MessageKey(v.secret, v.keys, c, k.counter)
    {
      AdvanceAdd(Chain(v.secret, v.keys, c), from, k.counter - from);
    }
  }

  /** Skipping forward on a chain of the schedule, in the schedule's own terms. */
  lemma SkipOnSchedule(v: View, t: Session, c: nat, until: U32)
    requires 1 <= c < |v.keys| && t.dhRemote == Some(Point(v.keys[c]))
    requires t.recvChain == Some(Advance(Chain(v.secret, v.keys, c), t.recvCount))
    requires t.recvCount <= SEND_LIMIT
    ensures var o := SkipUntil(t, until);
            if t.recvCount + MAX_SKIP < until then o.error == Some(SessionResetNeeded)
            else if until < t.recvCount then o == Step(t, None)
            else o == Step(t.(recvChain := Some(Advance(Chain(v.secret, v.keys, c), until)), recvCount := until,
                              skipped := t.skipped + Passed(v, c, t.recvCount, until)),
                           None)
  {
    if t.recvCount == until {
      assert t.skipped + Passed(v, c, until, until) == t.skipped;
    } else if t.recvCount < until <= t.recvCount + MAX_SKIP {
      AdvanceAdd(Chain(v.secret, v.keys, c), t.recvCount, until - t.recvCount);
    }
  }

  // ── A position kept in the skipped store ────────────────────────────────────

  function AfterStored(v: View, slot: Slot): Session {
    v.s.(skipped := v.s.skipped - {slot})
  }

  lemma OpenPending(v: View, p: Packet, ad: seq<Byte>, gen: Name)
    requires ViewShape(v) && StoreExact(v) && PacketFor(v, p)
    requires SlotOf(p.header) in v.s.skipped
    ensures Pending(v, SlotOf(p.header)) && p.from != v.me
    ensures RatchetDecrypt(v.s, p.header, p.ct, ad, gen)
         == if ad == p.ad then Success((AfterStored(v, SlotOf(p.header)), p.plaintext)) else Failure(DecryptFailed)
  {
    assert Position(v.keys, p.header.dhPublic) == p.chain;
    var mk := MessageKey(v.secret, v.keys, p.chain, p.header.msgCounter);
    OpenSealed(mk, mk, p.plaintext, p.ad, ad);
  }

  // ── The current receive chain ───────────────────────────────────────────────

  function AfterCurrent(v: View, c: nat, n: U32): Session
    requires 1 <= c < |v.keys| && n < U32_MAX
  {
    v.s.(recvChain := Some(Advance(Chain(v.secret, v.keys, c), n + 1)), recvCount := n + 1,
         skipped := v.s.skipped + Passed(v, c, v.s.recvCount, n))
  }

  lemma OpenCurrent(v: View, p: Packet, ad: seq<Byte>, gen: Name)
    requires ViewShape(v) && Lockstep(v) && PacketFor(v, p)
    requires p.chain + 1 == v.at
    requires SlotOf(p.header) !in v.s.skipped
    ensures var n := p.header.msgCounter;
            var o := RatchetDecrypt(v.s, p.header, p.ct, ad, gen);
            if v.s.recvCount <= n && WithinSkip(v.s, p.header) && ad == p.ad
            then o == Success((AfterCurrent(v, p.chain, n), p.plaintext))
            else o.Failure?
  {
    var c, n := p.chain, p.header.msgCounter;
    SkipOnSchedule(v, v.s, c, n);
    var t := SkipUntil(v.s, n).session;
    var mk, used := MessageKey(v.secret, v.keys, c, n), MsgKey(t.recvChain.value);
    if n < v.s.recvCount && used == mk {
      MessageKeyInjective(v.secret, v.keys, c, v.s.recvCount, c, n);
    }
    OpenSealed(mk, used, p.plaintext, p.ad, ad);
  }

  // ── The peer's next chain: a DH ratchet step ────────────────────────────────

  /** The store once the current chain is closed at `prev`. */
  function ClosedStore(v: View, c: nat, prev: U32): map<Slot, Term>
    requires c < |v.keys|
  {
    if c >= 3 then v.s.skipped + Passed(v, c - 2, v.s.recvCount, prev) else v.s.skipped
  }

  /** The session right after adopting `gen`, set to position `n + 1` of chain `c`. */
  function AfterNext(v: View, c: nat, prev: U32, n: U32, gen: Name): Session
    requires 1 <= c == |v.keys| - 1 && n < U32_MAX
  {
    var keys := v.keys + [gen];
    Session(Some(KeyPair(Point(gen), gen)), Some(Point(v.keys[c])), Root(v.secret, keys, c + 1),
            Some(Chain(v.secret, keys, c + 1)), Some(Advance(Chain(v.secret, v.keys, c), n + 1)),
            0, n + 1, v.s.sendCount, ClosedStore(v, c, prev) + Passed(v, c, 0, n))
  }

  /** Closing the current chain before the turn stores its remaining positions and
      touches nothing the turn reads. */
  lemma Closing(v: View, c: nat, prev: U32)
    requires ViewShape(v) && Lockstep(v) && c == v.at + 1 == |v.keys| - 1
    requires prev == PrevCount(v.counts, c)
    ensures var o := SkipUntil(v.s, prev);
            if v.s.recvCount + MAX_SKIP < prev then o.error == Some(SessionResetNeeded)
            else
              && o.error.None?
              && o.session.dhSelf == v.s.dhSelf && o.session.rootKey == v.s.rootKey
              && o.session.sendCount == v.s.sendCount
              && o.session.skipped == ClosedStore(v, c, prev)
  {
    if c >= 3 {
      SkipOnSchedule(v, v.s, c - 2, prev);
    }
  }

  /** The turn computes the next two roots and chains of the shared schedule. */
  lemma Turning(v: View, t: Session, c: nat, gen: Name)
    requires ViewShape(v) && c == v.at + 1 == |v.keys| - 1
    requires t.dhSelf == Some(KeyPair(Point(v.keys[v.at]), v.keys[v.at]))
    requires t.rootKey == Root(v.secret, v.keys, v.at)
    ensures var keys := v.keys + [gen];
            var turned := Session(Some(KeyPair(Point(gen), gen)), Some(Point(v.keys[c])), Root(v.secret, keys, c + 1),
                                  Some(Chain(v.secret, keys, c + 1)), Some(Chain(v.secret, v.keys, c)),
                                  0, 0, t.sendCount, t.skipped);
            RatchetDh(t, Point(v.keys[c]), gen) == Step(turned, None)
  {
    RootKept(v.secret, v.keys, gen, c);
  }

  lemma OpenNext(v: View, p: Packet, ad: seq<Byte>, gen: Name)
    requires ViewShape(v) && Lockstep(v) && PacketFor(v, p)
    requires p.chain == v.at + 1
    requires SlotOf(p.header) !in v.s.skipped
    ensures var h := p.header;
            var o := RatchetDecrypt(v.s, h, p.ct, ad, gen);
            if WithinSkip(v.s, h) && ad == p.ad
            then o == Success((AfterNext(v, p.chain, h.prevCounter, h.msgCounter, gen), p.plaintext))
            else o.Failure?
  {
    var c, h := p.chain, p.header;
    NewKey(v, p);
    Closing(v, c, h.prevCounter);
    if h.prevCounter <= v.s.recvCount + MAX_SKIP {
      var closed := SkipUntil(v.s, h.prevCounter).session;
      Turning(v, closed, c, gen);
      var turned := RatchetDh(closed, h.dhPublic, gen).session;
      SkipOnSchedule(v, turned, c, h.msgCounter);
      var mk := MessageKey(v.secret, v.keys, c, h.msgCounter);
      OpenSealed(mk, mk, p.plaintext, p.ad, ad);
    }
  }

  /** Only the chain just below the session's own key is under the known remote key. */
  lemma NewKey(v: View, p: Packet)
    requires ViewShape(v) && Lockstep(v) && PacketFor(v, p)
    requires p.chain + 1 != v.at
    ensures v.s.dhRemote != Some(p.header.dhPublic)
  {
    assert Position(v.keys, p.header.dhPublic) == p.chain;
  }

  // ── Anything else: a reflected packet, or an old one already decrypted ──────

  lemma OpenStale(v: View, p: Packet, ad: seq<Byte>, gen: Name)
    requires ViewShape(v) && Lockstep(v) && PacketFor(v, p)
    requires p.chain <= v.at && p.chain + 1 != v.at
    requires SlotOf(p.header) !in v.s.skipped
    ensures RatchetDecrypt(v.s, p.header, p.ct, ad, gen).Failure?
  {
    var c, h := p.chain, p.header;
    NewKey(v, p);
    var closed := SkipUntil(v.s, h.prevCounter);
    if closed.error.None? {
      var turned := RatchetDh(closed.session, h.dhPublic, gen).session;
      var d := Dh(v.keys[v.at], v.keys[c]);
      assert turned.recvChain == Some(ChainOf(Root(v.secret, v.keys, v.at), d));
      var skipped := SkipUntil(turned, h.msgCounter);
      if skipped.error.None? {
        WrongChain(v, c, d, h.msgCounter);
        OpenSealed(MessageKey(v.secret, v.keys, c, h.msgCounter), MsgKey(skipped.session.recvChain.value),
                   p.plaintext, p.ad, ad);
      }
    }
  }

  /** A chain grown from the session's present root is no chain of the past. */
  lemma WrongChain(v: View, c: nat, d: Term, n: nat)
    requires ViewShape(v) && 1 <= c <= v.at
    ensures MsgKey(Advance(ChainOf(Root(v.secret, v.keys, v.at), d), n)) != MessageKey(v.secret, v.keys, c, n)
  {
    RootDepthIs(v.secret, v.keys, v.at);
    RootDepthIs(v.secret, v.keys, c - 1);
    if Advance(ChainOf(Root(v.secret, v.keys, v.at), d), n) == Advance(Chain(v.secret, v.keys, c), n) {
      AdvanceInjective(Root(v.secret, v.keys, v.at), d, n,
                       Root(v.secret, v.keys, c - 1), Dh(v.keys[c - 1], v.keys[c]), n);
    }
  }
}
