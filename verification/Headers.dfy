/**
 Which headers lead a session to a packet. The header is not part of the associated
 data (crates/crypto_core/src/ratchet.rs, lines 278-281 and 417-425); it is bound to the
 body only through the message key that decryption reaches with it.
 */
module Headers {
  import opened Prelude
  import opened KeyTerms
  import opened Ratchet
  import opened Conversation
  import opened Opening
  import opened Runs

  /** The message key `decrypt` tries, if it gets as far as trying one. */
  function KeyReached(s: Session, h: Header, gen: Name): Option<Term> {
    if SlotOf(h) in s.skipped then Some(s.skipped[SlotOf(h)])
    else
      var aligned := Align(s, h, gen);
      if aligned.error.Some? || aligned.session.recvChain.None? then None
      else Some(MsgKey(aligned.session.recvChain.value))
  }

  lemma OpensWithKey(s: Session, h: Header, gen: Name, mk: Term, plaintext: seq<Byte>, ad: seq<Byte>, ad': seq<Byte>)
    ensures var o := RatchetDecrypt(s, h, SealWith(mk, plaintext, ad), ad', gen);
            && (o.Success? <==> KeyReached(s, h, gen) == Some(mk) && ad == ad')
            && (o.Success? ==> o.value.1 == plaintext)
  {
    var reached := KeyReached(s, h, gen);
    if reached.Some? {
      OpenSealed(mk, reached.value, plaintext, ad, ad');
    }
  }

  /** A body that nobody sealed opens under no header. */
  lemma UnsealedNeverOpens(s: Session, h: Header, bytes: seq<Byte>, ad: seq<Byte>, gen: Name)
    ensures RatchetDecrypt(s, h, Tampered(bytes), ad, gen).Failure?
  {
  }

  /** `h` takes the place of the sealed header `g`: its ratchet key is the same, and its
      counter is that of the stored key, of the place the chain is set to (never back
      from where it stands), or of the place on the new chain. */
  predicate LeadsTo(s: Session, h: Header, g: Header) {
    && h.dhPublic == g.dhPublic
    && if SlotOf(h) in s.skipped then h.msgCounter == g.msgCounter
       else if s.dhRemote == Some(h.dhPublic) then
         && h.msgCounter <= s.recvCount + MAX_SKIP
         && g.msgCounter == if h.msgCounter < s.recvCount then s.recvCount else h.msgCounter
       else WithinSkip(s, h) && h.msgCounter == g.msgCounter
  }

  // ── The three ways to a key ─────────────────────────────────────────────────

  lemma StoredKey(v: View, p: Packet, h: Header, gen: Name)
    requires ViewOk(v) && PacketFor(v, p) && SlotOf(h) in v.s.skipped
    ensures KeyReached(v.s, h, gen) == Some(MessageKey(v.secret, v.keys, p.chain, p.header.msgCounter))
       <==> p.from != v.me && SlotOf(p.header) !in v.spent && LeadsTo(v.s, h, p.header)
  {
    assert Pending(v, SlotOf(h));
    var d := Position(v.keys, h.dhPublic);
    assert Position(v.keys, p.header.dhPublic) == p.chain;
    if KeyReached(v.s, h, gen) == Some(MessageKey(v.secret, v.keys, p.chain, p.header.msgCounter)) {
      MessageKeyInjective(v.secret, v.keys, d, h.msgCounter, p.chain, p.header.msgCounter);
    }
  }

  lemma CurrentKey(v: View, h: Header, gen: Name)
    requires ViewOk(v) && SlotOf(h) !in v.s.skipped && v.s.dhRemote == Some(h.dhPublic)
    ensures v.at >= 1 && h.dhPublic == Point(v.keys[v.at - 1])
    ensures KeyReached(v.s, h, gen)
         == if v.at == 1 || h.msgCounter > v.s.recvCount + MAX_SKIP then None
            else Some(MessageKey(v.secret, v.keys, v.at - 1,
                                 if h.msgCounter < v.s.recvCount then v.s.recvCount else h.msgCounter))
  {
    assert RecvSide(v);
    if v.at >= 2 {
      SkipOnSchedule(v, v.s, v.at - 1, h.msgCounter);
    }
  }

  lemma CurrentLeads(v: View, p: Packet, h: Header, gen: Name)
    requires ViewOk(v) && PacketFor(v, p) && SlotOf(h) !in v.s.skipped && v.s.dhRemote == Some(h.dhPublic)
    ensures KeyReached(v.s, h, gen) == Some(MessageKey(v.secret, v.keys, p.chain, p.header.msgCounter))
       <==> p.from != v.me && SlotOf(p.header) !in v.spent && LeadsTo(v.s, h, p.header)
  {
    CurrentKey(v, h, gen);
    assert RecvSide(v);
    assert Position(v.keys, p.header.dhPublic) == p.chain;
    assert Position(v.keys, Point(v.keys[v.at - 1])) == v.at - 1;
    if v.at >= 2 {
      var n := if h.msgCounter < v.s.recvCount then v.s.recvCount else h.msgCounter;
      if MessageKey(v.secret, v.keys, v.at - 1, n) == MessageKey(v.secret, v.keys, p.chain, p.header.msgCounter) {
        MessageKeyInjective(v.secret, v.keys, v.at - 1, n, p.chain, p.header.msgCounter);
      }
    }
  }

  /** Turning the ratchet: the chain of the own root and the key in the header. */
  lemma NewKeyReached(v: View, h: Header, gen: Name)
    requires ViewOk(v) && SlotOf(h) !in v.s.skipped && v.s.dhRemote != Some(h.dhPublic)
    ensures KeyReached(v.s, h, gen)
         == if !WithinSkip(v.s, h) || h.dhPublic.LowOrder? then None
            else Some(MsgKey(Advance(ChainOf(Root(v.secret, v.keys, v.at), Dh(v.keys[v.at], h.dhPublic.owner)),
                                     h.msgCounter)))
  {
    assert SendSide(v) && RecvSide(v);
    var closed := SkipUntil(v.s, h.prevCounter);
    if closed.error.None? && h.dhPublic.Point? {
      var turned := RatchetDh(closed.session, h.dhPublic, gen).session;
      assert turned.recvCount == 0 && turned.recvChain.Some?;
    }
  }

  lemma DhCancels(a: Name, x: Name, y: Name)
    requires Dh(a, x) == Dh(a, y)
    ensures x == y
  {
  }

  /** Only the peer's next chain starts from the own root. */
  lemma NextChainOnly(v: View, c: nat, n: nat, x: Name, m: nat)
    requires ViewOk(v) && 1 <= c < |v.keys|
    ensures MsgKey(Advance(ChainOf(Root(v.secret, v.keys, v.at), Dh(v.keys[v.at], x)), m))
         == MessageKey(v.secret, v.keys, c, n)
       <==> c == v.at + 1 && x == v.keys[c] && m == n
  {
    RootDepthIs(v.secret, v.keys, v.at);
    RootDepthIs(v.secret, v.keys, c - 1);
    if Advance(ChainOf(Root(v.secret, v.keys, v.at), Dh(v.keys[v.at], x)), m) == Advance(Chain(v.secret, v.keys, c), n) {
      AdvanceInjective(Root(v.secret, v.keys, v.at), Dh(v.keys[v.at], x), m,
                       Root(v.secret, v.keys, c - 1), Dh(v.keys[c - 1], v.keys[c]), n);
      DhCancels(v.keys[v.at], x, v.keys[c]);
    }
  }

  /** A peer packet that is neither decrypted nor stored nor on the current chain is on
      the next one. */
  lemma OnNextChain(v: View, p: Packet)
    requires ViewOk(v) && PacketFor(v, p) && p.from != v.me
    requires SlotOf(p.header) !in v.spent && SlotOf(p.header) !in v.s.skipped
    requires v.s.dhRemote != Some(p.header.dhPublic)
    ensures p.chain == v.at + 1
  {
    assert RecvSide(v);
    assert Position(v.keys, p.header.dhPublic) == p.chain;
    assert !Pending(v, SlotOf(p.header));
  }

  lemma NextUnspent(v: View, p: Packet)
    requires ViewOk(v) && PacketFor(v, p) && p.chain == v.at + 1
    ensures p.from != v.me && SlotOf(p.header) !in v.spent
  {
    assert Position(v.keys, p.header.dhPublic) == p.chain;
  }

  lemma NewLeads(v: View, p: Packet, h: Header, gen: Name)
    requires ViewOk(v) && PacketFor(v, p) && SlotOf(h) !in v.s.skipped && v.s.dhRemote != Some(h.dhPublic)
    ensures KeyReached(v.s, h, gen) == Some(MessageKey(v.secret, v.keys, p.chain, p.header.msgCounter))
       <==> p.from != v.me && SlotOf(p.header) !in v.spent && LeadsTo(v.s, h, p.header)
  {
    NewKeyReached(v, h, gen);
    if h.dhPublic.Point? {
      NextChainOnly(v, p.chain, p.header.msgCounter, h.dhPublic.owner, h.msgCounter);
    }
    if p.chain == v.at + 1 {
      NextUnspent(v, p);
    }
    if p.from != v.me && SlotOf(p.header) !in v.spent && LeadsTo(v.s, h, p.header) {
      OnNextChain(v, p);
    }
  }

  // ── Over runs ───────────────────────────────────────────────────────────────

  /**
   At any point of any run, under any header whatever, the body of a sealed packet
   decrypts if and only if the packet is the peer's, not decrypted before, given with the
   sealed associated data, and the header leads to it; and then to its plaintext.
   */
  lemma HeadersThatOpen(secret: Term, spk: Name, next: Name, ws: seq<World>, actions: seq<Action>,
                        i: nat, to: Role, k: nat, h: Header, ad: seq<Byte>)
    requires IsRun(secret, spk, next, ws, actions) && i < |ws| && k < |ws[i].net|
    ensures var s, p := SessionOf(ws[i], to), ws[i].net[k];
            var o := RatchetDecrypt(s, h, p.ct, ad, ws[i].next);
            && (o.Success? <==>
                  p.from != to && ad == p.ad && !Delivered(ws[i].log, k) && LeadsTo(s, h, p.header))
            && (o.Success? ==> o.value.1 == p.plaintext)
  {
    RunInv(secret, spk, next, ws, actions, i);
    ViewsFromInv(ws[i], to);
    var v, p := ViewOf(ws[i], to), ws[i].net[k];
    assert PacketFor(v, p);
    OpensWithKey(v.s, h, ws[i].next, MessageKey(v.secret, v.keys, p.chain, p.header.msgCounter), p.plaintext, p.ad, ad);
    if SlotOf(h) in v.s.skipped {
      StoredKey(v, p, h, ws[i].next);
    } else if v.s.dhRemote == Some(h.dhPublic) {
      CurrentLeads(v, p, h, ws[i].next);
    } else {
      NewLeads(v, p, h, ws[i].next);
    }
  }

  /** The number closing the old chain decides only which of its keys are stored. */
  lemma PrevCounterOnlyStores(s: Session, h: Header, prev: U32, ct: Ciphertext, ad: seq<Byte>, gen: Name)
    requires s.recvCount <= SEND_LIMIT && s.dhRemote != Some(h.dhPublic) && SlotOf(h) !in s.skipped
    requires h.prevCounter <= s.recvCount + MAX_SKIP && prev <= s.recvCount + MAX_SKIP
    ensures var o, o' := RatchetDecrypt(s, h, ct, ad, gen), RatchetDecrypt(s, h.(prevCounter := prev), ct, ad, gen);
            && (o.Success? <==> o'.Success?)
            && (o.Success? ==> o'.value == (o.value.0.(skipped := o'.value.0.skipped), o.value.1))
  {
    var closed, closed' := SkipUntil(s, h.prevCounter), SkipUntil(s, prev);
    assert closed.error.None? && closed'.error.None?;
    var turned, turned' := RatchetDh(closed.session, h.dhPublic, gen), RatchetDh(closed'.session, h.dhPublic, gen);
    assert turned.error == turned'.error;
    assert turned.error.None? ==> turned'.session == turned.session.(skipped := turned'.session.skipped);
  }
}
