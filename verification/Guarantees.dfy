/**
 What the Double Ratchet promises, over every run of a sender-initialised and a
 receiver-initialised session joined by a network that never forges.
 */
module Guarantees {
  import opened Prelude
  import opened KeyTerms
  import opened Ratchet
  import opened Conversation
  import opened Opening
  import opened Runs

  /**
   Delivery. At any point of any run, handing any sealed packet to either party
   decrypts it if and only if it is the peer's, the associated data is the sealed
   one, it was not decrypted before, and the skip gaps are within MAX_SKIP; and what
   comes out is what was sealed.
   */
  lemma DeliveredExactly(secret: Term, spk: Name, next: Name, ws: seq<World>, actions: seq<Action>,
                         i: nat, to: Role, k: nat, ad: seq<Byte>)
    requires IsRun(secret, spk, next, ws, actions) && i < |ws| && k < |ws[i].net|
    ensures var s, p := SessionOf(ws[i], to), ws[i].net[k];
            var o := RatchetDecrypt(s, p.header, p.ct, ad, ws[i].next);
            && (o.Success? <==>
                  p.from != to && ad == p.ad && !Delivered(ws[i].log, k) && Acceptable(s, p.header))
            && (o.Success? ==> o.value.1 == p.plaintext)
  {
    RunInv(secret, spk, next, ws, actions, i);
    var w := ws[i];
    ViewsFromInv(w, to);
    var v, p := ViewOf(w, to), w.net[k];
    assert PacketFor(v, p);
    Outcome(v, p, ad, w.next);
    if Succeeds(v, p, ad) {
      SuccessIsFirst(v, p, ad);
      DeliverSuccess(w, to, k, ad);
      SuccessAcceptable(v, p, ad);
      assert DoDeliver(w, to, k, ad).log[|w.log|].plaintext == p.plaintext;
    } else if p.from != to && ad == p.ad && !Delivered(w.log, k) && Acceptable(v.s, p.header) {
      FirstIsSuccess(v, p, ad);
    }
  }

  /** On packets that carry a string the command answers as the session does, so runs in
      which strings are sealed are runs of the commands. */
  lemma TextGoesThrough(secret: Term, spk: Name, next: Name, ws: seq<World>, actions: seq<Action>,
                        i: nat, to: Role, k: nat, ad: seq<Byte>)
    requires IsRun(secret, spk, next, ws, actions) && i < |ws| && k < |ws[i].net|
    requires Utf8.IsText(ws[i].net[k].plaintext)
    ensures var s, p := SessionOf(ws[i], to), ws[i].net[k];
            RatchetDecryptText(s, p.header, p.ct, ad, ws[i].next) == RatchetDecrypt(s, p.header, p.ct, ad, ws[i].next)
  {
    DeliveredExactly(secret, spk, next, ws, actions, i, to, k, ad);
  }

  lemma SuccessAcceptable(v: View, p: Packet, ad: seq<Byte>)
    requires Succeeds(v, p, ad)
    ensures Acceptable(v.s, p.header)
  {
  }

  /**
   Exactly once. A packet that was decrypted at some point of a run is decrypted by
   nobody at that point or later, and the log of successes holds each packet at most
   once, at its addressee, with its own plaintext.
   */
  lemma ExactlyOnce(secret: Term, spk: Name, next: Name, ws: seq<World>, actions: seq<Action>,
                    i: nat, j: nat, k: nat, to: Role, ad: seq<Byte>)
    requires IsRun(secret, spk, next, ws, actions) && i <= j < |ws|
    requires k < |ws[i].net| && Delivered(ws[i].log, k)
    ensures k < |ws[j].net|
    ensures RatchetDecrypt(SessionOf(ws[j], to), ws[j].net[k].header, ws[j].net[k].ct, ad, ws[j].next).Failure?
    ensures forall a, b :: 0 <= a < b < |ws[j].log| ==> ws[j].log[a].packet != ws[j].log[b].packet
    ensures forall a :: 0 <= a < |ws[j].log| ==>
              var d := ws[j].log[a];
              d.packet < |ws[j].net| && d.to != ws[j].net[d.packet].from && d.plaintext == ws[j].net[d.packet].plaintext
  {
    RunGrows(secret, spk, next, ws, actions, i, j);
    RunInv(secret, spk, next, ws, actions, j);
    var a :| 0 <= a < |ws[i].log| && ws[i].log[a].packet == k;
    assert ws[j].log[a].packet == k;
    DeliveredExactly(secret, spk, next, ws, actions, j, to, k, ad);
  }

  /**
   No reuse. Two packets sealed anywhere in a run, by either party, differ in their
   headers, in their AEAD keys and in their nonces.
   */
  lemma NoKeyReuse(secret: Term, spk: Name, next: Name, ws: seq<World>, actions: seq<Action>, i: nat, j: nat, k: nat)
    requires IsRun(secret, spk, next, ws, actions) && i < |ws|
    requires j < k < |ws[i].net|
    ensures var p, q := ws[i].net[j], ws[i].net[k];
            && p.ct.Sealed? && q.ct.Sealed?
            && SlotOf(p.header) != SlotOf(q.header)
            && p.ct.key != q.ct.key && p.ct.nonce != q.ct.nonce
  {
    RunInv(secret, spk, next, ws, actions, i);
    var w := ws[i];
    var p, q := w.net[j], w.net[k];
    assert PacketOk(w.secret, w.keys, w.counts, p) && PacketOk(w.secret, w.keys, w.counts, q);
    if p.ct.key == q.ct.key || p.ct.nonce == q.ct.nonce {
      MessageKeyInjective(w.secret, w.keys, p.chain, p.header.msgCounter, q.chain, q.header.msgCounter);
    }
  }

  /**
   Two sessions in lockstep, said of the sessions alone. `behind` is the one whose
   ratchet key the other has already answered: `ahead` received on exactly the chain
   `behind` sends on, holds the root one step further, and `behind` has received on
   the chain `ahead` sent on before.
   */
  ghost predicate OneStepApart(ahead: Session, behind: Session) {
    && ahead.dhSelf.Some? && behind.dhSelf.Some?
    && ahead.dhRemote == Some(behind.dhSelf.value.public)
    && ahead.rootKey == RootOf(behind.rootKey, Dh(behind.dhSelf.value.private, ahead.dhSelf.value.private))
    && ahead.sendChain == Some(Advance(
         ChainOf(behind.rootKey, Dh(behind.dhSelf.value.private, ahead.dhSelf.value.private)), ahead.sendCount))
    && ahead.recvCount <= behind.sendCount
    && behind.recvCount <= ahead.prevSendCount
    && (behind.sendChain.Some? <==> ahead.recvChain.Some?)
    && (behind.sendChain.Some? ==>
          behind.sendChain.value == Advance(ahead.recvChain.value, behind.sendCount - ahead.recvCount))
  }

  lemma LockstepEverywhere(secret: Term, spk: Name, next: Name, ws: seq<World>, actions: seq<Action>, i: nat)
    requires IsRun(secret, spk, next, ws, actions) && i < |ws|
    ensures OneStepApart(ws[i].alice, ws[i].bob) || OneStepApart(ws[i].bob, ws[i].alice)
  {
    RunInv(secret, spk, next, ws, actions, i);
    InvOneStepApart(ws[i]);
  }

  lemma InvOneStepApart(w: World)
    requires Inv(w)
    ensures OneStepApart(w.alice, w.bob) || OneStepApart(w.bob, w.alice)
  {
    var r := OwnerOf(|w.keys| - 1);
    ViewsFromInv(w, r);
    WorldOneStepApart(w, r);
  }

  lemma WorldOneStepApart(w: World, r: Role)
    requires |w.keys| >= 2 && r == OwnerOf(|w.keys| - 1)
    requires ViewOk(ViewOf(w, r)) && ViewOk(ViewOf(w, Peer(r)))
    ensures OneStepApart(SessionOf(w, r), SessionOf(w, Peer(r)))
  {
    ViewsOneStepApart(ViewOf(w, r), ViewOf(w, Peer(r)));
  }

  lemma ViewsOneStepApart(v: View, u: View)
    requires ViewOk(v) && ViewOk(u) && v.at == u.at + 1
    requires v.keys == u.keys && v.counts == u.counts && v.secret == u.secret
    ensures OneStepApart(v.s, u.s)
  {
    assert SendSide(v) && RecvSide(v) && SendSide(u) && RecvSide(u);
    assert Root(v.secret, v.keys, v.at) == RootOf(u.s.rootKey, Dh(v.keys[u.at], v.keys[v.at]));
    if u.at >= 1 {
      var start := Chain(u.secret, u.keys, u.at);
      AdvanceAdd(start, v.s.recvCount, u.s.sendCount - v.s.recvCount);
      assert u.s.sendChain == Some(Advance(start, u.s.sendCount)) && v.s.recvChain == Some(Advance(start, v.s.recvCount));
    }
  }

  /**
   Store exactness. At any point of any run the skipped store holds an entry for a
   slot exactly when the session has passed that position of a chain it received on
   without decrypting it, and the entry is the key the sender used there.
   */
  lemma StoreExactEverywhere(secret: Term, spk: Name, next: Name, ws: seq<World>, actions: seq<Action>,
                             i: nat, r: Role, k: nat)
    requires IsRun(secret, spk, next, ws, actions) && i < |ws|
    requires |ws[i].keys| == |ws[i].counts| >= 2
    requires k < |ws[i].net| && ws[i].net[k].from != r
    ensures var w := ws[i];
            var v, p, m := ViewOf(w, r), w.net[k], SessionOf(w, r).skipped;
            && p.chain < |w.counts| && p.ct.Sealed?
            && (SlotOf(p.header) in m <==>
                  Received(v, p.chain) && p.header.msgCounter < Frontier(v, p.chain) && !Delivered(w.log, k))
            && (SlotOf(p.header) in m ==> m[SlotOf(p.header)] == p.ct.key.mk)
  {
    RunInv(secret, spk, next, ws, actions, i);
    var w := ws[i];
    ViewsFromInv(w, r);
    var v, p := ViewOf(w, r), w.net[k];
    assert PacketFor(v, p);
    assert Position(w.keys, p.header.dhPublic) == p.chain;
    assert SlotOf(p.header) in v.s.skipped <==> Pending(v, SlotOf(p.header));
  }

  // ── The store holds nothing else ────────────────────────────────────────────

  ghost predicate IsSealed(net: seq<Packet>, c: nat, n: nat) {
    exists k :: 0 <= k < |net| && net[k].chain == c && net[k].header.msgCounter == n
  }

  /** Every counted position was sealed into a packet. */
  ghost predicate EachSealed(w: World) {
    forall c, n :: 1 <= c < |w.counts| && 0 <= n < w.counts[c] ==> IsSealed(w.net, c, n)
  }

  lemma StillSealed(net: seq<Packet>, more: seq<Packet>, c: nat, n: nat)
    requires IsSealed(net, c, n) && net <= more
    ensures IsSealed(more, c, n)
  {
    var k :| 0 <= k < |net| && net[k].chain == c && net[k].header.msgCounter == n;
    assert more[k] == net[k];
  }

  lemma OneMoreSealed(w: World, w': World, p: Packet)
    requires EachSealed(w) && p.chain < |w.counts| && p.header.msgCounter == w.counts[p.chain]
    requires w'.net == w.net + [p] && w'.counts == w.counts[p.chain := w.counts[p.chain] + 1]
    ensures EachSealed(w')
  {
    forall c, n | 1 <= c < |w'.counts| && 0 <= n < w'.counts[c]
      ensures IsSealed(w'.net, c, n)
    {
      if c == p.chain && n == w.counts[c] {
        assert w'.net[|w.net|] == p;
      } else {
        StillSealed(w.net, w'.net, c, n);
      }
    }
  }

  lemma SendSeals(w: World, who: Role, plaintext: seq<Byte>, ad: seq<Byte>)
    requires EachSealed(w) && Shape(w.keys, w.counts) && ViewShape(ViewOf(w, who)) && SendSide(ViewOf(w, who))
    requires At(w, who) >= 1 && w.counts[At(w, who)] < SEND_LIMIT
    ensures EachSealed(DoSend(w, who, plaintext, ad))
  {
    var v := ViewOf(w, who);
    EncryptAt(v, plaintext, ad);
    var (s, h, ct) := RatchetEncrypt(v.s, plaintext, ad).value;
    SendFields(w, who, plaintext, ad, s, h, ct);
    OneMoreSealed(w, DoSend(w, who, plaintext, ad), Packet(who, h, ct, ad, plaintext, v.at));
  }

  /** The receiver's first session cannot send yet. */
  lemma NothingToSend(w: World, who: Role, plaintext: seq<Byte>, ad: seq<Byte>)
    requires |w.keys| == |w.counts| >= 2 && SessionOf(w, who).sendChain.None?
    ensures DoSend(w, who, plaintext, ad) == w
  {
  }

  lemma DeliverSeals(w: World, to: Role, k: nat, ad: seq<Byte>)
    requires k < |w.net| && EachSealed(w)
    ensures EachSealed(DoDeliver(w, to, k, ad))
  {
    var w' := DoDeliver(w, to, k, ad);
    assert w'.net == w.net && (w'.counts == w.counts || w'.counts == w.counts + [0]);
    forall c, n | 1 <= c < |w'.counts| && 0 <= n < w'.counts[c]
      ensures IsSealed(w'.net, c, n)
    {
      assert c < |w.counts| && w'.counts[c] == w.counts[c];
    }
  }

  lemma {:induction false} RunSeals(secret: Term, spk: Name, next: Name, ws: seq<World>, actions: seq<Action>, i: nat)
    requires IsRun(secret, spk, next, ws, actions) && i < |ws|
    ensures EachSealed(ws[i])
  {
    if i > 0 {
      RunInv(secret, spk, next, ws, actions, i - 1);
      RunSeals(secret, spk, next, ws, actions, i - 1);
      match actions[i - 1]
      case Send(who, plaintext, ad) =>
        ViewsFromInv(ws[i - 1], who);
        if At(ws[i - 1], who) == 0 {
          NothingToSend(ws[i - 1], who, plaintext, ad);
        } else {
          SendSeals(ws[i - 1], who, plaintext, ad);
        }
      case Deliver(to, k, ad) => DeliverSeals(ws[i - 1], to, k, ad);
    }
  }

  /** Every entry of the store belongs to a packet the peer sealed and that is still to
      be decrypted, and is that packet's key. */
  lemma StoreHoldsNothingElse(secret: Term, spk: Name, next: Name, ws: seq<World>, actions: seq<Action>,
                              i: nat, r: Role, slot: Slot) returns (k: nat)
    requires IsRun(secret, spk, next, ws, actions) && i < |ws|
    requires slot in SessionOf(ws[i], r).skipped
    ensures k < |ws[i].net| && !Delivered(ws[i].log, k)
    ensures var p := ws[i].net[k];
            && p.from != r && SlotOf(p.header) == slot
            && p.ct.Sealed? && SessionOf(ws[i], r).skipped[slot] == p.ct.key.mk
  {
    RunInv(secret, spk, next, ws, actions, i);
    RunSeals(secret, spk, next, ws, actions, i);
    ViewsFromInv(ws[i], r);
    k := PendingIsSealed(ws[i], ViewOf(ws[i], r), slot);
  }

  /** A pending position was counted by its sender. */
  lemma PendingCounted(v: View, slot: Slot)
    requires ViewOk(v) && slot in v.s.skipped
    ensures slot !in v.spent
    ensures var c := Position(v.keys, slot.dhPublic);
            && 1 <= c < |v.keys| && OwnerOf(c) != v.me && slot.counter < v.counts[c]
            && v.s.skipped[slot] == MessageKey(v.secret, v.keys, c, slot.counter)
  {
    assert Pending(v, slot) && v.s.skipped[slot] == KeyOf(v, slot);
    assert RecvSide(v);
  }

  lemma PendingIsSealed(w: World, v: View, slot: Slot) returns (k: nat)
    requires |w.keys| == |w.counts| >= 2
    requires NetOk(w.secret, w.keys, w.counts, w.net) && LogOk(w.net, w.log, w.spent) && EachSealed(w)
    requires ViewOk(v) && v == ViewOf(w, v.me) && slot in v.s.skipped
    ensures k < |w.net| && !Delivered(w.log, k) && w.net[k].from != v.me && SlotOf(w.net[k].header) == slot
    ensures w.net[k].ct.Sealed? && v.s.skipped[slot] == w.net[k].ct.key.mk
  {
    PendingCounted(v, slot);
    var c := Position(w.keys, slot.dhPublic);
    assert IsSealed(w.net, c, slot.counter);
    k :| 0 <= k < |w.net| && w.net[k].chain == c && w.net[k].header.msgCounter == slot.counter;
    assert PacketOk(w.secret, w.keys, w.counts, w.net[k]);
  }
}
