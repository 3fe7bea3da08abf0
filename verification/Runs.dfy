/** The invariant over every action and every run of the two-party conversation. */
module Runs {
  import opened Prelude
  import opened KeyTerms
  import opened Ratchet
  import opened Conversation
  import opened Opening
  import opened Preservation

  // ── Sealing a packet ────────────────────────────────────────────────────────

  lemma EncryptAt(v: View, plaintext: seq<Byte>, ad: seq<Byte>)
    requires ViewShape(v) && SendSide(v) && v.counts[v.at] < SEND_LIMIT
    ensures var o := RatchetEncrypt(v.s, plaintext, ad);
            if v.at == 0 then o == Failure(NotInitialized)
            else o == Success((AfterSend(v), Header(Point(v.keys[v.at]), v.s.prevSendCount, v.s.sendCount),
                               SealWith(MessageKey(v.secret, v.keys, v.at, v.counts[v.at]), plaintext, ad)))
  {
  }

  lemma NetCounted(w: World, p: Packet)
    requires Shape(w.keys, w.counts) && NetOk(w.secret, w.keys, w.counts, w.net)
    requires |w.keys| <= p.chain + 2 && p.chain < |w.keys|
    requires var counts := w.counts[p.chain := w.counts[p.chain] + 1];
             PacketOk(w.secret, w.keys, counts, p) && p.header.msgCounter == w.counts[p.chain]
    ensures NetOk(w.secret, w.keys, w.counts[p.chain := w.counts[p.chain] + 1], w.net + [p])
  {
    var counts, net := w.counts[p.chain := w.counts[p.chain] + 1], w.net + [p];
    forall k | 0 <= k < |net|
      ensures PacketOk(w.secret, w.keys, counts, net[k])
    {
      assert k < |w.net| ==> PacketOk(w.secret, w.keys, w.counts, w.net[k]);
    }
    forall j, k | 0 <= j < k < |net|
      ensures SlotOf(net[j].header) != SlotOf(net[k].header)
    {
      if k == |w.net| {
        assert PacketOk(w.secret, w.keys, w.counts, w.net[j]);
        assert Position(w.keys, net[j].header.dhPublic) == net[j].chain;
        assert Position(w.keys, p.header.dhPublic) == p.chain;
      }
    }
  }

  lemma LogSent(w: World, p: Packet)
    requires LogOk(w.net, w.log, w.spent) && SlotOf(p.header) !in w.spent
    ensures LogOk(w.net + [p], w.log, w.spent)
  {
  }

  /** What the addressee has decrypted lies below what has been sealed. */
  lemma NotYetSpent(v: View, k: Slot)
    requires ViewOk(v)
    requires var c := Position(v.keys, k.dhPublic);
             1 <= c < |v.keys| && OwnerOf(c) != v.me && k.counter >= v.counts[c]
    ensures k !in v.spent
  {
    var c := Position(v.keys, k.dhPublic);
    assert RecvSide(v);
  }

  /** What sealing changes, field by field. */
  lemma SendFields(w: World, who: Role, plaintext: seq<Byte>, ad: seq<Byte>, s: Session, h: Header, ct: Ciphertext)
    requires |w.keys| == |w.counts| >= 2
    requires RatchetEncrypt(SessionOf(w, who), plaintext, ad) == Success((s, h, ct))
    ensures var w', i := DoSend(w, who, plaintext, ad), At(w, who);
            && ViewOf(w', who) == Counted(ViewOf(w, who), i).(s := s)
            && ViewOf(w', Peer(who)) == Counted(ViewOf(w, Peer(who)), i)
            && w'.net == w.net + [Packet(who, h, ct, ad, plaintext, i)]
            && w'.counts == w.counts[i := w.counts[i] + 1]
            && w'.keys == w.keys && w'.secret == w.secret && w'.next == w.next
            && w'.log == w.log && w'.spent == w.spent
  {
  }

  lemma InvFromViews(w: World, r: Role)
    requires Shape(w.keys, w.counts) && KeysUsed(w.keys, w.next)
    requires ViewOk(ViewOf(w, r)) && ViewOk(ViewOf(w, Peer(r)))
    requires NetOk(w.secret, w.keys, w.counts, w.net) && LogOk(w.net, w.log, w.spent)
    ensures Inv(w)
  {
  }

  lemma ViewsFromInv(w: World, r: Role)
    requires Inv(w)
    ensures ViewOk(ViewOf(w, r)) && ViewOk(ViewOf(w, Peer(r)))
  {
  }

  lemma SendViews(w: World, who: Role, plaintext: seq<Byte>, ad: seq<Byte>)
    requires |w.keys| == |w.counts| >= 2
    requires ViewOk(ViewOf(w, who)) && ViewOk(ViewOf(w, Peer(who)))
    requires At(w, who) >= 1 && w.counts[At(w, who)] < SEND_LIMIT
    ensures var w' := DoSend(w, who, plaintext, ad);
            ViewOk(ViewOf(w', who)) && ViewOk(ViewOf(w', Peer(who)))
  {
    var v, u := ViewOf(w, who), ViewOf(w, Peer(who));
    EncryptAt(v, plaintext, ad);
    SenderKeeps(v);
    AddresseeKeeps(u, v.at);
    var (s, h, ct) := RatchetEncrypt(v.s, plaintext, ad).value;
    SendFields(w, who, plaintext, ad, s, h, ct);
  }

  lemma SendNet(w: World, who: Role, plaintext: seq<Byte>, ad: seq<Byte>)
    requires Shape(w.keys, w.counts) && NetOk(w.secret, w.keys, w.counts, w.net)
    requires ViewShape(ViewOf(w, who)) && SendSide(ViewOf(w, who))
    requires At(w, who) >= 1 && w.counts[At(w, who)] < SEND_LIMIT
    ensures var w' := DoSend(w, who, plaintext, ad);
            NetOk(w'.secret, w'.keys, w'.counts, w'.net)
  {
    var v := ViewOf(w, who);
    EncryptAt(v, plaintext, ad);
    var (s, h, ct) := RatchetEncrypt(v.s, plaintext, ad).value;
    SendFields(w, who, plaintext, ad, s, h, ct);
    NetCounted(w, Packet(who, h, ct, ad, plaintext, v.at));
  }

  lemma SendLog(w: World, who: Role, plaintext: seq<Byte>, ad: seq<Byte>)
    requires Shape(w.keys, w.counts) && LogOk(w.net, w.log, w.spent)
    requires ViewShape(ViewOf(w, who)) && SendSide(ViewOf(w, who)) && ViewOk(ViewOf(w, Peer(who)))
    requires At(w, who) >= 1 && w.counts[At(w, who)] < SEND_LIMIT
    ensures var w' := DoSend(w, who, plaintext, ad);
            LogOk(w'.net, w'.log, w'.spent)
  {
    var v := ViewOf(w, who);
    EncryptAt(v, plaintext, ad);
    var (s, h, ct) := RatchetEncrypt(v.s, plaintext, ad).value;
    SendFields(w, who, plaintext, ad, s, h, ct);
    assert Position(w.keys, h.dhPublic) == v.at;
    SlotUnspent(ViewOf(w, Peer(who)), v.at, SlotOf(h));
    LogSent(w, Packet(who, h, ct, ad, plaintext, v.at));
  }

  lemma SlotUnspent(u: View, c: nat, k: Slot)
    requires ViewOk(u) && 1 <= c < |u.keys| && OwnerOf(c) != u.me
    requires Position(u.keys, k.dhPublic) == c && k.counter == u.counts[c]
    ensures k !in u.spent
  {
    NotYetSpent(u, k);
  }

  lemma SendInv(w: World, who: Role, plaintext: seq<Byte>, ad: seq<Byte>)
    requires Inv(w) && SessionOf(w, who).sendCount < SEND_LIMIT
    ensures Inv(DoSend(w, who, plaintext, ad))
  {
    ViewsFromInv(w, who);
    var v := ViewOf(w, who);
    EncryptAt(v, plaintext, ad);
    if v.at >= 1 {
      SendViews(w, who, plaintext, ad);
      SendNet(w, who, plaintext, ad);
      SendLog(w, who, plaintext, ad);
      var (s, h, ct) := RatchetEncrypt(v.s, plaintext, ad).value;
      SendFields(w, who, plaintext, ad, s, h, ct);
      InvFromViews(DoSend(w, who, plaintext, ad), who);
    }
  }

  // ── Delivering a packet ─────────────────────────────────────────────────────

  lemma LogDelivered(w: World, r: Role, k: nat)
    requires HeadersDiffer(w.net) && LogOk(w.net, w.log, w.spent) && k < |w.net|
    requires w.net[k].from != r && SlotOf(w.net[k].header) !in w.spent
    ensures LogOk(w.net, w.log + [Delivery(r, k, w.net[k].plaintext)], w.spent + {SlotOf(w.net[k].header)})
  {
    var d := Delivery(r, k, w.net[k].plaintext);
    var log, spent := w.log + [d], w.spent + {SlotOf(w.net[k].header)};
    assert log[|w.log|] == d;
    forall j | 0 <= j < |w.net|
      ensures Delivered(log, j) <==> SlotOf(w.net[j].header) in spent
    {
      assert Delivered(log, j) <==> Delivered(w.log, j) || j == k by {
        if i :| 0 <= i < |w.log| && w.log[i].packet == j {
          assert log[i].packet == j;
        }
      }
    }
  }

  lemma NetGrown(w: World, gen: Name)
    requires Shape(w.keys, w.counts) && NetOk(w.secret, w.keys, w.counts, w.net) && gen !in w.keys
    ensures NetOk(w.secret, w.keys + [gen], w.counts + [0], w.net)
  {
    KeysKept(ViewOf(w, Alice), gen);
    forall k | 0 <= k < |w.net|
      ensures PacketOk(w.secret, w.keys + [gen], w.counts + [0], w.net[k])
    {
      assert PacketOk(w.secret, w.keys, w.counts, w.net[k]);
    }
  }

  /** Where a delivered packet's chain stands for the party it is handed to. */
  datatype Place = Stored | Current | Next | Stale

  function PlaceOf(v: View, p: Packet): Place {
    if SlotOf(p.header) in v.s.skipped then Stored
    else if p.chain + 1 == v.at then Current
    else if p.chain == v.at + 1 then Next
    else Stale
  }

  /** The decrypt command succeeds on packet `k` exactly in these places. */
  predicate Succeeds(v: View, p: Packet, ad: seq<Byte>) {
    && ad == p.ad
    && match PlaceOf(v, p)
       case Stored => true
       case Current => v.s.recvCount <= p.header.msgCounter && WithinSkip(v.s, p.header)
       case Next => WithinSkip(v.s, p.header)
       case Stale => false
  }

  lemma Outcome(v: View, p: Packet, ad: seq<Byte>, gen: Name)
    requires ViewOk(v) && PacketFor(v, p)
    ensures RatchetDecrypt(v.s, p.header, p.ct, ad, gen).Success? <==> Succeeds(v, p, ad)
  {
    match PlaceOf(v, p)
    case Stored => OpenPending(v, p, ad, gen);
    case Current => OpenCurrent(v, p, ad, gen);
    case Next => OpenNext(v, p, ad, gen);
    case Stale => OpenStale(v, p, ad, gen);
  }

  /** A successful delivery is the peer's, and its position had not been decrypted. */
  lemma SuccessIsFirst(v: View, p: Packet, ad: seq<Byte>)
    requires ViewOk(v) && PacketFor(v, p) && Succeeds(v, p, ad)
    ensures p.from != v.me && SlotOf(p.header) !in v.spent
  {
    assert Position(v.keys, p.header.dhPublic) == p.chain;
    assert OwnerOf(v.at + 1) == Peer(OwnerOf(v.at));
  }

  /** Conversely, only a refused gap keeps an undecrypted packet of the peer out. */
  lemma FirstIsSuccess(v: View, p: Packet, ad: seq<Byte>)
    requires ViewOk(v) && PacketFor(v, p)
    requires p.from != v.me && SlotOf(p.header) !in v.spent && ad == p.ad && Acceptable(v.s, p.header)
    ensures Succeeds(v, p, ad)
  {
    assert Position(v.keys, p.header.dhPublic) == p.chain;
    assert RecvSide(v);
    if SlotOf(p.header) !in v.s.skipped {
      assert !Pending(v, SlotOf(p.header));
    }
  }

  /** What a successful delivery without a turn changes, field by field. */
  lemma DeliverFields(w: World, to: Role, k: nat, ad: seq<Byte>, s: Session, plaintext: seq<Byte>)
    requires |w.keys| >= 2 && k < |w.net|
    requires RatchetDecrypt(SessionOf(w, to), w.net[k].header, w.net[k].ct, ad, w.next) == Success((s, plaintext))
    requires s.dhSelf == SessionOf(w, to).dhSelf
    ensures var w', spent := DoDeliver(w, to, k, ad), w.spent + {SlotOf(w.net[k].header)};
            && ViewOf(w', to) == ViewOf(w, to).(s := s, spent := spent)
            && ViewOf(w', Peer(to)) == ViewOf(w, Peer(to)).(spent := spent)
            && w'.net == w.net && w'.log == w.log + [Delivery(to, k, plaintext)] && w'.spent == spent
            && w'.keys == w.keys && w'.counts == w.counts && w'.secret == w.secret && w'.next == w.next + 1
  {
  }

  /** What a successful delivery with a turn changes. */
  lemma TurnFields(w: World, to: Role, k: nat, ad: seq<Byte>, s: Session, plaintext: seq<Byte>)
    requires |w.keys| >= 2 && k < |w.net| && At(w, to) == |w.keys| - 2
    requires RatchetDecrypt(SessionOf(w, to), w.net[k].header, w.net[k].ct, ad, w.next) == Success((s, plaintext))
    requires s.dhSelf != SessionOf(w, to).dhSelf
    ensures var w', spent := DoDeliver(w, to, k, ad), w.spent + {SlotOf(w.net[k].header)};
            && ViewOf(w', to) == Grown(ViewOf(w, to), w.next).(at := |w.keys|, s := s, spent := spent)
            && ViewOf(w', Peer(to)) == Grown(ViewOf(w, Peer(to)).(spent := spent), w.next)
            && w'.net == w.net && w'.log == w.log + [Delivery(to, k, plaintext)] && w'.spent == spent
            && w'.keys == w.keys + [w.next] && w'.counts == w.counts + [0]
            && w'.secret == w.secret && w'.next == w.next + 1
  {
    assert OwnerOf(|w.keys|) == Peer(OwnerOf(|w.keys| - 1));
  }

  /** A delivery without a turn: what it does to both views gives the world it leaves. */
  lemma DeliverStored(w: World, v: View, u: View, k: nat, ad: seq<Byte>)
    requires |w.keys| >= 2 && k < |w.net| && v == ViewOf(w, v.me) && u == ViewOf(w, Peer(v.me))
    requires ViewOk(v) && ViewOk(u) && PacketFor(v, w.net[k])
    requires Succeeds(v, w.net[k], ad) && PlaceOf(v, w.net[k]) == Stored
    ensures DeliversTo(w, DoDeliver(w, v.me, k, ad), v.me, k)
  {
    var p := w.net[k];
    var slot := SlotOf(p.header);
    SuccessIsFirst(v, p, ad);
    OpenPending(v, p, ad, w.next);
    DeliverFields(w, v.me, k, ad, AfterStored(v, slot), p.plaintext);
    StoredViews(v, u, p);
  }

  lemma StoredViews(v: View, u: View, p: Packet)
    requires ViewOk(v) && ViewOk(u) && PacketFor(v, p) && Pending(v, SlotOf(p.header))
    requires u.keys == v.keys && p.from == u.me
    ensures var slot := SlotOf(p.header);
            && ViewOk(v.(spent := v.spent + {slot}, s := AfterStored(v, slot)))
            && ViewOk(u.(spent := u.spent + {slot}))
  {
    StoredKeeps(v, SlotOf(p.header));
    assert Position(v.keys, p.header.dhPublic) == p.chain;
    OtherSpends(u, SlotOf(p.header));
  }

  /** The world a successful delivery of packet `k` to `to` leaves, all but the session. */
  ghost predicate DeliversTo(w: World, w': World, to: Role, k: nat)
    requires k < |w.net|
  {
    && w'.secret == w.secret && w'.net == w.net && w'.next == w.next + 1
    && w'.log == w.log + [Delivery(to, k, w.net[k].plaintext)]
    && w'.spent == w.spent + {SlotOf(w.net[k].header)}
    && (|| (w'.keys == w.keys && w'.counts == w.counts)
        || (w'.keys == w.keys + [w.next] && w'.counts == w.counts + [0]))
    && |w'.keys| >= 2 && ViewOk(ViewOf(w', to)) && ViewOk(ViewOf(w', Peer(to)))
  }

  lemma DeliverCurrent(w: World, v: View, u: View, k: nat, ad: seq<Byte>)
    requires |w.keys| >= 2 && k < |w.net| && v == ViewOf(w, v.me) && u == ViewOf(w, Peer(v.me))
    requires ViewOk(v) && ViewOk(u) && PacketFor(v, w.net[k])
    requires Succeeds(v, w.net[k], ad) && PlaceOf(v, w.net[k]) == Current
    ensures DeliversTo(w, DoDeliver(w, v.me, k, ad), v.me, k)
  {
    var p := w.net[k];
    SuccessIsFirst(v, p, ad);
    OpenCurrent(v, p, ad, w.next);
    DeliverFields(w, v.me, k, ad, AfterCurrent(v, p.chain, p.header.msgCounter), p.plaintext);
    CurrentViews(v, u, p);
  }

  lemma CurrentViews(v: View, u: View, p: Packet)
    requires ViewOk(v) && ViewOk(u) && PacketFor(v, p) && OnCurrent(v, p.chain, p.header.msgCounter)
    requires u.keys == v.keys && p.from == u.me
    ensures ViewOk(CurrentView(v, p.chain, p.header.msgCounter))
    ensures ViewOk(u.(spent := u.spent + {SlotOf(p.header)}))
  {
    CurrentKeeps(v, p.chain, p.header.msgCounter);
    assert Position(v.keys, p.header.dhPublic) == p.chain;
    OtherSpends(u, SlotOf(p.header));
  }

  lemma DeliverNext(w: World, v: View, u: View, k: nat, ad: seq<Byte>)
    requires |w.keys| >= 2 && k < |w.net| && v == ViewOf(w, v.me) && u == ViewOf(w, Peer(v.me))
    requires w.next !in w.keys
    requires ViewOk(v) && ViewOk(u) && PacketFor(v, w.net[k])
    requires Succeeds(v, w.net[k], ad) && PlaceOf(v, w.net[k]) == Next
    ensures DeliversTo(w, DoDeliver(w, v.me, k, ad), v.me, k)
  {
    var p := w.net[k];
    SuccessIsFirst(v, p, ad);
    NextDiffers(v, p, w.next);
    OpenNext(v, p, ad, w.next);
    TurnedViews(v, u, p, w.next);
    TurnDelivers(w, v, u, k, ad);
  }

  lemma TurnDelivers(w: World, v: View, u: View, k: nat, ad: seq<Byte>)
    requires |w.keys| >= 2 && k < |w.net| && v == ViewOf(w, v.me) && u == ViewOf(w, Peer(v.me))
    requires var p := w.net[k];
             && OnNext(v, p.chain, p.header.msgCounter, w.next)
             && p.header.prevCounter == PrevCount(v.counts, p.chain)
             && p.header.dhPublic == Point(v.keys[p.chain])
             && v.s.dhSelf != Some(KeyPair(Point(w.next), w.next))
    requires var p := w.net[k];
             var s := AfterNext(v, p.chain, p.header.prevCounter, p.header.msgCounter, w.next);
             RatchetDecrypt(v.s, p.header, p.ct, ad, w.next) == Success((s, p.plaintext))
    requires ViewOk(NextView(v, w.net[k].chain, w.net[k].header.msgCounter, w.next))
    requires ViewOk(Grown(u.(spent := u.spent + {SlotOf(w.net[k].header)}), w.next))
    ensures DeliversTo(w, DoDeliver(w, v.me, k, ad), v.me, k)
  {
    var p := w.net[k];
    TurnFields(w, v.me, k, ad, AfterNext(v, p.chain, p.header.prevCounter, p.header.msgCounter, w.next), p.plaintext);
    assert ViewOf(DoDeliver(w, v.me, k, ad), v.me) == NextView(v, p.chain, p.header.msgCounter, w.next);
  }

  lemma NextDiffers(v: View, p: Packet, gen: Name)
    requires ViewShape(v) && SendSide(v) && PacketFor(v, p) && p.from != v.me
    requires p.chain == v.at + 1 && gen !in v.keys
    ensures OnNext(v, p.chain, p.header.msgCounter, gen)
    ensures v.s.dhSelf != Some(KeyPair(Point(gen), gen))
  {
  }

  lemma TurnedViews(v: View, u: View, p: Packet, gen: Name)
    requires ViewOk(v) && ViewOk(u) && PacketFor(v, p) && OnNext(v, p.chain, p.header.msgCounter, gen)
    requires u.keys == v.keys && u.at == p.chain && p.from == u.me
    ensures ViewOk(NextView(v, p.chain, p.header.msgCounter, gen))
    ensures ViewOk(Grown(u.(spent := u.spent + {SlotOf(p.header)}), gen))
  {
    NextKeeps(v, p.chain, p.header.msgCounter, gen);
    assert Position(v.keys, p.header.dhPublic) == p.chain;
    OtherSpends(u, SlotOf(p.header));
    OtherGrows(u.(spent := u.spent + {SlotOf(p.header)}), gen);
  }

  lemma DeliverAssembled(w: World, w': World, to: Role, k: nat)
    requires Shape(w.keys, w.counts) && KeysUsed(w.keys, w.next)
    requires NetOk(w.secret, w.keys, w.counts, w.net) && k < |w.net|
    requires DeliversTo(w, w', to, k) && LogOk(w'.net, w'.log, w'.spent)
    ensures Inv(w')
  {
    if w'.keys != w.keys {
      NetGrown(w, w.next);
      GrownUsed(w.keys, w.next);
    } else {
      KeysStayUsed(w.keys, w.next);
    }
    InvFromViews(w', to);
  }

  lemma GrownUsed(keys: seq<Name>, next: Name)
    requires KeysUsed(keys, next)
    ensures KeysUsed(keys + [next], next + 1) && next !in keys
  {
  }

  lemma DeliverInv(w: World, to: Role, k: nat, ad: seq<Byte>)
    requires Inv(w) && k < |w.net|
    ensures Inv(DoDeliver(w, to, k, ad))
  {
    ViewsFromInv(w, to);
    var v, p := ViewOf(w, to), w.net[k];
    assert PacketFor(v, p);
    Outcome(v, p, ad, w.next);
    if Succeeds(v, p, ad) {
      DeliverSuccess(w, to, k, ad);
    } else {
      DeliverFailure(w, to, k, ad);
    }
  }

  lemma KeysStayUsed(keys: seq<Name>, next: Name)
    requires KeysUsed(keys, next)
    ensures KeysUsed(keys, next + 1)
  {
  }

  lemma FreshKeyDropped(w: World)
    requires Inv(w)
    ensures Inv(w.(next := w.next + 1))
  {
    var w' := w.(next := w.next + 1);
    KeysStayUsed(w.keys, w.next);
    ViewsFromInv(w, Alice);
    assert ViewOf(w', Alice) == ViewOf(w, Alice) && ViewOf(w', Bob) == ViewOf(w, Bob);
    InvFromViews(w', Alice);
  }

  lemma DeliverFailure(w: World, to: Role, k: nat, ad: seq<Byte>)
    requires Inv(w) && k < |w.net|
    requires RatchetDecrypt(SessionOf(w, to), w.net[k].header, w.net[k].ct, ad, w.next).Failure?
    ensures DoDeliver(w, to, k, ad) == w.(next := w.next + 1) && Inv(DoDeliver(w, to, k, ad))
  {
    FreshKeyDropped(w);
  }

  lemma DeliverSuccess(w: World, to: Role, k: nat, ad: seq<Byte>)
    requires Inv(w) && k < |w.net| && PacketFor(ViewOf(w, to), w.net[k]) && Succeeds(ViewOf(w, to), w.net[k], ad)
    ensures Inv(DoDeliver(w, to, k, ad))
    ensures DoDeliver(w, to, k, ad).log == w.log + [Delivery(to, k, w.net[k].plaintext)]
  {
    ViewsFromInv(w, to);
    GrownUsed(w.keys, w.next);
    var v, u := ViewOf(w, to), ViewOf(w, Peer(to));
    SuccessIsFirst(v, w.net[k], ad);
    LogDelivered(w, to, k);
    DeliverByPlace(w, v, u, k, ad);
    DeliverAssembled(w, DoDeliver(w, to, k, ad), to, k);
  }

  lemma DeliverByPlace(w: World, v: View, u: View, k: nat, ad: seq<Byte>)
    requires |w.keys| >= 2 && k < |w.net| && v == ViewOf(w, v.me) && u == ViewOf(w, Peer(v.me))
    requires w.next !in w.keys
    requires ViewOk(v) && ViewOk(u) && PacketFor(v, w.net[k]) && Succeeds(v, w.net[k], ad)
    ensures DeliversTo(w, DoDeliver(w, v.me, k, ad), v.me, k)
  {
    match PlaceOf(v, w.net[k]) {
      case Stored => DeliverStored(w, v, u, k, ad);
      case Current => DeliverCurrent(w, v, u, k, ad);
      case Next => DeliverNext(w, v, u, k, ad);
    }
  }

  // ── Whole runs ──────────────────────────────────────────────────────────────

  /** The worlds a run passes through, from the two fresh sessions on. */
  ghost predicate IsRun(secret: Term, spk: Name, next: Name, ws: seq<World>, actions: seq<Action>) {
    && spk < next
    && |ws| == |actions| + 1
    && ws[0] == Init(secret, spk, next)
    && forall i :: 0 <= i < |actions| ==>
         && |ws[i].keys| == |ws[i].counts| >= 2
         && Allowed(ws[i], actions[i])
         && ws[i + 1] == Do(ws[i], actions[i])
  }

  lemma StepInv(w: World, a: Action)
    requires Inv(w) && Allowed(w, a)
    ensures Inv(Do(w, a))
  {
    match a
    case Send(who, plaintext, ad) => SendInv(w, who, plaintext, ad);
    case Deliver(to, k, ad) => DeliverInv(w, to, k, ad);
  }

  lemma {:induction false} RunInv(secret: Term, spk: Name, next: Name, ws: seq<World>, actions: seq<Action>, i: nat)
    requires IsRun(secret, spk, next, ws, actions) && i < |ws|
    ensures Inv(ws[i])
  {
    if i == 0 {
      InitInv(secret, spk, next);
    } else {
      RunInv(secret, spk, next, ws, actions, i - 1);
      StepInv(ws[i - 1], actions[i - 1]);
    }
  }

  /** Nothing that was sealed or decrypted is ever taken back, and the secret is fixed. */
  lemma {:induction false} RunGrows(
      secret: Term, spk: Name, next: Name, ws: seq<World>, actions: seq<Action>, i: nat, j: nat)
    requires IsRun(secret, spk, next, ws, actions) && i <= j < |ws|
    ensures ws[i].net <= ws[j].net && ws[i].log <= ws[j].log
    ensures ws[i].secret == ws[j].secret && ws[i].next <= ws[j].next
    decreases j
  {
    if i < j {
      RunGrows(secret, spk, next, ws, actions, i, j - 1);
      DoGrows(ws[j - 1], actions[j - 1]);
    }
  }

  lemma DoGrows(w: World, a: Action)
    requires |w.keys| == |w.counts| >= 2 && Allowed(w, a)
    ensures w.net <= Do(w, a).net && w.log <= Do(w, a).log
    ensures w.secret == Do(w, a).secret && w.next <= Do(w, a).next
    ensures Do(w, a).keys == w.keys || Do(w, a).keys == w.keys + [w.next]
  {
  }
}
