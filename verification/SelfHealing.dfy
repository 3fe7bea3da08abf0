/**
 What a session gives away of the whole run, future included: besides what is still to
 come on the chains it holds and on the peer's next one, nothing. Every chain from the
 party's own next ratchet key on is out of reach of a session saved before it
 (docs/adr/ADR-004.md, line 27).
 */
module SelfHealing {
  import opened Prelude
  import opened KeyTerms
  import opened Ratchet
  import opened Conversation
  import opened Runs
  import opened Guarantees
  import opened Forgetting

  // ── How a run grows ─────────────────────────────────────────────────────────

  /** Keys are only added, and only the last two chains are still sent on. */
  ghost predicate Later(w: World, w': World) {
    && w.keys <= w'.keys && |w.counts| <= |w'.counts|
    && forall c :: 0 <= c && c + 2 < |w.counts| ==> w'.counts[c] == w.counts[c]
  }

  lemma DoLater(w: World, a: Action)
    requires |w.keys| == |w.counts| >= 2 && Allowed(w, a)
    ensures Later(w, Do(w, a))
  {
  }

  lemma LaterTwice(a: World, b: World, c: World)
    requires Later(a, b) && Later(b, c)
    ensures Later(a, c)
  {
  }

  lemma SameLater(w: World)
    ensures Later(w, w)
  {
  }

  lemma StepLater(secret: Term, spk: Name, next: Name, ws: seq<World>, actions: seq<Action>, j: nat)
    requires IsRun(secret, spk, next, ws, actions) && j < |actions|
    ensures Later(ws[j], ws[j + 1])
  {
    RunInv(secret, spk, next, ws, actions, j);
    DoLater(ws[j], actions[j]);
  }

  lemma {:induction false} LaterThroughout(ws: seq<World>, i: nat, j: nat)
    requires i <= j < |ws| && forall k :: 0 <= k < |ws| - 1 ==> Later(ws[k], ws[k + 1])
    ensures Later(ws[i], ws[j])
    decreases j
  {
    if i == j {
      SameLater(ws[i]);
    } else {
      LaterThroughout(ws, i, j - 1);
      LaterTwice(ws[i], ws[j - 1], ws[j]);
    }
  }

  lemma RunLater(secret: Term, spk: Name, next: Name, ws: seq<World>, actions: seq<Action>, i: nat, j: nat)
    requires IsRun(secret, spk, next, ws, actions) && i <= j < |ws|
    ensures Later(ws[i], ws[j])
  {
    forall k | 0 <= k < |ws| - 1
      ensures Later(ws[k], ws[k + 1])
    {
      StepLater(secret, spk, next, ws, actions, k);
    }
    LaterThroughout(ws, i, j);
  }

  lemma {:induction false} RootStays(secret: Term, keys: seq<Name>, keys': seq<Name>, i: nat)
    requires keys <= keys' && i < |keys|
    ensures Root(secret, keys', i) == Root(secret, keys, i)
  {
    if i > 0 {
      RootStays(secret, keys, keys', i - 1);
    }
  }

  lemma ChainStays(secret: Term, keys: seq<Name>, keys': seq<Name>, c: nat)
    requires keys <= keys' && 1 <= c < |keys|
    ensures Chain(secret, keys', c) == Chain(secret, keys, c)
  {
    RootStays(secret, keys, keys', c - 1);
  }

  // ── From the party's own next key on ────────────────────────────────────────

  ghost predicate PlainSecret(secret: Term) {
    secret.Random? || secret.X3dhSecret?
  }

  /** A session stores roots, chain keys, and skipped message keys. */
  lemma StoredShape(v: View, t: Term)
    requires ViewOk(v) && PlainSecret(v.secret) && StoredIn(v.s, t)
    ensures !t.DhOut?
    ensures t.MsgKey? ==> exists k :: k in v.s.skipped && v.s.skipped[k] == t
  {
    assert SendSide(v) && RecvSide(v);
    RootIsNoChain(v.secret, v.keys, v.at);
    if v.at >= 1 {
      ChainIsNoRoot(Root(v.secret, v.keys, v.at - 1), Dh(v.keys[v.at - 1], v.keys[v.at]), v.counts[v.at]);
    }
    if v.at >= 2 {
      ChainIsNoRoot(Root(v.secret, v.keys, v.at - 2), Dh(v.keys[v.at - 2], v.keys[v.at - 1]), v.s.recvCount);
    }
  }

  lemma FarDhUnknown(v: View, keys: seq<Name>, c: nat)
    requires ViewOk(v) && PlainSecret(v.secret) && v.keys <= keys && Distinct(keys) && v.at + 2 <= c < |keys|
    ensures !Derivable(v.s, Dh(keys[c - 1], keys[c]))
  {
    assert keys[v.at] == v.keys[v.at];
    assert Position(keys, Point(keys[v.at])) == v.at;
    assert Position(keys, Point(keys[c])) == c && Position(keys, Point(keys[c - 1])) == c - 1;
    if StoredIn(v.s, Dh(keys[c - 1], keys[c])) {
      StoredShape(v, Dh(keys[c - 1], keys[c]));
    }
  }

  lemma FarChainNotStored(v: View, keys: seq<Name>, c: nat, n: nat)
    requires ViewOk(v) && PlainSecret(v.secret) && v.keys <= keys && v.at < c < |keys|
    ensures !StoredIn(v.s, Advance(Chain(v.secret, keys, c), n))
  {
    assert SendSide(v) && RecvSide(v);
    var t := Advance(Chain(v.secret, keys, c), n);
    ChainIsNoRoot(Root(v.secret, keys, c - 1), Dh(keys[c - 1], keys[c]), n);
    RootIsNoChain(v.secret, v.keys, v.at);
    if v.s.sendChain == Some(t) {
      ChainStays(v.secret, v.keys, keys, v.at);
      MessageKeyInjective(v.secret, keys, c, n, v.at, v.counts[v.at]);
    }
    if v.s.recvChain == Some(t) {
      ChainStays(v.secret, v.keys, keys, v.at - 1);
      MessageKeyInjective(v.secret, keys, c, n, v.at - 1, v.s.recvCount);
    }
  }

  lemma {:induction false} FarChainBlocked(v: View, keys: seq<Name>, c: nat, n: nat)
    requires ViewOk(v) && PlainSecret(v.secret) && v.keys <= keys && Distinct(keys) && v.at + 2 <= c < |keys|
    ensures !Derivable(v.s, Advance(Chain(v.secret, keys, c), n))
  {
    FarChainNotStored(v, keys, c, n);
    if n == 0 {
      FarDhUnknown(v, keys, c);
    } else {
      FarChainBlocked(v, keys, c, n - 1);
    }
  }

  lemma FarKeyNotStored(v: View, keys: seq<Name>, c: nat, n: nat)
    requires ViewOk(v) && PlainSecret(v.secret) && v.keys <= keys && v.at < c < |keys|
    ensures !StoredIn(v.s, MessageKey(v.secret, keys, c, n))
  {
    var mk := MessageKey(v.secret, keys, c, n);
    if StoredIn(v.s, mk) {
      StoredShape(v, mk);
      var k :| k in v.s.skipped && v.s.skipped[k] == mk;
      PendingCounted(v, k);
      var d := Position(v.keys, k.dhPublic);
      ChainStays(v.secret, v.keys, keys, d);
      MessageKeyInjective(v.secret, keys, c, n, d, k.counter);
    }
  }

  lemma FarKeyUnknown(v: View, keys: seq<Name>, c: nat, n: nat)
    requires ViewOk(v) && PlainSecret(v.secret) && v.keys <= keys && Distinct(keys) && v.at + 2 <= c < |keys|
    ensures !Derivable(v.s, MessageKey(v.secret, keys, c, n))
  {
    FarKeyNotStored(v, keys, c, n);
    FarChainBlocked(v, keys, c, n);
  }

  // ── What is still to come on the chains in reach ────────────────────────────

  lemma NearKeyKnown(v: View, keys: seq<Name>, c: nat, n: nat)
    requires ViewOk(v) && v.keys <= keys && 1 <= c < |keys|
    requires c == v.at || c == v.at + 1 || c + 1 == v.at
    requires c < |v.counts| ==> n >= v.counts[c]
    ensures Derivable(v.s, MessageKey(v.secret, keys, c, n))
  {
    assert SendSide(v) && RecvSide(v);
    if c == v.at {
      ChainStays(v.secret, v.keys, keys, c);
      OnwardKnown(v.s, Chain(v.secret, keys, c), v.counts[c], n);
    } else if c + 1 == v.at {
      ChainStays(v.secret, v.keys, keys, c);
      OnwardKnown(v.s, Chain(v.secret, keys, c), v.s.recvCount, n);
    } else {
      RootStays(v.secret, v.keys, keys, v.at);
      assert Derivable(v.s, Root(v.secret, keys, v.at)) && Derivable(v.s, Dh(keys[v.at], keys[c]));
      ChainReaches(v.s, Chain(v.secret, keys, c), n);
    }
  }

  lemma OnwardKnown(s: Session, start: Term, held: nat, n: nat)
    requires StoredIn(s, Advance(start, held)) && held <= n
    ensures Derivable(s, MsgKey(Advance(start, n)))
  {
    AdvanceAdd(start, held, n - held);
    ChainReaches(s, Advance(start, held), n - held);
  }

  // ── Over runs ───────────────────────────────────────────────────────────────

  /** No position is sealed into two packets. */
  lemma SealedOnce(secret: Term, keys: seq<Name>, counts: seq<nat>, net: seq<Packet>, first: nat, k: nat)
    requires |keys| == |counts| && NetOk(secret, keys, counts, net) && first <= k < |net|
    ensures !IsSealed(net[..first], net[k].chain, net[k].header.msgCounter)
  {
    forall a | 0 <= a < first
      ensures !(net[..first][a].chain == net[k].chain && net[..first][a].header.msgCounter == net[k].header.msgCounter)
    {
      assert PacketOk(secret, keys, counts, net[a]) && PacketOk(secret, keys, counts, net[k]);
      assert SlotOf(net[a].header) != SlotOf(net[k].header);
    }
  }

  /** A packet sealed after a point of a run stands at a position not counted then, on
      one of the last two chains or a later one. */
  lemma SealedLater(w: World, w': World, k: nat)
    requires |w.keys| == |w.counts| && |w'.keys| == |w'.counts| && EachSealed(w) && Later(w, w')
    requires NetOk(w'.secret, w'.keys, w'.counts, w'.net) && w.net <= w'.net && |w.net| <= k < |w'.net|
    ensures var p := w'.net[k];
            && |w.keys| <= p.chain + 2
            && (p.chain < |w.counts| ==> p.header.msgCounter >= w.counts[p.chain])
  {
    assert PacketOk(w'.secret, w'.keys, w'.counts, w'.net[k]);
    SealedOnce(w'.secret, w'.keys, w'.counts, w'.net, |w.net|, k);
    assert w'.net[..|w.net|] == w.net;
  }

  /** Whether a session saved at `w` gives away the key of packet `k` of a later point. */
  ghost predicate GivesAway(w: World, r: Role, p: Packet, k: nat)
    requires |w.keys| >= 2
  {
    if p.from == r then p.chain == At(w, r) && k >= |w.net|
    else p.chain <= At(w, r) + 1 && !(k < |w.net| && Delivered(w.log, k))
  }

  lemma LaterPacket(w: World, w': World, r: Role, k: nat)
    requires Inv(w) && EachSealed(w) && Inv(w') && Later(w, w') && w.net <= w'.net && |w.net| <= k < |w'.net|
    requires w.secret == w'.secret && PlainSecret(w.secret)
    ensures w'.net[k].ct.Sealed?
    ensures Derivable(SessionOf(w, r), w'.net[k].ct.key.mk) <==> GivesAway(w, r, w'.net[k], k)
  {
    var p, v := w'.net[k], ViewOf(w, r);
    ViewsFromInv(w, r);
    SealedLater(w, w', k);
    assert PacketOk(w'.secret, w'.keys, w'.counts, p);
    Owners(v, p);
    if p.chain >= v.at + 2 {
      FarKeyUnknown(v, w'.keys, p.chain, p.header.msgCounter);
    } else {
      NearKeyKnown(v, w'.keys, p.chain, p.header.msgCounter);
    }
  }

  /** Of the chains next to the own one, only that one is the party's. */
  lemma Owners(v: View, p: Packet)
    requires ViewShape(v) && p.from == OwnerOf(p.chain) && |v.keys| <= p.chain + 2
    ensures p.chain == v.at ==> p.from == v.me
    ensures p.chain == v.at + 1 || p.chain + 1 == v.at ==> p.from != v.me
    ensures p.chain + 1 >= v.at
  {
  }

  /**
   Self-healing. For any two points of a run, the session a party saved at the first
   gives away, of all packets sealed until the second: of its own, exactly those still
   to be sealed under the ratchet key it then had; of the peer's, exactly those not yet
   decrypted on chains up to the peer's next one. So one DH round trip later everything
   is out of its reach.
   */
  lemma HealsWithinRoundTrip(secret: Term, spk: Name, next: Name, ws: seq<World>, actions: seq<Action>,
                             i: nat, j: nat, r: Role, k: nat)
    requires IsRun(secret, spk, next, ws, actions) && i <= j < |ws| && k < |ws[j].net|
    requires SecretGuardedBelow(secret, spk, next)
    ensures |ws[i].keys| >= 2 && ws[j].net[k].ct.Sealed?
    ensures Derivable(SessionOf(ws[i], r), ws[j].net[k].ct.key.mk) <==> GivesAway(ws[i], r, ws[j].net[k], k)
  {
    RunGrows(secret, spk, next, ws, actions, i, j);
    if k < |ws[i].net| {
      EarlierPacket(secret, spk, next, ws, actions, i, r, k);
      assert ws[j].net[k] == ws[i].net[k];
    } else {
      RunInv(secret, spk, next, ws, actions, i);
      RunInv(secret, spk, next, ws, actions, j);
      RunGrows(secret, spk, next, ws, actions, 0, i);
      RunSeals(secret, spk, next, ws, actions, i);
      RunLater(secret, spk, next, ws, actions, i, j);
      LaterPacket(ws[i], ws[j], r, k);
    }
  }

  lemma EarlierPacket(secret: Term, spk: Name, next: Name, ws: seq<World>, actions: seq<Action>,
                      i: nat, r: Role, k: nat)
    requires IsRun(secret, spk, next, ws, actions) && i < |ws| && k < |ws[i].net|
    requires SecretGuardedBelow(secret, spk, next)
    ensures |ws[i].keys| >= 2 && ws[i].net[k].ct.Sealed?
    ensures Derivable(SessionOf(ws[i], r), ws[i].net[k].ct.key.mk) <==> GivesAway(ws[i], r, ws[i].net[k], k)
  {
    RunInv(secret, spk, next, ws, actions, i);
    KeysForgotten(secret, spk, next, ws, actions, i, k);
    assert PacketOk(ws[i].secret, ws[i].keys, ws[i].counts, ws[i].net[k]);
  }
}
