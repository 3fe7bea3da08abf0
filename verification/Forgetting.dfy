/**
 Which message keys a saved session still gives away. Everything a holder of the
 session can compute with KDF_CK, KDF_RK, the X3DH derivation and Diffie-Hellman
 against any public key is `Derivable`; a key already used must not be.
 */
module Forgetting {
  import opened Prelude
  import opened KeyTerms
  import opened Ratchet
  import opened Conversation
  import opened Opening
  import opened Runs

  predicate StoredIn(s: Session, t: Term) {
    || t == s.rootKey
    || s.sendChain == Some(t)
    || s.recvChain == Some(t)
    || exists k :: k in s.skipped && s.skipped[k] == t
  }

  predicate Derivable(s: Session, t: Term)
    decreases t
  {
    StoredIn(s, t) ||
    match t
    case Random(_) => false
    case DhOut(a, b) => s.dhSelf.Some? && (a == s.dhSelf.value.private || b == s.dhSelf.value.private)
    case X3dhSecret(ikm) => forall i :: 0 <= i < |ikm| ==> Derivable(s, ikm[i])
    case RootOf(root, dh) => Derivable(s, root) && Derivable(s, dh)
    case ChainOf(root, dh) => Derivable(s, root) && Derivable(s, dh)
    case NextChain(chain) => Derivable(s, chain)
    case MsgKey(chain) => Derivable(s, chain)
  }

  /** The initial secret is random, or an X3DH output one of whose inputs needs a
      private key that is no ratchet key. */
  ghost predicate SecretGuarded(secret: Term, keys: seq<Name>) {
    || secret.Random?
    || (secret.X3dhSecret? && exists j, x: Name, y: Name {:trigger secret.ikm[j], Dh(x, y)} ::
          0 <= j < |secret.ikm| && secret.ikm[j] == Dh(x, y) && x !in keys && y !in keys)
  }

  // ── A party cannot go back below its own root ───────────────────────────────

  lemma ChainIsNoRoot(r: Term, d: Term, n: nat)
    ensures var t := Advance(ChainOf(r, d), n); t.ChainOf? || t.NextChain?
  {
  }

  /** Nothing stored is an earlier root. */
  lemma RootNotStored(v: View, j: nat)
    requires ViewOk(v) && j < v.at && SecretGuarded(v.secret, v.keys)
    ensures !StoredIn(v.s, Root(v.secret, v.keys, j))
  {
    assert SendSide(v) && RecvSide(v);
    RootDepthIs(v.secret, v.keys, j);
    RootDepthIs(v.secret, v.keys, v.at);
    ChainIsNoRoot(Root(v.secret, v.keys, v.at - 1), Dh(v.keys[v.at - 1], v.keys[v.at]), v.counts[v.at]);
    if v.at >= 2 {
      ChainIsNoRoot(Root(v.secret, v.keys, v.at - 2), Dh(v.keys[v.at - 2], v.keys[v.at - 1]), v.s.recvCount);
    }
  }

  lemma {:induction false} PastRootBlocked(v: View, j: nat)
    requires ViewOk(v) && j < v.at && SecretGuarded(v.secret, v.keys)
    ensures !Derivable(v.s, Root(v.secret, v.keys, j))
  {
    RootNotStored(v, j);
    if j > 0 {
      PastRootBlocked(v, j - 1);
    } else if v.secret.X3dhSecret? {
      SecretBlocked(v);
    }
  }

  lemma SecretBlocked(v: View)
    requires ViewOk(v) && v.at >= 1 && SecretGuarded(v.secret, v.keys) && v.secret.X3dhSecret?
    ensures exists j :: 0 <= j < |v.secret.ikm| && !Derivable(v.s, v.secret.ikm[j])
  {
    var j, x: Name, y: Name :|
      0 <= j < |v.secret.ikm| && v.secret.ikm[j] == Dh(x, y) && x !in v.keys && y !in v.keys;
    assert SendSide(v) && RecvSide(v);
    ChainIsNoRoot(Root(v.secret, v.keys, v.at - 1), Dh(v.keys[v.at - 1], v.keys[v.at]), v.counts[v.at]);
    if v.at >= 2 {
      ChainIsNoRoot(Root(v.secret, v.keys, v.at - 2), Dh(v.keys[v.at - 2], v.keys[v.at - 1]), v.s.recvCount);
    }
    assert !StoredIn(v.s, Dh(x, y));
    assert v.keys[v.at] in v.keys;
  }

  // ── Chains: only positions at or beyond the counters can be reached ─────────

  /** A position the session's own chain keys have moved past. */
  predicate PassedBy(v: View, c: nat, n: nat) {
    && 1 <= c <= v.at < |v.keys| && |v.counts| == |v.keys|
    && (c == v.at ==> n < v.counts[c])
    && (c + 1 == v.at ==> n < v.s.recvCount)
  }

  lemma ChainNotStored(v: View, c: nat, n: nat)
    requires ViewOk(v) && PassedBy(v, c, n)
    ensures !StoredIn(v.s, Advance(Chain(v.secret, v.keys, c), n))
  {
    assert SendSide(v) && RecvSide(v);
    var t := Advance(Chain(v.secret, v.keys, c), n);
    ChainIsNoRoot(Root(v.secret, v.keys, c - 1), Dh(v.keys[c - 1], v.keys[c]), n);
    if v.s.sendChain == Some(t) {
      MessageKeyInjective(v.secret, v.keys, c, n, v.at, v.counts[v.at]);
    }
    if v.s.recvChain == Some(t) {
      MessageKeyInjective(v.secret, v.keys, c, n, v.at - 1, v.s.recvCount);
    }
    RootIsNoChain(v.secret, v.keys, v.at);
  }

  lemma RootIsNoChain(secret: Term, keys: seq<Name>, i: nat)
    requires i < |keys|
    ensures Root(secret, keys, i).RootOf? || Root(secret, keys, i) == secret
  {
  }

  lemma {:induction false} PastChainBlocked(v: View, c: nat, n: nat)
    requires ViewOk(v) && PassedBy(v, c, n) && SecretGuarded(v.secret, v.keys)
    ensures !Derivable(v.s, Advance(Chain(v.secret, v.keys, c), n))
  {
    ChainNotStored(v, c, n);
    if n == 0 {
      PastRootBlocked(v, c - 1);
    } else {
      PastChainBlocked(v, c, n - 1);
    }
  }

  lemma KeyForgotten(v: View, c: nat, n: nat)
    requires ViewOk(v) && PassedBy(v, c, n) && SecretGuarded(v.secret, v.keys)
    requires n <= U32_MAX && !Pending(v, Slot(Point(v.keys[c]), n))
    ensures !Derivable(v.s, MessageKey(v.secret, v.keys, c, n))
  {
    PastChainBlocked(v, c, n);
    assert SendSide(v) && RecvSide(v);
    var mk := MessageKey(v.secret, v.keys, c, n);
    RootIsNoChain(v.secret, v.keys, v.at);
    if k :| k in v.s.skipped && v.s.skipped[k] == mk {
      MessageKeyInjective(v.secret, v.keys, c, n, Position(v.keys, k.dhPublic), k.counter);
    }
    if v.at >= 1 {
      ChainIsNoRoot(Root(v.secret, v.keys, v.at - 1), Dh(v.keys[v.at - 1], v.keys[v.at]), v.counts[v.at]);
    }
    if v.at >= 2 {
      ChainIsNoRoot(Root(v.secret, v.keys, v.at - 2), Dh(v.keys[v.at - 2], v.keys[v.at - 1]), v.s.recvCount);
    }
  }

  // ── What must remain reachable: keys of packets still to come ───────────────

  lemma {:induction false} ChainReaches(s: Session, ck: Term, n: nat)
    requires Derivable(s, ck)
    ensures Derivable(s, Advance(ck, n))
  {
    if n > 0 {
      ChainReaches(s, ck, n - 1);
    }
  }

  lemma NextChainReachable(v: View, c: nat, n: nat)
    requires ViewShape(v) && SendSide(v) && c == v.at + 1 < |v.keys|
    ensures Derivable(v.s, MessageKey(v.secret, v.keys, c, n))
  {
    assert Derivable(v.s, Root(v.secret, v.keys, v.at));
    assert Derivable(v.s, Dh(v.keys[v.at], v.keys[c]));
    ChainReaches(v.s, Chain(v.secret, v.keys, c), n);
  }

  lemma CurrentChainReachable(v: View, c: nat, n: nat)
    requires ViewShape(v) && RecvSide(v) && 1 <= c && c + 1 == v.at && v.s.recvCount <= n
    ensures Derivable(v.s, MessageKey(v.secret, v.keys, c, n))
  {
    AdvanceAdd(Chain(v.secret, v.keys, c), v.s.recvCount, n - v.s.recvCount);
    ChainReaches(v.s, v.s.recvChain.value, n - v.s.recvCount);
  }

  lemma KeyReachable(v: View, p: Packet)
    requires ViewOk(v) && PacketFor(v, p) && p.from != v.me && SlotOf(p.header) !in v.spent
    ensures Derivable(v.s, MessageKey(v.secret, v.keys, p.chain, p.header.msgCounter))
  {
    var c, n := p.chain, p.header.msgCounter;
    assert Position(v.keys, p.header.dhPublic) == c;
    if c == v.at + 1 {
      NextChainReachable(v, c, n);
    } else if c + 1 == v.at && v.s.recvCount <= n {
      CurrentChainReachable(v, c, n);
    } else {
      assert Pending(v, SlotOf(p.header));
      assert v.s.skipped[SlotOf(p.header)] == MessageKey(v.secret, v.keys, c, n);
    }
  }

  // ── Over runs ───────────────────────────────────────────────────────────────

  /** The two private keys behind the guarding X3DH input stay out of the schedule. */
  lemma {:induction false} GuardKept(secret: Term, spk: Name, next: Name, ws: seq<World>, actions: seq<Action>,
                                     i: nat, x: Name)
    requires IsRun(secret, spk, next, ws, actions) && i < |ws| && x < next && x != spk
    ensures x !in ws[i].keys
  {
    if i > 0 {
      GuardKept(secret, spk, next, ws, actions, i - 1, x);
      RunGrows(secret, spk, next, ws, actions, 0, i - 1);
      DoGrows(ws[i - 1], actions[i - 1]);
    }
  }

  lemma SecretStaysGuarded(secret: Term, spk: Name, next: Name, ws: seq<World>, actions: seq<Action>, i: nat)
    requires IsRun(secret, spk, next, ws, actions) && i < |ws| && SecretGuardedBelow(secret, spk, next)
    ensures SecretGuarded(ws[i].secret, ws[i].keys)
  {
    RunGrows(secret, spk, next, ws, actions, 0, i);
    if secret.X3dhSecret? {
      var j, x: Name, y: Name :| 0 <= j < |secret.ikm| && secret.ikm[j] == Dh(x, y)
                               && x < next && y < next && x != spk && y != spk;
      GuardKept(secret, spk, next, ws, actions, i, x);
      GuardKept(secret, spk, next, ws, actions, i, y);
    }
  }

  /** The initial secret rests on a Diffie-Hellman output of two keys made before the
      ratchet and different from the signed pre-key. */
  ghost predicate SecretGuardedBelow(secret: Term, spk: Name, next: Name) {
    || secret.Random?
    || (secret.X3dhSecret? && exists j, x: Name, y: Name {:trigger secret.ikm[j], Dh(x, y)} ::
          0 <= j < |secret.ikm| && secret.ikm[j] == Dh(x, y) && x < next && y < next && x != spk && y != spk)
  }

  /**
   Forgetting. At every point of a run, for every packet sealed so far: its sender
   can no longer derive its key, and its addressee can derive it exactly as long as
   it has not decrypted the packet.
   */
  lemma KeysForgotten(secret: Term, spk: Name, next: Name, ws: seq<World>, actions: seq<Action>, i: nat, k: nat)
    requires IsRun(secret, spk, next, ws, actions) && i < |ws| && k < |ws[i].net|
    requires SecretGuardedBelow(secret, spk, next)
    ensures var w := ws[i]; var p := w.net[k];
            && p.ct.Sealed?
            && !Derivable(SessionOf(w, p.from), p.ct.key.mk)
            && (Derivable(SessionOf(w, Peer(p.from)), p.ct.key.mk) <==> !Delivered(w.log, k))
  {
    RunInv(secret, spk, next, ws, actions, i);
    SecretStaysGuarded(secret, spk, next, ws, actions, i);
    var w := ws[i];
    var p := w.net[k];
    ViewsFromInv(w, p.from);
    SenderForgets(ViewOf(w, p.from), p);
    var u := ViewOf(w, Peer(p.from));
    assert PacketFor(u, p);
    if Delivered(w.log, k) {
      AddresseeForgets(u, p);
    } else {
      KeyReachable(u, p);
    }
  }

  lemma SenderForgets(v: View, p: Packet)
    requires ViewOk(v) && PacketFor(v, p) && p.from == v.me && SecretGuarded(v.secret, v.keys)
    ensures !Derivable(v.s, MessageKey(v.secret, v.keys, p.chain, p.header.msgCounter))
  {
    assert Position(v.keys, p.header.dhPublic) == p.chain;
    assert OwnerOf(v.at + 1) == Peer(OwnerOf(v.at));
    KeyForgotten(v, p.chain, p.header.msgCounter);
  }

  lemma AddresseeForgets(v: View, p: Packet)
    requires ViewOk(v) && PacketFor(v, p) && p.from != v.me && SecretGuarded(v.secret, v.keys)
    requires SlotOf(p.header) in v.spent
    ensures !Derivable(v.s, MessageKey(v.secret, v.keys, p.chain, p.header.msgCounter))
  {
    assert Position(v.keys, p.header.dhPublic) == p.chain;
    KeyForgotten(v, p.chain, p.header.msgCounter);
  }
}
