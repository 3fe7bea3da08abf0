/** Every allowed action keeps the invariant of the two-party conversation. */
module Preservation {
  import opened Prelude
  import opened KeyTerms
  import opened Ratchet
  import opened Conversation
  import opened Opening

  // ── One party's view when a position is decrypted ───────────────────────────

  /** The other party sees only one of its own positions spent. */
  lemma OtherSpends(v: View, slot: Slot)
    requires ViewOk(v)
    requires var c := Position(v.keys, slot.dhPublic); 1 <= c < |v.keys| && OwnerOf(c) == v.me
    ensures ViewOk(v.(spent := v.spent + {slot}))
  {
    var v' := v.(spent := v.spent + {slot});
    forall k: Slot
      ensures Pending(v', k) <==> Pending(v, k)
    {
    }
  }

  lemma StoredPending(v: View, slot: Slot, k: Slot)
    requires ViewShape(v)
    ensures Pending(v.(spent := v.spent + {slot}, s := AfterStored(v, slot)), k) <==> Pending(v, k) && k != slot
  {
  }

  lemma StoredExact(v: View, slot: Slot)
    requires ViewShape(v) && StoreExact(v) && Pending(v, slot)
    ensures StoreExact(v.(spent := v.spent + {slot}, s := AfterStored(v, slot)))
  {
    var v' := v.(spent := v.spent + {slot}, s := AfterStored(v, slot));
    forall k: Slot
      ensures k in v'.s.skipped <==> Pending(v', k)
      ensures k in v'.s.skipped ==> v'.s.skipped[k] == KeyOf(v', k)
    {
      StoredPending(v, slot, k);
    }
  }

  lemma StoredBelow(v: View, slot: Slot)
    requires ViewShape(v) && SpentBelow(v) && Pending(v, slot)
    ensures SpentBelow(v.(spent := v.spent + {slot}, s := AfterStored(v, slot)))
  {
  }

  lemma StoredKeeps(v: View, slot: Slot)
    requires ViewOk(v) && Pending(v, slot)
    ensures ViewOk(v.(spent := v.spent + {slot}, s := AfterStored(v, slot)))
  {
    StoredExact(v, slot);
    StoredBelow(v, slot);
  }

  predicate OnCurrent(v: View, c: nat, n: U32) {
    && 1 <= c < |v.keys| && |v.counts| == |v.keys| && c + 1 == v.at && OwnerOf(c) != v.me
    && v.s.recvCount <= n < v.counts[c] <= SEND_LIMIT
  }

  function CurrentView(v: View, c: nat, n: U32): View
    requires OnCurrent(v, c, n)
  {
    v.(spent := v.spent + {Slot(Point(v.keys[c]), n)}, s := AfterCurrent(v, c, n))
  }

  lemma CurrentPending(v: View, c: nat, n: U32, k: Slot)
    requires ViewShape(v) && SpentBelow(v) && OnCurrent(v, c, n)
    ensures Pending(CurrentView(v, c, n), k)
       <==> Pending(v, k) || (k.dhPublic == Point(v.keys[c]) && v.s.recvCount <= k.counter < n)
  {
    assert Position(v.keys, Point(v.keys[c])) == c;
  }

  lemma CurrentExact(v: View, c: nat, n: U32)
    requires ViewShape(v) && StoreExact(v) && SpentBelow(v) && OnCurrent(v, c, n)
    ensures StoreExact(CurrentView(v, c, n))
  {
    var v' := CurrentView(v, c, n);
    PassedHolds(v, c, v.s.recvCount, n);
    assert Position(v.keys, Point(v.keys[c])) == c;
    forall k: Slot
      ensures k in v'.s.skipped <==> Pending(v', k)
      ensures k in v'.s.skipped ==> v'.s.skipped[k] == KeyOf(v', k)
    {
      CurrentPending(v, c, n, k);
    }
  }

  lemma CurrentBelow(v: View, c: nat, n: U32)
    requires ViewShape(v) && SpentBelow(v) && OnCurrent(v, c, n)
    ensures SpentBelow(CurrentView(v, c, n))
  {
    assert Position(v.keys, Point(v.keys[c])) == c;
  }

  lemma CurrentKeeps(v: View, c: nat, n: U32)
    requires ViewOk(v) && OnCurrent(v, c, n)
    ensures ViewOk(CurrentView(v, c, n))
  {
    CurrentExact(v, c, n);
    CurrentBelow(v, c, n);
  }

  // ── One party's view when the DH ratchet turns ──────────────────────────────

  function Grown(v: View, gen: Name): View {
    v.(keys := v.keys + [gen], counts := v.counts + [0])
  }

  /** The schedule below the new key is untouched. */
  lemma KeysKept(v: View, gen: Name)
    requires Shape(v.keys, v.counts) && gen !in v.keys
    ensures Shape(v.keys + [gen], v.counts + [0])
    ensures forall i :: 0 <= i < |v.keys| ==> Root(v.secret, v.keys + [gen], i) == Root(v.secret, v.keys, i)
    ensures forall i :: 1 <= i < |v.keys| ==> Chain(v.secret, v.keys + [gen], i) == Chain(v.secret, v.keys, i)
    ensures forall pub :: Position(v.keys, pub) < |v.keys| ==>
              Position(v.keys + [gen], pub) == Position(v.keys, pub)
    ensures forall pub :: Position(v.keys, pub) == |v.keys| ==>
              Position(v.keys + [gen], pub) == (if pub == Point(gen) then |v.keys| else |v.keys| + 1)
  {
    DistinctGrows(v.keys, gen);
    assert (v.keys + [gen])[|v.keys|] == gen;
    forall i | 0 <= i < |v.keys|
      ensures Root(v.secret, v.keys + [gen], i) == Root(v.secret, v.keys, i)
    {
      RootKept(v.secret, v.keys, gen, i);
    }
  }

  lemma OtherGrowsExact(v: View, gen: Name)
    requires ViewShape(v) && StoreExact(v) && v.at == |v.keys| - 1 && gen !in v.keys
    ensures ViewShape(Grown(v, gen)) && StoreExact(Grown(v, gen))
  {
    KeysKept(v, gen);
    var v' := Grown(v, gen);
    forall k: Slot
      ensures Pending(v', k) <==> Pending(v, k)
    {
    }
  }

  lemma OtherGrows(v: View, gen: Name)
    requires ViewOk(v) && v.at == |v.keys| - 1 && gen !in v.keys
    ensures ViewOk(Grown(v, gen))
  {
    KeysKept(v, gen);
    OtherGrowsExact(v, gen);
    assert Lockstep(Grown(v, gen));
  }

  /** The peer's chain `c` has begun and its first packet to arrive is number `n`. */
  predicate OnNext(v: View, c: nat, n: U32, gen: Name) {
    && 1 <= c == v.at + 1 == |v.keys| - 1 && |v.counts| == |v.keys| && OwnerOf(c) != v.me
    && n < v.counts[c] <= SEND_LIMIT && PrevCount(v.counts, c) <= SEND_LIMIT
    && gen !in v.keys
  }

  function NextView(v: View, c: nat, n: U32, gen: Name): View
    requires OnNext(v, c, n, gen)
  {
    Grown(v, gen).(at := c + 1, spent := v.spent + {Slot(Point(v.keys[c]), n)},
                   s := AfterNext(v, c, PrevCount(v.counts, c), n, gen))
  }

  lemma NextShape(v: View, c: nat, n: U32, gen: Name)
    requires ViewShape(v) && OnNext(v, c, n, gen)
    ensures ViewShape(NextView(v, c, n, gen))
  {
    KeysKept(v, gen);
    assert OwnerOf(c + 1) == Peer(OwnerOf(c));
  }

  lemma NextSendSide(v: View, c: nat, n: U32, gen: Name)
    requires ViewShape(v) && SendSide(v) && OnNext(v, c, n, gen)
    ensures ViewShape(NextView(v, c, n, gen)) && SendSide(NextView(v, c, n, gen))
  {
    NextShape(v, c, n, gen);
    var v' := NextView(v, c, n, gen);
    assert v'.keys[c + 1] == gen && v'.counts[c + 1] == 0 && v'.counts[c - 1] == v.counts[v.at];
  }

  lemma NextRecvSide(v: View, c: nat, n: U32, gen: Name)
    requires ViewShape(v) && RecvSide(v) && OnNext(v, c, n, gen)
    ensures ViewShape(NextView(v, c, n, gen)) && RecvSide(NextView(v, c, n, gen))
  {
    NextShape(v, c, n, gen);
    RootKept(v.secret, v.keys, gen, c - 1);
    var v' := NextView(v, c, n, gen);
    assert v'.keys[c] == v.keys[c] && v'.keys[c - 1] == v.keys[c - 1] && v'.counts[c] == v.counts[c];
  }

  lemma NextFrontier(v: View, c: nat, n: U32, gen: Name, d: nat)
    requires OnNext(v, c, n, gen) && d < |v.keys| && OwnerOf(v.at) == v.me
    ensures Received(NextView(v, c, n, gen), d) <==> Received(v, d) || d == c
    ensures Frontier(NextView(v, c, n, gen), d) == if d == c then n + 1 else v.counts[d]
    ensures Received(v, d) && d + 1 == v.at ==> d == c - 2 && c >= 3
  {
  }

  lemma NextPending(v: View, c: nat, n: U32, gen: Name, k: Slot)
    requires ViewShape(v) && Lockstep(v) && SpentBelow(v) && OnNext(v, c, n, gen)
    ensures ViewShape(NextView(v, c, n, gen))
    ensures Pending(NextView(v, c, n, gen), k)
       <==> Pending(v, k) || InClosed(v, c, k) || InBegun(v, c, n, k)
  {
    NextShape(v, c, n, gen);
    NextPosition(v, gen, k.dhPublic);
    var d := Position(v.keys, k.dhPublic);
    assert Position(v.keys, Point(v.keys[c])) == c;
    if c >= 3 {
      assert Position(v.keys, Point(v.keys[c - 2])) == c - 2;
    }
    if d < |v.keys| {
      NextFrontier(v, c, n, gen, d);
      if d == c {
        assert k !in v.spent;
      } else if Received(v, d) && d + 1 == v.at {
        assert k in v.spent ==> k.counter < v.s.recvCount;
      }
    }
  }

  lemma NextPosition(v: View, gen: Name, pub: PublicKey)
    requires Shape(v.keys, v.counts) && gen !in v.keys
    ensures Position(v.keys, pub) < |v.keys| ==> Position(v.keys + [gen], pub) == Position(v.keys, pub)
    ensures Position(v.keys, pub) == |v.keys| ==> Position(v.keys + [gen], pub) >= |v.keys|
  {
    KeysKept(v, gen);
  }

  predicate InClosed(v: View, c: nat, k: Slot)
    requires c < |v.keys| && |v.counts| == |v.keys|
  {
    c >= 3 && k.dhPublic == Point(v.keys[c - 2]) && v.s.recvCount <= k.counter < v.counts[c - 2]
  }

  predicate InBegun(v: View, c: nat, n: U32, k: Slot)
    requires c < |v.keys|
  {
    k.dhPublic == Point(v.keys[c]) && k.counter < n
  }

  lemma ClosedAdds(v: View, c: nat, k: Slot)
    requires ViewShape(v) && 3 <= c < |v.keys|
    ensures var m := Passed(v, c - 2, v.s.recvCount, PrevCount(v.counts, c));
            && (k in m <==> InClosed(v, c, k))
            && (k in m ==> Position(v.keys, k.dhPublic) == c - 2 && m[k] == KeyOf(v, k))
  {
    assert Position(v.keys, Point(v.keys[c - 2])) == c - 2;
    PassedHolds(v, c - 2, v.s.recvCount, PrevCount(v.counts, c));
  }

  /** What closing the current chain leaves in the store. */
  lemma ClosedHolds(v: View, c: nat, k: Slot)
    requires ViewShape(v) && StoreExact(v) && 1 <= c < |v.keys|
    ensures var m := ClosedStore(v, c, PrevCount(v.counts, c));
            && (k in m <==> Pending(v, k) || InClosed(v, c, k))
            && (k in m ==> 1 <= Position(v.keys, k.dhPublic) < |v.keys| && m[k] == KeyOf(v, k))
  {
    if c >= 3 {
      ClosedAdds(v, c, k);
    }
  }

  /** What the turn and the skip on the new chain leave in the store. */
  lemma NextStore(v: View, c: nat, n: U32, gen: Name, k: Slot)
    requires ViewShape(v) && StoreExact(v) && OnNext(v, c, n, gen)
    ensures var m := NextView(v, c, n, gen).s.skipped;
            && (k in m <==> Pending(v, k) || InClosed(v, c, k) || InBegun(v, c, n, k))
            && (k in m ==> 1 <= Position(v.keys, k.dhPublic) < |v.keys| && m[k] == KeyOf(v, k))
  {
    assert Position(v.keys, Point(v.keys[c])) == c;
    PassedHolds(v, c, 0, n);
    ClosedHolds(v, c, k);
  }

  lemma NextExact(v: View, c: nat, n: U32, gen: Name)
    requires ViewOk(v) && OnNext(v, c, n, gen)
    ensures ViewShape(NextView(v, c, n, gen)) && StoreExact(NextView(v, c, n, gen))
  {
    NextShape(v, c, n, gen);
    var v' := NextView(v, c, n, gen);
    forall k: Slot
      ensures k in v'.s.skipped <==> Pending(v', k)
      ensures k in v'.s.skipped ==> v'.s.skipped[k] == KeyOf(v', k)
    {
      NextPending(v, c, n, gen, k);
      NextStore(v, c, n, gen, k);
      if k in v'.s.skipped {
        KeysKept(v, gen);
        assert KeyOf(v', k) == KeyOf(v, k);
      }
    }
  }

  lemma NextBelow(v: View, c: nat, n: U32, gen: Name)
    requires ViewShape(v) && Lockstep(v) && SpentBelow(v) && OnNext(v, c, n, gen)
    ensures ViewShape(NextView(v, c, n, gen)) && SpentBelow(NextView(v, c, n, gen))
  {
    NextShape(v, c, n, gen);
    var v' := NextView(v, c, n, gen);
    assert Position(v.keys, Point(v.keys[c])) == c;
    forall k | k in v'.spent
      ensures var d := Position(v'.keys, k.dhPublic);
              1 <= d < |v'.keys| && (OwnerOf(d) != v.me ==> Received(v', d) && k.counter < Frontier(v', d))
    {
      var d := Position(v.keys, k.dhPublic);
      NextPosition(v, gen, k.dhPublic);
      NextFrontier(v, c, n, gen, d);
    }
  }

  lemma NextKeeps(v: View, c: nat, n: U32, gen: Name)
    requires ViewOk(v) && OnNext(v, c, n, gen)
    ensures ViewOk(NextView(v, c, n, gen))
  {
    NextSendSide(v, c, n, gen);
    NextRecvSide(v, c, n, gen);
    NextExact(v, c, n, gen);
    NextBelow(v, c, n, gen);
  }

  // ── Both views when a packet is sealed ──────────────────────────────────────

  function Counted(v: View, i: nat): View
    requires i < |v.counts|
  {
    v.(counts := v.counts[i := v.counts[i] + 1])
  }

  /** The session after `encrypt` at its schedule position. */
  function AfterSend(v: View): Session
    requires ViewShape(v) && v.at >= 1 && v.counts[v.at] < SEND_LIMIT
  {
    v.s.(sendChain := Some(Advance(Chain(v.secret, v.keys, v.at), v.counts[v.at] + 1)),
         sendCount := v.counts[v.at] + 1)
  }

  lemma CountedPending(v: View, i: nat, k: Slot)
    requires ViewShape(v) && i < |v.keys| && v.counts[i] < SEND_LIMIT && i >= 1
    requires OwnerOf(i) == v.me || i + 1 >= v.at
    ensures ViewShape(Counted(v, i)) && (Pending(Counted(v, i), k) <==> Pending(v, k))
  {
  }

  lemma SenderKeeps(v: View)
    requires ViewOk(v) && v.at >= 1 && v.counts[v.at] < SEND_LIMIT
    ensures ViewOk(Counted(v, v.at).(s := AfterSend(v)))
  {
    var v' := Counted(v, v.at).(s := AfterSend(v));
    assert SendSide(v') && RecvSide(v');
    forall k: Slot
      ensures Pending(v', k) <==> Pending(v, k)
    {
    }
  }

  lemma AddresseeKeeps(v: View, i: nat)
    requires ViewOk(v) && 1 <= i < |v.keys| && OwnerOf(i) != v.me && i + 1 >= v.at
    requires v.counts[i] < SEND_LIMIT
    ensures ViewOk(Counted(v, i))
  {
    CountedStore(v, i);
    CountedBelow(v, i);
    assert SendSide(Counted(v, i)) && RecvSide(Counted(v, i));
  }

  lemma CountedStore(v: View, i: nat)
    requires ViewShape(v) && StoreExact(v) && 1 <= i < |v.keys| && OwnerOf(i) != v.me && i + 1 >= v.at
    requires v.counts[i] < SEND_LIMIT
    ensures ViewShape(Counted(v, i)) && StoreExact(Counted(v, i))
  {
    forall k: Slot
      ensures ViewShape(Counted(v, i)) && (Pending(Counted(v, i), k) <==> Pending(v, k))
    {
      CountedPending(v, i, k);
    }
  }

  lemma CountedBelow(v: View, i: nat)
    requires ViewShape(v) && SpentBelow(v) && 1 <= i < |v.keys| && OwnerOf(i) != v.me && i + 1 >= v.at
    requires v.counts[i] < SEND_LIMIT
    ensures ViewShape(Counted(v, i)) && SpentBelow(Counted(v, i))
  {
  }
}
