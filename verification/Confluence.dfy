/**
 Out-of-order delivery on one receive chain: any order of up to MAX_SKIP + 1
 consecutive packets gives the same plaintexts and leaves the same session as the
 order they were sent in.
 */
module Confluence {
  import opened Prelude
  import opened KeyTerms
  import opened Ratchet
  import opened Conversation
  import Runs

  /** A receive chain about to take `count` packets at and above `recv_count`. */
  ghost predicate Ready(s: Session, count: nat) {
    && s.recvChain.Some? && s.dhRemote.Some?
    && s.recvCount + count <= SEND_LIMIT
    && forall k :: k in s.skipped && k.dhPublic == s.dhRemote.value ==> k.counter < s.recvCount
  }

  lemma CurrentBelow(v: View, k: Slot)
    requires ViewOk(v) && k in v.s.skipped && v.s.dhRemote == Some(k.dhPublic)
    ensures k.counter < v.s.recvCount
  {
    assert Pending(v, k) && RecvSide(v);
    assert Position(v.keys, Point(v.keys[v.at - 1])) == v.at - 1;
  }

  lemma ReadyIn(v: View, count: nat)
    requires ViewOk(v)
    ensures Ready(v.s, count) <==> v.s.recvChain.Some? && v.s.recvCount + count <= SEND_LIMIT
  {
    assert RecvSide(v);
    forall k | k in v.s.skipped && v.s.dhRemote == Some(k.dhPublic)
      ensures k.counter < v.s.recvCount
    {
      CurrentBelow(v, k);
    }
  }

  /** In a run, the store asks nothing of a session: only the counter's room does. */
  lemma ReadyInRuns(secret: Term, spk: Name, next: Name, ws: seq<World>, actions: seq<Action>,
                    i: nat, r: Role, count: nat)
    requires Runs.IsRun(secret, spk, next, ws, actions) && i < |ws|
    ensures var s := SessionOf(ws[i], r);
            Ready(s, count) <==> s.recvChain.Some? && s.recvCount + count <= SEND_LIMIT
  {
    Runs.RunInv(secret, spk, next, ws, actions, i);
    Runs.ViewsFromInv(ws[i], r);
    ReadyIn(ViewOf(ws[i], r), count);
  }

  /** The `j`-th of those packets. */
  function HeaderAt(s: Session, prev: U32, j: nat): Header
    requires s.dhRemote.Some? && s.recvCount + j <= U32_MAX
  {
    Header(s.dhRemote.value, prev, s.recvCount + j)
  }

  function SealedAt(s: Session, plaintext: seq<Byte>, ad: seq<Byte>, j: nat): Ciphertext
    requires s.recvChain.Some?
  {
    SealWith(MsgKey(Advance(s.recvChain.value, j)), plaintext, ad)
  }

  ghost predicate IsHighest(done: set<nat>, m: nat) {
    m in done && forall j :: j in done ==> j <= m
  }

  /** One past the highest packet delivered. */
  ghost function Reach(done: set<nat>): (m: nat)
    ensures forall j :: j in done ==> j < m
    ensures m == 0 <==> done == {}
    ensures m > 0 ==> m - 1 in done
  {
    if done == {} then 0
    else
      ThereIsAHighest(done);
      var m: nat :| IsHighest(done, m);
      m + 1
  }

  lemma {:induction false} ThereIsAHighest(done: set<nat>)
    requires done != {}
    ensures exists m: nat :: IsHighest(done, m)
  {
    var x :| x in done;
    var rest := done - {x};
    assert forall j :: j in done <==> j == x || j in rest;
    if rest == {} {
      assert IsHighest(done, x);
    } else {
      ThereIsAHighest(rest);
      var y: nat :| IsHighest(rest, y);
      assert IsHighest(done, if x < y then y else x);
    }
  }

  /** The session once the packets in `done` have been delivered, in whatever order:
      the chain stands past the highest, and the gaps below it are stored. */
  ghost predicate IsAfter(t: Session, s: Session, done: set<nat>, count: nat)
    requires Ready(s, count)
  {
    && (forall j :: j in done ==> j < count)
    && t == s.(recvChain := Some(Advance(s.recvChain.value, Reach(done))),
               recvCount := s.recvCount + Reach(done), skipped := t.skipped)
    && (forall k :: k in t.skipped <==>
          || k in s.skipped
          || (k.dhPublic == s.dhRemote.value && s.recvCount <= k.counter < s.recvCount + Reach(done)
              && k.counter - s.recvCount !in done))
    && (forall k :: k in t.skipped ==>
          t.skipped[k] == if k in s.skipped then s.skipped[k]
                          else MsgKey(Advance(s.recvChain.value, k.counter - s.recvCount)))
  }

  lemma NothingDelivered(s: Session, count: nat)
    requires Ready(s, count)
    ensures IsAfter(s, s, {}, count)
  {
  }

  lemma AllDelivered(t: Session, s: Session, done: set<nat>, count: nat)
    requires Ready(s, count) && IsAfter(t, s, done, count)
    requires forall j :: j in done <==> 0 <= j < count
    ensures t == s.(recvChain := Some(Advance(s.recvChain.value, count)), recvCount := s.recvCount + count)
  {
    assert Reach(done) == count by {
      assert count > 0 ==> count - 1 in done;
    }
    assert t.skipped == s.skipped;
  }

  /** A packet not yet delivered decrypts, whichever came before it. */
  lemma DeliverOne(t: Session, s: Session, done: set<nat>, count: nat, j: nat,
                   prev: U32, plaintext: seq<Byte>, ad: seq<Byte>, gen: Name)
    requires Ready(s, count) && IsAfter(t, s, done, count) && count <= MAX_SKIP + 1
    requires j < count && j !in done
    ensures var o := RatchetDecrypt(t, HeaderAt(s, prev, j), SealedAt(s, plaintext, ad, j), ad, gen);
            o.Success? && o.value.1 == plaintext && IsAfter(o.value.0, s, done + {j}, count)
  {
    var h := HeaderAt(s, prev, j);
    var mk := MsgKey(Advance(s.recvChain.value, j));
    OpenSealed(mk, mk, plaintext, ad, ad);
    if j < Reach(done) {
      LateOne(t, s, done, count, j, prev, plaintext, ad, gen);
    } else {
      EarlyOne(t, s, done, count, j, prev, plaintext, ad, gen);
    }
  }

  lemma LateOne(t: Session, s: Session, done: set<nat>, count: nat, j: nat,
                prev: U32, plaintext: seq<Byte>, ad: seq<Byte>, gen: Name)
    requires Ready(s, count) && IsAfter(t, s, done, count)
    requires j < Reach(done) <= count && j !in done
    ensures var o := RatchetDecrypt(t, HeaderAt(s, prev, j), SealedAt(s, plaintext, ad, j), ad, gen);
            o.Success? && o.value.1 == plaintext && IsAfter(o.value.0, s, done + {j}, count)
  {
    LateStored(t, s, done, count, j);
    LateOpens(t, s, j, prev, plaintext, ad, gen);
    LateAfter(t, s, done, count, j);
  }

  lemma LateStored(t: Session, s: Session, done: set<nat>, count: nat, j: nat)
    requires Ready(s, count) && IsAfter(t, s, done, count)
    requires j < Reach(done) <= count && j !in done
    ensures var slot := Slot(s.dhRemote.value, s.recvCount + j);
            slot in t.skipped && t.skipped[slot] == MsgKey(Advance(s.recvChain.value, j))
  {
    assert Slot(s.dhRemote.value, s.recvCount + j) !in s.skipped;
  }

  lemma LateOpens(t: Session, s: Session, j: nat, prev: U32, plaintext: seq<Byte>, ad: seq<Byte>, gen: Name)
    requires s.recvChain.Some? && s.dhRemote.Some? && s.recvCount + j <= U32_MAX
    requires var slot := Slot(s.dhRemote.value, s.recvCount + j);
             slot in t.skipped && t.skipped[slot] == MsgKey(Advance(s.recvChain.value, j))
    ensures RatchetDecrypt(t, HeaderAt(s, prev, j), SealedAt(s, plaintext, ad, j), ad, gen)
         == Success((t.(skipped := t.skipped - {Slot(s.dhRemote.value, s.recvCount + j)}), plaintext))
  {
    var mk := MsgKey(Advance(s.recvChain.value, j));
    OpenSealed(mk, mk, plaintext, ad, ad);
  }

  lemma LateAfter(t: Session, s: Session, done: set<nat>, count: nat, j: nat)
    requires Ready(s, count) && IsAfter(t, s, done, count) && j < Reach(done) <= count && j !in done
    ensures IsAfter(t.(skipped := t.skipped - {Slot(s.dhRemote.value, s.recvCount + j)}), s, done + {j}, count)
  {
    assert Reach(done + {j}) == Reach(done);
  }

  /** The session after skipping from the highest delivered packet up to `j`. */
  function Skipped(t: Session, s: Session, j: nat): Session
    requires s.recvChain.Some? && t.recvChain.Some? && t.dhRemote.Some? && s.recvCount + j < U32_MAX
  {
    t.(recvChain := Some(Advance(s.recvChain.value, j + 1)), recvCount := s.recvCount + j + 1,
       skipped := t.skipped + SkippedRange(t.dhRemote.value, t.recvChain.value, t.recvCount, s.recvCount + j))
  }

  lemma EarlyOpens(t: Session, s: Session, m: nat, j: nat, prev: U32, plaintext: seq<Byte>, ad: seq<Byte>, gen: Name)
    requires s.recvChain.Some? && s.dhRemote.Some? && t.dhRemote == s.dhRemote
    requires m <= j <= m + MAX_SKIP && s.recvCount + j < SEND_LIMIT
    requires t.recvChain == Some(Advance(s.recvChain.value, m)) && t.recvCount == s.recvCount + m
    requires SlotOf(HeaderAt(s, prev, j)) !in t.skipped
    ensures RatchetDecrypt(t, HeaderAt(s, prev, j), SealedAt(s, plaintext, ad, j), ad, gen)
         == Success((Skipped(t, s, j), plaintext))
  {
    var ck, h := s.recvChain.value, HeaderAt(s, prev, j);
    SkipTo(t, ck, m, h.msgCounter);
    var aligned := Align(t, h, gen);
    assert aligned == SkipUntil(t, h.msgCounter);
    assert aligned.session.recvChain == Some(Advance(ck, j));
    assert NextChain(Advance(ck, j)) == Advance(ck, j + 1);
    var mk := MsgKey(Advance(s.recvChain.value, j));
    OpenSealed(mk, mk, plaintext, ad, ad);
  }

  lemma SkipTo(t: Session, ck: Term, m: nat, until: U32)
    requires t.dhRemote.Some? && t.recvChain == Some(Advance(ck, m))
    requires t.recvCount <= until <= t.recvCount + MAX_SKIP && until < SEND_LIMIT
    ensures SkipUntil(t, until)
         == Step(t.(recvChain := Some(Advance(ck, m + until - t.recvCount)), recvCount := until,
                    skipped := t.skipped + SkippedRange(t.dhRemote.value, t.recvChain.value, t.recvCount, until)),
                 None)
  {
    if until == t.recvCount {
      assert t.skipped + SkippedRange(t.dhRemote.value, t.recvChain.value, until, until) == t.skipped;
    } else {
      AdvanceAdd(ck, m, until - t.recvCount);
    }
  }

  /** The entries the skip itself adds. */
  lemma EarlyAdds(t: Session, s: Session, m: nat, j: nat, k: Slot)
    requires s.recvChain.Some? && t.dhRemote.Some? && m <= j && s.recvCount + j < SEND_LIMIT
    requires t.recvChain == Some(Advance(s.recvChain.value, m)) && t.recvCount == s.recvCount + m
    ensures var r := SkippedRange(t.dhRemote.value, t.recvChain.value, t.recvCount, s.recvCount + j);
            && (k in r <==> k.dhPublic == t.dhRemote.value && s.recvCount + m <= k.counter < s.recvCount + j)
            && (k in r ==> r[k] == MsgKey(Advance(s.recvChain.value, k.counter - s.recvCount)))
  {
    SkippedRangeHolds(t.dhRemote.value, t.recvChain.value, t.recvCount, s.recvCount + j);
    if t.recvCount <= k.counter {
      AdvanceAdd(s.recvChain.value, m, k.counter - t.recvCount);
    }
  }

  lemma EarlyStore(t: Session, s: Session, done: set<nat>, count: nat, j: nat, k: Slot)
    requires Ready(s, count) && IsAfter(t, s, done, count) && Reach(done) <= j < count
    ensures var m := Skipped(t, s, j).skipped;
            && (k in m <==>
                 || k in s.skipped
                 || (k.dhPublic == s.dhRemote.value && s.recvCount <= k.counter < s.recvCount + j + 1
                     && k.counter - s.recvCount !in done + {j}))
            && (k in m ==> m[k] == if k in s.skipped then s.skipped[k]
                                   else MsgKey(Advance(s.recvChain.value, k.counter - s.recvCount)))
  {
    EarlyAdds(t, s, Reach(done), j, k);
  }

  lemma EarlyOne(t: Session, s: Session, done: set<nat>, count: nat, j: nat,
                 prev: U32, plaintext: seq<Byte>, ad: seq<Byte>, gen: Name)
    requires Ready(s, count) && IsAfter(t, s, done, count) && count <= MAX_SKIP + 1
    requires Reach(done) <= j < count
    ensures var o := RatchetDecrypt(t, HeaderAt(s, prev, j), SealedAt(s, plaintext, ad, j), ad, gen);
            o.Success? && o.value.1 == plaintext && IsAfter(o.value.0, s, done + {j}, count)
  {
    EarlyOpens(t, s, Reach(done), j, prev, plaintext, ad, gen);
    EarlyAfter(t, s, done, count, j);
  }

  lemma EarlyAfter(t: Session, s: Session, done: set<nat>, count: nat, j: nat)
    requires Ready(s, count) && IsAfter(t, s, done, count) && Reach(done) <= j < count
    ensures IsAfter(Skipped(t, s, j), s, done + {j}, count)
  {
    assert Reach(done + {j}) == j + 1;
    forall k: Slot
      ensures var m := Skipped(t, s, j).skipped;
              && (k in m <==>
                   || k in s.skipped
                   || (k.dhPublic == s.dhRemote.value && s.recvCount <= k.counter < s.recvCount + j + 1
                       && k.counter - s.recvCount !in done + {j}))
              && (k in m ==> m[k] == if k in s.skipped then s.skipped[k]
                                     else MsgKey(Advance(s.recvChain.value, k.counter - s.recvCount)))
    {
      EarlyStore(t, s, done, count, j, k);
    }
  }

  /** A packet of the batch as it arrives: where it stands, and what was sealed in it. */
  datatype Arrival = Arrival(position: nat, prev: U32, plaintext: seq<Byte>, ad: seq<Byte>)

  datatype Mail = Mail(header: Header, ct: Ciphertext, ad: seq<Byte>)

  function MailAt(s: Session, a: Arrival): Mail
    requires s.dhRemote.Some? && s.recvChain.Some? && s.recvCount + a.position <= U32_MAX
  {
    Mail(HeaderAt(s, a.prev, a.position), SealedAt(s, a.plaintext, a.ad, a.position), a.ad)
  }

  function MailsAt(s: Session, arrivals: seq<Arrival>): (r: seq<Mail>)
    requires s.dhRemote.Some? && s.recvChain.Some?
    requires forall i :: 0 <= i < |arrivals| ==> s.recvCount + arrivals[i].position <= U32_MAX
    ensures |r| == |arrivals| && forall i :: 0 <= i < |r| ==> r[i] == MailAt(s, arrivals[i])
  {
    if arrivals == [] then [] else [MailAt(s, arrivals[0])] + MailsAt(s, arrivals[1..])
  }

  /** Delivering packets one after the other, each with the saved result of the last;
      `None` as soon as one is refused. */
  function DeliverAll(t: Session, mails: seq<Mail>, gen: Name): Option<(Session, seq<seq<Byte>>)>
    decreases |mails|
  {
    if mails == [] then Some((t, []))
    else
      match RatchetDecrypt(t, mails[0].header, mails[0].ct, mails[0].ad, gen)
      case Failure(_) => None
      case Success((t', plaintext)) =>
        match DeliverAll(t', mails[1..], gen + 1)
        case None => None
        case Some((last, rest)) => Some((last, [plaintext] + rest))
  }

  function Plaintexts(arrivals: seq<Arrival>): (r: seq<seq<Byte>>)
    ensures |r| == |arrivals| && forall i :: 0 <= i < |r| ==> r[i] == arrivals[i].plaintext
  {
    if arrivals == [] then [] else [arrivals[0].plaintext] + Plaintexts(arrivals[1..])
  }

  function Positions(arrivals: seq<Arrival>): set<nat> {
    set a | a in arrivals :: a.position
  }

  ghost predicate Apart(arrivals: seq<Arrival>) {
    forall i, j :: 0 <= i < j < |arrivals| ==> arrivals[i].position != arrivals[j].position
  }

  /** Distinct packets, none of them delivered yet. */
  ghost predicate Fresh(arrivals: seq<Arrival>, done: set<nat>, count: nat) {
    && (forall i :: 0 <= i < |arrivals| ==> arrivals[i].position < count && arrivals[i].position !in done)
    && Apart(arrivals)
  }

  lemma FreshTail(arrivals: seq<Arrival>, done: set<nat>, count: nat)
    requires arrivals != [] && Fresh(arrivals, done, count)
    ensures Fresh(arrivals[1..], done + {arrivals[0].position}, count)
    ensures done + {arrivals[0].position} + Positions(arrivals[1..]) == done + Positions(arrivals)
  {
    assert arrivals == [arrivals[0]] + arrivals[1..];
    assert Positions(arrivals) == {arrivals[0].position} + Positions(arrivals[1..]);
  }

  lemma {:induction false} DeliverRest(t: Session, s: Session, done: set<nat>, count: nat,
                                       arrivals: seq<Arrival>, gen: Name)
    requires Ready(s, count) && count <= MAX_SKIP + 1
    requires IsAfter(t, s, done, count) && Fresh(arrivals, done, count)
    ensures var o := DeliverAll(t, MailsAt(s, arrivals), gen);
            o.Some? && IsAfter(o.value.0, s, done + Positions(arrivals), count) && o.value.1 == Plaintexts(arrivals)
    decreases |arrivals|
  {
    if arrivals == [] {
      assert done + Positions(arrivals) == done;
    } else {
      var a := arrivals[0];
      DeliverOne(t, s, done, count, a.position, a.prev, a.plaintext, a.ad, gen);
      var t' := RatchetDecrypt(
        t, HeaderAt(s, a.prev, a.position), SealedAt(s, a.plaintext, a.ad, a.position), a.ad, gen).value.0;
      FreshTail(arrivals, done, count);
      assert MailsAt(s, arrivals)[1..] == MailsAt(s, arrivals[1..]);
      DeliverRest(t', s, done + {a.position}, count, arrivals[1..], gen + 1);
    }
  }

  /** As many distinct positions as there are places fill all of them. */
  lemma {:induction false} AllPlaces(places: set<nat>, n: nat)
    requires |places| == n && forall j :: j in places ==> j < n
    ensures forall j :: 0 <= j < n ==> j in places
  {
    if n > 0 {
      if n - 1 !in places {
        TooMany(places, n - 1);
      } else {
        AllPlaces(places - {n - 1}, n - 1);
      }
    }
  }

  lemma {:induction false} TooMany(places: set<nat>, n: nat)
    requires forall j :: j in places ==> j < n
    ensures |places| <= n
  {
    if n == 0 {
      assert places == {};
    } else {
      TooMany(places - {n - 1}, n - 1);
    }
  }

  lemma {:induction false} CountPositions(arrivals: seq<Arrival>)
    requires Apart(arrivals)
    ensures |Positions(arrivals)| == |arrivals|
  {
    if arrivals != [] {
      CountPositions(arrivals[1..]);
      assert arrivals == [arrivals[0]] + arrivals[1..];
      assert Positions(arrivals) == {arrivals[0].position} + Positions(arrivals[1..]);
    }
  }

  lemma AllArrived(t: Session, s: Session, arrivals: seq<Arrival>)
    requires Ready(s, |arrivals|) && Apart(arrivals)
    requires forall i :: 0 <= i < |arrivals| ==> arrivals[i].position < |arrivals|
    requires IsAfter(t, s, {} + Positions(arrivals), |arrivals|)
    ensures t == InOrder(s, |arrivals|)
  {
    CountPositions(arrivals);
    assert {} + Positions(arrivals) == Positions(arrivals);
    AllPlaces(Positions(arrivals), |arrivals|);
    AllDelivered(t, s, Positions(arrivals), |arrivals|);
  }

  /** The session that in-order delivery of the next `count` packets leaves. */
  function InOrder(s: Session, count: nat): Session
    requires s.recvChain.Some? && s.recvCount + count <= U32_MAX
  {
    s.(recvChain := Some(Advance(s.recvChain.value, count)), recvCount := s.recvCount + count)
  }

  lemma BatchArrives(s: Session, arrivals: seq<Arrival>, gen: Name)
    requires Ready(s, |arrivals|) && |arrivals| <= MAX_SKIP + 1 && Apart(arrivals)
    requires forall i :: 0 <= i < |arrivals| ==> arrivals[i].position < |arrivals|
    ensures var o := DeliverAll(s, MailsAt(s, arrivals), gen);
            && o.Some? && o.value.1 == Plaintexts(arrivals)
            && IsAfter(o.value.0, s, {} + Positions(arrivals), |arrivals|)
  {
    NothingDelivered(s, |arrivals|);
    DeliverRest(s, s, {}, |arrivals|, arrivals, gen);
  }

  /**
   Confluence. The next packets of the chain, arriving in any order: all of them
   decrypt, each to its own plaintext, and the session is the one in-order delivery
   leaves, with nothing of the batch in the skipped store.
   */
  lemma AnyOrder(s: Session, arrivals: seq<Arrival>, gen: Name)
    requires Ready(s, |arrivals|) && |arrivals| <= MAX_SKIP + 1 && Apart(arrivals)
    requires forall i :: 0 <= i < |arrivals| ==> arrivals[i].position < |arrivals|
    ensures DeliverAll(s, MailsAt(s, arrivals), gen) == Some((InOrder(s, |arrivals|), Plaintexts(arrivals)))
  {
    BatchArrives(s, arrivals, gen);
    AllArrived(DeliverAll(s, MailsAt(s, arrivals), gen).value.0, s, arrivals);
  }

  // ── The packets of a run ────────────────────────────────────────────────────

  function MailsOf(packets: seq<Packet>): (r: seq<Mail>)
    ensures |r| == |packets|
    ensures forall i :: 0 <= i < |r| ==> r[i] == Mail(packets[i].header, packets[i].ct, packets[i].ad)
  {
    if packets == [] then []
    else [Mail(packets[0].header, packets[0].ct, packets[0].ad)] + MailsOf(packets[1..])
  }

  function ArrivalOf(s: Session, p: Packet): Arrival
    requires p.header.msgCounter >= s.recvCount
  {
    Arrival(p.header.msgCounter - s.recvCount, p.header.prevCounter, p.plaintext, p.ad)
  }

  function ArrivalsOf(s: Session, packets: seq<Packet>): (r: seq<Arrival>)
    requires forall i :: 0 <= i < |packets| ==> packets[i].header.msgCounter >= s.recvCount
    ensures |r| == |packets| && forall i :: 0 <= i < |r| ==> r[i] == ArrivalOf(s, packets[i])
  {
    if packets == [] then [] else [ArrivalOf(s, packets[0])] + ArrivalsOf(s, packets[1..])
  }

  /** A packet of the chain `s` receives on, in the terms of that session. */
  ghost predicate OnChain(s: Session, p: Packet) {
    && s.recvChain.Some? && s.dhRemote.Some? && p.header.msgCounter >= s.recvCount
    && var j := p.header.msgCounter - s.recvCount;
       p.header == HeaderAt(s, p.header.prevCounter, j) && p.ct == SealedAt(s, p.plaintext, p.ad, j)
  }

  lemma SameMails(s: Session, packets: seq<Packet>)
    requires s.recvChain.Some? && s.dhRemote.Some?
    requires forall i :: 0 <= i < |packets| ==> packets[i].header.msgCounter >= s.recvCount && OnChain(s, packets[i])
    ensures MailsOf(packets) == MailsAt(s, ArrivalsOf(s, packets))
  {
  }

  lemma PeerOnChain(v: View, p: Packet)
    requires ViewOk(v) && PacketOk(v.secret, v.keys, v.counts, p)
    requires v.s.recvChain.Some? && v.s.dhRemote == Some(p.header.dhPublic) && p.header.msgCounter >= v.s.recvCount
    ensures OnChain(v.s, p)
  {
    assert RecvSide(v);
    assert Position(v.keys, p.header.dhPublic) == p.chain && Position(v.keys, Point(v.keys[v.at - 1])) == v.at - 1;
    AdvanceAdd(Chain(v.secret, v.keys, p.chain), v.s.recvCount, p.header.msgCounter - v.s.recvCount);
  }

  /** Packets sealed under the key that `r` receives on, standing next in the chain. */
  ghost predicate NextBatch(w: World, r: Role, ks: seq<nat>) {
    var s := SessionOf(w, r);
    && s.recvChain.Some? && |ks| <= MAX_SKIP + 1
    && (forall a :: 0 <= a < |ks| ==>
          && ks[a] < |w.net| && s.dhRemote == Some(w.net[ks[a]].header.dhPublic)
          && s.recvCount <= w.net[ks[a]].header.msgCounter < s.recvCount + |ks|)
    && forall a, b :: 0 <= a < b < |ks| ==> ks[a] != ks[b]
  }

  function Pick(net: seq<Packet>, ks: seq<nat>): (r: seq<Packet>)
    requires forall a :: 0 <= a < |ks| ==> ks[a] < |net|
    ensures |r| == |ks| && forall a :: 0 <= a < |r| ==> r[a] == net[ks[a]]
  {
    seq(|ks|, a requires 0 <= a < |ks| => net[ks[a]])
  }

  /** Confluence in runs: `ks` are the next packets of the chain, in any order. */
  lemma AnyOrderInRuns(secret: Term, spk: Name, next: Name, ws: seq<World>, actions: seq<Action>,
                       i: nat, r: Role, ks: seq<nat>, gen: Name)
    requires Runs.IsRun(secret, spk, next, ws, actions) && i < |ws| && NextBatch(ws[i], r, ks)
    ensures var s, packets := SessionOf(ws[i], r), Pick(ws[i].net, ks);
            var o := DeliverAll(s, MailsOf(packets), gen);
            && s.recvCount + |ks| <= U32_MAX && o.Some? && o.value.0 == InOrder(s, |ks|)
            && |o.value.1| == |ks| && forall a :: 0 <= a < |ks| ==> o.value.1[a] == packets[a].plaintext
  {
    Runs.RunInv(secret, spk, next, ws, actions, i);
    Runs.ViewsFromInv(ws[i], r);
    BatchInOrder(ws[i], ViewOf(ws[i], r), ks, gen);
  }

  lemma BatchOnChain(w: World, v: View, ks: seq<nat>)
    requires |w.keys| == |w.counts| >= 2 && NetOk(w.secret, w.keys, w.counts, w.net)
    requires ViewOk(v) && v == ViewOf(w, v.me) && NextBatch(w, v.me, ks)
    ensures forall a :: 0 <= a < |ks| ==> OnChain(v.s, w.net[ks[a]])
  {
    forall a | 0 <= a < |ks|
      ensures OnChain(v.s, w.net[ks[a]])
    {
      assert PacketOk(w.secret, w.keys, w.counts, w.net[ks[a]]);
      PeerOnChain(v, w.net[ks[a]]);
    }
  }

  lemma BatchApart(net: seq<Packet>, s: Session, ks: seq<nat>, a: nat, b: nat)
    requires HeadersDiffer(net) && a < b < |ks| && ks[a] != ks[b] && ks[a] < |net| && ks[b] < |net|
    requires s.dhRemote == Some(net[ks[a]].header.dhPublic) && s.dhRemote == Some(net[ks[b]].header.dhPublic)
    ensures net[ks[a]].header.msgCounter != net[ks[b]].header.msgCounter
  {
    HeadersApart(net, ks[a], ks[b]);
  }

  lemma ArrivalsApart(s: Session, packets: seq<Packet>)
    requires forall i :: 0 <= i < |packets| ==> packets[i].header.msgCounter >= s.recvCount
    requires forall a, b :: 0 <= a < b < |packets| ==> packets[a].header.msgCounter != packets[b].header.msgCounter
    ensures Apart(ArrivalsOf(s, packets))
  {
  }

  lemma BatchInOrder(w: World, v: View, ks: seq<nat>, gen: Name)
    requires |w.keys| == |w.counts| >= 2 && NetOk(w.secret, w.keys, w.counts, w.net)
    requires ViewOk(v) && v == ViewOf(w, v.me) && NextBatch(w, v.me, ks)
    ensures v.s.recvCount + |ks| <= SEND_LIMIT
    ensures DeliverAll(v.s, MailsOf(Pick(w.net, ks)), gen)
         == Some((InOrder(v.s, |ks|), Plaintexts(ArrivalsOf(v.s, Pick(w.net, ks)))))
  {
    var arrivals := ArrivalsOf(v.s, Pick(w.net, ks));
    BatchOnChain(w, v, ks);
    forall a, b | 0 <= a < b < |ks|
      ensures w.net[ks[a]].header.msgCounter != w.net[ks[b]].header.msgCounter
    {
      BatchApart(w.net, v.s, ks, a, b);
    }
    ArrivalsApart(v.s, Pick(w.net, ks));
    BatchFits(w, v, ks, arrivals);
    ReadyIn(v, |ks|);
    BatchDelivered(v.s, Pick(w.net, ks), gen);
  }

  lemma BatchDelivered(s: Session, packets: seq<Packet>, gen: Name)
    requires Ready(s, |packets|) && |packets| <= MAX_SKIP + 1
    requires forall a :: 0 <= a < |packets| ==>
               && s.recvCount <= packets[a].header.msgCounter < s.recvCount + |packets|
               && OnChain(s, packets[a])
    requires Apart(ArrivalsOf(s, packets))
    ensures DeliverAll(s, MailsOf(packets), gen) == Some((InOrder(s, |packets|), Plaintexts(ArrivalsOf(s, packets))))
  {
    SameMails(s, packets);
    AnyOrder(s, ArrivalsOf(s, packets), gen);
  }

  lemma HeadersApart(net: seq<Packet>, j: nat, k: nat)
    requires j < |net| && k < |net| && j != k && HeadersDiffer(net)
    ensures SlotOf(net[j].header) != SlotOf(net[k].header)
  {
  }

  /** The packets of a batch were sealed, so their counters fit. */
  lemma BatchFits(w: World, v: View, ks: seq<nat>, arrivals: seq<Arrival>)
    requires |w.keys| == |w.counts| >= 2 && NetOk(w.secret, w.keys, w.counts, w.net)
    requires ViewOk(v) && v == ViewOf(w, v.me) && NextBatch(w, v.me, ks)
    requires |arrivals| == |ks| && Apart(arrivals)
    requires forall a :: 0 <= a < |ks| ==>
               arrivals[a].position == w.net[ks[a]].header.msgCounter - v.s.recvCount
    ensures v.s.recvCount + |ks| <= SEND_LIMIT
  {
    assert RecvSide(v);
    if ks != [] {
      CountPositions(arrivals);
      forall j | j in Positions(arrivals)
        ensures j < |arrivals|
      {
        var a :| a in arrivals && a.position == j;
      }
      AllPlaces(Positions(arrivals), |arrivals|);
      assert |arrivals| - 1 in Positions(arrivals);
      var last :| last in arrivals && last.position == |arrivals| - 1;
      var a :| 0 <= a < |arrivals| && arrivals[a] == last;
      assert PacketOk(w.secret, w.keys, w.counts, w.net[ks[a]]);
    }
  }

  /** The bound is the code's own: with one packet more, delivering the last first is
      refused. */
  lemma OneMoreIsRefused(s: Session, plaintext: seq<Byte>, prev: U32, ad: seq<Byte>, gen: Name)
    requires Ready(s, MAX_SKIP + 2)
    ensures RatchetDecrypt(s, HeaderAt(s, prev, MAX_SKIP + 1), SealedAt(s, plaintext, ad, MAX_SKIP + 1), ad, gen)
         == Failure(SessionResetNeeded)
  {
  }
}
