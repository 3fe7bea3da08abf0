/**
 The inbound queue joined to the runs of two sessions: a drained lane gives each packet
 of a run what the run's own deliveries give it, and saves the session they leave.
 */
module QueueFollowsRun {
  import opened Prelude
  import opened KeyTerms
  import opened Ratchet
  import opened Conversation
  import opened Opening
  import opened Runs
  import opened Guarantees
  import opened InboundQueue
  import Utf8

  /** The session a packet is tried with, in terms of what happened to it: the handshake's
      exactly when nothing is saved or the read failed. */
  lemma SessionUsed(saved: Option<Session>, p: Inbound)
    ensures SessionFor(saved, p) == if saved.None? || !p.loads then p.handshake else saved
  {
  }

  /** `ks` are the packets that the actions from `i` on deliver to `r`. */
  ghost predicate Delivers(actions: seq<Action>, i: nat, r: Role, ks: seq<nat>, conv: Conv) {
    && i + |ks| <= |actions|
    && forall j :: 0 <= j < |ks| ==> actions[i + j] == Deliver(r, ks[j], conv)
  }

  /** The queue's packet is the network's, it carries a string, and the vault answers. */
  ghost predicate Carries(w: World, k: nat, p: Inbound) {
    && k < |w.net|
    && p.header == Some(w.net[k].header) && p.ct == w.net[k].ct && p.gen == w.next
    && p.loads && p.saves && Utf8.IsText(w.net[k].plaintext)
  }

  ghost predicate AllCarry(ws: seq<World>, i: nat, ks: seq<nat>, packets: seq<Inbound>) {
    && |packets| == |ks| && i + |ks| < |ws|
    && forall j :: 0 <= j < |ks| ==> Carries(ws[i + j], ks[j], packets[j])
  }

  /** What a packet is due at a point of a run: its plaintext if it is the peer's, sealed
      with this conversation's associated data, new, and within the skip gaps. */
  ghost function Due(w: World, r: Role, k: nat, conv: Conv): Option<seq<Byte>>
    requires k < |w.net|
  {
    var p := w.net[k];
    if p.from != r && conv == p.ad && !Delivered(w.log, k) && Acceptable(SessionOf(w, r), p.header)
    then Some(p.plaintext) else None
  }

  /** One packet, tried with the session the run has at that point. */
  lemma HandleIsDelivery(secret: Term, spk: Name, next: Name, ws: seq<World>, actions: seq<Action>,
                         i: nat, r: Role, k: nat, conv: Conv, saved: Option<Session>, p: Inbound)
    requires IsRun(secret, spk, next, ws, actions) && i < |actions| && actions[i] == Deliver(r, k, conv)
    requires Carries(ws[i], k, p)
    requires saved == Some(SessionOf(ws[i], r)) || (saved == None && p.handshake == Some(SessionOf(ws[i], r)))
    ensures Fits(ws[i], ws[i + 1], r, k, conv, saved, p)
  {
    DeliveredExactly(secret, spk, next, ws, actions, i, r, k, conv);
    TextGoesThrough(secret, spk, next, ws, actions, i, r, k, conv);
    SessionUsed(saved, p);
    DeliveryStep(ws[i], r, k, conv);
    RunInv(secret, spk, next, ws, actions, i);
    assert ws[i + 1] == Do(ws[i], actions[i]);
  }

  lemma DeliveryStep(w: World, r: Role, k: nat, conv: Conv)
    requires k < |w.net|
    ensures var o := RatchetDecrypt(SessionOf(w, r), w.net[k].header, w.net[k].ct, conv, w.next);
            var w' := DoDeliver(w, r, k, conv);
            && SessionOf(w', r) == (if o.Success? then o.value.0 else SessionOf(w, r))
            && (o.Success? ==> Delivered(w'.log, k))
  {
    var w' := DoDeliver(w, r, k, conv);
    if RatchetDecrypt(SessionOf(w, r), w.net[k].header, w.net[k].ct, conv, w.next).Success? {
      assert w'.log[|w.log|].packet == k;
    }
  }

  ghost predicate AllDue(ws: seq<World>, i: nat, r: Role, ks: seq<nat>, conv: Conv, results: seq<Option<seq<Byte>>>) {
    && |results| == |ks| && i + |ks| <= |ws|
    && forall j :: 0 <= j < |ks| ==> ks[j] < |ws[i + j].net| && results[j] == Due(ws[i + j], r, ks[j], conv)
  }

  /** What handling one packet has to do with the world before and after its delivery. */
  ghost predicate Fits(w: World, w': World, r: Role, k: nat, conv: Conv, saved: Option<Session>, p: Inbound) {
    && k < |w.net|
    && Handle(conv, saved, p).1 == Due(w, r, k, conv)
    && Handle(conv, saved, p).0 == (if Due(w, r, k, conv).Some? then Some(SessionOf(w', r)) else saved)
    && (Due(w, r, k, conv).None? ==> SessionOf(w', r) == SessionOf(w, r))
  }

  /** Handling packets one after the other, given what each step does. */
  lemma {:induction false} FoldIs(conv: Conv, saved: seq<Option<Session>>, packets: seq<Inbound>,
                                  results: seq<Option<seq<Byte>>>)
    requires Steps(conv, saved, packets, results)
    ensures Fold(conv, saved[0], packets) == (saved[|packets|], results)
  {
    if packets != [] {
      var n := |packets| - 1;
      FoldIs(conv, saved[..n + 1], packets[..n], results[..n]);
      assert results == results[..n] + [results[n]];
    }
  }

  /** What is due at each point. */
  ghost function Dues(ws: seq<World>, i: nat, r: Role, ks: seq<nat>, conv: Conv): (results: seq<Option<seq<Byte>>>)
    requires i + |ks| <= |ws| && forall j :: 0 <= j < |ks| ==> ks[j] < |ws[i + j].net|
    ensures AllDue(ws, i, r, ks, conv, results)
  {
    seq(|ks|, j requires 0 <= j < |ks| => Due(ws[i + j], r, ks[j], conv))
  }

  ghost predicate Steps(conv: Conv, saved: seq<Option<Session>>, packets: seq<Inbound>, results: seq<Option<seq<Byte>>>) {
    && |saved| == |packets| + 1 && |results| == |packets|
    && forall j :: 0 <= j < |packets| ==> Handle(conv, saved[j], packets[j]) == (saved[j + 1], results[j])
  }

  /** The run's sessions, one more than there are packets. */
  ghost function Sessions(ws: seq<World>, i: nat, r: Role, n: nat): (saved: seq<Option<Session>>)
    requires i + n < |ws|
    ensures |saved| == n + 1 && forall j :: 0 <= j <= n ==> saved[j] == Some(SessionOf(ws[i + j], r))
  {
    seq(n + 1, j requires 0 <= j <= n => Some(SessionOf(ws[i + j], r)))
  }

  lemma EstablishedStep(secret: Term, spk: Name, next: Name, ws: seq<World>, actions: seq<Action>, i: nat, r: Role,
                        ks: seq<nat>, conv: Conv, packets: seq<Inbound>, j: nat)
    requires IsRun(secret, spk, next, ws, actions) && Delivers(actions, i, r, ks, conv)
    requires AllCarry(ws, i, ks, packets) && j < |ks|
    ensures ks[j] < |ws[i + j].net|
    ensures Handle(conv, Some(SessionOf(ws[i + j], r)), packets[j])
         == (Some(SessionOf(ws[i + j + 1], r)), Due(ws[i + j], r, ks[j], conv))
  {
    assert Carries(ws[i + j], ks[j], packets[j]);
    HandleIsDelivery(secret, spk, next, ws, actions, i + j, r, ks[j], conv, Some(SessionOf(ws[i + j], r)), packets[j]);
  }

  lemma EstablishedSteps(secret: Term, spk: Name, next: Name, ws: seq<World>, actions: seq<Action>,
                         i: nat, r: Role, ks: seq<nat>, conv: Conv, packets: seq<Inbound>)
    requires IsRun(secret, spk, next, ws, actions) && Delivers(actions, i, r, ks, conv)
    requires AllCarry(ws, i, ks, packets)
    ensures forall j :: 0 <= j < |ks| ==> ks[j] < |ws[i + j].net|
    ensures Steps(conv, Sessions(ws, i, r, |ks|), packets, Dues(ws, i, r, ks, conv))
  {
    forall j | 0 <= j < |ks|
      ensures ks[j] < |ws[i + j].net|
      ensures Handle(conv, Some(SessionOf(ws[i + j], r)), packets[j])
           == (Some(SessionOf(ws[i + j + 1], r)), Due(ws[i + j], r, ks[j], conv))
    {
      EstablishedStep(secret, spk, next, ws, actions, i, r, ks, conv, packets, j);
    }
  }

  /** An established conversation: the queue saves what the run's deliveries leave. */
  lemma FoldFollowsRun(secret: Term, spk: Name, next: Name, ws: seq<World>, actions: seq<Action>,
                       i: nat, r: Role, ks: seq<nat>, conv: Conv, packets: seq<Inbound>)
    requires IsRun(secret, spk, next, ws, actions) && Delivers(actions, i, r, ks, conv)
    requires AllCarry(ws, i, ks, packets)
    ensures Fold(conv, Some(SessionOf(ws[i], r)), packets).0 == Some(SessionOf(ws[i + |ks|], r))
    ensures AllDue(ws, i, r, ks, conv, Fold(conv, Some(SessionOf(ws[i], r)), packets).1)
  {
    EstablishedSteps(secret, spk, next, ws, actions, i, r, ks, conv, packets);
    FoldIs(conv, Sessions(ws, i, r, |ks|), packets, Dues(ws, i, r, ks, conv));
  }

  /**
   Whatever the interleaving with other conversations, once the lane of an established
   conversation has drained, each of its packets has given its plaintext exactly when it
   was due at its point of the run, and the saved session is the run's.
   */
  lemma QueueDelivers(secret: Term, spk: Name, next: Name, ws: seq<World>, actions: seq<Action>,
                      i: nat, r: Role, ks: seq<nat>, vault: map<Conv, Session>, events: seq<Event>, conv: Conv)
    requires IsRun(secret, spk, next, ws, actions) && Delivers(actions, i, r, ks, conv)
    requires AllCarry(ws, i, ks, Arrivals(conv, events))
    requires conv in vault && vault[conv] == SessionOf(ws[i], r)
    requires LaneOf(Run(Client(vault, map[]), events), conv).queue == []
    ensures var c := Run(Client(vault, map[]), events);
            && Saved(c, conv) == Some(SessionOf(ws[i + |ks|], r))
            && AllDue(ws, i, r, ks, conv, LaneOf(c, conv).results)
  {
    Drained(vault, events, conv);
    FoldFollowsRun(secret, spk, next, ws, actions, i, r, ks, conv, Arrivals(conv, events));
  }

  lemma DueIsLogged(secret: Term, spk: Name, next: Name, ws: seq<World>, actions: seq<Action>,
                    i: nat, r: Role, k: nat, conv: Conv)
    requires IsRun(secret, spk, next, ws, actions) && i < |actions| && actions[i] == Deliver(r, k, conv)
    requires k < |ws[i].net| && Due(ws[i], r, k, conv).Some?
    ensures Delivered(ws[i + 1].log, k)
  {
    DeliveredExactly(secret, spk, next, ws, actions, i, r, k, conv);
    DeliveryStep(ws[i], r, k, conv);
    RunInv(secret, spk, next, ws, actions, i);
    assert ws[i + 1] == Do(ws[i], actions[i]);
  }

  lemma StaysLogged(log: seq<Delivery>, later: seq<Delivery>, k: nat)
    requires log <= later && Delivered(log, k)
    ensures Delivered(later, k)
  {
    var l :| 0 <= l < |log| && log[l].packet == k;
    assert later[l].packet == k;
  }

  /** Every repetition of a packet that gave its plaintext gives nothing. */
  lemma RepetitionsGiveNothing(secret: Term, spk: Name, next: Name, ws: seq<World>, actions: seq<Action>,
                               i: nat, r: Role, ks: seq<nat>, conv: Conv, results: seq<Option<seq<Byte>>>,
                               a: nat, b: nat)
    requires IsRun(secret, spk, next, ws, actions) && Delivers(actions, i, r, ks, conv)
    requires AllDue(ws, i, r, ks, conv, results) && a < b < |ks| && ks[a] == ks[b] && results[a].Some?
    ensures results[b] == None
  {
    DueIsLogged(secret, spk, next, ws, actions, i + a, r, ks[a], conv);
    RunGrows(secret, spk, next, ws, actions, i + a + 1, i + b);
    StaysLogged(ws[i + a + 1].log, ws[i + b].log, ks[a]);
  }

  // ── First contact ───────────────────────────────────────────────────────────

  ghost predicate SomeDue(results: seq<Option<seq<Byte>>>) {
    exists j :: 0 <= j < |results| && results[j].Some?
  }

  lemma SomeSnoc(results: seq<Option<seq<Byte>>>, o: Option<seq<Byte>>)
    ensures SomeDue(results + [o]) <==> SomeDue(results) || o.Some?
  {
    var more := results + [o];
    assert more[|results|] == o && forall j :: 0 <= j < |results| ==> more[j] == results[j];
  }

  /** Until something is due the run's session stays the one it started from. */
  lemma {:induction false} NothingDueYet(ws: seq<World>, i: nat, r: Role, results: seq<Option<seq<Byte>>>, n: nat)
    requires n <= |results| && i + |results| < |ws| && !SomeDue(results[..n])
    requires forall j :: 0 <= j < |results| && results[j].None? ==> SessionOf(ws[i + j + 1], r) == SessionOf(ws[i + j], r)
    ensures SessionOf(ws[i + n], r) == SessionOf(ws[i], r)
  {
    if n > 0 {
      assert results[..n] == results[..n - 1] + [results[n - 1]];
      SomeSnoc(results[..n - 1], results[n - 1]);
      NothingDueYet(ws, i, r, results, n - 1);
    }
  }

  ghost function SavedAt(ws: seq<World>, i: nat, r: Role, results: seq<Option<seq<Byte>>>, j: nat): Option<Session>
    requires j <= |results| && i + |results| < |ws|
  {
    if SomeDue(results[..j]) then Some(SessionOf(ws[i + j], r)) else None
  }

  /** Nothing saved yet, and every packet brings the handshake of the session the run
      starts from: the first packet that is due saves it, and all are given their due. */
  lemma FirstContact(secret: Term, spk: Name, next: Name, ws: seq<World>, actions: seq<Action>,
                     i: nat, r: Role, ks: seq<nat>, conv: Conv, packets: seq<Inbound>)
    requires IsRun(secret, spk, next, ws, actions) && Delivers(actions, i, r, ks, conv)
    requires AllCarry(ws, i, ks, packets)
    requires forall j :: 0 <= j < |packets| ==> packets[j].handshake == Some(SessionOf(ws[i], r))
    ensures var (saved, results) := Fold(conv, None, packets);
            && AllDue(ws, i, r, ks, conv, results)
            && saved == (if SomeDue(results) then Some(SessionOf(ws[i + |ks|], r)) else None)
  {
    EstablishedSteps(secret, spk, next, ws, actions, i, r, ks, conv, packets);
    var results := Dues(ws, i, r, ks, conv);
    FirstSteps(secret, spk, next, ws, actions, i, r, ks, conv, packets, results);
    FoldIs(conv, SavedBy(ws, i, r, results), packets, results);
    assert results[..|ks|] == results;
  }

  ghost function SavedBy(ws: seq<World>, i: nat, r: Role, results: seq<Option<seq<Byte>>>): (saved: seq<Option<Session>>)
    requires i + |results| < |ws|
    ensures |saved| == |results| + 1 && forall j :: 0 <= j <= |results| ==> saved[j] == SavedAt(ws, i, r, results, j)
  {
    seq(|results| + 1, j requires 0 <= j <= |results| => SavedAt(ws, i, r, results, j))
  }

  lemma FirstSteps(secret: Term, spk: Name, next: Name, ws: seq<World>, actions: seq<Action>, i: nat, r: Role,
                   ks: seq<nat>, conv: Conv, packets: seq<Inbound>, results: seq<Option<seq<Byte>>>)
    requires IsRun(secret, spk, next, ws, actions) && Delivers(actions, i, r, ks, conv)
    requires AllCarry(ws, i, ks, packets) && AllDue(ws, i, r, ks, conv, results)
    requires forall j :: 0 <= j < |packets| ==> packets[j].handshake == Some(SessionOf(ws[i], r))
    ensures Steps(conv, SavedBy(ws, i, r, results), packets, results)
  {
    forall j | 0 <= j < |ks| && results[j].None?
      ensures SessionOf(ws[i + j + 1], r) == SessionOf(ws[i + j], r)
    {
      StillSame(secret, spk, next, ws, actions, i, r, ks, conv, packets, j);
    }
    forall j | 0 <= j < |ks|
      ensures Handle(conv, SavedAt(ws, i, r, results, j), packets[j])
           == (SavedAt(ws, i, r, results, j + 1), results[j])
    {
      FirstStep(secret, spk, next, ws, actions, i, r, ks, conv, packets, results, j);
    }
  }

  lemma StillSame(secret: Term, spk: Name, next: Name, ws: seq<World>, actions: seq<Action>, i: nat, r: Role,
                  ks: seq<nat>, conv: Conv, packets: seq<Inbound>, j: nat)
    requires IsRun(secret, spk, next, ws, actions) && Delivers(actions, i, r, ks, conv)
    requires AllCarry(ws, i, ks, packets) && j < |ks|
    ensures ks[j] < |ws[i + j].net|
    ensures Due(ws[i + j], r, ks[j], conv).None? ==> SessionOf(ws[i + j + 1], r) == SessionOf(ws[i + j], r)
  {
    assert Carries(ws[i + j], ks[j], packets[j]);
    HandleIsDelivery(secret, spk, next, ws, actions, i + j, r, ks[j], conv, Some(SessionOf(ws[i + j], r)), packets[j]);
  }

  lemma FirstStep(secret: Term, spk: Name, next: Name, ws: seq<World>, actions: seq<Action>, i: nat, r: Role,
                  ks: seq<nat>, conv: Conv, packets: seq<Inbound>, results: seq<Option<seq<Byte>>>, j: nat)
    requires IsRun(secret, spk, next, ws, actions) && Delivers(actions, i, r, ks, conv)
    requires AllCarry(ws, i, ks, packets) && AllDue(ws, i, r, ks, conv, results) && j < |ks|
    requires packets[j].handshake == Some(SessionOf(ws[i], r))
    requires forall l :: 0 <= l < |results| && results[l].None? ==> SessionOf(ws[i + l + 1], r) == SessionOf(ws[i + l], r)
    ensures Handle(conv, SavedAt(ws, i, r, results, j), packets[j])
         == (SavedAt(ws, i, r, results, j + 1), results[j])
  {
    assert results[..j + 1] == results[..j] + [results[j]];
    SomeSnoc(results[..j], results[j]);
    if !SomeDue(results[..j]) {
      NothingDueYet(ws, i, r, results, j);
    }
    HandleIsDelivery(secret, spk, next, ws, actions, i + j, r, ks[j], conv, SavedAt(ws, i, r, results, j), packets[j]);
  }

  /** A packet that finds no session, or whose result the vault does not keep, changes nothing. */
  lemma NothingKept(conv: Conv, saved: Option<Session>, p: Inbound)
    requires !p.saves || (p.handshake.None? && (saved.None? || !p.loads)) || p.header.None?
    ensures Handle(conv, saved, p) == (saved, None)
  {
  }
}
