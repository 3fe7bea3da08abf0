/**
 Two sessions joined by a network that may reorder, drop, duplicate and reflect
 packets but never forges one. A step is one desktop command: a session is loaded,
 the operation runs, and the new session is saved only when it succeeded
 (apps/desktop/src-tauri/src/lib.rs, lines 412-445).
 */
module Conversation {
  import opened Prelude
  import opened KeyTerms
  import opened Ratchet

  datatype Role = Alice | Bob

  function Peer(r: Role): Role {
    if r == Alice then Bob else Alice
  }

  /** What was sealed, by whom, and where it stands in the sender's history. */
  datatype Packet = Packet(
    from: Role, header: Header, ct: Ciphertext, ad: seq<Byte>, plaintext: seq<Byte>, chain: nat)

  datatype Delivery = Delivery(to: Role, packet: nat, plaintext: seq<Byte>)

  /**
   `alice`, `bob`, `net`, `log` and `next` are the system: the two saved sessions,
   every packet sealed so far, every successful decryption in order, and the supply
   of fresh private keys. `secret`, `keys`, `counts` and `spent` are history that no
   command reads: the X3DH secret, the ratchet keys in the order they were adopted
   (the receiver's signed pre-key first), how many packets were sealed under each,
   and which positions have been decrypted.
   */
  datatype World = World(
    alice: Session, bob: Session, net: seq<Packet>, log: seq<Delivery>, next: Name,
    secret: Term, keys: seq<Name>, counts: seq<nat>, spent: set<Slot>)

  function SessionOf(w: World, r: Role): Session {
    if r == Alice then w.alice else w.bob
  }

  function Save(w: World, r: Role, s: Session): World {
    if r == Alice then w.(alice := s) else w.(bob := s)
  }

  datatype Action =
    | Send(who: Role, plaintext: seq<Byte>, ad: seq<Byte>)
    | Deliver(to: Role, packet: nat, ad: seq<Byte>)

  /** Alice's sender session and Bob's receiver session over one X3DH secret. */
  function Init(secret: Term, spk: Name, next: Name): World {
    World(InitAsSender(secret, spk, next), InitAsReceiver(secret, Point(spk), spk), [], [], next + 1,
          secret, [spk, next], [0, 0], {})
  }

  /** Odd positions of `keys` are Alice's, even ones Bob's. */
  function OwnerOf(chain: nat): Role {
    if chain == 0 then Bob else Peer(OwnerOf(chain - 1))
  }

  /** The position of the key `r` currently sends under. */
  function At(w: World, r: Role): nat
    requires |w.keys| >= 2
  {
    if OwnerOf(|w.keys| - 1) == r then |w.keys| - 1 else |w.keys| - 2
  }

  /** One more packet may be sealed before a counter, or `recv_count + MAX_SKIP` on
      the other side, would wrap. */
  const SEND_LIMIT: U32 := U32_MAX - MAX_SKIP

  predicate Allowed(w: World, a: Action) {
    match a
    case Send(who, _, _) => SessionOf(w, who).sendCount < SEND_LIMIT
    case Deliver(_, k, _) => k < |w.net|
  }

  function DoSend(w: World, who: Role, plaintext: seq<Byte>, ad: seq<Byte>): World
    requires |w.keys| >= 2 && |w.counts| == |w.keys|
  {
    match RatchetEncrypt(SessionOf(w, who), plaintext, ad)
    case Failure(_) => w
    case Success((s, h, ct)) =>
      var c := At(w, who);
      Save(w, who, s).(net := w.net + [Packet(who, h, ct, ad, plaintext, c)],
                       counts := w.counts[c := w.counts[c] + 1])
  }

  function DoDeliver(w: World, to: Role, k: nat, ad: seq<Byte>): World
    requires k < |w.net|
  {
    var p := w.net[k];
    match RatchetDecrypt(SessionOf(w, to), p.header, p.ct, ad, w.next)
    case Failure(_) => w.(next := w.next + 1)
    case Success((s, plaintext)) =>
      var turned := s.dhSelf != SessionOf(w, to).dhSelf;
      Save(w, to, s).(log := w.log + [Delivery(to, k, plaintext)],
                      next := w.next + 1,
                      keys := if turned then w.keys + [w.next] else w.keys,
                      counts := if turned then w.counts + [0] else w.counts,
                      spent := w.spent + {SlotOf(p.header)})
  }

  function Do(w: World, a: Action): World
    requires |w.keys| >= 2 && |w.counts| == |w.keys| && Allowed(w, a)
  {
    match a
    case Send(who, plaintext, ad) => DoSend(w, who, plaintext, ad)
    case Deliver(to, k, ad) => DoDeliver(w, to, k, ad)
  }

  // ── The shared key schedule ─────────────────────────────────────────────────

  function Root(secret: Term, keys: seq<Name>, i: nat): Term
    requires i < |keys|
  {
    if i == 0 then secret else RootOf(Root(secret, keys, i - 1), Dh(keys[i - 1], keys[i]))
  }

  function Chain(secret: Term, keys: seq<Name>, c: nat): Term
    requires 1 <= c < |keys|
  {
    ChainOf(Root(secret, keys, c - 1), Dh(keys[c - 1], keys[c]))
  }

  function MessageKey(secret: Term, keys: seq<Name>, c: nat, n: nat): Term
    requires 1 <= c < |keys|
  {
    MsgKey(Advance(Chain(secret, keys, c), n))
  }

  lemma {:induction false} RootKept(secret: Term, keys: seq<Name>, more: Name, i: nat)
    requires i < |keys|
    ensures Root(secret, keys + [more], i) == Root(secret, keys, i)
  {
    if i > 0 {
      RootKept(secret, keys, more, i - 1);
    }
  }

  lemma {:induction false} RootDepthIs(secret: Term, keys: seq<Name>, i: nat)
    requires i < |keys|
    ensures RootDepth(Root(secret, keys, i)) == RootDepth(secret) + i
  {
    if i > 0 {
      RootDepthIs(secret, keys, i - 1);
    }
  }

  lemma MessageKeyInjective(secret: Term, keys: seq<Name>, c: nat, m: nat, d: nat, n: nat)
    requires 1 <= c < |keys| && 1 <= d < |keys|
    requires MessageKey(secret, keys, c, m) == MessageKey(secret, keys, d, n)
    ensures c == d && m == n
  {
    AdvanceInjective(Root(secret, keys, c - 1), Dh(keys[c - 1], keys[c]), m,
                     Root(secret, keys, d - 1), Dh(keys[d - 1], keys[d]), n);
    RootDepthIs(secret, keys, c - 1);
    RootDepthIs(secret, keys, d - 1);
  }

  /** Where a ratchet key stands among the adopted ones; `|keys|` when it is not one. */
  ghost function Position(keys: seq<Name>, pub: PublicKey): (i: nat)
    ensures i <= |keys|
    ensures i < |keys| ==> pub == Point(keys[i])
  {
    if pub.Point? && pub.owner in keys then var i :| 0 <= i < |keys| && keys[i] == pub.owner; i else |keys|
  }

  /** No key was adopted twice: every position is the position of its key. */
  ghost predicate Distinct(keys: seq<Name>) {
    forall i :: 0 <= i < |keys| ==> Position(keys, Point(keys[i])) == i
  }

  lemma DistinctGrows(keys: seq<Name>, gen: Name)
    requires Distinct(keys) && gen !in keys
    ensures Distinct(keys + [gen])
    ensures forall pub :: pub != Point(gen) ==>
              Position(keys + [gen], pub) == if Position(keys, pub) < |keys| then Position(keys, pub) else |keys| + 1
  {
    var more := keys + [gen];
    forall pub: PublicKey
      ensures Position(more, pub) == if pub == Point(gen) then |keys|
                                     else if Position(keys, pub) < |keys| then Position(keys, pub) else |keys| + 1
    {
      var i := Position(more, pub);
      assert i < |keys| ==> more[i] == keys[i];
      assert forall j :: 0 <= j < |keys| ==> more[j] == keys[j];
    }
  }

  // ── The invariant ───────────────────────────────────────────────────────────

  /** One party's side of a world: its session, its role and the shared history. */
  datatype View = View(
    me: Role, s: Session, at: nat, secret: Term, keys: seq<Name>, counts: seq<nat>, spent: set<Slot>)

  function ViewOf(w: World, r: Role): View
    requires |w.keys| >= 2
  {
    View(r, SessionOf(w, r), At(w, r), w.secret, w.keys, w.counts, w.spent)
  }

  /** How many packets were sealed under the sender's key before this one. */
  function PrevCount(counts: seq<nat>, c: nat): nat
    requires c < |counts|
  {
    if c >= 2 then counts[c - 2] else 0
  }

  ghost predicate Shape(keys: seq<Name>, counts: seq<nat>) {
    && |keys| == |counts| >= 2
    && Distinct(keys)
    && (forall i :: 0 <= i < |counts| ==> counts[i] <= SEND_LIMIT)
    && counts[0] == 0
  }

  /** A party sends under one of the last two keys. */
  ghost predicate ViewShape(v: View) {
    Shape(v.keys, v.counts) && v.at < |v.keys| <= v.at + 2 && OwnerOf(v.at) == v.me
  }

  /** The session sends under key `at` of the schedule, on that key's chain, at
      exactly the number of packets sealed there. */
  ghost predicate SendSide(v: View)
    requires ViewShape(v)
  {
    && v.s.dhSelf == Some(KeyPair(Point(v.keys[v.at]), v.keys[v.at]))
    && v.s.rootKey == Root(v.secret, v.keys, v.at)
    && v.s.sendCount == v.counts[v.at]
    && v.s.prevSendCount == PrevCount(v.counts, v.at)
    && v.s.sendChain == if v.at == 0 then None else Some(Advance(Chain(v.secret, v.keys, v.at), v.counts[v.at]))
  }

  /** It receives on the chain just below, advanced by its own receive counter. */
  ghost predicate RecvSide(v: View)
    requires ViewShape(v)
  {
    && v.s.dhRemote == (if v.at == 0 then None else Some(Point(v.keys[v.at - 1])))
    && (if v.at <= 1 then v.s.recvChain == None && v.s.recvCount == 0
        else v.s.recvChain == Some(Advance(Chain(v.secret, v.keys, v.at - 1), v.s.recvCount))
             && v.s.recvCount <= v.counts[v.at - 1])
  }

  /** Everything but the skipped store is a function of the shared key schedule and
      of the session's own counters. */
  ghost predicate Lockstep(v: View)
    requires ViewShape(v)
  {
    SendSide(v) && RecvSide(v)
  }

  /** The chains received on: the peer's, up to the one ratcheted to. */
  predicate Received(v: View, c: nat) {
    1 <= c < v.at && OwnerOf(c) != v.me
  }

  /** The first position of a received chain that has not been passed yet. */
  function Frontier(v: View, c: nat): nat
    requires c < |v.counts|
  {
    if c + 1 == v.at then v.s.recvCount else v.counts[c]
  }

  /** A position passed without decrypting it. */
  ghost predicate Pending(v: View, k: Slot)
    requires ViewShape(v)
  {
    var c := Position(v.keys, k.dhPublic);
    Received(v, c) && k.counter < Frontier(v, c) && k !in v.spent
  }

  /** The message key the schedule assigns to a position. */
  ghost function KeyOf(v: View, k: Slot): Term
    requires 1 <= Position(v.keys, k.dhPublic) < |v.keys|
  {
    MessageKey(v.secret, v.keys, Position(v.keys, k.dhPublic), k.counter)
  }

  /** The skipped store holds the right key of every pending position, and nothing else. */
  ghost predicate StoreExact(v: View)
    requires ViewShape(v)
  {
    && (forall k: Slot :: k in v.s.skipped <==> Pending(v, k))
    && (forall k: Slot :: k in v.s.skipped ==> v.s.skipped[k] == KeyOf(v, k))
  }

  /** Decrypted positions lie on chains received on, below the frontier. */
  ghost predicate SpentBelow(v: View)
    requires ViewShape(v)
  {
    forall k :: k in v.spent ==>
      var c := Position(v.keys, k.dhPublic);
      1 <= c < |v.keys| && (OwnerOf(c) != v.me ==> Received(v, c) && k.counter < Frontier(v, c))
  }

  ghost predicate ViewOk(v: View) {
    ViewShape(v) && Lockstep(v) && StoreExact(v) && SpentBelow(v)
  }

  ghost predicate PacketOk(secret: Term, keys: seq<Name>, counts: seq<nat>, p: Packet)
    requires |counts| == |keys|
  {
    var c, n := p.chain, p.header.msgCounter;
    && 1 <= c < |keys|
    && p.from == OwnerOf(c)
    && n < counts[c]
    && p.header.dhPublic == Point(keys[c]) && p.header.prevCounter == PrevCount(counts, c)
    && p.ct == SealWith(MessageKey(secret, keys, c, n), p.plaintext, p.ad)
  }

  ghost predicate NetOk(secret: Term, keys: seq<Name>, counts: seq<nat>, net: seq<Packet>)
    requires |counts| == |keys|
  {
    && (forall k :: 0 <= k < |net| ==> PacketOk(secret, keys, counts, net[k]))
    && HeadersDiffer(net)
  }

  /** No two packets carry the same ratchet key and counter. */
  ghost predicate HeadersDiffer(net: seq<Packet>) {
    forall j, k :: 0 <= j < k < |net| ==> SlotOf(net[j].header) != SlotOf(net[k].header)
  }

  predicate Delivered(log: seq<Delivery>, k: nat) {
    exists i :: 0 <= i < |log| && log[i].packet == k
  }

  /** The log records each decrypted packet once, with its own plaintext, at its addressee. */
  ghost predicate LogOk(net: seq<Packet>, log: seq<Delivery>, spent: set<Slot>) {
    && (forall i :: 0 <= i < |log| ==>
          && log[i].packet < |net| && log[i].to != net[log[i].packet].from
          && log[i].plaintext == net[log[i].packet].plaintext)
    && (forall i, j :: 0 <= i < j < |log| ==> log[i].packet != log[j].packet)
    && (forall k :: 0 <= k < |net| ==> (Delivered(log, k) <==> SlotOf(net[k].header) in spent))
  }

  ghost predicate KeysUsed(keys: seq<Name>, next: Name) {
    forall i :: 0 <= i < |keys| ==> keys[i] < next
  }

  ghost predicate Inv(w: World) {
    && Shape(w.keys, w.counts)
    && KeysUsed(w.keys, w.next)
    && ViewOk(ViewOf(w, Alice)) && ViewOk(ViewOf(w, Bob))
    && NetOk(w.secret, w.keys, w.counts, w.net)
    && LogOk(w.net, w.log, w.spent)
  }

  lemma InitInv(secret: Term, spk: Name, next: Name)
    requires spk < next
    ensures Inv(Init(secret, spk, next))
  {
    var w := Init(secret, spk, next);
    assert w.keys[0] == spk && w.keys[1] == next;
    var alice, bob := ViewOf(w, Alice), ViewOf(w, Bob);
    assert alice.at == 1 && bob.at == 0;
    assert Root(secret, w.keys, 0) == secret;
    assert Chain(secret, w.keys, 1) == ChainOf(secret, Dh(next, spk));
    assert alice.s.prevSendCount == 0 == PrevCount(w.counts, 1);
    assert bob.s.prevSendCount == 0 == PrevCount(w.counts, 0);
    assert Lockstep(alice) && Lockstep(bob);
  }
}
