/**
 What each operation of the Double Ratchet session does, as functions on session
 values (crates/crypto_core/src/ratchet.rs). The skip loop appears here in closed
 form; RatchetObject holds the session object whose methods are proved to do this.
 */
module Ratchet {
  import opened Prelude
  import opened KeyTerms
  import Padding
  import Utf8

  const MAX_SKIP: U32 := 1000

  datatype RatchetError =
    | DecryptFailed
    | NotInitialized
    | SessionResetNeeded
    | BadPadding
    | NotText   // the command's `String::from_utf8`
    | Panicked  // `scalarmult(..).expect(..)` on a low-order point

  datatype KeyPair = KeyPair(public: PublicKey, private: Name)

  datatype Header = Header(dhPublic: PublicKey, prevCounter: U32, msgCounter: U32)

  /** A skipped-key entry's key; SkipKeyText shows its text form is injective. */
  datatype Slot = Slot(dhPublic: PublicKey, counter: U32)

  function SlotOf(h: Header): Slot {
    Slot(h.dhPublic, h.msgCounter)
  }

  datatype Session = Session(
    dhSelf: Option<KeyPair>,
    dhRemote: Option<PublicKey>,
    rootKey: Term,
    sendChain: Option<Term>,
    recvChain: Option<Term>,
    sendCount: U32,
    recvCount: U32,
    prevSendCount: U32,
    skipped: map<Slot, Term>)

  /** The session an operation leaves behind and the error it stopped with, if any.
      An operation that fails has usually changed the session already. */
  datatype Step = Step(session: Session, error: Option<RatchetError>)

  // ── Initialisation ──────────────────────────────────────────────────────────

  function InitAsSender(secret: Term, spk: Name, gen: Name): Session {
    Session(Some(KeyPair(Point(gen), gen)), Some(Point(spk)),
            RootOf(secret, Dh(gen, spk)), Some(ChainOf(secret, Dh(gen, spk))), None,
            0, 0, 0, map[])
  }

  function InitAsReceiver(secret: Term, spkPublic: PublicKey, spkPrivate: Name): Session {
    Session(Some(KeyPair(spkPublic, spkPrivate)), None, secret, None, None, 0, 0, 0, map[])
  }

  // ── Encrypting ──────────────────────────────────────────────────────────────

  function SealWith(mk: Term, plaintext: seq<Byte>, ad: seq<Byte>): Ciphertext {
    var (key, nonce) := DeriveAead(mk);
    Sealed(key, nonce, ad, Padding.Pad(plaintext))
  }

  function Encrypt(s: Session, plaintext: seq<Byte>, ad: seq<Byte>)
    : (Session, Result<(Header, Ciphertext), RatchetError>)
  {
    if s.sendChain.None? || s.dhSelf.None? then (s, Failure(NotInitialized))
    else
      var ck := s.sendChain.value;
      var header := Header(s.dhSelf.value.public, s.prevSendCount, s.sendCount);
      (s.(sendChain := Some(NextChain(ck)), sendCount := Add32(s.sendCount, 1)),
       Success((header, SealWith(MsgKey(ck), plaintext, ad))))
  }

  // ── Decrypting ──────────────────────────────────────────────────────────────

  function OpenWith(mk: Term, ct: Ciphertext, ad: seq<Byte>): Result<seq<Byte>, RatchetError> {
    var (key, nonce) := DeriveAead(mk);
    match Open(ct, ad, nonce, key)
    case None => Failure(DecryptFailed)
    case Some(padded) =>
      match Padding.Unpad(padded)
      case Failure(_) => Failure(BadPadding)
      case Success(plaintext) => Success(plaintext)
  }

  /** `unwrap_or([0u8; 32])`: all-zero bytes are a low-order point. */
  function RemoteOrZero(s: Session): PublicKey {
    if s.dhRemote.Some? then s.dhRemote.value else LowOrder
  }

  /** The keys of positions `[from, until)` of a chain whose key at `from` is `ck`. */
  function SkippedRange(remote: PublicKey, ck: Term, from: U32, until: U32): map<Slot, Term>
    decreases until
  {
    if until <= from then map[]
    else SkippedRange(remote, ck, from, until - 1)[Slot(remote, until - 1) := MsgKey(Advance(ck, until - 1 - from))]
  }

  lemma {:induction false} SkippedRangeHolds(remote: PublicKey, ck: Term, from: U32, until: U32)
    ensures forall k :: k in SkippedRange(remote, ck, from, until)
                   <==> k.dhPublic == remote && from <= k.counter < until
    ensures forall k :: k in SkippedRange(remote, ck, from, until)
                    ==> SkippedRange(remote, ck, from, until)[k] == MsgKey(Advance(ck, k.counter - from))
    decreases until
  {
    if from < until {
      SkippedRangeHolds(remote, ck, from, until - 1);
    }
  }

  function SkipUntil(s: Session, until: U32): Step {
    if Add32(s.recvCount, MAX_SKIP) < until then Step(s, Some(SessionResetNeeded))
    else if s.recvChain.None? || until <= s.recvCount then Step(s, None)
    else
      Step(s.(recvChain := Some(Advance(s.recvChain.value, until - s.recvCount)),
              recvCount := until,
              skipped := s.skipped + SkippedRange(RemoteOrZero(s), s.recvChain.value, s.recvCount, until)),
           None)
  }

  function RatchetDh(s: Session, remote: PublicKey, gen: Name): Step {
    if s.dhSelf.None? then Step(s, Some(NotInitialized))
    else
      var turned := s.(prevSendCount := s.sendCount, sendCount := 0, recvCount := 0, dhRemote := Some(remote));
      if remote.LowOrder? then Step(turned, Some(Panicked))
      else
        var dhIn := Dh(s.dhSelf.value.private, remote.owner);
        var dhOut := Dh(gen, remote.owner);
        var midRoot := RootOf(s.rootKey, dhIn);
        Step(turned.(rootKey := RootOf(midRoot, dhOut),
                     recvChain := Some(ChainOf(s.rootKey, dhIn)),
                     sendChain := Some(ChainOf(midRoot, dhOut)),
                     dhSelf := Some(KeyPair(Point(gen), gen))),
             None)
  }

  /** Steps 2 and 3 of `decrypt`: turn the DH ratchet if the header's key is new,
      then set the receive chain to the message's position. */
  function Align(s: Session, h: Header, gen: Name): Step {
    if s.dhRemote == Some(h.dhPublic) then SkipUntil(s, h.msgCounter)
    else
      var closed := SkipUntil(s, h.prevCounter);
      if closed.error.Some? then closed
      else
        var turned := RatchetDh(closed.session, h.dhPublic, gen);
        if turned.error.Some? then turned else SkipUntil(turned.session, h.msgCounter)
  }

  function Decrypt(s: Session, h: Header, ct: Ciphertext, ad: seq<Byte>, gen: Name)
    : (Session, Result<seq<Byte>, RatchetError>)
  {
    if SlotOf(h) in s.skipped then
      (s.(skipped := s.skipped - {SlotOf(h)}), OpenWith(s.skipped[SlotOf(h)], ct, ad))
    else
      var aligned := Align(s, h, gen);
      if aligned.error.Some? then (aligned.session, Failure(aligned.error.value))
      else if aligned.session.recvChain.None? then (aligned.session, Failure(NotInitialized))
      else
        var t := aligned.session;
        (t.(recvChain := Some(NextChain(t.recvChain.value)), recvCount := Add32(t.recvCount, 1)),
         OpenWith(MsgKey(t.recvChain.value), ct, ad))
  }

  // ── The commands: load a session, run, return a new session only on success ─

  function RatchetEncrypt(s: Session, plaintext: seq<Byte>, ad: seq<Byte>)
    : Result<(Session, Header, Ciphertext), RatchetError>
  {
    match Encrypt(s, plaintext, ad)
    case (s', Success((h, ct))) => Success((s', h, ct))
    case (_, Failure(e)) => Failure(e)
  }

  function RatchetDecrypt(s: Session, h: Header, ct: Ciphertext, ad: seq<Byte>, gen: Name)
    : Result<(Session, seq<Byte>), RatchetError>
  {
    match Decrypt(s, h, ct, ad, gen)
    case (s', Success(plaintext)) => Success((s', plaintext))
    case (_, Failure(e)) => Failure(e)
  }

  /** `ratchet_decrypt` itself, which hands the plaintext back as a string. */
  function RatchetDecryptText(s: Session, h: Header, ct: Ciphertext, ad: seq<Byte>, gen: Name)
    : Result<(Session, seq<Byte>), RatchetError>
  {
    match RatchetDecrypt(s, h, ct, ad, gen)
    case Failure(e) => Failure(e)
    case Success((s', plaintext)) => if Utf8.IsText(plaintext) then Success((s', plaintext)) else Failure(NotText)
  }

  // ── Laws used by every later argument ───────────────────────────────────────

  /** A sealed message opens under exactly its own message key and associated data,
      and gives back its plaintext. */
  lemma OpenSealed(mk: Term, mk': Term, plaintext: seq<Byte>, ad: seq<Byte>, ad': seq<Byte>)
    ensures OpenWith(mk', SealWith(mk, plaintext, ad), ad')
         == if mk == mk' && ad == ad' then Success(plaintext) else Failure(DecryptFailed)
  {
    Padding.UnpadPad(plaintext);
  }
}
