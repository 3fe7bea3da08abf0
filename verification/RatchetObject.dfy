/**
 The session object itself, with the fields and the step-by-step updates of
 crates/crypto_core/src/ratchet.rs, and the desktop commands that load a session,
 run one operation on it and hand back a new session only when it succeeded.
 */
module RatchetObject {
  import opened Prelude
  import opened KeyTerms
  import opened Ratchet

  class RatchetSession {
    var dhSelf: Option<KeyPair>
    var dhRemote: Option<PublicKey>
    var rootKey: Term
    var sendChain: Option<Term>
    var recvChain: Option<Term>
    var sendCount: U32
    var recvCount: U32
    var prevSendCount: U32
    var skipped: map<Slot, Term>

    /** The session as a value; also what `to_json` writes. */
    function State(): Session
      reads this
    {
      Session(dhSelf, dhRemote, rootKey, sendChain, recvChain, sendCount, recvCount, prevSendCount, skipped)
    }

    /** `from_json` of what `to_json` wrote. */
    constructor FromState(s: Session)
      ensures State() == s
    {
      dhSelf, dhRemote, rootKey := s.dhSelf, s.dhRemote, s.rootKey;
      sendChain, recvChain := s.sendChain, s.recvChain;
      sendCount, recvCount, prevSendCount := s.sendCount, s.recvCount, s.prevSendCount;
      skipped := s.skipped;
    }

    method SkipUntil(until: U32) returns (error: Option<RatchetError>)
      modifies this
      ensures Step(State(), error) == Ratchet.SkipUntil(old(State()), until)
    {
      if Add32(recvCount, MAX_SKIP) < until {
        return Some(SessionResetNeeded);
      }
      if recvChain.Some? {
        var ck := recvChain.value;
        ghost var remote, ck0, start := RemoteOrZero(State()), ck, recvCount;
        while recvCount < until
          invariant start <= recvCount <= if start < until then until else start
          invariant ck == Advance(ck0, recvCount - start)
          invariant skipped == old(skipped) + SkippedRange(remote, ck0, start, recvCount)
          invariant unchanged(`dhSelf) && unchanged(`dhRemote) && unchanged(`rootKey) && unchanged(`sendChain)
          invariant unchanged(`recvChain) && unchanged(`sendCount) && unchanged(`prevSendCount)
        {
          var mk := MsgKey(ck);
          ck := NextChain(ck);
          var slot := Slot(if dhRemote.Some? then dhRemote.value else LowOrder, recvCount);
          MergeThenUpdate(old(skipped), SkippedRange(remote, ck0, start, recvCount), slot, mk);
          skipped := skipped[slot := mk];
          recvCount := Add32(recvCount, 1);
        }
        recvChain := Some(ck);
        assert old(skipped) + SkippedRange(remote, ck0, start, start) == old(skipped);
      }
      error := None;
    }

    method RatchetDh(remote: PublicKey, gen: Name) returns (error: Option<RatchetError>)
      modifies this
      ensures Step(State(), error) == Ratchet.RatchetDh(old(State()), remote, gen)
    {
      if dhSelf.None? {
        return Some(NotInitialized);
      }
      var ours := dhSelf.value;
      prevSendCount := sendCount;
      sendCount := 0;
      recvCount := 0;
      dhRemote := Some(remote);
      if remote.LowOrder? {
        return Some(Panicked);
      }
      var dhIn := Dh(ours.private, remote.owner);
      recvChain := Some(ChainOf(rootKey, dhIn));
      rootKey := RootOf(rootKey, dhIn);
      var dhOut := Dh(gen, remote.owner);
      sendChain := Some(ChainOf(rootKey, dhOut));
      rootKey := RootOf(rootKey, dhOut);
      dhSelf := Some(KeyPair(Point(gen), gen));
      error := None;
    }

    method Encrypt(plaintext: seq<Byte>, ad: seq<Byte>)
      returns (r: Result<(Header, Ciphertext), RatchetError>)
      modifies this
      ensures (State(), r) == Ratchet.Encrypt(old(State()), plaintext, ad)
    {
      if sendChain.None? || dhSelf.None? {
        return Failure(NotInitialized);
      }
      var ck := sendChain.value;
      sendChain := Some(NextChain(ck));
      var header := Header(dhSelf.value.public, prevSendCount, sendCount);
      sendCount := Add32(sendCount, 1);
      r := Success((header, SealWith(MsgKey(ck), plaintext, ad)));
    }

    method Decrypt(h: Header, ct: Ciphertext, ad: seq<Byte>, gen: Name)
      returns (r: Result<seq<Byte>, RatchetError>)
      modifies this
      ensures (State(), r) == Ratchet.Decrypt(old(State()), h, ct, ad, gen)
    {
      var slot := SlotOf(h);
      if slot in skipped {
        var mk := skipped[slot];
        skipped := skipped - {slot};
        return OpenWith(mk, ct, ad);
      }
      if dhRemote != Some(h.dhPublic) {
        var closing := SkipUntil(h.prevCounter);
        if closing.Some? {
          return Failure(closing.value);
        }
        var turning := RatchetDh(h.dhPublic, gen);
        if turning.Some? {
          return Failure(turning.value);
        }
      }
      var skipping := SkipUntil(h.msgCounter);
      if skipping.Some? {
        return Failure(skipping.value);
      }
      if recvChain.None? {
        return Failure(NotInitialized);
      }
      var ck := recvChain.value;
      recvChain := Some(NextChain(ck));
      recvCount := Add32(recvCount, 1);
      r := OpenWith(MsgKey(ck), ct, ad);
    }
  }

  method RatchetEncryptCommand(s: Session, plaintext: seq<Byte>, ad: seq<Byte>)
    returns (r: Result<(Session, Header, Ciphertext), RatchetError>)
    ensures r == RatchetEncrypt(s, plaintext, ad)
  {
    var session := new RatchetSession.FromState(s);
    var sealed := session.Encrypt(plaintext, ad);
    r := match sealed
      case Success((h, ct)) => Success((session.State(), h, ct))
      case Failure(e) => Failure(e);
  }

  method RatchetDecryptCommand(s: Session, h: Header, ct: Ciphertext, ad: seq<Byte>, gen: Name)
    returns (r: Result<(Session, seq<Byte>), RatchetError>)
    ensures r == RatchetDecryptText(s, h, ct, ad, gen)
  {
    var session := new RatchetSession.FromState(s);
    var outcome := session.Decrypt(h, ct, ad, gen);
    if outcome.Failure? {
      return Failure(outcome.error);
    }
    if !Utf8.IsText(outcome.value) {
      return Failure(NotText);
    }
    r := Success((session.State(), outcome.value));
  }
}
