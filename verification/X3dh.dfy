/**
 X3DH key agreement (crates/crypto_core/src/lib.rs, lines 149-214) and the ratchet
 sessions it feeds.
 */
module X3dh {
  import opened Prelude
  import opened KeyTerms
  import opened Ratchet
  import opened Forgetting

  datatype CryptoError = DecryptionFailed

  /** Scalar multiplication fails on low-order points only. */
  function DoDh(sk: Name, pk: PublicKey): Result<Term, CryptoError> {
    match pk
    case LowOrder => Failure(DecryptionFailed)
    case Point(owner) => Success(Dh(sk, owner))
  }

  /** The three or four agreements in the order both sides concatenate them. */
  function Combine(dh1: Result<Term, CryptoError>, dh2: Result<Term, CryptoError>,
                   dh3: Result<Term, CryptoError>, dh4: Option<Result<Term, CryptoError>>)
    : Result<Term, CryptoError>
  {
    if dh1.Failure? || dh2.Failure? || dh3.Failure? then Failure(DecryptionFailed)
    else match dh4
      case None => Success(X3dhSecret([dh1.value, dh2.value, dh3.value]))
      case Some(Failure(e)) => Failure(e)
      case Some(Success(d)) => Success(X3dhSecret([dh1.value, dh2.value, dh3.value, d]))
  }

  function X3dhSender(aliceIk: Name, aliceEk: Name, bobIk: PublicKey, bobSpk: PublicKey, bobOpk: Option<PublicKey>)
    : Result<Term, CryptoError>
  {
    Combine(DoDh(aliceIk, bobSpk), DoDh(aliceEk, bobIk), DoDh(aliceEk, bobSpk),
            if bobOpk.None? then None else Some(DoDh(aliceEk, bobOpk.value)))
  }

  function X3dhReceiver(bobIk: Name, bobSpk: Name, bobOpk: Option<Name>, aliceIk: PublicKey, aliceEk: PublicKey)
    : Result<Term, CryptoError>
  {
    Combine(DoDh(bobSpk, aliceIk), DoDh(bobIk, aliceEk), DoDh(bobSpk, aliceEk),
            if bobOpk.None? then None else Some(DoDh(bobOpk.value, aliceEk)))
  }

  function PublicOf(opk: Option<Name>): Option<PublicKey> {
    if opk.None? then None else Some(Point(opk.value))
  }

  /**
   Agreement. On real key pairs both sides succeed, and they derive the same secret
   exactly when both use the same one-time key or both use none.
   */
  lemma Agreement(aliceIk: Name, aliceEk: Name, bobIk: Name, bobSpk: Name,
                  senderOpk: Option<Name>, receiverOpk: Option<Name>)
    ensures var sent := X3dhSender(aliceIk, aliceEk, Point(bobIk), Point(bobSpk), PublicOf(senderOpk));
            var received := X3dhReceiver(bobIk, bobSpk, receiverOpk, Point(aliceIk), Point(aliceEk));
            && sent.Success? && received.Success?
            && (sent == received <==> senderOpk == receiverOpk)
  {
    var sent := X3dhSender(aliceIk, aliceEk, Point(bobIk), Point(bobSpk), PublicOf(senderOpk)).value;
    var received := X3dhReceiver(bobIk, bobSpk, receiverOpk, Point(aliceIk), Point(aliceEk)).value;
    assert forall i :: 0 <= i < 3 ==> sent.ikm[i] == received.ikm[i];
    if senderOpk.Some? && receiverOpk.Some? {
      assert sent.ikm[3] == Dh(aliceEk, senderOpk.value) && received.ikm[3] == Dh(receiverOpk.value, aliceEk);
    } else {
      assert |sent.ikm| == |received.ikm| <==> senderOpk == receiverOpk;
    }
    if senderOpk == receiverOpk {
      assert sent.ikm == received.ikm;
    }
  }

  /** The agreement fails exactly on a low-order public key, on either side. */
  lemma FailsOnLowOrder(ik: Name, ek: Name, bobIk: PublicKey, bobSpk: PublicKey, bobOpk: Option<PublicKey>,
                        spk: Name, opk: Option<Name>, aliceIk: PublicKey, aliceEk: PublicKey)
    ensures X3dhSender(ik, ek, bobIk, bobSpk, bobOpk) == Failure(DecryptionFailed)
       <==> bobIk.LowOrder? || bobSpk.LowOrder? || bobOpk == Some(LowOrder)
    ensures X3dhReceiver(ik, spk, opk, aliceIk, aliceEk) == Failure(DecryptionFailed)
       <==> aliceIk.LowOrder? || aliceEk.LowOrder?
  {
    assert bobOpk.Some? ==> bobOpk.value.LowOrder? || bobOpk.value.Point?;
  }

  /**
   The first message. The sender seals it under its own secret; the receiver starts
   from its own. It opens exactly when the two one-time keys match, and then gives
   the plaintext; every other pairing is an authentication failure.
   */
  lemma FirstMessage(aliceIk: Name, aliceEk: Name, bobIk: Name, bobSpk: Name,
                     senderOpk: Option<Name>, receiverOpk: Option<Name>,
                     ratchetKey: Name, gen: Name, plaintext: seq<Byte>, ad: seq<Byte>)
    ensures var sent := X3dhSender(aliceIk, aliceEk, Point(bobIk), Point(bobSpk), PublicOf(senderOpk));
            var received := X3dhReceiver(bobIk, bobSpk, receiverOpk, Point(aliceIk), Point(aliceEk));
            && sent.Success? && received.Success?
            && var alice := InitAsSender(sent.value, bobSpk, ratchetKey);
               var bob := InitAsReceiver(received.value, Point(bobSpk), bobSpk);
               var first := RatchetEncrypt(alice, plaintext, ad);
               && first.Success?
               && var (_, h, ct) := first.value;
                  var o := RatchetDecrypt(bob, h, ct, ad, gen);
                  if senderOpk == receiverOpk then o.Success? && o.value.1 == plaintext
                  else o == Failure(DecryptFailed)
  {
    Agreement(aliceIk, aliceEk, bobIk, bobSpk, senderOpk, receiverOpk);
    var sent := X3dhSender(aliceIk, aliceEk, Point(bobIk), Point(bobSpk), PublicOf(senderOpk)).value;
    var received := X3dhReceiver(bobIk, bobSpk, receiverOpk, Point(aliceIk), Point(aliceEk)).value;
    var d := Dh(ratchetKey, bobSpk);
    assert d == Dh(bobSpk, ratchetKey);
    OpenSealed(MsgKey(ChainOf(sent, d)), MsgKey(ChainOf(received, d)), plaintext, ad, ad);
  }

  /** What a holder of some private keys can compute of an agreement's inputs. */
  predicate Known(held: set<Name>, t: Term) {
    match t
    case DhOut(a, b) => a in held || b in held
    case X3dhSecret(ikm) => forall i :: 0 <= i < |ikm| ==> (ikm[i].DhOut? && (ikm[i].lo in held || ikm[i].hi in held))
    case _ => false
  }

  /**
   Who can compute the secret: a holder of the sender's ephemeral key who also has the
   sender's identity key or the signed pre-key, and otherwise only a holder of all the
   receiver's keys.
   */
  lemma KnownExactly(aliceIk: Name, aliceEk: Name, bobIk: Name, bobSpk: Name, opk: Option<Name>, held: set<Name>)
    ensures var sent := X3dhSender(aliceIk, aliceEk, Point(bobIk), Point(bobSpk), PublicOf(opk));
            && sent.Success?
            && (Known(held, sent.value) <==>
                  if aliceEk in held then aliceIk in held || bobSpk in held
                  else bobIk in held && bobSpk in held && (opk.Some? ==> opk.value in held))
  {
    var ikm := X3dhSender(aliceIk, aliceEk, Point(bobIk), Point(bobSpk), PublicOf(opk)).value.ikm;
    assert ikm[0] == Dh(aliceIk, bobSpk) && ikm[1] == Dh(aliceEk, bobIk) && ikm[2] == Dh(aliceEk, bobSpk);
    assert opk.Some? ==> ikm[3] == Dh(aliceEk, opk.value);
  }

  /** An X3DH secret is guarded as KeysForgotten asks: its second agreement is between
      the ephemeral and the identity key, neither of which is a ratchet key. */
  lemma SecretIsGuarded(aliceIk: Name, aliceEk: Name, bobIk: Name, bobSpk: Name, opk: Option<Name>, next: Name)
    requires aliceEk < next && bobIk < next && aliceEk != bobSpk && bobIk != bobSpk
    ensures SecretGuardedBelow(
              X3dhSender(aliceIk, aliceEk, Point(bobIk), Point(bobSpk), PublicOf(opk)).value, bobSpk, next)
  {
    var secret := X3dhSender(aliceIk, aliceEk, Point(bobIk), Point(bobSpk), PublicOf(opk)).value;
    assert secret.ikm[1] == Dh(aliceEk, bobIk);
  }
}
