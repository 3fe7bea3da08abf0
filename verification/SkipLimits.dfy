/** What bounds the skipped store and the 32-bit counters of one session. */
module SkipLimits {
  import opened Prelude
  import opened KeyTerms
  import opened Ratchet
  import opened Conversation

  /** Merging `r` into `m` adds at most `|r|` entries. */
  lemma MergeSize<K, V>(m: map<K, V>, r: map<K, V>)
    ensures |m + r| <= |m| + |r|
  {
    assert (m + r).Keys == m.Keys + r.Keys;
    assert |m.Keys + r.Keys| <= |m.Keys| + |r.Keys|;
  }

  lemma {:induction false} SkippedRangeSize(remote: PublicKey, ck: Term, from: U32, until: U32)
    requires from <= until
    ensures |SkippedRange(remote, ck, from, until)| == until - from
    decreases until
  {
    if from < until {
      SkippedRangeSize(remote, ck, from, until - 1);
      SkippedRangeHolds(remote, ck, from, until - 1);
    }
  }

  /**
   One skip. As long as `recv_count + MAX_SKIP` fits in 32 bits, a skip is refused
   exactly when it would pass more than MAX_SKIP positions; otherwise it adds the
   keys of `[recv_count, until)` and nothing else.
   */
  lemma SkipAdds(s: Session, until: U32)
    requires s.recvCount <= SEND_LIMIT && s.recvChain.Some?
    ensures var o := SkipUntil(s, until);
            && (o.error.None? <==> until - s.recvCount <= MAX_SKIP)
            && (o.error.Some? ==> o.session == s)
            && (o.error.None? ==>
                 && o.session.recvCount == (if until > s.recvCount then until else s.recvCount)
                 && forall k :: k in o.session.skipped <==>
                      k in s.skipped || (k.dhPublic == RemoteOrZero(s) && s.recvCount <= k.counter < until))
  {
    SkippedRangeHolds(RemoteOrZero(s), s.recvChain.value, s.recvCount, until);
    var o := SkipUntil(s, until);
    if o.error.None? && s.recvCount < until {
      assert o.session.skipped
          == s.skipped + SkippedRange(RemoteOrZero(s), s.recvChain.value, s.recvCount, until);
    } else {
      assert o.session == s;
    }
  }

  /** At most MAX_SKIP entries a call. */
  lemma SkipGrowth(s: Session, until: U32)
    ensures |SkipUntil(s, until).session.skipped| <= |s.skipped| + MAX_SKIP
  {
    var o := SkipUntil(s, until);
    if o.error.None? && s.recvChain.Some? && s.recvCount < until {
      SkippedRangeSize(RemoteOrZero(s), s.recvChain.value, s.recvCount, until);
      MergeSize(s.skipped, SkippedRange(RemoteOrZero(s), s.recvChain.value, s.recvCount, until));
    }
  }

  lemma AlignGrowth(s: Session, h: Header, gen: Name)
    ensures |Align(s, h, gen).session.skipped| <= |s.skipped| + 2 * MAX_SKIP
  {
    if s.dhRemote == Some(h.dhPublic) {
      SkipGrowth(s, h.msgCounter);
    } else {
      SkipGrowth(s, h.prevCounter);
      var closed := SkipUntil(s, h.prevCounter);
      if closed.error.None? {
        var turned := RatchetDh(closed.session, h.dhPublic, gen);
        assert turned.session.skipped == closed.session.skipped;
        SkipGrowth(turned.session, h.msgCounter);
      }
    }
  }

  /** One decryption, successful or not, on any header: at most 2000 new entries. */
  lemma DecryptGrowth(s: Session, h: Header, ct: Ciphertext, ad: seq<Byte>, gen: Name)
    ensures |Decrypt(s, h, ct, ad, gen).0.skipped| <= |s.skipped| + 2 * MAX_SKIP
  {
    if SlotOf(h) in s.skipped {
      assert s.skipped.Keys == (s.skipped - {SlotOf(h)}).Keys + {SlotOf(h)};
    } else {
      AlignGrowth(s, h, gen);
    }
  }

  /**
   Where the 32-bit sum wraps. Past SEND_LIMIT received packets the check refuses
   even the packet that is next in order; up to it, it never does. This is the bound
   runs keep to.
   */
  lemma NextInOrderAccepted(s: Session)
    ensures SkipUntil(s, s.recvCount).error.None? <==> s.recvCount <= SEND_LIMIT
  {
  }

  /** At the last counter value the send counter wraps to 0 under the same key, so
      headers repeat although the chain key has moved on. */
  lemma SendCounterWraps(s: Session, plaintext: seq<Byte>, ad: seq<Byte>)
    requires s.sendChain.Some? && s.dhSelf.Some?
    ensures var s' := Encrypt(s, plaintext, ad).0;
            var next := Encrypt(s', plaintext, ad).1;
            && next.Success?
            && (next.value.0.msgCounter == s.sendCount + 1 <==> s.sendCount < U32_MAX)
            && (s.sendCount == U32_MAX ==>
                  next.value.0 == Header(s.dhSelf.value.public, s.prevSendCount, 0))
            && s'.sendChain != s.sendChain
  {
  }
}
