/**
 Symbolic keys. Every key-derivation function of the ratchet is a constructor
 (so it is injective and its outputs never collide), a Diffie-Hellman output is
 the unordered pair of the two private keys' names, and the AEAD opens exactly
 what was sealed under the same key, nonce and associated data.
 */
module KeyTerms {
  import opened Prelude

  /** The name of a private X25519 scalar. */
  type Name = nat

  /** A 32-byte public value: the point of a private key, or a low-order value
      (all-zero bytes among them) on which scalar multiplication fails. */
  datatype PublicKey = Point(owner: Name) | LowOrder

  datatype Term =
    | Random(id: nat)                    // 32 random bytes
    | DhOut(lo: Name, hi: Name)          // X25519 output; build it with Dh
    | X3dhSecret(ikm: seq<Term>)         // HKDF over the concatenated X3DH outputs
    | RootOf(root: Term, dh: Term)       // first half of KDF_RK
    | ChainOf(root: Term, dh: Term)      // second half of KDF_RK
    | NextChain(chain: Term)             // first half of KDF_CK
    | MsgKey(chain: Term)                // second half of KDF_CK

  /** X25519 of two key pairs does not depend on who computes it. */
  function Dh(a: Name, b: Name): Term {
    if a <= b then DhOut(a, b) else DhOut(b, a)
  }

  datatype AeadKey = AeadKey(mk: Term)

  datatype AeadNonce = AeadNonce(mk: Term)

  function DeriveAead(mk: Term): (AeadKey, AeadNonce) {
    (AeadKey(mk), AeadNonce(mk))
  }

  datatype Ciphertext =
    | Sealed(key: AeadKey, nonce: AeadNonce, ad: seq<Byte>, body: seq<Byte>)
    | Tampered(bytes: seq<Byte>)

  function Open(ct: Ciphertext, ad: seq<Byte>, nonce: AeadNonce, key: AeadKey): Option<seq<Byte>> {
    if ct.Sealed? && ct.key == key && ct.nonce == nonce && ct.ad == ad then Some(ct.body) else None
  }

  /** A chain key after `n` applications of KDF_CK. */
  function Advance(ck: Term, n: nat): Term {
    if n == 0 then ck else NextChain(Advance(ck, n - 1))
  }

  /** How many root-key derivations a term is built on. */
  function RootDepth(t: Term): nat {
    match t
    case RootOf(r, _) => 1 + RootDepth(r)
    case _ => 0
  }

  lemma {:induction false} AdvanceAdd(ck: Term, m: nat, n: nat)
    ensures Advance(Advance(ck, m), n) == Advance(ck, m + n)
  {
    if n > 0 {
      AdvanceAdd(ck, m, n - 1);
    }
  }

  /** Two chains that start from KDF_RK outputs meet only if they are one chain
      and the positions are equal. */
  lemma {:induction false} AdvanceInjective(r: Term, d: Term, m: nat, r': Term, d': Term, n: nat)
    requires Advance(ChainOf(r, d), m) == Advance(ChainOf(r', d'), n)
    ensures r == r' && d == d' && m == n
  {
    if m > 0 && n > 0 {
      AdvanceInjective(r, d, m - 1, r', d', n - 1);
    }
  }
}
