/** Plaintext padding to 32-byte blocks (crates/crypto_core/src/ratchet.rs, lines 427-456). */
module Padding {
  import opened Prelude

  const PAD_BLOCK := 32

  datatype PaddingError = InvalidPadding

  function Repeat(b: Byte, n: nat): (r: seq<Byte>)
    ensures |r| == n && forall i :: 0 <= i < n ==> r[i] == b
  {
    seq(n, _ => b)
  }

  function Pad(plaintext: seq<Byte>): seq<Byte> {
    var padLen := PAD_BLOCK - |plaintext| % PAD_BLOCK;
    plaintext + Repeat(padLen, padLen)
  }

  function Unpad(padded: seq<Byte>): Result<seq<Byte>, PaddingError> {
    if |padded| == 0 then Failure(InvalidPadding)
    else
      var padLen := padded[|padded| - 1];
      if padLen == 0 || padLen > PAD_BLOCK || padLen > |padded| then Failure(InvalidPadding)
      else if exists i :: |padded| - padLen <= i < |padded| && padded[i] != padLen then Failure(InvalidPadding)
      else Success(padded[..|padded| - padLen])
  }

  lemma UnpadPad(plaintext: seq<Byte>)
    ensures Unpad(Pad(plaintext)) == Success(plaintext)
  {
    var padded := Pad(plaintext);
    assert padded[..|plaintext|] == plaintext;
  }

  /** The whole block is added when the plaintext already fills its blocks. */
  lemma PadLength(plaintext: seq<Byte>)
    ensures |Pad(plaintext)| == PAD_BLOCK * (|plaintext| / PAD_BLOCK + 1)
  {
  }

  /** What `Unpad` accepts, without mentioning how it looks for it: a plaintext
      followed by between 1 and 32 copies of their own number. */
  lemma UnpadAccepts(padded: seq<Byte>, plaintext: seq<Byte>)
    ensures Unpad(padded) == Success(plaintext)
       <==> exists n: Byte :: 1 <= n <= PAD_BLOCK && padded == plaintext + Repeat(n, n)
  {
    if Unpad(padded) == Success(plaintext) {
      var n := padded[|padded| - 1];
      assert padded == plaintext + Repeat(n, n);
    }
    if n: Byte :| 1 <= n <= PAD_BLOCK && padded == plaintext + Repeat(n, n) {
      assert padded[|padded| - 1] == n;
      assert padded[..|padded| - n] == plaintext;
    }
  }

  /** Unpadding is undone by padding exactly on whole blocks. */
  lemma PadUnpad(padded: seq<Byte>)
    requires Unpad(padded).Success?
    ensures Pad(Unpad(padded).value) == padded <==> |padded| % PAD_BLOCK == 0
  {
    var plaintext := Unpad(padded).value;
    var n := padded[|padded| - 1];
    assert padded == plaintext + Repeat(n, n);
    PadLength(plaintext);
    if |padded| % PAD_BLOCK == 0 {
      assert (|plaintext| + n) % PAD_BLOCK == 0;
      assert PAD_BLOCK - |plaintext| % PAD_BLOCK == n;
    }
  }
}
