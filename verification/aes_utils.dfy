/** `aes_utils.aes_encrypt`: AES-256-GCM under a key and nonce drawn inside the call. */
module AesUtils {
  import opened Wrappers
  import opened Bytes
  import opened Crypto

  /** The tuple `(key, iv, ciphertext, tag)`, in that order. */
  datatype AesOutput = AesOutput(key: bytes, iv: bytes, ciphertext: bytes, tag: bytes)

  /**
   * `urandom` is the stream `os.urandom` reads from: the key is drawn first
   * (32 bytes), then the nonce (12 bytes); the caller supplies neither.
   */
  function AesEncrypt(p: Primitives, plaintext: bytes, urandom: bytes): (r: AesOutput)
    requires |urandom| >= AesKeySize + GcmNonceSize
    ensures |r.key| == AesKeySize && |r.iv| == GcmNonceSize
    ensures r.key + r.iv == urandom[..AesKeySize + GcmNonceSize]
    ensures p.gcmSeal(r.key, r.iv, plaintext) == Sealed(r.ciphertext, r.tag)
  {
    var key := urandom[..AesKeySize];
    var iv := urandom[AesKeySize..AesKeySize + GcmNonceSize];
    var sealed := p.gcmSeal(key, iv, plaintext);
    AesOutput(key, iv, sealed.ciphertext, sealed.tag)
  }

  /** What `aes_encrypt` returns decrypts and verifies back to its input under the returned key and nonce. */
  lemma AesEncryptOpens(p: Primitives, plaintext: bytes, urandom: bytes)
    requires LawfulPrimitives(p)
    requires |urandom| >= AesKeySize + GcmNonceSize
    ensures var r := AesEncrypt(p, plaintext, urandom);
      p.gcmOpen(r.key, r.iv, r.ciphertext, r.tag) == Some(plaintext)
  {
  }

  /** Two calls that draw different random bytes use a different key or a different nonce. */
  lemma AesEncryptFresh(p: Primitives, plaintext: bytes, urandom1: bytes, urandom2: bytes)
    requires |urandom1| >= AesKeySize + GcmNonceSize && |urandom2| >= AesKeySize + GcmNonceSize
    requires urandom1[..AesKeySize + GcmNonceSize] != urandom2[..AesKeySize + GcmNonceSize]
    ensures var r1, r2 := AesEncrypt(p, plaintext, urandom1), AesEncrypt(p, plaintext, urandom2);
      r1.key != r2.key || r1.iv != r2.iv
  {
  }
}
