/**
 * The cryptographic primitives the envelope is built from, as uninterpreted
 * functions: AES-GCM authenticated encryption (NIST SP 800-38D, sections 7.1
 * and 7.2) and RSA-OAEP key transport (RFC 8017, sections 7.1.1 and 7.1.2).
 * `Lawful` states the laws the rest of the model is proved from.
 */
module Crypto {
  import opened Wrappers
  import opened Bytes

  /** The size of the RSA modulus the bank's key is generated with. */
  const RsaModulusBits := 2048
  /** OAEP with SHA-1 (hLen = 20) takes messages of at most k - 2 hLen - 2 bytes (RFC 8017, 7.1.1). */
  const OaepMaxMessage := RsaModulusBits / 8 - 2 * 20 - 2
  /** AES-256 key and 96-bit GCM nonce sizes, in bytes. */
  const AesKeySize := 32
  const GcmNonceSize := 12

  /** Identities of RSA key material; only their relation through `publicOf` matters. */
  datatype PrivateKey = PrivateKey(handle: nat)
  datatype PublicKey = PublicKey(handle: nat)

  datatype Sealed = Sealed(ciphertext: bytes, tag: bytes)

  datatype Primitives = Primitives(
    /** GCM authenticated encryption: key, nonce, plaintext. */
    gcmSeal: (bytes, bytes, bytes) -> Sealed,
    /** GCM authenticated decryption: key, nonce, ciphertext, tag; None when it raises. */
    gcmOpen: (bytes, bytes, bytes, bytes) -> Option<bytes>,
    /** The public half of a private key. */
    publicOf: PrivateKey -> PublicKey,
    /** OAEP encryption: public key, message, random seed. */
    oaepEncrypt: (PublicKey, bytes, bytes) -> bytes,
    /** OAEP decryption; None when it raises. */
    oaepDecrypt: (PrivateKey, bytes) -> Option<bytes>)

  /** Correctness of GCM: a sealed message opens to itself. */
  ghost predicate GcmCorrect(p: Primitives) {
    forall k: bytes, n: bytes, m: bytes ::
      |k| == AesKeySize && |n| == GcmNonceSize ==>
        p.gcmOpen(k, n, p.gcmSeal(k, n, m).ciphertext, p.gcmSeal(k, n, m).tag) == Some(m)
  }

  /** Authenticity of GCM: decryption succeeds only on the exact sealing of what it returns. */
  ghost predicate GcmAuthentic(p: Primitives) {
    forall k: bytes, n: bytes, c: bytes, t: bytes ::
      p.gcmOpen(k, n, c, t).Some? ==> p.gcmSeal(k, n, p.gcmOpen(k, n, c, t).value) == Sealed(c, t)
  }

  /** Under one key and nonce, the ciphertext determines the plaintext (counter mode is a bijection). */
  ghost predicate GcmCiphertextInjective(p: Primitives) {
    forall k: bytes, n: bytes, m1: bytes, m2: bytes ::
      && |k| == AesKeySize && |n| == GcmNonceSize
      && p.gcmSeal(k, n, m1).ciphertext == p.gcmSeal(k, n, m2).ciphertext
      ==> m1 == m2
  }

  /** Correctness of OAEP for messages within the size bound. */
  ghost predicate OaepCorrect(p: Primitives) {
    forall priv: PrivateKey, m: bytes, seed: bytes ::
      |m| <= OaepMaxMessage ==> p.oaepDecrypt(priv, p.oaepEncrypt(p.publicOf(priv), m, seed)) == Some(m)
  }

  /** A key transported to one public key cannot be recovered with a private key of another pair. */
  ghost predicate OaepWrongKeyRejected(p: Primitives) {
    forall priv: PrivateKey, other: PrivateKey, m: bytes, seed: bytes ::
      p.publicOf(other) != p.publicOf(priv) ==> p.oaepDecrypt(other, p.oaepEncrypt(p.publicOf(priv), m, seed)).None?
  }

  ghost predicate LawfulPrimitives(p: Primitives) {
    GcmCorrect(p) && GcmAuthentic(p) && GcmCiphertextInjective(p) && OaepCorrect(p) && OaepWrongKeyRejected(p)
  }
}
