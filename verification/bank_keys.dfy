/**
 * `bank_keys`: the bank's RSA keypair, persisted as two PEM files and
 * generated on first use.
 */
module BankKeys {
  import opened Wrappers
  import opened Crypto

  /** What `RSA.import_key` returns: a private key, or a public one. */
  datatype RsaKey = PrivateRsa(priv: PrivateKey) | PublicRsa(pub: PublicKey)

  /** The content of a PEM file: an exported key, or bytes `RSA.import_key` rejects. */
  datatype PemFile = Pem(key: RsaKey) | Unparsable

  datatype KeyError = ImportFailed

  /** The two files `bank_private.pem` and `bank_public.pem`; None when a file does not exist. */
  datatype KeyFiles = KeyFiles(privatePem: Option<PemFile>, publicPem: Option<PemFile>)

  /** `RSA.import_key(path.read_bytes())`. */
  function ImportKey(f: PemFile): (r: Result<RsaKey, KeyError>)
    ensures r.Ok? <==> f.Pem?
  {
    match f
    case Pem(k) => Ok(k)
    case Unparsable => Err(ImportFailed)
  }

  /** The public key OAEP encrypts under, whichever half `import_key` returned. */
  function PublicPart(p: Primitives, k: RsaKey): PublicKey {
    match k
    case PrivateRsa(priv) => p.publicOf(priv)
    case PublicRsa(pub) => pub
  }

  predicate Provisioned(files: KeyFiles) {
    files.privatePem.Some? && files.publicPem.Some?
  }

  /** The files hold the key `k` and its public half, as `ensure_bank_keys` writes them. */
  predicate HoldsPair(p: Primitives, files: KeyFiles, k: PrivateKey) {
    files == KeyFiles(Some(Pem(PrivateRsa(k))), Some(Pem(PublicRsa(p.publicOf(k)))))
  }

  ghost predicate Paired(p: Primitives, files: KeyFiles) {
    exists k :: HoldsPair(p, files, k)
  }

  /**
   * `ensure_bank_keys` as a state transition: nothing changes when both files
   * exist; otherwise the freshly generated key `generated` (`RSA.generate(2048)`)
   * overwrites both files, an existing private key included.
   */
  function EnsureKeys(p: Primitives, files: KeyFiles, generated: PrivateKey): (r: KeyFiles)
    ensures Provisioned(r)
    ensures Provisioned(files) ==> r == files
    ensures !Provisioned(files) ==> HoldsPair(p, r, generated)
  {
    if Provisioned(files) then files
    else KeyFiles(Some(Pem(PrivateRsa(generated))), Some(Pem(PublicRsa(p.publicOf(generated)))))
  }

  /** A second `ensure_bank_keys` leaves the state the first one produced. */
  lemma EnsureKeysIdempotent(p: Primitives, files: KeyFiles, generated1: PrivateKey, generated2: PrivateKey)
    ensures EnsureKeys(p, EnsureKeys(p, files, generated1), generated2) == EnsureKeys(p, files, generated1)
  {
  }

  /**
   * After `ensure_bank_keys` on files that are absent or a matching pair, the two
   * loaders return a private key and the public key that belongs to it.
   */
  lemma LoadedKeysMatch(p: Primitives, files: KeyFiles, generated: PrivateKey)
    requires !Provisioned(files) || Paired(p, files)
    ensures var after := EnsureKeys(p, files, generated);
      exists k :: HoldsPair(p, after, k)
        && ImportKey(after.privatePem.value) == Ok(PrivateRsa(k))
        && PublicPart(p, ImportKey(after.publicPem.value).value) == p.publicOf(k)
  {
    var after := EnsureKeys(p, files, generated);
    if Provisioned(files) {
      var k :| HoldsPair(p, files, k);
      assert HoldsPair(p, after, k);
    } else {
      assert HoldsPair(p, after, generated);
    }
  }

  /** The two PEM files of the bank process. */
  class BankKeyStore {
    var privatePem: Option<PemFile>
    var publicPem: Option<PemFile>

    function Files(): KeyFiles
      reads this
    {
      KeyFiles(privatePem, publicPem)
    }

    constructor (files: KeyFiles)
      ensures Files() == files
    {
      privatePem := files.privatePem;
      publicPem := files.publicPem;
    }

    /** `ensure_bank_keys`. */
    method EnsureBankKeys(p: Primitives, generated: PrivateKey)
      modifies this
      ensures Files() == EnsureKeys(p, old(Files()), generated)
    {
      if privatePem.Some? && publicPem.Some? {
        return;
      }
      privatePem := Some(Pem(PrivateRsa(generated)));
      publicPem := Some(Pem(PublicRsa(p.publicOf(generated))));
    }

    /** `load_bank_private_key`: ensure the keys, then import the private file. */
    method LoadBankPrivateKey(p: Primitives, generated: PrivateKey) returns (key: Result<RsaKey, KeyError>)
      modifies this
      ensures Files() == EnsureKeys(p, old(Files()), generated)
      ensures privatePem.Some? && key == ImportKey(privatePem.value)
    {
      EnsureBankKeys(p, generated);
      key := ImportKey(privatePem.value);
    }

    /** `load_bank_public_key`: ensure the keys, then import the public file. */
    method LoadBankPublicKey(p: Primitives, generated: PrivateKey) returns (key: Result<RsaKey, KeyError>)
      modifies this
      ensures Files() == EnsureKeys(p, old(Files()), generated)
      ensures publicPem.Some? && key == ImportKey(publicPem.value)
    {
      EnsureBankKeys(p, generated);
      key := ImportKey(publicPem.value);
    }
  }
}
