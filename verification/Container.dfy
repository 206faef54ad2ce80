/** How the services are put together: the signer, the storage's naming scheme and the limits. */
module Container {
  import opened Codec
  import opened UrlSigner
  import opened Domain
  import opened Invariants
  import Filenames
  import Guarantees

  // The largest link lifetime the configuration accepts, in seconds: one year.
  const MAX_TTL_ALLOWED := 31_536_000

  function Build(
      signer: Signer, storage: Filenames.Backend, trim: string -> string, maxUploadBytes: nat,
          maxTtlSeconds: nat): Config {
    Config((fileId, expiresAt) => signer.ComputeSignature(fileId, expiresAt),
           (fileId, expires, signature, now) => signer.Verify(fileId, expires, signature, now),
           trim,
           (fileId, filename) => Filenames.Location(storage, fileId, filename),
           maxUploadBytes, maxTtlSeconds)
  }

  /** Whatever the secret, the storage backend and the limits, the services are put together as every result about
      runs assumes: different files never share a location, and a verified claim is about the file asked for. */
  lemma BuiltAsAssumed(
      signer: Signer, storage: Filenames.Backend, trim: string -> string, maxUploadBytes: nat, maxTtlSeconds: nat)
    requires maxTtlSeconds <= MAX_TTL_ALLOWED
    ensures var cfg := Build(signer, storage, trim, maxUploadBytes, maxTtlSeconds);
            && ValidConfig(cfg) && Guarantees.SignedBy(cfg, signer)
            && cfg.trim == trim && cfg.maxUploadBytes == maxUploadBytes && cfg.maxTtlSeconds == maxTtlSeconds
            && forall fileId, filename :: cfg.locate(fileId, filename) == Filenames.Location(storage, fileId, filename)
  {
    hide Filenames.Location, IsUuid, Canon, HexEqual;
    var cfg := Build(signer, storage, trim, maxUploadBytes, maxTtlSeconds);
    forall f, name, g, other | CanonicalUuid(f) && CanonicalUuid(g) && cfg.locate(f, name) == cfg.locate(g, other)
      ensures f == g
    {
      Filenames.LocationInjective(storage, f, name, g, other);
    }
  }
}
