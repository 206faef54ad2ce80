/** The two phases of a download -- the stateless check of signature and expiry, then the lookup in the table --
    against the one check they stand for. */
module TwoPhase {
  import opened Wrappers
  import opened Codec
  import opened UrlSigner
  import opened Tables
  import opened Domain
  import opened Requests
  import opened System
  import opened Invariants
  import opened Guarantees
  import opened Sequential
  import opened Outcomes

  /** One look at the table: the row with this file and signature exists, is not revoked, expires when the URL
      says, and has not expired. */
  ghost predicate OnTable(signer: Signer, s: Store, fileId: string, expires: string, signature: string, now: int) {
    exists l :: l in s.links && IsGrant(signer, s.links[l], fileId, expires, signature, now)
  }

  predicate IsGrant(signer: Signer, link: LinkRow, fileId: string, expires: string, signature: string, now: int) {
    && link.fileId == fileId && link.signature == signature && link.revokedAt.None?
    && signer.toInteger(expires) == Some(link.expiresAt) && now / 1000 <= link.expiresAt
  }

  /** The download got past its checks; all that is left is to read the blob. */
  predicate Redeemed(response: Response) {
    response.Downloaded? || response == Rejected(BlobMissing)
  }

  ghost predicate PhasesPass(cfg: Config, s: Store, fileId: string, expires: string, signature: string, now: int) {
    && cfg.verify(fileId, expires, signature, now).Accepted? && IsUuid(fileId)
    && Canon(fileId) in s.files
    && LinkFor(s, Canon(fileId), signature).Some? && LinkFor(s, Canon(fileId), signature).value.revokedAt.None?
  }

  /** An undisturbed download gets past its checks exactly when both phases pass. */
  lemma DownloadAlone(cfg: Config, w: World, fileId: string, expires: string, signature: string, course: Course)
    requires ValidConfig(cfg) && Constraints(w.store) && Calm(course)
    ensures var (end, response) := Handle(cfg, w, AskDownload(fileId, expires, signature), course);
            Redeemed(response) <==> PhasesPass(cfg, w.store, fileId, expires, signature, course(w.turn).now)
  {
    hide Handle, Canon, IsUuid, Constraints, LinkFor;
    DownloadOutcome(cfg, w, fileId, expires, signature, course);
    assert course(w.turn).Calm() && course(w.turn + 1).Calm() && course(w.turn + 2).Calm();
    assert course(w.turn + 3).Calm() && course(w.turn + 4).Calm();
    if Canon(fileId) in w.store.files {
      KeyIsId(w.store, Canon(fileId));
      var link := LinkFor(w.store, Canon(fileId), signature);
      if link.Some? {
        var l :| IsLinkFor(w.store, Canon(fileId), signature, l) && w.store.links[l] == link.value;
        assert w.store.links[l].fileId == w.store.files[Canon(fileId)].id;
      } else {
        forall l | l in w.store.links && w.store.links[l].fileId == Canon(fileId)
          ensures w.store.links[l].signature != signature
        {
          assert !IsLinkFor(w.store, Canon(fileId), signature, l);
        }
      }
    }
  }

  /** The stateless phase accepts what a row on the table says. */
  lemma GrantVerifies(cfg: Config, signer: Signer, s: Sys, l: string, expires: string, now: int)
    requires SignedBy(cfg, signer) && signer.HashShaped() && Inv(cfg, s)
    requires l in s.store.links && signer.toInteger(expires) == Some(s.store.links[l].expiresAt)
            && now / 1000 <= s.store.links[l].expiresAt
    ensures var link := s.store.links[l];
            && IsUuid(link.fileId) && Canon(link.fileId) == link.fileId && link.fileId in s.store.files
            && cfg.verify(link.fileId, expires, link.signature, now) == Accepted(link.fileId, link.expiresAt)
  {
    hide Inv, Canon, IsUuid, HexEqual;
    var link := s.store.links[l];
    LinkInv(cfg, s, l);
    FileInv(cfg, s, link.fileId);
    CanonicalUuidFacts(link.fileId);
    assert CanonicalDigest(link.signature);
    HexEqualCanonical(link.signature, link.signature);
    assert signer.Verify(link.fileId, expires, link.signature, now) == Accepted(link.fileId, link.expiresAt);
  }

  lemma CanonicalUuidFacts(id: string)
    requires CanonicalUuid(id)
    ensures IsUuid(id) && Canon(id) == id && id != ""
  {
    CanonIsCanonical(id);
  }

  /** The two phases together are one look at the table. In any reachable state an undisturbed download gets past
      its checks exactly when the row is on the table, unrevoked, unexpired and with the claimed expiry -- or else
      the claim and some stored link are two payloads on which the keyed hash collides. */
  lemma TwoPhasesAreOneLook(
      cfg: Config, signer: Signer, s: Sys, n: nat, fileId: string, expires: string, signature: string, course: Course)
    requires ValidConfig(cfg) && SignedBy(cfg, signer) && signer.HashShaped() && Inv(cfg, s) && Calm(course)
    ensures var response := Handle(cfg, World(s.store, n), AskDownload(fileId, expires, signature), course).1;
            var onTable := OnTable(signer, s.store, fileId, expires, signature, course(n).now);
            && (onTable ==> Redeemed(response))
            && (Redeemed(response) ==>
                  || onTable
                  || (signer.toInteger(expires).Some?
                      && exists l :: l in s.store.links
                           && Collision(signer, signer.Payload(fileId, signer.toInteger(expires).value),
                                        signer.Payload(s.store.links[l].fileId, s.store.links[l].expiresAt))))
  {
    hide Inv, Handle, Redeemed, Canon, IsUuid, Constraints, HexEqual;
    ConstraintsInv(cfg, s);
    DownloadAlone(cfg, World(s.store, n), fileId, expires, signature, course);
    var now := course(n).now;
    if OnTable(signer, s.store, fileId, expires, signature, now) {
      var l :| l in s.store.links && IsGrant(signer, s.store.links[l], fileId, expires, signature, now);
      GrantVerifies(cfg, signer, s, l, expires, now);
      LinkForUnique(s.store, l);
    }
    if PhasesPass(cfg, s.store, fileId, expires, signature, now) {
      var l :| IsLinkFor(s.store, Canon(fileId), signature, l)
          && s.store.links[l] == LinkFor(s.store, Canon(fileId), signature).value;
      PassesMatch(cfg, signer, s, l, fileId, expires, signature, now);
    }
  }

  lemma UuidLengths(f: string, g: string)
    requires IsUuid(f) && CanonicalUuid(g)
    ensures |f| == |g|
  {
  }

  lemma PassesMatch(
      cfg: Config, signer: Signer, s: Sys, l: string, fileId: string, expires: string, signature: string, now: int)
    requires SignedBy(cfg, signer) && signer.HashShaped() && Inv(cfg, s)
    requires cfg.verify(fileId, expires, signature, now).Accepted? && IsUuid(fileId)
    requires IsLinkFor(s.store, Canon(fileId), signature, l) && s.store.links[l].revokedAt.None?
    ensures signer.toInteger(expires).Some?
    ensures IsGrant(signer, s.store.links[l], fileId, expires, signature, now)
            || Collision(signer, signer.Payload(fileId, signer.toInteger(expires).value),
                         signer.Payload(s.store.links[l].fileId, s.store.links[l].expiresAt))
  {
    hide Inv, IsUuid, HexEqual;
    var link := s.store.links[l];
    LinkInv(cfg, s, l);
    FileInv(cfg, s, link.fileId);
    UuidLengths(fileId, link.fileId);
    assert signer.Verify(fileId, expires, signature, now) == cfg.verify(fileId, expires, signature, now);
    var e := signer.toInteger(expires).value;
    assert HexEqual(signer.ComputeSignature(fileId, e), signer.ComputeSignature(link.fileId, link.expiresAt));
    ClaimMatchesIssue(signer, fileId, e, link.fileId, link.expiresAt);
  }
}
