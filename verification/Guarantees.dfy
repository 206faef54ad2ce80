/** What the service guarantees over whole runs, under any interleaving and any failures. */
module Guarantees {
  import opened Wrappers
  import opened Codec
  import opened UrlSigner
  import opened Tables
  import opened Domain
  import opened Requests
  import opened System
  import opened Invariants
  import opened Preservation
  import opened Traces
  import Downloads

  /** The services use this signer. */
  ghost predicate SignedBy(cfg: Config, signer: Signer) {
    && (forall f, e :: cfg.signature(f, e) == signer.ComputeSignature(f, e))
    && (forall f, x, sig, t :: cfg.verify(f, x, sig, t) == signer.Verify(f, x, sig, t))
  }

  // ---------- downloads ----------

  /** The request found `link` for its claim, and found it unrevoked. */
  predicate Holds(r: Request, claim: Claim, file: FileRow, link: LinkRow) {
    match r
    case Downloading(w) =>
      || w == Downloads.Logging(claim, file, Downloads.Granted(link))
      || w == Downloads.Probing(claim, file, link)
      || w == Downloads.Reading(claim, file, link)
    case Done(Downloaded(f, _, c, l)) => f == file && c == claim && l == link
    case _ => false
  }

  /** At event `i` the request arrived with the claimed parameters, at the time it then read from the clock. */
  ghost predicate ArrivedAt(cfg: Config, events: seq<Event>, i: nat, pid: nat, claim: Claim) {
    && StartedAt(cfg, events, i, pid, AskDownload(claim.fileId, claim.expires, claim.signature))
    && At(cfg, events, i).clock == claim.verifiedAt
  }

  /** At event `k` the request looked its link up, and the row it found was in the table and not revoked. */
  ghost predicate LookedUpAt(
      cfg: Config, events: seq<Event>, k: nat, pid: nat, claim: Claim, file: FileRow, link: LinkRow) {
    && ServedAt(cfg, events, k, pid, Downloading(Downloads.Redeeming(claim, file)))
    && link in At(cfg, events, k).store.links.Values && link.revokedAt.None?
    && link.fileId == file.id && link.signature == claim.signature
  }

  lemma FoundRow(s: Store, fileId: string, signature: string)
    requires LinkFor(s, fileId, signature).Some?
    ensures var link := LinkFor(s, fileId, signature).value;
            link in s.links.Values && link.fileId == fileId && link.signature == signature
  {
    var l :| IsLinkFor(s, fileId, signature, l) && s.links[l] == LinkFor(s, fileId, signature).value;
    assert s.links[l] in s.links.Values;
  }

  /** A request at its lookup arrived earlier. */
  lemma LookupArrived(cfg: Config, events: seq<Event>, n: nat, pid: nat, claim: Claim, file: FileRow) returns (i: nat)
    requires ValidConfig(cfg) && Stands(cfg, events, n, pid, Downloading(Downloads.Redeeming(claim, file)))
    ensures i < n && ArrivedAt(cfg, events, i, pid, claim)
  {
    hide Run, Perform, Canon, IsUuid;
    var k := DownloadCameFrom(cfg, events, n, pid, Downloads.Redeeming(claim, file));
    var v :| ServedAt(cfg, events, k, pid, Downloading(v))
             && Downloads.Resume(v, ReplyAt(cfg, events, k, Downloading(v))) == Goes(Downloads.Redeeming(claim, file));
    i := DownloadCameFrom(cfg, events, k, pid, v);
  }

  /** Whoever holds a grant looked its link up unrevoked, after arriving with its claim. */
  lemma {:induction false} GrantedAtLookup(
      cfg: Config, events: seq<Event>, n: nat, pid: nat, r: Request, claim: Claim, file: FileRow, link: LinkRow)
    requires ValidConfig(cfg) && Stands(cfg, events, n, pid, r) && Holds(r, claim, file, link)
    ensures exists i: nat, k: nat :: i < k < n
              && ArrivedAt(cfg, events, i, pid, claim) && LookedUpAt(cfg, events, k, pid, claim, file, link)
    decreases n
  {
    hide Run, Canon, IsUuid, LinkFor, ArrivedAt, At, PerformFile, PerformAudit;
    if r.Done? {
      var k := AnswerCameFrom(cfg, events, n, pid, r.response);
      var v :| ServedAt(cfg, events, k, pid, Downloading(v))
               && Downloads.Resume(v, ReplyAt(cfg, events, k, Downloading(v))) == Ends(r.response);
      GrantedAtLookup(cfg, events, k, pid, Downloading(v), claim, file, link);
    } else {
      var k := DownloadCameFrom(cfg, events, n, pid, r.w);
      var v :| ServedAt(cfg, events, k, pid, Downloading(v))
               && Downloads.Resume(v, ReplyAt(cfg, events, k, Downloading(v))) == Goes(r.w);
      if r.w.Logging? {
        var i := LookupArrived(cfg, events, k, pid, claim, file);
        FoundRow(At(cfg, events, k).store, file.id, claim.signature);
        assert LookedUpAt(cfg, events, k, pid, claim, file, link);
      } else {
        GrantedAtLookup(cfg, events, k, pid, Downloading(v), claim, file, link);
      }
    }
  }

  /** A download that returned passed the check the two phases make together: it arrived with the claimed
      parameters, the claimed expiry not before the clock it then read; later it looked its link up, and found a row
      with the presented signature that was not revoked at that step; and that row's file and expiry are the claimed
      ones -- unless the keyed hash collides on the two payloads named here. It returns exactly the bytes of the one
      upload that created the file, and it is in the log. */
  lemma DownloadIsJustified(cfg: Config, signer: Signer, events: seq<Event>, pid: nat)
    requires ValidConfig(cfg) && SignedBy(cfg, signer) && signer.HashShaped()
    requires var s := Run(cfg, Init, events); pid in s.procs && s.procs[pid].Done? && s.procs[pid].response.Downloaded?
    ensures var s := Run(cfg, Init, events);
            var Downloaded(file, bytes, claim, link) := s.procs[pid].response;
            && (exists i: nat, k: nat :: i < k < |events|
                  && ArrivedAt(cfg, events, i, pid, claim) && LookedUpAt(cfg, events, k, pid, claim, file, link))
            && claim.verifiedAt / 1000 <= claim.expiresAt && signer.toInteger(claim.expires) == Some(claim.expiresAt)
            && file.id == Canon(claim.fileId)
            && ((claim.fileId == file.id && claim.expiresAt == link.expiresAt)
                || Collision(signer, signer.Payload(claim.fileId, claim.expiresAt),
                     signer.Payload(link.fileId, link.expiresAt)))
            && file.id in s.born && bytes == s.born[file.id].upload.data && |bytes| == file.sizeBytes
            && Logged(s, AuditEvent(file.id, s.born[file.id].userId,
                 LinkDownloaded(link.id, link.ttlSeconds, link.expiresAt)))
  {
    hide Run, ArrivedAt, LookedUpAt;
    ReachableInv(cfg, events);
    var s := Run(cfg, Init, events);
    RequestInv(cfg, s, pid);
    hide Inv;
    var Downloaded(file, bytes, claim, link) := s.procs[pid].response;
    assert events[..|events|] == events;
    GrantedAtLookup(cfg, events, |events|, pid, s.procs[pid], claim, file, link);
    VerifiedClaim(cfg, signer, claim, link);
  }

  lemma VerifiedClaim(cfg: Config, signer: Signer, claim: Claim, link: LinkRow)
    requires SignedBy(cfg, signer) && signer.HashShaped()
    requires cfg.verify(claim.fileId, claim.expires, claim.signature, claim.verifiedAt)
            == Accepted(claim.fileId, claim.expiresAt)
    requires link.signature == claim.signature == cfg.signature(link.fileId, link.expiresAt)
    requires |claim.fileId| == |link.fileId| && ExpiryInRange(link.expiresAt)
    ensures claim.verifiedAt / 1000 <= claim.expiresAt && signer.toInteger(claim.expires) == Some(claim.expiresAt)
    ensures (claim.fileId == link.fileId && claim.expiresAt == link.expiresAt)
            || Collision(signer, signer.Payload(claim.fileId, claim.expiresAt),
                 signer.Payload(link.fileId, link.expiresAt))
  {
    assert signer.Verify(claim.fileId, claim.expires, claim.signature, claim.verifiedAt)
        == Accepted(claim.fileId, claim.expiresAt);
    ClaimMatchesIssue(signer, claim.fileId, claim.expiresAt, link.fileId, link.expiresAt);
  }

  // ---------- the link table ----------

  /** Every link belongs to a live file and its owner, and carries the signature of its own file and expiry;
      there is at most one link per file and expiry second, and the lookup by file and signature finds it. */
  lemma LinkTable(cfg: Config, events: seq<Event>, l: string, k: string)
    requires ValidConfig(cfg)
    requires var s := Run(cfg, Init, events); l in s.store.links && k in s.store.links
    ensures var s := Run(cfg, Init, events);
            var row, other := s.store.links[l], s.store.links[k];
            && row.fileId in s.store.files && row.userId == s.store.files[row.fileId].userId
            && row.signature == cfg.signature(row.fileId, row.expiresAt)
            && 1 <= row.ttlSeconds <= cfg.maxTtlSeconds && row.expiresAt <= s.clock / 1000 + row.ttlSeconds
            && LinkFor(s.store, row.fileId, row.signature) == Some(row)
            && (row.fileId == other.fileId && row.expiresAt == other.expiresAt ==> l == k)
  {
    ReachableInv(cfg, events);
    var s := Run(cfg, Init, events);
    assert LinkOk(cfg, s, s.store.links[l]) && LinkOk(cfg, s, s.store.links[k]);
    assert Seen(cfg, s, s.store.files[s.store.links[l].fileId]);
    LinkForUnique(s.store, l);
  }
}
