/** What holds in every reachable state, whatever the interleaving and whichever calls fail, are retried
    or are left half-done. */
module Invariants {
  import opened Codec
  import opened UrlSigner
  import opened Tables
  import opened Domain
  import opened Requests
  import opened System
  import Uploads
  import Renames
  import Deletes
  import Signs
  import Revokes
  import Downloads
  import Histories

  /** The storage never puts two files at one location, a verified claim is about the file asked for, and
      lifetimes are far from overflowing a safe integer. */
  ghost predicate ValidConfig(cfg: Config) {
    && (forall f, name, g, other ::
          CanonicalUuid(f) && CanonicalUuid(g) && cfg.locate(f, name) == cfg.locate(g, other) ==> f == g)
    && (forall f, x, sig, t :: cfg.verify(f, x, sig, t).Accepted? ==> cfg.verify(f, x, sig, t).fileId == f)
    && cfg.maxTtlSeconds <= MAX_SAFE_INTEGER / 2
  }

  function PathOf(cfg: Config, s: Sys, f: string): string
    requires f in s.born
  {
    cfg.locate(f, s.born[f].upload.filename)
  }

  // ---------- rows and events ----------

  /** A row as its upload made it, but for the filename. */
  ghost predicate RowOk(cfg: Config, s: Sys, row: FileRow) {
    && row.id in s.born
    && row.userId == s.born[row.id].userId
    && row.storagePath == PathOf(cfg, s, row.id)
    && row.sizeBytes == |s.born[row.id].upload.data|
    && 0 < row.sizeBytes <= cfg.maxUploadBytes
  }

  /** A row that was in the table at some time. */
  ghost predicate Seen(cfg: Config, s: Sys, file: FileRow) {
    RowOk(cfg, s, file) && file.id in s.inserted
  }

  ghost predicate SeenOwned(cfg: Config, s: Sys, file: FileRow, userId: string) {
    Seen(cfg, s, file) && file.userId == userId
  }

  predicate ExpiryInRange(e: int) {
    0 <= e <= MAX_SAFE_INTEGER
  }

  /** A link as its signing request made it, but for the revocation time. */
  ghost predicate LinkOk(cfg: Config, s: Sys, link: LinkRow) {
    && link.id in s.drafts && s.drafts[link.id].fileId == link.fileId
    && link.fileId in s.inserted
    && link.fileId in s.born
    && link.userId == s.born[link.fileId].userId
    && link.signature == cfg.signature(link.fileId, link.expiresAt)
    && 1 <= link.ttlSeconds <= cfg.maxTtlSeconds
    && ExpiryInRange(link.expiresAt)
    && link.expiresAt <= s.clock / 1000 + link.ttlSeconds
  }

  ghost predicate EventOk(s: Sys, event: AuditEvent) {
    && event.fileId in s.inserted
    && event.fileId in s.born
    && (event.userId == s.born[event.fileId].userId
         || (event.userId == UNKNOWN_USER && event.what.UnknownLinkRejected?))
  }

  ghost predicate Logged(s: Sys, event: AuditEvent) {
    exists i :: 0 <= i < |s.store.audit| && s.store.audit[i] == event
  }

  predicate IsDeletion(event: AuditEvent, f: string, owner: string) {
    event.fileId == f && event.userId == owner && event.what.FileDeleted?
  }

  /** The owner's deletion of the file is in the log. */
  ghost predicate DeletionLogged(s: Sys, f: string) {
    f in s.born && exists i :: 0 <= i < |s.store.audit| && IsDeletion(s.store.audit[i], f, s.born[f].userId)
  }

  /** Who may read the history of `f`: its owner, and the placeholder user of rejected unknown links once there is
      one. */
  ghost predicate Entitled(s: Sys, f: string, userId: string) {
    && f in s.inserted && f in s.born
    && (userId == s.born[f].userId || (userId == UNKNOWN_USER && HasEventBy(s.store.audit, f, UNKNOWN_USER)))
  }

  /** The blob at `path` holds the bytes of an upload whose location it is. */
  ghost predicate BlobOk(cfg: Config, s: Sys, path: string, data: Bytes) {
    exists f :: f in s.born && path == PathOf(cfg, s, f) && data == s.born[f].upload.data
  }

  // ---------- requests in flight ----------

  ghost predicate UploadOk(cfg: Config, s: Sys, pid: nat, step: Uploads.Step) {
    match step
    case Saving(id, userId, upload) => id in s.born && s.born[id] == Birth(userId, upload, pid)
    case Inserting(id, userId, upload, path) => id in s.born && s.born[id] == Birth(userId, upload, pid)
        && path == PathOf(cfg, s, id)
    case Undoing(id, path) => id in s.born && s.born[id].pid == pid && path == PathOf(cfg, s, id)
  }

  ghost predicate RenameOk(cfg: Config, s: Sys, step: Renames.Step) {
    !step.Lookup? ==> SeenOwned(cfg, s, step.file, step.userId)
  }

  ghost predicate DeleteOk(cfg: Config, s: Sys, step: Deletes.Step) {
    match step
    case Lookup(_, _) => true
    case Logging(file, userId) => SeenOwned(cfg, s, file, userId)
    case RemovingRow(file) => Seen(cfg, s, file) && DeletionLogged(s, file.id)
    case RemovingBlob(file) => Seen(cfg, s, file) && DeletionLogged(s, file.id)
  }

  ghost predicate SignOk(cfg: Config, s: Sys, pid: nat, step: Signs.Step) {
    && 1 <= step.ttlSeconds <= cfg.maxTtlSeconds
    && (!step.Lookup? ==> SeenOwned(cfg, s, step.file, step.userId))
    && (step.Inserting? || step.Logging? ==>
          && step.linkId in s.drafts && s.drafts[step.linkId] == Draft(step.file.id, pid)
          && ExpiryInRange(step.expiresAt) && step.expiresAt <= s.clock / 1000 + step.ttlSeconds)
  }

  ghost predicate RevokeOk(cfg: Config, s: Sys, step: Revokes.Step) {
    !step.Lookup? ==> SeenOwned(cfg, s, step.file, step.userId) && IsUuid(step.linkId)
  }

  /** The URL verified when the request arrived. */
  ghost predicate ClaimOk(cfg: Config, s: Sys, claim: Claim) {
    && IsUuid(claim.fileId)
    && cfg.verify(claim.fileId, claim.expires, claim.signature, claim.verifiedAt)
         == Accepted(claim.fileId, claim.expiresAt)
    && claim.verifiedAt <= s.clock
  }

  ghost predicate ClaimedFile(cfg: Config, s: Sys, claim: Claim, file: FileRow) {
    ClaimOk(cfg, s, claim) && Seen(cfg, s, file) && file.id == Canon(claim.fileId)
  }

  /** The link row found for the claim. */
  ghost predicate Matched(cfg: Config, s: Sys, claim: Claim, file: FileRow, link: LinkRow) {
    ClaimedFile(cfg, s, claim, file) && LinkOk(cfg, s, link) && link.fileId == file.id
        && link.signature == claim.signature
  }

  ghost predicate GrantLogged(cfg: Config, s: Sys, claim: Claim, file: FileRow, link: LinkRow) {
    Matched(cfg, s, claim, file, link) && link.revokedAt.None?
        && Logged(s, Downloads.VerdictEvent(file, Downloads.Granted(link)))
  }

  ghost predicate DownloadOk(cfg: Config, s: Sys, step: Downloads.Step) {
    match step
    case Lookup(claim) => ClaimOk(cfg, s, claim)
    case Redeeming(claim, file) => ClaimedFile(cfg, s, claim, file)
    case Logging(claim, file, verdict) =>
      && ClaimedFile(cfg, s, claim, file)
      && (verdict.WasRevoked? ==> Matched(cfg, s, claim, file, verdict.link) && verdict.link.revokedAt.Some?)
      && (verdict.Granted? ==> Matched(cfg, s, claim, file, verdict.link) && verdict.link.revokedAt.None?)
    case Probing(claim, file, link) => GrantLogged(cfg, s, claim, file, link)
    case Reading(claim, file, link) => GrantLogged(cfg, s, claim, file, link)
  }

  ghost predicate HistoryOk(s: Sys, step: Histories.Step) {
    IsUuid(step.fileId) && (step.Listing? ==> Entitled(s, Canon(step.fileId), step.userId))
  }

  /** What a caller may rely on. */
  ghost predicate ResponseOk(cfg: Config, s: Sys, response: Response) {
    match response
    case Uploaded(row) => Seen(cfg, s, row)
    case Downloaded(file, bytes, claim, link) => GrantLogged(cfg, s, claim, file, link)
        && bytes == s.born[file.id].upload.data
    case History(fileId, userId, events) =>
      Entitled(s, Canon(fileId), userId) && forall i :: 0 <= i < |events| ==> events[i].fileId == Canon(fileId)
    case _ => true
  }

  ghost predicate RequestOk(cfg: Config, s: Sys, pid: nat, r: Request) {
    match r
    case Upping(u) => UploadOk(cfg, s, pid, u)
    case Renaming(n) => RenameOk(cfg, s, n)
    case Deleting(d) => DeleteOk(cfg, s, d)
    case Signing(g) => SignOk(cfg, s, pid, g)
    case Revoking(v) => RevokeOk(cfg, s, v)
    case Downloading(w) => DownloadOk(cfg, s, w)
    case Reviewing(h) => HistoryOk(s, h)
    case Done(response) => ResponseOk(cfg, s, response)
  }

  // ---------- the invariant ----------

  ghost predicate BirthsOk(cfg: Config, s: Sys) {
    && IdsTracked(s)
    && 0 <= s.clock <= MAX_TIME
    && s.inserted <= s.born.Keys
    && (forall id :: id in s.used ==> CanonicalUuid(id))
    && (forall f :: f in s.born ==>
         CanonicalUuid(f) && 0 < |s.born[f].upload.data| <= cfg.maxUploadBytes && s.born[f].pid in s.procs)
  }

  ghost predicate FilesOk(cfg: Config, s: Sys) {
    forall f :: f in s.store.files ==> s.store.files[f].id == f && Seen(cfg, s, s.store.files[f])
  }

  ghost predicate BlobsOk(cfg: Config, s: Sys) {
    forall p :: p in s.store.blobs ==> BlobOk(cfg, s, p, s.store.blobs[p])
  }

  ghost predicate LinksOk(cfg: Config, s: Sys) {
    forall l :: l in s.store.links ==> LinkOk(cfg, s, s.store.links[l])
  }

  ghost predicate AuditOk(s: Sys) {
    forall i :: 0 <= i < |s.store.audit| ==> EventOk(s, s.store.audit[i])
  }

  /** A file that had a row and has none was deleted by its owner, on the record. */
  ghost predicate DeathsOk(s: Sys) {
    forall f :: f in s.inserted && f !in s.store.files ==> DeletionLogged(s, f)
  }

  ghost predicate RequestsOk(cfg: Config, s: Sys) {
    forall pid :: pid in s.procs ==> RequestOk(cfg, s, pid, s.procs[pid])
  }

  ghost predicate Inv(cfg: Config, s: Sys) {
    && Constraints(s.store)
    && BirthsOk(cfg, s)
    && FilesOk(cfg, s)
    && BlobsOk(cfg, s)
    && LinksOk(cfg, s)
    && AuditOk(s)
    && DeathsOk(s)
    && RequestsOk(cfg, s)
  }

  // ---------- stability: what a request relies on survives every step of the others ----------

  lemma SeenStable(cfg: Config, s: Sys, t: Sys, file: FileRow)
    requires Grows(s, t) && Seen(cfg, s, file)
    ensures Seen(cfg, t, file)
  {
  }

  lemma LinkStable(cfg: Config, s: Sys, t: Sys, link: LinkRow)
    requires Grows(s, t) && LinkOk(cfg, s, link)
    ensures LinkOk(cfg, t, link)
  {
  }

  lemma EventStable(s: Sys, t: Sys, event: AuditEvent)
    requires Grows(s, t) && EventOk(s, event)
    ensures EventOk(t, event)
  {
  }

  lemma BlobStable(cfg: Config, s: Sys, t: Sys, path: string, data: Bytes)
    requires Grows(s, t) && BlobOk(cfg, s, path, data)
    ensures BlobOk(cfg, t, path, data)
  {
    var f :| f in s.born && path == PathOf(cfg, s, f) && data == s.born[f].upload.data;
    assert path == PathOf(cfg, t, f);
  }

  lemma LoggedStable(s: Sys, t: Sys, event: AuditEvent)
    requires Grows(s, t) && Logged(s, event)
    ensures Logged(t, event)
  {
    var i :| 0 <= i < |s.store.audit| && s.store.audit[i] == event;
    assert t.store.audit[i] == event;
  }

  lemma DeletionLoggedStable(s: Sys, t: Sys, f: string)
    requires Grows(s, t) && DeletionLogged(s, f)
    ensures DeletionLogged(t, f)
  {
    var i :| 0 <= i < |s.store.audit| && IsDeletion(s.store.audit[i], f, s.born[f].userId);
    assert IsDeletion(t.store.audit[i], f, t.born[f].userId);
  }

  lemma EntitledStable(s: Sys, t: Sys, f: string, userId: string)
    requires Grows(s, t) && Entitled(s, f, userId)
    ensures Entitled(t, f, userId)
  {
    if userId != s.born[f].userId {
      var i :| 0 <= i < |s.store.audit| && s.store.audit[i].fileId == f && s.store.audit[i].userId == UNKNOWN_USER;
      assert t.store.audit[i] == s.store.audit[i];
    }
  }

  lemma MatchedStable(cfg: Config, s: Sys, t: Sys, claim: Claim, file: FileRow, link: LinkRow)
    requires Grows(s, t) && Matched(cfg, s, claim, file, link)
    ensures Matched(cfg, t, claim, file, link)
  {
    SeenStable(cfg, s, t, file);
    LinkStable(cfg, s, t, link);
  }

  lemma GrantStable(cfg: Config, s: Sys, t: Sys, claim: Claim, file: FileRow, link: LinkRow)
    requires Grows(s, t) && GrantLogged(cfg, s, claim, file, link)
    ensures GrantLogged(cfg, t, claim, file, link)
  {
    MatchedStable(cfg, s, t, claim, file, link);
    LoggedStable(s, t, Downloads.VerdictEvent(file, Downloads.Granted(link)));
  }

  lemma DeleteStable(cfg: Config, s: Sys, t: Sys, step: Deletes.Step)
    requires Grows(s, t) && DeleteOk(cfg, s, step)
    ensures DeleteOk(cfg, t, step)
  {
    if !step.Lookup? {
      SeenStable(cfg, s, t, step.file);
      if !step.Logging? {
        DeletionLoggedStable(s, t, step.file.id);
      }
    }
  }

  lemma DownloadStable(cfg: Config, s: Sys, t: Sys, step: Downloads.Step)
    requires Grows(s, t) && DownloadOk(cfg, s, step)
    ensures DownloadOk(cfg, t, step)
  {
    match step
    case Lookup(_) =>
    case Redeeming(_, file) => SeenStable(cfg, s, t, file);
    case Logging(claim, file, verdict) =>
      SeenStable(cfg, s, t, file);
      if !verdict.NotIssued? {
        MatchedStable(cfg, s, t, claim, file, verdict.link);
      }
    case Probing(claim, file, link) => GrantStable(cfg, s, t, claim, file, link);
    case Reading(claim, file, link) => GrantStable(cfg, s, t, claim, file, link);
  }

  lemma ResponseStable(cfg: Config, s: Sys, t: Sys, response: Response)
    requires Grows(s, t) && ResponseOk(cfg, s, response)
    ensures ResponseOk(cfg, t, response)
  {
    match response
    case Uploaded(row) => SeenStable(cfg, s, t, row);
    case Downloaded(file, bytes, claim, link) => GrantStable(cfg, s, t, claim, file, link);
    case History(fileId, userId, events) => EntitledStable(s, t, Canon(fileId), userId);
    case _ =>
  }

  lemma RequestStable(cfg: Config, s: Sys, t: Sys, pid: nat, r: Request)
    requires Grows(s, t) && RequestOk(cfg, s, pid, r)
    ensures RequestOk(cfg, t, pid, r)
  {
    match r
    case Upping(u) =>
    case Renaming(n) => if !n.Lookup? { SeenStable(cfg, s, t, n.file); }
    case Deleting(d) => DeleteStable(cfg, s, t, d);
    case Signing(g) => if !g.Lookup? { SeenStable(cfg, s, t, g.file); }
    case Revoking(v) => if !v.Lookup? { SeenStable(cfg, s, t, v.file); }
    case Downloading(w) => DownloadStable(cfg, s, t, w);
    case Reviewing(h) => if h.Listing? { EntitledStable(s, t, Canon(h.fileId), h.userId); }
    case Done(response) => ResponseStable(cfg, s, t, response);
  }

  // ---------- the parts of the invariant, one at a time ----------

  lemma RequestInv(cfg: Config, s: Sys, pid: nat)
    requires Inv(cfg, s) && pid in s.procs
    ensures RequestOk(cfg, s, pid, s.procs[pid])
  {
  }

  lemma LinkInv(cfg: Config, s: Sys, l: string)
    requires Inv(cfg, s) && l in s.store.links
    ensures LinkOk(cfg, s, s.store.links[l]) && s.store.links[l].id == l && s.store.links[l].fileId in s.store.files
  {
  }

  lemma ConstraintsInv(cfg: Config, s: Sys)
    requires Inv(cfg, s)
    ensures Constraints(s.store)
  {
  }

  lemma FileInv(cfg: Config, s: Sys, f: string)
    requires Inv(cfg, s) && f in s.store.files
    ensures Seen(cfg, s, s.store.files[f]) && s.store.files[f].id == f && CanonicalUuid(f)
  {
  }

  lemma BirthInv(cfg: Config, s: Sys, f: string)
    requires Inv(cfg, s) && f in s.born
    ensures CanonicalUuid(f) && s.born[f].pid in s.procs && f in s.used
  {
  }
}
