/** The services as they are written: awaited calls one after the other, with early returns and compensation.
    An exception is the response it turns into. Each is proved to do what `Handle` says of its request. */
module Services {
  import opened Wrappers
  import opened Codec
  import opened Tables
  import opened Domain
  import opened Requests
  import opened Sequential
  import opened Backend
  import Uploads
  import Renames
  import Deletes
  import Signs
  import Revokes
  import Downloads
  import Histories

  class FileAccessService {
    const db: Stores

    constructor (db: Stores)
      ensures this.db == db
    {
      this.db := db;
    }

    method GetById(fileId: string) returns (r: Result<FileRow, Response>)
      requires db.Valid()
      modifies db
      ensures db.Valid()
      ensures !IsUuid(fileId) ==> db.State() == old(db.State()) && r == Err(Rejected(InvalidId))
      ensures IsUuid(fileId) ==>
                var (after, reply) := Serve(old(db.State()), OnFiles(FindFile(Canon(fileId))), db.course);
                db.State() == after
                && r == if reply.Thrown? then Err(Broken)
                        else if FileOf(reply).None? then Err(Rejected(FileNotFound))
                        else Ok(FileOf(reply).value)
    {
      if !IsUuid(fileId) {
        return Err(Rejected(InvalidId));
      }
      var reply := db.Invoke(OnFiles(FindFile(Canon(fileId))));
      if reply.Thrown? {
        return Err(Broken);
      }
      var file := FileOf(reply);
      if file.None? {
        return Err(Rejected(FileNotFound));
      }
      return Ok(file.value);
    }

    method GetOwned(fileId: string, userId: string) returns (r: Result<FileRow, Response>)
      requires db.Valid()
      modifies db
      ensures db.Valid()
      ensures !IsUuid(fileId) ==> db.State() == old(db.State()) && r == Err(Rejected(InvalidId))
      ensures IsUuid(fileId) ==>
                var (after, reply) := Serve(old(db.State()), OnFiles(FindFile(Canon(fileId))), db.course);
                db.State() == after
                && r == if reply.Thrown? then Err(Broken)
                        else match Owned(FileOf(reply), userId)
                             case Err(code) => Err(Rejected(code))
                             case Ok(file) => Ok(file)
    {
      hide Serve;
      var found := GetById(fileId);
      if found.Err? {
        return found;
      }
      if found.value.userId != userId {
        return Err(Rejected(Forbidden));
      }
      return found;
    }
  }

  class UploadFileService {
    const db: Stores
    const cfg: Config

    constructor (db: Stores, cfg: Config)
      ensures this.db == db && this.cfg == cfg
    {
      this.db, this.cfg := db, cfg;
    }

    method Execute(userId: string, upload: Upload) returns (response: Response)
      requires db.Valid()
      modifies db
      ensures db.Valid()
      ensures (db.State(), response) == Handle(cfg, old(db.State()), AskUpload(userId, upload), db.course)
    {
      hide Serve, Finish;
      var fault := Uploads.Fault(cfg, userId, upload);
      if fault.Some? {
        response := Rejected(fault.value);
        FinishEnds(cfg, db.State(), response, db.course);
        return;
      }
      var id := db.NewId();
      var path := cfg.locate(id, upload.filename);
      OneCall(cfg, db.State(), Upping(Uploads.Saving(id, userId, upload)), db.course);
      var saved := db.Invoke(OnBlobs(Save(path, upload.data)));
      if saved.Thrown? {
        FinishEnds(cfg, db.State(), Broken, db.course);
        return Broken;
      }
      var row := FileRow(id, userId, upload.filename,
                         if upload.contentType == "" then Uploads.OCTET_STREAM
                             else upload.contentType, |upload.data|, path);
      OneCall(cfg, db.State(), Upping(Uploads.Inserting(id, userId, upload, path)), db.course);
      var inserted := db.Invoke(OnFiles(InsertFile(row)));
      if inserted.Thrown? {
        OneCall(cfg, db.State(), Upping(Uploads.Undoing(id, path)), db.course);
        var _ := db.Invoke(OnBlobs(Remove(path)));
        response := Broken;
      } else {
        response := Uploaded(row);
      }
      FinishEnds(cfg, db.State(), response, db.course);
    }
  }

  class UpdateFileService {
    const db: Stores
    const access: FileAccessService
    const cfg: Config

    constructor (db: Stores, access: FileAccessService, cfg: Config)
      requires access.db == db
      ensures this.db == db && this.access == access && this.cfg == cfg
    {
      this.db, this.access, this.cfg := db, access, cfg;
    }

    method Execute(fileId: string, userId: string, newName: Option<string>) returns (response: Response)
      requires access.db == db && db.Valid()
      modifies db
      ensures db.Valid()
      ensures (db.State(), response) == Handle(cfg, old(db.State()), AskRename(fileId, userId, newName), db.course)
    {
      hide Serve, Finish, Canon, IsUuid;
      if IsUuid(fileId) {
        OneCall(cfg, db.State(), Request.Renaming(Renames.Lookup(fileId, userId, newName)), db.course);
      }
      var found := access.GetOwned(fileId, userId);
      if found.Err? {
        FinishEnds(cfg, db.State(), found.error, db.course);
        return found.error;
      }
      var file := found.value;
      if newName.None? {
        FinishEnds(cfg, db.State(), Rejected(NoUpdates), db.course);
        return Rejected(NoUpdates);
      }
      var filename := cfg.trim(newName.value);
      if filename == "" {
        FinishEnds(cfg, db.State(), Rejected(InvalidFilename), db.course);
        return Rejected(InvalidFilename);
      }
      OneCall(cfg, db.State(), Request.Renaming(Renames.Renaming(file, userId, filename)), db.course);
      var renamed := db.Invoke(OnFiles(RenameFile(file.id, filename)));
      if renamed.Thrown? {
        FinishEnds(cfg, db.State(), Broken, db.course);
        return Broken;
      }
      OneCall(cfg, db.State(), Request.Renaming(Renames.Logging(file, userId, filename, FileOf(renamed))), db.course);
      var logged := db.Invoke(OnAudit(Append(AuditEvent(file.id, userId, FileRenamed(file.filename, filename)))));
      response := if logged.Thrown? then Broken else Renamed(FileOf(renamed));
      FinishEnds(cfg, db.State(), response, db.course);
    }
  }

  class DeleteFileService {
    const db: Stores
    const access: FileAccessService
    const cfg: Config

    constructor (db: Stores, access: FileAccessService, cfg: Config)
      requires access.db == db
      ensures this.db == db && this.access == access && this.cfg == cfg
    {
      this.db, this.access, this.cfg := db, access, cfg;
    }

    method Execute(fileId: string, userId: string) returns (response: Response)
      requires access.db == db && db.Valid()
      modifies db
      ensures db.Valid()
      ensures (db.State(), response) == Handle(cfg, old(db.State()), AskDelete(fileId, userId), db.course)
    {
      hide Serve, Finish, Canon, IsUuid;
      if IsUuid(fileId) {
        OneCall(cfg, db.State(), Deleting(Deletes.Lookup(fileId, userId)), db.course);
      }
      var found := access.GetOwned(fileId, userId);
      if found.Err? {
        FinishEnds(cfg, db.State(), found.error, db.course);
        return found.error;
      }
      var file := found.value;
      OneCall(cfg, db.State(), Deleting(Deletes.Logging(file, userId)), db.course);
      var logged := db.Invoke(OnAudit(Append(
        AuditEvent(file.id, userId, FileDeleted(file.filename, file.sizeBytes, file.contentType)))));
      if logged.Thrown? {
        FinishEnds(cfg, db.State(), Broken, db.course);
        return Broken;
      }
      OneCall(cfg, db.State(), Deleting(Deletes.RemovingRow(file)), db.course);
      var removed := db.Invoke(OnFiles(DeleteFile(file.id)));
      if removed.Thrown? {
        FinishEnds(cfg, db.State(), Broken, db.course);
        return Broken;
      }
      OneCall(cfg, db.State(), Deleting(Deletes.RemovingBlob(file)), db.course);
      var gone := db.Invoke(OnBlobs(Remove(file.storagePath)));
      response := if gone.Thrown? then Broken else Deleted;
      FinishEnds(cfg, db.State(), response, db.course);
    }
  }

  class CreateSignedLinkService {
    const db: Stores
    const access: FileAccessService
    const cfg: Config

    constructor (db: Stores, access: FileAccessService, cfg: Config)
      requires access.db == db
      ensures this.db == db && this.access == access && this.cfg == cfg
    {
      this.db, this.access, this.cfg := db, access, cfg;
    }

    method Execute(fileId: string, userId: string, ttlSeconds: int) returns (response: Response)
      requires access.db == db && db.Valid()
      modifies db
      ensures db.Valid()
      ensures (db.State(), response) == Handle(cfg, old(db.State()), AskSign(fileId, userId, ttlSeconds), db.course)
    {
      hide Serve, Finish, Canon, IsUuid;
      if ttlSeconds < 1 || ttlSeconds > cfg.maxTtlSeconds {
        FinishEnds(cfg, db.State(), Rejected(InvalidTtl), db.course);
        return Rejected(InvalidTtl);
      }
      if IsUuid(fileId) {
        OneCall(cfg, db.State(), Signing(Signs.Lookup(fileId, userId, ttlSeconds)), db.course);
      }
      var found := access.GetOwned(fileId, userId);
      if found.Err? {
        FinishEnds(cfg, db.State(), found.error, db.course);
        return found.error;
      }
      var file := found.value;
      var expiresAt := db.Now() / 1000 + ttlSeconds;
      var signature := cfg.signature(file.id, expiresAt);
      var linkId := db.NewId();
      DrawsAndGoesOn(cfg, db.State(), Signs.Drawing(file, userId, ttlSeconds), db.course);
      OneCall(cfg, db.State(), Signing(Signs.Inserting(linkId, file, userId, ttlSeconds, expiresAt)), db.course);
      var inserted := db.Invoke(OnLinks(InsertLink(LinkRow(linkId, file.id, userId, signature, ttlSeconds,
          expiresAt, None))));
      if inserted.Thrown? {
        FinishEnds(cfg, db.State(), Broken, db.course);
        return Broken;
      }
      OneCall(cfg, db.State(), Signing(Signs.Logging(linkId, file, userId, ttlSeconds, expiresAt)), db.course);
      var logged := db.Invoke(OnAudit(Append(AuditEvent(file.id, userId, LinkGenerated(ttlSeconds, expiresAt)))));
      response := if logged.Thrown? then Broken else Signed(linkId, file.id, expiresAt, ttlSeconds, signature);
      FinishEnds(cfg, db.State(), response, db.course);
    }
  }

  lemma DrawsAndGoesOn(cfg: Config, w: World, g: Signs.Step, course: Course)
    requires g.Drawing?
    ensures Finish(cfg, w, Signing(g), course)
            == Finish(cfg, w, Signing(Signs.Draw(g, course(w.turn).now, course(w.turn).id)), course)
  {
  }

  class RevokeSignedLinkService {
    const db: Stores
    const access: FileAccessService
    const cfg: Config

    constructor (db: Stores, access: FileAccessService, cfg: Config)
      requires access.db == db
      ensures this.db == db && this.access == access && this.cfg == cfg
    {
      this.db, this.access, this.cfg := db, access, cfg;
    }

    method Execute(fileId: string, linkId: string, userId: string) returns (response: Response)
      requires access.db == db && db.Valid()
      modifies db
      ensures db.Valid()
      ensures (db.State(), response) == Handle(cfg, old(db.State()), AskRevoke(fileId, linkId, userId), db.course)
    {
      hide Serve, Finish, Canon, IsUuid;
      if IsUuid(fileId) {
        OneCall(cfg, db.State(), Revoking(Revokes.Lookup(fileId, linkId, userId)), db.course);
      }
      var found := access.GetOwned(fileId, userId);
      if found.Err? {
        FinishEnds(cfg, db.State(), found.error, db.course);
        return found.error;
      }
      var file := found.value;
      if !IsUuid(linkId) {
        FinishEnds(cfg, db.State(), Rejected(InvalidId), db.course);
        return Rejected(InvalidId);
      }
      OneCall(cfg, db.State(), Revoking(Revokes.Revoking(file, linkId, userId)), db.course);
      var revoked := db.Invoke(OnLinks(RevokeLink(Canon(linkId), file.id)));
      if revoked.Thrown? {
        FinishEnds(cfg, db.State(), Broken, db.course);
        return Broken;
      }
      if !Yes(revoked) {
        FinishEnds(cfg, db.State(), Rejected(SignedLinkNotFound), db.course);
        return Rejected(SignedLinkNotFound);
      }
      OneCall(cfg, db.State(), Revoking(Revokes.Logging(file, linkId, userId)), db.course);
      var logged := db.Invoke(OnAudit(Append(AuditEvent(file.id, userId, LinkRevoked(linkId)))));
      response := if logged.Thrown? then Broken else Revoked;
      FinishEnds(cfg, db.State(), response, db.course);
    }
  }

  class RedeemSignedLinkService {
    const db: Stores

    constructor (db: Stores)
      ensures this.db == db
    {
      this.db := db;
    }

    /** `claim` and `file` only say which download this is; the code reads the file's id and the signature. */
    method Execute(ghost cfg: Config, ghost claim: Claim, file: FileRow, signature: string)
      returns (r: Result<LinkRow, Response>)
      requires db.Valid() && signature == claim.signature
      modifies db
      ensures db.Valid()
      ensures Finish(cfg, old(db.State()), Downloading(Downloads.Redeeming(claim, file)), db.course)
              == match r
                 case Ok(link) => Finish(cfg, db.State(), Downloading(Downloads.Probing(claim, file, link)), db.course)
                 case Err(response) => (db.State(), response)
    {
      hide Serve, Finish;
      OneCall(cfg, db.State(), Downloading(Downloads.Redeeming(claim, file)), db.course);
      var reply := db.Invoke(OnLinks(FindLink(file.id, signature)));
      if reply.Thrown? {
        FinishEnds(cfg, db.State(), Broken, db.course);
        return Err(Broken);
      }
      var link := LinkOf(reply);
      ghost var verdict := Downloads.VerdictOn(link);
      OneCall(cfg, db.State(), Downloading(Downloads.Logging(claim, file, verdict)), db.course);
      if link.None? {
        var logged := db.Invoke(OnAudit(Append(AuditEvent(file.id, UNKNOWN_USER, UnknownLinkRejected))));
        r := Err(if logged.Thrown? then Broken else Rejected(UnknownLink));
      } else if link.value.revokedAt.Some? {
        var l := link.value;
        var logged := db.Invoke(OnAudit(Append(AuditEvent(file.id, l.userId,
            RevokedLinkRejected(l.id, l.ttlSeconds, l.expiresAt)))));
        r := Err(if logged.Thrown? then Broken else Rejected(LinkIsRevoked));
      } else {
        var l := link.value;
        var logged := db.Invoke(OnAudit(Append(AuditEvent(file.id, l.userId,
            LinkDownloaded(l.id, l.ttlSeconds, l.expiresAt)))));
        r := if logged.Thrown? then Err(Broken) else Ok(l);
      }
      if r.Err? {
        FinishEnds(cfg, db.State(), r.error, db.course);
      }
    }
  }

  class DownloadFileService {
    const db: Stores
    const access: FileAccessService
    const redeem: RedeemSignedLinkService
    const cfg: Config

    constructor (db: Stores, access: FileAccessService, redeem: RedeemSignedLinkService, cfg: Config)
      requires access.db == db && redeem.db == db
      ensures this.db == db && this.access == access && this.redeem == redeem && this.cfg == cfg
    {
      this.db, this.access, this.redeem, this.cfg := db, access, redeem, cfg;
    }

    method Execute(fileId: string, expires: string, signature: string) returns (response: Response)
      requires access.db == db && redeem.db == db && db.Valid()
      modifies db
      ensures db.Valid()
      ensures (db.State(), response) == Handle(cfg, old(db.State()), AskDownload(fileId, expires, signature), db.course)
    {
      hide Serve, Finish, Canon, IsUuid;
      var now := db.Now();
      var verification := cfg.verify(fileId, expires, signature, now);
      if verification.Refused? {
        FinishEnds(cfg, db.State(), Rejected(InvalidSignedUrl), db.course);
        return Rejected(InvalidSignedUrl);
      }
      var claim := Claim(verification.fileId, expires, signature, now, verification.expiresAt);
      if IsUuid(verification.fileId) {
        OneCall(cfg, db.State(), Downloading(Downloads.Lookup(claim)), db.course);
      }
      var found := access.GetById(verification.fileId);
      if found.Err? {
        FinishEnds(cfg, db.State(), found.error, db.course);
        return found.error;
      }
      var file := found.value;
      var redeemed := redeem.Execute(cfg, claim, file, signature);
      if redeemed.Err? {
        return redeemed.error;
      }
      OneCall(cfg, db.State(), Downloading(Downloads.Probing(claim, file, redeemed.value)), db.course);
      var there := db.Invoke(OnBlobs(Exists(file.storagePath)));
      if there.Thrown? {
        FinishEnds(cfg, db.State(), Broken, db.course);
        return Broken;
      }
      if !Yes(there) {
        FinishEnds(cfg, db.State(), Rejected(BlobMissing), db.course);
        return Rejected(BlobMissing);
      }
      OneCall(cfg, db.State(), Downloading(Downloads.Reading(claim, file, redeemed.value)), db.course);
      var read := db.Invoke(OnBlobs(Read(file.storagePath)));
      response := if read.Thrown? then Broken
                  else Downloaded(file, if read.Content? then read.bytes else [], claim, redeemed.value);
      FinishEnds(cfg, db.State(), response, db.course);
    }
  }

  class ListAuditEventsService {
    const db: Stores
    const cfg: Config

    constructor (db: Stores, cfg: Config)
      ensures this.db == db && this.cfg == cfg
    {
      this.db, this.cfg := db, cfg;
    }

    method Execute(fileId: string, userId: string) returns (response: Response)
      requires db.Valid()
      modifies db
      ensures db.Valid()
      ensures (db.State(), response) == Handle(cfg, old(db.State()), AskHistory(fileId, userId), db.course)
    {
      hide Serve, Finish, Canon, IsUuid;
      if !IsUuid(fileId) {
        FinishEnds(cfg, db.State(), Rejected(InvalidId), db.course);
        return Rejected(InvalidId);
      }
      OneCall(cfg, db.State(), Reviewing(Histories.Lookup(fileId, userId)), db.course);
      var reply := db.Invoke(OnFiles(FindFile(Canon(fileId))));
      if reply.Thrown? {
        FinishEnds(cfg, db.State(), Broken, db.course);
        return Broken;
      }
      var file := FileOf(reply);
      if file.Some? {
        if file.value.userId != userId {
          FinishEnds(cfg, db.State(), Rejected(Forbidden), db.course);
          return Rejected(Forbidden);
        }
      } else {
        OneCall(cfg, db.State(), Reviewing(Histories.Consulting(fileId, userId)), db.course);
        var own := db.Invoke(OnAudit(HasEvent(Canon(fileId), userId)));
        if own.Thrown? || !Yes(own) {
          response := if own.Thrown? then Broken else Rejected(FileNotFound);
          FinishEnds(cfg, db.State(), response, db.course);
          return;
        }
      }
      OneCall(cfg, db.State(), Reviewing(Histories.Listing(fileId, userId)), db.course);
      var listed := db.Invoke(OnAudit(ListEvents(Canon(fileId))));
      response := if listed.Thrown? then Broken
                  else History(fileId, userId, if listed.Events? then listed.events else []);
      FinishEnds(cfg, db.State(), response, db.course);
    }
  }
}
