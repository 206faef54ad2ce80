/** What the services share: settings, inputs, answers, and the shape of a request in flight. */
module Domain {
  import opened Wrappers
  import opened UrlSigner
  import opened Tables

  datatype Upload = Upload(filename: string, contentType: string, data: Bytes)

  /** What the services are built from: the signer's two operations, `String.prototype.trim`, the storage's
      naming scheme, and the limits. */
  datatype Config = Config(
    signature: (string, int) -> string,
    verify: (string, string, string, int) -> Verification,
    trim: string -> string,
    locate: (string, string) -> string,
    maxUploadBytes: nat,
    maxTtlSeconds: nat)

  /** The codes of the domain errors the services throw. */
  datatype Code =
    | MissingUser | MissingFilename | EmptyFile | FileTooLarge
    | InvalidId | FileNotFound | Forbidden
    | NoUpdates | InvalidFilename | InvalidTtl | SignedLinkNotFound
    | InvalidSignedUrl | UnknownLink | LinkIsRevoked | BlobMissing

  /** What a download URL claims, and when its signature and expiry were checked. */
  datatype Claim = Claim(fileId: string, expires: string, signature: string, verifiedAt: int, expiresAt: int)

  /** `Broken` is an infrastructure error, which carries no domain code. The claim and the link in
      `Downloaded` record what the download was granted on; the caller receives the row and the bytes. */
  datatype Response =
    | Uploaded(row: FileRow)
    | Renamed(updated: Option<FileRow>)
    | Deleted
    | Signed(linkId: string, fileId: string, expiresAt: int, ttlSeconds: int, signature: string)
    | Revoked
    | Downloaded(file: FileRow, bytes: Bytes, claim: Claim, link: LinkRow)
    | History(fileId: string, userId: string, events: seq<AuditEvent>)
    | Rejected(code: Code)
    | Broken
    | Crashed

  /** A service after a reply: waiting again, or finished. */
  datatype Progress<+S> = Goes(step: S) | Ends(response: Response)

  const UNKNOWN_USER := "unknown"

  function Refuse<S>(code: Code): Progress<S> {
    Ends(Rejected(code))
  }

  /** `findById` and its like answer with a row or null. */
  function FileOf(reply: Reply): Option<FileRow> {
    if reply.File? then reply.file else None
  }

  function LinkOf(reply: Reply): Option<LinkRow> {
    if reply.Link? then reply.link else None
  }

  predicate Yes(reply: Reply) {
    reply.Flag? && reply.value
  }

  /** `FileAccessService.getOwned` after its lookup. */
  function Owned(file: Option<FileRow>, userId: string): Result<FileRow, Code> {
    if file.None? then Err(FileNotFound)
    else if file.value.userId != userId then Err(Forbidden)
    else Ok(file.value)
  }
}

// Each service below is the list of calls it awaits. `Await` is the pending call; `Resume` is the code from
// the end of that call to the next await, the return or the throw; `Begin` the code before the first await.

module Uploads {
  import opened Wrappers
  import opened Tables
  import opened Domain

  datatype Step =
    | Saving(id: string, userId: string, upload: Upload)
    | Inserting(id: string, userId: string, upload: Upload, path: string)
    | Undoing(id: string, path: string)

  const OCTET_STREAM := "application/octet-stream"

  /** `UploadFileService.validate`. */
  function Fault(cfg: Config, userId: string, upload: Upload): Option<Code> {
    if cfg.trim(userId) == "" then Some(MissingUser)
    else if cfg.trim(upload.filename) == "" then Some(MissingFilename)
    else if |upload.data| == 0 then Some(EmptyFile)
    else if |upload.data| > cfg.maxUploadBytes then Some(FileTooLarge)
    else None
  }

  function NewRow(id: string, userId: string, upload: Upload, path: string): FileRow {
    FileRow(id, userId, upload.filename, if upload.contentType == "" then OCTET_STREAM else upload.contentType,
            |upload.data|, path)
  }

  /** `newId` is the UUID drawn for the file. */
  function Begin(cfg: Config, userId: string, upload: Upload, newId: string): Progress<Step> {
    match Fault(cfg, userId, upload)
    case Some(code) => Refuse(code)
    case None => Goes(Saving(newId, userId, upload))
  }

  function Await(cfg: Config, step: Step): Call {
    match step
    case Saving(id, _, upload) => OnBlobs(Save(cfg.locate(id, upload.filename), upload.data))
    case Inserting(id, userId, upload, path) => OnFiles(InsertFile(NewRow(id, userId, upload, path)))
    case Undoing(_, path) => OnBlobs(Remove(path))
  }

  function Resume(cfg: Config, step: Step, reply: Reply): Progress<Step> {
    match step
    case Saving(id, userId, upload) =>
      if reply.Thrown? then Ends(Broken) else Goes(Inserting(id, userId, upload, cfg.locate(id, upload.filename)))
    case Inserting(id, userId, upload, path) =>
      if reply.Thrown? then Goes(Undoing(id, path)) else Ends(Uploaded(NewRow(id, userId, upload, path)))
    case Undoing(_, _) => Ends(Broken)
  }
}

module Renames {
  import opened Wrappers
  import opened Codec
  import opened Tables
  import opened Domain

  datatype Step =
    | Lookup(fileId: string, userId: string, newName: Option<string>)
    | Renaming(file: FileRow, userId: string, filename: string)
    | Logging(file: FileRow, userId: string, filename: string, updated: Option<FileRow>)

  function Begin(fileId: string, userId: string, newName: Option<string>): Progress<Step> {
    if IsUuid(fileId) then Goes(Lookup(fileId, userId, newName)) else Refuse(InvalidId)
  }

  function Await(step: Step): Call {
    match step
    case Lookup(fileId, _, _) => OnFiles(FindFile(Canon(fileId)))
    case Renaming(file, _, filename) => OnFiles(RenameFile(file.id, filename))
    case Logging(file, userId, filename, _) =>
      OnAudit(Append(AuditEvent(file.id, userId, FileRenamed(file.filename, filename))))
  }

  function Resume(cfg: Config, step: Step, reply: Reply): Progress<Step> {
    if reply.Thrown? then Ends(Broken) else
    match step
    case Lookup(_, userId, newName) =>
      (match Owned(FileOf(reply), userId)
       case Err(code) => Refuse(code)
       case Ok(file) =>
         if newName.None? then Refuse(NoUpdates)
         else if cfg.trim(newName.value) == "" then Refuse(InvalidFilename)
         else Goes(Renaming(file, userId, cfg.trim(newName.value))))
    case Renaming(file, userId, filename) => Goes(Logging(file, userId, filename, FileOf(reply)))
    case Logging(_, _, _, updated) => Ends(Renamed(updated))
  }
}

module Deletes {
  import opened Codec
  import opened Tables
  import opened Domain

  datatype Step =
    | Lookup(fileId: string, userId: string)
    | Logging(file: FileRow, userId: string)
    | RemovingRow(file: FileRow)
    | RemovingBlob(file: FileRow)

  function Begin(fileId: string, userId: string): Progress<Step> {
    if IsUuid(fileId) then Goes(Lookup(fileId, userId)) else Refuse(InvalidId)
  }

  function Await(step: Step): Call {
    match step
    case Lookup(fileId, _) => OnFiles(FindFile(Canon(fileId)))
    case Logging(file, userId) =>
      OnAudit(Append(AuditEvent(file.id, userId, FileDeleted(file.filename, file.sizeBytes, file.contentType))))
    case RemovingRow(file) => OnFiles(DeleteFile(file.id))
    case RemovingBlob(file) => OnBlobs(Remove(file.storagePath))
  }

  function Resume(step: Step, reply: Reply): Progress<Step> {
    if reply.Thrown? then Ends(Broken) else
    match step
    case Lookup(_, userId) =>
      (match Owned(FileOf(reply), userId)
       case Err(code) => Refuse(code)
       case Ok(file) => Goes(Logging(file, userId)))
    case Logging(file, _) => Goes(RemovingRow(file))
    case RemovingRow(file) => Goes(RemovingBlob(file))
    case RemovingBlob(_) => Ends(Deleted)
  }
}

module Signs {
  import opened Wrappers
  import opened Codec
  import opened Tables
  import opened Domain

  datatype Step =
    | Lookup(fileId: string, userId: string, ttlSeconds: int)
    | Drawing(file: FileRow, userId: string, ttlSeconds: int)
    | Inserting(linkId: string, file: FileRow, userId: string, ttlSeconds: int, expiresAt: int)
    | Logging(linkId: string, file: FileRow, userId: string, ttlSeconds: int, expiresAt: int)

  function Begin(cfg: Config, fileId: string, userId: string, ttlSeconds: int): Progress<Step> {
    if ttlSeconds < 1 || ttlSeconds > cfg.maxTtlSeconds then Refuse(InvalidTtl)
    else if IsUuid(fileId) then Goes(Lookup(fileId, userId, ttlSeconds))
    else Refuse(InvalidId)
  }

  /** The local code between the ownership check and the insert: read the clock, sign, draw an id. */
  function Draw(step: Step, now: int, newId: string): Step
    requires step.Drawing?
  {
    Inserting(newId, step.file, step.userId, step.ttlSeconds, now / 1000 + step.ttlSeconds)
  }

  function Row(cfg: Config, linkId: string, file: FileRow, userId: string, ttlSeconds: int, expiresAt: int): LinkRow {
    LinkRow(linkId, file.id, userId, cfg.signature(file.id, expiresAt), ttlSeconds, expiresAt, None)
  }

  function Await(cfg: Config, step: Step): Call
    requires !step.Drawing?
  {
    match step
    case Lookup(fileId, _, _) => OnFiles(FindFile(Canon(fileId)))
    case Inserting(linkId, file, userId, ttlSeconds, expiresAt) =>
      OnLinks(InsertLink(Row(cfg, linkId, file, userId, ttlSeconds, expiresAt)))
    case Logging(_, file, userId, ttlSeconds, expiresAt) =>
      OnAudit(Append(AuditEvent(file.id, userId, LinkGenerated(ttlSeconds, expiresAt))))
  }

  function Resume(cfg: Config, step: Step, reply: Reply): Progress<Step>
    requires !step.Drawing?
  {
    if reply.Thrown? then Ends(Broken) else
    match step
    case Lookup(_, userId, ttlSeconds) =>
      (match Owned(FileOf(reply), userId)
       case Err(code) => Refuse(code)
       case Ok(file) => Goes(Drawing(file, userId, ttlSeconds)))
    case Inserting(linkId, file, userId, ttlSeconds, expiresAt) =>
        Goes(Logging(linkId, file, userId, ttlSeconds, expiresAt))
    case Logging(linkId, file, _, ttlSeconds, expiresAt) =>
      Ends(Signed(linkId, file.id, expiresAt, ttlSeconds, cfg.signature(file.id, expiresAt)))
  }
}

module Revokes {
  import opened Codec
  import opened Tables
  import opened Domain

  datatype Step =
    | Lookup(fileId: string, linkId: string, userId: string)
    | Revoking(file: FileRow, linkId: string, userId: string)
    | Logging(file: FileRow, linkId: string, userId: string)

  function Begin(fileId: string, linkId: string, userId: string): Progress<Step> {
    if IsUuid(fileId) then Goes(Lookup(fileId, linkId, userId)) else Refuse(InvalidId)
  }

  function Await(step: Step): Call {
    match step
    case Lookup(fileId, _, _) => OnFiles(FindFile(Canon(fileId)))
    case Revoking(file, linkId, _) => OnLinks(RevokeLink(Canon(linkId), file.id))
    case Logging(file, linkId, userId) => OnAudit(Append(AuditEvent(file.id, userId, LinkRevoked(linkId))))
  }

  function Resume(step: Step, reply: Reply): Progress<Step> {
    if reply.Thrown? then Ends(Broken) else
    match step
    case Lookup(_, linkId, userId) =>
      (match Owned(FileOf(reply), userId)
       case Err(code) => Refuse(code)
       case Ok(file) => if IsUuid(linkId) then Goes(Revoking(file, linkId, userId)) else Refuse(InvalidId))
    case Revoking(file, linkId, userId) => if Yes(reply) then Goes(Logging(file, linkId, userId))
        else Refuse(SignedLinkNotFound)
    case Logging(_, _, _) => Ends(Revoked)
  }
}

module Downloads {
  import opened Wrappers
  import opened Codec
  import opened Tables
  import opened Domain

  /** What the lookup of the link found. */
  datatype Verdict = NotIssued | WasRevoked(link: LinkRow) | Granted(link: LinkRow)

  datatype Step =
    | Lookup(claim: Claim)
    | Redeeming(claim: Claim, file: FileRow)
    | Logging(claim: Claim, file: FileRow, verdict: Verdict)
    | Probing(claim: Claim, file: FileRow, link: LinkRow)
    | Reading(claim: Claim, file: FileRow, link: LinkRow)

  function Begin(cfg: Config, fileId: string, expires: string, signature: string, now: int): Progress<Step> {
    match cfg.verify(fileId, expires, signature, now)
    case Refused(_) => Refuse(InvalidSignedUrl)
    case Accepted(f, expiresAt) =>
      if IsUuid(f) then Goes(Lookup(Claim(f, expires, signature, now, expiresAt))) else Refuse(InvalidId)
  }

  function VerdictOn(link: Option<LinkRow>): Verdict {
    if link.None? then NotIssued
    else if link.value.revokedAt.Some? then WasRevoked(link.value)
    else Granted(link.value)
  }

  function VerdictEvent(file: FileRow, verdict: Verdict): AuditEvent {
    match verdict
    case NotIssued => AuditEvent(file.id, UNKNOWN_USER, UnknownLinkRejected)
    case WasRevoked(link) => AuditEvent(file.id, link.userId,
        RevokedLinkRejected(link.id, link.ttlSeconds, link.expiresAt))
    case Granted(link) => AuditEvent(file.id, link.userId, LinkDownloaded(link.id, link.ttlSeconds, link.expiresAt))
  }

  function Await(step: Step): Call {
    match step
    case Lookup(claim) => OnFiles(FindFile(Canon(claim.fileId)))
    case Redeeming(claim, file) => OnLinks(FindLink(file.id, claim.signature))
    case Logging(_, file, verdict) => OnAudit(Append(VerdictEvent(file, verdict)))
    case Probing(_, file, _) => OnBlobs(Exists(file.storagePath))
    case Reading(_, file, _) => OnBlobs(Read(file.storagePath))
  }

  function Resume(step: Step, reply: Reply): Progress<Step> {
    if reply.Thrown? then Ends(Broken) else
    match step
    case Lookup(claim) =>
      var file := FileOf(reply);
      if file.None? then Refuse(FileNotFound) else Goes(Redeeming(claim, file.value))
    case Redeeming(claim, file) => Goes(Logging(claim, file, VerdictOn(LinkOf(reply))))
    case Logging(claim, file, verdict) =>
      (match verdict
       case NotIssued => Refuse(UnknownLink)
       case WasRevoked(_) => Refuse(LinkIsRevoked)
       case Granted(link) => Goes(Probing(claim, file, link)))
    case Probing(claim, file, link) => if Yes(reply) then Goes(Reading(claim, file, link)) else Refuse(BlobMissing)
    case Reading(claim, file, link) => Ends(Downloaded(file, if reply.Content? then reply.bytes else [], claim, link))
  }
}

module Histories {
  import opened Codec
  import opened Tables
  import opened Domain

  datatype Step =
    | Lookup(fileId: string, userId: string)
    | Consulting(fileId: string, userId: string)
    | Listing(fileId: string, userId: string)

  function Begin(fileId: string, userId: string): Progress<Step> {
    if IsUuid(fileId) then Goes(Lookup(fileId, userId)) else Refuse(InvalidId)
  }

  function Await(step: Step): Call {
    match step
    case Lookup(fileId, _) => OnFiles(FindFile(Canon(fileId)))
    case Consulting(fileId, userId) => OnAudit(HasEvent(Canon(fileId), userId))
    case Listing(fileId, _) => OnAudit(ListEvents(Canon(fileId)))
  }

  function Resume(step: Step, reply: Reply): Progress<Step> {
    if reply.Thrown? then Ends(Broken) else
    match step
    case Lookup(fileId, userId) =>
      var file := FileOf(reply);
      if file.None? then Goes(Consulting(fileId, userId))
      else if file.value.userId != userId then Refuse(Forbidden)
      else Goes(Listing(fileId, userId))
    case Consulting(fileId, userId) => if Yes(reply) then Goes(Listing(fileId, userId)) else Refuse(FileNotFound)
    case Listing(fileId, userId) => Ends(History(fileId, userId, if reply.Events? then reply.events else []))
  }
}

/** A request of any service. */
module Requests {
  import opened Wrappers
  import opened Tables
  import opened Domain
  import Uploads
  import Renames
  import Deletes
  import Signs
  import Revokes
  import Downloads
  import Histories

  datatype Ask =
    | AskUpload(userId: string, upload: Upload)
    | AskRename(fileId: string, userId: string, filename: Option<string>)
    | AskDelete(fileId: string, userId: string)
    | AskSign(fileId: string, userId: string, ttlSeconds: int)
    | AskRevoke(fileId: string, linkId: string, userId: string)
    | AskDownload(fileId: string, expires: string, signature: string)
    | AskHistory(fileId: string, userId: string)

  datatype Request =
    | Upping(u: Uploads.Step)
    | Renaming(n: Renames.Step)
    | Deleting(d: Deletes.Step)
    | Signing(g: Signs.Step)
    | Revoking(v: Revokes.Step)
    | Downloading(w: Downloads.Step)
    | Reviewing(h: Histories.Step)
    | Done(response: Response)

  function Wrap<S>(progress: Progress<S>, wrap: S -> Request): Request {
    match progress
    case Goes(step) => wrap(step)
    case Ends(response) => Done(response)
  }

  /** From the arrival of a request to its first await. */
  function Entry(cfg: Config, ask: Ask, now: int, newId: string): Request {
    match ask
    case AskUpload(userId, upload) => Wrap(Uploads.Begin(cfg, userId, upload, newId), u => Upping(u))
    case AskRename(fileId, userId, filename) => Wrap(Renames.Begin(fileId, userId, filename), n => Renaming(n))
    case AskDelete(fileId, userId) => Wrap(Deletes.Begin(fileId, userId), d => Deleting(d))
    case AskSign(fileId, userId, ttlSeconds) => Wrap(Signs.Begin(cfg, fileId, userId, ttlSeconds), g => Signing(g))
    case AskRevoke(fileId, linkId, userId) => Wrap(Revokes.Begin(fileId, linkId, userId), v => Revoking(v))
    case AskDownload(fileId, expires, signature) =>
      Wrap(Downloads.Begin(cfg, fileId, expires, signature, now), w => Downloading(w))
    case AskHistory(fileId, userId) => Wrap(Histories.Begin(fileId, userId), h => Reviewing(h))
  }

  /** A finished request awaits nothing, and neither does one about to draw a link id. */
  predicate Awaits(r: Request) {
    !r.Done? && !(r.Signing? && r.g.Drawing?)
  }

  function Await(cfg: Config, r: Request): Call
    requires Awaits(r)
  {
    match r
    case Upping(u) => Uploads.Await(cfg, u)
    case Renaming(n) => Renames.Await(n)
    case Deleting(d) => Deletes.Await(d)
    case Signing(g) => Signs.Await(cfg, g)
    case Revoking(v) => Revokes.Await(v)
    case Downloading(w) => Downloads.Await(w)
    case Reviewing(h) => Histories.Await(h)
  }

  function Resume(cfg: Config, r: Request, reply: Reply): Request
    requires Awaits(r)
  {
    match r
    case Upping(u) => Wrap(Uploads.Resume(cfg, u, reply), x => Upping(x))
    case Renaming(n) => Wrap(Renames.Resume(cfg, n, reply), x => Renaming(x))
    case Deleting(d) => Wrap(Deletes.Resume(d, reply), x => Deleting(x))
    case Signing(g) => Wrap(Signs.Resume(cfg, g, reply), x => Signing(x))
    case Revoking(v) => Wrap(Revokes.Resume(v, reply), x => Revoking(x))
    case Downloading(w) => Wrap(Downloads.Resume(w, reply), x => Downloading(x))
    case Reviewing(h) => Wrap(Histories.Resume(h, reply), x => Reviewing(x))
  }
}
