/** One request, one event: handled alone and without failures, a request changes the tables and the blobs by exactly
    what the one event it writes reports. */
module Accounting {
  import opened Wrappers
  import opened Codec
  import opened Tables
  import opened Domain
  import opened Requests
  import opened System
  import opened Invariants
  import opened Sequential
  import opened Outcomes

  // ---------- one request, one event ----------

  /** `t` differs from `s` by exactly the change that `event` reports. */
  ghost predicate Mirrors(s: Store, t: Store, event: AuditEvent) {
    var f := event.fileId;
    && f in s.files
    && t.audit == s.audit + [event]
    && t.blobs == (if event.what.FileDeleted? then s.blobs - {s.files[f].storagePath} else s.blobs)
    && match event.what
       case LinkGenerated(ttlSeconds, expiresAt) =>
         t.files == s.files
         && exists l :: l !in s.links && l in t.links && t.links == s.links[l := t.links[l]]
              && IsLink(t.links[l], f, ttlSeconds, expiresAt) && t.links[l].revokedAt.None?
       case LinkRevoked(linkId) =>
         var l := Canon(linkId);
         t.files == s.files && Revocable(s, l, f)
         && l in t.links && t.links == s.links[l := s.links[l].(revokedAt := t.links[l].revokedAt)]
              && t.links[l].revokedAt.Some?
       case FileRenamed(previous, name) =>
         t.links == s.links && s.files[f].filename == previous && t.files == s.files[f := s.files[f].(filename := name)]
       case FileDeleted(_, _, _) => t.files == s.files - {f} && t.links == WithoutLinksOf(s.links, f)
       case _ => t.files == s.files && t.links == s.links
  }

  predicate IsLink(link: LinkRow, f: string, ttlSeconds: int, expiresAt: int) {
    link.fileId == f && link.ttlSeconds == ttlSeconds && link.expiresAt == expiresAt
  }

  /** `t` is `s` with one new row, and at its location one blob written. */
  ghost predicate Adds(s: Store, t: Store, row: FileRow) {
    && row.id !in s.files && row.storagePath in t.blobs
    && t == s.(files := s.files[row.id := row], blobs := s.blobs[row.storagePath := t.blobs[row.storagePath]])
  }

  /** What a request may do: nothing; or add the row it answers with and the bytes it was given; or make one change and
      log that change. */
  ghost predicate Accounted(s: Store, t: Store, ask: Ask, response: Response) {
    if response.Uploaded? then
      Adds(s, t, response.row) && ask.AskUpload? && t.blobs[response.row.storagePath] == ask.upload.data
    else t == s || (t.audit != [] && Mirrors(s, t, t.audit[|t.audit| - 1]))
  }

  lemma RenameAccounted(cfg: Config, w: World, fileId: string, userId: string, newName: Option<string>, course: Course)
    requires Calm(course) && Constraints(w.store)
    ensures var (end, response) := Handle(cfg, w, AskRename(fileId, userId, newName), course);
            Accounted(w.store, end.store, AskRename(fileId, userId, newName), response)
  {
    hide Handle, Canon, IsUuid;
    RenameOutcome(cfg, w, fileId, userId, newName, course);
    OneCopy(course, w.turn + 2);
    assert course(w.turn + 1).Calm();
  }

  /** An undisturbed append leaves one event. */
  lemma OneCopy(course: Course, n: nat)
    requires Calm(course)
    ensures course(n).last.Works? && forall event :: Copies(event, Appended(course(n))) == [event]
  {
    assert course(n).Calm();
  }

  lemma SignAccounted(cfg: Config, w: World, fileId: string, userId: string, ttlSeconds: int, course: Course)
    requires Calm(course) && Constraints(w.store)
    ensures var (end, response) := Handle(cfg, w, AskSign(fileId, userId, ttlSeconds), course);
            Accounted(w.store, end.store, AskSign(fileId, userId, ttlSeconds), response)
  {
    hide Handle, Canon, IsUuid, SignatureFree;
    SignOutcome(cfg, w, fileId, userId, ttlSeconds, course);
    OneCopy(course, w.turn + 2);
    assert course(w.turn + 1).Calm();
    var t := Handle(cfg, w, AskSign(fileId, userId, ttlSeconds), course).0.store;
    var l := course(w.turn + 1).id;
    assert t != w.store ==> t.links == w.store.links[l := t.links[l]];
  }

  lemma RevokeAccounted(cfg: Config, w: World, fileId: string, linkId: string, userId: string, course: Course)
    requires Calm(course) && Constraints(w.store)
    ensures var (end, response) := Handle(cfg, w, AskRevoke(fileId, linkId, userId), course);
            Accounted(w.store, end.store, AskRevoke(fileId, linkId, userId), response)
  {
    hide Handle, Canon, IsUuid;
    RevokeOutcome(cfg, w, fileId, linkId, userId, course);
    OneCopy(course, w.turn + 2);
    assert course(w.turn + 1).Calm();
  }

  lemma DownloadAccounted(cfg: Config, w: World, fileId: string, expires: string, signature: string, course: Course)
    requires Calm(course) && Constraints(w.store)
    ensures var (end, response) := Handle(cfg, w, AskDownload(fileId, expires, signature), course);
            Accounted(w.store, end.store, AskDownload(fileId, expires, signature), response)
  {
    hide Handle, Canon, IsUuid, EndsByLink, Mirrors, Constraints, Adds;
    DownloadOutcome(cfg, w, fileId, expires, signature, course);
    var verified := cfg.verify(fileId, expires, signature, course(w.turn).now);
    var (end, response) := Handle(cfg, w, AskDownload(fileId, expires, signature), course);
    if end.store != w.store || response.Uploaded? {
      OneCopy(course, w.turn + 2);
      KeyIsId(w.store, Canon(verified.fileId));
      LinkEndAccounted(w.store, end.store, response, Claim(verified.fileId, expires, signature, course(w.turn).now,
          verified.expiresAt), w.store.files[Canon(verified.fileId)], course, w.turn + 2);
    }
  }

  lemma LinkEndAccounted(
      s: Store, t: Store, response: Response, claim: Claim, file: FileRow, course: Course, n: nat)
    requires file.id in s.files && EndsByLink(s, t, response, claim, file, course(n), course(n + 1), course(n + 2))
    requires forall event :: Copies(event, Appended(course(n))) == [event]
    ensures !response.Uploaded? && t.audit != [] && Mirrors(s, t, t.audit[|t.audit| - 1])
  {
    hide Mirrors, Appended;
    var event := AuditEvent(file.id, UNKNOWN_USER, UnknownLinkRejected);
    if l :| l in s.links && s.links[l].fileId == file.id && s.links[l].signature == claim.signature {
      var link := s.links[l];
      event := AuditEvent(file.id, link.userId, if link.revokedAt.Some?
                          then RevokedLinkRejected(l, link.ttlSeconds, link.expiresAt)
                          else LinkDownloaded(l, link.ttlSeconds, link.expiresAt));
    }
    assert Records(s, t, event, course(n));
    DownloadEventMirrors(s, event);
  }

  /** An event about a download goes with no change of tables or blobs. */
  lemma DownloadEventMirrors(s: Store, event: AuditEvent)
    requires event.fileId in s.files
    requires event.what.LinkDownloaded? || event.what.UnknownLinkRejected? || event.what.RevokedLinkRejected?
    ensures Mirrors(s, s.(audit := s.audit + [event]), event)
  {
  }

  lemma DeleteAccounted(cfg: Config, w: World, fileId: string, userId: string, course: Course)
    requires Calm(course) && Constraints(w.store)
    ensures var (end, response) := Handle(cfg, w, AskDelete(fileId, userId), course);
            Accounted(w.store, end.store, AskDelete(fileId, userId), response)
  {
    hide Handle, Canon, IsUuid;
    DeleteOutcome(cfg, w, fileId, userId, course);
    OneCopy(course, w.turn + 1);
    assert course(w.turn + 2).Calm() && course(w.turn + 3).Calm();
  }

  /** In a reachable state an unused id gives a new row and a new location. */
  lemma FreshIsFree(cfg: Config, s: Sys, n: nat, upload: Upload, course: Course)
    requires ValidConfig(cfg) && Inv(cfg, s) && Unused(s, course(n).id)
    ensures FreshPlace(cfg, World(s.store, n), upload, course)
  {
    hide Inv, CanonicalUuid;
    var id := course(n).id;
    forall f | f in s.store.files
      ensures f in s.born && f in s.used && CanonicalUuid(f) && s.store.files[f].storagePath == PathOf(cfg, s, f)
    {
      FileInv(cfg, s, f);
      BirthInv(cfg, s, f);
    }
    forall p | p in s.store.blobs
      ensures p != cfg.locate(id, upload.filename)
    {
      BlobInvAt(cfg, s, p, id);
    }
  }

  lemma BlobInvAt(cfg: Config, s: Sys, p: string, id: string)
    requires ValidConfig(cfg) && Inv(cfg, s) && p in s.store.blobs && Unused(s, id)
    ensures forall name :: p != cfg.locate(id, name)
  {
    assert BlobOk(cfg, s, p, s.store.blobs[p]);
    var f :| f in s.born && p == PathOf(cfg, s, f) && s.store.blobs[p] == s.born[f].upload.data;
    BirthInv(cfg, s, f);
    hide Inv, CanonicalUuid;
  }

  /** In a reachable state, under a fresh id and without failures, an upload is answered with its row if and only if it
      names a user and a file and is neither empty nor too large; the row and the bytes are then there. Otherwise the
      stores are as before, and the code is that of the first condition that fails. */
  lemma UploadAnsweredIff(cfg: Config, s: Sys, n: nat, userId: string, upload: Upload, course: Course)
    requires ValidConfig(cfg) && Inv(cfg, s) && Unused(s, course(n).id) && Calm(course)
    ensures var (end, response) := Handle(cfg, World(s.store, n), AskUpload(userId, upload), course);
            && (response.Uploaded? <==> && cfg.trim(userId) != "" && cfg.trim(upload.filename) != ""
                                        && 0 < |upload.data| <= cfg.maxUploadBytes)
            && (response.Uploaded? ==>
                  var row := response.row;
                  && row.id == course(n).id && row.userId == userId && row.filename == upload.filename
                  && row.contentType == (if upload.contentType == "" then "application/octet-stream"
                                         else upload.contentType)
                  && row.sizeBytes == |upload.data| && row.storagePath == cfg.locate(course(n).id, upload.filename)
                  && row.id !in s.store.files && row.storagePath !in s.store.blobs
                  && end.store == s.store.(files := s.store.files[row.id := row],
                                           blobs := s.store.blobs[row.storagePath := upload.data]))
            && (!response.Uploaded? ==>
                  && end.store == s.store
                  && response == Rejected(if cfg.trim(userId) == "" then MissingUser
                                          else if cfg.trim(upload.filename) == "" then MissingFilename
                                          else if upload.data == [] then EmptyFile
                                          else FileTooLarge))
  {
    var w := World(s.store, n);
    FreshIsFree(cfg, s, n, upload, course);
    hide Inv, Handle;
    UploadOutcome(cfg, w, userId, upload, course);
    assert course(n).Calm() && course(n + 1).Calm();
  }

  /** Every request, handled alone and without failures, makes no change to tables or blobs, or adds the file it answers
      with and its bytes, or makes one change and writes the one event that reports it. */
  lemma EveryChangeAccounted(cfg: Config, s: Sys, n: nat, ask: Ask, course: Course)
    requires ValidConfig(cfg) && Inv(cfg, s) && Unused(s, course(n).id) && Calm(course)
    ensures var (end, response) := Handle(cfg, World(s.store, n), ask, course);
            && Accounted(s.store, end.store, ask, response)
            && (response.Uploaded? ==> response.row.id == course(n).id)
  {
    hide Inv, Handle, CanonicalUuid, Constraints;
    ConstraintsInv(cfg, s);
    var w := World(s.store, n);
    match ask
    case AskUpload(userId, upload) => UploadAnsweredIff(cfg, s, n, userId, upload, course);
    case AskRename(fileId, userId, newName) => RenameAccounted(cfg, w, fileId, userId, newName, course);
    case AskDelete(fileId, userId) => DeleteAccounted(cfg, w, fileId, userId, course);
    case AskSign(fileId, userId, ttlSeconds) => SignAccounted(cfg, w, fileId, userId, ttlSeconds, course);
    case AskRevoke(fileId, linkId, userId) => RevokeAccounted(cfg, w, fileId, linkId, userId, course);
    case AskDownload(fileId, expires, signature) => DownloadAccounted(cfg, w, fileId, expires, signature, course);
    case AskHistory(fileId, userId) => HistoryOutcome(cfg, w, fileId, userId, course);
  }
}
