/** What an uninterrupted request leaves behind, exactly, for every way its calls can fail. */
module Outcomes {
  import opened Wrappers
  import opened Codec
  import opened Tables
  import opened Domain
  import opened Requests
  import opened Sequential
  import Uploads
  import Renames
  import Deletes
  import Signs
  import Revokes
  import Downloads
  import Histories

  // ---------- upload ----------

  /** The insert reported a success: the only attempt that took effect is the last one. */
  predicate ReportedTruly(turn: Turn) {
    turn.last.Works? && true !in turn.lapses
  }

  /** The place an upload would take is free: its id, its location in the table, and its location in the storage. */
  ghost predicate FreshPlace(cfg: Config, w: World, upload: Upload, course: Course) {
    var id := course(w.turn).id;
    var path := cfg.locate(id, upload.filename);
    id !in w.store.files && !PathTaken(w.store, path) && path !in w.store.blobs
  }

  /** What an upload must be: by someone, called something, not empty and not too large. */
  predicate Acceptable(cfg: Config, userId: string, upload: Upload) {
    && cfg.trim(userId) != "" && cfg.trim(upload.filename) != ""
    && 0 < |upload.data| <= cfg.maxUploadBytes
  }

  lemma UndoOutcome(cfg: Config, w: World, id: string, path: string, course: Course)
    ensures Finish(cfg, w, Upping(Uploads.Undoing(id, path)), course)
            == (World(w.store.(blobs := if course(w.turn).Applied() then w.store.blobs - {path} else w.store.blobs),
                w.turn + 1), Broken)
  {
    hide Finish;
    var r := Upping(Uploads.Undoing(id, path));
    OneCall(cfg, w, r, course);
    ServeOnce(w, OnBlobs(Remove(path)), course);
    var blobs := if course(w.turn).Applied() then w.store.blobs - {path} else w.store.blobs;
    FinishEnds(cfg, World(w.store.(blobs := blobs), w.turn + 1), Broken, course);
  }

  lemma InsertOutcome(cfg: Config, w: World, id: string, userId: string, upload: Upload, path: string, course: Course)
    ensures var insert, undo := course(w.turn), course(w.turn + 1);
            var row := FileRow(id, userId, upload.filename,
                               if upload.contentType == "" then "application/octet-stream" else upload.contentType,
                               |upload.data|, path);
            var insertable := id !in w.store.files && !PathTaken(w.store, path);
            var told := insertable && ReportedTruly(insert);
            var (end, response) := Finish(cfg, w, Upping(Uploads.Inserting(id, userId, upload, path)), course);
            && end.store == w.store.(
                 files := if insertable && insert.Applied() then w.store.files[id := row] else w.store.files,
                 blobs := if !told && undo.Applied() then w.store.blobs - {path} else w.store.blobs)
            && response == (if told then Uploaded(row) else Broken)
  {
    hide Finish, PathTaken;
    var row := Uploads.NewRow(id, userId, upload, path);
    var insert := course(w.turn);
    var insertable := id !in w.store.files && !PathTaken(w.store, path);
    var call := OnFiles(InsertFile(row));
    var r := Upping(Uploads.Inserting(id, userId, upload, path));
    OneCall(cfg, w, r, course);
    ServeOnce(w, call, course);
    var files := if insertable && insert.Applied() then w.store.files[id := row] else w.store.files;
    var after := World(w.store.(files := files), w.turn + 1);
    if insertable && ReportedTruly(insert) {
      FinishEnds(cfg, after, Uploaded(row), course);
    } else {
      UndoOutcome(cfg, after, id, path, course);
    }
  }

  /** The whole outcome of any upload. Each refusal has its code and changes nothing. Otherwise the row is there exactly
      when the blob was reported saved and the insert, meeting no other row, took effect in some attempt; the caller is
      told so exactly when the attempt that took effect was also the one reported; and if he is not, the removal of the
      blob is attempted. */
  lemma UploadOutcome(cfg: Config, w: World, userId: string, upload: Upload, course: Course)
    ensures var (end, response) := Handle(cfg, w, AskUpload(userId, upload), course);
            if cfg.trim(userId) == "" then end.store == w.store && response == Rejected(MissingUser)
            else if cfg.trim(upload.filename) == "" then end.store == w.store && response == Rejected(MissingFilename)
            else if upload.data == [] then end.store == w.store && response == Rejected(EmptyFile)
            else if |upload.data| > cfg.maxUploadBytes then end.store == w.store && response == Rejected(FileTooLarge)
            else
              var id, save, insert, undo := course(w.turn).id, course(w.turn), course(w.turn + 1), course(w.turn + 2);
              var path := cfg.locate(id, upload.filename);
              var row := FileRow(id, userId, upload.filename,
                                 if upload.contentType == "" then "application/octet-stream" else upload.contentType,
                                 |upload.data|, path);
              var insertable := id !in w.store.files && !PathTaken(w.store, path);
              var told := insertable && ReportedTruly(insert);
              && end.store.links == w.store.links && end.store.audit == w.store.audit
              && end.store.files == (if save.last.Works? && insertable && insert.Applied()
                                     then w.store.files[id := row] else w.store.files)
              && end.store.blobs == (if !save.Applied() then w.store.blobs
                                     else if save.last.Works? && !told && undo.Applied() then w.store.blobs - {path}
                                     else w.store.blobs[path := upload.data])
              && response == (if save.last.Works? && told then Uploaded(row) else Broken)
  {
    hide Finish, PathTaken;
    if !Acceptable(cfg, userId, upload) {
      FinishEnds(cfg, w, Uploads.Begin(cfg, userId, upload, course(w.turn).id).response, course);
    } else {
      var id, save := course(w.turn).id, course(w.turn);
      var path := cfg.locate(id, upload.filename);
      OneCall(cfg, w, Upping(Uploads.Saving(id, userId, upload)), course);
      ServeOnce(w, OnBlobs(Save(path, upload.data)), course);
      var blobs := if save.Applied() then w.store.blobs[path := upload.data] else w.store.blobs;
      var after := World(w.store.(blobs := blobs), w.turn + 1);
      if save.last.Works? {
        SamePaths(w.store, after.store, path);
        InsertOutcome(cfg, after, id, userId, upload, path, course);
        assert blobs - {path} == w.store.blobs - {path};
      } else {
        FinishEnds(cfg, after, Broken, course);
      }
    }
  }

  lemma SamePaths(s: Store, t: Store, path: string)
    requires s.files == t.files
    ensures PathTaken(s, path) == PathTaken(t, path)
  {
  }

  /** So an upload leaves a row without its blob exactly when the insert took effect in an attempt reported as
      failed and the compensating removal then took effect too. */
  lemma RowWithoutBlobIff(cfg: Config, w: World, userId: string, upload: Upload, course: Course)
    requires Acceptable(cfg, userId, upload) && FreshPlace(cfg, w, upload, course)
    ensures var end := Handle(cfg, w, AskUpload(userId, upload), course).0.store;
            var id := course(w.turn).id;
            var save, insert, undo := course(w.turn), course(w.turn + 1), course(w.turn + 2);
            (id in end.files && end.files[id].storagePath !in end.blobs)
            <==> (save.last.Works? && (true in insert.lapses || insert.last.FailsApplied?) && undo.Applied())
  {
    UploadOutcome(cfg, w, userId, upload, course);
    hide Handle;
  }

  // ---------- delete ----------

  /** The lookup answers with a row of the caller's own. */
  predicate FindsOwn(w: World, fileId: string, userId: string, course: Course) {
    && IsUuid(fileId) && course(w.turn).last.Works?
    && Canon(fileId) in w.store.files && w.store.files[Canon(fileId)].userId == userId
  }

  /** How a request that is about an own file ends when its lookup does not find one. */
  function Denial(w: World, fileId: string, userId: string, course: Course): Response
    requires !FindsOwn(w, fileId, userId, course)
  {
    if !IsUuid(fileId) then Rejected(InvalidId)
    else if !course(w.turn).last.Works? then Broken
    else if Canon(fileId) !in w.store.files then Rejected(FileNotFound)
    else Rejected(Forbidden)
  }

  lemma DeleteTail(cfg: Config, w: World, file: FileRow, course: Course)
    ensures var row, blob := course(w.turn), course(w.turn + 1);
            var gone := row.Applied() && file.id in w.store.files;
            Finish(cfg, w, Deleting(Deletes.RemovingRow(file)), course)
            == (World(Store(if gone then w.store.files - {file.id} else w.store.files,
                            if gone then WithoutLinksOf(w.store.links, file.id) else w.store.links,
                            w.store.audit,
                            if row.last.Works? && blob.Applied() then w.store.blobs - {file.storagePath}
                                else w.store.blobs),
                      if row.last.Works? then w.turn + 2 else w.turn + 1),
                if row.last.Works? && blob.last.Works? then Deleted else Broken)
  {
    hide Finish, WithoutLinksOf;
    var row, blob := course(w.turn), course(w.turn + 1);
    var gone := row.Applied() && file.id in w.store.files;
    OneCall(cfg, w, Deleting(Deletes.RemovingRow(file)), course);
    ServeOnce(w, OnFiles(DeleteFile(file.id)), course);
    var w1 := World(Store(if gone then w.store.files - {file.id} else w.store.files,
                          if gone then WithoutLinksOf(w.store.links, file.id) else w.store.links,
                          w.store.audit, w.store.blobs), w.turn + 1);
    if row.last.Works? {
      OneCall(cfg, w1, Deleting(Deletes.RemovingBlob(file)), course);
      ServeOnce(w1, OnBlobs(Remove(file.storagePath)), course);
      FinishEnds(cfg, World(w1.store.(blobs := if blob.Applied() then w.store.blobs - {file.storagePath}
          else w.store.blobs), w.turn + 2),
                 if blob.last.Works? then Deleted else Broken, course);
    } else {
      FinishEnds(cfg, w1, Broken, course);
    }
  }

  lemma OthersLinks(links: map<string, LinkRow>, f: string)
    ensures WithoutLinksOf(links, f) == map l | l in links && links[l].fileId != f :: links[l]
  {
  }

  /** The whole outcome of any delete: a refusal has its code and changes nothing; otherwise one event per effective
      append, then the row with its links, then the blob, each only if everything before it was reported done. */
  lemma DeleteOutcome(cfg: Config, w: World, fileId: string, userId: string, course: Course)
    requires Constraints(w.store)
    ensures var (end, response) := Handle(cfg, w, AskDelete(fileId, userId), course);
            var log, row, blob := course(w.turn + 1), course(w.turn + 2), course(w.turn + 3);
            if FindsOwn(w, fileId, userId, course) then
              var f, file := Canon(fileId), w.store.files[Canon(fileId)];
              var event := AuditEvent(f, userId, FileDeleted(file.filename, file.sizeBytes, file.contentType));
              var others := map l | l in w.store.links && w.store.links[l].fileId != f :: w.store.links[l];
              var gone := log.last.Works? && row.Applied();
              && end.store == Store(if gone then w.store.files - {f} else w.store.files,
                                    if gone then others else w.store.links,
                                    w.store.audit + Copies(event, Appended(log)),
                                    if log.last.Works? && row.last.Works? && blob.Applied()
                                        then w.store.blobs - {file.storagePath}
                                    else w.store.blobs)
              && response == (if log.last.Works? && row.last.Works? && blob.last.Works? then Deleted else Broken)
            else
              end.store == w.store && response == Denial(w, fileId, userId, course)
  {
    hide Finish, Canon, IsUuid, Constraints, WithoutLinksOf;
    if !IsUuid(fileId) {
      FinishEnds(cfg, w, Rejected(InvalidId), course);
    } else {
      OneCall(cfg, w, Deleting(Deletes.Lookup(fileId, userId)), course);
      ServeOnce(w, OnFiles(FindFile(Canon(fileId))), course);
      var w1 := World(w.store, w.turn + 1);
      if !FindsOwn(w, fileId, userId, course) {
        FinishEnds(cfg, w1, Denial(w, fileId, userId, course), course);
      } else {
        var file := w.store.files[Canon(fileId)];
        var event := AuditEvent(file.id, userId, FileDeleted(file.filename, file.sizeBytes, file.contentType));
        KeyIsId(w.store, Canon(fileId));
        OthersLinks(w.store.links, file.id);
        OneCall(cfg, w1, Deleting(Deletes.Logging(file, userId)), course);
        ServeAppend(w1, event, course);
        var log := course(w.turn + 1);
        var w2 := World(w.store.(audit := w.store.audit + Copies(event, Appended(log))), w.turn + 2);
        if log.last.Works? {
          DeleteTail(cfg, w2, file, course);
        } else {
          FinishEnds(cfg, w2, Broken, course);
        }
      }
    }
  }

  /** Deleting what was just uploaded restores the files, the links and the blobs; only the log remembers. */
  lemma DeleteUndoesUpload(cfg: Config, w: World, userId: string, upload: Upload, course: Course)
    requires Calm(course) && Acceptable(cfg, userId, upload) && FreshPlace(cfg, w, upload, course)
    requires CanonicalUuid(course(w.turn).id) && Constraints(w.store)
    ensures var id := course(w.turn).id;
            var (end, responses) := HandleAll(cfg, w, [AskUpload(userId, upload), AskDelete(id, userId)], course);
            && |responses| == 2 && responses[0].Uploaded? && responses[1] == Deleted
            && end.store.files == w.store.files && end.store.links == w.store.links && end.store.blobs == w.store.blobs
            && |end.store.audit| == |w.store.audit| + 1 && end.store.audit[..|w.store.audit|] == w.store.audit
            && end.store.audit[|w.store.audit|].what.FileDeleted? && end.store.audit[|w.store.audit|].fileId == id
  {
    hide Handle, Constraints, PathTaken, Canon, IsUuid;
    var id := course(w.turn).id;
    var path := cfg.locate(id, upload.filename);
    var row := Uploads.NewRow(id, userId, upload, path);
    UploadOutcome(cfg, w, userId, upload, course);
    var mid := Handle(cfg, w, AskUpload(userId, upload), course).0;
    UploadedAlone(w.store, mid.store, row, upload.data);
    DeleteOutcome(cfg, mid, id, userId, course);
    TwoRequests(cfg, w, AskUpload(userId, upload), AskDelete(id, userId), course);
  }

  /** `t` is `s` with one new file. */
  lemma UploadedAlone(s: Store, t: Store, row: FileRow, data: Bytes)
    requires Constraints(s) && FileInsertable(s, row) && row.storagePath !in s.blobs && CanonicalUuid(row.id)
    requires t == s.(files := s.files[row.id := row], blobs := s.blobs[row.storagePath := data])
    ensures Constraints(t) && IsUuid(row.id) && Canon(row.id) == row.id
    ensures t.files - {row.id} == s.files && t.blobs - {row.storagePath} == s.blobs
            && WithoutLinksOf(t.links, row.id) == s.links
  {
    hide Canon, IsUuid;
  }

  lemma TwoRequests(cfg: Config, w: World, a: Ask, b: Ask, course: Course)
    ensures var (mid, first) := Handle(cfg, w, a, course);
            var (end, second) := Handle(cfg, mid, b, course);
            HandleAll(cfg, w, [a, b], course) == (end, [first, second])
  {
    hide Handle;
    var (mid, first) := Handle(cfg, w, a, course);
    var (end, second) := Handle(cfg, mid, b, course);
    assert [a, b][1..] == [b] && [b][1..] == [];
    assert HandleAll(cfg, end, [], course) == (end, []);
    assert HandleAll(cfg, mid, [b], course) == (end, [second] + []);
    assert [first] + ([second] + []) == [first, second];
  }

  // ---------- revoke ----------

  /** Any revocation in all its outcomes. A refusal has its code and changes nothing. The row is revoked exactly when
      there was one to revoke and the update took effect; but the owner is told "not found", and nothing is logged, when
      an earlier attempt of the update had already taken effect; and the log gets one event for every attempt of the
      append that took effect. */
  lemma RevokeOutcome(cfg: Config, w: World, fileId: string, linkId: string, userId: string, course: Course)
    requires Constraints(w.store)
    ensures var (end, response) := Handle(cfg, w, AskRevoke(fileId, linkId, userId), course);
            var f, l, update, append := Canon(fileId), Canon(linkId), course(w.turn + 1), course(w.turn + 2);
            if !FindsOwn(w, fileId, userId, course) then
              end.store == w.store && response == Denial(w, fileId, userId, course)
            else if !IsUuid(linkId) then end.store == w.store && response == Rejected(InvalidId)
            else if l !in w.store.links || w.store.links[l].fileId != f || w.store.links[l].revokedAt.Some? then
              end.store == w.store && response == if update.last.Works? then Rejected(SignedLinkNotFound) else Broken
            else
              var link := w.store.links[l].(revokedAt := Some(update.now));
              var event := AuditEvent(f, userId, LinkRevoked(linkId));
              && end.store == w.store.(
                   links := if update.Applied() then w.store.links[l := link] else w.store.links,
                   audit := w.store.audit + Copies(event, if ReportedTruly(update) then Appended(append) else 0))
              && response == (if !update.last.Works? then Broken
                              else if true in update.lapses then Rejected(SignedLinkNotFound)
                              else if append.last.Works? then Revoked
                              else Broken)
  {
    hide Finish, Canon, IsUuid, Constraints;
    if !IsUuid(fileId) {
      FinishEnds(cfg, w, Rejected(InvalidId), course);
    } else {
      OneCall(cfg, w, Revoking(Revokes.Lookup(fileId, linkId, userId)), course);
      ServeOnce(w, OnFiles(FindFile(Canon(fileId))), course);
      var w1 := World(w.store, w.turn + 1);
      if !FindsOwn(w, fileId, userId, course) {
        FinishEnds(cfg, w1, Denial(w, fileId, userId, course), course);
      } else if !IsUuid(linkId) {
        FinishEnds(cfg, w1, Rejected(InvalidId), course);
      } else {
        KeyIsId(w.store, Canon(fileId));
        RevokeTail(cfg, w1, w.store.files[Canon(fileId)], linkId, userId, course);
      }
    }
  }

  lemma RevokeTail(cfg: Config, w: World, file: FileRow, linkId: string, userId: string, course: Course)
    ensures var (end, response) := Finish(cfg, w, Revoking(Revokes.Revoking(file, linkId, userId)), course);
            var l, update, append := Canon(linkId), course(w.turn), course(w.turn + 1);
            if l !in w.store.links || w.store.links[l].fileId != file.id || w.store.links[l].revokedAt.Some? then
              end.store == w.store && response == if update.last.Works? then Rejected(SignedLinkNotFound) else Broken
            else
              var link := w.store.links[l].(revokedAt := Some(update.now));
              var event := AuditEvent(file.id, userId, LinkRevoked(linkId));
              && end.store == w.store.(
                   links := if update.Applied() then w.store.links[l := link] else w.store.links,
                   audit := w.store.audit + Copies(event, if ReportedTruly(update) then Appended(append) else 0))
              && response == (if !update.last.Works? then Broken
                              else if true in update.lapses then Rejected(SignedLinkNotFound)
                              else if append.last.Works? then Revoked
                              else Broken)
  {
    hide Finish, Canon;
    var l, update, append := Canon(linkId), course(w.turn), course(w.turn + 1);
    var event := AuditEvent(file.id, userId, LinkRevoked(linkId));
    assert w.store.audit + Copies(event, 0) == w.store.audit;
    OneCall(cfg, w, Revoking(Revokes.Revoking(file, linkId, userId)), course);
    ServeOnce(w, OnLinks(RevokeLink(l, file.id)), course);
    if !Revocable(w.store, l, file.id) {
      FinishEnds(cfg, World(w.store, w.turn + 1), if update.last.Works? then Rejected(SignedLinkNotFound) else Broken,
                 course);
    } else {
      var link := w.store.links[l].(revokedAt := Some(update.now));
      var links := if update.Applied() then w.store.links[l := link] else w.store.links;
      var w1 := World(w.store.(links := links), w.turn + 1);
      if ReportedTruly(update) {
        OneCall(cfg, w1, Revoking(Revokes.Logging(file, linkId, userId)), course);
        ServeAppend(w1, event, course);
        FinishEnds(cfg, World(w1.store.(audit := w.store.audit + Copies(event, Appended(append))), w.turn + 2),
                   if append.last.Works? then Revoked else Broken, course);
      } else {
        FinishEnds(cfg, w1, if update.last.Works? then Rejected(SignedLinkNotFound) else Broken, course);
      }
    }
  }

  // ---------- sign ----------

  /** No row holds the signature. */
  ghost predicate SignatureFree(s: Store, signature: string) {
    forall l :: l in s.links ==> s.links[l].signature != signature
  }

  /** Any signing in all its outcomes. A refusal has its code and changes nothing. The link is there exactly when its
      insert, meeting neither its id nor its signature, took effect; its event is written only when the insert was
      reported truly, once for every attempt of the append that took effect: so a link without an event, and a link with
      several, both come from misreported attempts, and from nothing else. */
  lemma SignOutcome(cfg: Config, w: World, fileId: string, userId: string, ttlSeconds: int, course: Course)
    requires Constraints(w.store)
    ensures var (end, response) := Handle(cfg, w, AskSign(fileId, userId, ttlSeconds), course);
            var f, insert, append := Canon(fileId), course(w.turn + 1), course(w.turn + 2);
            if ttlSeconds < 1 || ttlSeconds > cfg.maxTtlSeconds then
              end.store == w.store && response == Rejected(InvalidTtl)
            else if !FindsOwn(w, fileId, userId, course) then
              end.store == w.store && response == Denial(w, fileId, userId, course)
            else
              var expiresAt := insert.now / 1000 + ttlSeconds;
              var signature := cfg.signature(f, expiresAt);
              var link := LinkRow(insert.id, f, userId, signature, ttlSeconds, expiresAt, None);
              var event := AuditEvent(f, userId, LinkGenerated(ttlSeconds, expiresAt));
              var insertable := insert.id !in w.store.links && SignatureFree(w.store, signature);
              var told := insertable && ReportedTruly(insert);
              && end.store == w.store.(
                   links := if insertable && insert.Applied() then w.store.links[insert.id := link] else w.store.links,
                   audit := w.store.audit + Copies(event, if told then Appended(append) else 0))
              && response == (if told && append.last.Works?
                              then Signed(insert.id, f, expiresAt, ttlSeconds, signature) else Broken)
  {
    hide Finish, Canon, IsUuid, Constraints, SignatureFree;
    if ttlSeconds < 1 || ttlSeconds > cfg.maxTtlSeconds {
      FinishEnds(cfg, w, Rejected(InvalidTtl), course);
    } else if !IsUuid(fileId) {
      FinishEnds(cfg, w, Rejected(InvalidId), course);
    } else {
      OneCall(cfg, w, Signing(Signs.Lookup(fileId, userId, ttlSeconds)), course);
      ServeOnce(w, OnFiles(FindFile(Canon(fileId))), course);
      var w1 := World(w.store, w.turn + 1);
      if !FindsOwn(w, fileId, userId, course) {
        FinishEnds(cfg, w1, Denial(w, fileId, userId, course), course);
      } else {
        KeyIsId(w.store, Canon(fileId));
        SignTail(cfg, w1, w.store.files[Canon(fileId)], userId, ttlSeconds, course);
      }
    }
  }

  lemma SignTail(cfg: Config, w: World, file: FileRow, userId: string, ttlSeconds: int, course: Course)
    requires file.id in w.store.files
    ensures var (end, response) := Finish(cfg, w, Signing(Signs.Drawing(file, userId, ttlSeconds)), course);
            var insert, append := course(w.turn), course(w.turn + 1);
            var expiresAt := insert.now / 1000 + ttlSeconds;
            var signature := cfg.signature(file.id, expiresAt);
            var link := LinkRow(insert.id, file.id, userId, signature, ttlSeconds, expiresAt, None);
            var event := AuditEvent(file.id, userId, LinkGenerated(ttlSeconds, expiresAt));
            var insertable := insert.id !in w.store.links && SignatureFree(w.store, signature);
            var told := insertable && ReportedTruly(insert);
            && end.store == w.store.(
                 links := if insertable && insert.Applied() then w.store.links[insert.id := link] else w.store.links,
                 audit := w.store.audit + Copies(event, if told then Appended(append) else 0))
            && response == (if told && append.last.Works?
                            then Signed(insert.id, file.id, expiresAt, ttlSeconds, signature) else Broken)
  {
    var insert, append := course(w.turn), course(w.turn + 1);
    var expiresAt := insert.now / 1000 + ttlSeconds;
    var g := Signs.Inserting(insert.id, file, userId, ttlSeconds, expiresAt);
    assert Finish(cfg, w, Signing(Signs.Drawing(file, userId, ttlSeconds)), course)
        == Finish(cfg, w, Signing(g), course);
    hide Finish;
    var link := Signs.Row(cfg, insert.id, file, userId, ttlSeconds, expiresAt);
    var event := AuditEvent(file.id, userId, LinkGenerated(ttlSeconds, expiresAt));
    assert w.store.audit + Copies(event, 0) == w.store.audit;
    var insertable := insert.id !in w.store.links && SignatureFree(w.store, link.signature);
    assert LinkInsertable(w.store, link) == insertable;
    hide SignatureTaken, SignatureFree;
    OneCall(cfg, w, Signing(g), course);
    ServeOnce(w, OnLinks(InsertLink(link)), course);
    var links := if insertable && insert.Applied() then w.store.links[insert.id := link] else w.store.links;
    var w1 := World(w.store.(links := links), w.turn + 1);
    if insertable && ReportedTruly(insert) {
      OneCall(cfg, w1, Signing(Signs.Logging(insert.id, file, userId, ttlSeconds, expiresAt)), course);
      ServeAppend(w1, event, course);
      FinishEnds(cfg, World(w1.store.(audit := w.store.audit + Copies(event, Appended(append))), w.turn + 2),
                 if append.last.Works? then Signed(insert.id, file.id, expiresAt, ttlSeconds, link.signature)
                     else Broken, course);
    } else {
      FinishEnds(cfg, w1, Broken, course);
    }
  }

  // ---------- rename ----------

  /** Any rename in all its outcomes. A refusal has its code and changes nothing. The row carries the trimmed name
      exactly when the update took effect; the log gets, for every attempt of the append that took effect, an event
      with the name replaced and the name set, exactly when the update was reported; and the owner is answered with
      the renamed row exactly when the append was reported too. */
  lemma RenameOutcome(cfg: Config, w: World, fileId: string, userId: string, newName: Option<string>, course: Course)
    requires Constraints(w.store)
    ensures var (end, response) := Handle(cfg, w, AskRename(fileId, userId, newName), course);
            var f, update, append := Canon(fileId), course(w.turn + 1), course(w.turn + 2);
            if !FindsOwn(w, fileId, userId, course) then
              end.store == w.store && response == Denial(w, fileId, userId, course)
            else if newName.None? then end.store == w.store && response == Rejected(NoUpdates)
            else if cfg.trim(newName.value) == "" then end.store == w.store && response == Rejected(InvalidFilename)
            else
              var name := cfg.trim(newName.value);
              var renamed := w.store.files[f].(filename := name);
              var event := AuditEvent(f, userId, FileRenamed(w.store.files[f].filename, name));
              && end.store == w.store.(
                   files := if update.Applied() then w.store.files[f := renamed] else w.store.files,
                   audit := w.store.audit + Copies(event, if update.last.Works? then Appended(append) else 0))
              && response == (if update.last.Works? && append.last.Works? then Renamed(Some(renamed)) else Broken)
  {
    hide Finish, Canon, IsUuid, Constraints;
    if !IsUuid(fileId) {
      FinishEnds(cfg, w, Rejected(InvalidId), course);
    } else {
      OneCall(cfg, w, Request.Renaming(Renames.Lookup(fileId, userId, newName)), course);
      ServeOnce(w, OnFiles(FindFile(Canon(fileId))), course);
      var w1 := World(w.store, w.turn + 1);
      if !FindsOwn(w, fileId, userId, course) {
        FinishEnds(cfg, w1, Denial(w, fileId, userId, course), course);
      } else if newName.None? {
        FinishEnds(cfg, w1, Rejected(NoUpdates), course);
      } else if cfg.trim(newName.value) == "" {
        FinishEnds(cfg, w1, Rejected(InvalidFilename), course);
      } else {
        KeyIsId(w.store, Canon(fileId));
        RenameTail(cfg, w1, w.store.files[Canon(fileId)], userId, cfg.trim(newName.value), course);
      }
    }
  }

  lemma RenameTail(cfg: Config, w: World, file: FileRow, userId: string, name: string, course: Course)
    requires file.id in w.store.files && w.store.files[file.id] == file
    ensures var (end, response) := Finish(cfg, w, Request.Renaming(Renames.Renaming(file, userId, name)), course);
            var update, append, renamed := course(w.turn), course(w.turn + 1), file.(filename := name);
            var event := AuditEvent(file.id, userId, FileRenamed(file.filename, name));
            && end.store == w.store.(
                 files := if update.Applied() then w.store.files[file.id := renamed] else w.store.files,
                 audit := w.store.audit + Copies(event, if update.last.Works? then Appended(append) else 0))
            && response == (if update.last.Works? && append.last.Works? then Renamed(Some(renamed)) else Broken)
  {
    hide Finish;
    var update, append, renamed := course(w.turn), course(w.turn + 1), file.(filename := name);
    var event := AuditEvent(file.id, userId, FileRenamed(file.filename, name));
    assert w.store.audit + Copies(event, 0) == w.store.audit;
    OneCall(cfg, w, Request.Renaming(Renames.Renaming(file, userId, name)), course);
    ServeOnce(w, OnFiles(RenameFile(file.id, name)), course);
    var files := if update.Applied() then w.store.files[file.id := renamed] else w.store.files;
    var w1 := World(w.store.(files := files), w.turn + 1);
    if update.last.Works? {
      OneCall(cfg, w1, Request.Renaming(Renames.Logging(file, userId, name, Some(renamed))), course);
      ServeAppend(w1, event, course);
      FinishEnds(cfg, World(w1.store.(audit := w.store.audit + Copies(event, Appended(append))), w.turn + 2),
                 if append.last.Works? then Renamed(Some(renamed)) else Broken, course);
    } else {
      FinishEnds(cfg, w1, Broken, course);
    }
  }

  // ---------- download ----------

  /** `t` is `s` with an event written once for every attempt of the append that took effect. */
  ghost predicate Records(s: Store, t: Store, event: AuditEvent, append: Turn) {
    t == s.(audit := s.audit + Copies(event, Appended(append)))
  }

  /** How a download ends by what its lookup of the link finds: the event that is written, and the answer. */
  ghost predicate EndsByLink(
      s: Store, t: Store, response: Response, claim: Claim, file: FileRow, log: Turn, probe: Turn, read: Turn) {
    && (forall l :: l in s.links && s.links[l].fileId == file.id && s.links[l].signature == claim.signature ==>
          var link := s.links[l];
          if link.revokedAt.Some? then
            && Records(s, t, AuditEvent(file.id, link.userId,
                 RevokedLinkRejected(l, link.ttlSeconds, link.expiresAt)), log)
            && response == if log.last.Works? then Rejected(LinkIsRevoked) else Broken
          else
            && Records(s, t, AuditEvent(file.id, link.userId, LinkDownloaded(l, link.ttlSeconds, link.expiresAt)), log)
            && response == if !log.last.Works? || !probe.last.Works? then Broken
                           else if file.storagePath !in s.blobs then Rejected(BlobMissing)
                           else if !read.last.Works? then Broken
                           else Downloaded(file, s.blobs[file.storagePath], claim, link))
    && ((forall l :: l in s.links && s.links[l].fileId == file.id ==> s.links[l].signature != claim.signature) ==>
          && Records(s, t, AuditEvent(file.id, "unknown", UnknownLinkRejected), log)
          && response == if log.last.Works? then Rejected(UnknownLink) else Broken)
  }

  /** Any download in all its outcomes. A refusal before the lookup of the link has its code and changes nothing;
      from there on the one change is an event, and a revoked link, an unknown one and a good one each have their
      own event and answer. */
  lemma DownloadOutcome(cfg: Config, w: World, fileId: string, expires: string, signature: string, course: Course)
    requires Constraints(w.store)
    ensures var (end, response) := Handle(cfg, w, AskDownload(fileId, expires, signature), course);
            var verified := cfg.verify(fileId, expires, signature, course(w.turn).now);
            var find, look, log := course(w.turn), course(w.turn + 1), course(w.turn + 2);
            if verified.Refused? then end.store == w.store && response == Rejected(InvalidSignedUrl)
            else if !IsUuid(verified.fileId) then end.store == w.store && response == Rejected(InvalidId)
            else if !find.last.Works? then end.store == w.store && response == Broken
            else if Canon(verified.fileId) !in w.store.files then
              end.store == w.store && response == Rejected(FileNotFound)
            else if !look.last.Works? then end.store == w.store && response == Broken
            else
              EndsByLink(w.store, end.store, response,
                         Claim(verified.fileId, expires, signature, find.now, verified.expiresAt),
                         w.store.files[Canon(verified.fileId)], log, course(w.turn + 3), course(w.turn + 4))
  {
    hide Finish, Canon, IsUuid, EndsByLink;
    var verified := cfg.verify(fileId, expires, signature, course(w.turn).now);
    if verified.Refused? {
      FinishEnds(cfg, w, Rejected(InvalidSignedUrl), course);
    } else if !IsUuid(verified.fileId) {
      FinishEnds(cfg, w, Rejected(InvalidId), course);
    } else {
      var f := Canon(verified.fileId);
      var claim := Claim(verified.fileId, expires, signature, course(w.turn).now, verified.expiresAt);
      OneCall(cfg, w, Downloading(Downloads.Lookup(claim)), course);
      ServeOnce(w, OnFiles(FindFile(f)), course);
      var w1 := World(w.store, w.turn + 1);
      if !course(w.turn).last.Works? || f !in w.store.files {
        FinishEnds(cfg, w1, if course(w.turn).last.Works? then Rejected(FileNotFound) else Broken, course);
      } else {
        RedeemOutcome(cfg, w1, claim, w.store.files[f], course);
      }
    }
  }

  lemma RedeemOutcome(cfg: Config, w: World, claim: Claim, file: FileRow, course: Course)
    requires Constraints(w.store)
    ensures var (end, response) := Finish(cfg, w, Downloading(Downloads.Redeeming(claim, file)), course);
            if !course(w.turn).last.Works? then end.store == w.store && response == Broken
            else EndsByLink(w.store, end.store, response, claim, file,
                            course(w.turn + 1), course(w.turn + 2), course(w.turn + 3))
  {
    hide Finish, LinkFor, Constraints, EndsByVerdict, EndsByLink;
    var found := LinkFor(w.store, file.id, claim.signature);
    OneCall(cfg, w, Downloading(Downloads.Redeeming(claim, file)), course);
    ServeOnce(w, OnLinks(FindLink(file.id, claim.signature)), course);
    var w1 := World(w.store, w.turn + 1);
    if !course(w.turn).last.Works? {
      FinishEnds(cfg, w1, Broken, course);
    } else {
      VerdictOutcome(cfg, w1, claim, file, Downloads.VerdictOn(found), course);
      var (end, response) := Finish(cfg, w1,
          Downloading(Downloads.Logging(claim, file, Downloads.VerdictOn(found))), course);
      LookupDecides(w.store, end.store, response, claim, file, course(w.turn + 1), course(w.turn + 2),
          course(w.turn + 3));
    }
  }

  /** The event and the answer that belong to a verdict. */
  ghost predicate EndsByVerdict(
      s: Store, t: Store, response: Response, claim: Claim, file: FileRow, verdict: Downloads.Verdict,
      log: Turn, probe: Turn, read: Turn) {
    && Records(s, t, Downloads.VerdictEvent(file, verdict), log)
    && response == (if !log.last.Works? then Broken
                    else match verdict
                         case NotIssued => Rejected(UnknownLink)
                         case WasRevoked(_) => Rejected(LinkIsRevoked)
                         case Granted(link) =>
                           if !probe.last.Works? then Broken
                           else if file.storagePath !in s.blobs then Rejected(BlobMissing)
                           else if !read.last.Works? then Broken
                           else Downloaded(file, s.blobs[file.storagePath], claim, link))
  }

  lemma LookupDecides(
      s: Store, t: Store, response: Response, claim: Claim, file: FileRow, log: Turn, probe: Turn, read: Turn)
    requires Constraints(s)
    requires EndsByVerdict(s, t, response, claim, file,
                           Downloads.VerdictOn(LinkFor(s, file.id, claim.signature)), log, probe, read)
    ensures EndsByLink(s, t, response, claim, file, log, probe, read)
  {
    hide LinkFor, Constraints, Records;
    var found := LinkFor(s, file.id, claim.signature);
    forall l | l in s.links && s.links[l].fileId == file.id && s.links[l].signature == claim.signature
      ensures found == Some(s.links[l]) && s.links[l].id == l
    {
      LinkForUnique(s, l);
      LinkKeyIsId(s, l);
    }
    assert (forall l :: !IsLinkFor(s, file.id, claim.signature, l)) ==> found == None;
  }

  lemma LinkKeyIsId(s: Store, l: string)
    requires Constraints(s) && l in s.links
    ensures s.links[l].id == l
  {
  }

  /** From the verdict on, the event, then the look for the blob, then its bytes. */
  lemma VerdictOutcome(cfg: Config, w: World, claim: Claim, file: FileRow, verdict: Downloads.Verdict, course: Course)
    ensures var (end, response) := Finish(cfg, w, Downloading(Downloads.Logging(claim, file, verdict)), course);
            EndsByVerdict(w.store, end.store, response, claim, file, verdict,
                          course(w.turn), course(w.turn + 1), course(w.turn + 2))
  {
    hide Finish;
    var event := Downloads.VerdictEvent(file, verdict);
    var log := course(w.turn);
    OneCall(cfg, w, Downloading(Downloads.Logging(claim, file, verdict)), course);
    ServeAppend(w, event, course);
    var w1 := World(w.store.(audit := w.store.audit + Copies(event, Appended(log))), w.turn + 1);
    if log.last.Works? && verdict.Granted? {
      ReadOutcome(cfg, w1, claim, file, verdict.link, course);
    } else {
      FinishEnds(cfg, w1, if !log.last.Works? then Broken
                          else Rejected(if verdict.NotIssued? then UnknownLink else LinkIsRevoked), course);
    }
  }

  lemma ReadOutcome(cfg: Config, w: World, claim: Claim, file: FileRow, link: LinkRow, course: Course)
    ensures var (end, response) := Finish(cfg, w, Downloading(Downloads.Probing(claim, file, link)), course);
            var probe, read := course(w.turn), course(w.turn + 1);
            && end.store == w.store
            && response == (if !probe.last.Works? then Broken
                            else if file.storagePath !in w.store.blobs then Rejected(BlobMissing)
                            else if !read.last.Works? then Broken
                            else Downloaded(file, w.store.blobs[file.storagePath], claim, link))
  {
    hide Finish;
    var probe, read := course(w.turn), course(w.turn + 1);
    OneCall(cfg, w, Downloading(Downloads.Probing(claim, file, link)), course);
    ServeOnce(w, OnBlobs(Exists(file.storagePath)), course);
    var w1 := World(w.store, w.turn + 1);
    if probe.last.Works? && file.storagePath in w.store.blobs {
      OneCall(cfg, w1, Downloading(Downloads.Reading(claim, file, link)), course);
      ServeOnce(w1, OnBlobs(Read(file.storagePath)), course);
      FinishEnds(cfg, World(w.store, w.turn + 2),
                 if read.last.Works? then Downloaded(file, w.store.blobs[file.storagePath], claim, link) else Broken,
                 course);
    } else {
      FinishEnds(cfg, w1, if probe.last.Works? then Rejected(BlobMissing) else Broken, course);
    }
  }

  // ---------- history ----------

  /** Who may list: the user the row names; or, when there is no row, anyone with an event on record. */
  predicate MayList(s: Store, f: string, userId: string) {
    if f in s.files then s.files[f].userId == userId else HasEventBy(s.audit, f, userId)
  }

  /** A listing in all its outcomes. It changes nothing, and is answered with all the file's events, newest first,
      exactly when the id is well formed, the caller may list and every read works; a refusal says which of the
      first two failed. */
  lemma HistoryOutcome(cfg: Config, w: World, fileId: string, userId: string, course: Course)
    ensures var (end, response) := Handle(cfg, w, AskHistory(fileId, userId), course);
            var f, find, next, last := Canon(fileId), course(w.turn), course(w.turn + 1), course(w.turn + 2);
            && end.store == w.store
            && exists shown :: NewestFirst(shown, w.store.audit, f)
                 && response == (if !IsUuid(fileId) then Rejected(InvalidId)
                                 else if !find.last.Works? then Broken
                                 else if f in w.store.files then
                                   if !MayList(w.store, f, userId) then Rejected(Forbidden)
                                   else if next.last.Works? then History(fileId, userId, shown) else Broken
                                 else if !next.last.Works? then Broken
                                 else if !MayList(w.store, f, userId) then Rejected(FileNotFound)
                                 else if last.last.Works? then History(fileId, userId, shown) else Broken)
  {
    hide Finish, Canon, IsUuid, EventsOf, NewestFirst, HasEventBy;
    EventsOfInOrder(w.store.audit, Canon(fileId), EventsOf(w.store.audit, Canon(fileId)));
    if !IsUuid(fileId) {
      FinishEnds(cfg, w, Rejected(InvalidId), course);
    } else {
      var f := Canon(fileId);
      OneCall(cfg, w, Reviewing(Histories.Lookup(fileId, userId)), course);
      ServeOnce(w, OnFiles(FindFile(f)), course);
      var w1 := World(w.store, w.turn + 1);
      if !course(w.turn).last.Works? {
        FinishEnds(cfg, w1, Broken, course);
      } else if f !in w.store.files {
        ConsultOutcome(cfg, w1, fileId, userId, course);
      } else if w.store.files[f].userId != userId {
        FinishEnds(cfg, w1, Rejected(Forbidden), course);
      } else {
        ListOutcome(cfg, w1, fileId, userId, course);
      }
    }
  }

  lemma ConsultOutcome(cfg: Config, w: World, fileId: string, userId: string, course: Course)
    ensures var (end, response) := Finish(cfg, w, Reviewing(Histories.Consulting(fileId, userId)), course);
            && end.store == w.store
            && response == (if !course(w.turn).last.Works? then Broken
                            else if !HasEventBy(w.store.audit, Canon(fileId), userId) then Rejected(FileNotFound)
                            else if course(w.turn + 1).last.Works? then
                              History(fileId, userId, EventsOf(w.store.audit, Canon(fileId)))
                            else Broken)
  {
    hide Finish, Canon, EventsOf, HasEventBy;
    OneCall(cfg, w, Reviewing(Histories.Consulting(fileId, userId)), course);
    ServeOnce(w, OnAudit(HasEvent(Canon(fileId), userId)), course);
    var w1 := World(w.store, w.turn + 1);
    if !course(w.turn).last.Works? {
      FinishEnds(cfg, w1, Broken, course);
    } else if !HasEventBy(w.store.audit, Canon(fileId), userId) {
      FinishEnds(cfg, w1, Rejected(FileNotFound), course);
    } else {
      ListOutcome(cfg, w1, fileId, userId, course);
    }
  }

  lemma ListOutcome(cfg: Config, w: World, fileId: string, userId: string, course: Course)
    ensures var (end, response) := Finish(cfg, w, Reviewing(Histories.Listing(fileId, userId)), course);
            && end.store == w.store
            && response == if course(w.turn).last.Works?
                 then History(fileId, userId, EventsOf(w.store.audit, Canon(fileId)))
                           else Broken
  {
    hide Finish, Canon, EventsOf;
    OneCall(cfg, w, Reviewing(Histories.Listing(fileId, userId)), course);
    ServeOnce(w, OnAudit(ListEvents(Canon(fileId))), course);
    FinishEnds(cfg, World(w.store, w.turn + 1),
               if course(w.turn).last.Works? then History(fileId, userId, EventsOf(w.store.audit, Canon(fileId)))
                   else Broken,
               course);
  }
}
