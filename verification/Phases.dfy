/** Pieces of runs: one request moving through its service while the others stand still. */
module Phases {
  import opened Wrappers
  import opened Codec
  import opened Tables
  import opened Domain
  import opened Requests
  import opened System
  import opened Invariants
  import opened Lifecycle
  import Uploads
  import Deletes
  import Signs
  import Revokes

  /** From `s` to `t` only request `pid` moved; it now stands at `r`, and `ids` were drawn. */
  ghost predicate Moves(s: Sys, t: Sys, pid: nat, r: Request, ids: set<string>) {
    && t.procs == s.procs[pid := r]
    && t.clock == s.clock && t.used == s.used + ids && t.born == s.born
    && t.hazyInserts == s.hazyInserts && t.hazyAudits == s.hazyAudits
  }

  lemma MovesTwice(s: Sys, t: Sys, u: Sys, pid: nat, r: Request, r': Request, ids: set<string>, more: set<string>)
    requires Moves(s, t, pid, r, ids) && Moves(t, u, pid, r', more)
    ensures Moves(s, u, pid, r', ids + more)
  {
    assert s.used + ids + more == s.used + (ids + more);
    assert s.procs[pid := r][pid := r'] == s.procs[pid := r'];
  }

  /** The row of `f` as its owner's requests find it. */
  ghost predicate Present(s: Sys, f: string) {
    f in s.store.files && s.store.files[f].id == f && CanonicalUuid(f)
  }

  lemma PresentRow(cfg: Config, s: Sys, f: string)
    requires Inv(cfg, s) && f in s.store.files
    ensures Present(s, f) && f in s.born && s.store.files[f].userId == s.born[f].userId
  {
    assert Seen(cfg, s, s.store.files[f]);
  }

  /** The owner's request to delete `f` arrives and finds the row. */
  lemma DeleteOpens(cfg: Config, s: Sys, f: string, pid: nat, id: string) returns (t: Sys)
    requires Present(s, f) && pid !in s.procs && Unused(s, id)
    ensures t == Run(cfg, s, [Start(pid, AskDelete(f, s.store.files[f].userId), id), Try(pid, Succeeds)])
    ensures t.store == s.store
    ensures Moves(s, t, pid, Deleting(Deletes.Logging(s.store.files[f], s.store.files[f].userId)), {})
  {
    var file := s.store.files[f];
    var e0, e := Start(pid, AskDelete(f, file.userId), id), Try(pid, Succeeds);
    RunTwo(cfg, s, e0, e);
    var s1 := Step(cfg, s, e0);
    assert s1.procs[pid] == Deleting(Deletes.Lookup(f, file.userId));
    t := Step(cfg, s1, e);
  }

  /** It writes its audit event and removes the row. */
  lemma DeleteProceeds(cfg: Config, s: Sys, file: FileRow, pid: nat) returns (t: Sys)
    requires pid in s.procs && s.procs[pid] == Deleting(Deletes.Logging(file, file.userId)) && file.id in s.store.files
    ensures t == Run(cfg, s, [Try(pid, Succeeds), Try(pid, Succeeds)])
    ensures t.store == RowRemoved(s.store, file)
    ensures Moves(s, t, pid, Deleting(Deletes.RemovingBlob(file)), {})
  {
    var e := Try(pid, Succeeds);
    RunTwo(cfg, s, e, e);
    var s1 := Step(cfg, s, e);
    assert s1.procs[pid] == Deleting(Deletes.RemovingRow(file));
    t := Step(cfg, s1, e);
  }

  /** The deletion is logged and the row gone with its links; the blob is still there. */
  function RowRemoved(s: Store, file: FileRow): Store {
    var event := AuditEvent(file.id, file.userId, FileDeleted(file.filename, file.sizeBytes, file.contentType));
    s.(files := s.files - {file.id}, links := WithoutLinksOf(s.links, file.id), audit := s.audit + [event])
  }

  lemma DeletePhase(cfg: Config, s: Sys, f: string, pid: nat, id: string) returns (events: seq<Event>, t: Sys)
    requires Present(s, f) && pid !in s.procs && Unused(s, id)
    ensures t == Run(cfg, s, events) && AllPlain(events)
    ensures t.store == RowRemoved(s.store, s.store.files[f])
    ensures Moves(s, t, pid, Deleting(Deletes.RemovingBlob(s.store.files[f])), {})
  {
    var file := s.store.files[f];
    var s2 := DeleteOpens(cfg, s, f, pid, id);
    t := DeleteProceeds(cfg, s2, file, pid);
    MovesTwice(s, s2, t, pid, Deleting(Deletes.Logging(file, file.userId)),
        Deleting(Deletes.RemovingBlob(file)), {}, {});
    var opening, rest := [Start(pid, AskDelete(f, file.userId), id), Try(pid, Succeeds)],
        [Try(pid, Succeeds), Try(pid, Succeeds)];
    events := opening + rest;
    RunAppend(cfg, s, opening, rest);
  }

  /** The owner's request to sign `f` arrives and finds the row. */
  lemma SignOpens(cfg: Config, s: Sys, f: string, ttl: int, pid: nat, id: string) returns (t: Sys)
    requires Present(s, f) && pid !in s.procs && Unused(s, id) && 1 <= ttl <= cfg.maxTtlSeconds
    ensures t == Run(cfg, s, [Start(pid, AskSign(f, s.store.files[f].userId, ttl), id), Try(pid, Succeeds)])
    ensures t.store == s.store
    ensures Moves(s, t, pid, Signing(Signs.Drawing(s.store.files[f], s.store.files[f].userId, ttl)), {})
  {
    var file := s.store.files[f];
    var e0, e := Start(pid, AskSign(f, file.userId, ttl), id), Try(pid, Succeeds);
    RunTwo(cfg, s, e0, e);
    var s1 := Step(cfg, s, e0);
    assert s1.procs[pid] == Signing(Signs.Lookup(f, file.userId, ttl));
    t := Step(cfg, s1, e);
  }

  /** It signs and draws its link id. */
  lemma SignDraws(cfg: Config, s: Sys, file: FileRow, ttl: int, pid: nat, linkId: string) returns (t: Sys)
    requires pid in s.procs && s.procs[pid] == Signing(Signs.Drawing(file, file.userId, ttl)) && Unused(s, linkId)
    ensures t == Run(cfg, s, [Draw(pid, linkId)]) && t.store == s.store
    ensures Moves(s, t, pid, Signing(Signs.Inserting(linkId, file, file.userId, ttl, s.clock / 1000 + ttl)), {linkId})
  {
    RunOne(cfg, s, Draw(pid, linkId));
    t := Step(cfg, s, Draw(pid, linkId));
  }

  /** It inserts the link. */
  lemma SignInserts(cfg: Config, s: Sys, file: FileRow, ttl: int, expiresAt: int, pid: nat, linkId: string)
    returns (t: Sys)
    requires pid in s.procs && s.procs[pid] == Signing(Signs.Inserting(linkId, file, file.userId, ttl, expiresAt))
    requires LinkInsertable(s.store, Signs.Row(cfg, linkId, file, file.userId, ttl, expiresAt))
    ensures t == Run(cfg, s, [Try(pid, Succeeds)])
    ensures t.store == s.store.(links :=
            s.store.links[linkId := Signs.Row(cfg, linkId, file, file.userId, ttl, expiresAt)])
    ensures Moves(s, t, pid, Signing(Signs.Logging(linkId, file, file.userId, ttl, expiresAt)), {})
  {
    RunOne(cfg, s, Try(pid, Succeeds));
    t := Step(cfg, s, Try(pid, Succeeds));
  }

  lemma LinkIdFree(cfg: Config, s: Sys, linkId: string)
    requires Inv(cfg, s) && linkId !in s.used
    ensures linkId !in s.store.links
  {
    forall l | l in s.store.links
      ensures l in s.used
    {
      LinkInv(cfg, s, l);
    }
  }

  /** The owner's request to sign `f` gets as far as its insert. */
  lemma SignReady(cfg: Config, s: Sys, f: string, ttl: int, pid: nat, linkId: string)
    returns (events: seq<Event>, t: Sys)
    requires Present(s, f) && pid !in s.procs && 1 <= ttl <= cfg.maxTtlSeconds && Unused(s, linkId)
    ensures t == Run(cfg, s, events) && AllPlain(events) && t.store == s.store
    ensures var file := s.store.files[f];
            Moves(s, t, pid, Signing(Signs.Inserting(linkId, file, file.userId, ttl, s.clock / 1000 + ttl)), {linkId})
  {
    hide Step, CanonicalUuid, Run;
    var file := s.store.files[f];
    var mid := SignOpens(cfg, s, f, ttl, pid, linkId);
    t := SignDraws(cfg, mid, file, ttl, pid, linkId);
    var opening := [Start(pid, AskSign(f, file.userId, ttl), linkId), Try(pid, Succeeds)];
    events := opening + [Draw(pid, linkId)];
    RunAppend(cfg, s, opening, [Draw(pid, linkId)]);
  }

  lemma SignPhase(cfg: Config, s: Sys, f: string, ttl: int, pid: nat, linkId: string)
    returns (events: seq<Event>, t: Sys)
    requires Present(s, f) && pid !in s.procs && 1 <= ttl <= cfg.maxTtlSeconds
    requires Unused(s, linkId) && linkId !in s.store.links
    requires !SignatureTaken(s.store, cfg.signature(f, s.clock / 1000 + ttl))
    ensures t == Run(cfg, s, events) && AllPlain(events)
    ensures var file, expiresAt := s.store.files[f], s.clock / 1000 + ttl;
            && t.store == s.store.(links :=
                 s.store.links[linkId := Signs.Row(cfg, linkId, file, file.userId, ttl, expiresAt)])
            && Moves(s, t, pid, Signing(Signs.Logging(linkId, file, file.userId, ttl, expiresAt)), {linkId})
  {
    hide Step, CanonicalUuid;
    var file, expiresAt := s.store.files[f], s.clock / 1000 + ttl;
    var ready, s3 := SignReady(cfg, s, f, ttl, pid, linkId);
    t := SignInserts(cfg, s3, file, ttl, expiresAt, pid, linkId);
    events := ready + [Try(pid, Succeeds)];
    RunAppend(cfg, s, ready, [Try(pid, Succeeds)]);
  }

  /** The first upload of a new service saves its blob. */
  lemma UploadOpens(cfg: Config, userId: string, upload: Upload, f: string) returns (t: Sys)
    requires CanonicalUuid(f) && Uploads.Fault(cfg, userId, upload).None?
    ensures t == Run(cfg, Init, [Start(0, AskUpload(userId, upload), f), Try(0, Succeeds)])
    ensures var path := cfg.locate(f, upload.filename);
            t == Init.(store := EmptyStore.(blobs := map[path := upload.data]),
                       procs := map[0 := Upping(Uploads.Inserting(f, userId, upload, path))],
                       used := {f}, born := map[f := Birth(userId, upload, 0)])
  {
    hide Run, Canon, IsUuid;
    var e0, e1 := Start(0, AskUpload(userId, upload), f), Try(0, Succeeds);
    RunTwo(cfg, Init, e0, e1);
    var s1 := Step(cfg, Init, e0);
    assert s1.procs[0] == Upping(Uploads.Saving(f, userId, upload)) && s1.store == EmptyStore;
    t := Step(cfg, s1, e1);
  }

  /** The first upload of a new service, up to an attempt of its insert that takes effect. */
  lemma UploadPhase(cfg: Config, userId: string, upload: Upload, f: string, insert: Attempt)
    returns (events: seq<Event>, t: Sys)
    requires CanonicalUuid(f) && Uploads.Fault(cfg, userId, upload).None? && insert.Applied()
    ensures t == Run(cfg, Init, events) && t.used == {f} && t.procs.Keys == {0} && t.clock == 0
    ensures insert.Succeeds? ==> AllPlain(events)
    ensures var path := cfg.locate(f, upload.filename);
            var row := Uploads.NewRow(f, userId, upload, path);
            && t.store == Store(map[f := row], map[], [], map[path := upload.data])
            && t.born == map[f := Birth(userId, upload, 0)] && f in t.inserted
            && (insert.Retries() ==> t.procs[0] == Upping(Uploads.Inserting(f, userId, upload, path)))
            && (insert.Succeeds? ==> t.procs[0] == Done(Uploaded(row)) && t.hazyInserts == {})
            && t.hazyAudits == {}
  {
    hide Run, Canon, IsUuid;
    var path := cfg.locate(f, upload.filename);
    var opening := [Start(0, AskUpload(userId, upload), f), Try(0, Succeeds)];
    var s := UploadOpens(cfg, userId, upload, f);
    assert FileInsertable(s.store, Uploads.NewRow(f, userId, upload, path));
    RunOne(cfg, s, Try(0, insert));
    t := Step(cfg, s, Try(0, insert));
    events := opening + [Try(0, insert)];
    RunAppend(cfg, Init, opening, [Try(0, insert)]);
  }

  /** The owner's request to revoke link `l` arrives and finds the file. */
  lemma RevokeOpens(cfg: Config, s: Sys, f: string, l: string, pid: nat, id: string) returns (t: Sys)
    requires Present(s, f) && CanonicalUuid(l) && pid !in s.procs && Unused(s, id)
    ensures t == Run(cfg, s, [Start(pid, AskRevoke(f, l, s.store.files[f].userId), id), Try(pid, Succeeds)])
    ensures t.store == s.store
    ensures Moves(s, t, pid, Revoking(Revokes.Revoking(s.store.files[f], l, s.store.files[f].userId)), {})
  {
    var file := s.store.files[f];
    var e0, e := Start(pid, AskRevoke(f, l, file.userId), id), Try(pid, Succeeds);
    RunTwo(cfg, s, e0, e);
    var s1 := Step(cfg, s, e0);
    assert s1.procs[pid] == Revoking(Revokes.Lookup(f, l, file.userId));
    t := Step(cfg, s1, e);
  }

  lemma RevokePhase(cfg: Config, s: Sys, f: string, l: string, pid: nat, id: string)
    returns (events: seq<Event>, t: Sys)
    requires Present(s, f) && CanonicalUuid(l) && Revocable(s.store, l, f) && pid !in s.procs && Unused(s, id)
    ensures t == Run(cfg, s, events) && AllPlain(events)
    ensures t.store == s.store.(links := s.store.links[l := s.store.links[l].(revokedAt := Some(s.clock))])
    ensures Moves(s, t, pid, Revoking(Revokes.Logging(s.store.files[f], l, s.store.files[f].userId)), {})
  {
    hide Run;
    var file := s.store.files[f];
    var mid := RevokeOpens(cfg, s, f, l, pid, id);
    RunOne(cfg, mid, Try(pid, Succeeds));
    t := Step(cfg, mid, Try(pid, Succeeds));
    var opening := [Start(pid, AskRevoke(f, l, file.userId), id), Try(pid, Succeeds)];
    events := opening + [Try(pid, Succeeds)];
    RunAppend(cfg, s, opening, [Try(pid, Succeeds)]);
  }

  /** An audit append that works. */
  lemma LogsOnce(cfg: Config, s: Sys, pid: nat, event: AuditEvent) returns (t: Sys)
    requires Waiting(s, pid) && Await(cfg, s.procs[pid]) == OnAudit(Append(event))
    ensures t == Run(cfg, s, [Try(pid, Succeeds)])
    ensures t.store == s.store.(audit := s.store.audit + [event])
    ensures Moves(s, t, pid, Resume(cfg, s.procs[pid], Nothing), {})
  {
    hide Run, Resume, Await;
    RunOne(cfg, s, Try(pid, Succeeds));
    t := Step(cfg, s, Try(pid, Succeeds));
  }

  /** An audit append that takes effect in an attempt reported as failed, and again in the next. */
  lemma LogsTwice(cfg: Config, s: Sys, pid: nat, event: AuditEvent) returns (t: Sys)
    requires Waiting(s, pid) && Await(cfg, s.procs[pid]) == OnAudit(Append(event))
    ensures t == Run(cfg, s, [Try(pid, RetryApplied), Try(pid, Succeeds)])
    ensures t.store == s.store.(audit := s.store.audit + [event, event])
    ensures t.procs == s.procs[pid := Resume(cfg, s.procs[pid], Nothing)] && t.hazyInserts == s.hazyInserts
    ensures t.clock == s.clock && t.used == s.used && t.born == s.born
  {
    hide Run, Resume, Await;
    RunTwo(cfg, s, Try(pid, RetryApplied), Try(pid, Succeeds));
    var mid := Step(cfg, s, Try(pid, RetryApplied));
    assert mid.procs == s.procs;
    t := Step(cfg, mid, Try(pid, Succeeds));
    assert s.store.audit + [event] + [event] == s.store.audit + [event, event];
  }
}
