/** Runs that show what the service does not promise: each breaks a rule that holds but for the condition named. */
module Witnesses {
  import opened Wrappers
  import opened Codec
  import opened UrlSigner
  import opened Tables
  import opened Domain
  import opened Requests
  import opened System
  import opened Invariants
  import opened Preservation
  import opened Lifecycle
  import opened Phases
  import Uploads
  import Renames
  import Downloads
  import Histories
  import AuditFacts
  import Guarantees
  import Revocation
  import RevocationLog
  import StoredBytes
  import OrphanedBlobs

  // ---------- an insert that takes effect but is reported as a lost connection ----------

  /** A file that its owner deleted, on the record, is back. */
  lemma DeletedFileReturns(cfg: Config, userId: string, upload: Upload, f: string, id: string)
    returns (events: seq<Event>, more: seq<Event>)
    requires ValidConfig(cfg) && Uploads.Fault(cfg, userId, upload).None?
    requires CanonicalUuid(f) && CanonicalUuid(id) && f != id
    ensures var s, t := Run(cfg, Init, events), Run(cfg, Init, events + more);
            && f in s.inserted && f !in s.store.files && DeletionLogged(s, f) && !Settled(s, f)
            && f in t.store.files
  {
    hide Run, Canon, IsUuid, Inv;
    var ev1, s1 := UploadPhase(cfg, userId, upload, f, RetryApplied);
    var ev2, s2 := DeletePhase(cfg, s1, f, 1, id);
    events := ev1 + ev2;
    RunAppend(cfg, Init, ev1, ev2);
    ReachableInv(cfg, events);
    ReachableInv(cfg, ev1);
    RunKeepsInv(cfg, s1, ev2);
    assert IsDeletion(s2.store.audit[0], f, s2.born[f].userId);
    more := [Try(0, Succeeds)];
    var s3 := InsertAgain(cfg, s2, f, 0, Succeeds);
    RunAppend(cfg, Init, events, more);
  }

  lemma NoneTaken(s: Store, signature: string)
    requires s.links == map[]
    ensures !SignatureTaken(s, signature)
  {
  }

  /** A revoked link of such a file, its final second not reached: what `Revocation` says of it is not vacuous. */
  lemma UnsettledRevocationReachable(cfg: Config, userId: string, upload: Upload, f: string, l: string, id: string)
    returns (events: seq<Event>)
    requires ValidConfig(cfg) && cfg.maxTtlSeconds >= 1 && Uploads.Fault(cfg, userId, upload).None?
    requires CanonicalUuid(f) && CanonicalUuid(l) && CanonicalUuid(id)
    requires f != l && f != id && l != id
    ensures var s := Run(cfg, Init, events);
            && l in s.store.links && s.store.links[l].revokedAt.Some? && s.clock / 1000 < s.store.links[l].expiresAt
            && !Settled(s, s.store.links[l].fileId)
  {
    hide Run, IsUuid, SignatureTaken;
    var ev1, s1 := UploadPhase(cfg, userId, upload, f, RetryApplied);
    NoneTaken(s1.store, cfg.signature(f, 1));
    var ev2, s2 := SignPhase(cfg, s1, f, 1, 1, l);
    var ev3, s3 := RevokePhase(cfg, s2, f, l, 2, id);
    events := (ev1 + ev2) + ev3;
    RunAppend(cfg, Init, ev1, ev2);
    RunAppend(cfg, Init, ev1 + ev2, ev3);
  }

  /** The retried insert meets its own row, and the upload, taking that for a failure, removes the blob under it. */
  lemma RowWithoutBlobReachable(cfg: Config, userId: string, upload: Upload, f: string) returns (events: seq<Event>)
    requires ValidConfig(cfg) && CanonicalUuid(f) && Uploads.Fault(cfg, userId, upload).None?
    ensures var s := Run(cfg, Init, events); f in s.store.files && s.store.files[f].storagePath !in s.store.blobs
  {
    hide Run, Inv, Canon, IsUuid;
    var ev, s := UploadPhase(cfg, userId, upload, f, RetryApplied);
    ReachableInv(cfg, ev);
    var rest := StoredBytes.UploadRemovesBlob(cfg, s, f);
    events := ev + rest;
    RunAppend(cfg, Init, ev, rest);
  }

  /** An upload lost between its two writes leaves its bytes where nothing will ever remove them. */
  lemma OrphanReachable(cfg: Config, userId: string, upload: Upload, f: string) returns (events: seq<Event>)
    requires ValidConfig(cfg) && CanonicalUuid(f) && Uploads.Fault(cfg, userId, upload).None?
    ensures OrphanedBlobs.Abandoned(cfg, Run(cfg, Init, events), f)
  {
    hide Run, Canon, IsUuid, CanonicalUuid, TryStep, StartStep;
    var opening := [Start(0, AskUpload(userId, upload), f), Try(0, Succeeds)];
    var s := UploadOpens(cfg, userId, upload, f);
    events := opening + [Crash(0)];
    RunAppend(cfg, Init, opening, [Crash(0)]);
    RunOne(cfg, s, Crash(0));
  }

  /** The file comes back without its link, and the log still tells of it: no event was ever misreported. */
  lemma LogTellsOfNoLink(cfg: Config, userId: string, upload: Upload, f: string, l: string, id: string)
    returns (events: seq<Event>)
    requires ValidConfig(cfg) && cfg.maxTtlSeconds >= 1 && Uploads.Fault(cfg, userId, upload).None?
    requires CanonicalUuid(f) && CanonicalUuid(l) && CanonicalUuid(id)
    requires f != l && f != id && l != id
    ensures var s := Run(cfg, Init, events);
            && f in s.store.files && s.hazyAudits == {}
            && AuditFacts.LinksOf(s, f) == {} && AuditFacts.Generated(s, f) == {0}
  {
    hide Step, CanonicalUuid, SignatureTaken;
    hide Run, Canon, IsUuid, Inv;
    var ev1, s1 := UploadPhase(cfg, userId, upload, f, RetryApplied);
    NoneTaken(s1.store, cfg.signature(f, 1));
    var ev2, s2 := SignPhase(cfg, s1, f, 1, 1, l);
    var s3 := LogsOnce(cfg, s2, 1, AuditEvent(f, userId, LinkGenerated(1, 1)));
    var log := [Try(1, Succeeds)];
    events := ev1 + ev2 + log;
    RunAppend(cfg, Init, ev1, ev2);
    RunAppend(cfg, Init, ev1 + ev2, log);
    ReachableInv(cfg, events);
    var ev4, s4 := Revocation.Reinsert(cfg, s3, f, 0, 2, id);
    RunAppend(cfg, Init, events, ev4);
    events := events + ev4;
    assert s4.store.audit[0] == s4.store.audit[..1][0];
  }

  /** The file comes back, and so does the link that was revoked, its own insert having been misreported as well:
      the log says that it was revoked and it is not; then it is revoked again, and the log has two revocations of
      it -- though no event was ever misreported. */
  lemma LinkRevokedTwice(cfg: Config, userId: string, upload: Upload, f: string, l: string, id: string)
    returns (events: seq<Event>, between: seq<Event>)
    requires ValidConfig(cfg) && cfg.maxTtlSeconds >= 1 && Uploads.Fault(cfg, userId, upload).None?
    requires CanonicalUuid(f) && CanonicalUuid(l) && CanonicalUuid(id)
    requires f != l && f != id && l != id
    ensures var s := Run(cfg, Init, between);
            && f in s.store.files && s.hazyAudits == {} && |s.store.audit| == 2
            && AuditFacts.IsRevocation(s.store.audit[0], l) && l in s.store.links && s.store.links[l].revokedAt.None?
    ensures var s := Run(cfg, Init, events);
            && l in s.store.links && s.hazyAudits == {} && |s.store.audit| == 3
            && AuditFacts.IsRevocation(s.store.audit[0], l) && AuditFacts.IsRevocation(s.store.audit[2], l)
  {
    hide Run, Canon, IsUuid, Inv, RevocationLog.OwnRow, Settled;
    var unmade := AuditEvent(f, userId, LinkRevoked(l));
    var ev1, s1 := LinkHalfMade(cfg, userId, upload, f, l);
    var ev2, s2 := RevokePhase(cfg, s1, f, l, 2, id);
    var log1, log2 := [Try(2, Succeeds)], [Try(4, Succeeds)];
    var s3 := LogsOnce(cfg, s2, 2, unmade);
    events := ev1 + ev2 + log1;
    RunAppend(cfg, Init, ev1, ev2);
    RunAppend(cfg, Init, ev1 + ev2, log1);
    ReachableInv(cfg, events);
    RevocationLog.ReachableOwnRows(cfg, events);
    StillUploading(s3, f);
    assert RevocationLog.OwnRow(cfg, s3, 1);
    var ev4, s4 := RevocationLog.LinkReturns(cfg, s3, 1, l, 3, id);
    RunAppend(cfg, Init, events, ev4);
    between := events + ev4;
    PresentRow(cfg, s4, f);
    SameOwner(cfg, s3, s4, ev4, f);
    var ev5, s5 := RevokePhase(cfg, s4, f, l, 4, id);
    var s6 := LogsOnce(cfg, s5, 4, unmade);
    RunAppend(cfg, Init, between, ev5);
    RunAppend(cfg, Init, between + ev5, log2);
    events := between + ev5 + log2;
    assert s6.store.audit[0] == s4.store.audit[..1][0];
    CanonicalUuidIsOwn(l);
  }

  lemma StillUploading(s: Sys, f: string)
    requires f in s.born && s.born[f].pid in s.procs
    requires s.procs[s.born[f].pid].Upping? && s.procs[s.born[f].pid].u.Inserting? && s.procs[s.born[f].pid].u.id == f
    ensures !Settled(s, f)
  {
  }

  lemma SameOwner(cfg: Config, s: Sys, t: Sys, events: seq<Event>, f: string)
    requires Inv(cfg, s) && Inv(cfg, t) && t == Run(cfg, s, events)
    requires f in s.store.files && f in t.store.files
    ensures t.store.files[f].userId == s.store.files[f].userId
  {
    hide Inv, Run;
    BirthsInv(cfg, s);
    RunGrows(cfg, s, events);
    PresentRow(cfg, s, f);
    PresentRow(cfg, t, f);
  }

  /** An upload and a signing, each with its insert in effect but reported as a lost connection, to be tried again. */
  lemma LinkHalfMade(cfg: Config, userId: string, upload: Upload, f: string, l: string)
    returns (events: seq<Event>, t: Sys)
    requires cfg.maxTtlSeconds >= 1 && Uploads.Fault(cfg, userId, upload).None?
    requires CanonicalUuid(f) && CanonicalUuid(l) && f != l
    ensures t == Run(cfg, Init, events) && Present(t, f) && t.store.files[f].userId == userId
            && Revocable(t.store, l, f)
    ensures t.store.audit == [] && t.hazyAudits == {} && t.used == {f, l} && t.procs.Keys == {0, 1}
    ensures f in t.born && t.born[f].pid == 0 && t.procs[0].Upping? && t.procs[0].u.Inserting? && t.procs[0].u.id == f
    ensures RevocationLog.Inserts(t, 1, l)
  {
    hide Run, Canon, IsUuid;
    var ev1, s1 := UploadPhase(cfg, userId, upload, f, RetryApplied);
    var ev2, s2 := SignReady(cfg, s1, f, 1, 1, l);
    var e := Try(1, RetryApplied);
    RunOne(cfg, s2, e);
    t := Step(cfg, s2, e);
    events := ev1 + ev2 + [e];
    RunAppend(cfg, Init, ev1, ev2);
    RunAppend(cfg, Init, ev1 + ev2, [e]);
  }

  // ---------- an audit append that takes effect twice ----------

  /** One link, and in the log two events of its making and two of its revocation. */
  lemma LinkLoggedTwice(cfg: Config, userId: string, upload: Upload, f: string, l: string, id: string)
    returns (events: seq<Event>)
    requires ValidConfig(cfg) && cfg.maxTtlSeconds >= 1 && Uploads.Fault(cfg, userId, upload).None?
    requires CanonicalUuid(f) && CanonicalUuid(l) && CanonicalUuid(id)
    requires f != l && f != id && l != id
    ensures var s := Run(cfg, Init, events);
            && s.store.files.Keys == {f} && f !in s.hazyInserts
            && AuditFacts.LinksOf(s, f) == {l} && |AuditFacts.Generated(s, f)| == 2
            && |s.store.audit| == 4
            && AuditFacts.IsRevocation(s.store.audit[2], l) && AuditFacts.IsRevocation(s.store.audit[3], l)
  {
    hide Run, IsUuid, AuditFacts.LinksOf, AuditFacts.Generated, AuditFacts.IsRevocation, SignatureTaken;
    var ev1, s1 := UploadPhase(cfg, userId, upload, f, Succeeds);
    NoneTaken(s1.store, cfg.signature(f, 1));
    var ev2, s2 := SignPhase(cfg, s1, f, 1, 1, l);
    var made := AuditEvent(f, userId, LinkGenerated(1, 1));
    var s3 := LogsTwice(cfg, s2, 1, made);
    var ev4, s4 := RevokePhase(cfg, s3, f, l, 2, id);
    var unmade := AuditEvent(f, userId, LinkRevoked(l));
    var s5 := LogsTwice(cfg, s4, 2, unmade);
    var twice1, twice2 := [Try(1, RetryApplied), Try(1, Succeeds)], [Try(2, RetryApplied), Try(2, Succeeds)];
    events := ev1 + ev2 + twice1 + ev4 + twice2;
    RunAppend(cfg, Init, ev1, ev2);
    RunAppend(cfg, Init, ev1 + ev2, twice1);
    RunAppend(cfg, Init, ev1 + ev2 + twice1, ev4);
    RunAppend(cfg, Init, ev1 + ev2 + twice1 + ev4, twice2);
    assert s5.store.audit == [made, made, unmade, unmade];
    LoggedTwiceFacts(s5, f, l, made, unmade);
  }

  lemma LoggedTwiceFacts(s: Sys, f: string, l: string, made: AuditEvent, unmade: AuditEvent)
    requires s.store.audit == [made, made, unmade, unmade] && CanonicalUuid(l)
    requires made.fileId == f && made.what.LinkGenerated? && unmade.what == LinkRevoked(l)
    requires s.store.links.Keys == {l} && s.store.links[l].fileId == f
    ensures AuditFacts.LinksOf(s, f) == {l} && |AuditFacts.Generated(s, f)| == 2
    ensures AuditFacts.IsRevocation(s.store.audit[2], l) && AuditFacts.IsRevocation(s.store.audit[3], l)
  {
    assert AuditFacts.Generated(s, f) == {0, 1};
  }

  // ---------- the placeholder user ----------

  /** Anyone presents a correctly signed URL that is not in the table, and is refused: on the record of "unknown". */
  lemma RejectionPhase(cfg: Config, s: Sys, f: string, expires: string, signature: string, pid: nat, id: string)
    returns (events: seq<Event>, t: Sys)
    requires ValidConfig(cfg) && Present(s, f) && s.store.links == map[] && pid !in s.procs && Unused(s, id)
    requires cfg.verify(f, expires, signature, s.clock).Accepted?
    ensures t == Run(cfg, s, events)
    ensures t.store == s.store.(audit := s.store.audit + [AuditEvent(f, UNKNOWN_USER, UnknownLinkRejected)])
    ensures Moves(s, t, pid, Done(Rejected(UnknownLink)), {})
  {
    hide Run, Canon, IsUuid;
    CanonicalUuidIsOwn(f);
    var file := s.store.files[f];
    var claim := Claim(f, expires, signature, s.clock, cfg.verify(f, expires, signature, s.clock).expiresAt);
    var e := Try(pid, Succeeds);
    var start := Start(pid, AskDownload(f, expires, signature), id);
    RunTwo(cfg, s, start, e);
    var s1 := Step(cfg, s, start);
    assert s1.procs[pid] == Downloading(Downloads.Lookup(claim));
    var s2 := Step(cfg, s1, e);
    RejectionTail(cfg, s2, claim, file, pid);
    RunTwo(cfg, s2, e, e);
    t := Step(cfg, Step(cfg, s2, e), e);
    events := [start, e] + [e, e];
    RunAppend(cfg, s, [start, e], [e, e]);
  }

  lemma CanonicalUuidIsOwn(f: string)
    requires CanonicalUuid(f)
    ensures IsUuid(f) && Canon(f) == f
  {
  }

  lemma RejectionTail(cfg: Config, s: Sys, claim: Claim, file: FileRow, pid: nat)
    requires pid in s.procs && s.procs[pid] == Downloading(Downloads.Redeeming(claim, file)) && s.store.links == map[]
    ensures var e := Try(pid, Succeeds);
            var t := Step(cfg, Step(cfg, s, e), e);
            && t.store == s.store.(audit := s.store.audit + [AuditEvent(file.id, UNKNOWN_USER, UnknownLinkRejected)])
            && Moves(s, t, pid, Done(Rejected(UnknownLink)), {})
  {
    hide Canon, IsUuid;
    var e := Try(pid, Succeeds);
    assert forall l :: !IsLinkFor(s.store, file.id, claim.signature, l);
    assert Step(cfg, s, e).procs[pid] == Downloading(Downloads.Logging(claim, file, Downloads.NotIssued));
  }

  lemma HistoryOpens(cfg: Config, s: Sys, f: string, u: string, pid: nat, id: string) returns (t: Sys)
    requires CanonicalUuid(f) && f !in s.store.files && pid !in s.procs && Unused(s, id)
    ensures t == Run(cfg, s, [Start(pid, AskHistory(f, u), id), Try(pid, Succeeds)]) && t.store == s.store
    ensures Moves(s, t, pid, Reviewing(Histories.Consulting(f, u)), {})
  {
    hide Run, Canon, IsUuid;
    CanonicalUuidIsOwn(f);
    var e, start := Try(pid, Succeeds), Start(pid, AskHistory(f, u), id);
    RunTwo(cfg, s, start, e);
    var s1 := Step(cfg, s, start);
    assert s1.procs[pid] == Reviewing(Histories.Lookup(f, u));
    t := Step(cfg, s1, e);
  }

  lemma HistoryProceeds(cfg: Config, s: Sys, f: string, u: string, pid: nat) returns (t: Sys)
    requires pid in s.procs && s.procs[pid] == Reviewing(Histories.Consulting(f, u))
    requires Canon(f) == f && HasEventBy(s.store.audit, f, u)
    ensures t == Run(cfg, s, [Try(pid, Succeeds), Try(pid, Succeeds)]) && t.store == s.store
    ensures Moves(s, t, pid, Done(History(f, u, EventsOf(s.store.audit, f))), {})
  {
    hide Run, Canon, IsUuid, EventsOf, HasEventBy;
    var e := Try(pid, Succeeds);
    RunTwo(cfg, s, e, e);
    var s1 := Step(cfg, s, e);
    assert s1.procs[pid] == Reviewing(Histories.Listing(f, u));
    t := Step(cfg, s1, e);
  }

  /** The history of a file that has no row is asked for by someone with an event on record. */
  lemma HistoryPhase(cfg: Config, s: Sys, f: string, u: string, pid: nat, id: string)
    returns (events: seq<Event>, t: Sys)
    requires CanonicalUuid(f) && f !in s.store.files && HasEventBy(s.store.audit, f, u) && pid !in s.procs
            && Unused(s, id)
    ensures t == Run(cfg, s, events) && t.store == s.store
    ensures Moves(s, t, pid, Done(History(f, u, EventsOf(s.store.audit, f))), {})
  {
    hide Run, Step, Canon, IsUuid, EventsOf, HasEventBy, CanonicalUuid;
    var e, start := Try(pid, Succeeds), Start(pid, AskHistory(f, u), id);
    var s2 := HistoryOpens(cfg, s, f, u, pid, id);
    CanonicalUuidIsOwn(f);
    t := HistoryProceeds(cfg, s2, f, u, pid);
    MovesTwice(s, s2, t, pid, Reviewing(Histories.Consulting(f, u)),
        Done(History(f, u, EventsOf(s.store.audit, f))), {}, {});
    events := [start, e] + [e, e];
    RunAppend(cfg, s, [start, e], [e, e]);
  }

  /** A caller who calls himself "unknown" and owns nothing is shown the history of a deleted file. */
  lemma StrangerReadsHistory(cfg: Config, signer: Signer, userId: string, upload: Upload, f: string, id: string)
    returns (events: seq<Event>, shown: seq<AuditEvent>)
    requires ValidConfig(cfg) && Guarantees.SignedBy(cfg, signer) && signer.HashShaped() && signer.ReadsDigits()
    requires Uploads.Fault(cfg, userId, upload).None? && userId != UNKNOWN_USER
    requires CanonicalUuid(f) && CanonicalUuid(id) && f != id
    ensures var s := Run(cfg, Init, events);
            && f in s.born && s.born[f].userId != UNKNOWN_USER
            && 3 in s.procs && s.procs[3] == Done(History(f, UNKNOWN_USER, shown)) && |shown| == 2
  {
    hide Run, Canon, IsUuid, CanonicalUuid, HexEqual;
    var ev1, s1 := UploadPhase(cfg, userId, upload, f, Succeeds);
    var url := signer.Sign(f, 1, 0);
    PresentAfterUpload(cfg, signer, s1, f);
    var ev2, s2 := RejectionPhase(cfg, s1, f, url.expires, url.signature, 1, id);
    var ev3, s3 := DeletePhase(cfg, s2, f, 2, id);
    assert s3.store.audit[0].fileId == f && s3.store.audit[0].userId == UNKNOWN_USER;
    var ev4, s4 := HistoryPhase(cfg, s3, f, UNKNOWN_USER, 3, id);
    shown := EventsOf(s3.store.audit, f);
    TwoEvents(s3.store.audit, f);
    events := ev1 + ev2 + ev3 + ev4;
    RunAppend(cfg, Init, ev1, ev2);
    RunAppend(cfg, Init, ev1 + ev2, ev3);
    RunAppend(cfg, Init, ev1 + ev2 + ev3, ev4);
  }

  lemma PresentAfterUpload(cfg: Config, signer: Signer, s: Sys, f: string)
    requires Guarantees.SignedBy(cfg, signer) && signer.HashShaped() && signer.ReadsDigits() && CanonicalUuid(f)
    ensures var url := signer.Sign(f, 1, 0); cfg.verify(f, url.expires, url.signature, 0).Accepted?
  {
    hide HexEqual;
    AcceptedUntilExpiry(signer, f, 1, 0, 0);
    var url := signer.Sign(f, 1, 0);
    assert cfg.verify(f, url.expires, url.signature, 0) == signer.Verify(f, url.expires, url.signature, 0);
  }

  lemma TwoEvents(audit: seq<AuditEvent>, f: string)
    requires |audit| == 2 && audit[0].fileId == audit[1].fileId == f
    ensures |EventsOf(audit, f)| == 2
  {
    assert audit[..1][..0] == [];
    assert EventsOf(audit[..1], f) == [audit[0]];
  }

  // ---------- racing renames ----------

  /** The owner's request to rename `f` arrives and finds the row. */
  lemma RenameOpens(cfg: Config, s: Sys, f: string, name: string, pid: nat, id: string) returns (t: Sys)
    requires Present(s, f) && pid !in s.procs && Unused(s, id) && cfg.trim(name) == name != ""
    ensures t == Run(cfg, s, [Start(pid, AskRename(f, s.store.files[f].userId, Some(name)), id), Try(pid, Succeeds)])
    ensures t.store == s.store
    ensures Moves(s, t, pid, Request.Renaming(Renames.Renaming(s.store.files[f], s.store.files[f].userId, name)), {})
  {
    hide Run, Canon, IsUuid;
    CanonicalUuidIsOwn(f);
    var file := s.store.files[f];
    var e0, e := Start(pid, AskRename(f, file.userId, Some(name)), id), Try(pid, Succeeds);
    RunTwo(cfg, s, e0, e);
    var s1 := Step(cfg, s, e0);
    assert s1.procs[pid] == Request.Renaming(Renames.Lookup(f, file.userId, Some(name)));
    t := Step(cfg, s1, e);
  }

  /** It renames the row. */
  lemma RenameUpdates(cfg: Config, s: Sys, file: FileRow, name: string, pid: nat) returns (t: Sys)
    requires pid in s.procs && s.procs[pid] == Request.Renaming(Renames.Renaming(file, file.userId, name))
            && file.id in s.store.files
    ensures t == Run(cfg, s, [Try(pid, Succeeds)])
    ensures var row := s.store.files[file.id].(filename := name);
            && t.store == s.store.(files := s.store.files[file.id := row])
            && Moves(s, t, pid, Request.Renaming(Renames.Logging(file, file.userId, name, Some(row))), {})
  {
    hide Run;
    RunOne(cfg, s, Try(pid, Succeeds));
    t := Step(cfg, s, Try(pid, Succeeds));
  }

  /** It logs the rename. */
  lemma RenameLogs(cfg: Config, s: Sys, file: FileRow, name: string, updated: Option<FileRow>, pid: nat)
    returns (t: Sys)
    requires pid in s.procs && s.procs[pid] == Request.Renaming(Renames.Logging(file, file.userId, name, updated))
    ensures t == Run(cfg, s, [Try(pid, Succeeds)])
    ensures t.store == s.store.(audit := s.store.audit
            + [AuditEvent(file.id, file.userId, FileRenamed(file.filename, name))])
    ensures Moves(s, t, pid, Done(Renamed(updated)), {})
  {
    hide Run;
    RunOne(cfg, s, Try(pid, Succeeds));
    t := Step(cfg, s, Try(pid, Succeeds));
  }

  /** Two renames race, without any failure: the row ends with one name and the log with the other, and both events
      start from the same name. So the log replays to the tables for requests handled one after the other only. */
  lemma RacingRenamesDisagree(cfg: Config, userId: string, upload: Upload, f: string, id: string, a: string, b: string)
    returns (events: seq<Event>)
    requires ValidConfig(cfg) && Uploads.Fault(cfg, userId, upload).None? && CanonicalUuid(f)
            && CanonicalUuid(id) && f != id
    requires cfg.trim(a) == a != "" && cfg.trim(b) == b != ""
    ensures var s := Run(cfg, Init, events);
            && f in s.store.files && s.store.files[f].filename == b
            && s.store.audit == [AuditEvent(f, userId, FileRenamed(upload.filename, b)),
                                 AuditEvent(f, userId, FileRenamed(upload.filename, a))]
  {
    hide Run, Canon, IsUuid, CanonicalUuid, Step;
    var ev, s0 := UploadPhase(cfg, userId, upload, f, Succeeds);
    var file := s0.store.files[f];
    var s1 := RenameOpens(cfg, s0, f, a, 1, id);
    var s2 := RenameOpens(cfg, s1, f, b, 2, id);
    var s3 := RenameUpdates(cfg, s2, file, a, 1);
    var s4 := RenameUpdates(cfg, s3, file, b, 2);
    var s5 := RenameLogs(cfg, s4, file, b, Some(file.(filename := b)), 2);
    var s6 := RenameLogs(cfg, s5, file, a, Some(file.(filename := a)), 1);
    var open1 := [Start(1, AskRename(f, userId, Some(a)), id), Try(1, Succeeds)];
    var open2 := [Start(2, AskRename(f, userId, Some(b)), id), Try(2, Succeeds)];
    var one, two := [Try(1, Succeeds)], [Try(2, Succeeds)];
    events := ev + open1 + open2 + one + two + two + one;
    RunAppend(cfg, Init, ev, open1);
    RunAppend(cfg, Init, ev + open1, open2);
    RunAppend(cfg, Init, ev + open1 + open2, one);
    RunAppend(cfg, Init, ev + open1 + open2 + one, two);
    RunAppend(cfg, Init, ev + open1 + open2 + one + two, two);
    RunAppend(cfg, Init, ev + open1 + open2 + one + two + two, one);
  }

  /** Its update finds the row gone. */
  lemma RenameMisses(cfg: Config, s: Sys, file: FileRow, name: string, pid: nat) returns (t: Sys)
    requires pid in s.procs && s.procs[pid] == Request.Renaming(Renames.Renaming(file, file.userId, name))
            && file.id !in s.store.files
    ensures t == Run(cfg, s, [Try(pid, Succeeds)]) && t.store == s.store
    ensures Moves(s, t, pid, Request.Renaming(Renames.Logging(file, file.userId, name, None)), {})
  {
    hide Run;
    RunOne(cfg, s, Try(pid, Succeeds));
    t := Step(cfg, s, Try(pid, Succeeds));
  }

  /** A rename that is overtaken by a delete is logged after it and answered with no row, without any failure. */
  lemma DeletedFileRenamed(cfg: Config, userId: string, upload: Upload, f: string, id: string, name: string)
    returns (events: seq<Event>)
    requires ValidConfig(cfg) && Uploads.Fault(cfg, userId, upload).None? && CanonicalUuid(f)
            && CanonicalUuid(id) && f != id && cfg.trim(name) == name != ""
    ensures AllPlain(events)
    ensures var s := Run(cfg, Init, events);
            && f !in s.store.files && 1 in s.procs && s.procs[1] == Done(Renamed(None))
            && |s.store.audit| == 2 && IsDeletion(s.store.audit[0], f, userId)
            && s.store.audit[1] == AuditEvent(f, userId, FileRenamed(upload.filename, name))
  {
    hide Run, Canon, IsUuid, CanonicalUuid, Step;
    var ev, s0 := UploadPhase(cfg, userId, upload, f, Succeeds);
    var file := s0.store.files[f];
    var s1 := RenameOpens(cfg, s0, f, name, 1, id);
    var gone, s2 := DeletePhase(cfg, s1, f, 2, id);
    var s3 := RenameMisses(cfg, s2, file, name, 1);
    var s4 := RenameLogs(cfg, s3, file, name, None, 1);
    var opening := [Start(1, AskRename(f, userId, Some(name)), id), Try(1, Succeeds)];
    var one := [Try(1, Succeeds)];
    events := ev + opening + gone + one + one;
    RunAppend(cfg, Init, ev, opening);
    RunAppend(cfg, Init, ev + opening, gone);
    RunAppend(cfg, Init, ev + opening + gone, one);
    RunAppend(cfg, Init, ev + opening + gone + one, one);
  }
}
