/** Every event keeps the invariants, so they hold in every run. */
module Preservation {
  import opened Codec
  import opened Tables
  import opened Domain
  import opened Requests
  import opened System
  import opened Invariants
  import Uploads
  import Renames
  import Deletes
  import Signs
  import Revokes
  import Downloads
  import Histories

  // ---------- the tables ----------

  /** The calls requests make are calls they may make. */
  ghost predicate Justified(cfg: Config, s: Sys, call: Call) {
    match call
    case OnBlobs(b) => b.Save? ==> BlobOk(cfg, s, b.location, b.data)
    case OnFiles(f) => (f.InsertFile? ==> RowOk(cfg, s, f.row)) && (f.DeleteFile? ==> DeletionLogged(s, f.id))
    case OnLinks(l) => l.InsertLink? ==> LinkOk(cfg, s, l.link)
    case OnAudit(a) => a.Append? ==> EventOk(s, a.event)
  }

  lemma CallsJustified(cfg: Config, s: Sys, pid: nat, r: Request)
    requires BirthsOk(cfg, s) && RequestOk(cfg, s, pid, r) && Awaits(r)
    ensures Justified(cfg, s, Await(cfg, r))
  {
    if r.Upping? && r.u.Saving? {
      assert cfg.locate(r.u.id, r.u.upload.filename) == PathOf(cfg, s, r.u.id);
    }
  }

  lemma FilesKept(cfg: Config, s: Sys, t: Sys, call: Call)
    requires FilesOk(cfg, s) && Justified(cfg, s, call) && Grows(s, t)
    requires t.store.files == Perform(s.store, call, s.clock).0.files && t.store.files.Keys <= t.inserted
    ensures FilesOk(cfg, t)
  {
    FilesEffect(s.store, call, s.clock);
    forall f | f in t.store.files
      ensures t.store.files[f].id == f && Seen(cfg, t, t.store.files[f])
    {
      if f in s.store.files && SameButName(s.store.files[f], t.store.files[f]) {
        SeenStable(cfg, s, t, s.store.files[f]);
      }
    }
  }

  lemma BlobsKept(cfg: Config, s: Sys, t: Sys, call: Call)
    requires BlobsOk(cfg, s) && Justified(cfg, s, call) && Grows(s, t)
    requires t.store.blobs == Perform(s.store, call, s.clock).0.blobs
    ensures BlobsOk(cfg, t)
  {
    BlobsEffect(s.store, call, s.clock);
    forall p | p in t.store.blobs
      ensures BlobOk(cfg, t, p, t.store.blobs[p])
    {
      BlobStable(cfg, s, t, p, t.store.blobs[p]);
    }
  }

  lemma LinksKept(cfg: Config, s: Sys, t: Sys, call: Call)
    requires LinksOk(cfg, s) && Justified(cfg, s, call) && Grows(s, t)
    requires t.store.links == Perform(s.store, call, s.clock).0.links
    ensures LinksOk(cfg, t)
  {
    LinksEffect(s.store, call, s.clock);
    forall l | l in t.store.links
      ensures LinkOk(cfg, t, t.store.links[l])
    {
      if l in s.store.links && SameButRevocation(s.store.links[l], t.store.links[l]) {
        LinkStable(cfg, s, t, s.store.links[l]);
      } else {
        LinkStable(cfg, s, t, t.store.links[l]);
      }
    }
  }

  lemma AuditKept(cfg: Config, s: Sys, t: Sys, call: Call)
    requires AuditOk(s) && Justified(cfg, s, call) && Grows(s, t)
    requires t.store.audit == Perform(s.store, call, s.clock).0.audit
    ensures AuditOk(t)
  {
    AuditEffect(s.store, call, s.clock);
    forall i | 0 <= i < |t.store.audit|
      ensures EventOk(t, t.store.audit[i])
    {
      EventStable(s, t, t.store.audit[i]);
    }
  }

  lemma DeathsKept(cfg: Config, s: Sys, t: Sys, call: Call)
    requires DeathsOk(s) && Justified(cfg, s, call) && Grows(s, t)
    requires t.store.files == Perform(s.store, call, s.clock).0.files && t.inserted == s.inserted + t.store.files.Keys
    ensures DeathsOk(t)
  {
    FilesEffect(s.store, call, s.clock);
    forall f | f in t.inserted && f !in t.store.files
      ensures DeletionLogged(t, f)
    {
      assert f in s.inserted;
      DeletionLoggedStable(s, t, f);
    }
  }

  // ---------- the request that moved ----------

  /** `t` is `s` after `call` has taken effect. */
  ghost predicate After(s: Sys, t: Sys, call: Call) {
    Grows(s, t) && t.store == Perform(s.store, call, s.clock).0 && t.store.files.Keys <= t.inserted
  }

  ghost function ReplyTo(s: Sys, call: Call): Reply {
    Perform(s.store, call, s.clock).1
  }

  /** What the lookup of a file by the id in a request yields is a row that was in the table. */
  lemma Found(cfg: Config, s: Sys, t: Sys, id: string)
    requires FilesOk(cfg, s) && Grows(s, t)
    ensures var found := FileOf(ReplyTo(s, OnFiles(FindFile(id))));
            found.Some? ==> Seen(cfg, t, found.value) && found.value.id == id
  {
    if id in s.store.files {
      SeenStable(cfg, s, t, s.store.files[id]);
    }
  }

  lemma UploadMoves(cfg: Config, s: Sys, t: Sys, pid: nat, u: Uploads.Step)
    requires BirthsOk(cfg, s) && UploadOk(cfg, s, pid, u) && After(s, t, Uploads.Await(cfg, u))
    ensures match Uploads.Resume(cfg, u, ReplyTo(s, Uploads.Await(cfg, u)))
            case Goes(next) => UploadOk(cfg, t, pid, next)
            case Ends(response) => ResponseOk(cfg, t, response)
  {
    if u.Inserting? {
      var row := Uploads.NewRow(u.id, u.userId, u.upload, u.path);
      if FileInsertable(s.store, row) {
        assert row.id in t.store.files;
        assert Seen(cfg, t, row);
      }
    }
  }

  lemma RenameMoves(cfg: Config, s: Sys, t: Sys, n: Renames.Step)
    requires FilesOk(cfg, s) && RenameOk(cfg, s, n) && After(s, t, Renames.Await(n))
    ensures match Renames.Resume(cfg, n, ReplyTo(s, Renames.Await(n)))
            case Goes(next) => RenameOk(cfg, t, next)
            case Ends(response) => ResponseOk(cfg, t, response)
  {
    if n.Lookup? {
      Found(cfg, s, t, Canon(n.fileId));
    } else {
      SeenStable(cfg, s, t, n.file);
    }
  }

  lemma DeleteMoves(cfg: Config, s: Sys, t: Sys, d: Deletes.Step)
    requires FilesOk(cfg, s) && DeleteOk(cfg, s, d) && After(s, t, Deletes.Await(d))
    ensures match Deletes.Resume(d, ReplyTo(s, Deletes.Await(d)))
            case Goes(next) => DeleteOk(cfg, t, next)
            case Ends(response) => ResponseOk(cfg, t, response)
  {
    if d.Lookup? {
      Found(cfg, s, t, Canon(d.fileId));
    } else {
      DeleteStable(cfg, s, t, d);
      if d.Logging? {
        var event := Deletes.Await(d).audit.event;
        assert t.store.audit[|s.store.audit|] == event;
        assert IsDeletion(event, d.file.id, t.born[d.file.id].userId);
      }
    }
  }

  lemma SignMoves(cfg: Config, s: Sys, t: Sys, pid: nat, g: Signs.Step)
    requires FilesOk(cfg, s) && SignOk(cfg, s, pid, g) && !g.Drawing? && After(s, t, Signs.Await(cfg, g))
    ensures match Signs.Resume(cfg, g, ReplyTo(s, Signs.Await(cfg, g)))
            case Goes(next) => SignOk(cfg, t, pid, next)
            case Ends(response) => ResponseOk(cfg, t, response)
  {
    if g.Lookup? {
      Found(cfg, s, t, Canon(g.fileId));
    } else {
      SeenStable(cfg, s, t, g.file);
    }
  }

  lemma RevokeMoves(cfg: Config, s: Sys, t: Sys, v: Revokes.Step)
    requires FilesOk(cfg, s) && RevokeOk(cfg, s, v) && After(s, t, Revokes.Await(v))
    ensures match Revokes.Resume(v, ReplyTo(s, Revokes.Await(v)))
            case Goes(next) => RevokeOk(cfg, t, next)
            case Ends(response) => ResponseOk(cfg, t, response)
  {
    if v.Lookup? {
      Found(cfg, s, t, Canon(v.fileId));
    } else {
      SeenStable(cfg, s, t, v.file);
    }
  }

  /** What is at a file's location is that file's upload. */
  lemma BlobIsOwn(cfg: Config, s: Sys, f: string)
    requires ValidConfig(cfg) && BlobsOk(cfg, s) && BirthsOk(cfg, s)
    requires f in s.born && PathOf(cfg, s, f) in s.store.blobs
    ensures s.store.blobs[PathOf(cfg, s, f)] == s.born[f].upload.data
  {
    var p := PathOf(cfg, s, f);
    assert BlobOk(cfg, s, p, s.store.blobs[p]);
    var g :| g in s.born && p == PathOf(cfg, s, g) && s.store.blobs[p] == s.born[g].upload.data;
    assert CanonicalUuid(f) && CanonicalUuid(g);
  }

  lemma RedeemMoves(cfg: Config, s: Sys, t: Sys, claim: Claim, file: FileRow)
    requires LinksOk(cfg, s) && ClaimedFile(cfg, s, claim, file) && Grows(s, t)
    ensures DownloadOk(cfg, t, Downloads.Logging(claim, file,
            Downloads.VerdictOn(LinkFor(s.store, file.id, claim.signature))))
  {
    SeenStable(cfg, s, t, file);
    var found := LinkFor(s.store, file.id, claim.signature);
    if found.Some? {
      var l :| IsLinkFor(s.store, file.id, claim.signature, l) && s.store.links[l] == found.value;
      MatchedStable(cfg, s, t, claim, file, s.store.links[l]);
    }
  }

  lemma ReadMoves(cfg: Config, s: Sys, t: Sys, claim: Claim, file: FileRow, link: LinkRow)
    requires ValidConfig(cfg) && BirthsOk(cfg, s) && BlobsOk(cfg, s) && GrantLogged(cfg, s, claim, file, link)
            && Grows(s, t)
    requires file.storagePath in s.store.blobs
    ensures ResponseOk(cfg, t, Downloaded(file, s.store.blobs[file.storagePath], claim, link))
  {
    GrantStable(cfg, s, t, claim, file, link);
    BlobIsOwn(cfg, s, file.id);
  }

  lemma GrantMoves(cfg: Config, s: Sys, t: Sys, claim: Claim, file: FileRow, link: LinkRow)
    requires Matched(cfg, s, claim, file, link) && link.revokedAt.None? && Grows(s, t)
    requires t.store.audit == s.store.audit + [Downloads.VerdictEvent(file, Downloads.Granted(link))]
    ensures GrantLogged(cfg, t, claim, file, link)
  {
    MatchedStable(cfg, s, t, claim, file, link);
    assert t.store.audit[|s.store.audit|] == Downloads.VerdictEvent(file, Downloads.Granted(link));
  }

  lemma DownloadMoves(cfg: Config, s: Sys, t: Sys, w: Downloads.Step)
    requires ValidConfig(cfg) && BirthsOk(cfg, s) && FilesOk(cfg, s) && BlobsOk(cfg, s) && LinksOk(cfg, s)
    requires DownloadOk(cfg, s, w) && After(s, t, Downloads.Await(w))
    ensures match Downloads.Resume(w, ReplyTo(s, Downloads.Await(w)))
            case Goes(next) => DownloadOk(cfg, t, next)
            case Ends(response) => ResponseOk(cfg, t, response)
  {
    hide BlobsOk, LinksOk, FilesOk, BirthsOk, ValidConfig, GrantLogged, Matched;
    match w
    case Lookup(claim) => Found(cfg, s, t, Canon(claim.fileId));
    case Redeeming(claim, file) => RedeemMoves(cfg, s, t, claim, file);
    case Logging(claim, file, verdict) =>
      if verdict.Granted? {
        GrantMoves(cfg, s, t, claim, file, verdict.link);
      }
    case Probing(claim, file, link) => GrantStable(cfg, s, t, claim, file, link);
    case Reading(claim, file, link) =>
      if file.storagePath in s.store.blobs {
        ReadMoves(cfg, s, t, claim, file, link);
      }
  }

  lemma EventsOfFile(audit: seq<AuditEvent>, fileId: string)
    ensures forall i :: 0 <= i < |EventsOf(audit, fileId)| ==> EventsOf(audit, fileId)[i].fileId == fileId
  {
  }

  lemma EventEntitles(s: Sys, t: Sys, f: string, userId: string)
    requires AuditOk(s) && Grows(s, t) && HasEventBy(s.store.audit, f, userId)
    ensures Entitled(t, f, userId)
  {
    var i :| 0 <= i < |s.store.audit| && s.store.audit[i].fileId == f && s.store.audit[i].userId == userId;
    EventStable(s, t, s.store.audit[i]);
    assert t.store.audit[i] == s.store.audit[i];
  }

  lemma HistoryMoves(cfg: Config, s: Sys, t: Sys, h: Histories.Step)
    requires BirthsOk(cfg, s) && FilesOk(cfg, s) && AuditOk(s)
    requires HistoryOk(s, h) && After(s, t, Histories.Await(h))
    ensures match Histories.Resume(h, ReplyTo(s, Histories.Await(h)))
            case Goes(next) => HistoryOk(t, next)
            case Ends(response) => ResponseOk(cfg, t, response)
  {
    var f := Canon(h.fileId);
    match h
    case Lookup(_, _) => Found(cfg, s, t, f);
    case Consulting(_, userId) =>
      if HasEventBy(s.store.audit, f, userId) {
        EventEntitles(s, t, f, userId);
      }
    case Listing(_, userId) =>
      EntitledStable(s, t, f, userId);
      EventsOfFile(s.store.audit, f);
  }

  lemma RequestMoves(cfg: Config, s: Sys, t: Sys, pid: nat, r: Request)
    requires ValidConfig(cfg) && BirthsOk(cfg, s) && FilesOk(cfg, s) && BlobsOk(cfg, s) && LinksOk(cfg, s) && AuditOk(s)
    requires RequestOk(cfg, s, pid, r) && Awaits(r) && After(s, t, Await(cfg, r))
    ensures RequestOk(cfg, t, pid, Resume(cfg, r, ReplyTo(s, Await(cfg, r))))
  {
    match r
    case Upping(u) => UploadMoves(cfg, s, t, pid, u);
    case Renaming(n) => RenameMoves(cfg, s, t, n);
    case Deleting(d) => DeleteMoves(cfg, s, t, d);
    case Signing(g) => SignMoves(cfg, s, t, pid, g);
    case Revoking(v) => RevokeMoves(cfg, s, t, v);
    case Downloading(w) => DownloadMoves(cfg, s, t, w);
    case Reviewing(h) => HistoryMoves(cfg, s, t, h);
  }

  lemma RequestFails(cfg: Config, t: Sys, pid: nat, r: Request)
    requires RequestOk(cfg, t, pid, r) && Awaits(r)
    ensures RequestOk(cfg, t, pid, Resume(cfg, r, Thrown))
  {
  }

  // ---------- events ----------

  /** `t` differs from `s` in the tables not at all, and its births are those of `s` but for unused ids. */
  ghost predicate Quiet(s: Sys, t: Sys) {
    Grows(s, t) && t.store == s.store && t.inserted == s.inserted
  }

  lemma QuietKeepsTables(cfg: Config, s: Sys, t: Sys)
    requires FilesOk(cfg, s) && BlobsOk(cfg, s) && LinksOk(cfg, s) && AuditOk(s) && DeathsOk(s) && Quiet(s, t)
    ensures FilesOk(cfg, t) && BlobsOk(cfg, t) && LinksOk(cfg, t) && AuditOk(t) && DeathsOk(t)
  {
    forall f | f in t.store.files
      ensures t.store.files[f].id == f && Seen(cfg, t, t.store.files[f])
    {
      SeenStable(cfg, s, t, s.store.files[f]);
    }
    forall p | p in t.store.blobs
      ensures BlobOk(cfg, t, p, t.store.blobs[p])
    {
      BlobStable(cfg, s, t, p, s.store.blobs[p]);
    }
    forall l | l in t.store.links
      ensures LinkOk(cfg, t, t.store.links[l])
    {
      LinkStable(cfg, s, t, s.store.links[l]);
    }
    forall i | 0 <= i < |t.store.audit|
      ensures EventOk(t, t.store.audit[i])
    {
      EventStable(s, t, s.store.audit[i]);
    }
    forall f | f in t.inserted && f !in t.store.files
      ensures DeletionLogged(t, f)
    {
      DeletionLoggedStable(s, t, f);
    }
  }

  lemma RequestsKept(cfg: Config, s: Sys, t: Sys, pid: nat)
    requires RequestsOk(cfg, s) && Grows(s, t) && pid in t.procs
    requires t.procs == s.procs[pid := t.procs[pid]] && RequestOk(cfg, t, pid, t.procs[pid])
    ensures RequestsOk(cfg, t)
  {
    forall q | q in t.procs
      ensures RequestOk(cfg, t, q, t.procs[q])
    {
      if q != pid {
        RequestStable(cfg, s, t, q, s.procs[q]);
      }
    }
  }

  lemma TickKeeps(cfg: Config, s: Sys, t: Sys)
    requires Inv(cfg, s) && Quiet(s, t) && t.procs == s.procs && t.clock <= MAX_TIME
    requires t.born == s.born && t.drafts == s.drafts && t.used == s.used
    ensures Inv(cfg, t)
  {
    QuietKeepsTables(cfg, s, t);
    forall q | q in t.procs
      ensures RequestOk(cfg, t, q, t.procs[q])
    {
      RequestStable(cfg, s, t, q, s.procs[q]);
    }
  }

  lemma BirthsInv(cfg: Config, s: Sys)
    requires Inv(cfg, s)
    ensures IdsTracked(s) && 0 <= s.clock <= MAX_TIME
  {
  }

  lemma CrashKeeps(cfg: Config, s: Sys, t: Sys, pid: nat)
    requires Inv(cfg, s) && pid in s.procs && t == s.(procs := s.procs[pid := Done(Crashed)])
    ensures Inv(cfg, t)
  {
    QuietKeepsTables(cfg, s, t);
    RequestsKept(cfg, s, t, pid);
  }

  lemma EntryOk(cfg: Config, s: Sys, t: Sys, pid: nat, ask: Ask, newId: string)
    requires ValidConfig(cfg) && t.clock == s.clock
    requires var r := Entry(cfg, ask, s.clock, newId);
             r.Upping? ==> newId in t.born && t.born[newId] == Birth(ask.userId, ask.upload, pid)
    ensures RequestOk(cfg, t, pid, Entry(cfg, ask, s.clock, newId))
  {
  }

  lemma StartKeeps(cfg: Config, s: Sys, pid: nat, ask: Ask, newId: string)
    requires ValidConfig(cfg) && Inv(cfg, s) && pid !in s.procs && Unused(s, newId)
    ensures Inv(cfg, StartStep(cfg, s, pid, ask, newId))
  {
    hide Canon, IsUuid, Seen, RequestOk, Constraints;
    var t := StartStep(cfg, s, pid, ask, newId);
    StepGrows(cfg, s, Start(pid, ask, newId));
    QuietKeepsTables(cfg, s, t);
    EntryOk(cfg, s, t, pid, ask, newId);
    RequestsKept(cfg, s, t, pid);
  }

  lemma DrawKeeps(cfg: Config, s: Sys, pid: nat, newId: string)
    requires ValidConfig(cfg) && Inv(cfg, s) && Drawing(s, pid) && Unused(s, newId)
    ensures Inv(cfg, DrawStep(s, pid, newId))
  {
    hide Canon, IsUuid, Constraints, DeletionLogged, EventOk, LinkOk, BlobOk;
    var t := DrawStep(s, pid, newId);
    StepGrows(cfg, s, Draw(pid, newId));
    QuietKeepsTables(cfg, s, t);
    assert SignOk(cfg, s, pid, s.procs[pid].g) by {
      assert RequestOk(cfg, s, pid, s.procs[pid]);
    }
    SeenStable(cfg, s, t, s.procs[pid].g.file);
    RequestsKept(cfg, s, t, pid);
  }

  /** A failed attempt without effect changes no table. */
  lemma UnappliedKeeps(cfg: Config, s: Sys, pid: nat, attempt: Attempt)
    requires Inv(cfg, s) && Waiting(s, pid) && !attempt.Applied()
    ensures Inv(cfg, TryStep(cfg, s, pid, attempt))
  {
    var t := TryStep(cfg, s, pid, attempt);
    var r := s.procs[pid];
    assert t.store == s.store;
    assert s.store.files.Keys <= s.inserted;
    TryGrows(cfg, s, pid, attempt);
    QuietKeepsTables(cfg, s, t);
    RequestStable(cfg, s, t, pid, r);
    RequestFails(cfg, t, pid, r);
    RequestsKept(cfg, s, t, pid);
  }

  lemma AppliedKeepsTables(cfg: Config, s: Sys, pid: nat, attempt: Attempt)
    requires Inv(cfg, s) && Waiting(s, pid) && attempt.Applied()
    ensures var t := TryStep(cfg, s, pid, attempt);
            Constraints(t.store) && FilesOk(cfg, t) && BlobsOk(cfg, t) && LinksOk(cfg, t) && AuditOk(t) && DeathsOk(t)
  {
    var t := TryStep(cfg, s, pid, attempt);
    var call := Await(cfg, s.procs[pid]);
    TryGrows(cfg, s, pid, attempt);
    CallsJustified(cfg, s, pid, s.procs[pid]);
    ConstraintsKept(s.store, call, s.clock);
    FilesKept(cfg, s, t, call);
    BlobsKept(cfg, s, t, call);
    LinksKept(cfg, s, t, call);
    AuditKept(cfg, s, t, call);
    DeathsKept(cfg, s, t, call);
  }

  lemma AppliedKeeps(cfg: Config, s: Sys, pid: nat, attempt: Attempt)
    requires ValidConfig(cfg) && Inv(cfg, s) && Waiting(s, pid) && attempt.Applied()
    ensures Inv(cfg, TryStep(cfg, s, pid, attempt))
  {
    var t := TryStep(cfg, s, pid, attempt);
    var r := s.procs[pid];
    AppliedKeepsTables(cfg, s, pid, attempt);
    TryGrows(cfg, s, pid, attempt);
    RequestMoves(cfg, s, t, pid, r);
    RequestStable(cfg, s, t, pid, r);
    RequestFails(cfg, t, pid, r);
    RequestsKept(cfg, s, t, pid);
    BirthsOfTry(cfg, s, pid, attempt);
  }

  lemma BirthsOfTry(cfg: Config, s: Sys, pid: nat, attempt: Attempt)
    requires BirthsOk(cfg, s) && FilesOk(cfg, s) && Waiting(s, pid) && RequestOk(cfg, s, pid, s.procs[pid])
    ensures BirthsOk(cfg, TryStep(cfg, s, pid, attempt))
  {
    CallsJustified(cfg, s, pid, s.procs[pid]);
    FilesEffect(s.store, Await(cfg, s.procs[pid]), s.clock);
  }

  /** The invariants survive every event. */
  lemma StepKeepsInv(cfg: Config, s: Sys, e: Event)
    requires ValidConfig(cfg) && Inv(cfg, s)
    ensures Inv(cfg, Step(cfg, s, e))
  {
    hide Inv, TryStep, StartStep, DrawStep, CanonicalUuid, Await;
    match e
    case Tick(now) =>
      BirthsInv(cfg, s);
      TickKeeps(cfg, s, Step(cfg, s, e));
    case Start(pid, ask, newId) =>
      if pid !in s.procs && Unused(s, newId) {
        StartKeeps(cfg, s, pid, ask, newId);
      }
    case Draw(pid, newId) =>
      if Drawing(s, pid) && Unused(s, newId) {
        DrawKeeps(cfg, s, pid, newId);
      }
    case Try(pid, attempt) =>
      if Waiting(s, pid) {
        if attempt.Applied() {
          AppliedKeeps(cfg, s, pid, attempt);
        } else {
          UnappliedKeeps(cfg, s, pid, attempt);
        }
      }
    case Crash(pid) =>
      if pid in s.procs && !s.procs[pid].Done? {
        CrashKeeps(cfg, s, Step(cfg, s, e), pid);
      }
  }

  lemma {:induction false} RunKeepsInv(cfg: Config, s: Sys, events: seq<Event>)
    requires ValidConfig(cfg) && Inv(cfg, s)
    ensures Inv(cfg, Run(cfg, s, events)) && Grows(s, Run(cfg, s, events))
    decreases |events|
  {
    RunGrows(cfg, s, events);
    if events != [] {
      StepKeepsInv(cfg, s, events[0]);
      RunKeepsInv(cfg, Step(cfg, s, events[0]), events[1..]);
    }
  }

  /** In every reachable state the invariants hold. */
  lemma ReachableInv(cfg: Config, events: seq<Event>)
    requires ValidConfig(cfg)
    ensures Inv(cfg, Run(cfg, Init, events))
  {
    RunKeepsInv(cfg, Init, events);
  }
}
