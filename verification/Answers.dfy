/** What an answer tells: over whole runs, under any interleaving, whoever is told that something was done had it done,
    step by step, after asking for it. */
module Answers {
  import opened Wrappers
  import opened Codec
  import opened Tables
  import opened Domain
  import opened Requests
  import opened System
  import opened Invariants
  import opened Lifecycle
  import opened Traces
  import Renames
  import Deletes
  import Signs
  import Revokes
  import HistoryAccess
  import Revocation

  // ---------- revoked ----------

  lemma RevokeCameFrom(cfg: Config, events: seq<Event>, n: nat, pid: nat, v: Revokes.Step) returns (k: nat)
    requires Stands(cfg, events, n, pid, Revoking(v))
    ensures k < n
    ensures if v.Lookup? then StartedAt(cfg, events, k, pid, AskRevoke(v.fileId, v.linkId, v.userId))
            else exists v0 :: ServedAt(cfg, events, k, pid, Revoking(v0))
                   && Revokes.Resume(v0, ReplyAt(cfg, events, k, Revoking(v0))) == Goes(v)
  {
    hide Run, Perform, Step, Canon, IsUuid;
    k := CameFrom(cfg, events, n, pid, Revoking(v));
  }

  lemma RevokedCameFrom(cfg: Config, events: seq<Event>, n: nat, pid: nat) returns (k: nat, v: Revokes.Step)
    requires Stands(cfg, events, n, pid, Done(Revoked))
    ensures k < n && v.Logging? && ServedAt(cfg, events, k, pid, Revoking(v))
  {
    hide Run, Perform, Step, Canon, IsUuid;
    k := CameFrom(cfg, events, n, pid, Done(Revoked));
    v := At(cfg, events, k).procs[pid].v;
  }

  /** Request `pid` asked at event `i` to revoke `linkId` of `fileId`, revoked it at event `k`, where it was still to be
      revoked, and logged that at event `j`. */
  ghost predicate RevokedAt(
      cfg: Config, events: seq<Event>, i: nat, k: nat, j: nat, pid: nat, ask: Ask, file: FileRow) {
    && i < k < j && ask.AskRevoke? && StartedAt(cfg, events, i, pid, ask) && file.id == Canon(ask.fileId)
    && ServedAt(cfg, events, k, pid, Revoking(Revokes.Revoking(file, ask.linkId, ask.userId)))
    && Revocable(At(cfg, events, k).store, Canon(ask.linkId), file.id)
    && ServedAt(cfg, events, j, pid, Revoking(Revokes.Logging(file, ask.linkId, ask.userId)))
  }

  /** Whoever is answered that a link was revoked asked for it, then revoked it himself, then logged it. */
  lemma RevokedIsJustified(cfg: Config, events: seq<Event>, n: nat, pid: nat)
    returns (i: nat, k: nat, j: nat, ask: Ask, file: FileRow)
    requires ValidConfig(cfg) && Stands(cfg, events, n, pid, Done(Revoked))
    ensures j < n && RevokedAt(cfg, events, i, k, j, pid, ask, file)
  {
    hide Run, Canon, IsUuid, At, StartedAt, PerformBlob, PerformAudit, Inv, ValidConfig;
    var j', v2 := RevokedCameFrom(cfg, events, n, pid);
    j := j';
    k := RevokeCameFrom(cfg, events, j, pid, v2);
    var v1 :| ServedAt(cfg, events, k, pid, Revoking(v1))
              && Revokes.Resume(v1, ReplyAt(cfg, events, k, Revoking(v1))) == Goes(v2);
    var m := RevokeCameFrom(cfg, events, k, pid, v1);
    var v0 :| ServedAt(cfg, events, m, pid, Revoking(v0))
              && Revokes.Resume(v0, ReplyAt(cfg, events, m, Revoking(v0))) == Goes(v1);
    i := RevokeCameFrom(cfg, events, m, pid, v0);
    ask, file := AskRevoke(v0.fileId, v0.linkId, v0.userId), v1.file;
    KeyIsIdAt(cfg, events, m, Canon(v0.fileId));
  }

  lemma KeyIsIdAt(cfg: Config, events: seq<Event>, m: nat, f: string)
    requires ValidConfig(cfg) && m <= |events|
    ensures f in At(cfg, events, m).store.files ==> At(cfg, events, m).store.files[f].id == f
  {
    hide Inv, Run;
    HistoryAccess.AtInv(cfg, events, m);
    ConstraintsInv(cfg, At(cfg, events, m));
  }

  /** What a revoker may rely on: if, when he had revoked, the file's upload could insert no more or the signature could
      not be issued again, then every request that ever holds a grant on the link held it before that step. */
  lemma RevokerMayRely(
      cfg: Config, events: seq<Event>, pid: nat, i: nat, k: nat, j: nat, ask: Ask, file: FileRow, q: nat)
    requires ValidConfig(cfg) && j < |events| && RevokedAt(cfg, events, i, k, j, pid, ask, file)
    requires var s, l := At(cfg, events, k + 1), Canon(ask.linkId);
             l in s.store.links && (Settled(s, file.id) || !Revocation.Reissuable(cfg, s, s.store.links[l]))
    ensures var l, s, t := Canon(ask.linkId), At(cfg, events, k), Run(cfg, Init, events);
            var signature := s.store.links[l].signature;
            q in t.procs && Revocation.HoldsGrant(t.procs[q], file.id, signature) ==>
              q in s.procs && Revocation.HoldsGrant(s.procs[q], file.id, signature)
  {
    hide Run, Canon, IsUuid, Inv, Settled, Revocation.HoldsGrant, StartedAt, Revocation.Reissuable;
    hide Revocation.Blocked, Revocation.OnlyRow;
    var l, s, after := Canon(ask.linkId), At(cfg, events, k), At(cfg, events, k + 1);
    RevokeStep(cfg, events, k, pid, file, ask.linkId, ask.userId);
    var row := after.store.links[l];
    hide At;
    HistoryAccess.AtInv(cfg, events, k + 1);
    SuffixRun(cfg, events, k + 1);
    Revocation.RevokedRowIsOnly(cfg, after, l);
    var t := Run(cfg, Init, events);
    if q in t.procs && Revocation.HoldsGrant(t.procs[q], file.id, row.signature) {
      Revocation.NeverGrantedAgain(cfg, after, events[k + 1..], row, q);
      RevokerHoldsNothing(cfg, s, after, pid, q, file.id, row.signature);
    }
  }

  lemma RevokeStep(cfg: Config, events: seq<Event>, k: nat, pid: nat, file: FileRow, linkId: string, u: string)
    requires ServedAt(cfg, events, k, pid, Revoking(Revokes.Revoking(file, linkId, u)))
    requires Revocable(At(cfg, events, k).store, Canon(linkId), file.id)
    ensures var s, t, l := At(cfg, events, k), At(cfg, events, k + 1), Canon(linkId);
            && t.store == s.store.(links := s.store.links[l := s.store.links[l].(revokedAt := Some(s.clock))])
            && t.procs == s.procs[pid := Revoking(Revokes.Logging(file, linkId, u))]
  {
    hide Run, Canon, IsUuid;
    AtNext(cfg, events, k);
  }

  lemma RevokerHoldsNothing(cfg: Config, s: Sys, t: Sys, pid: nat, q: nat, f: string, signature: string)
    requires pid in t.procs && t.procs[pid].Revoking? && t.procs == s.procs[pid := t.procs[pid]]
    requires q in t.procs && Revocation.HoldsGrant(t.procs[q], f, signature)
    ensures q in s.procs && Revocation.HoldsGrant(s.procs[q], f, signature)
  {
  }

  lemma SuffixRun(cfg: Config, events: seq<Event>, n: nat)
    requires n <= |events|
    ensures Run(cfg, At(cfg, events, n), events[n..]) == Run(cfg, Init, events)
  {
    assert events == events[..n] + events[n..];
    RunAppend(cfg, Init, events[..n], events[n..]);
  }

  // ---------- deleted ----------

  lemma DeleteCameFrom(cfg: Config, events: seq<Event>, n: nat, pid: nat, d: Deletes.Step) returns (k: nat)
    requires Stands(cfg, events, n, pid, Deleting(d))
    ensures k < n
    ensures if d.Lookup? then StartedAt(cfg, events, k, pid, AskDelete(d.fileId, d.userId))
            else exists d0 :: ServedAt(cfg, events, k, pid, Deleting(d0))
                   && Deletes.Resume(d0, ReplyAt(cfg, events, k, Deleting(d0))) == Goes(d)
  {
    hide Run, Perform, Step, Canon, IsUuid;
    k := CameFrom(cfg, events, n, pid, Deleting(d));
  }

  lemma DeletedCameFrom(cfg: Config, events: seq<Event>, n: nat, pid: nat) returns (k: nat, d: Deletes.Step)
    requires Stands(cfg, events, n, pid, Done(Deleted))
    ensures k < n && d.RemovingBlob? && ServedAt(cfg, events, k, pid, Deleting(d))
  {
    hide Run, Perform, Step, Canon, IsUuid;
    k := CameFrom(cfg, events, n, pid, Done(Deleted));
    d := At(cfg, events, k).procs[pid].d;
  }

  /** Request `pid` asked at event `i` to delete its caller's own file, logged the deletion at event `j`, removed
      the row at event `k` and the blob at event `m`. */
  ghost predicate DeletedAt(
      cfg: Config, events: seq<Event>, i: nat, j: nat, k: nat, m: nat, pid: nat, ask: Ask, file: FileRow) {
    && i < j < k < m && ask.AskDelete? && StartedAt(cfg, events, i, pid, ask)
    && file.id == Canon(ask.fileId) && file.userId == ask.userId
    && ServedAt(cfg, events, j, pid, Deleting(Deletes.Logging(file, ask.userId)))
    && ServedAt(cfg, events, k, pid, Deleting(Deletes.RemovingRow(file)))
    && ServedAt(cfg, events, m, pid, Deleting(Deletes.RemovingBlob(file)))
  }

  /** Whoever is answered that a file was deleted asked for it, owned it, logged it, and removed row, then blob. */
  lemma DeletedIsJustified(cfg: Config, events: seq<Event>, n: nat, pid: nat)
    returns (i: nat, j: nat, k: nat, m: nat, ask: Ask, file: FileRow)
    requires ValidConfig(cfg) && Stands(cfg, events, n, pid, Done(Deleted))
    ensures m < n && DeletedAt(cfg, events, i, j, k, m, pid, ask, file)
  {
    hide Run, Canon, IsUuid, At, StartedAt, PerformBlob, PerformLink, Inv, ValidConfig;
    var m', d3 := DeletedCameFrom(cfg, events, n, pid);
    m := m';
    k := DeleteCameFrom(cfg, events, m, pid, d3);
    var d2 :| ServedAt(cfg, events, k, pid, Deleting(d2))
              && Deletes.Resume(d2, ReplyAt(cfg, events, k, Deleting(d2))) == Goes(d3);
    j := DeleteCameFrom(cfg, events, k, pid, d2);
    var d1 :| ServedAt(cfg, events, j, pid, Deleting(d1))
              && Deletes.Resume(d1, ReplyAt(cfg, events, j, Deleting(d1))) == Goes(d2);
    var h := DeleteCameFrom(cfg, events, j, pid, d1);
    var d0 :| ServedAt(cfg, events, h, pid, Deleting(d0))
              && Deletes.Resume(d0, ReplyAt(cfg, events, h, Deleting(d0))) == Goes(d1);
    i := DeleteCameFrom(cfg, events, h, pid, d0);
    ask, file := AskDelete(d0.fileId, d0.userId), d3.file;
    KeyIsIdAt(cfg, events, h, Canon(d0.fileId));
  }

  // ---------- signed ----------

  lemma SignCameFrom(cfg: Config, events: seq<Event>, n: nat, pid: nat, g: Signs.Step) returns (k: nat)
    requires Stands(cfg, events, n, pid, Signing(g))
    ensures k < n
    ensures if g.Lookup? then StartedAt(cfg, events, k, pid, AskSign(g.fileId, g.userId, g.ttlSeconds))
            else if g.Inserting? then DrawnAt(cfg, events, k, pid, Signing(g))
            else exists g0: Signs.Step :: !g0.Drawing? && ServedAt(cfg, events, k, pid, Signing(g0))
                   && Signs.Resume(cfg, g0, ReplyAt(cfg, events, k, Signing(g0))) == Goes(g)
  {
    hide Run, Perform, Step, Canon, IsUuid;
    k := CameFrom(cfg, events, n, pid, Signing(g));
  }

  lemma SignedCameFrom(cfg: Config, events: seq<Event>, n: nat, pid: nat, response: Response)
    returns (k: nat, g: Signs.Step)
    requires Stands(cfg, events, n, pid, Done(response)) && response.Signed?
    ensures k < n && g.Logging? && ServedAt(cfg, events, k, pid, Signing(g))
    ensures response == Signed(g.linkId, g.file.id, g.expiresAt, g.ttlSeconds, cfg.signature(g.file.id, g.expiresAt))
  {
    hide Run, Perform, Step, Canon, IsUuid;
    k := CameFrom(cfg, events, n, pid, Done(response));
    g := At(cfg, events, k).procs[pid].g;
  }

  /** Request `pid` asked at event `i` to sign its caller's own file, read the clock and drew the id at event `d`,
      inserted the link at event `k`, where no constraint stood against it, and logged it at event `j`. */
  ghost predicate SignedAt(
      cfg: Config, events: seq<Event>, i: nat, d: nat, k: nat, j: nat, pid: nat, ask: Ask, file: FileRow,
          linkId: string) {
    && i < d < k < j < |events| && ask.AskSign? && StartedAt(cfg, events, i, pid, ask)
    && file.id == Canon(ask.fileId) && file.userId == ask.userId
    && var expiresAt := At(cfg, events, d).clock / 1000 + ask.ttlSeconds;
       && DrawnAt(cfg, events, d, pid, Signing(Signs.Inserting(linkId, file, ask.userId, ask.ttlSeconds, expiresAt)))
       && ServedAt(cfg, events, k, pid, Signing(Signs.Inserting(linkId, file, ask.userId, ask.ttlSeconds, expiresAt)))
       && LinkInsertable(At(cfg, events, k).store, Signs.Row(cfg, linkId, file, ask.userId, ask.ttlSeconds, expiresAt))
       && ServedAt(cfg, events, j, pid, Signing(Signs.Logging(linkId, file, ask.userId, ask.ttlSeconds, expiresAt)))
  }

  /** Whoever is given a link asked for it, owned the file, had its expiry counted from the clock, inserted it into the
      table and logged it; and the answer is that link's file, expiry, lifetime and signature. */
  lemma SignedIsJustified(cfg: Config, events: seq<Event>, n: nat, pid: nat, response: Response)
    returns (i: nat, d: nat, k: nat, j: nat, ask: Ask, file: FileRow)
    requires ValidConfig(cfg) && Stands(cfg, events, n, pid, Done(response)) && response.Signed?
    ensures j < n && SignedAt(cfg, events, i, d, k, j, pid, ask, file, response.linkId)
    ensures var expiresAt := At(cfg, events, d).clock / 1000 + ask.ttlSeconds;
            response == Signed(response.linkId, file.id, expiresAt, ask.ttlSeconds, cfg.signature(file.id, expiresAt))
  {
    hide Run, Canon, IsUuid, At, StartedAt, PerformBlob, PerformAudit, Inv, ValidConfig, LinkInsertable;
    var j', g3 := SignedCameFrom(cfg, events, n, pid, response);
    j := j';
    k := SignCameFrom(cfg, events, j, pid, g3);
    var g2: Signs.Step :| !g2.Drawing? && ServedAt(cfg, events, k, pid, Signing(g2))
                          && Signs.Resume(cfg, g2, ReplyAt(cfg, events, k, Signing(g2))) == Goes(g3);
    d := SignCameFrom(cfg, events, k, pid, g2);
    var g1 := At(cfg, events, d).procs[pid].g;
    var h := SignCameFrom(cfg, events, d, pid, g1);
    var g0: Signs.Step :| !g0.Drawing? && ServedAt(cfg, events, h, pid, Signing(g0))
                          && Signs.Resume(cfg, g0, ReplyAt(cfg, events, h, Signing(g0))) == Goes(g1);
    i := SignCameFrom(cfg, events, h, pid, g0);
    ask, file := AskSign(g0.fileId, g0.userId, g0.ttlSeconds), g1.file;
    KeyIsIdAt(cfg, events, h, Canon(g0.fileId));
  }

  // ---------- renamed ----------

  lemma RenameCameFrom(cfg: Config, events: seq<Event>, n: nat, pid: nat, r: Renames.Step) returns (k: nat)
    requires Stands(cfg, events, n, pid, Request.Renaming(r))
    ensures k < n
    ensures if r.Lookup? then StartedAt(cfg, events, k, pid, AskRename(r.fileId, r.userId, r.newName))
            else exists r0 :: ServedAt(cfg, events, k, pid, Request.Renaming(r0))
                   && Renames.Resume(cfg, r0, ReplyAt(cfg, events, k, Request.Renaming(r0))) == Goes(r)
  {
    hide Run, Perform, Step, Canon, IsUuid;
    k := CameFrom(cfg, events, n, pid, Request.Renaming(r));
  }

  lemma RenamedCameFrom(cfg: Config, events: seq<Event>, n: nat, pid: nat, updated: Option<FileRow>)
    returns (k: nat, r: Renames.Step)
    requires Stands(cfg, events, n, pid, Done(Renamed(updated)))
    ensures k < n && r.Logging? && r.updated == updated && ServedAt(cfg, events, k, pid, Request.Renaming(r))
  {
    hide Run, Perform, Step, Canon, IsUuid;
    k := CameFrom(cfg, events, n, pid, Done(Renamed(updated)));
    r := At(cfg, events, k).procs[pid].n;
  }

  /** Request `pid` asked at event `i` to rename its caller's own file, updated the row at event `k` -- if there
      still was one -- and logged the name it had found and the name it set at event `j`. */
  ghost predicate RenamedAt(
      cfg: Config, events: seq<Event>, i: nat, k: nat, j: nat, pid: nat, ask: Ask, file: FileRow,
      updated: Option<FileRow>) {
    && i < k < j < |events| && ask.AskRename? && ask.filename.Some? && StartedAt(cfg, events, i, pid, ask)
    && file.id == Canon(ask.fileId) && file.userId == ask.userId
    && var name, files := cfg.trim(ask.filename.value), At(cfg, events, k).store.files;
       && name != ""
       && ServedAt(cfg, events, k, pid, Request.Renaming(Renames.Renaming(file, ask.userId, name)))
       && updated == (if file.id in files then Some(files[file.id].(filename := name)) else None)
       && ServedAt(cfg, events, j, pid, Request.Renaming(Renames.Logging(file, ask.userId, name, updated)))
  }

  /** Whoever is answered with a renamed row asked for it, owned the file, and renamed that row and logged it; and
      whoever is answered with none found the row gone, and logged a rename all the same. */
  lemma RenamedIsJustified(cfg: Config, events: seq<Event>, n: nat, pid: nat, updated: Option<FileRow>)
    returns (i: nat, k: nat, j: nat, ask: Ask, file: FileRow)
    requires ValidConfig(cfg) && Stands(cfg, events, n, pid, Done(Renamed(updated)))
    ensures j < n && RenamedAt(cfg, events, i, k, j, pid, ask, file, updated)
  {
    hide Run, Canon, IsUuid, At, StartedAt, PerformBlob, PerformAudit, PerformLink, Inv, ValidConfig;
    var j', r2 := RenamedCameFrom(cfg, events, n, pid, updated);
    j := j';
    k := RenameCameFrom(cfg, events, j, pid, r2);
    var r1 :| ServedAt(cfg, events, k, pid, Request.Renaming(r1))
              && Renames.Resume(cfg, r1, ReplyAt(cfg, events, k, Request.Renaming(r1))) == Goes(r2);
    var h := RenameCameFrom(cfg, events, k, pid, r1);
    var r0 :| ServedAt(cfg, events, h, pid, Request.Renaming(r0))
              && Renames.Resume(cfg, r0, ReplyAt(cfg, events, h, Request.Renaming(r0))) == Goes(r1);
    i := RenameCameFrom(cfg, events, h, pid, r0);
    ask, file := AskRename(r0.fileId, r0.userId, r0.newName), r1.file;
    KeyIsIdAt(cfg, events, h, Canon(r0.fileId));
  }
}
