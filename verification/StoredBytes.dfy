/** Every file row has its blob. The order of writes -- blob before row on upload, row before blob on
    delete -- keeps this at every intermediate step and across crashes and failed calls, for every file whose
    insert never took effect in an attempt that was reported as failed. */
module StoredBytes {
  import opened Codec
  import opened Tables
  import opened Domain
  import opened Requests
  import opened System
  import opened Invariants
  import opened Preservation
  import opened Lifecycle
  import Uploads
  import Sequential

  predicate Clear(s: Sys, f: string) {
    f !in s.hazyInserts
  }

  ghost predicate UploadClean(s: Sys, u: Uploads.Step) {
    match u
    case Saving(id, _, _) => Clear(s, id) ==> id !in s.inserted
    case Inserting(id, _, _, path) => Clear(s, id) ==> id !in s.inserted && path in s.store.blobs
    case Undoing(id, _) => Clear(s, id) ==> id !in s.inserted
  }

  ghost predicate RequestClean(s: Sys, r: Request) {
    && (r.Upping? ==> UploadClean(s, r.u))
    && (r.Deleting? && r.d.RemovingBlob? && Clear(s, r.d.file.id) ==> r.d.file.id !in s.store.files)
  }

  ghost predicate RequestsClean(s: Sys) {
    forall pid :: pid in s.procs ==> RequestClean(s, s.procs[pid])
  }

  ghost predicate RowsHaveBlobs(cfg: Config, s: Sys) {
    forall f :: f in s.store.files && Clear(s, f) ==> s.store.files[f].storagePath in s.store.blobs
  }

  ghost predicate BlobInv(cfg: Config, s: Sys) {
    RequestsClean(s) && RowsHaveBlobs(cfg, s)
  }

  // ---------- what one attempt does ----------

  /** Attempt of `r` by `pid`: `t` is `s` after it. */
  ghost predicate Attempted(cfg: Config, s: Sys, t: Sys, pid: nat, attempt: Attempt) {
    && ValidConfig(cfg) && Inv(cfg, s) && BlobInv(cfg, s) && Waiting(s, pid)
    && t == TryStep(cfg, s, pid, attempt)
  }

  /** Only the upload of `f` gives `f` its first row. */
  lemma FirstRow(cfg: Config, s: Sys, pid: nat, attempt: Attempt, f: string)
    requires Inv(cfg, s) && Waiting(s, pid) && f !in s.inserted && f in TryStep(cfg, s, pid, attempt).inserted
    ensures s.procs[pid].Upping? && s.procs[pid].u.Inserting? && s.procs[pid].u.id == f
    ensures f in s.born && s.born[f].pid == pid
    ensures attempt.Applied() && (attempt.Succeeds? || f in TryStep(cfg, s, pid, attempt).hazyInserts)
  {
    FilesEffect(s.store, Await(cfg, s.procs[pid]), s.clock);
    assert s.store.files.Keys <= s.inserted;
    assert RequestOk(cfg, s, pid, s.procs[pid]);
  }

  /** Only the undoing upload of `f`, or a delete of `f`, removes the blob of `f`. */
  lemma BlobRemover(cfg: Config, s: Sys, pid: nat, attempt: Attempt, f: string)
    requires ValidConfig(cfg) && Inv(cfg, s) && Waiting(s, pid) && f in s.born
    requires PathOf(cfg, s, f) in s.store.blobs && PathOf(cfg, s, f) !in TryStep(cfg, s, pid, attempt).store.blobs
    ensures var r := s.procs[pid];
            || (r.Upping? && r.u.Undoing? && r.u.id == f && s.born[f].pid == pid)
            || (r.Deleting? && r.d.RemovingBlob? && r.d.file.id == f && f in s.inserted)
  {
    var r := s.procs[pid];
    var call := Await(cfg, r);
    BlobsEffect(s.store, call, s.clock);
    assert call == OnBlobs(Remove(PathOf(cfg, s, f)));
    assert RequestOk(cfg, s, pid, r);
    var id := if r.Upping? then r.u.id else r.d.file.id;
    assert PathOf(cfg, s, id) == PathOf(cfg, s, f) && CanonicalUuid(id) && CanonicalUuid(f);
  }

  lemma OtherUploadsClean(cfg: Config, s: Sys, t: Sys, pid: nat, attempt: Attempt, q: nat)
    requires Attempted(cfg, s, t, pid, attempt) && q in s.procs && q != pid && s.procs[q].Upping?
    ensures UploadClean(t, s.procs[q].u)
  {
    var u := s.procs[q].u;
    assert RequestOk(cfg, s, q, s.procs[q]) && RequestClean(s, s.procs[q]);
    if Clear(t, u.id) {
      if u.id in t.inserted {
        FirstRow(cfg, s, pid, attempt, u.id);
      }
      if u.Inserting? && u.path !in t.store.blobs {
        BlobRemover(cfg, s, pid, attempt, u.id);
      }
    }
  }

  lemma OwnUploadClean(cfg: Config, s: Sys, t: Sys, pid: nat, attempt: Attempt)
    requires Attempted(cfg, s, t, pid, attempt) && s.procs[pid].Upping? && t.procs[pid].Upping?
    ensures UploadClean(t, t.procs[pid].u)
  {
    hide Canon, IsUuid, PathTaken, ValidConfig, Constraints, LinksOk, AuditOk, DeathsOk, BlobsOk;
    var u := s.procs[pid].u;
    RequestInv(cfg, s, pid);
    assert RequestClean(s, s.procs[pid]);
    if Clear(t, u.id) {
      if u.id in t.inserted {
        FirstRow(cfg, s, pid, attempt, u.id);
        InsertSucceeds(cfg, s, pid);
      }
    }
  }

  /** The insert of a file that never had a row meets no constraint. */
  lemma InsertSucceeds(cfg: Config, s: Sys, pid: nat)
    requires ValidConfig(cfg) && Inv(cfg, s) && pid in s.procs && s.procs[pid].Upping? && s.procs[pid].u.Inserting?
    requires s.procs[pid].u.id !in s.store.files
    ensures FileInsertable(s.store, Uploads.Await(cfg, s.procs[pid].u).file.row)
  {
    var u := s.procs[pid].u;
    assert RequestOk(cfg, s, pid, s.procs[pid]);
    forall g | g in s.store.files
      ensures s.store.files[g].storagePath != u.path
    {
      assert Seen(cfg, s, s.store.files[g]) && CanonicalUuid(g) && CanonicalUuid(u.id);
    }
  }

  /** A row that is gone, of a file whose insert was always reported truly, does not come back. */
  lemma GoneStaysGone(cfg: Config, s: Sys, t: Sys, pid: nat, attempt: Attempt, f: string)
    requires Attempted(cfg, s, t, pid, attempt) && f in s.inserted && f !in s.store.files && Clear(t, f)
    ensures f !in t.store.files
  {
    hide Inv, Canon, IsUuid, ValidConfig;
    FilesEffect(s.store, Await(cfg, s.procs[pid]), s.clock);
    RequestInv(cfg, s, pid);
    assert RequestClean(s, s.procs[pid]);
  }

  lemma OtherDeletesClean(cfg: Config, s: Sys, t: Sys, pid: nat, attempt: Attempt, q: nat)
    requires Attempted(cfg, s, t, pid, attempt) && q in s.procs && q != pid && s.procs[q].Deleting?
    ensures RequestClean(t, s.procs[q])
  {
    var d := s.procs[q].d;
    assert RequestOk(cfg, s, q, s.procs[q]) && RequestClean(s, s.procs[q]);
    if d.RemovingBlob? && Clear(t, d.file.id) {
      GoneStaysGone(cfg, s, t, pid, attempt, d.file.id);
    }
  }

  lemma OwnDeleteClean(cfg: Config, s: Sys, t: Sys, pid: nat, attempt: Attempt)
    requires Attempted(cfg, s, t, pid, attempt) && s.procs[pid].Deleting?
    ensures RequestClean(t, t.procs[pid])
  {
    hide Inv, Canon, IsUuid, ValidConfig;
    var d := s.procs[pid].d;
    RequestInv(cfg, s, pid);
    assert RequestClean(s, s.procs[pid]);
    if d.RemovingBlob? && Clear(t, d.file.id) {
      GoneStaysGone(cfg, s, t, pid, attempt, d.file.id);
    }
  }

  lemma RowsKeepBlobs(cfg: Config, s: Sys, t: Sys, pid: nat, attempt: Attempt, f: string)
    requires Attempted(cfg, s, t, pid, attempt) && f in t.store.files && Clear(t, f)
    ensures t.store.files[f].storagePath in t.store.blobs
  {
    hide Inv;
    hide Canon, IsUuid, PathTaken, ValidConfig;
    var r := s.procs[pid];
    RequestInv(cfg, s, pid);
    assert RequestClean(s, r);
    FilesEffect(s.store, Await(cfg, r), s.clock);
    if f in s.store.files && SameButName(s.store.files[f], t.store.files[f]) {
      FileInv(cfg, s, f);
      if t.store.files[f].storagePath !in t.store.blobs {
        BlobRemover(cfg, s, pid, attempt, f);
      }
    } else {
      assert r.Upping? && r.u.Inserting?;
    }
  }

  lemma RequestStaysClean(cfg: Config, s: Sys, t: Sys, pid: nat, attempt: Attempt, q: nat)
    requires Attempted(cfg, s, t, pid, attempt) && q in t.procs
    ensures RequestClean(t, t.procs[q])
  {
    hide Inv, BlobInv;
    if s.procs[q].Upping? && t.procs[q].Upping? {
      if q == pid {
        OwnUploadClean(cfg, s, t, pid, attempt);
      } else {
        OtherUploadsClean(cfg, s, t, pid, attempt, q);
      }
    } else if s.procs[q].Deleting? {
      if q == pid {
        OwnDeleteClean(cfg, s, t, pid, attempt);
      } else {
        OtherDeletesClean(cfg, s, t, pid, attempt, q);
      }
    }
  }

  lemma TryKeepsBlobInv(cfg: Config, s: Sys, t: Sys, pid: nat, attempt: Attempt)
    requires Attempted(cfg, s, t, pid, attempt)
    ensures BlobInv(cfg, t)
  {
    hide Inv, TryStep, RequestClean, Clear;
    forall q | q in t.procs
      ensures RequestClean(t, t.procs[q])
    {
      RequestStaysClean(cfg, s, t, pid, attempt, q);
    }
    forall f | f in t.store.files && Clear(t, f)
      ensures t.store.files[f].storagePath in t.store.blobs
    {
      RowsKeepBlobs(cfg, s, t, pid, attempt, f);
    }
  }

  lemma NewcomerClean(cfg: Config, s: Sys, e: Event, pid: nat)
    requires Inv(cfg, s) && pid !in s.procs && pid in Step(cfg, s, e).procs
    ensures RequestClean(Step(cfg, s, e), Step(cfg, s, e).procs[pid])
  {
    hide RequestsOk, FilesOk, BlobsOk, LinksOk, AuditOk, DeathsOk, Constraints, Canon, IsUuid;
  }

  lemma QuietKeepsClean(cfg: Config, s: Sys, e: Event)
    requires Inv(cfg, s) && RequestsClean(s) && !(e.Try? && Waiting(s, e.pid))
    ensures RequestsClean(Step(cfg, s, e))
  {
    hide Inv, TryStep, Entry, CanonicalUuid, Constraints;
    var t := Step(cfg, s, e);
    forall q | q in t.procs
      ensures RequestClean(t, t.procs[q])
    {
      if q !in s.procs {
        NewcomerClean(cfg, s, e, q);
      } else {
        assert RequestClean(s, s.procs[q]);
      }
    }
  }

  lemma StepKeepsBlobInv(cfg: Config, s: Sys, e: Event)
    requires ValidConfig(cfg) && Inv(cfg, s) && BlobInv(cfg, s)
    ensures BlobInv(cfg, Step(cfg, s, e))
  {
    if e.Try? && Waiting(s, e.pid) {
      TryKeepsBlobInv(cfg, s, Step(cfg, s, e), e.pid, e.attempt);
    } else {
      QuietKeepsClean(cfg, s, e);
    }
  }

  lemma {:induction false} RunKeepsBlobInv(cfg: Config, s: Sys, events: seq<Event>)
    requires ValidConfig(cfg) && Inv(cfg, s) && BlobInv(cfg, s)
    ensures BlobInv(cfg, Run(cfg, s, events))
    decreases |events|
  {
    if events != [] {
      StepKeepsInv(cfg, s, events[0]);
      StepKeepsBlobInv(cfg, s, events[0]);
      RunKeepsBlobInv(cfg, Step(cfg, s, events[0]), events[1..]);
    }
  }

  /** In every reachable state, each row of a file whose insert was always reported truly has its blob, with
      exactly the bytes of its upload and exactly the size the row says, within the upload limit. */
  lemma EveryRowHasItsBlob(cfg: Config, events: seq<Event>, f: string)
    requires ValidConfig(cfg)
    requires var s := Run(cfg, Init, events); f in s.store.files && f !in s.hazyInserts
    ensures var s := Run(cfg, Init, events);
            var row := s.store.files[f];
            && row.storagePath in s.store.blobs && f in s.born
            && s.store.blobs[row.storagePath] == s.born[f].upload.data
            && |s.store.blobs[row.storagePath]| == row.sizeBytes && 0 < row.sizeBytes <= cfg.maxUploadBytes
  {
    ReachableInv(cfg, events);
    RunKeepsBlobInv(cfg, Init, events);
    var s := Run(cfg, Init, events);
    assert Seen(cfg, s, s.store.files[f]);
    BlobIsOwn(cfg, s, f);
  }

  // ---------- exactly when a row is safe for good ----------

  /** The upload of `f` has returned or been lost. */
  predicate UploadEnded(s: Sys, f: string) {
    && f in s.born && s.born[f].pid in s.procs
    && (var r := s.procs[s.born[f].pid]; r.Upping? ==> r.u.id != f)
  }

  /** A delete of `f` is about to remove its blob. */
  predicate Removes(s: Sys, f: string, q: nat) {
    q in s.procs && s.procs[q].Deleting? && s.procs[q].d.RemovingBlob? && s.procs[q].d.file.id == f
  }

  ghost predicate RowHasBlob(s: Sys, f: string) {
    f in s.store.files ==> s.store.files[f].storagePath in s.store.blobs
  }

  /** What a look at the service tells: if the file has a row, its blob is there, its upload has ended and no delete is
      about to remove its blob; if it has none, its upload can no longer insert one. */
  ghost predicate BlobSafe(s: Sys, f: string) {
    if f in s.store.files then RowHasBlob(s, f) && UploadEnded(s, f) && forall q :: !Removes(s, f, q)
    else Settled(s, f)
  }

  lemma UploadEndedStays(cfg: Config, s: Sys, e: Event, f: string)
    requires IdsTracked(s) && UploadEnded(s, f)
    ensures UploadEnded(Step(cfg, s, e), f) && Settled(s, f)
  {
    StepGrows(cfg, s, e);
    StepOfRequest(cfg, s, e, s.born[f].pid);
    hide Step, Perform, Canon, IsUuid;
  }

  /** A delete comes to remove the blob only by removing the row. */
  lemma RemoverRemovedRow(cfg: Config, s: Sys, e: Event, f: string, q: nat)
    requires Removes(Step(cfg, s, e), f, q) && !Removes(s, f, q)
    ensures f !in Step(cfg, s, e).store.files
  {
    hide Canon, IsUuid, CanonicalUuid, PerformLink, PerformAudit, PerformBlob;
  }

  lemma RowKeepsBlob(cfg: Config, s: Sys, e: Event, f: string)
    requires ValidConfig(cfg) && Inv(cfg, s) && BlobSafe(s, f) && f in s.store.files && f in Step(cfg, s, e).store.files
    ensures RowHasBlob(Step(cfg, s, e), f)
  {
    hide Inv, ValidConfig, Canon, IsUuid, Await, Resume, Perform;
    FileInv(cfg, s, f);
    if e.Try? && Waiting(s, e.pid) {
      FilesEffect(s.store, Await(cfg, s.procs[e.pid]), s.clock);
      assert !Removes(s, f, e.pid);
      if PathOf(cfg, s, f) !in Step(cfg, s, e).store.blobs {
        BlobRemover(cfg, s, e.pid, e.attempt, f);
      }
    }
  }

  lemma BlobSafeStays(cfg: Config, s: Sys, e: Event, f: string)
    requires ValidConfig(cfg) && Inv(cfg, s) && BlobSafe(s, f)
    ensures BlobSafe(Step(cfg, s, e), f)
  {
    hide Inv, Step, Settled, UploadEnded, Removes, RowHasBlob;
    BirthsInv(cfg, s);
    var t := Step(cfg, s, e);
    if f !in s.store.files {
      SettledStays(cfg, s, e, f);
      DeadStaysDead(cfg, s, e, f);
    } else {
      UploadEndedStays(cfg, s, e, f);
      SettledStays(cfg, s, e, f);
      if f in t.store.files {
        RowKeepsBlob(cfg, s, e, f);
        forall q
          ensures !Removes(t, f, q)
        {
          assert !Removes(s, f, q);
          if Removes(t, f, q) {
            RemoverRemovedRow(cfg, s, e, f, q);
          }
        }
      }
    }
  }

  lemma {:induction false} BlobSafeForever(cfg: Config, s: Sys, events: seq<Event>, f: string)
    requires ValidConfig(cfg) && Inv(cfg, s) && BlobSafe(s, f)
    ensures RowHasBlob(Run(cfg, s, events), f)
    decreases |events|
  {
    hide Inv, Step, Settled, UploadEnded;
    if events != [] {
      StepKeepsInv(cfg, s, events[0]);
      BlobSafeStays(cfg, s, events[0], f);
      BlobSafeForever(cfg, Step(cfg, s, events[0]), events[1..], f);
    }
  }

  /** An upload still under way removes the blob under its own row: its insert meets the row that is there. */
  lemma {:induction false} UploadRemovesBlob(cfg: Config, s: Sys, f: string) returns (events: seq<Event>)
    requires ValidConfig(cfg) && Inv(cfg, s) && f in s.store.files && f in s.born && !UploadEnded(s, f)
    ensures !RowHasBlob(Run(cfg, s, events), f)
    decreases var r := s.procs[s.born[f].pid]; if r.Upping? then Sequential.Rank(r) else 0
  {
    hide Inv, Canon, IsUuid, Run, PathTaken;
    BirthInv(cfg, s, f);
    FileInv(cfg, s, f);
    var p := s.born[f].pid;
    RequestInv(cfg, s, p);
    var e := Try(p, Succeeds);
    var t := Step(cfg, s, e);
    RunOne(cfg, s, e);
    events := [e];
    if !s.procs[p].u.Undoing? {
      StepKeepsInv(cfg, s, e);
      var rest := UploadRemovesBlob(cfg, t, f);
      events := [e] + rest;
      RunAppend(cfg, s, [e], rest);
    }
  }

  lemma RemoverRemovesBlob(cfg: Config, s: Sys, f: string, q: nat) returns (events: seq<Event>)
    requires ValidConfig(cfg) && Inv(cfg, s) && f in s.store.files && Removes(s, f, q)
    ensures !RowHasBlob(Run(cfg, s, events), f)
  {
    hide Inv, Canon, IsUuid, Run;
    FileInv(cfg, s, f);
    RequestInv(cfg, s, q);
    events := [Try(q, Succeeds)];
    RunOne(cfg, s, Try(q, Succeeds));
  }

  /** An upload that can still insert its row can come to remove the blob under it. */
  lemma UnsettledLosesBlob(cfg: Config, s: Sys, f: string) returns (events: seq<Event>)
    requires ValidConfig(cfg) && Inv(cfg, s) && f !in s.store.files && f in s.born && !Settled(s, f)
    ensures !RowHasBlob(Run(cfg, s, events), f)
  {
    hide Inv, Run, Settled, RowHasBlob, Canon, IsUuid;
    var p := s.born[f].pid;
    var ev1, t := ReachInsert(cfg, s, f);
    var u := InsertAgain(cfg, t, f, p, RetryApplied);
    RunKeepsInv(cfg, t, [Try(p, RetryApplied)]);
    var ev2 := UploadRemovesBlob(cfg, u, f);
    events := ev1 + ([Try(p, RetryApplied)] + ev2);
    RunAppend(cfg, t, [Try(p, RetryApplied)], ev2);
    RunAppend(cfg, s, ev1, [Try(p, RetryApplied)] + ev2);
  }

  lemma UnsafeLosesBlob(cfg: Config, s: Sys, f: string) returns (events: seq<Event>)
    requires ValidConfig(cfg) && Inv(cfg, s) && f in s.born && !BlobSafe(s, f)
    ensures !RowHasBlob(Run(cfg, s, events), f)
  {
    hide Inv, Settled, UploadEnded, Removes, RowHasBlob;
    if f !in s.store.files {
      events := UnsettledLosesBlob(cfg, s, f);
    } else if !RowHasBlob(s, f) {
      events := [];
    } else if !UploadEnded(s, f) {
      events := UploadRemovesBlob(cfg, s, f);
    } else {
      var q :| Removes(s, f, q);
      events := RemoverRemovesBlob(cfg, s, f, q);
    }
  }

  /** In every continuation the row of `f`, whenever there is one, has its blob -- if and only if it has it now (should
      there be a row), the upload of `f` has ended, and no delete of `f` is about to remove the blob; or there is no row
      and the upload can no longer insert one. */
  lemma BlobSafeIff(cfg: Config, s: Sys, f: string)
    requires ValidConfig(cfg) && Inv(cfg, s) && f in s.born
    ensures BlobSafe(s, f) <==> forall events :: RowHasBlob(Run(cfg, s, events), f)
  {
    hide Inv, BlobSafe, RowHasBlob, Run;
    if BlobSafe(s, f) {
      forall events
        ensures RowHasBlob(Run(cfg, s, events), f)
      {
        BlobSafeForever(cfg, s, events, f);
      }
    } else {
      var events := UnsafeLosesBlob(cfg, s, f);
    }
  }
}
