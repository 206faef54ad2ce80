/** Bytes that no row tells of: when they are there for good. */
module OrphanedBlobs {
  import opened Codec
  import opened Tables
  import opened Domain
  import opened Requests
  import opened System
  import opened Invariants
  import opened Preservation
  import opened Lifecycle
  import opened StoredBytes
  import Sequential

  /** The bytes of the upload of `f` are stored, and no row says so. */
  ghost predicate Orphaned(cfg: Config, s: Sys, f: string) {
    f in s.born && f !in s.store.files && PathOf(cfg, s, f) in s.store.blobs
  }

  /** A delete that found the row of `f` is under way. */
  predicate Deletes(s: Sys, f: string, q: nat) {
    q in s.procs && s.procs[q].Deleting? && !s.procs[q].d.Lookup? && s.procs[q].d.file.id == f
  }

  /** What a look at the service tells: they are orphaned now, the upload has ended, and no delete that found the row is
      under way. */
  ghost predicate Abandoned(cfg: Config, s: Sys, f: string) {
    Orphaned(cfg, s, f) && UploadEnded(s, f) && forall q :: !Deletes(s, f, q)
  }

  /** A delete gets under way only by finding the row. */
  lemma DeleterFoundRow(cfg: Config, s: Sys, e: Event, f: string, q: nat)
    requires Inv(cfg, s) && Deletes(Step(cfg, s, e), f, q) && !Deletes(s, f, q)
    ensures f in s.store.files
  {
    hide Inv, Constraints, Canon, IsUuid, CanonicalUuid, PerformLink, PerformAudit, PerformBlob;
    ConstraintsInv(cfg, s);
    forall g | g in s.store.files
      ensures s.store.files[g].id == g
    {
      KeyIsId(s.store, g);
    }
  }

  lemma BlobStays(cfg: Config, s: Sys, e: Event, f: string)
    requires ValidConfig(cfg) && Inv(cfg, s) && Abandoned(cfg, s, f)
    ensures PathOf(cfg, s, f) in Step(cfg, s, e).store.blobs
  {
    hide Inv, ValidConfig, Canon, IsUuid, Await, Resume, Perform;
    if e.Try? && Waiting(s, e.pid) {
      assert !Deletes(s, f, e.pid);
      if PathOf(cfg, s, f) !in Step(cfg, s, e).store.blobs {
        BlobRemover(cfg, s, e.pid, e.attempt, f);
      }
    }
  }

  lemma AbandonedStays(cfg: Config, s: Sys, e: Event, f: string)
    requires ValidConfig(cfg) && Inv(cfg, s) && Abandoned(cfg, s, f)
    ensures Abandoned(cfg, Step(cfg, s, e), f)
  {
    hide Inv, ValidConfig, Step, Settled, UploadEnded, Deletes;
    BirthsInv(cfg, s);
    StepGrows(cfg, s, e);
    UploadEndedStays(cfg, s, e, f);
    DeadStaysDead(cfg, s, e, f);
    BlobStays(cfg, s, e, f);
    forall q
      ensures !Deletes(Step(cfg, s, e), f, q)
    {
      assert !Deletes(s, f, q);
      if Deletes(Step(cfg, s, e), f, q) {
        DeleterFoundRow(cfg, s, e, f, q);
      }
    }
  }

  lemma {:induction false} AbandonedForever(cfg: Config, s: Sys, events: seq<Event>, f: string)
    requires ValidConfig(cfg) && Inv(cfg, s) && Abandoned(cfg, s, f)
    ensures Orphaned(cfg, Run(cfg, s, events), f)
    decreases |events|
  {
    hide Inv, ValidConfig, Step, UploadEnded, Deletes;
    if events != [] {
      StepKeepsInv(cfg, s, events[0]);
      AbandonedStays(cfg, s, events[0], f);
      AbandonedForever(cfg, Step(cfg, s, events[0]), events[1..], f);
    }
  }

  /** An upload still under way puts the row in, or removes the blob. */
  lemma UploadAdopts(cfg: Config, s: Sys, f: string) returns (events: seq<Event>)
    requires ValidConfig(cfg) && Inv(cfg, s) && Orphaned(cfg, s, f) && !UploadEnded(s, f)
    ensures !Orphaned(cfg, Run(cfg, s, events), f)
  {
    hide Inv, Run, Canon, IsUuid, PathTaken;
    BirthInv(cfg, s, f);
    var p := s.born[f].pid;
    if Settled(s, f) {
      RequestInv(cfg, s, p);
      events := [Try(p, Succeeds)];
      RunOne(cfg, s, Try(p, Succeeds));
    } else {
      var ev, t := ReachInsert(cfg, s, f);
      var u := InsertAgain(cfg, t, f, p, Succeeds);
      events := ev + [Try(p, Succeeds)];
      RunAppend(cfg, s, ev, [Try(p, Succeeds)]);
    }
  }

  /** A delete under way removes the blob, though the row is gone. */
  lemma {:induction false} DeleteCollects(cfg: Config, s: Sys, f: string, q: nat) returns (events: seq<Event>)
    requires ValidConfig(cfg) && Inv(cfg, s) && f in s.born && f !in s.store.files && Deletes(s, f, q)
    ensures !Orphaned(cfg, Run(cfg, s, events), f)
    decreases Sequential.Rank(s.procs[q])
  {
    hide Inv, Canon, IsUuid, Run;
    var e := Try(q, Succeeds);
    var t := Step(cfg, s, e);
    RequestInv(cfg, s, q);
    RunOne(cfg, s, e);
    events := [e];
    if !s.procs[q].d.RemovingBlob? {
      StepKeepsInv(cfg, s, e);
      var rest := DeleteCollects(cfg, t, f, q);
      events := [e] + rest;
      RunAppend(cfg, s, [e], rest);
    }
  }

  /** The bytes are stored without a row in every continuation -- if and only if they are now, the upload has ended, and
      no delete that found the row is under way. */
  lemma OrphanedForGoodIff(cfg: Config, s: Sys, f: string)
    requires ValidConfig(cfg) && Inv(cfg, s) && f in s.born
    ensures Abandoned(cfg, s, f) <==> forall events :: Orphaned(cfg, Run(cfg, s, events), f)
  {
    hide Inv, ValidConfig, Run, UploadEnded, Deletes;
    NoEvents(cfg, s);
    if Abandoned(cfg, s, f) {
      forall events
        ensures Orphaned(cfg, Run(cfg, s, events), f)
      {
        AbandonedForever(cfg, s, events, f);
      }
    } else if !Orphaned(cfg, s, f) {
      assert !Orphaned(cfg, Run(cfg, s, []), f);
    } else if !UploadEnded(s, f) {
      var events := UploadAdopts(cfg, s, f);
    } else {
      var q :| Deletes(s, f, q);
      var events := DeleteCollects(cfg, s, f, q);
    }
  }
}
