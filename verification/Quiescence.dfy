/** The log against the table in runs without failures, however their requests interleave: when nothing is in
    flight, the log tells exactly what links a live file has and which of them are revoked. */
module Quiescence {
  import opened Codec
  import opened Tables
  import opened Domain
  import opened System
  import opened Invariants
  import opened Preservation
  import opened Lifecycle
  import opened LogCounts
  import AuditFacts
  import RevocationLog
  import StoredBytes

  // ---------- a file without a row ----------

  lemma NeverSeen(cfg: Config, s: Sys, f: string, pick: Pick)
    requires Inv(cfg, s) && f !in s.inserted
    ensures f !in s.store.files && Made(s, f, pick) == {} && Rows(s, f, pick) == {} && Telling(s, f, pick) == {}
  {
    assert s.store.files.Keys <= s.inserted;
    forall i | 0 <= i < |s.store.audit|
      ensures s.store.audit[i].fileId != f
    {
      assert EventOk(s, s.store.audit[i]);
    }
    forall q | q in s.procs
      ensures !Tells(s.procs[q], f, pick)
    {
      RequestInv(cfg, s, q);
    }
  }

  /** Without failures a file has its first row only once, and no row after its last. */
  lemma FirstAndOnly(cfg: Config, s: Sys, e: Event, f: string)
    requires ValidConfig(cfg) && Inv(cfg, s) && StoredBytes.BlobInv(cfg, s) && s.hazyInserts == {} && e.Plain()
    requires f !in s.store.files && f in Step(cfg, s, e).store.files
    ensures f !in s.inserted
  {
    hide Inv, StoredBytes.BlobInv, TryStep, StartStep, DrawStep, CanonicalUuid;
    if !(e.Try? && Waiting(s, e.pid)) {
      QuietStep(cfg, s, e);
    } else if f in s.inserted {
      StaysClear(cfg, s, e);
      StoredBytes.GoneStaysGone(cfg, s, Step(cfg, s, e), e.pid, e.attempt, f);
    }
  }

  lemma StaysClear(cfg: Config, s: Sys, e: Event)
    requires e.Plain()
    ensures Step(cfg, s, e).hazyInserts == s.hazyInserts && Step(cfg, s, e).hazyAudits == s.hazyAudits
  {
  }

  // ---------- links made ----------

  ghost predicate Counted(s: Sys) {
    forall f, pick: Pick :: f in s.store.files ==> Excess(s, f, pick) == 0
  }

  lemma CountedStays(cfg: Config, s: Sys, e: Event)
    requires ValidConfig(cfg) && Inv(cfg, s) && StoredBytes.BlobInv(cfg, s) && s.hazyInserts == {} && e.Plain()
    requires Counted(s)
    ensures Counted(Step(cfg, s, e))
  {
    hide Inv, StoredBytes.BlobInv, Step, Made, Telling, Rows;
    forall f, pick: Pick | f in Step(cfg, s, e).store.files
      ensures Excess(Step(cfg, s, e), f, pick) == 0
    {
      ExcessStep(cfg, s, e, f, pick);
      if f !in s.store.files {
        FirstAndOnly(cfg, s, e, f);
        NeverSeen(cfg, s, f, pick);
      }
    }
  }

  // ---------- links revoked ----------

  /** The log says that link `l` of `f` was revoked. */
  ghost predicate Said(s: Sys, f: string, l: string) {
    exists i :: 0 <= i < |s.store.audit| && s.store.audit[i].fileId == f && AuditFacts.IsRevocation(s.store.audit[i], l)
  }

  /** A request is about to say so. */
  ghost predicate Saying(s: Sys, q: nat, f: string, l: string) {
    RevocationLog.Pending(s, q, l) && s.procs[q].v.file.id == f
  }

  ghost predicate RevokedRow(s: Sys, f: string, l: string) {
    l in s.store.links && s.store.links[l].fileId == f && s.store.links[l].revokedAt.Some?
  }

  ghost predicate Accounted(s: Sys) {
    forall f, l :: RevokedRow(s, f, l) ==> Said(s, f, l) || exists q :: Saying(s, q, f, l)
  }

  lemma SaidStays(s: Sys, t: Sys, f: string, l: string)
    requires Said(s, f, l) && s.store.audit <= t.store.audit
    ensures Said(t, f, l)
  {
    var i :| 0 <= i < |s.store.audit| && s.store.audit[i].fileId == f && AuditFacts.IsRevocation(s.store.audit[i], l);
    assert t.store.audit[i] == s.store.audit[i];
  }

  /** A request about to say it either still is, or has said it. */
  lemma SayingStays(cfg: Config, s: Sys, e: Event, q: nat, f: string, l: string)
    requires Saying(s, q, f, l) && e.Plain()
    ensures Saying(Step(cfg, s, e), q, f, l) || Said(Step(cfg, s, e), f, l)
  {
    hide Canon, IsUuid, CanonicalUuid;
    if e == Try(q, Succeeds) {
      var t, v := Step(cfg, s, e), s.procs[q].v;
      assert t.store.audit[|s.store.audit|] == AuditEvent(v.file.id, v.userId, LinkRevoked(v.linkId));
    }
  }

  /** A row that has become revoked was revoked by a request now about to say so. */
  lemma NewlyRevoked(cfg: Config, s: Sys, e: Event, f: string, l: string)
    requires Inv(cfg, s) && e.Plain() && RevokedRow(Step(cfg, s, e), f, l) && !RevokedRow(s, f, l)
    ensures exists q :: Saying(Step(cfg, s, e), q, f, l)
  {
    hide Inv, Canon, IsUuid, CanonicalUuid, PathTaken, SignatureTaken, LinkFor;
    var t := Step(cfg, s, e);
    if e.Try? && Waiting(s, e.pid) {
      assert Saying(t, e.pid, f, l);
    }
  }

  lemma AccountedStays(cfg: Config, s: Sys, e: Event)
    requires Inv(cfg, s) && Accounted(s) && e.Plain()
    ensures Accounted(Step(cfg, s, e))
  {
    hide Inv, Step, Said, Saying, RevokedRow;
    BirthsInv(cfg, s);
    StepGrows(cfg, s, e);
    var t := Step(cfg, s, e);
    forall f, l | RevokedRow(t, f, l)
      ensures Said(t, f, l) || exists q :: Saying(t, q, f, l)
    {
      if !RevokedRow(s, f, l) {
        NewlyRevoked(cfg, s, e, f, l);
      } else if Said(s, f, l) {
        SaidStays(s, t, f, l);
      } else {
        var q :| Saying(s, q, f, l);
        SayingStays(cfg, s, e, q, f, l);
      }
    }
  }

  // ---------- over runs ----------

  ghost predicate Faithful(cfg: Config, s: Sys) {
    && AuditFacts.LogInv(cfg, s) && s.hazyInserts == {} && s.hazyAudits == {} && Counted(s) && Accounted(s)
  }

  lemma {:induction false} RunFaithful(cfg: Config, s: Sys, events: seq<Event>)
    requires ValidConfig(cfg) && Faithful(cfg, s) && AllPlain(events)
    ensures Faithful(cfg, Run(cfg, s, events))
    decreases |events|
  {
    hide Inv, StoredBytes.BlobInv, AuditFacts.RevokeInv, AuditFacts.ReceiptInv, Step, Counted, Accounted;
    if events != [] {
      var e := events[0];
      AuditFacts.RunKeepsLogInv(cfg, s, [e]);
      RunOne(cfg, s, e);
      StaysClear(cfg, s, e);
      CountedStays(cfg, s, e);
      AccountedStays(cfg, s, e);
      RunFaithful(cfg, Step(cfg, s, e), events[1..]);
    }
  }

  lemma InitFaithful(cfg: Config)
    ensures Faithful(cfg, Init)
  {
    AuditFacts.InitLogInv(cfg);
  }

  /** Nothing is in flight. */
  predicate Quiescent(s: Sys) {
    forall q :: q in s.procs ==> s.procs[q].Done?
  }

  /** After any run without failures, however its requests interleaved, once nothing is in flight: for each live
      file and each lifetime and expiry the log tells of exactly as many links as there are, and the links it says
      were revoked are exactly those that are. */
  lemma QuietLogTells(cfg: Config, events: seq<Event>, f: string)
    requires ValidConfig(cfg) && AllPlain(events)
    requires var s := Run(cfg, Init, events); Quiescent(s) && f in s.store.files
    ensures var s := Run(cfg, Init, events);
            && (forall pick: Pick :: |Made(s, f, pick)| == |Rows(s, f, pick)|)
            && (forall l :: Said(s, f, l) <==> RevokedRow(s, f, l))
  {
    hide Run, Made, Rows, Said, RevokedRow, Accounted, Counted, Inv, StoredBytes.BlobInv;
    InitFaithful(cfg);
    RunFaithful(cfg, Init, events);
    var s := Run(cfg, Init, events);
    forall pick: Pick
      ensures |Made(s, f, pick)| == |Rows(s, f, pick)|
    {
      QuietExcess(s, f, pick);
    }
    forall l
      ensures Said(s, f, l) <==> RevokedRow(s, f, l)
    {
      QuietRevocation(cfg, s, f, l);
    }
  }

  lemma QuietExcess(s: Sys, f: string, pick: Pick)
    requires Quiescent(s) && Counted(s) && f in s.store.files
    ensures |Made(s, f, pick)| == |Rows(s, f, pick)|
  {
    hide Made, Rows;
    assert Telling(s, f, pick) == {};
    assert Excess(s, f, pick) == 0;
  }

  lemma QuietRevocation(cfg: Config, s: Sys, f: string, l: string)
    requires Quiescent(s) && Faithful(cfg, s) && f in s.store.files
    ensures Said(s, f, l) <==> RevokedRow(s, f, l)
  {
    hide Inv, StoredBytes.BlobInv, AuditFacts.ReceiptInv, Counted, Canon;
    if Said(s, f, l) {
      var i :| 0 <= i < |s.store.audit| && s.store.audit[i].fileId == f && AuditFacts.IsRevocation(s.store.audit[i], l);
      assert AuditFacts.RevocationOk(s, s.store.audit[i]);
      AuditFacts.FileOfSpent(cfg, s, l);
    }
  }
}
