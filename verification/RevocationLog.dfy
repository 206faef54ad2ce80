/** When a link's revocation is sure to be in the log at most once, whatever happens. */
module RevocationLog {
  import opened Wrappers
  import opened Codec
  import opened Tables
  import opened Domain
  import opened Requests
  import opened System
  import opened Invariants
  import opened Preservation
  import opened Lifecycle
  import opened Phases
  import opened Revocation
  import Signs
  import AuditFacts

  /** A request is about to log that it revoked `l`, however its caller spelled the id. */
  predicate Pending(s: Sys, q: nat, l: string) {
    q in s.procs && s.procs[q].Revoking? && s.procs[q].v.Logging? && Canon(s.procs[q].v.linkId) == l
  }

  /** A request is about to insert link `l`, for the first time or again. */
  predicate Inserts(s: Sys, q: nat, l: string) {
    q in s.procs && s.procs[q].Signing? && s.procs[q].g.Inserting? && s.procs[q].g.linkId == l
  }

  ghost predicate AtMostOnce(s: Sys, l: string) {
    forall i, j :: 0 <= i < j < |s.store.audit| ==>
      !(AuditFacts.IsRevocation(s.store.audit[i], l) && AuditFacts.IsRevocation(s.store.audit[j], l))
  }

  // ---------- a link being inserted, if it is in the table, is the link its request inserted ----------

  ghost predicate OwnRow(cfg: Config, s: Sys, q: nat) {
    q in s.procs && s.procs[q].Signing? && s.procs[q].g.Inserting? && s.procs[q].g.linkId in s.store.links ==>
      var g := s.procs[q].g;
      SameButRevocation(Signs.Row(cfg, g.linkId, g.file, g.userId, g.ttlSeconds, g.expiresAt), s.store.links[g.linkId])
  }

  ghost predicate OwnRows(cfg: Config, s: Sys) {
    forall q :: OwnRow(cfg, s, q)
  }

  /** A request at its insert either was there before the event or has just drawn the id. */
  lemma InserterWas(cfg: Config, s: Sys, e: Event, q: nat, l: string)
    requires IdsTracked(s) && Inserts(Step(cfg, s, e), q, l)
    ensures q in s.procs
    ensures (Inserts(s, q, l) && Step(cfg, s, e).procs[q] == s.procs[q]) || (Drawing(s, q) && l !in s.used)
  {
    hide Perform, Canon, IsUuid, Resume;
    if q in s.procs {
      StepOfRequest(cfg, s, e, q);
      if Waiting(s, q) {
        NoneResumesToInsert(cfg, s, q);
      }
    }
  }

  lemma NoneResumesToInsert(cfg: Config, s: Sys, q: nat)
    requires Waiting(s, q)
    ensures forall reply :: var r := Resume(cfg, s.procs[q], reply); !(r.Signing? && r.g.Inserting?)
  {
    hide Canon, IsUuid;
  }

  lemma OwnRowStays(cfg: Config, s: Sys, e: Event, q: nat)
    requires Inv(cfg, s) && OwnRows(cfg, s)
    ensures OwnRow(cfg, Step(cfg, s, e), q)
  {
    hide Inv, Canon, IsUuid, Resume, Perform, CanonicalUuid;
    BirthsInv(cfg, s);
    var t := Step(cfg, s, e);
    if q in t.procs && t.procs[q].Signing? && t.procs[q].g.Inserting? {
      var l := t.procs[q].g.linkId;
      InserterWas(cfg, s, e, q, l);
      UnusedNoLink(cfg, s, l);
      assert OwnRow(cfg, s, q);
      RequestInv(cfg, s, q);
      if e.Try? && Waiting(s, e.pid) {
        RequestInv(cfg, s, e.pid);
        LinksEffect(s.store, Await(cfg, s.procs[e.pid]), s.clock);
      }
    }
  }

  lemma UnusedNoLink(cfg: Config, s: Sys, l: string)
    requires Inv(cfg, s)
    ensures l !in s.used ==> l !in s.store.links
  {
    if l !in s.used {
      LinkIdFree(cfg, s, l);
    }
  }

  lemma {:induction false} RunKeepsOwnRows(cfg: Config, s: Sys, events: seq<Event>)
    requires ValidConfig(cfg) && Inv(cfg, s) && OwnRows(cfg, s)
    ensures OwnRows(cfg, Run(cfg, s, events))
    decreases |events|
  {
    hide Inv, Step, OwnRow;
    if events != [] {
      StepKeepsInv(cfg, s, events[0]);
      forall q
        ensures OwnRow(cfg, Step(cfg, s, events[0]), q)
      {
        OwnRowStays(cfg, s, events[0], q);
      }
      RunKeepsOwnRows(cfg, Step(cfg, s, events[0]), events[1..]);
    }
  }

  /** It holds in every reachable state. */
  lemma ReachableOwnRows(cfg: Config, events: seq<Event>)
    requires ValidConfig(cfg)
    ensures OwnRows(cfg, Run(cfg, Init, events))
  {
    ReachableInv(cfg, []);
    assert Run(cfg, Init, []) == Init;
    RunKeepsOwnRows(cfg, Init, events);
  }

  // ---------- a link that can never be revoked again ----------

  /** The link is not to be revoked, now or later: its row is revoked, or gone; and it cannot be put in again,
      because its file cannot come back or because no request is about to insert it. */
  ghost predicate BeyondRevoking(s: Sys, l: string) {
    && l in s.drafts
    && (l in s.store.links ==> s.store.links[l].revokedAt.Some?)
    && ((Settled(s, s.drafts[l].fileId) && (l in s.store.links || s.drafts[l].fileId !in s.store.files))
        || forall q :: !Inserts(s, q, l))
  }

  lemma NoInserterStays(cfg: Config, s: Sys, e: Event, l: string)
    requires Inv(cfg, s) && l in s.drafts && forall q :: !Inserts(s, q, l)
    ensures forall q :: !Inserts(Step(cfg, s, e), q, l)
  {
    hide Inv, Step, Settled;
    BirthsInv(cfg, s);
    forall q
      ensures !Inserts(Step(cfg, s, e), q, l)
    {
      if Inserts(Step(cfg, s, e), q, l) {
        InserterWas(cfg, s, e, q, l);
      }
    }
  }

  /** A row changes only by being revoked, comes only from a request inserting it, and goes only with its file. */
  lemma LinkRowStep(cfg: Config, s: Sys, e: Event, l: string)
    requires Inv(cfg, s) && l in s.drafts
    ensures var t := Step(cfg, s, e);
            && (l in t.store.links ==> (l in s.store.links && SameButRevocation(s.store.links[l], t.store.links[l]))
                                       || exists q :: Inserts(s, q, l))
            && (l in s.store.links && s.store.links[l].revokedAt.Some? && l in t.store.links ==>
                  t.store.links[l] == s.store.links[l])
            && (l in s.store.links ==> l in t.store.links || s.drafts[l].fileId !in t.store.files)
  {
    hide Inv, Canon, IsUuid, Resume, CanonicalUuid, LinkFor, PathTaken, SignatureTaken, Inserts, Perform;
    if l in s.store.links {
      LinkInv(cfg, s, l);
    }
    if e.Try? && Waiting(s, e.pid) {
      LinksEffect(s.store, Await(cfg, s.procs[e.pid]), s.clock);
      OnlyInserters(cfg, s, e.pid, l);
      DeletionTakesRow(s.store, Await(cfg, s.procs[e.pid]), s.clock, s.drafts[l].fileId);
    }
  }

  lemma OnlyInserters(cfg: Config, s: Sys, q: nat, l: string)
    requires Waiting(s, q)
    ensures var call := Await(cfg, s.procs[q]);
            call.OnLinks? && call.link.InsertLink? && call.link.link.id == l ==> Inserts(s, q, l)
  {
    hide Canon, IsUuid;
  }

  lemma DeletionTakesRow(s: Store, call: Call, now: int, f: string)
    ensures call == OnFiles(DeleteFile(f)) ==> f !in Perform(s, call, now).0.files
  {
  }

  lemma BeyondStays(cfg: Config, s: Sys, e: Event, l: string)
    requires ValidConfig(cfg) && Inv(cfg, s) && BeyondRevoking(s, l)
    ensures BeyondRevoking(Step(cfg, s, e), l)
  {
    hide Inv, Step, Settled, Inserts;
    BirthsInv(cfg, s);
    StepGrows(cfg, s, e);
    var f, t := s.drafts[l].fileId, Step(cfg, s, e);
    LinkRowStep(cfg, s, e, l);
    StepKeepsInv(cfg, s, e);
    if forall q :: !Inserts(s, q, l) {
      NoInserterStays(cfg, s, e, l);
    } else {
      SettledStays(cfg, s, e, f);
      if f !in s.store.files {
        DeadStaysDead(cfg, s, e, f);
      }
      LinkOfDraft(cfg, s, l);
      LinkOfDraft(cfg, t, l);
    }
  }

  lemma LinkOfDraft(cfg: Config, s: Sys, l: string)
    requires Inv(cfg, s) && l in s.drafts
    ensures l in s.store.links ==> s.store.links[l].fileId == s.drafts[l].fileId && s.drafts[l].fileId in s.store.files
  {
    if l in s.store.links {
      LinkInv(cfg, s, l);
    }
  }

  // ---------- at most once, for good ----------

  ghost predicate OnceForGood(s: Sys, l: string) {
    AtMostOnce(s, l) && BeyondRevoking(s, l) && forall q :: !Pending(s, q, l)
  }

  /** A request comes to log a revocation of `l` only by revoking it. */
  lemma PendingWas(cfg: Config, s: Sys, e: Event, q: nat, l: string)
    requires Pending(Step(cfg, s, e), q, l) && !Pending(s, q, l)
    ensures exists f :: Revocable(s.store, l, f)
  {
    hide Canon, IsUuid, CanonicalUuid, PerformFile, PerformAudit, PerformBlob, LinkFor;
    if q in s.procs {
      StepOfRequest(cfg, s, e, q);
      hide Step;
    }
  }

  /** Only a request about to log a revocation of `l` adds one to the log. */
  lemma RevocationsAdded(cfg: Config, s: Sys, e: Event, l: string)
    requires forall q :: !Pending(s, q, l)
    ensures var t := Step(cfg, s, e);
            && s.store.audit <= t.store.audit
            && forall i :: |s.store.audit| <= i < |t.store.audit| ==> !AuditFacts.IsRevocation(t.store.audit[i], l)
  {
    hide Canon, IsUuid, CanonicalUuid, Resume, Perform;
    if e.Try? && Waiting(s, e.pid) {
      AuditEffect(s.store, Await(cfg, s.procs[e.pid]), s.clock);
      assert !Pending(s, e.pid, l);
    }
  }

  lemma OnceStays(cfg: Config, s: Sys, e: Event, l: string)
    requires ValidConfig(cfg) && Inv(cfg, s) && OnceForGood(s, l)
    ensures OnceForGood(Step(cfg, s, e), l)
  {
    BeyondStays(cfg, s, e, l);
    RevocationsAdded(cfg, s, e, l);
    hide Inv, Step, Settled, Inserts, Pending, AuditFacts.IsRevocation;
    forall q
      ensures !Pending(Step(cfg, s, e), q, l)
    {
      if Pending(Step(cfg, s, e), q, l) {
        PendingWas(cfg, s, e, q, l);
      }
    }
  }

  lemma {:induction false} OnceForever(cfg: Config, s: Sys, events: seq<Event>, l: string)
    requires ValidConfig(cfg) && Inv(cfg, s) && OnceForGood(s, l)
    ensures AtMostOnce(Run(cfg, s, events), l)
    decreases |events|
  {
    hide Inv, Step, BeyondRevoking, Pending, AtMostOnce;
    if events != [] {
      StepKeepsInv(cfg, s, events[0]);
      OnceStays(cfg, s, events[0], l);
      OnceForever(cfg, Step(cfg, s, events[0]), events[1..], l);
    }
  }

  // ---------- the converse: runs that log it twice ----------

  lemma TwiceFromPending(cfg: Config, s: Sys, q: nat, l: string) returns (events: seq<Event>)
    requires Pending(s, q, l)
    ensures !AtMostOnce(Run(cfg, s, events), l)
  {
    hide Run, Canon;
    var v := s.procs[q].v;
    var event := AuditEvent(v.file.id, v.userId, LinkRevoked(v.linkId));
    var t := LogsTwice(cfg, s, q, event);
    events := [Try(q, RetryApplied), Try(q, Succeeds)];
    var n := |s.store.audit|;
    assert t.store.audit[n] == event && t.store.audit[n + 1] == event;
  }

  lemma TwiceFromRevocable(cfg: Config, s: Sys, l: string, pid: nat, id: string) returns (events: seq<Event>)
    requires Inv(cfg, s) && l in s.store.links && s.store.links[l].revokedAt.None? && pid !in s.procs && Unused(s, id)
    ensures !AtMostOnce(Run(cfg, s, events), l)
  {
    hide Inv, Run, AtMostOnce, IsUuid;
    var f := s.store.links[l].fileId;
    LinkInv(cfg, s, l);
    PresentRow(cfg, s, f);
    LinkIdCanonical(cfg, s, l);
    var ev, t := RevokePhase(cfg, s, f, l, pid, id);
    var more := TwiceFromPending(cfg, t, pid, l);
    events := ev + more;
    RunAppend(cfg, s, ev, more);
  }

  lemma LinkIdCanonical(cfg: Config, s: Sys, l: string)
    requires Inv(cfg, s) && l in s.store.links
    ensures CanonicalUuid(l) && Canon(l) == l
  {
    LinkInv(cfg, s, l);
  }

  /** The file comes back without links, and the request puts its link in once more. */
  lemma LinkReturns(cfg: Config, s: Sys, q: nat, l: string, pid: nat, id: string) returns (events: seq<Event>, t: Sys)
    requires ValidConfig(cfg) && Inv(cfg, s) && OwnRow(cfg, s, q) && Inserts(s, q, l)
    requires l in s.store.links && !Settled(s, s.store.links[l].fileId)
    requires pid !in s.procs && Unused(s, id)
    ensures t == Run(cfg, s, events) && Inv(cfg, t) && AllPlain(events)
    ensures l in t.store.links && t.store.links[l] == s.store.links[l].(revokedAt := None)
    ensures t.procs.Keys == s.procs.Keys + {pid} && t.used == s.used
    ensures t.store.files.Keys >= {s.store.links[l].fileId}
    ensures Extended(s.store.audit, t.store.audit, s.store.links[l].fileId) && t.hazyAudits == s.hazyAudits
  {
    hide Inv, Run, Settled, Canon, IsUuid, WithoutLinksOf, Constraints, SignatureTaken, CanonicalUuid;
    LinkInv(cfg, s, l);
    ConstraintsInv(cfg, s);
    RequestInv(cfg, s, q);
    var f, g := s.store.links[l].fileId, s.procs[q].g;
    UnsettledUploader(cfg, s, f);
    var ev, mid := Resurrect(cfg, s, f, pid, id);
    SignatureFreed(s.store, mid.store, l);
    LinkFreed(s.store, mid.store, l);
    RunOne(cfg, mid, Try(q, Succeeds));
    InsertTakes(cfg, mid, q, Signs.Row(cfg, l, g.file, g.userId, g.ttlSeconds, g.expiresAt));
    t := Step(cfg, mid, Try(q, Succeeds));
    events := ev + [Try(q, Succeeds)];
    RunAppend(cfg, s, ev, [Try(q, Succeeds)]);
    RunKeepsInv(cfg, mid, [Try(q, Succeeds)]);
  }

  lemma UnsettledUploader(cfg: Config, s: Sys, f: string)
    requires Inv(cfg, s) && f in s.born && !Settled(s, f)
    ensures s.born[f].pid in s.procs && s.procs[s.born[f].pid].Upping?
  {
    hide Inv;
    BirthInv(cfg, s, f);
  }

  lemma LinkFreed(s: Store, t: Store, l: string)
    requires l in s.links && t.links == WithoutLinksOf(s.links, s.links[l].fileId)
    ensures l !in t.links
  {
  }

  lemma InsertTakes(cfg: Config, s: Sys, q: nat, row: LinkRow)
    requires q in s.procs && s.procs[q].Signing? && s.procs[q].g.Inserting?
    requires var g := s.procs[q].g; row == Signs.Row(cfg, g.linkId, g.file, g.userId, g.ttlSeconds, g.expiresAt)
    requires LinkInsertable(s.store, row)
    ensures var t := Step(cfg, s, Try(q, Succeeds));
            && t.store == s.store.(links := s.store.links[row.id := row])
            && t.procs.Keys == s.procs.Keys && t.used == s.used && t.hazyAudits == s.hazyAudits
  {
    hide Canon, IsUuid, LinkInsertable;
  }

  lemma LoggedTwiceSoon(cfg: Config, s: Sys, l: string, pid: nat, pid': nat, id: string) returns (events: seq<Event>)
    requires ValidConfig(cfg) && Inv(cfg, s) && OwnRows(cfg, s) && l in s.store.links && !OnceForGood(s, l)
    requires pid !in s.procs && pid' !in s.procs && pid != pid' && Unused(s, id)
    ensures !AtMostOnce(Run(cfg, s, events), l)
  {
    hide Inv, Run, AtMostOnce, Settled, OwnRow, IsUuid, Canon, CanonicalUuid;
    LinkInv(cfg, s, l);
    if !AtMostOnce(s, l) {
      events := [];
      NoEvents(cfg, s);
    } else if s.store.links[l].revokedAt.None? {
      events := TwiceFromRevocable(cfg, s, l, pid, id);
    } else if q :| Pending(s, q, l) {
      events := TwiceFromPending(cfg, s, q, l);
    } else {
      var q :| Inserts(s, q, l);
      assert OwnRow(cfg, s, q);
      var ev, t := LinkReturns(cfg, s, q, l, pid, id);
      var more := TwiceFromRevocable(cfg, t, l, pid', id);
      events := ev + more;
      RunAppend(cfg, s, ev, more);
    }
  }

  /** In every continuation the log has at most one revocation of `l` -- if and only if it has at most one now, the
      link is revoked, no request is about to log its revocation, and the link cannot be put in again: its file's
      upload can no longer insert the row, or no request is about to insert the link. */
  lemma RevokedOnceIff(cfg: Config, s: Sys, l: string, pid: nat, pid': nat, id: string)
    requires ValidConfig(cfg) && Inv(cfg, s) && OwnRows(cfg, s) && l in s.store.links
    requires pid !in s.procs && pid' !in s.procs && pid != pid' && Unused(s, id)
    ensures (&& AtMostOnce(s, l) && s.store.links[l].revokedAt.Some? && (forall q :: !Pending(s, q, l))
             && (Settled(s, s.store.links[l].fileId) || forall q :: !Inserts(s, q, l)))
            <==> forall events :: AtMostOnce(Run(cfg, s, events), l)
  {
    hide Inv, Run, AtMostOnce, Settled, OwnRow, Pending, Inserts, CanonicalUuid;
    LinkInv(cfg, s, l);
    if OnceForGood(s, l) {
      forall events
        ensures AtMostOnce(Run(cfg, s, events), l)
      {
        OnceForever(cfg, s, events, l);
      }
    } else {
      var events := LoggedTwiceSoon(cfg, s, l, pid, pid', id);
    }
  }
}
