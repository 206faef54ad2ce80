/** Revocation is permanent, and exactly when. */
module Revocation {
  import opened Wrappers
  import opened Codec
  import opened Tables
  import opened Domain
  import opened Requests
  import opened System
  import opened Invariants
  import opened Preservation
  import opened Lifecycle
  import opened Phases
  import Signs

  /** The lookup behind every redemption of the revoked link finds no row, or that same revoked row with its
      first revocation time. */
  ghost predicate StaysRevoked(s: Sys, row: LinkRow) {
    LinkFor(s.store, row.fileId, row.signature) in {None, Some(row)}
  }

  // ---------- while the file cannot come back ----------

  /** The revoked row is still there, or its file is gone. */
  ghost predicate Blocked(s: Sys, row: LinkRow) {
    (row.id in s.store.links && s.store.links[row.id] == row) || row.fileId !in s.store.files
  }

  lemma RevokedRowStays(s: Store, call: Call, now: int, row: LinkRow)
    requires row.id in s.links && s.links[row.id] == row && row.revokedAt.Some?
    ensures var t := Perform(s, call, now).0;
            (row.id in t.links && t.links[row.id] == row) || row.fileId !in t.files
  {
    LinksEffect(s, call, now);
  }

  lemma BlockedStays(cfg: Config, s: Sys, e: Event, row: LinkRow)
    requires Inv(cfg, s) && Settled(s, row.fileId) && Blocked(s, row) && row.revokedAt.Some?
    ensures Blocked(Step(cfg, s, e), row)
  {
    hide Inv, Settled, Await, Perform;
    if row.fileId !in s.store.files {
      DeadStaysDead(cfg, s, e, row.fileId);
    } else if e.Try? && Waiting(s, e.pid) {
      RevokedRowStays(s.store, Await(cfg, s.procs[e.pid]), s.clock, row);
    }
  }

  lemma BlockedLookup(s: Store, row: LinkRow)
    requires Constraints(s)
    requires (row.id in s.links && s.links[row.id] == row) || row.fileId !in s.files
    ensures LinkFor(s, row.fileId, row.signature) in {None, Some(row)}
  {
    if row.id in s.links && s.links[row.id] == row {
      LinkForUnique(s, row.id);
    }
  }

  // ---------- while the signature cannot be issued again ----------

  /** A request is about to insert a link of the row's file with the row's signature. */
  predicate SignsNow(cfg: Config, s: Sys, pid: nat, row: LinkRow) {
    && pid in s.procs && s.procs[pid].Signing? && s.procs[pid].g.Inserting?
    && s.procs[pid].g.file.id == row.fileId && cfg.signature(row.fileId, s.procs[pid].g.expiresAt) == row.signature
  }

  /** `e` is an expiry that a request yet to read the clock can give a link, and it yields the row's signature. */
  predicate SignsLater(cfg: Config, s: Sys, e: int, row: LinkRow) {
    s.clock / 1000 < e <= MAX_TIME / 1000 + cfg.maxTtlSeconds && cfg.signature(row.fileId, e) == row.signature
  }

  /** The row's signature can still be issued for its file: for a link that has not reached its final second it always
      can; from then on only by a request already past reading the clock, or on a collision with a later expiry. */
  ghost predicate Reissuable(cfg: Config, s: Sys, row: LinkRow) {
    (exists pid :: SignsNow(cfg, s, pid, row)) || exists e :: SignsLater(cfg, s, e, row)
  }

  /** No other row answers the lookup. */
  ghost predicate OnlyRow(s: Store, row: LinkRow) {
    forall l :: IsLinkFor(s, row.fileId, row.signature, l) ==> s.links[l] == row
  }

  lemma OnlyRowLookup(s: Store, row: LinkRow)
    requires OnlyRow(s, row)
    ensures LinkFor(s, row.fileId, row.signature) in {None, Some(row)}
  {
  }

  lemma SignerWasThere(cfg: Config, s: Sys, e: Event, pid: nat, row: LinkRow)
    requires SignsNow(cfg, Step(cfg, s, e), pid, row)
    ensures pid in s.procs
  {
    hide Perform, Canon, IsUuid, CanonicalUuid, Resume;
  }

  /** A request about to insert after one event either was already, or has just read the clock. */
  lemma SignsNowBefore(cfg: Config, s: Sys, e: Event, pid: nat, row: LinkRow)
    requires Inv(cfg, s) && SignsNow(cfg, Step(cfg, s, e), pid, row)
    ensures Reissuable(cfg, s, row)
  {
    hide Inv, Step, Canon, IsUuid, Perform, CanonicalUuid;
    BirthsInv(cfg, s);
    SignerWasThere(cfg, s, e, pid, row);
    RequestInv(cfg, s, pid);
    StepOfRequest(cfg, s, e, pid);
    if Drawing(s, pid) {
      var expiresAt := s.clock / 1000 + s.procs[pid].g.ttlSeconds;
      assert SignsNow(cfg, s, pid, row) || SignsLater(cfg, s, expiresAt, row);
    } else {
      assert SignsNow(cfg, s, pid, row);
    }
  }

  lemma NotReissuableStays(cfg: Config, s: Sys, e: Event, row: LinkRow)
    requires Inv(cfg, s) && !Reissuable(cfg, s, row)
    ensures !Reissuable(cfg, Step(cfg, s, e), row)
  {
    hide Inv, Step;
    BirthsInv(cfg, s);
    StepGrows(cfg, s, e);
    var t := Step(cfg, s, e);
    forall pid
      ensures !SignsNow(cfg, t, pid, row)
    {
      if SignsNow(cfg, t, pid, row) {
        SignsNowBefore(cfg, s, e, pid, row);
      }
    }
    forall x
      ensures !SignsLater(cfg, t, x, row)
    {
      assert SignsLater(cfg, t, x, row) ==> SignsLater(cfg, s, x, row);
    }
  }

  lemma OnlyRowStays(cfg: Config, s: Sys, e: Event, row: LinkRow)
    requires Inv(cfg, s) && row.revokedAt.Some? && OnlyRow(s.store, row) && !Reissuable(cfg, s, row)
    ensures OnlyRow(Step(cfg, s, e).store, row)
  {
    hide Inv, Canon, IsUuid, Resume, Perform, SignsLater;
    if e.Try? && Waiting(s, e.pid) {
      var call := Await(cfg, s.procs[e.pid]);
      LinksEffect(s.store, call, s.clock);
      if call.OnLinks? && call.link.InsertLink? {
        assert !SignsNow(cfg, s, e.pid, row);
      }
    }
  }

  // ---------- permanence ----------

  /** The revoked row can never be replaced: its file cannot come back, or its signature cannot be issued again. */
  ghost predicate Sealed(cfg: Config, s: Sys, row: LinkRow) {
    && row.revokedAt.Some?
    && ((Settled(s, row.fileId) && Blocked(s, row)) || (!Reissuable(cfg, s, row) && OnlyRow(s.store, row)))
  }

  lemma SealedStays(cfg: Config, s: Sys, e: Event, row: LinkRow)
    requires Inv(cfg, s) && Sealed(cfg, s, row)
    ensures Sealed(cfg, Step(cfg, s, e), row)
  {
    hide Inv, Step, Settled, Blocked, Reissuable, OnlyRow;
    BirthsInv(cfg, s);
    if Settled(s, row.fileId) && Blocked(s, row) {
      SettledStays(cfg, s, e, row.fileId);
      BlockedStays(cfg, s, e, row);
    } else {
      NotReissuableStays(cfg, s, e, row);
      OnlyRowStays(cfg, s, e, row);
    }
  }

  lemma SealedLookup(cfg: Config, s: Sys, row: LinkRow)
    requires Inv(cfg, s) && Sealed(cfg, s, row)
    ensures StaysRevoked(s, row)
  {
    hide Inv, Settled, Reissuable, LinkFor, OnlyRow;
    ConstraintsInv(cfg, s);
    if Settled(s, row.fileId) && Blocked(s, row) {
      BlockedLookup(s.store, row);
    } else {
      OnlyRowLookup(s.store, row);
    }
  }

  lemma {:induction false} SealedForever(cfg: Config, s: Sys, events: seq<Event>, row: LinkRow)
    requires ValidConfig(cfg) && Inv(cfg, s) && Sealed(cfg, s, row)
    ensures Inv(cfg, Run(cfg, s, events)) && Sealed(cfg, Run(cfg, s, events), row)
    decreases |events|
  {
    hide Inv, Step, Sealed;
    if events != [] {
      StepKeepsInv(cfg, s, events[0]);
      SealedStays(cfg, s, events[0], row);
      SealedForever(cfg, Step(cfg, s, events[0]), events[1..], row);
    }
  }

  /** Revocation is permanent: over every continuation -- signing again for the same file and second, deleting,
      racing requests, crashes, retried and half-done calls -- once the row is sealed. */
  lemma RevocationPermanent(cfg: Config, s: Sys, events: seq<Event>, row: LinkRow)
    requires ValidConfig(cfg) && Inv(cfg, s) && Sealed(cfg, s, row)
    ensures StaysRevoked(Run(cfg, s, events), row)
  {
    hide Inv, Run, Sealed, StaysRevoked;
    SealedForever(cfg, s, events, row);
    SealedLookup(cfg, Run(cfg, s, events), row);
  }

  // ---------- no one is granted a revoked link ----------

  /** The request has been granted this file on this signature. */
  predicate HoldsGrant(r: Request, fileId: string, signature: string) {
    match r
    case Downloading(Logging(claim, file, verdict)) => verdict.Granted? && file.id == fileId
        && claim.signature == signature
    case Downloading(Probing(claim, file, _)) => file.id == fileId && claim.signature == signature
    case Downloading(Reading(claim, file, _)) => file.id == fileId && claim.signature == signature
    case Done(Downloaded(file, _, claim, _)) => file.id == fileId && claim.signature == signature
    case _ => false
  }

  lemma NewcomersHoldNothing(cfg: Config, s: Sys, e: Event, pid: nat, fileId: string, signature: string)
    requires pid !in s.procs && pid in Step(cfg, s, e).procs
    ensures !HoldsGrant(Step(cfg, s, e).procs[pid], fileId, signature)
  {
    hide Perform, Canon, IsUuid;
  }

  lemma NoNewGrant(cfg: Config, s: Sys, e: Event, pid: nat, row: LinkRow)
    requires StaysRevoked(s, row) && row.revokedAt.Some?
    requires pid in Step(cfg, s, e).procs && HoldsGrant(Step(cfg, s, e).procs[pid], row.fileId, row.signature)
    ensures pid in s.procs && HoldsGrant(s.procs[pid], row.fileId, row.signature)
  {
    hide Step, Canon, IsUuid, LinkFor, PerformBlob, PerformFile, PerformAudit;
    if pid in s.procs {
      StepOfRequest(cfg, s, e, pid);
    } else {
      NewcomersHoldNothing(cfg, s, e, pid, row.fileId, row.signature);
    }
  }

  /** Once a revoked row is sealed, no request that does not hold a grant on it already is ever granted it again. */
  lemma {:induction false} NeverGrantedAgain(cfg: Config, s: Sys, events: seq<Event>, row: LinkRow, pid: nat)
    requires ValidConfig(cfg) && Inv(cfg, s) && Sealed(cfg, s, row)
    requires pid in Run(cfg, s, events).procs && HoldsGrant(Run(cfg, s, events).procs[pid], row.fileId, row.signature)
    ensures pid in s.procs && HoldsGrant(s.procs[pid], row.fileId, row.signature)
    decreases |events|
  {
    hide Inv, Step, Sealed, StaysRevoked, HoldsGrant;
    if events != [] {
      StepKeepsInv(cfg, s, events[0]);
      SealedStays(cfg, s, events[0], row);
      NeverGrantedAgain(cfg, Step(cfg, s, events[0]), events[1..], row, pid);
      SealedLookup(cfg, s, row);
      assert row.revokedAt.Some? by { SealedIsRevoked(cfg, s, row); }
      NoNewGrant(cfg, s, events[0], pid, row);
    }
  }

  lemma SealedIsRevoked(cfg: Config, s: Sys, row: LinkRow)
    requires Sealed(cfg, s, row)
    ensures row.revokedAt.Some?
  {
  }

  // ---------- the converse: runs that bring a revoked link back ----------

  /** `after` is `before` and the deletion of `f`. */
  predicate Extended(before: seq<AuditEvent>, after: seq<AuditEvent>, f: string) {
    && |after| == |before| + 1 && after[..|before|] == before
    && after[|before|].what.FileDeleted? && after[|before|].fileId == f
  }

  /** The owner deletes the file and the upload, still at its insert, puts the row in again. */
  lemma Reinsert(cfg: Config, s: Sys, f: string, p: nat, pid: nat, id: string) returns (events: seq<Event>, t: Sys)
    requires ValidConfig(cfg) && Inv(cfg, s) && Present(s, f) && pid !in s.procs && Unused(s, id)
    requires p in s.procs && s.procs[p].Upping? && s.procs[p].u.Inserting? && s.procs[p].u.id == f
    ensures t == Run(cfg, s, events) && AllPlain(events) && f in t.store.files
    ensures t.store.links == WithoutLinksOf(s.store.links, f) && t.clock == s.clock
    ensures Extended(s.store.audit, t.store.audit, f) && t.hazyAudits == s.hazyAudits
    ensures t.used == s.used && t.procs.Keys == s.procs.Keys + {pid}
    ensures t.procs[pid].Deleting? && forall q :: q in s.procs && q != p ==> t.procs[q] == s.procs[q]
  {
    hide Inv, Step, Canon, IsUuid;
    var ev, mid := DeletePhase(cfg, s, f, pid, id);
    RunKeepsInv(cfg, s, ev);
    t := InsertAgain(cfg, mid, f, p, Succeeds);
    events := ev + [Try(p, Succeeds)];
    RunAppend(cfg, s, ev, [Try(p, Succeeds)]);
  }

  lemma Resurrect(cfg: Config, s: Sys, f: string, pid: nat, id: string) returns (events: seq<Event>, t: Sys)
    requires ValidConfig(cfg) && Inv(cfg, s) && f in s.store.files && f in s.born && !Settled(s, f)
    requires pid !in s.procs && Unused(s, id)
    ensures t == Run(cfg, s, events) && AllPlain(events) && Inv(cfg, t) && f in t.store.files
    ensures t.store.links == WithoutLinksOf(s.store.links, f) && t.clock == s.clock
    ensures Extended(s.store.audit, t.store.audit, f) && t.hazyAudits == s.hazyAudits
    ensures t.used == s.used && t.procs.Keys == s.procs.Keys + {pid}
    ensures t.procs[pid].Deleting? && forall q :: q in s.procs && q != s.born[f].pid ==> t.procs[q] == s.procs[q]
  {
    hide Inv, Settled, Canon, IsUuid, Run, WithoutLinksOf;
    var ev1, s1 := ReachInsert(cfg, s, f);
    PresentRow(cfg, s1, f);
    var ev2, t' := Reinsert(cfg, s1, f, s.born[f].pid, pid, id);
    t := t';
    events := ev1 + ev2;
    RunAppend(cfg, s, ev1, ev2);
    RunKeepsInv(cfg, s, events);
  }

  lemma NotRevokedLookup(cfg: Config, t: Sys, row: LinkRow, id: string)
    requires Inv(cfg, t) && row.revokedAt.Some?
    requires id in t.store.links && t.store.links[id].fileId == row.fileId
            && t.store.links[id].signature == row.signature
    requires t.store.links[id].revokedAt.None?
    ensures !StaysRevoked(t, row)
  {
    hide Inv, LinkFor;
    ConstraintsInv(cfg, t);
    LinkForUnique(t.store, id);
  }

  lemma SignatureFreed(s: Store, t: Store, l: string)
    requires Constraints(s) && l in s.links && t.links == WithoutLinksOf(s.links, s.links[l].fileId)
    ensures !SignatureTaken(t, s.links[l].signature)
  {
  }

  /** Signing for expiry `e` yields an unrevoked row with the same signature. */
  lemma SignedAgain(cfg: Config, s: Sys, row: LinkRow, e: int, pid: nat, id: string) returns (events: seq<Event>)
    requires ValidConfig(cfg) && Inv(cfg, s) && Present(s, row.fileId)
    requires row.signature == cfg.signature(row.fileId, e) && row.revokedAt.Some?
    requires !SignatureTaken(s.store, row.signature)
    requires 1 <= e - s.clock / 1000 <= cfg.maxTtlSeconds
    requires pid !in s.procs && Unused(s, id)
    ensures !StaysRevoked(Run(cfg, s, events), row)
  {
    hide Inv, StaysRevoked, Canon, IsUuid;
    LinkIdFree(cfg, s, id);
    var ev, t := SignPhase(cfg, s, row.fileId, e - s.clock / 1000, pid, id);
    events := ev;
    RunKeepsInv(cfg, s, ev);
    NotRevokedLookup(cfg, t, row, id);
  }

  /** The clock moves on until a lifetime within the limit ends at `e`. */
  lemma WaitFor(cfg: Config, s: Sys, e: int) returns (events: seq<Event>, t: Sys)
    requires ValidConfig(cfg) && Inv(cfg, s) && cfg.maxTtlSeconds >= 1
    requires s.clock / 1000 < e <= MAX_TIME / 1000 + cfg.maxTtlSeconds
    ensures t == Run(cfg, s, events) && AllPlain(events) && Inv(cfg, t) && t == s.(clock := t.clock)
    ensures 1 <= e - t.clock / 1000 <= cfg.maxTtlSeconds
  {
    hide Inv;
    BirthsInv(cfg, s);
    var now := if e - s.clock / 1000 <= cfg.maxTtlSeconds then s.clock else (e - cfg.maxTtlSeconds) * 1000;
    events := [Tick(now)];
    RunOne(cfg, s, Tick(now));
    t := Step(cfg, s, Tick(now));
    RunKeepsInv(cfg, s, events);
  }

  /** A request already about to insert does so after the file has come back. */
  lemma InsertsAgain(cfg: Config, s: Sys, t: Sys, row: LinkRow, pid: nat) returns (u: Sys)
    requires Inv(cfg, s) && Inv(cfg, t) && SignsNow(cfg, s, pid, row) && pid in t.procs && t.procs[pid] == s.procs[pid]
    requires row.revokedAt.Some? && row.fileId in t.store.files && !SignatureTaken(t.store, row.signature)
    requires t.store.links == WithoutLinksOf(s.store.links, row.fileId)
    ensures u == Run(cfg, t, [Try(pid, Succeeds)])
    ensures exists l :: l in u.store.links && u.store.links[l].fileId == row.fileId
              && u.store.links[l].signature == row.signature && u.store.links[l].revokedAt.None?
  {
    hide Inv, Canon, IsUuid, SignatureTaken;
    var g := t.procs[pid].g;
    RequestInv(cfg, t, pid);
    forall l | l in t.store.links
      ensures l != g.linkId
    {
      LinkInv(cfg, t, l);
    }
    RunOne(cfg, t, Try(pid, Succeeds));
    u := Step(cfg, t, Try(pid, Succeeds));
    assert LinkInsertable(t.store, Signs.Row(cfg, g.linkId, g.file, g.userId, g.ttlSeconds, g.expiresAt));
    assert g.linkId in u.store.links;
  }

  /** The upload of `f`, its owner deleting it, and a request signing it again, one after the other, put an
      unrevoked row where the revoked one was. */
  lemma ComesBackUnrevoked(cfg: Config, s: Sys, l: string, pid: nat, pid': nat, id: string) returns (events: seq<Event>)
    requires ValidConfig(cfg) && Inv(cfg, s) && l in s.store.links && s.store.links[l].revokedAt.Some?
    requires !Settled(s, s.store.links[l].fileId) && Reissuable(cfg, s, s.store.links[l])
    requires pid !in s.procs && pid' !in s.procs && pid != pid' && Unused(s, id)
    ensures !StaysRevoked(Run(cfg, s, events), s.store.links[l])
  {
    hide Inv, StaysRevoked, WithoutLinksOf, Run, Constraints, Canon, IsUuid, SignatureTaken;
    LinkInv(cfg, s, l);
    ConstraintsInv(cfg, s);
    var row := s.store.links[l];
    var f := row.fileId;
    if q :| SignsNow(cfg, s, q, row) {
      var ev, t := Resurrect(cfg, s, f, pid, id);
      SignatureFreed(s.store, t.store, l);
      var u := InsertsAgain(cfg, s, t, row, q);
      RunKeepsInv(cfg, t, [Try(q, Succeeds)]);
      var k :| k in u.store.links && u.store.links[k].fileId == f
               && u.store.links[k].signature == row.signature && u.store.links[k].revokedAt.None?;
      NotRevokedLookup(cfg, u, row, k);
      events := ev + [Try(q, Succeeds)];
      RunAppend(cfg, s, ev, [Try(q, Succeeds)]);
    } else {
      var e :| SignsLater(cfg, s, e, row);
      var ev0, s0 := WaitFor(cfg, s, e);
      var ev1, t := Resurrect(cfg, s0, f, pid, id);
      SignatureFreed(s.store, t.store, l);
      PresentRow(cfg, t, f);
      var ev2 := SignedAgain(cfg, t, row, e, pid', id);
      events := ev0 + (ev1 + ev2);
      RunAppend(cfg, s0, ev1, ev2);
      RunAppend(cfg, s, ev0, ev1 + ev2);
    }
  }

  lemma RevokedRowIsOnly(cfg: Config, s: Sys, l: string)
    requires Inv(cfg, s) && l in s.store.links
    ensures Blocked(s, s.store.links[l]) && OnlyRow(s.store, s.store.links[l])
  {
    hide Inv;
    LinkInv(cfg, s, l);
    ConstraintsInv(cfg, s);
  }

  /** Whenever it was revoked and whether or not it has expired: the revocation of a link is permanent, over all
      continuations, if and only if its file's upload can no longer insert the row, or its signature cannot be issued
      for that file again. */
  lemma PermanentIff(cfg: Config, s: Sys, l: string, pid: nat, pid': nat, id: string)
    requires ValidConfig(cfg) && Inv(cfg, s) && l in s.store.links && s.store.links[l].revokedAt.Some?
    requires pid !in s.procs && pid' !in s.procs && pid != pid' && Unused(s, id)
    ensures Settled(s, s.store.links[l].fileId) || !Reissuable(cfg, s, s.store.links[l])
            <==> forall events :: StaysRevoked(Run(cfg, s, events), s.store.links[l])
  {
    hide Inv, StaysRevoked, Settled, Reissuable, Run, Blocked, OnlyRow, CanonicalUuid;
    var row := s.store.links[l];
    if Settled(s, row.fileId) || !Reissuable(cfg, s, row) {
      RevokedRowIsOnly(cfg, s, l);
      forall events
        ensures StaysRevoked(Run(cfg, s, events), row)
      {
        RevocationPermanent(cfg, s, events, row);
      }
    } else {
      var events := ComesBackUnrevoked(cfg, s, l, pid, pid', id);
    }
  }

  /** For a link that has not reached its final second, it is permanent exactly when the file's upload is settled. */
  lemma PermanentIffSettled(cfg: Config, s: Sys, l: string, pid: nat, pid': nat, id: string)
    requires ValidConfig(cfg) && Inv(cfg, s)
    requires l in s.store.links && s.store.links[l].revokedAt.Some? && s.clock / 1000 < s.store.links[l].expiresAt
    requires pid !in s.procs && pid' !in s.procs && pid != pid' && Unused(s, id)
    ensures Settled(s, s.store.links[l].fileId)
            <==> (forall events :: StaysRevoked(Run(cfg, s, events), s.store.links[l]))
  {
    hide Inv, StaysRevoked, Settled, Run, CanonicalUuid;
    BirthsInv(cfg, s);
    LinkInv(cfg, s, l);
    assert SignsLater(cfg, s, s.store.links[l].expiresAt, s.store.links[l]);
    PermanentIff(cfg, s, l, pid, pid', id);
  }
}
