/** The audit log never runs ahead of the tables. Sign and revoke write the row first and the event after it,
    so an event always stands for a row; and an event is written at most once unless an append took effect in
    an attempt that was reported as failed. */
module AuditFacts {
  import opened Wrappers
  import opened Codec
  import opened Tables
  import opened Domain
  import opened Requests
  import opened System
  import opened Invariants
  import opened Preservation
  import opened StoredBytes
  import Signs
  import Revokes

  /** `t` is `s` after one attempt of request `pid`. */
  ghost predicate Attempts(cfg: Config, s: Sys, t: Sys, pid: nat, attempt: Attempt) {
    Attempted(cfg, s, t, pid, attempt) && Inv(cfg, t) && Grows(s, t)
  }

  predicate Exact(s: Sys, f: string) {
    f !in s.hazyInserts && f !in s.hazyAudits
  }

  // ---------- links of a file that is not hazy ----------

  /** As long as the file is there, so is the link. */
  ghost predicate Kept(s: Sys, l: string) {
    && l in s.drafts
    && s.drafts[l].fileId in s.inserted
    && (Clear(s, s.drafts[l].fileId) && s.drafts[l].fileId in s.store.files ==> l in s.store.links)
  }

  lemma KeptStays(cfg: Config, s: Sys, t: Sys, pid: nat, attempt: Attempt, l: string)
    requires Attempts(cfg, s, t, pid, attempt) && Kept(s, l)
    ensures Kept(t, l)
  {
    hide Inv, BlobInv;
    var f := s.drafts[l].fileId;
    if Clear(t, f) && f in t.store.files {
      if f !in s.store.files {
        GoneStaysGone(cfg, s, t, pid, attempt, f);
      }
      LinkInv(cfg, s, l);
      LinksEffect(s.store, Await(cfg, s.procs[pid]), s.clock);
    }
  }

  /** The link is revoked for good: its row is revoked, or gone with its file. */
  ghost predicate Spent(s: Sys, l: string) {
    && Kept(s, l)
    && (Clear(s, s.drafts[l].fileId) && l in s.store.links ==> s.store.links[l].revokedAt.Some?)
  }

  lemma SpentStays(cfg: Config, s: Sys, t: Sys, pid: nat, attempt: Attempt, l: string)
    requires Attempts(cfg, s, t, pid, attempt) && Spent(s, l)
    ensures Spent(t, l)
  {
    hide Inv, BlobInv;
    KeptStays(cfg, s, t, pid, attempt, l);
    var f := s.drafts[l].fileId;
    if Clear(t, f) && l in t.store.links {
      LinkInv(cfg, t, l);
      if f !in s.store.files {
        GoneStaysGone(cfg, s, t, pid, attempt, f);
      }
      LinksEffect(s.store, Await(cfg, s.procs[pid]), s.clock);
    }
  }

  // ---------- revocations ----------

  predicate IsRevocation(event: AuditEvent, l: string) {
    event.what.LinkRevoked? && Canon(event.what.linkId) == l
  }

  ghost predicate RevocationLogged(s: Sys, l: string) {
    exists i :: 0 <= i < |s.store.audit| && IsRevocation(s.store.audit[i], l)
  }

  /** A revocation event names, in some spelling, a link of its file that is revoked for good. */
  ghost predicate RevocationOk(s: Sys, event: AuditEvent) {
    event.what.LinkRevoked? ==>
      var l := Canon(event.what.linkId);
      Spent(s, l) && s.drafts[l].fileId == event.fileId
  }

  /** A request about to log a revocation is the one that made it, and has not logged it yet. */
  ghost predicate RevokeClean(s: Sys, pid: nat, v: Revokes.Step) {
    v.Logging? ==>
      var l := Canon(v.linkId);
      && Spent(s, l) && s.drafts[l].fileId == v.file.id
      && (Clear(s, v.file.id) ==> l in s.revokedBy && s.revokedBy[l] == pid)
      && (Exact(s, v.file.id) ==> !RevocationLogged(s, l))
  }

  ghost predicate RevocationsOnce(s: Sys) {
    forall i, j :: 0 <= i < j < |s.store.audit| && s.store.audit[i].what.LinkRevoked?
        && s.store.audit[j].what.LinkRevoked?
      && Canon(s.store.audit[i].what.linkId) == Canon(s.store.audit[j].what.linkId)
      ==> !Exact(s, s.store.audit[j].fileId)
  }

  ghost predicate RevokeInv(s: Sys) {
    && (forall i :: 0 <= i < |s.store.audit| ==> RevocationOk(s, s.store.audit[i]))
    && (forall pid :: pid in s.procs && s.procs[pid].Revoking? ==> RevokeClean(s, pid, s.procs[pid].v))
    && RevocationsOnce(s)
  }

  /** What one attempt adds to the log. */
  lemma NewEvent(cfg: Config, s: Sys, t: Sys, pid: nat, attempt: Attempt)
    requires Attempts(cfg, s, t, pid, attempt)
    ensures t.store.audit == s.store.audit
            || (IsAppend(Await(cfg, s.procs[pid])) && attempt.Applied()
                && t.store.audit == s.store.audit + [Await(cfg, s.procs[pid]).audit.event]
                && (OfLink(Await(cfg, s.procs[pid]).audit.event) && !attempt.Succeeds? ==>
                      Await(cfg, s.procs[pid]).audit.event.fileId in t.hazyAudits))
  {
    AuditEffect(s.store, Await(cfg, s.procs[pid]), s.clock);
  }

  /** Only a request logging its revocation writes a revocation event. */
  lemma RevocationWriter(cfg: Config, s: Sys, pid: nat)
    requires Waiting(s, pid) && IsAppend(Await(cfg, s.procs[pid]))
    requires Await(cfg, s.procs[pid]).audit.event.what.LinkRevoked?
    ensures s.procs[pid].Revoking? && s.procs[pid].v.Logging?
    ensures var e, v := Await(cfg, s.procs[pid]).audit.event, s.procs[pid].v;
            e.fileId == v.file.id && e.what.linkId == v.linkId
  {
  }

  lemma RevocationsStayOk(cfg: Config, s: Sys, t: Sys, pid: nat, attempt: Attempt)
    requires Attempts(cfg, s, t, pid, attempt) && RevokeInv(s)
    ensures forall i :: 0 <= i < |t.store.audit| ==> RevocationOk(t, t.store.audit[i])
  {
    NewEvent(cfg, s, t, pid, attempt);
    forall i | 0 <= i < |t.store.audit|
      ensures RevocationOk(t, t.store.audit[i])
    {
      var event := t.store.audit[i];
      if event.what.LinkRevoked? {
        if i < |s.store.audit| {
          assert RevocationOk(s, event);
        } else {
          RevocationWriter(cfg, s, pid);
          assert RevokeClean(s, pid, s.procs[pid].v);
        }
        SpentStays(cfg, s, t, pid, attempt, Canon(event.what.linkId));
      }
    }
  }

  lemma RevocationsStayOnce(cfg: Config, s: Sys, t: Sys, pid: nat, attempt: Attempt)
    requires Attempts(cfg, s, t, pid, attempt) && RevokeInv(s)
    ensures RevocationsOnce(t)
  {
    hide Inv, BlobInv, TryStep, Canon, Spent;
    NewEvent(cfg, s, t, pid, attempt);
    forall i, j | 0 <= i < j < |t.store.audit| && t.store.audit[i].what.LinkRevoked?
        && t.store.audit[j].what.LinkRevoked?
      && Canon(t.store.audit[i].what.linkId) == Canon(t.store.audit[j].what.linkId)
      ensures !Exact(t, t.store.audit[j].fileId)
    {
      if j == |s.store.audit| {
        RevocationWriter(cfg, s, pid);
        assert RevokeClean(s, pid, s.procs[pid].v);
        assert IsRevocation(s.store.audit[i], Canon(s.procs[pid].v.linkId));
      }
    }
  }

  /** What a successful revocation leaves behind. */
  lemma RevokeTakesEffect(cfg: Config, s: Sys, t: Sys, pid: nat, attempt: Attempt)
    requires Waiting(s, pid) && t == TryStep(cfg, s, pid, attempt)
    requires s.procs[pid].Revoking? && s.procs[pid].v.Revoking? && t.procs[pid].Revoking? && t.procs[pid].v.Logging?
    ensures var v := s.procs[pid].v;
            var l := Canon(v.linkId);
            && t.procs[pid].v == Revokes.Logging(v.file, v.linkId, v.userId)
            && Revocable(s.store, l, v.file.id)
            && t.store == s.store.(links := s.store.links[l := s.store.links[l].(revokedAt := Some(s.clock))])
            && l in t.revokedBy && t.revokedBy[l] == pid
            && t.drafts == s.drafts && t.hazyInserts == s.hazyInserts && t.hazyAudits == s.hazyAudits
            && s.inserted <= t.inserted
  {
  }

  lemma NotLoggedYet(cfg: Config, s: Sys, l: string, f: string)
    requires Inv(cfg, s) && RevokeInv(s) && Revocable(s.store, l, f) && Clear(s, f)
    ensures !RevocationLogged(s, l)
  {
    hide Inv, Canon;
    LinkInv(cfg, s, l);
    forall i | 0 <= i < |s.store.audit|
      ensures !IsRevocation(s.store.audit[i], l)
    {
      assert RevocationOk(s, s.store.audit[i]);
    }
  }

  /** The request that has just revoked a link. */
  lemma FreshRevocation(cfg: Config, s: Sys, t: Sys, pid: nat, attempt: Attempt)
    requires Attempts(cfg, s, t, pid, attempt) && RevokeInv(s)
    requires s.procs[pid].Revoking? && s.procs[pid].v.Revoking? && t.procs[pid].Revoking? && t.procs[pid].v.Logging?
    ensures RevokeClean(t, pid, t.procs[pid].v)
  {
    hide Inv, BlobInv, TryStep, Canon;
    var v := s.procs[pid].v;
    var l := Canon(v.linkId);
    RevokeTakesEffect(cfg, s, t, pid, attempt);
    LinkInv(cfg, s, l);
    if Clear(s, v.file.id) {
      NotLoggedYet(cfg, s, l, v.file.id);
    }
  }

  lemma RevokedByKept(cfg: Config, s: Sys, t: Sys, pid: nat, attempt: Attempt, l: string)
    requires Waiting(s, pid) && t == TryStep(cfg, s, pid, attempt)
    requires l in s.revokedBy && forall g :: !Revocable(s.store, l, g)
    ensures l in t.revokedBy && t.revokedBy[l] == s.revokedBy[l]
  {
  }

  /** No other request writes the event of a request about to log its revocation. */
  lemma NotLoggedByOthers(cfg: Config, s: Sys, t: Sys, pid: nat, attempt: Attempt, q: nat)
    requires Attempts(cfg, s, t, pid, attempt) && RevokeInv(s)
    requires q in s.procs && s.procs[q].Revoking? && s.procs[q].v.Logging? && t.procs[q] == s.procs[q]
    requires Exact(t, s.procs[q].v.file.id)
    ensures !RevocationLogged(t, Canon(s.procs[q].v.linkId))
  {
    hide Inv, BlobInv, TryStep, Canon, Spent;
    var v := s.procs[q].v;
    var l := Canon(v.linkId);
    assert RevokeClean(s, q, v);
    NewEvent(cfg, s, t, pid, attempt);
    forall i | 0 <= i < |t.store.audit|
      ensures !IsRevocation(t.store.audit[i], l)
    {
      if i == |s.store.audit| && t.store.audit[i].what.LinkRevoked? {
        RevocationWriter(cfg, s, pid);
        assert RevokeClean(s, pid, s.procs[pid].v);
        LoggedMovesOn(cfg, s, t, pid, attempt);
      }
    }
  }

  /** A request that has logged its revocation, and knows it, is finished. */
  lemma LoggedMovesOn(cfg: Config, s: Sys, t: Sys, pid: nat, attempt: Attempt)
    requires Waiting(s, pid) && t == TryStep(cfg, s, pid, attempt) && s.procs[pid].Revoking? && s.procs[pid].v.Logging?
    ensures attempt.Succeeds? ==> t.procs[pid].Done?
  {
  }

  lemma RevokerStaysClean(cfg: Config, s: Sys, t: Sys, pid: nat, attempt: Attempt, q: nat)
    requires Attempts(cfg, s, t, pid, attempt) && RevokeInv(s)
    requires q in s.procs && s.procs[q].Revoking? && t.procs[q] == s.procs[q]
    ensures RevokeClean(t, q, s.procs[q].v)
  {
    var v := s.procs[q].v;
    if v.Logging? {
      var l := Canon(v.linkId);
      assert RevokeClean(s, q, v);
      hide Inv, BlobInv;
      SpentStays(cfg, s, t, pid, attempt, l);
      if Clear(t, v.file.id) {
        RevokedByKept(cfg, s, t, pid, attempt, l);
      }
      if Exact(t, v.file.id) {
        NotLoggedByOthers(cfg, s, t, pid, attempt, q);
      }
    }
  }

  lemma BecomesLogging(cfg: Config, s: Sys, t: Sys, pid: nat, attempt: Attempt, q: nat)
    requires Waiting(s, pid) && t == TryStep(cfg, s, pid, attempt)
    requires q in t.procs && t.procs[q] != s.procs[q] && t.procs[q].Revoking? && t.procs[q].v.Logging?
    ensures q == pid && s.procs[pid].Revoking? && s.procs[pid].v.Revoking?
  {
  }

  lemma RevokersStayClean(cfg: Config, s: Sys, t: Sys, pid: nat, attempt: Attempt)
    requires Attempts(cfg, s, t, pid, attempt) && RevokeInv(s)
    ensures forall q :: q in t.procs && t.procs[q].Revoking? ==> RevokeClean(t, q, t.procs[q].v)
  {
    assert t.procs.Keys == s.procs.Keys;
    hide Inv, BlobInv, TryStep, RevokeInv, Spent;
    forall q | q in t.procs && t.procs[q].Revoking?
      ensures RevokeClean(t, q, t.procs[q].v)
    {
      if t.procs[q] == s.procs[q] {
        RevokerStaysClean(cfg, s, t, pid, attempt, q);
      } else if t.procs[q].v.Logging? {
        BecomesLogging(cfg, s, t, pid, attempt, q);
        FreshRevocation(cfg, s, t, pid, attempt);
      }
    }
  }

  lemma QuietRevoker(cfg: Config, s: Sys, e: Event, q: nat)
    requires !(e.Try? && Waiting(s, e.pid))
    requires var t := Step(cfg, s, e); q in t.procs && t.procs[q].Revoking? && t.procs[q].v.Logging?
    ensures q in s.procs && Step(cfg, s, e).procs[q] == s.procs[q]
  {
  }

  lemma QuietKeepsRevokeInv(cfg: Config, s: Sys, e: Event)
    requires IdsTracked(s) && RevokeInv(s) && !(e.Try? && Waiting(s, e.pid))
    ensures RevokeInv(Step(cfg, s, e))
  {
    hide Step, Canon;
    var t := Step(cfg, s, e);
    StepGrows(cfg, s, e);
    QuietStep(cfg, s, e);
    forall i | 0 <= i < |t.store.audit|
      ensures RevocationOk(t, t.store.audit[i])
    {
      assert RevocationOk(s, s.store.audit[i]);
    }
    forall q | q in t.procs && t.procs[q].Revoking?
      ensures RevokeClean(t, q, t.procs[q].v)
    {
      if t.procs[q].v.Logging? {
        QuietRevoker(cfg, s, e, q);
        assert RevokeClean(s, q, s.procs[q].v);
        assert RevocationLogged(t, Canon(t.procs[q].v.linkId)) ==> RevocationLogged(s, Canon(t.procs[q].v.linkId));
      }
    }
  }

  lemma StepKeepsRevokeInv(cfg: Config, s: Sys, e: Event)
    requires ValidConfig(cfg) && Inv(cfg, s) && BlobInv(cfg, s) && RevokeInv(s)
    ensures RevokeInv(Step(cfg, s, e))
  {
    var t := Step(cfg, s, e);
    assert IdsTracked(s);
    if e.Try? && Waiting(s, e.pid) {
      StepKeepsInv(cfg, s, e);
      TryGrows(cfg, s, e.pid, e.attempt);
      hide Inv, BlobInv, TryStep;
      RevocationsStayOk(cfg, s, t, e.pid, e.attempt);
      RevokersStayClean(cfg, s, t, e.pid, e.attempt);
      RevocationsStayOnce(cfg, s, t, e.pid, e.attempt);
    } else {
      QuietKeepsRevokeInv(cfg, s, e);
    }
  }

  // ---------- generated links ----------

  predicate Generates(event: AuditEvent, f: string) {
    event.fileId == f && event.what.LinkGenerated?
  }

  ghost predicate Receipted(s: Sys, l: string) {
    exists i :: i in s.receipts && s.receipts[i] == l
  }

  /** Every generation event was written for a link of its file, which is there as long as the file is. */
  ghost predicate ReceiptOk(s: Sys, i: nat) {
    && i in s.receipts && i < |s.store.audit|
    && Kept(s, s.receipts[i]) && s.drafts[s.receipts[i]].fileId == s.store.audit[i].fileId
  }

  /** A request about to log its link has inserted it, and has not logged it yet. */
  ghost predicate SignClean(s: Sys, g: Signs.Step) {
    && (g.Inserting? ==> !Receipted(s, g.linkId))
    && (g.Logging? ==> Kept(s, g.linkId) && (Exact(s, g.file.id) ==> !Receipted(s, g.linkId)))
  }

  ghost predicate ReceiptsOnce(s: Sys) {
    forall i, j :: i in s.receipts && j in s.receipts && i < j && s.receipts[i] == s.receipts[j] && j < |s.store.audit|
      ==> !Exact(s, s.store.audit[j].fileId)
  }

  ghost predicate ReceiptInv(s: Sys) {
    && (forall i: nat :: i < |s.store.audit| && s.store.audit[i].what.LinkGenerated? ==> i in s.receipts)
    && (forall i: nat :: i in s.receipts ==> ReceiptOk(s, i))
    && (forall pid :: pid in s.procs && s.procs[pid].Signing? ==> SignClean(s, s.procs[pid].g))
    && ReceiptsOnce(s)
  }

  predicate LogsLink(r: Request) {
    r.Signing? && r.g.Logging?
  }

  /** A receipt is added exactly with the event it is for, by the request that logs its link. */
  lemma NewReceipt(cfg: Config, s: Sys, t: Sys, pid: nat, attempt: Attempt)
    requires Waiting(s, pid) && t == TryStep(cfg, s, pid, attempt)
    ensures var r := s.procs[pid];
            if LogsLink(r) && attempt.Applied() then
              && t.receipts == s.receipts[|s.store.audit| := r.g.linkId]
              && t.store.audit == s.store.audit
                   + [AuditEvent(r.g.file.id, r.g.userId, LinkGenerated(r.g.ttlSeconds, r.g.expiresAt))]
              && (if attempt.Succeeds? then t.procs[pid].Done? else r.g.file.id in t.hazyAudits)
            else
              && t.receipts == s.receipts
              && |s.store.audit| <= |t.store.audit| <= |s.store.audit| + 1
              && (|s.store.audit| < |t.store.audit| ==> !t.store.audit[|s.store.audit|].what.LinkGenerated?)
  {
  }

  lemma ReceiptsStayOk(cfg: Config, s: Sys, t: Sys, pid: nat, attempt: Attempt, i: nat)
    requires Attempts(cfg, s, t, pid, attempt) && ReceiptInv(s) && i in t.receipts
    ensures ReceiptOk(t, i)
  {
    hide Inv, BlobInv, TryStep;
    NewReceipt(cfg, s, t, pid, attempt);
    if i in s.receipts && t.receipts[i] == s.receipts[i] {
      assert ReceiptOk(s, i);
      KeptStays(cfg, s, t, pid, attempt, s.receipts[i]);
    } else {
      var g := s.procs[pid].g;
      RequestInv(cfg, s, pid);
      assert SignClean(s, g);
      KeptStays(cfg, s, t, pid, attempt, g.linkId);
    }
  }

  lemma ReceiptsStayOnce(cfg: Config, s: Sys, t: Sys, pid: nat, attempt: Attempt)
    requires Attempts(cfg, s, t, pid, attempt) && ReceiptInv(s)
    ensures ReceiptsOnce(t)
  {
    hide Inv, BlobInv, TryStep, Kept;
    NewReceipt(cfg, s, t, pid, attempt);
    forall i, j | i in t.receipts && j in t.receipts && i < j && t.receipts[i] == t.receipts[j] && j < |t.store.audit|
      ensures !Exact(t, t.store.audit[j].fileId)
    {
      if j == |s.store.audit| {
        assert SignClean(s, s.procs[pid].g);
        assert i in s.receipts && s.receipts[i] == s.procs[pid].g.linkId;
      } else {
        assert ReceiptOk(s, i) && ReceiptOk(s, j);
      }
    }
  }

  /** Two signing requests never share a link id. */
  lemma OwnLinkId(cfg: Config, s: Sys, pid: nat, q: nat)
    requires Inv(cfg, s) && pid in s.procs && q in s.procs && LogsLink(s.procs[pid]) && s.procs[q].Signing?
    requires s.procs[q].g.Inserting? || s.procs[q].g.Logging?
    requires s.procs[pid].g.linkId == s.procs[q].g.linkId
    ensures pid == q
  {
    RequestInv(cfg, s, pid);
    RequestInv(cfg, s, q);
  }

  lemma SignerStaysClean(cfg: Config, s: Sys, t: Sys, pid: nat, attempt: Attempt, q: nat)
    requires Attempts(cfg, s, t, pid, attempt) && ReceiptInv(s)
    requires q in s.procs && s.procs[q].Signing? && t.procs[q] == s.procs[q]
    ensures SignClean(t, s.procs[q].g)
  {
    hide Inv, BlobInv, TryStep, Kept;
    var g := s.procs[q].g;
    assert SignClean(s, g);
    NewReceipt(cfg, s, t, pid, attempt);
    if g.Logging? {
      KeptStays(cfg, s, t, pid, attempt, g.linkId);
    }
    if (g.Inserting? || g.Logging?) && Receipted(t, g.linkId) && !Receipted(s, g.linkId) {
      var i :| i in t.receipts && t.receipts[i] == g.linkId;
      assert i !in s.receipts || s.receipts[i] != g.linkId;
      OwnLinkId(cfg, s, pid, q);
    }
  }

  /** What a successful insert of a link leaves behind. */
  lemma InsertTakesEffect(cfg: Config, s: Sys, t: Sys, pid: nat, attempt: Attempt, q: nat)
    requires Waiting(s, pid) && t == TryStep(cfg, s, pid, attempt)
    requires q in t.procs && t.procs[q] != s.procs[q] && t.procs[q].Signing?
            && (t.procs[q].g.Inserting? || t.procs[q].g.Logging?)
    ensures q == pid && s.procs[pid].Signing? && s.procs[pid].g.Inserting? && t.procs[q].g.Logging?
    ensures t.procs[q].g.linkId == s.procs[pid].g.linkId && t.procs[q].g.file == s.procs[pid].g.file
    ensures t.procs[q].g.linkId in t.store.links && t.receipts == s.receipts
  {
  }

  lemma FreshLink(cfg: Config, s: Sys, t: Sys, pid: nat, attempt: Attempt, q: nat)
    requires Attempts(cfg, s, t, pid, attempt) && ReceiptInv(s)
    requires q in t.procs && t.procs[q] != s.procs[q] && t.procs[q].Signing?
    ensures SignClean(t, t.procs[q].g)
  {
    hide Inv, BlobInv, TryStep;
    if t.procs[q].g.Inserting? || t.procs[q].g.Logging? {
      InsertTakesEffect(cfg, s, t, pid, attempt, q);
      assert SignClean(s, s.procs[pid].g);
      RequestInv(cfg, s, pid);
      LinkInv(cfg, t, t.procs[q].g.linkId);
    }
  }

  lemma QuietSigner(cfg: Config, s: Sys, e: Event, q: nat)
    requires IdsTracked(s) && ReceiptInv(s) && !(e.Try? && Waiting(s, e.pid))
    requires var t := Step(cfg, s, e);
             q in t.procs && t.procs[q].Signing? && (t.procs[q].g.Inserting? || t.procs[q].g.Logging?)
    ensures var g := Step(cfg, s, e).procs[q].g;
            if q in s.procs && s.procs[q] == Step(cfg, s, e).procs[q] then SignClean(s, g)
                else g.Inserting? && g.linkId !in s.used
  {
  }

  lemma UnusedNotReceipted(s: Sys, l: string)
    requires IdsTracked(s) && ReceiptInv(s) && l !in s.used
    ensures !Receipted(s, l)
  {
    forall i | i in s.receipts
      ensures s.receipts[i] != l
    {
      assert ReceiptOk(s, i);
    }
  }

  lemma QuietKeepsReceiptInv(cfg: Config, s: Sys, e: Event)
    requires IdsTracked(s) && ReceiptInv(s) && !(e.Try? && Waiting(s, e.pid))
    ensures ReceiptInv(Step(cfg, s, e))
  {
    hide Step;
    var t := Step(cfg, s, e);
    StepGrows(cfg, s, e);
    QuietStep(cfg, s, e);
    forall i: nat | i in t.receipts
      ensures ReceiptOk(t, i)
    {
      assert ReceiptOk(s, i);
    }
    forall q | q in t.procs && t.procs[q].Signing?
      ensures SignClean(t, t.procs[q].g)
    {
      var g := t.procs[q].g;
      if g.Inserting? || g.Logging? {
        QuietSigner(cfg, s, e, q);
        if g.linkId !in s.used {
          UnusedNotReceipted(s, g.linkId);
        }
        assert Receipted(t, g.linkId) ==> Receipted(s, g.linkId);
      }
    }
  }

  lemma SignersStayClean(cfg: Config, s: Sys, t: Sys, pid: nat, attempt: Attempt)
    requires Attempts(cfg, s, t, pid, attempt) && ReceiptInv(s)
    ensures forall q :: q in t.procs && t.procs[q].Signing? ==> SignClean(t, t.procs[q].g)
  {
    assert t.procs.Keys == s.procs.Keys;
    hide Inv, BlobInv, TryStep, ReceiptInv, SignClean, Attempts;
    forall q | q in t.procs && t.procs[q].Signing?
      ensures SignClean(t, t.procs[q].g)
    {
      if t.procs[q] == s.procs[q] {
        SignerStaysClean(cfg, s, t, pid, attempt, q);
      } else {
        FreshLink(cfg, s, t, pid, attempt, q);
      }
    }
  }

  lemma GenerationsReceipted(cfg: Config, s: Sys, t: Sys, pid: nat, attempt: Attempt)
    requires Waiting(s, pid) && t == TryStep(cfg, s, pid, attempt) && Grows(s, t) && ReceiptInv(s)
    ensures forall i: nat :: i < |t.store.audit| && t.store.audit[i].what.LinkGenerated? ==> i in t.receipts
  {
    hide TryStep, ReceiptOk, SignClean;
    NewReceipt(cfg, s, t, pid, attempt);
  }

  lemma TryKeepsReceiptInv(cfg: Config, s: Sys, t: Sys, pid: nat, attempt: Attempt)
    requires Attempts(cfg, s, t, pid, attempt) && ReceiptInv(s)
    ensures ReceiptInv(t)
  {
    hide Inv, BlobInv, TryStep, ReceiptOk, SignClean, ReceiptsOnce;
    GenerationsReceipted(cfg, s, t, pid, attempt);
    forall i: nat | i in t.receipts
      ensures ReceiptOk(t, i)
    {
      ReceiptsStayOk(cfg, s, t, pid, attempt, i);
    }
    SignersStayClean(cfg, s, t, pid, attempt);
    ReceiptsStayOnce(cfg, s, t, pid, attempt);
  }

  lemma StepKeepsReceiptInv(cfg: Config, s: Sys, e: Event)
    requires ValidConfig(cfg) && Inv(cfg, s) && BlobInv(cfg, s) && ReceiptInv(s)
    ensures ReceiptInv(Step(cfg, s, e))
  {
    assert IdsTracked(s);
    if e.Try? && Waiting(s, e.pid) {
      StepKeepsInv(cfg, s, e);
      TryGrows(cfg, s, e.pid, e.attempt);
      TryKeepsReceiptInv(cfg, s, Step(cfg, s, e), e.pid, e.attempt);
    } else {
      QuietKeepsReceiptInv(cfg, s, e);
    }
  }

  // ---------- over whole runs ----------

  ghost predicate LogInv(cfg: Config, s: Sys) {
    Inv(cfg, s) && BlobInv(cfg, s) && RevokeInv(s) && ReceiptInv(s)
  }

  lemma {:induction false} RunKeepsLogInv(cfg: Config, s: Sys, events: seq<Event>)
    requires ValidConfig(cfg) && LogInv(cfg, s)
    ensures LogInv(cfg, Run(cfg, s, events))
    decreases |events|
  {
    hide Inv, BlobInv, RevokeInv, ReceiptInv, Step;
    if events != [] {
      StepKeepsInv(cfg, s, events[0]);
      StepKeepsBlobInv(cfg, s, events[0]);
      StepKeepsRevokeInv(cfg, s, events[0]);
      StepKeepsReceiptInv(cfg, s, events[0]);
      RunKeepsLogInv(cfg, Step(cfg, s, events[0]), events[1..]);
    }
  }

  /** However many revokers race: for a file whose insert and link events were never misreported, each link has at
      most one revocation event; and for a live file whose insert was not misreported, every revocation event names,
      in some spelling, a revoked link of that file. */
  lemma RevocationsAreFacts(cfg: Config, events: seq<Event>, i: nat)
    requires ValidConfig(cfg)
    requires var s := Run(cfg, Init, events); i < |s.store.audit| && s.store.audit[i].what.LinkRevoked?
    ensures var s := Run(cfg, Init, events);
            var event := s.store.audit[i];
            var l := Canon(event.what.linkId);
            && (event.fileId in s.store.files && Clear(s, event.fileId) ==>
                  l in s.store.links && s.store.links[l].fileId == event.fileId && s.store.links[l].revokedAt.Some?)
            && (Exact(s, event.fileId) ==>
                  forall j :: 0 <= j < |s.store.audit| && IsRevocation(s.store.audit[j], l) ==> j == i)
  {
    InitLogInv(cfg);
    hide Inv, BlobInv, ReceiptInv;
    RunKeepsLogInv(cfg, Init, events);
    var s := Run(cfg, Init, events);
    var event := s.store.audit[i];
    var l := Canon(event.what.linkId);
    assert RevocationOk(s, event);
    FileOfSpent(cfg, s, l);
    forall j | 0 <= j < |s.store.audit| && IsRevocation(s.store.audit[j], l)
      ensures Exact(s, event.fileId) ==> j == i
    {
      assert RevocationOk(s, s.store.audit[j]);
    }
  }

  lemma FileOfSpent(cfg: Config, s: Sys, l: string)
    requires Inv(cfg, s) && Spent(s, l)
    ensures l in s.store.links ==> s.store.links[l].fileId == s.drafts[l].fileId
  {
    if l in s.store.links {
      LinkInv(cfg, s, l);
    }
  }

  ghost function Generated(s: Sys, f: string): set<nat> {
    set i: nat | i < |s.store.audit| && Generates(s.store.audit[i], f)
  }

  ghost function LinksOf(s: Sys, f: string): set<string> {
    set l | l in s.store.links && s.store.links[l].fileId == f
  }

  lemma {:induction false} InjectionSize<A, B>(from: set<A>, to: set<B>, m: map<A, B>)
    requires forall a :: a in from ==> a in m && m[a] in to
    requires forall a, b :: a in from && b in from && m[a] == m[b] ==> a == b
    ensures |from| <= |to|
    decreases from
  {
    if from != {} {
      var a :| a in from;
      InjectionSize(from - {a}, to - {m[a]}, m);
    }
  }

  lemma EventsWithinLinks(cfg: Config, s: Sys, f: string)
    requires Inv(cfg, s) && ReceiptInv(s) && f in s.store.files && Exact(s, f)
    ensures |Generated(s, f)| <= |LinksOf(s, f)|
  {
    hide Inv;
    forall i | i in Generated(s, f)
      ensures i in s.receipts && s.receipts[i] in LinksOf(s, f)
    {
      assert ReceiptOk(s, i);
      LinkInv(cfg, s, s.receipts[i]);
    }
    InjectionSize(Generated(s, f), LinksOf(s, f), s.receipts);
  }

  /** A live file whose insert and link events were never misreported never has more generation events than links. */
  lemma NoMoreEventsThanLinks(cfg: Config, events: seq<Event>, f: string)
    requires ValidConfig(cfg)
    requires var s := Run(cfg, Init, events); f in s.store.files && Exact(s, f)
    ensures var s := Run(cfg, Init, events); |Generated(s, f)| <= |LinksOf(s, f)|
  {
    InitLogInv(cfg);
    hide Inv, BlobInv, RevokeInv, ReceiptInv, Exact;
    RunKeepsLogInv(cfg, Init, events);
    EventsWithinLinks(cfg, Run(cfg, Init, events), f);
  }

  lemma InitLogInv(cfg: Config)
    ensures LogInv(cfg, Init)
  {
  }
}
