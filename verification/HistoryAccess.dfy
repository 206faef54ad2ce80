/** Who is shown a file's history, and what it shows: over whole runs, and exactly for a listing run alone. */
module HistoryAccess {
  import opened Codec
  import opened Tables
  import opened Domain
  import opened Requests
  import opened System
  import opened Invariants
  import opened Preservation
  import opened Sequential
  import opened Outcomes
  import opened Traces
  import Histories

  // ---------- the owner is always served ----------

  /** The owner's listing of a file that has existed: never refused, wherever it stands. */
  predicate Served(audit: seq<AuditEvent>, r: Request, fileId: string, owner: string) {
    match r
    case Reviewing(Lookup(f, u)) => f == fileId && u == owner
    case Reviewing(Consulting(f, u)) => f == fileId && u == owner && HasEventBy(audit, Canon(f), u)
    case Reviewing(Listing(f, u)) => f == fileId && u == owner
    case Done(response) => !response.Rejected?
    case _ => false
  }

  ghost predicate OwnerServed(s: Sys, pid: nat, fileId: string, owner: string) {
    pid in s.procs && Served(s.store.audit, s.procs[pid], fileId, owner)
  }

  lemma OwnerLookup(cfg: Config, s: Sys, f: string)
    requires Inv(cfg, s) && f in s.inserted
    ensures f in s.born
    ensures f in s.store.files ==> s.store.files[f].userId == s.born[f].userId
    ensures f !in s.store.files ==> HasEventBy(s.store.audit, f, s.born[f].userId)
  {
    if f in s.store.files {
      assert Seen(cfg, s, s.store.files[f]);
    } else {
      assert DeletionLogged(s, f);
    }
  }

  lemma EventByStable(s: Sys, t: Sys, f: string, u: string)
    requires Grows(s, t) && HasEventBy(s.store.audit, f, u)
    ensures HasEventBy(t.store.audit, f, u)
  {
    var i :| 0 <= i < |s.store.audit| && s.store.audit[i].fileId == f && s.store.audit[i].userId == u;
    assert t.store.audit[i] == s.store.audit[i];
  }

  /** Whatever its pending call answers, it goes on. */
  lemma ServedOn(cfg: Config, s: Sys, pid: nat, fileId: string, owner: string)
    requires Inv(cfg, s) && Canon(fileId) in s.inserted && owner == s.born[Canon(fileId)].userId
    requires OwnerServed(s, pid, fileId, owner) && s.procs[pid].Reviewing?
    ensures var r := s.procs[pid];
            && Served(s.store.audit, Resume(cfg, r, Thrown), fileId, owner)
            && Served(s.store.audit, Resume(cfg, r, Perform(s.store, Await(cfg, r), s.clock).1), fileId, owner)
  {
    OwnerLookup(cfg, s, Canon(fileId));
    hide Inv, Canon;
    match s.procs[pid].h
    case Lookup(_, _) =>
    case Consulting(_, _) =>
    case Listing(_, _) =>
  }

  lemma ServedStable(s: Sys, t: Sys, r: Request, fileId: string, owner: string)
    requires Grows(s, t) && Served(s.store.audit, r, fileId, owner)
    ensures Served(t.store.audit, r, fileId, owner)
  {
    if HasEventBy(s.store.audit, Canon(fileId), owner) {
      EventByStable(s, t, Canon(fileId), owner);
    }
  }

  lemma OwnerServedStep(cfg: Config, s: Sys, e: Event, pid: nat, fileId: string, owner: string)
    requires Inv(cfg, s) && Canon(fileId) in s.inserted && owner == s.born[Canon(fileId)].userId
    requires OwnerServed(s, pid, fileId, owner)
    ensures OwnerServed(Step(cfg, s, e), pid, fileId, owner)
  {
    hide Step, Constraints, Canon, Perform, Resume, Await, HasEventBy;
    var t := Step(cfg, s, e);
    StepGrows(cfg, s, e);
    StepOfRequest(cfg, s, e, pid);
    if s.procs[pid].Reviewing? {
      ServedOn(cfg, s, pid, fileId, owner);
    }
    ServedStable(s, t, t.procs[pid], fileId, owner);
  }

  /** A file id that ever had a row stays answerable: once its owner's listing has started it is never refused,
      in any continuation, even when the file is deleted between the listing's reads. */
  lemma {:induction false} HistoryOutlivesFile(
      cfg: Config, s: Sys, events: seq<Event>, pid: nat, fileId: string, owner: string)
    requires ValidConfig(cfg) && Inv(cfg, s)
    requires Canon(fileId) in s.inserted && owner == s.born[Canon(fileId)].userId
    requires OwnerServed(s, pid, fileId, owner)
    ensures OwnerServed(Run(cfg, s, events), pid, fileId, owner)
    decreases |events|
  {
    if events != [] {
      var t := Step(cfg, s, events[0]);
      StepKeepsInv(cfg, s, events[0]);
      StepGrows(cfg, s, events[0]);
      OwnerServedStep(cfg, s, events[0], pid, fileId, owner);
      HistoryOutlivesFile(cfg, t, events[1..], pid, fileId, owner);
    }
  }

  // ---------- what a listing shows, and to whom ----------

  /** At event `j` the request read the listing: all the file's events of the log as it then was, newest first. */
  ghost predicate ListedAt(
      cfg: Config, events: seq<Event>, j: nat, pid: nat, fileId: string, u: string, shown: seq<AuditEvent>) {
    && ServedAt(cfg, events, j, pid, Reviewing(Histories.Listing(fileId, u)))
    && NewestFirst(shown, At(cfg, events, j).store.audit, Canon(fileId))
  }

  /** At event `m` the request found an event of its caller's own on record. */
  ghost predicate OnRecordAt(cfg: Config, events: seq<Event>, m: nat, pid: nat, fileId: string, u: string) {
    && ServedAt(cfg, events, m, pid, Reviewing(Histories.Consulting(fileId, u)))
    && HasEventBy(At(cfg, events, m).store.audit, Canon(fileId), u)
  }

  /** At event `k` the request looked for the file, and by event `j` its caller was admitted: as the owner the row
      names, or, there being no row, by a record of his own. */
  ghost predicate AdmittedAt(cfg: Config, events: seq<Event>, k: nat, j: nat, pid: nat, fileId: string, u: string) {
    && k < j && ServedAt(cfg, events, k, pid, Reviewing(Histories.Lookup(fileId, u)))
    && var files := At(cfg, events, k).store.files;
       if Canon(fileId) in files then files[Canon(fileId)].userId == u
       else exists m: nat :: k < m < j && OnRecordAt(cfg, events, m, pid, fileId, u)
  }

  lemma ConsultingMeansAbsent(cfg: Config, events: seq<Event>, n: nat, pid: nat, fileId: string, u: string)
    returns (k: nat)
    requires Stands(cfg, events, n, pid, Reviewing(Histories.Consulting(fileId, u)))
    ensures k < n && ServedAt(cfg, events, k, pid, Reviewing(Histories.Lookup(fileId, u)))
    ensures Canon(fileId) !in At(cfg, events, k).store.files
  {
    hide Run, Canon, IsUuid, At, PerformAudit;
    k := InquiryCameFrom(cfg, events, n, pid, Histories.Consulting(fileId, u));
  }

  lemma ListingMeansAdmitted(cfg: Config, events: seq<Event>, n: nat, pid: nat, fileId: string, u: string)
    returns (k: nat)
    requires Stands(cfg, events, n, pid, Reviewing(Histories.Listing(fileId, u)))
    ensures AdmittedAt(cfg, events, k, n, pid, fileId, u)
  {
    hide Run, Canon, IsUuid, At, HasEventBy;
    var m := InquiryCameFrom(cfg, events, n, pid, Histories.Listing(fileId, u));
    var g :| ServedAt(cfg, events, m, pid, Reviewing(g))
             && Histories.Resume(g, ReplyAt(cfg, events, m, Reviewing(g))) == Goes(Histories.Listing(fileId, u));
    k := m;
    if g.Consulting? {
      assert OnRecordAt(cfg, events, m, pid, fileId, u);
      k := ConsultingMeansAbsent(cfg, events, m, pid, fileId, u);
    }
  }

  lemma {:induction false} EventsOfGrows(old': seq<AuditEvent>, new': seq<AuditEvent>, f: string)
    requires old' <= new'
    ensures exists newer :: EventsOf(new', f) == newer + EventsOf(old', f)
    decreases |new'|
  {
    if |new'| == |old'| {
      assert old' == new'[..|old'|] == new';
      assert EventsOf(new', f) == [] + EventsOf(old', f);
    } else {
      var last := new'[|new'| - 1];
      EventsOfGrows(old', new'[..|new'| - 1], f);
      var newer :| EventsOf(new'[..|new'| - 1], f) == newer + EventsOf(old', f);
      var more := if last.fileId == f then [last] + newer else newer;
      assert EventsOf(new', f) == more + EventsOf(old', f);
    }
  }

  lemma AtGrows(cfg: Config, events: seq<Event>, i: nat, j: nat)
    requires i <= j <= |events|
    ensures Grows(At(cfg, events, i), At(cfg, events, j))
  {
    assert events[..j] == events[..i] + events[i..j];
    RunGrows(cfg, Init, events[..i]);
    RunAppend(cfg, Init, events[..i], events[i..j]);
    RunGrows(cfg, At(cfg, events, i), events[i..j]);
  }

  /** A listing that was answered was asked for, then admitted, then read; and it shows the file's whole log as it was
      at that reading, newest first -- so in particular everything logged before the request arrived. */
  lemma HistoryIsJustified(cfg: Config, events: seq<Event>, pid: nat)
    requires var s := Run(cfg, Init, events); pid in s.procs && s.procs[pid].Done? && s.procs[pid].response.History?
    ensures var History(fileId, u, shown) := Run(cfg, Init, events).procs[pid].response;
            exists i: nat, k: nat, j: nat :: i < k < j < |events|
              && StartedAt(cfg, events, i, pid, AskHistory(fileId, u))
              && AdmittedAt(cfg, events, k, j, pid, fileId, u)
              && ListedAt(cfg, events, j, pid, fileId, u, shown)
              && exists newer, older :: shown == newer + older
                   && NewestFirst(older, At(cfg, events, i).store.audit, Canon(fileId))
  {
    hide Run, Canon, IsUuid, At, EventsOf, PerformFile, HasEventBy, AdmittedAt, NewestFirst;
    var response := Run(cfg, Init, events).procs[pid].response;
    var History(fileId, u, shown) := response;
    RunIsAt(cfg, events);
    var j := ListingCameFrom(cfg, events, |events|, pid, response);
    EventsOfInOrder(At(cfg, events, j).store.audit, Canon(fileId), shown);
    assert ListedAt(cfg, events, j, pid, fileId, u, shown);
    var k := ListingMeansAdmitted(cfg, events, j, pid, fileId, u);
    var i := AdmittedArrived(cfg, events, k, j, pid, fileId, u);
    AtGrows(cfg, events, i, j);
    var early := At(cfg, events, i).store.audit;
    EventsOfGrows(early, At(cfg, events, j).store.audit, Canon(fileId));
    EventsOfInOrder(early, Canon(fileId), EventsOf(early, Canon(fileId)));
  }

  lemma RunIsAt(cfg: Config, events: seq<Event>)
    ensures At(cfg, events, |events|) == Run(cfg, Init, events)
  {
    assert events[..|events|] == events;
  }

  lemma AdmittedArrived(cfg: Config, events: seq<Event>, k: nat, j: nat, pid: nat, fileId: string, u: string)
    returns (i: nat)
    requires AdmittedAt(cfg, events, k, j, pid, fileId, u)
    ensures i < k < j && StartedAt(cfg, events, i, pid, AskHistory(fileId, u))
  {
    hide Run, Canon, At;
    i := InquiryCameFrom(cfg, events, k, pid, Histories.Lookup(fileId, u));
  }

  /** The event is the rejection of an unknown link, which the log ascribes to the user "unknown". */
  predicate RejectionOf(event: AuditEvent, f: string) {
    event.fileId == f && event.userId == UNKNOWN_USER && event.what.UnknownLinkRejected?
  }

  /** Whoever is admitted is the owner; or else calls himself "unknown", came when the file had no row, and found
      the rejection of an unknown link on record. */
  lemma AdmittedIsOwner(cfg: Config, events: seq<Event>, k: nat, j: nat, pid: nat, fileId: string, u: string)
    requires ValidConfig(cfg) && j <= |events| && AdmittedAt(cfg, events, k, j, pid, fileId, u)
    ensures var s, f := At(cfg, events, j), Canon(fileId);
            && f in s.born
            && (|| u == s.born[f].userId
                || (u == UNKNOWN_USER && f !in At(cfg, events, k).store.files
                    && exists x: nat :: x < |s.store.audit| && RejectionOf(s.store.audit[x], f)))
  {
    hide Run, Canon, IsUuid, Inv, At;
    var f := Canon(fileId);
    var early := At(cfg, events, k);
    AtInv(cfg, events, k);
    AtGrows(cfg, events, k, j);
    if f in early.store.files {
      FileInv(cfg, early, f);
    } else {
      var m: nat :| k < m < j && OnRecordAt(cfg, events, m, pid, fileId, u);
      AtInv(cfg, events, m);
      AtGrows(cfg, events, m, j);
      OnRecordWho(cfg, At(cfg, events, m), f, u);
    }
  }

  lemma AtInv(cfg: Config, events: seq<Event>, k: nat)
    requires ValidConfig(cfg) && k <= |events|
    ensures Inv(cfg, At(cfg, events, k))
  {
    ReachableInv(cfg, events[..k]);
  }

  lemma OnRecordWho(cfg: Config, s: Sys, f: string, u: string)
    requires Inv(cfg, s) && HasEventBy(s.store.audit, f, u)
    ensures f in s.inserted && f in s.born
    ensures u == s.born[f].userId
            || (u == UNKNOWN_USER && exists x: nat :: x < |s.store.audit| && RejectionOf(s.store.audit[x], f))
  {
    var x: nat :| x < |s.store.audit| && s.store.audit[x].fileId == f && s.store.audit[x].userId == u;
    assert EventOk(s, s.store.audit[x]);
    hide Inv;
    assert u == s.born[f].userId || RejectionOf(s.store.audit[x], f);
  }

  /** Request `pid` looked for the file when it had no row. */
  ghost predicate FoundNoRow(cfg: Config, events: seq<Event>, k: nat, pid: nat, fileId: string, u: string) {
    && ServedAt(cfg, events, k, pid, Reviewing(Histories.Lookup(fileId, u)))
    && Canon(fileId) !in At(cfg, events, k).store.files
  }

  /** Whoever was shown a history is the file's owner; or else calls himself "unknown", looked for the file when it had
      no row, and the rejection of an unknown link is on record. */
  lemma ShownToOwner(cfg: Config, events: seq<Event>, pid: nat)
    requires ValidConfig(cfg)
    requires var s := Run(cfg, Init, events); pid in s.procs && s.procs[pid].Done? && s.procs[pid].response.History?
    ensures var s := Run(cfg, Init, events);
            var History(fileId, u, _) := s.procs[pid].response;
            var f := Canon(fileId);
            && f in s.born
            && (|| u == s.born[f].userId
                || (&& u == UNKNOWN_USER
                    && (exists k: nat :: FoundNoRow(cfg, events, k, pid, fileId, u))
                    && exists x: nat :: x < |s.store.audit| && RejectionOf(s.store.audit[x], f)))
  {
    hide Run, Canon, IsUuid, At, AdmittedAt, ListedAt, NewestFirst;
    HistoryIsJustified(cfg, events, pid);
    var History(fileId, u, shown) := Run(cfg, Init, events).procs[pid].response;
    var i: nat, k: nat, j: nat :| i < k < j < |events| && AdmittedAt(cfg, events, k, j, pid, fileId, u)
                                  && ListedAt(cfg, events, j, pid, fileId, u, shown);
    AdmittedIsOwner(cfg, events, k, j, pid, fileId, u);
    AdmittedLookedUp(cfg, events, k, j, pid, fileId, u);
    AtGrows(cfg, events, j, |events|);
    RunIsAt(cfg, events);
    hide RejectionOf;
    var early, s := At(cfg, events, j), Run(cfg, Init, events);
    assert forall x: nat :: x < |early.store.audit| ==> s.store.audit[x] == early.store.audit[x];
    assert Canon(fileId) !in At(cfg, events, k).store.files ==> FoundNoRow(cfg, events, k, pid, fileId, u);
  }

  lemma AdmittedLookedUp(cfg: Config, events: seq<Event>, k: nat, j: nat, pid: nat, fileId: string, u: string)
    requires AdmittedAt(cfg, events, k, j, pid, fileId, u)
    ensures ServedAt(cfg, events, k, pid, Reviewing(Histories.Lookup(fileId, u)))
  {
  }

  /** A file that had a row and has none was deleted by its owner, on the record; and every event is by the file's
      owner or is the rejection of an unknown link. */
  lemma LogIsTheOwners(cfg: Config, events: seq<Event>)
    requires ValidConfig(cfg)
    ensures var s := Run(cfg, Init, events);
            && (forall f :: f in s.inserted && f !in s.store.files ==> DeletionLogged(s, f))
            && (forall i :: 0 <= i < |s.store.audit| ==> EventOk(s, s.store.audit[i]))
  {
    ReachableInv(cfg, events);
  }

  // ---------- exactly who is answered ----------

  /** The owner, at any time; and a caller who calls himself "unknown", once the file has no row, if an unknown link
      was ever rejected for it. */
  ghost predicate Audience(s: Sys, f: string, u: string) {
    && f in s.inserted && f in s.born
    && (|| u == s.born[f].userId
        || (u == UNKNOWN_USER && f !in s.store.files
            && exists x: nat :: x < |s.store.audit| && RejectionOf(s.store.audit[x], f)))
  }

  lemma MayListIff(cfg: Config, s: Sys, f: string, u: string)
    requires Inv(cfg, s)
    ensures MayList(s.store, f, u) <==> Audience(s, f, u)
  {
    if f in s.store.files {
      FileInv(cfg, s, f);
    } else if HasEventBy(s.store.audit, f, u) {
      OnRecordWho(cfg, s, f, u);
    } else if f in s.inserted {
      OwnerLookup(cfg, s, f);
    }
  }

  /** In any reachable state an undisturbed listing is answered, with all the file's events, newest first, if and only
      if its id is well formed and its caller is of that audience; otherwise it is refused. */
  lemma ListingAnsweredIff(cfg: Config, s: Sys, n: nat, fileId: string, u: string, course: Course)
    requires Inv(cfg, s) && Calm(course)
    ensures var response := Handle(cfg, World(s.store, n), AskHistory(fileId, u), course).1;
            && (IsUuid(fileId) && Audience(s, Canon(fileId), u) <==> response.History?)
            && (response.History? ==>
                  && response.fileId == fileId && response.userId == u
                  && NewestFirst(response.events, s.store.audit, Canon(fileId)))
            && (!response.History? ==> response.Rejected?)
  {
    hide Inv, Handle, Canon, IsUuid, NewestFirst, MayList, Audience;
    HistoryOutcome(cfg, World(s.store, n), fileId, u, course);
    MayListIff(cfg, s, Canon(fileId), u);
    assert course(n).Calm() && course(n + 1).Calm() && course(n + 2).Calm();
  }
}
