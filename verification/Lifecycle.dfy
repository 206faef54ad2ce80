/** When a file's row can appear, and when a row that is gone is gone for good. */
module Lifecycle {
  import opened Codec
  import opened Tables
  import opened Domain
  import opened Requests
  import opened System
  import opened Invariants
  import opened Preservation

  /** The upload of `f` can no longer insert its row: it has returned, failed, or is undoing its blob. */
  predicate Settled(s: Sys, f: string) {
    && f in s.born
    && s.born[f].pid in s.procs
    && (var r := s.procs[s.born[f].pid]; r.Upping? && r.u.id == f ==> r.u.Undoing?)
  }

  lemma SettledStays(cfg: Config, s: Sys, e: Event, f: string)
    requires IdsTracked(s) && Settled(s, f)
    ensures Settled(Step(cfg, s, e), f)
  {
    StepGrows(cfg, s, e);
    StepOfRequest(cfg, s, e, s.born[f].pid);
  }

  /** A settled file without a row never gets one again. */
  lemma DeadStaysDead(cfg: Config, s: Sys, e: Event, f: string)
    requires Inv(cfg, s) && Settled(s, f) && f !in s.store.files
    ensures f !in Step(cfg, s, e).store.files
  {
    hide Inv, Canon, CanonicalUuid, IsUuid, Resume, Perform;
    if e.Try? && Waiting(s, e.pid) {
      var r := s.procs[e.pid];
      var call := Await(cfg, r);
      FilesEffect(s.store, call, s.clock);
      RequestInv(cfg, s, e.pid);
      assert IsInsert(call) ==> call.file.row.id != f;
    }
  }

  // ---------- runs that bring an unsettled file back ----------

  lemma RunOne(cfg: Config, s: Sys, e: Event)
    ensures Run(cfg, s, [e]) == Step(cfg, s, e)
  {
    assert [e][1..] == [];
    assert Run(cfg, Step(cfg, s, e), []) == Step(cfg, s, e);
  }

  lemma RunTwo(cfg: Config, s: Sys, e: Event, e': Event)
    ensures Run(cfg, s, [e, e']) == Step(cfg, Step(cfg, s, e), e')
  {
    RunOne(cfg, s, e);
    RunOne(cfg, Step(cfg, s, e), e');
    RunAppend(cfg, s, [e], [e']);
    assert [e] + [e'] == [e, e'];
  }

  /** An upload still at its insert puts the row in, if the file has none, in any attempt that takes effect. */
  lemma InsertAgain(cfg: Config, s: Sys, f: string, p: nat, attempt: Attempt) returns (t: Sys)
    requires ValidConfig(cfg) && Inv(cfg, s) && f !in s.store.files && attempt.Applied()
    requires p in s.procs && s.procs[p].Upping? && s.procs[p].u.Inserting? && s.procs[p].u.id == f
    ensures t == Run(cfg, s, [Try(p, attempt)]) && f in t.store.files
    ensures t.store.links == s.store.links && t.clock == s.clock && t.used == s.used && t.born == s.born
    ensures t.store.audit == s.store.audit && t.hazyAudits == s.hazyAudits
    ensures t.store.files.Keys == s.store.files.Keys + {f}
    ensures t.procs.Keys == s.procs.Keys && forall q :: q in s.procs && q != p ==> t.procs[q] == s.procs[q]
    ensures attempt.Retries() ==> t.procs[p] == s.procs[p]
  {
    hide Inv, Canon, IsUuid, PathTaken, ValidConfig;
    RunOne(cfg, s, Try(p, attempt));
    t := Step(cfg, s, Try(p, attempt));
    PathFree(cfg, s, f, p);
  }

  lemma PathFree(cfg: Config, s: Sys, f: string, p: nat)
    requires ValidConfig(cfg) && Inv(cfg, s) && f !in s.store.files
    requires p in s.procs && s.procs[p].Upping? && s.procs[p].u.Inserting? && s.procs[p].u.id == f
    ensures !PathTaken(s.store, s.procs[p].u.path)
  {
    assert RequestOk(cfg, s, p, s.procs[p]);
    forall g | g in s.store.files
      ensures s.store.files[g].storagePath != s.procs[p].u.path
    {
      assert Seen(cfg, s, s.store.files[g]) && CanonicalUuid(g) && CanonicalUuid(f);
    }
  }

  /** An unsettled upload reaches its insert. */
  lemma ReachInsert(cfg: Config, s: Sys, f: string) returns (events: seq<Event>, t: Sys)
    requires ValidConfig(cfg) && Inv(cfg, s) && f in s.born && !Settled(s, f)
    ensures t == Run(cfg, s, events) && AllPlain(events) && Inv(cfg, t)
    ensures var p := s.born[f].pid;
            p in t.procs && t.procs[p].Upping? && t.procs[p].u.Inserting? && t.procs[p].u.id == f
    ensures t.store.files == s.store.files && t.store.links == s.store.links
    ensures t.store.audit == s.store.audit && t.clock == s.clock && t.used == s.used && t.born == s.born
    ensures t.hazyAudits == s.hazyAudits
    ensures t.procs.Keys == s.procs.Keys && forall q :: q in s.procs && q != s.born[f].pid ==> t.procs[q] == s.procs[q]
  {
    hide Inv, Constraints, PerformFile, PerformLink, PerformAudit;
    BirthInv(cfg, s, f);
    var p := s.born[f].pid;
    events, t := [], s;
    if s.procs[p].u.Saving? {
      events := [Try(p, Succeeds)];
      RunOne(cfg, s, Try(p, Succeeds));
      t := Step(cfg, s, Try(p, Succeeds));
      RunKeepsInv(cfg, s, events);
    }
  }

  // ---------- gone for good ----------

  lemma {:induction false} StaysGone(cfg: Config, s: Sys, events: seq<Event>, f: string)
    requires ValidConfig(cfg) && Inv(cfg, s) && Settled(s, f) && f !in s.store.files
    ensures f !in Run(cfg, s, events).store.files
    decreases |events|
  {
    hide Inv, Settled, Step;
    if events != [] {
      BirthsInv(cfg, s);
      StepKeepsInv(cfg, s, events[0]);
      SettledStays(cfg, s, events[0], f);
      DeadStaysDead(cfg, s, events[0], f);
      StaysGone(cfg, Step(cfg, s, events[0]), events[1..], f);
    }
  }

  lemma ComesBack(cfg: Config, s: Sys, f: string) returns (events: seq<Event>)
    requires ValidConfig(cfg) && Inv(cfg, s) && f in s.born && !Settled(s, f) && f !in s.store.files
    ensures f in Run(cfg, s, events).store.files
  {
    hide Inv, Settled, Step, Run;
    var reach, t := ReachInsert(cfg, s, f);
    var u := InsertAgain(cfg, t, f, s.born[f].pid, Succeeds);
    events := reach + [Try(s.born[f].pid, Succeeds)];
    RunAppend(cfg, s, reach, [Try(s.born[f].pid, Succeeds)]);
  }

  /** A file without a row -- deleted, or not yet there -- never has one again in any continuation, if and only if its
      upload can no longer insert it. */
  lemma GoneForGoodIff(cfg: Config, s: Sys, f: string)
    requires ValidConfig(cfg) && Inv(cfg, s) && f in s.born && f !in s.store.files
    ensures Settled(s, f) <==> forall events :: f !in Run(cfg, s, events).store.files
  {
    hide Inv, Settled, Run;
    if Settled(s, f) {
      forall events
        ensures f !in Run(cfg, s, events).store.files
      {
        StaysGone(cfg, s, events, f);
      }
    } else {
      var events := ComesBack(cfg, s, f);
    }
  }
}
