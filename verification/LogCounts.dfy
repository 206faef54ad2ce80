/** The log's count of a live file's links against the table, step by step. */
module LogCounts {
  import opened Codec
  import opened Tables
  import opened Domain
  import opened Requests
  import opened System
  import opened Invariants
  import opened Preservation
  import opened Lifecycle
  import opened Phases
  import opened Revocation
  import Signs

  /** A choice among lifetimes and expiries, so that links can be counted all together or one kind at a time. */
  type Pick = (int, int) -> bool

  const ANY: Pick := (ttlSeconds, expiresAt) => true

  predicate IsMade(event: AuditEvent, f: string, pick: Pick) {
    event.fileId == f && event.what.LinkGenerated? && pick(event.what.ttlSeconds, event.what.expiresAt)
  }

  /** Where the log tells of a link of `f`. */
  ghost function Made(s: Sys, f: string, pick: Pick): set<nat> {
    set i: nat | i < |s.store.audit| && IsMade(s.store.audit[i], f, pick)
  }

  ghost function Rows(s: Sys, f: string, pick: Pick): set<string> {
    set l | l in s.store.links && s.store.links[l].fileId == f
        && pick(s.store.links[l].ttlSeconds, s.store.links[l].expiresAt)
  }

  predicate Tells(r: Request, f: string, pick: Pick) {
    r.Signing? && r.g.Logging? && r.g.file.id == f && pick(r.g.ttlSeconds, r.g.expiresAt)
  }

  /** The requests that have inserted a link of `f` and have yet to tell the log. */
  ghost function Telling(s: Sys, f: string, pick: Pick): set<nat> {
    set q | q in s.procs && Tells(s.procs[q], f, pick)
  }

  /** By how much the log and those about to write it outnumber the rows. */
  ghost function Excess(s: Sys, f: string, pick: Pick): int {
    |Made(s, f, pick)| + |Telling(s, f, pick)| - |Rows(s, f, pick)|
  }

  // ---------- one attempt ----------

  predicate MakesNow(r: Request, f: string, pick: Pick) {
    r.Signing? && r.g.Inserting? && r.g.file.id == f && pick(r.g.ttlSeconds, r.g.expiresAt)
  }

  function LinkIdOf(r: Request): string {
    if r.Signing? && r.g.Inserting? then r.g.linkId else ""
  }

  ghost predicate InsertWorks(cfg: Config, s: Sys, q: nat) {
    && q in s.procs && s.procs[q].Signing? && s.procs[q].g.Inserting?
    && var g := s.procs[q].g; LinkInsertable(s.store,
         Signs.Row(cfg, g.linkId, g.file, g.userId, g.ttlSeconds, g.expiresAt))
  }

  lemma OnlyTellersTell(cfg: Config, r: Request, f: string, pick: Pick)
    requires Awaits(r)
    ensures var call := Await(cfg, r); IsAppend(call) && IsMade(call.audit.event, f, pick) <==> Tells(r, f, pick)
  {
    hide Canon, IsUuid;
  }

  lemma MadeStep(cfg: Config, s: Sys, q: nat, attempt: Attempt, f: string, pick: Pick)
    requires Waiting(s, q)
    ensures Made(TryStep(cfg, s, q, attempt), f, pick)
            == if Tells(s.procs[q], f, pick) && attempt.Applied() then Made(s, f, pick) + {|s.store.audit|}
                else Made(s, f, pick)
  {
    hide Await, Perform, Resume, IsMade, Tells;
    AuditEffect(s.store, Await(cfg, s.procs[q]), s.clock);
    OnlyTellersTell(cfg, s.procs[q], f, pick);
  }

  lemma AfterTelling(cfg: Config, s: Sys, q: nat, attempt: Attempt, f: string, pick: Pick)
    requires Waiting(s, q)
    ensures var r' := RequestAfter(cfg, s, q, attempt);
            Tells(r', f, pick) <==>
              if Tells(s.procs[q], f, pick) then attempt.Retries()
              else MakesNow(s.procs[q], f, pick) && attempt.Succeeds? && InsertWorks(cfg, s, q)
  {
    hide Canon, IsUuid, PerformFile, PerformBlob, PerformAudit, LinkFor;
  }

  lemma TellingStep(cfg: Config, s: Sys, q: nat, attempt: Attempt, f: string, pick: Pick)
    requires Waiting(s, q)
    ensures var old', new' := Telling(s, f, pick), Telling(TryStep(cfg, s, q, attempt), f, pick);
            new' == if Tells(s.procs[q], f, pick) then (if attempt.Retries() then old' else old' - {q})
                    else if MakesNow(s.procs[q], f, pick) && attempt.Succeeds? && InsertWorks(cfg, s, q) then old' + {q}
                    else old'
  {
    AfterTelling(cfg, s, q, attempt, f, pick);
    hide Await, Perform, Resume, RequestAfter, StoreAfter, Tells, MakesNow, InsertWorks;
  }

  lemma OnlyMakersMake(cfg: Config, s: Sys, q: nat, f: string, pick: Pick)
    requires Waiting(s, q)
    ensures var call := Await(cfg, s.procs[q]);
            && (call.OnLinks? && call.link.InsertLink?
                  && call.link.link.fileId == f && pick(call.link.link.ttlSeconds, call.link.link.expiresAt)
                <==> MakesNow(s.procs[q], f, pick))
            && (MakesNow(s.procs[q], f, pick) ==>
                  call.link.link.id == LinkIdOf(s.procs[q])
                      && (LinkInsertable(s.store, call.link.link) <==> InsertWorks(cfg, s, q)))
  {
    hide Canon, IsUuid, LinkInsertable;
  }

  lemma RowsAfter(s: Store, call: Call, now: int, f: string, pick: Pick, t: Store)
    requires t == Perform(s, call, now).0 && call != OnFiles(DeleteFile(f))
    ensures forall l ::
              (l in t.links && t.links[l].fileId == f && pick(t.links[l].ttlSeconds, t.links[l].expiresAt))
              <==> || (l in s.links && s.links[l].fileId == f && pick(s.links[l].ttlSeconds, s.links[l].expiresAt))
                   || (call.OnLinks? && call.link.InsertLink? && call.link.link.id == l && call.link.link.fileId == f
                       && pick(call.link.link.ttlSeconds, call.link.link.expiresAt)
                            && LinkInsertable(s, call.link.link))
  {
    hide LinkFor, SignatureTaken, PathTaken, HasEventBy, EventsOf;
  }

  lemma RowsStep(cfg: Config, s: Sys, q: nat, attempt: Attempt, f: string, pick: Pick)
    requires Waiting(s, q) && f in TryStep(cfg, s, q, attempt).store.files
    ensures Rows(TryStep(cfg, s, q, attempt), f, pick)
            == if MakesNow(s.procs[q], f, pick) && attempt.Applied() && InsertWorks(cfg, s, q)
               then Rows(s, f, pick) + {LinkIdOf(s.procs[q])} else Rows(s, f, pick)
  {
    var call := Await(cfg, s.procs[q]);
    OnlyMakersMake(cfg, s, q, f, pick);
    RowGone(s.store, call, s.clock, f);
    hide Await, Perform, Resume, LinkInsertable, MakesNow, InsertWorks;
    if attempt.Applied() {
      RowsAfter(s.store, call, s.clock, f, pick, Perform(s.store, call, s.clock).0);
    }
  }

  lemma RowGone(s: Store, call: Call, now: int, f: string)
    ensures call == OnFiles(DeleteFile(f)) ==> f !in Perform(s, call, now).0.files
  {
  }

  lemma InsertedWasAbsent(cfg: Config, s: Sys, q: nat, f: string, pick: Pick)
    requires InsertWorks(cfg, s, q)
    ensures LinkIdOf(s.procs[q]) !in Rows(s, f, pick)
  {
  }

  /** As long as a file has its row, an attempt without misreport never raises the excess, and one that works keeps
      it. */
  lemma ExcessOfTry(cfg: Config, s: Sys, q: nat, attempt: Attempt, f: string, pick: Pick)
    requires Waiting(s, q) && f in TryStep(cfg, s, q, attempt).store.files
    requires attempt.Succeeds? || !attempt.Applied()
    ensures Excess(TryStep(cfg, s, q, attempt), f, pick) <= Excess(s, f, pick)
    ensures attempt.Succeeds? ==> Excess(TryStep(cfg, s, q, attempt), f, pick) == Excess(s, f, pick)
  {
    hide TryStep, Made, Telling, Rows, Tells, MakesNow, InsertWorks, LinkIdOf, Awaits;
    MadeStep(cfg, s, q, attempt, f, pick);
    TellingStep(cfg, s, q, attempt, f, pick);
    RowsStep(cfg, s, q, attempt, f, pick);
    OneSide(s.procs[q], f, pick);
    if InsertWorks(cfg, s, q) {
      InsertedWasAbsent(cfg, s, q, f, pick);
    }
    TellerCounted(s, q, f, pick);
    OneMoreOrLess(Made(s, f, pick), |s.store.audit|);
    OneMoreOrLess(Telling(s, f, pick), q);
    OneMoreOrLess(Rows(s, f, pick), LinkIdOf(s.procs[q]));
  }

  lemma OneMoreOrLess<T>(a: set<T>, x: T)
    ensures x !in a ==> |a + {x}| == |a| + 1
    ensures x in a ==> |a - {x}| == |a| - 1
  {
  }

  lemma OneSide(r: Request, f: string, pick: Pick)
    ensures !(Tells(r, f, pick) && MakesNow(r, f, pick))
  {
  }

  lemma TellerCounted(s: Sys, q: nat, f: string, pick: Pick)
    requires q in s.procs
    ensures q in Telling(s, f, pick) <==> Tells(s.procs[q], f, pick)
    ensures |s.store.audit| !in Made(s, f, pick)
  {
  }

  lemma QuietTellers(cfg: Config, s: Sys, e: Event, f: string, pick: Pick)
    requires !(e.Try? && Waiting(s, e.pid))
    ensures Telling(Step(cfg, s, e), f, pick) == if e.Crash? then Telling(s, f, pick) - {e.pid} else Telling(s, f, pick)
  {
    hide Canon, IsUuid, CanonicalUuid;
  }

  lemma ExcessStep(cfg: Config, s: Sys, e: Event, f: string, pick: Pick)
    requires e.Honest() && f in Step(cfg, s, e).store.files
    ensures Excess(Step(cfg, s, e), f, pick) <= Excess(s, f, pick)
    ensures e.Plain() ==> Excess(Step(cfg, s, e), f, pick) == Excess(s, f, pick)
  {
    if e.Try? && Waiting(s, e.pid) {
      ExcessOfTry(cfg, s, e.pid, e.attempt, f, pick);
    } else {
      QuietTellers(cfg, s, e, f, pick);
      QuietStep(cfg, s, e);
      hide Step;
      assert Telling(Step(cfg, s, e), f, pick) <= Telling(s, f, pick);
      SubsetSize(Telling(Step(cfg, s, e), f, pick), Telling(s, f, pick));
    }
  }

  lemma {:induction false} SubsetSize<T>(a: set<T>, b: set<T>)
    requires a <= b
    ensures |a| <= |b|
    decreases a
  {
    if a != {} {
      var x :| x in a;
      SubsetSize(a - {x}, b - {x});
    }
  }

  // ---------- while failures have no effect ----------

  ghost predicate Within(s: Sys, f: string) {
    f in s.store.files ==> |Made(s, f, ANY)| <= |Rows(s, f, ANY)|
  }

  lemma {:induction false} WithinForever(cfg: Config, s: Sys, events: seq<Event>, f: string)
    requires ValidConfig(cfg) && Inv(cfg, s) && Settled(s, f) && AllHonest(events)
    requires f in s.store.files ==> Excess(s, f, ANY) <= 0
    ensures Within(Run(cfg, s, events), f)
    decreases |events|
  {
    hide Inv, Step, Settled, Made, Telling, Rows;
    if events != [] {
      var t := Step(cfg, s, events[0]);
      BirthsInv(cfg, s);
      StepKeepsInv(cfg, s, events[0]);
      SettledStays(cfg, s, events[0], f);
      if f !in s.store.files {
        DeadStaysDead(cfg, s, events[0], f);
      } else if f in t.store.files {
        ExcessStep(cfg, s, events[0], f, ANY);
      }
      WithinForever(cfg, t, events[1..], f);
    }
  }

  /** Everyone about to tell the log does. */
  lemma {:induction false} AllTell(cfg: Config, s: Sys, f: string) returns (events: seq<Event>, t: Sys)
    requires f in s.store.files
    ensures t == Run(cfg, s, events) && AllPlain(events) && f in t.store.files
    ensures |Made(t, f, ANY)| == |Made(s, f, ANY)| + |Telling(s, f, ANY)| && Rows(t, f, ANY) == Rows(s, f, ANY)
    decreases |Telling(s, f, ANY)|
  {
    hide Run, Step;
    events, t := [], s;
    NoEvents(cfg, s);
    if Telling(s, f, ANY) != {} {
      var q :| q in Telling(s, f, ANY);
      var next := OneTells(cfg, s, q, f);
      var rest, end := AllTell(cfg, next, f);
      events, t := [Try(q, Succeeds)] + rest, end;
      RunOne(cfg, s, Try(q, Succeeds));
      RunAppend(cfg, s, [Try(q, Succeeds)], rest);
    }
  }

  lemma OneTells(cfg: Config, s: Sys, q: nat, f: string) returns (t: Sys)
    requires f in s.store.files && q in Telling(s, f, ANY)
    ensures t == Step(cfg, s, Try(q, Succeeds)) && f in t.store.files
    ensures |Made(t, f, ANY)| == |Made(s, f, ANY)| + 1 && Telling(t, f, ANY) == Telling(s, f, ANY) - {q}
    ensures Rows(t, f, ANY) == Rows(s, f, ANY)
  {
    t := Step(cfg, s, Try(q, Succeeds));
    TellerLeavesFiles(cfg, s, q, f);
    MadeStep(cfg, s, q, Succeeds, f, ANY);
    TellingStep(cfg, s, q, Succeeds, f, ANY);
    RowsStep(cfg, s, q, Succeeds, f, ANY);
    TellerCounted(s, q, f, ANY);
    OneSide(s.procs[q], f, ANY);
    hide TryStep, Made, Telling, Rows, Tells, MakesNow, InsertWorks;
  }

  lemma TellerLeavesFiles(cfg: Config, s: Sys, q: nat, f: string)
    requires q in s.procs && Tells(s.procs[q], f, ANY)
    ensures Waiting(s, q) && TryStep(cfg, s, q, Succeeds).store.files == s.store.files
  {
  }

  /** For a live file whose upload is settled: in every continuation whose failures have no effect, as long as the file
      lives the log tells of no more links than there are -- if and only if this holds now, counting those about to
      tell the log. */
  lemma WithinIff(cfg: Config, s: Sys, f: string)
    requires ValidConfig(cfg) && Inv(cfg, s) && f in s.store.files && Settled(s, f)
    ensures |Made(s, f, ANY)| + |Telling(s, f, ANY)| <= |Rows(s, f, ANY)|
            <==> forall events :: AllHonest(events) ==> Within(Run(cfg, s, events), f)
  {
    hide Inv, Run, Settled, Made, Telling, Rows;
    if Excess(s, f, ANY) <= 0 {
      forall events | AllHonest(events)
        ensures Within(Run(cfg, s, events), f)
      {
        WithinForever(cfg, s, events, f);
      }
    } else {
      var events, t := AllTell(cfg, s, f);
      assert AllHonest(events) && !Within(t, f);
    }
  }

  // ---------- a file whose upload can still insert it ----------

  /** The file comes back without links, and the log keeps telling of those it had. */
  lemma ReturnExceeds(cfg: Config, s: Sys, f: string, pid: nat, id: string) returns (events: seq<Event>)
    requires ValidConfig(cfg) && Inv(cfg, s) && f in s.store.files && !Settled(s, f)
    requires |Made(s, f, ANY)| + |Telling(s, f, ANY)| > 0 && pid !in s.procs && Unused(s, id)
    ensures AllHonest(events) && !Within(Run(cfg, s, events), f)
  {
    hide Inv, Run, Settled, CanonicalUuid;
    FileInv(cfg, s, f);
    var ev, t := Resurrect(cfg, s, f, pid, id);
    ReturnCounts(cfg, s, t, f, pid);
    var more, u := AllTell(cfg, t, f);
    events := ev + more;
    RunAppend(cfg, s, ev, more);
  }

  lemma ReturnCounts(cfg: Config, s: Sys, t: Sys, f: string, pid: nat)
    requires Inv(cfg, s) && f in s.born && !Settled(s, f)
    requires t.store.links == WithoutLinksOf(s.store.links, f) && Extended(s.store.audit, t.store.audit, f)
    requires t.procs.Keys == s.procs.Keys + {pid} && pid !in s.procs && t.procs[pid].Deleting?
    requires forall q :: q in s.procs && q != s.born[f].pid ==> t.procs[q] == s.procs[q]
    ensures Rows(t, f, ANY) == {} && |Made(s, f, ANY)| <= |Made(t, f, ANY)|
            && |Telling(s, f, ANY)| <= |Telling(t, f, ANY)|
  {
    hide Inv;
    BirthInv(cfg, s, f);
    forall i | i in Made(s, f, ANY)
      ensures i in Made(t, f, ANY)
    {
      assert t.store.audit[i] == s.store.audit[..|s.store.audit|][i];
    }
    SubsetSize(Made(s, f, ANY), Made(t, f, ANY));
    assert Telling(s, f, ANY) <= Telling(t, f, ANY);
    SubsetSize(Telling(s, f, ANY), Telling(t, f, ANY));
  }

  /** The owner can sign the file, now or later: some expiry still to be had yields a signature that no link has. */
  ghost predicate OwnerCanSign(cfg: Config, s: Sys, f: string) {
    && cfg.maxTtlSeconds >= 1
    && exists e :: FreeExpiry(cfg, s, f, e)
  }

  ghost predicate FreeExpiry(cfg: Config, s: Sys, f: string, e: int) {
    s.clock / 1000 < e <= MAX_TIME / 1000 + cfg.maxTtlSeconds && !SignatureTaken(s.store, cfg.signature(f, e))
  }

  /** And he does, up to telling the log. */
  lemma OwnerSigns(cfg: Config, s: Sys, f: string, pid: nat, id: string) returns (events: seq<Event>, t: Sys)
    requires ValidConfig(cfg) && Inv(cfg, s) && f in s.store.files && OwnerCanSign(cfg, s, f)
    requires pid !in s.procs && Unused(s, id)
    ensures t == Run(cfg, s, events) && AllPlain(events) && Inv(cfg, t) && f in t.store.files
    ensures pid in Telling(t, f, ANY) && t.procs.Keys == s.procs.Keys + {pid}
    ensures forall q :: q in s.procs ==> t.procs[q] == s.procs[q]
    ensures t.born == s.born && t.used == s.used + {id}
  {
    hide Inv, Run, CanonicalUuid, SignatureTaken, Canon, IsUuid;
    var e :| FreeExpiry(cfg, s, f, e);
    var wait, mid := WaitFor(cfg, s, e);
    PresentRow(cfg, mid, f);
    LinkIdFree(cfg, mid, id);
    var sign, end := SignPhase(cfg, mid, f, e - mid.clock / 1000, pid, id);
    t := end;
    RunKeepsInv(cfg, mid, sign);
    events := wait + sign;
    RunAppend(cfg, s, wait, sign);
  }

  /** For a live file whose upload can still insert its row it is not so: with anything told or about to be told of its
      links, or if its owner can sign it, a continuation whose failures have no effect breaks it. */
  lemma UnsettledExceeds(cfg: Config, s: Sys, f: string, pid: nat, pid': nat, id: string, id': string)
    returns (events: seq<Event>)
    requires ValidConfig(cfg) && Inv(cfg, s) && f in s.store.files && !Settled(s, f)
    requires |Made(s, f, ANY)| + |Telling(s, f, ANY)| > 0 || OwnerCanSign(cfg, s, f)
    requires pid !in s.procs && pid' !in s.procs && pid != pid' && Unused(s, id) && Unused(s, id') && id != id'
    ensures AllHonest(events) && !Within(Run(cfg, s, events), f)
  {
    hide Inv, Run, CanonicalUuid, Made, OwnerCanSign, Telling;
    if |Made(s, f, ANY)| + |Telling(s, f, ANY)| > 0 {
      events := ReturnExceeds(cfg, s, f, pid, id);
    } else {
      FileInv(cfg, s, f);
      BirthInv(cfg, s, f);
      var ev, t := OwnerSigns(cfg, s, f, pid, id);
      NonEmpty(Telling(t, f, ANY), pid);
      var more := ReturnExceeds(cfg, t, f, pid', id');
      events := ev + more;
      RunAppend(cfg, s, ev, more);
    }
  }

  lemma NonEmpty<T>(a: set<T>, x: T)
    requires x in a
    ensures |a| > 0
  {
  }

  // ---------- once appends may be misreported ----------

  /** A request about to tell the log tells it as often as its append takes effect without being reported. */
  lemma {:induction false} TellsAgain(cfg: Config, s: Sys, q: nat, f: string, n: nat)
    returns (events: seq<Event>, t: Sys)
    requires f in s.store.files && q in Telling(s, f, ANY)
    ensures t == Run(cfg, s, events) && f in t.store.files
    ensures |Made(t, f, ANY)| == |Made(s, f, ANY)| + n && Rows(t, f, ANY) == Rows(s, f, ANY)
    decreases n
  {
    hide Run, Step, Made, Rows;
    events, t := [], s;
    NoEvents(cfg, s);
    if n > 0 {
      var e := Try(q, RetryApplied);
      var next := OneTellsUnreported(cfg, s, q, f);
      var rest, end := TellsAgain(cfg, next, q, f, n - 1);
      events, t := [e] + rest, end;
      RunOne(cfg, s, e);
      RunAppend(cfg, s, [e], rest);
    }
  }

  lemma OneTellsUnreported(cfg: Config, s: Sys, q: nat, f: string) returns (t: Sys)
    requires f in s.store.files && q in Telling(s, f, ANY)
    ensures t == Step(cfg, s, Try(q, RetryApplied)) && f in t.store.files && q in Telling(t, f, ANY)
    ensures |Made(t, f, ANY)| == |Made(s, f, ANY)| + 1 && Rows(t, f, ANY) == Rows(s, f, ANY)
  {
    t := Step(cfg, s, Try(q, RetryApplied));
    TellerLeavesFiles(cfg, s, q, f);
    TellerStays(cfg, s, q, f);
    MadeStep(cfg, s, q, RetryApplied, f, ANY);
    TellingStep(cfg, s, q, RetryApplied, f, ANY);
    RowsStep(cfg, s, q, RetryApplied, f, ANY);
    TellerCounted(s, q, f, ANY);
    OneSide(s.procs[q], f, ANY);
    hide TryStep, Made, Telling, Rows, Tells, MakesNow, InsertWorks;
  }

  lemma TellerStays(cfg: Config, s: Sys, q: nat, f: string)
    requires q in s.procs && Tells(s.procs[q], f, ANY)
    ensures Waiting(s, q) && TryStep(cfg, s, q, RetryApplied).store.files == s.store.files
  {
  }

  /** With such appends no state is safe: whenever a request is about to tell of a link of a live file, or its owner can
      sign it, a continuation has the log tell of more links than there are. */
  lemma MisreportsExceed(cfg: Config, s: Sys, f: string, pid: nat, id: string) returns (events: seq<Event>)
    requires ValidConfig(cfg) && Inv(cfg, s) && f in s.store.files && pid !in s.procs && Unused(s, id)
    requires Telling(s, f, ANY) != {} || OwnerCanSign(cfg, s, f)
    ensures !Within(Run(cfg, s, events), f)
  {
    hide Inv, Run, CanonicalUuid, Made, Rows, OwnerCanSign, Telling;
    if q :| q in Telling(s, f, ANY) {
      var ev, t := TellsAgain(cfg, s, q, f, |Rows(s, f, ANY)| + 1);
      events := ev;
    } else {
      var ev, t := OwnerSigns(cfg, s, f, pid, id);
      var more, u := TellsAgain(cfg, t, pid, f, |Rows(t, f, ANY)| + 1);
      events := ev + more;
      RunAppend(cfg, s, ev, more);
    }
  }
}
