/** The running service: shared tables and blobs, any number of requests in flight, and a clock.
    Any event may come next, so the runs of this machine are all interleavings of the requests' steps,
    with calls that fail, are retried or are left half-done, and requests that are lost. */
module System {
  import opened Codec
  import opened Tables
  import opened Domain
  import opened Requests
  import Signs

  /** How one attempt of a wrapped call ends. An attempt that reports a failure may still have taken
      effect; after it the wrapper either tries again (the request stays where it is) or gives up. */
  datatype Attempt = Succeeds | RetryClean | RetryApplied | FailClean | FailApplied {
    predicate Applied() {
      Succeeds? || RetryApplied? || FailApplied?
    }

    predicate Retries() {
      RetryClean? || RetryApplied?
    }
  }

  /** `newId` is what `randomUUID` returns, should the step draw one. */
  datatype Event =
    | Tick(now: int)
    | Start(pid: nat, ask: Ask, newId: string)
    | Draw(pid: nat, newId: string)
    | Try(pid: nat, attempt: Attempt)
    | Crash(pid: nat)
  {
    /** Nothing takes effect that is reported as failed. */
    predicate Honest() {
      Try? ==> attempt.Succeeds? || !attempt.Applied()
    }

    /** Nothing fails. */
    predicate Plain() {
      !Crash? && (Try? ==> attempt.Succeeds?)
    }
  }

  /** What an upload was asked to store, and the request that stores it. */
  datatype Birth = Birth(userId: string, upload: Upload, pid: nat)

  /** What a link id was drawn for, and the request that drew it. */
  datatype Draft = Draft(fileId: string, pid: nat)

  /** The components after `clock` are history; no step of a request reads them. `used`: UUIDs drawn. `born`: file
      ids drawn, with their uploads. `drafts`: link ids drawn. `inserted`: file ids that ever had a row.
      `revokedBy`: the request that was told it revoked a link. `hazyInserts`, `hazyAudits`: files with an insert,
      or the append of an event about making or revoking a link, that took effect in an attempt reported as failed.
      `receipts`: the link for which a `signed_link_generated` event at a log position was written. */
  datatype Sys = Sys(
    store: Store,
    procs: map<nat, Request>,
    clock: int,
    used: set<string>,
    born: map<string, Birth>,
    drafts: map<string, Draft>,
    inserted: set<string>,
    revokedBy: map<string, nat>,
    hazyInserts: set<string>,
    hazyAudits: set<string>,
    receipts: map<nat, string>)

  const Init := Sys(EmptyStore, map[], 0, {}, map[], map[], {}, map[], {}, {}, map[])

  // The largest time value ECMAScript can represent, in milliseconds.
  const MAX_TIME: int := 8_640_000_000_000_000

  predicate Unused(s: Sys, id: string) {
    CanonicalUuid(id) && id !in s.used
  }

  predicate Waiting(s: Sys, pid: nat) {
    pid in s.procs && Awaits(s.procs[pid])
  }

  ghost function StoreAfter(cfg: Config, s: Sys, pid: nat, attempt: Attempt): Store
    requires Waiting(s, pid)
  {
    if attempt.Applied() then Perform(s.store, Await(cfg, s.procs[pid]), s.clock).0 else s.store
  }

  ghost function RequestAfter(cfg: Config, s: Sys, pid: nat, attempt: Attempt): Request
    requires Waiting(s, pid)
  {
    var r := s.procs[pid];
    if attempt.Succeeds? then Resume(cfg, r, Perform(s.store, Await(cfg, s.procs[pid]), s.clock).1)
    else if attempt.Retries() then r
    else Resume(cfg, r, Thrown)
  }

  predicate IsRevoke(call: Call) {
    call.OnLinks? && call.link.RevokeLink?
  }

  predicate IsInsert(call: Call) {
    call.OnFiles? && call.file.InsertFile?
  }

  predicate IsAppend(call: Call) {
    call.OnAudit? && call.audit.Append?
  }

  /** The link was made or revoked. */
  predicate OfLink(event: AuditEvent) {
    event.what.LinkGenerated? || event.what.LinkRevoked?
  }

  /** The step of the tables and of the request, and what history records of it. */
  ghost function TryStep(cfg: Config, s: Sys, pid: nat, attempt: Attempt): Sys
    requires Waiting(s, pid)
  {
    var r := s.procs[pid];
    var call := Await(cfg, r);
    var store := StoreAfter(cfg, s, pid, attempt);
    var unreported := attempt.Applied() && !attempt.Succeeds?;
    s.(store := store,
       procs := s.procs[pid := RequestAfter(cfg, s, pid, attempt)],
       inserted := s.inserted + store.files.Keys,
       revokedBy := if IsRevoke(call) && attempt.Succeeds? && Revocable(s.store, call.link.linkId, call.link.fileId)
                    then s.revokedBy[call.link.linkId := pid] else s.revokedBy,
       hazyInserts := if IsInsert(call) && unreported then s.hazyInserts + {call.file.row.id} else s.hazyInserts,
       hazyAudits := if IsAppend(call) && OfLink(call.audit.event) && unreported
           then s.hazyAudits + {call.audit.event.fileId} else s.hazyAudits,
       receipts := if r.Signing? && r.g.Logging? && attempt.Applied() then s.receipts[|s.store.audit| := r.g.linkId]
           else s.receipts)
  }

  ghost function StartStep(cfg: Config, s: Sys, pid: nat, ask: Ask, newId: string): Sys {
    var r := Entry(cfg, ask, s.clock, newId);
    s.(procs := s.procs[pid := r],
       used := if r.Upping? then s.used + {newId} else s.used,
       born := if r.Upping? then s.born[newId := Birth(ask.userId, ask.upload, pid)] else s.born)
  }

  ghost function DrawStep(s: Sys, pid: nat, newId: string): Sys
    requires Drawing(s, pid)
  {
    s.(procs := s.procs[pid := Signing(Signs.Draw(s.procs[pid].g, s.clock, newId))],
       used := s.used + {newId},
       drafts := s.drafts[newId := Draft(s.procs[pid].g.file.id, pid)])
  }

  predicate Drawing(s: Sys, pid: nat) {
    pid in s.procs && s.procs[pid].Signing? && s.procs[pid].g.Drawing?
  }

  /** Events that are not possible leave the system as it is. */
  ghost function Step(cfg: Config, s: Sys, e: Event): Sys {
    match e
    case Tick(now) => if s.clock <= now <= MAX_TIME then s.(clock := now) else s
    case Start(pid, ask, newId) => if pid in s.procs || !Unused(s, newId) then s else StartStep(cfg, s, pid, ask, newId)
    case Draw(pid, newId) => if Drawing(s, pid) && Unused(s, newId) then DrawStep(s, pid, newId) else s
    case Try(pid, attempt) => if Waiting(s, pid) then TryStep(cfg, s, pid, attempt) else s
    case Crash(pid) => if pid in s.procs && !s.procs[pid].Done? then s.(procs := s.procs[pid := Done(Crashed)]) else s
  }

  predicate AllHonest(events: seq<Event>) {
    forall i :: 0 <= i < |events| ==> events[i].Honest()
  }

  predicate AllPlain(events: seq<Event>) {
    forall i :: 0 <= i < |events| ==> events[i].Plain()
  }

  ghost function Run(cfg: Config, s: Sys, events: seq<Event>): Sys
    decreases |events|
  {
    if events == [] then s else Run(cfg, Step(cfg, s, events[0]), events[1..])
  }

  lemma NoEvents(cfg: Config, s: Sys)
    ensures Run(cfg, s, []) == s
  {
  }

  lemma {:induction false} RunAppend(cfg: Config, s: Sys, first: seq<Event>, rest: seq<Event>)
    ensures Run(cfg, s, first + rest) == Run(cfg, Run(cfg, s, first), rest)
    decreases |first|
  {
    if first == [] {
      assert first + rest == rest;
    } else {
      assert (first + rest)[0] == first[0] && (first + rest)[1..] == first[1..] + rest;
      RunAppend(cfg, Step(cfg, s, first[0]), first[1..], rest);
    }
  }

  /** What no step takes back: drawn ids, births, rows that once existed, the log, the clock. */
  ghost predicate Grows(s: Sys, t: Sys) {
    && s.used <= t.used
    && (forall f :: f in s.born ==> f in t.born && t.born[f] == s.born[f])
    && (forall l :: l in s.drafts ==> l in t.drafts && t.drafts[l] == s.drafts[l])
    && s.inserted <= t.inserted
    && s.store.audit <= t.store.audit
    && s.clock <= t.clock
    && s.hazyInserts <= t.hazyInserts
    && s.hazyAudits <= t.hazyAudits
    && s.procs.Keys <= t.procs.Keys
  }

  ghost predicate IdsTracked(s: Sys) {
    s.born.Keys <= s.used && s.drafts.Keys <= s.used
  }

  lemma TryGrows(cfg: Config, s: Sys, pid: nat, attempt: Attempt)
    requires Waiting(s, pid)
    ensures Grows(s, TryStep(cfg, s, pid, attempt))
  {
    AuditEffect(s.store, Await(cfg, s.procs[pid]), s.clock);
  }

  lemma StepGrows(cfg: Config, s: Sys, e: Event)
    requires IdsTracked(s)
    ensures Grows(s, Step(cfg, s, e)) && IdsTracked(Step(cfg, s, e))
  {
    hide Entry, CanonicalUuid, Perform;
    if e.Try? && Waiting(s, e.pid) {
      TryGrows(cfg, s, e.pid, e.attempt);
    }
  }

  lemma GrowsTransitive(s: Sys, t: Sys, u: Sys)
    requires Grows(s, t) && Grows(t, u)
    ensures Grows(s, u)
  {
  }

  lemma {:induction false} RunGrows(cfg: Config, s: Sys, events: seq<Event>)
    requires IdsTracked(s)
    ensures Grows(s, Run(cfg, s, events)) && IdsTracked(Run(cfg, s, events))
    decreases |events|
  {
    if events != [] {
      var t := Step(cfg, s, events[0]);
      StepGrows(cfg, s, events[0]);
      RunGrows(cfg, t, events[1..]);
      GrowsTransitive(s, t, Run(cfg, s, events));
    }
  }

  /** What one event can make of a request: nothing, lose it, finish a draw, or deliver or repeat its call. */
  lemma StepOfRequest(cfg: Config, s: Sys, e: Event, pid: nat)
    requires pid in s.procs
    ensures var t := Step(cfg, s, e);
            && pid in t.procs
            && (|| t.procs[pid] == s.procs[pid]
                || t.procs[pid] == Done(Crashed)
                || (Drawing(s, pid) && e.Draw? && e.pid == pid
                    && t.procs[pid] == Signing(Signs.Draw(s.procs[pid].g, s.clock, e.newId)))
                || (Waiting(s, pid)
                    && var r := s.procs[pid];
                       || t.procs[pid] == Resume(cfg, r, Thrown)
                       || (e == Try(pid, Succeeds)
                           && t.procs[pid] == Resume(cfg, r, Perform(s.store, Await(cfg, r), s.clock).1))))
  {
  }

  /** Events other than attempts touch neither the stores nor the history of what was written. */
  lemma QuietStep(cfg: Config, s: Sys, e: Event)
    requires !(e.Try? && Waiting(s, e.pid))
    ensures var t := Step(cfg, s, e);
            && t.store == s.store && t.inserted == s.inserted && t.revokedBy == s.revokedBy
            && t.hazyInserts == s.hazyInserts && t.hazyAudits == s.hazyAudits && t.receipts == s.receipts
  {
  }
}
