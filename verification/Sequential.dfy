/** One request at a time: each runs from its arrival to its answer with no other in between, while its calls
    may still be retried, fail, or take effect in attempts reported as failed. */
module Sequential {
  import opened Codec
  import opened Tables
  import opened Domain
  import opened Requests
  import opened System
  import Signs

  /** How the last attempt of a call ends: a failed one may still have taken effect. */
  datatype Last = Works | FailsClean | FailsApplied

  /** The surroundings of one call: the clock, the UUID on offer, the earlier attempts that the wrapper retried
      (true where the attempt took effect although it was reported as failed), and the last attempt. */
  datatype Turn = Turn(now: int, id: string, lapses: seq<bool>, last: Last)
  {
    /** Nothing takes effect that is reported as failed. */
    predicate Honest() {
      true !in lapses && !last.FailsApplied?
    }

    predicate Calm() {
      lapses == [] && last.Works?
    }

    /** Some attempt took effect. */
    predicate Applied() {
      true in lapses || !last.FailsClean?
    }
  }

  /** Turns in the order in which calls take them. */
  type Course = nat -> Turn

  /** The stores, and the turn that the next call takes. */
  datatype World = World(store: Store, turn: nat)

  ghost predicate Calm(course: Course) {
    forall i :: course(i).Calm()
  }

  ghost predicate Honest(course: Course) {
    forall i :: course(i).Honest()
  }

  ghost function AfterLapses(s: Store, call: Call, now: int, lapses: seq<bool>): Store
    decreases |lapses|
  {
    if lapses == [] then s
    else AfterLapses(if lapses[0] then Perform(s, call, now).0 else s, call, now, lapses[1..])
  }

  /** A wrapped call. */
  ghost function Serve(w: World, call: Call, course: Course): (World, Reply) {
    var turn := course(w.turn);
    var s := AfterLapses(w.store, call, turn.now, turn.lapses);
    var (after, reply) := Perform(s, call, turn.now);
    (World(if turn.last.FailsClean? then s else after, w.turn + 1), if turn.last.Works? then reply else Thrown)
  }

  /** An upper bound on the steps ahead of a request. */
  function Rank(r: Request): nat {
    match r
    case Upping(u) => if u.Saving? then 3 else if u.Inserting? then 2 else 1
    case Renaming(n) => if n.Lookup? then 3 else if n.Renaming? then 2 else 1
    case Deleting(d) => if d.Lookup? then 4 else if d.Logging? then 3 else if d.RemovingRow? then 2 else 1
    case Signing(g) => if g.Lookup? then 4 else if g.Drawing? then 3 else if g.Inserting? then 2 else 1
    case Revoking(v) => if v.Lookup? then 3 else if v.Revoking? then 2 else 1
    case Downloading(w) =>
      if w.Lookup? then 5 else if w.Redeeming? then 4 else if w.Logging? then 3 else if w.Probing? then 2 else 1
    case Reviewing(h) => if h.Lookup? then 3 else if h.Consulting? then 2 else 1
    case Done(_) => 0
  }

  /** Every reply brings a request nearer its end: no service loops. */
  lemma ResumeDescends(cfg: Config, r: Request, reply: Reply)
    requires Awaits(r)
    ensures Rank(Resume(cfg, r, reply)) < Rank(r)
  {
  }

  /** The rest of a request. */
  ghost function Finish(cfg: Config, w: World, r: Request, course: Course): (World, Response)
    decreases Rank(r)
  {
    if r.Done? then (w, r.response)
    else if !Awaits(r) then Finish(cfg, w, Signing(Signs.Draw(r.g, course(w.turn).now, course(w.turn).id)), course)
    else
      var (after, reply) := Serve(w, Await(cfg, r), course);
      ResumeDescends(cfg, r, reply);
      Finish(cfg, after, Resume(cfg, r, reply), course)
  }

  ghost function Handle(cfg: Config, w: World, ask: Ask, course: Course): (World, Response) {
    Finish(cfg, w, Entry(cfg, ask, course(w.turn).now, course(w.turn).id), course)
  }

  ghost function HandleAll(cfg: Config, w: World, asks: seq<Ask>, course: Course): (World, seq<Response>)
    decreases |asks|
  {
    if asks == [] then (w, [])
    else
      var (after, response) := Handle(cfg, w, asks[0], course);
      var (end, responses) := HandleAll(cfg, after, asks[1..], course);
      (end, [response] + responses)
  }

  // ---------- repeated attempts ----------

  lemma PerformTwice(s: Store, call: Call, now: int)
    requires !IsAppend(call)
    ensures Perform(Perform(s, call, now).0, call, now).0 == Perform(s, call, now).0
  {
  }

  /** However often the wrapper repeats a call other than an audit append, the stores are as if it took effect
      once, or not at all. */
  lemma {:induction false} RepeatsActOnce(s: Store, call: Call, now: int, lapses: seq<bool>)
    requires !IsAppend(call)
    ensures AfterLapses(s, call, now, lapses) == if true in lapses then Perform(s, call, now).0 else s
    decreases |lapses|
  {
    if lapses != [] {
      PerformTwice(s, call, now);
      RepeatsActOnce(if lapses[0] then Perform(s, call, now).0 else s, call, now, lapses[1..]);
      assert lapses == [lapses[0]] + lapses[1..];
    }
  }

  function Applications(lapses: seq<bool>): nat {
    if lapses == [] then 0 else (if lapses[0] then 1 else 0) + Applications(lapses[1..])
  }

  function Copies(event: AuditEvent, n: nat): seq<AuditEvent> {
    seq(n, _ => event)
  }

  /** An audit append leaves one event for each attempt that took effect. */
  lemma {:induction false} AppendsAccumulate(s: Store, event: AuditEvent, now: int, lapses: seq<bool>)
    ensures AfterLapses(s, OnAudit(Append(event)), now, lapses)
            == s.(audit := s.audit + Copies(event, Applications(lapses)))
    decreases |lapses|
  {
    if lapses == [] {
      assert s.audit + Copies(event, 0) == s.audit;
    } else {
      var t := if lapses[0] then s.(audit := s.audit + [event]) else s;
      AppendsAccumulate(t, event, now, lapses[1..]);
      assert t.audit + Copies(event, Applications(lapses[1..])) == s.audit + Copies(event, Applications(lapses));
    }
  }

  /** A call other than an audit append, whatever its attempts: it acts once or not at all, and answers as
      its last attempt found the stores. */
  lemma ServeOnce(w: World, call: Call, course: Course)
    requires !IsAppend(call)
    ensures var turn := course(w.turn);
            var acted := Perform(w.store, call, turn.now).0;
            Serve(w, call, course)
            == (World(if turn.Applied() then acted else w.store, w.turn + 1),
                if turn.last.Works? then Perform(if true in turn.lapses then acted else w.store, call, turn.now).1
                    else Thrown)
  {
    hide Perform;
    var turn := course(w.turn);
    RepeatsActOnce(w.store, call, turn.now, turn.lapses);
    PerformTwice(w.store, call, turn.now);
  }

  /** The number of events a wrapped audit append leaves. */
  function Appended(turn: Turn): nat {
    Applications(turn.lapses) + (if turn.last.FailsClean? then 0 else 1)
  }

  lemma ServeAppend(w: World, event: AuditEvent, course: Course)
    ensures var turn := course(w.turn);
            Serve(w, OnAudit(Append(event)), course)
            == (World(w.store.(audit := w.store.audit + Copies(event, Appended(turn))), w.turn + 1),
                if turn.last.Works? then Nothing else Thrown)
  {
    var turn := course(w.turn);
    var m := Applications(turn.lapses);
    AppendsAccumulate(w.store, event, turn.now, turn.lapses);
    assert w.store.audit + Copies(event, m) + [event] == w.store.audit + Copies(event, m + 1);
  }

  lemma OneCall(cfg: Config, w: World, r: Request, course: Course)
    requires Awaits(r)
    ensures var (after, reply) := Serve(w, Await(cfg, r), course);
            Finish(cfg, w, r, course) == Finish(cfg, after, Resume(cfg, r, reply), course)
  {
    hide Serve, Await, Resume;
  }

  lemma FinishEnds(cfg: Config, w: World, response: Response, course: Course)
    ensures Finish(cfg, w, Done(response), course) == (w, response)
  {
  }

  // ---------- a request run alone is a run of the machine ----------

  /** UUIDs on offer from turn `m` to turn `h` are fresh, and the clock runs forward from turn `n` on. */
  ghost predicate Fitting(s: Sys, course: Course, m: nat, n: nat, h: nat) {
    && (forall i :: m <= i <= h ==> Unused(s, course(i).id))
    && (forall i, j :: m <= i < j <= h ==> course(i).id != course(j).id)
    && (forall i :: n <= i ==> s.clock <= course(i).now <= MAX_TIME)
    && (forall i, j :: n <= i < j ==> course(i).now <= course(j).now)
  }

  function LapseEvent(pid: nat, applied: bool): Event {
    Try(pid, if applied then RetryApplied else RetryClean)
  }

  function LastEvent(pid: nat, last: Last): Event {
    Try(pid, match last case Works => Succeeds case FailsClean => FailClean case FailsApplied => FailApplied)
  }

  /** `t` is `s` but for the stores and what history says of them. */
  ghost predicate Paused(s: Sys, t: Sys) {
    t.procs == s.procs && t.clock == s.clock && t.used == s.used
  }

  lemma LapseStep(cfg: Config, s: Sys, pid: nat, applied: bool)
    requires Waiting(s, pid)
    ensures var t := Step(cfg, s, LapseEvent(pid, applied));
            && Paused(s, t)
            && t.store == (if applied then Perform(s.store, Await(cfg, s.procs[pid]), s.clock).0 else s.store)
            && (!applied ==> t.hazyInserts == s.hazyInserts && t.hazyAudits == s.hazyAudits)
  {
    hide Perform, Await;
    assert s.procs[pid := s.procs[pid]] == s.procs;
  }

  lemma {:induction false} LapsesRun(cfg: Config, s: Sys, pid: nat, lapses: seq<bool>)
    returns (events: seq<Event>, t: Sys)
    requires Waiting(s, pid)
    ensures t == Run(cfg, s, events) && Paused(s, t)
    ensures t.store == AfterLapses(s.store, Await(cfg, s.procs[pid]), s.clock, lapses)
    ensures true !in lapses ==> t.hazyInserts == s.hazyInserts && t.hazyAudits == s.hazyAudits
    decreases |lapses|
  {
    hide Step, Perform, Await;
    if lapses == [] {
      events, t := [], s;
    } else {
      var e := LapseEvent(pid, lapses[0]);
      LapseStep(cfg, s, pid, lapses[0]);
      var rest, end := LapsesRun(cfg, Step(cfg, s, e), pid, lapses[1..]);
      events, t := [e] + rest, end;
      assert events[1..] == rest;
      assert lapses[0] in lapses;
    }
  }

  lemma LastStep(cfg: Config, s: Sys, pid: nat, last: Last)
    requires Waiting(s, pid)
    ensures var t := Step(cfg, s, LastEvent(pid, last));
            var (after, reply) := Perform(s.store, Await(cfg, s.procs[pid]), s.clock);
            && t.store == (if last.FailsClean? then s.store else after)
            && t.procs == s.procs[pid := Resume(cfg, s.procs[pid], if last.Works? then reply else Thrown)]
            && t.clock == s.clock && t.used == s.used
            && (!last.FailsApplied? ==> t.hazyInserts == s.hazyInserts && t.hazyAudits == s.hazyAudits)
  {
    hide Perform, Await, Resume;
  }

  lemma RunCons(cfg: Config, s: Sys, e: Event, events: seq<Event>)
    ensures Run(cfg, s, [e] + events) == Run(cfg, Step(cfg, s, e), events)
  {
    assert ([e] + events)[1..] == events;
  }

  lemma RunThen(cfg: Config, s: Sys, events: seq<Event>, e: Event)
    ensures Run(cfg, s, events + [e]) == Step(cfg, Run(cfg, s, events), e)
  {
    RunAppend(cfg, s, events, [e]);
    RunCons(cfg, Run(cfg, s, events), e, []);
    assert [e] + [] == [e];
  }

  lemma TickStep(cfg: Config, s: Sys, now: int)
    requires s.clock <= now <= MAX_TIME
    ensures Step(cfg, s, Tick(now)) == s.(clock := now)
  {
  }

  /** The clock moves to the turn's time and the request's pending call is served. */
  lemma CallIsRun(cfg: Config, s: Sys, pid: nat, course: Course, n: nat) returns (events: seq<Event>, t: Sys)
    requires Waiting(s, pid) && s.clock <= course(n).now <= MAX_TIME
    ensures t == Run(cfg, s, events)
    ensures var (after, reply) := Serve(World(s.store, n), Await(cfg, s.procs[pid]), course);
            && after == World(t.store, n + 1) && t.procs == s.procs[pid := Resume(cfg, s.procs[pid], reply)]
            && t.clock == course(n).now && t.used == s.used
    ensures course(n).Honest() ==> t.hazyInserts == s.hazyInserts && t.hazyAudits == s.hazyAudits
  {
    hide Perform, Await, Resume, Step;
    var turn := course(n);
    var tick := Tick(turn.now);
    var s1 := Step(cfg, s, tick);
    TickStep(cfg, s, turn.now);
    var lapsed, s2 := LapsesRun(cfg, s1, pid, turn.lapses);
    var last := LastEvent(pid, turn.last);
    LastStep(cfg, s2, pid, turn.last);
    t := Step(cfg, s2, last);
    events := [tick] + (lapsed + [last]);
    RunCons(cfg, s, tick, lapsed + [last]);
    RunThen(cfg, s1, lapsed, last);
  }

  /** Where a request stands decides from which turn on UUIDs must be fresh: one awaiting a call has drawn this
      turn's. */
  function FreshFrom(r: Request, n: nat): nat {
    if Awaits(r) then n + 1 else n
  }

  lemma DrawIsRun(cfg: Config, s: Sys, pid: nat, course: Course, n: nat, h: nat) returns (events: seq<Event>, t: Sys)
    requires Drawing(s, pid) && Fitting(s, course, n, n, h) && n <= h
    ensures t == Run(cfg, s, events) && Fitting(t, course, n + 1, n, h) && t.store == s.store
    ensures t.procs == s.procs[pid := Signing(Signs.Draw(s.procs[pid].g, course(n).now, course(n).id))]
    ensures t.hazyInserts == s.hazyInserts && t.hazyAudits == s.hazyAudits
  {
    hide TryStep, StartStep, CanonicalUuid, Run;
    var tick, draw := Tick(course(n).now), Draw(pid, course(n).id);
    var s1 := Step(cfg, s, tick);
    t := Step(cfg, s1, draw);
    events := [tick] + [draw];
    RunThen(cfg, s, [tick], draw);
    RunThen(cfg, s, [], tick);
    assert [] + [tick] == [tick];
    NoEvents(cfg, s);
  }

  /** Every call takes a turn. */
  lemma {:induction false} FinishAdvances(cfg: Config, w: World, r: Request, course: Course)
    ensures w.turn <= Finish(cfg, w, r, course).0.turn
    ensures !r.Done? ==> w.turn < Finish(cfg, w, r, course).0.turn
    decreases Rank(r)
  {
    hide Perform, Await, Resume;
    if !r.Done? {
      if !Awaits(r) {
        FinishAdvances(cfg, w, Signing(Signs.Draw(r.g, course(w.turn).now, course(w.turn).id)), course);
      } else {
        var (after, reply) := Serve(w, Await(cfg, r), course);
        ResumeDescends(cfg, r, reply);
        FinishAdvances(cfg, after, Resume(cfg, r, reply), course);
      }
    }
  }

  lemma {:induction false} FinishIsRun(cfg: Config, s: Sys, pid: nat, course: Course, n: nat, h: nat)
    returns (events: seq<Event>, t: Sys)
    requires pid in s.procs && Fitting(s, course, FreshFrom(s.procs[pid], n), n, h)
    requires Finish(cfg, World(s.store, n), s.procs[pid], course).0.turn <= h
    ensures t == Run(cfg, s, events)
    ensures var (end, response) := Finish(cfg, World(s.store, n), s.procs[pid], course);
            && t.store == end.store && t.procs == s.procs[pid := Done(response)]
            && Fitting(t, course, end.turn, end.turn, h)
    ensures Honest(course) ==> t.hazyInserts == s.hazyInserts && t.hazyAudits == s.hazyAudits
    decreases Rank(s.procs[pid])
  {
    hide Serve, Resume, Await, Step, Run;
    FinishAdvances(cfg, World(s.store, n), s.procs[pid], course);
    var r := s.procs[pid];
    var mid: Sys, ev: seq<Event>, rest: seq<Event>;
    if r.Done? {
      events, t := [], s;
      NoEvents(cfg, s);
      assert s.procs[pid := r] == s.procs;
    } else {
      if !Awaits(r) {
        ev, mid := DrawIsRun(cfg, s, pid, course, n, h);
        rest, t := FinishIsRun(cfg, mid, pid, course, n, h);
      } else {
        ev, mid := CallIsRun(cfg, s, pid, course, n);
        ResumeDescends(cfg, r, Serve(World(s.store, n), Await(cfg, r), course).1);
        rest, t := FinishIsRun(cfg, mid, pid, course, n + 1, h);
      }
      events := ev + rest;
      RunAppend(cfg, s, ev, rest);
    }
  }

  lemma StartStepOf(cfg: Config, s: Sys, pid: nat, ask: Ask, id: string)
    requires pid !in s.procs && Unused(s, id)
    ensures var t := Step(cfg, s, Start(pid, ask, id));
            && t.store == s.store && t.procs == s.procs[pid := Entry(cfg, ask, s.clock, id)] && t.clock == s.clock
            && t.used == (if t.procs[pid].Upping? then s.used + {id} else s.used)
            && t.hazyInserts == s.hazyInserts && t.hazyAudits == s.hazyAudits
  {
    hide Entry;
  }

  lemma EntryAwaits(cfg: Config, ask: Ask, now: int, id: string)
    ensures var r := Entry(cfg, ask, now, id); (r.Done? || Awaits(r)) && !(r.Signing? && r.g.Drawing?)
  {
  }

  /** A request handled alone is a run of the machine, so everything proved of all runs holds of it. */
  lemma HandleIsRun(cfg: Config, s: Sys, pid: nat, ask: Ask, course: Course, n: nat, h: nat)
    returns (events: seq<Event>, t: Sys)
    requires pid !in s.procs && Fitting(s, course, n, n, h)
    requires Handle(cfg, World(s.store, n), ask, course).0.turn <= h
    ensures t == Run(cfg, s, events)
    ensures var (end, response) := Handle(cfg, World(s.store, n), ask, course);
            && t.store == end.store && t.procs == s.procs[pid := Done(response)]
            && Fitting(t, course, end.turn, end.turn, h)
    ensures Honest(course) ==> t.hazyInserts == s.hazyInserts && t.hazyAudits == s.hazyAudits
  {
    hide Step, Run, Finish, Entry, CanonicalUuid;
    var tick, start := Tick(course(n).now), Start(pid, ask, course(n).id);
    var r := Entry(cfg, ask, course(n).now, course(n).id);
    EntryAwaits(cfg, ask, course(n).now, course(n).id);
    FinishAdvances(cfg, World(s.store, n), r, course);
    TickStep(cfg, s, course(n).now);
    var s1 := Step(cfg, s, tick);
    StartStepOf(cfg, s1, pid, ask, course(n).id);
    var s2 := Step(cfg, s1, start);
    var rest, end := FinishIsRun(cfg, s2, pid, course, n, h);
    t := end;
    events := [tick] + ([start] + rest);
    RunCons(cfg, s, tick, [start] + rest);
    RunCons(cfg, s1, start, rest);
  }

  /** Requests handled one after the other are a run of the machine; request number `i` takes the place `first + i`. */
  lemma {:induction false} HandleAllIsRun(
      cfg: Config, s: Sys, first: nat, asks: seq<Ask>, course: Course, n: nat, h: nat)
    returns (events: seq<Event>, t: Sys)
    requires (forall pid :: pid in s.procs ==> pid < first) && Fitting(s, course, n, n, h)
    requires HandleAll(cfg, World(s.store, n), asks, course).0.turn <= h
    ensures t == Run(cfg, s, events) && t.store == HandleAll(cfg, World(s.store, n), asks, course).0.store
    ensures Honest(course) ==> t.hazyInserts == s.hazyInserts && t.hazyAudits == s.hazyAudits
    decreases |asks|
  {
    hide Handle, Run;
    if asks == [] {
      events, t := [], s;
      NoEvents(cfg, s);
    } else {
      HandleAllAdvances(cfg, Handle(cfg, World(s.store, n), asks[0], course).0, asks[1..], course);
      var ev, mid := HandleIsRun(cfg, s, first, asks[0], course, n, h);
      var rest, end := HandleAllIsRun(cfg, mid, first + 1, asks[1..], course,
          Handle(cfg, World(s.store, n), asks[0], course).0.turn, h);
      events, t := ev + rest, end;
      RunAppend(cfg, s, ev, rest);
    }
  }

  lemma HandleAdvances(cfg: Config, w: World, ask: Ask, course: Course)
    ensures w.turn <= Handle(cfg, w, ask, course).0.turn
  {
    FinishAdvances(cfg, w, Entry(cfg, ask, course(w.turn).now, course(w.turn).id), course);
  }

  lemma {:induction false} HandleAllAdvances(cfg: Config, w: World, asks: seq<Ask>, course: Course)
    ensures w.turn <= HandleAll(cfg, w, asks, course).0.turn
    decreases |asks|
  {
    if asks != [] {
      HandleAdvances(cfg, w, asks[0], course);
      HandleAllAdvances(cfg, Handle(cfg, w, asks[0], course).0, asks[1..], course);
    }
  }
}
