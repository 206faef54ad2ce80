/** Looking back along a run: how a request came to stand where it stands. */
module Traces {
  import opened Codec
  import opened Tables
  import opened Domain
  import opened Requests
  import opened System
  import Signs
  import Downloads
  import Histories

  lemma RunSnoc(cfg: Config, s: Sys, events: seq<Event>)
    requires events != []
    ensures var n := |events| - 1; Run(cfg, s, events) == Step(cfg, Run(cfg, s, events[..n]), events[n])
  {
    var n := |events| - 1;
    var last := [events[n]];
    assert events == events[..n] + last;
    RunAppend(cfg, s, events[..n], last);
    var t := Run(cfg, s, events[..n]);
    assert last[1..] == [];
    assert Run(cfg, Step(cfg, t, last[0]), last[1..]) == Step(cfg, t, last[0]);
  }

  /** The state in which event `k` of a run from the empty system occurs. */
  ghost function At(cfg: Config, events: seq<Event>, k: nat): Sys
    requires k <= |events|
  {
    Run(cfg, Init, events[..k])
  }

  lemma AtNext(cfg: Config, events: seq<Event>, k: nat)
    requires k < |events|
    ensures At(cfg, events, k + 1) == Step(cfg, At(cfg, events, k), events[k])
  {
    RunSnoc(cfg, Init, events[..k + 1]);
    assert events[..k + 1][..k] == events[..k];
  }

  /** What request `pid` is when event `k` comes. */
  ghost predicate Stands(cfg: Config, events: seq<Event>, k: nat, pid: nat, r: Request) {
    k <= |events| && pid in At(cfg, events, k).procs && At(cfg, events, k).procs[pid] == r
  }

  /** Event `i` is the arrival of request `pid`. */
  ghost predicate StartedAt(cfg: Config, events: seq<Event>, i: nat, pid: nat, ask: Ask) {
    && i < |events| && events[i].Start? && events[i].pid == pid && events[i].ask == ask
    && pid !in At(cfg, events, i).procs
  }

  /** At event `k` request `pid`, standing at `r`, gets the answer to its call. */
  ghost predicate ServedAt(cfg: Config, events: seq<Event>, k: nat, pid: nat, r: Request) {
    k < |events| && events[k] == Try(pid, Succeeds) && Stands(cfg, events, k, pid, r) && Awaits(r)
  }

  ghost function ReplyAt(cfg: Config, events: seq<Event>, k: nat, r: Request): Reply
    requires k <= |events| && Awaits(r)
  {
    var s := At(cfg, events, k);
    Perform(s.store, Await(cfg, r), s.clock).1
  }

  /** At event `k` request `pid` read the clock and drew its link's id. */
  ghost predicate DrawnAt(cfg: Config, events: seq<Event>, k: nat, pid: nat, r: Request) {
    && k < |events| && events[k].Draw? && events[k].pid == pid
    && var s := At(cfg, events, k);
       Drawing(s, pid) && r == Signing(Signs.Draw(s.procs[pid].g, s.clock, events[k].newId))
  }

  /** Event `k` made request `pid` what it is at `r`: by its arrival, by an answer, or by a draw, a failure or a
      crash. */
  ghost predicate EntersAt(cfg: Config, events: seq<Event>, k: nat, pid: nat, r: Request) {
    && k < |events|
    && var s := At(cfg, events, k);
       if pid !in s.procs then
         events[k].Start? && events[k].pid == pid && r == Entry(cfg, events[k].ask, s.clock, events[k].newId)
       else
         var before := s.procs[pid];
         || r == Done(Crashed)
         || DrawnAt(cfg, events, k, pid, r)
         || (Awaits(before) && r == Resume(cfg, before, Thrown))
         || (ServedAt(cfg, events, k, pid, before) && r == Resume(cfg, before, ReplyAt(cfg, events, k, before)))
  }

  /** One event's effect on one request. */
  lemma OneEvent(cfg: Config, events: seq<Event>, k: nat, pid: nat, r: Request)
    requires k < |events| && Stands(cfg, events, k + 1, pid, r)
    ensures Stands(cfg, events, k, pid, r) || EntersAt(cfg, events, k, pid, r)
  {
    hide Run, Entry, Resume, Await, Perform;
    AtNext(cfg, events, k);
    var s := At(cfg, events, k);
    if pid in s.procs {
      StepOfRequest(cfg, s, events[k], pid);
      hide Step;
    }
  }

  /** Every request, in flight or finished, was made what it is by some earlier event. */
  lemma {:induction false} CameFrom(cfg: Config, events: seq<Event>, n: nat, pid: nat, r: Request) returns (k: nat)
    requires Stands(cfg, events, n, pid, r)
    ensures k < n && EntersAt(cfg, events, k, pid, r)
  {
    assert Run(cfg, Init, []).procs == map[];
    hide Run, EntersAt;
    assert n > 0;
    OneEvent(cfg, events, n - 1, pid, r);
    k := n - 1;
    if !EntersAt(cfg, events, n - 1, pid, r) {
      k := CameFrom(cfg, events, n - 1, pid, r);
    }
  }

  // ---------- a download, from its answer back to its arrival ----------

  lemma DownloadCameFrom(cfg: Config, events: seq<Event>, n: nat, pid: nat, w: Downloads.Step) returns (k: nat)
    requires Stands(cfg, events, n, pid, Downloading(w))
    ensures k < n
    ensures if w.Lookup? then
              && k < |events| && events[k].Start? && StartedAt(cfg, events, k, pid, events[k].ask)
                   && events[k].ask.AskDownload?
              && var AskDownload(fileId, expires, signature) := events[k].ask;
                 Downloads.Begin(cfg, fileId, expires, signature, At(cfg, events, k).clock) == Goes(w)
            else
              exists v :: ServedAt(cfg, events, k, pid, Downloading(v))
                && Downloads.Resume(v, ReplyAt(cfg, events, k, Downloading(v))) == Goes(w)
  {
    hide Run, Perform, Step;
    k := CameFrom(cfg, events, n, pid, Downloading(w));
  }

  lemma AnswerCameFrom(cfg: Config, events: seq<Event>, n: nat, pid: nat, response: Response) returns (k: nat)
    requires Stands(cfg, events, n, pid, Done(response)) && response.Downloaded?
    ensures k < n
    ensures exists v :: ServedAt(cfg, events, k, pid, Downloading(v))
              && Downloads.Resume(v, ReplyAt(cfg, events, k, Downloading(v))) == Ends(response)
  {
    hide Run, Perform, Step;
    k := CameFrom(cfg, events, n, pid, Done(response));
  }

  // ---------- a listing, from its answer back to its arrival ----------

  lemma InquiryCameFrom(cfg: Config, events: seq<Event>, n: nat, pid: nat, h: Histories.Step) returns (k: nat)
    requires Stands(cfg, events, n, pid, Reviewing(h))
    ensures k < n
    ensures if h.Lookup? then StartedAt(cfg, events, k, pid, AskHistory(h.fileId, h.userId)) && IsUuid(h.fileId)
            else exists g :: ServedAt(cfg, events, k, pid, Reviewing(g))
                   && Histories.Resume(g, ReplyAt(cfg, events, k, Reviewing(g))) == Goes(h)
  {
    hide Run, Perform, Step;
    k := CameFrom(cfg, events, n, pid, Reviewing(h));
  }

  lemma ListingCameFrom(cfg: Config, events: seq<Event>, n: nat, pid: nat, response: Response) returns (k: nat)
    requires Stands(cfg, events, n, pid, Done(response)) && response.History?
    ensures k < n
    ensures exists g :: ServedAt(cfg, events, k, pid, Reviewing(g))
              && Histories.Resume(g, ReplyAt(cfg, events, k, Reviewing(g))) == Ends(response)
  {
    hide Run, Perform, Step;
    k := CameFrom(cfg, events, n, pid, Done(response));
  }
}
