/** When the log's last name for a file is sure to be the row's, although renames of it have yet to be logged. */
module RacingRenames {
  import opened Tables
  import opened Domain
  import opened Requests
  import opened System
  import Replay

  /** A rename of `f` has updated the row and has yet to be logged. */
  predicate Unlogged(r: Request, f: string) {
    r.Renaming? && r.n.Logging? && r.n.file.id == f
  }

  ghost function Pending(s: Sys, f: string): set<nat> {
    set q | q in s.procs && Unlogged(s.procs[q], f)
  }

  /** The name that a rename yet to be logged gave the row. */
  function NameSet(s: Sys, q: nat): string {
    if q in s.procs && s.procs[q].Renaming? && s.procs[q].n.Logging? then s.procs[q].n.filename else ""
  }

  /** `order` lists the members of `all`, each once. */
  ghost predicate Orders(order: seq<nat>, all: set<nat>) {
    (forall q :: q in order <==> q in all) && forall i, j :: 0 <= i < j < |order| ==> order[i] != order[j]
  }

  /** The pending appends work, one after the other. */
  function Deliveries(order: seq<nat>): seq<Event> {
    seq(|order|, i requires 0 <= i < |order| => Try(order[i], Succeeds))
  }

  ghost predicate Agrees(s: Sys, f: string, uploadedAs: string) {
    f in s.store.files && Replay.NameFrom(s.store.audit, f, uploadedAs) == s.store.files[f].filename
  }

  /** One append works: the log gains that rename, and the others still stand where they stood. */
  lemma OneDelivery(cfg: Config, s: Sys, f: string, q: nat, uploadedAs: string)
    requires q in Pending(s, f)
    ensures var t := Step(cfg, s, Try(q, Succeeds));
            && t.store.files == s.store.files && Pending(t, f) == Pending(s, f) - {q}
            && (forall p :: p in Pending(t, f) ==> t.procs[p] == s.procs[p])
            && Replay.NameFrom(t.store.audit, f, uploadedAs) == NameSet(s, q)
  {
    var n := s.procs[q].n;
    var t := Step(cfg, s, Try(q, Succeeds));
    assert t.store.audit == s.store.audit + [AuditEvent(n.file.id, n.userId, FileRenamed(n.file.filename, n.filename))];
    assert t.procs[q].Done?;
  }

  /** After all of them, in whatever order, the log's last name is that of the last one delivered. */
  lemma {:induction false} AllDelivered(cfg: Config, s: Sys, f: string, order: seq<nat>, uploadedAs: string)
    requires Orders(order, Pending(s, f))
    ensures var t := Run(cfg, s, Deliveries(order));
            && t.store.files == s.store.files && Pending(t, f) == {}
            && Replay.NameFrom(t.store.audit, f, uploadedAs)
               == if order == [] then Replay.NameFrom(s.store.audit, f, uploadedAs) else NameSet(s, order[|order| - 1])
    decreases |order|
  {
    hide Step, Replay.NameFrom;
    if order == [] {
      assert forall q :: q in Pending(s, f) ==> q in order;
    } else {
      var q, rest := order[0], order[1..];
      var t := Step(cfg, s, Try(q, Succeeds));
      OneDelivery(cfg, s, f, q, uploadedAs);
      RestOrders(order, Pending(s, f));
      AllDelivered(cfg, t, f, rest, uploadedAs);
      OrderMembers(rest, Pending(t, f));
      assert Deliveries(order)[1..] == Deliveries(rest);
    }
  }

  lemma RestOrders(order: seq<nat>, all: set<nat>)
    requires Orders(order, all) && order != []
    ensures Orders(order[1..], all - {order[0]})
  {
    assert order == [order[0]] + order[1..];
  }

  lemma {:induction false} SomeOrder(all: set<nat>) returns (order: seq<nat>)
    ensures Orders(order, all)
    decreases all
  {
    order := [];
    if all != {} {
      var q :| q in all;
      var rest := SomeOrder(all - {q});
      order := rest + [q];
    }
  }

  /** Any member can come last. */
  lemma LastInOrder(all: set<nat>, q: nat) returns (order: seq<nat>)
    requires q in all
    ensures Orders(order, all) && order != [] && order[|order| - 1] == q
  {
    var rest := SomeOrder(all - {q});
    order := rest + [q];
  }

  /** What a look at the service tells: every rename yet to be logged set the name the row has now; or none is, and the
      log agrees already. */
  ghost predicate SetToAgree(s: Sys, f: string, uploadedAs: string)
    requires f in s.store.files
  {
    if Pending(s, f) == {} then Agrees(s, f, uploadedAs)
    else forall q :: q in Pending(s, f) ==> NameSet(s, q) == s.store.files[f].filename
  }

  /** Delivering the pending appends in any order leaves the log agreeing with the row, if and only if that holds. */
  lemma RenamesAgreeIff(cfg: Config, s: Sys, f: string)
    requires f in s.born && f in s.store.files
    ensures SetToAgree(s, f, s.born[f].upload.filename)
            <==> forall order :: Orders(order, Pending(s, f)) ==>
                   Agrees(Run(cfg, s, Deliveries(order)), f, s.born[f].upload.filename)
  {
    hide Run, Replay.NameFrom, Pending, Orders, NameSet;
    var name := s.born[f].upload.filename;
    forall order | Orders(order, Pending(s, f))
      ensures SetToAgree(s, f, name) ==> Agrees(Run(cfg, s, Deliveries(order)), f, name)
    {
      AllDelivered(cfg, s, f, order, name);
      OrderMembers(order, Pending(s, f));
    }
    if !SetToAgree(s, f, name) {
      var order: seq<nat>;
      if Pending(s, f) == {} {
        order := SomeOrder({});
      } else {
        var q :| q in Pending(s, f) && NameSet(s, q) != s.store.files[f].filename;
        order := LastInOrder(Pending(s, f), q);
      }
      AllDelivered(cfg, s, f, order, name);
      OrderMembers(order, Pending(s, f));
    }
  }

  lemma OrderMembers(order: seq<nat>, all: set<nat>)
    requires Orders(order, all)
    ensures all == {} <==> order == []
    ensures order != [] ==> order[|order| - 1] in all
  {
    if order != [] {
      assert order[|order| - 1] in order;
    }
    if q :| q in all {
      assert q in order;
    }
  }
}
