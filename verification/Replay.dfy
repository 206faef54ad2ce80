/** The audit log replays to the tables: over any sequential run without failures, folding the log gives back the
    filenames, the links, the revocations and the deletions. */
module Replay {
  import opened Codec
  import opened Tables
  import opened Domain
  import opened Requests
  import opened System
  import opened Invariants
  import opened Preservation
  import opened Sequential
  import opened Accounting

  // ---------- what the log says ----------

  /** Reading the log up to now, `f` was deleted. */
  predicate SaysDeleted(audit: seq<AuditEvent>, f: string) {
    exists i :: 0 <= i < |audit| && audit[i].fileId == f && audit[i].what.FileDeleted?
  }

  predicate SaysRevoked(audit: seq<AuditEvent>, f: string, l: string) {
    exists i :: 0 <= i < |audit| && audit[i].fileId == f && audit[i].what.LinkRevoked?
        && Canon(audit[i].what.linkId) == l
  }

  /** The last rename's name, or the name the file was uploaded with. */
  function NameFrom(audit: seq<AuditEvent>, f: string, uploadedAs: string): string {
    if audit == [] then uploadedAs
    else
      var last := audit[|audit| - 1];
      if last.fileId == f && last.what.FileRenamed? then last.what.filename
      else NameFrom(audit[..|audit| - 1], f, uploadedAs)
  }

  /** Each rename starts from the name the log had reached. */
  predicate Chained(audit: seq<AuditEvent>, f: string, uploadedAs: string) {
    audit == [] ||
      var before, last := audit[..|audit| - 1], audit[|audit| - 1];
      && Chained(before, f, uploadedAs)
      && (last.fileId == f && last.what.FileRenamed? ==> last.what.previousFilename == NameFrom(before, f, uploadedAs))
  }

  /** How many links with this ttl and expiry the log says were generated for `f`. */
  function LinksSaid(audit: seq<AuditEvent>, f: string, ttlSeconds: int, expiresAt: int): nat {
    if audit == [] then 0
    else
      var last := audit[|audit| - 1];
      LinksSaid(audit[..|audit| - 1], f, ttlSeconds, expiresAt)
      + (if last.fileId == f && last.what == LinkGenerated(ttlSeconds, expiresAt) then 1 else 0)
  }

  /** The rows of the table that the log should account for. */
  function LinkRows(links: map<string, LinkRow>, f: string, ttlSeconds: int, expiresAt: int): set<string> {
    set l | l in links && IsLink(links[l], f, ttlSeconds, expiresAt)
  }

  // ---------- the log says what the tables hold ----------

  ghost predicate NameTold(s: Store, f: string, uploadedAs: string) {
    Chained(s.audit, f, uploadedAs) && (f in s.files ==> NameFrom(s.audit, f, uploadedAs) == s.files[f].filename)
  }

  ghost predicate LinksTold(s: Store, f: string) {
    forall ttl, e :: LinksSaid(s.audit, f, ttl, e) == |LinkRows(s.links, f, ttl, e)|
  }

  ghost predicate RevocationsTold(s: Store, f: string) {
    forall l :: SaysRevoked(s.audit, f, l) <==> l in s.links && s.links[l].fileId == f && s.links[l].revokedAt.Some?
  }

  ghost predicate LogTells(s: Store, f: string, uploadedAs: string) {
    && (f in s.files <==> !SaysDeleted(s.audit, f))
    && NameTold(s, f, uploadedAs)
    && (f in s.files ==> LinksTold(s, f) && RevocationsTold(s, f))
  }

  /** `names`: the files uploaded so far, with the names they were uploaded under. */
  ghost predicate LogTellsAll(s: Store, names: map<string, string>) {
    && s.files.Keys <= names.Keys
    && (forall l :: l in s.links ==> s.links[l].fileId in s.files)
    && (forall i :: 0 <= i < |s.audit| ==> s.audit[i].fileId in names)
    && (forall f :: f in names ==> LogTells(s, f, names[f]))
  }

  // ---------- one more event ----------

  lemma SaysMore(audit: seq<AuditEvent>, event: AuditEvent, f: string)
    ensures var more := audit + [event];
            && (SaysDeleted(more, f) <==> SaysDeleted(audit, f) || (event.fileId == f && event.what.FileDeleted?))
            && (forall l :: SaysRevoked(more, f, l) <==>
                  SaysRevoked(audit, f, l) || (event.fileId == f && event.what.LinkRevoked?
                      && Canon(event.what.linkId) == l))
  {
    hide Canon;
    var more := audit + [event];
    assert more[|audit|] == event;
    assert forall i :: 0 <= i < |audit| ==> more[i] == audit[i];
  }

  lemma FoldsMore(audit: seq<AuditEvent>, event: AuditEvent, f: string, uploadedAs: string)
    ensures var more, mine := audit + [event], event.fileId == f;
            && NameFrom(more, f, uploadedAs)
               == (if mine && event.what.FileRenamed? then event.what.filename else NameFrom(audit, f, uploadedAs))
            && (Chained(more, f, uploadedAs) <==>
                  Chained(audit, f, uploadedAs)
                  && (mine && event.what.FileRenamed? ==>
                       event.what.previousFilename == NameFrom(audit, f, uploadedAs)))
            && (forall ttl, e :: LinksSaid(more, f, ttl, e)
                  == LinksSaid(audit, f, ttl, e) + (if mine && event.what == LinkGenerated(ttl, e) then 1 else 0))
  {
    assert (audit + [event])[..|audit|] == audit;
  }

  lemma NameStaysTold(s: Store, t: Store, event: AuditEvent, f: string, uploadedAs: string)
    requires Mirrors(s, t, event) && NameTold(s, f, uploadedAs)
    ensures NameTold(t, f, uploadedAs)
  {
    hide NameFrom, Chained, LinksSaid;
    FoldsMore(s.audit, event, f, uploadedAs);
  }

  lemma RowsAfterInsert(links: map<string, LinkRow>, l: string, link: LinkRow, f: string, ttl: int, e: int)
    requires l !in links
    ensures |LinkRows(links[l := link], f, ttl, e)|
            == |LinkRows(links, f, ttl, e)| + (if IsLink(link, f, ttl, e) then 1 else 0)
  {
    var rows := LinkRows(links, f, ttl, e);
    assert LinkRows(links[l := link], f, ttl, e) == if IsLink(link, f, ttl, e) then rows + {l} else rows;
  }

  lemma RowsOtherwise(s: Store, t: Store, event: AuditEvent, f: string, ttl: int, e: int)
    requires Mirrors(s, t, event) && !event.what.LinkGenerated? && f in t.files
    ensures LinkRows(t.links, f, ttl, e) == LinkRows(s.links, f, ttl, e)
  {
    hide Canon;
  }

  lemma LinksStayTold(s: Store, t: Store, event: AuditEvent, f: string)
    requires Mirrors(s, t, event) && LinksTold(s, f) && f in t.files
    ensures LinksTold(t, f)
  {
    hide NameFrom, Chained, LinksSaid, LinkRows, Canon;
    FoldsMore(s.audit, event, f, "");
    forall ttl, e
      ensures LinksSaid(t.audit, f, ttl, e) == |LinkRows(t.links, f, ttl, e)|
    {
      if event.what.LinkGenerated? {
        var l :| l !in s.links && l in t.links && t.links == s.links[l := t.links[l]]
                 && IsLink(t.links[l], event.fileId, event.what.ttlSeconds, event.what.expiresAt);
        RowsAfterInsert(s.links, l, t.links[l], f, ttl, e);
      } else {
        RowsOtherwise(s, t, event, f, ttl, e);
      }
    }
  }

  lemma RevocationsStayTold(s: Store, t: Store, event: AuditEvent, f: string)
    requires Mirrors(s, t, event) && RevocationsTold(s, f) && f in t.files
    ensures RevocationsTold(t, f)
  {
    hide Canon, SaysRevoked, SaysDeleted;
    SaysMore(s.audit, event, f);
  }

  lemma EventStaysTold(s: Store, t: Store, event: AuditEvent, f: string, uploadedAs: string)
    requires Mirrors(s, t, event) && LogTells(s, f, uploadedAs)
    ensures LogTells(t, f, uploadedAs)
  {
    hide NameTold, LinksTold, RevocationsTold, SaysDeleted, SaysRevoked, Canon;
    SaysMore(s.audit, event, f);
    NameStaysTold(s, t, event, f, uploadedAs);
    if f in t.files {
      LinksStayTold(s, t, event, f);
      RevocationsStayTold(s, t, event, f);
    }
  }

  lemma LinkFilesStay(s: Store, t: Store, event: AuditEvent)
    requires Mirrors(s, t, event) && forall l :: l in s.links ==> s.links[l].fileId in s.files
    ensures forall l :: l in t.links ==> t.links[l].fileId in t.files
  {
    hide Canon;
  }

  lemma EventKeepsTelling(s: Store, t: Store, event: AuditEvent, names: map<string, string>)
    requires LogTellsAll(s, names) && Mirrors(s, t, event)
    ensures LogTellsAll(t, names)
  {
    LinkFilesStay(s, t, event);
    forall f | f in names
      ensures LogTells(t, f, names[f])
    {
      EventStaysTold(s, t, event, f, names[f]);
    }
    hide LogTells, Canon;
  }

  // ---------- a new file ----------

  lemma {:induction false} SilentLog(audit: seq<AuditEvent>, f: string, uploadedAs: string)
    requires forall i :: 0 <= i < |audit| ==> audit[i].fileId != f
    ensures NameFrom(audit, f, uploadedAs) == uploadedAs && Chained(audit, f, uploadedAs)
    ensures forall ttl, e :: LinksSaid(audit, f, ttl, e) == 0
    decreases |audit|
  {
    if audit != [] {
      SilentLog(audit[..|audit| - 1], f, uploadedAs);
    }
  }

  lemma NewFileTold(s: Store, t: Store, row: FileRow, names: map<string, string>)
    requires LogTellsAll(s, names) && Adds(s, t, row) && row.id !in names
    ensures LogTells(t, row.id, row.filename)
  {
    hide LogTells;
    SilentLog(t.audit, row.id, row.filename);
    forall ttl, e
      ensures LinkRows(t.links, row.id, ttl, e) == {}
    {
    }
    NothingSaid(s, t, row, names);
  }

  lemma NothingSaid(s: Store, t: Store, row: FileRow, names: map<string, string>)
    requires (forall i :: 0 <= i < |s.audit| ==> s.audit[i].fileId in names) && Adds(s, t, row) && row.id !in names
    requires forall l :: l in s.links ==> s.links[l].fileId in s.files
    requires NameFrom(t.audit, row.id, row.filename) == row.filename && Chained(t.audit, row.id, row.filename)
    requires forall ttl, e :: LinksSaid(t.audit, row.id, ttl, e) == 0
    requires forall ttl, e :: LinkRows(t.links, row.id, ttl, e) == {}
    ensures LogTells(t, row.id, row.filename)
  {
    hide NameFrom, Chained, LinksSaid, LinkRows, Canon;
  }

  lemma OldFileTold(s: Store, t: Store, row: FileRow, f: string, uploadedAs: string)
    requires LogTells(s, f, uploadedAs) && Adds(s, t, row) && f != row.id
    ensures LogTells(t, f, uploadedAs)
  {
    hide NameFrom, Chained, LinksSaid, SaysDeleted, SaysRevoked;
  }

  lemma UploadKeepsTelling(s: Store, t: Store, row: FileRow, names: map<string, string>)
    requires LogTellsAll(s, names) && Adds(s, t, row) && row.id !in names
    ensures LogTellsAll(t, names[row.id := row.filename])
  {
    hide LogTells;
    NewFileTold(s, t, row, names);
    forall f | f in names
      ensures LogTells(t, f, names[f])
    {
      OldFileTold(s, t, row, f, names[f]);
    }
  }

  // ---------- over runs ----------

  /** The files the responses say were uploaded, with their names. */
  function NamesAfter(names: map<string, string>, responses: seq<Response>): map<string, string>
    decreases |responses|
  {
    if responses == [] then names
    else if responses[0].Uploaded?
        then NamesAfter(names[responses[0].row.id := responses[0].row.filename], responses[1..])
    else NamesAfter(names, responses[1..])
  }

  lemma OneKeepsTelling(s: Store, t: Store, ask: Ask, response: Response, names: map<string, string>)
    requires LogTellsAll(s, names) && Accounted(s, t, ask, response)
    requires response.Uploaded? ==> response.row.id !in names
    ensures LogTellsAll(t, NamesAfter(names, [response]))
  {
    hide Mirrors;
    assert [response][1..] == [];
    if response.Uploaded? {
      UploadKeepsTelling(s, t, response.row, names);
    } else if t != s {
      EventKeepsTelling(s, t, t.audit[|t.audit| - 1], names);
    }
  }

  lemma {:induction false} RunKeepsTelling(
      cfg: Config, s: Sys, first: nat, asks: seq<Ask>, course: Course, n: nat, h: nat, names: map<string, string>)
    requires ValidConfig(cfg) && Inv(cfg, s) && Calm(course)
    requires (forall pid :: pid in s.procs ==> pid < first) && Fitting(s, course, n, n, h)
    requires HandleAll(cfg, World(s.store, n), asks, course).0.turn <= h
    requires LogTellsAll(s.store, names) && forall i :: n <= i <= h ==> course(i).id !in names
    ensures var (end, responses) := HandleAll(cfg, World(s.store, n), asks, course);
            LogTellsAll(end.store, NamesAfter(names, responses))
    decreases |asks|
  {
    hide Handle, Inv, LogTellsAll, Accounted;
    if asks != [] {
      var w := World(s.store, n);
      var (mid, response) := Handle(cfg, w, asks[0], course);
      HandleAllAdvances(cfg, mid, asks[1..], course);
      HandleAdvances(cfg, w, asks[0], course);
      EveryChangeAccounted(cfg, s, n, asks[0], course);
      OneKeepsTelling(s.store, mid.store, asks[0], response, names);
      var events, t := HandleIsRun(cfg, s, first, asks[0], course, n, h);
      RunKeepsInv(cfg, s, events);
      UploadTakesTurn(cfg, w, asks[0], course);
      var after := NamesAfter(names, [response]);
      assert [response][1..] == [];
      RunKeepsTelling(cfg, t, first + 1, asks[1..], course, mid.turn, h, after);
      NamesCompose(names, response, HandleAll(cfg, mid, asks[1..], course).1);
    }
  }

  lemma NamesCompose(names: map<string, string>, response: Response, rest: seq<Response>)
    ensures NamesAfter(names, [response] + rest) == NamesAfter(NamesAfter(names, [response]), rest)
  {
    assert ([response] + rest)[1..] == rest && [response][1..] == [];
  }

  /** An upload that succeeds has moved on from the turn its id was drawn at. */
  lemma UploadTakesTurn(cfg: Config, w: World, ask: Ask, course: Course)
    ensures var (end, response) := Handle(cfg, w, ask, course); response.Uploaded? ==> w.turn < end.turn
  {
    var r := Entry(cfg, ask, course(w.turn).now, course(w.turn).id);
    FinishAdvances(cfg, w, r, course);
  }

  lemma DeathsTold(s: Store, names: map<string, string>)
    requires LogTellsAll(s, names)
    ensures forall f :: SaysDeleted(s.audit, f) <==> f in names && f !in s.files
  {
    hide NameTold, LinksTold, RevocationsTold;
    forall f
      ensures SaysDeleted(s.audit, f) <==> f in names && f !in s.files
    {
      if f in names {
        assert LogTells(s, f, names[f]);
      }
    }
  }

  /** From an empty service, after any sequence of requests handled one after the other without failures: the log speaks
      only of files that were uploaded, the files gone are exactly those with a deletion event, and for each live file
      the log gives its current name, each rename starting from the name before, exactly its links by ttl and expiry,
      and exactly its revoked link ids. */
  lemma LogReplaysToTables(cfg: Config, asks: seq<Ask>, course: Course, h: nat)
    requires ValidConfig(cfg) && Calm(course) && Fitting(Init, course, 0, 0, h)
    requires HandleAll(cfg, World(EmptyStore, 0), asks, course).0.turn <= h
    ensures var (end, responses) := HandleAll(cfg, World(EmptyStore, 0), asks, course);
            var names := NamesAfter(map[], responses);
            && end.store.files.Keys <= names.Keys
            && (forall i :: 0 <= i < |end.store.audit| ==> end.store.audit[i].fileId in names)
            && (forall f :: SaysDeleted(end.store.audit, f) <==> f in names && f !in end.store.files)
            && (forall f :: f in names ==>
                  && Chained(end.store.audit, f, names[f])
                  && (f in end.store.files ==>
                        && NameFrom(end.store.audit, f, names[f]) == end.store.files[f].filename
                        && (forall ttl, e :: LinksSaid(end.store.audit, f, ttl, e)
                             == |LinkRows(end.store.links, f, ttl, e)|)
                        && (forall l :: SaysRevoked(end.store.audit, f, l) <==>
                              l in end.store.links && end.store.links[l].fileId == f
                                  && end.store.links[l].revokedAt.Some?)))
  {
    hide HandleAll, Inv, SaysDeleted, SaysRevoked, Chained, NameFrom, LinksSaid, LinkRows;
    assert LogTellsAll(EmptyStore, map[]);
    ReachableInv(cfg, []);
    assert Run(cfg, Init, []) == Init;
    RunKeepsTelling(cfg, Init, 0, asks, course, 0, h, map[]);
    var (end, responses) := HandleAll(cfg, World(EmptyStore, 0), asks, course);
    DeathsTold(end.store, NamesAfter(map[], responses));
  }
}
