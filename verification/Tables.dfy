/** The three tables and the blob store, and the effect of one repository or storage call on them.
    Every call is one atomic step: a single SQL statement or a single storage operation. */
module Tables {
  import opened Wrappers

  type Bytes = seq<bv8>

  datatype FileRow = FileRow(
    id: string, userId: string, filename: string, contentType: string, sizeBytes: nat, storagePath: string)

  datatype LinkRow = LinkRow(
    id: string, fileId: string, userId: string, signature: string,
    ttlSeconds: int, expiresAt: int, revokedAt: Option<int>)

  /** Event type together with the columns and metadata that type fills in. */
  datatype Happening =
    | LinkGenerated(ttlSeconds: int, expiresAt: int)
    | LinkRevoked(linkId: string)
    | LinkDownloaded(linkId: string, ttlSeconds: int, expiresAt: int)
    | UnknownLinkRejected
    | RevokedLinkRejected(linkId: string, ttlSeconds: int, expiresAt: int)
    | FileRenamed(previousFilename: string, filename: string)
    | FileDeleted(filename: string, sizeBytes: nat, contentType: string)

  datatype AuditEvent = AuditEvent(fileId: string, userId: string, what: Happening)

  /** `files` and `signed_links` by primary key, `audit_events` in insertion order, blobs by location. */
  datatype Store = Store(
    files: map<string, FileRow>,
    links: map<string, LinkRow>,
    audit: seq<AuditEvent>,
    blobs: map<string, Bytes>)

  const EmptyStore := Store(map[], map[], [], map[])

  datatype BlobCall =
    | Save(location: string, data: Bytes)
    | Exists(location: string)
    | Read(location: string)
    | Remove(location: string)

  datatype FileCall =
    | InsertFile(row: FileRow)
    | FindFile(id: string)
    | RenameFile(id: string, filename: string)
    | DeleteFile(id: string)

  datatype LinkCall =
    | InsertLink(link: LinkRow)
    | FindLink(fileId: string, signature: string)
    | RevokeLink(linkId: string, fileId: string)

  datatype AuditCall =
    | Append(event: AuditEvent)
    | HasEvent(fileId: string, userId: string)
    | ListEvents(fileId: string)

  /** A call of the blob storage or of one of the three repositories. */
  datatype Call =
    | OnBlobs(blob: BlobCall)
    | OnFiles(file: FileCall)
    | OnLinks(link: LinkCall)
    | OnAudit(audit: AuditCall)

  /** `Thrown` stands for any exception: a constraint violation, a missing blob, or a failure of the medium. */
  datatype Reply =
    | Nothing
    | Flag(value: bool)
    | Content(bytes: Bytes)
    | File(file: Option<FileRow>)
    | Link(link: Option<LinkRow>)
    | Events(events: seq<AuditEvent>)
    | Thrown

  /** The declared constraints: primary keys, UNIQUE storage path and signature, and the foreign key of links. */
  ghost predicate Constraints(s: Store) {
    && (forall f :: f in s.files ==> s.files[f].id == f)
    && (forall f, g :: f in s.files && g in s.files && s.files[f].storagePath == s.files[g].storagePath ==> f == g)
    && (forall l :: l in s.links ==> s.links[l].id == l && s.links[l].fileId in s.files)
    && (forall l, k :: l in s.links && k in s.links && s.links[l].signature == s.links[k].signature ==> l == k)
  }

  ghost predicate PathTaken(s: Store, path: string) {
    exists f :: f in s.files && s.files[f].storagePath == path
  }

  ghost predicate SignatureTaken(s: Store, signature: string) {
    exists l :: l in s.links && s.links[l].signature == signature
  }

  ghost predicate IsLinkFor(s: Store, fileId: string, signature: string, l: string) {
    l in s.links && s.links[l].fileId == fileId && s.links[l].signature == signature
  }

  /** `findByFileAndSignature`. */
  ghost function LinkFor(s: Store, fileId: string, signature: string): (r: Option<LinkRow>)
    ensures r.None? <==> forall l :: !IsLinkFor(s, fileId, signature, l)
    ensures r.Some? ==> exists l :: IsLinkFor(s, fileId, signature, l) && s.links[l] == r.value
  {
    if exists l :: IsLinkFor(s, fileId, signature, l) then
      var l :| IsLinkFor(s, fileId, signature, l);
      Some(s.links[l])
    else None
  }

  /** A file's events, newest first. */
  function EventsOf(audit: seq<AuditEvent>, fileId: string): seq<AuditEvent> {
    if audit == [] then []
    else
      var last := audit[|audit| - 1];
      (if last.fileId == fileId then [last] else []) + EventsOf(audit[..|audit| - 1], fileId)
  }

  /** `at` lists, latest first, the positions of all the file's events in the log, and `shown` what stands there. */
  ghost predicate ListsAt(at: seq<nat>, shown: seq<AuditEvent>, audit: seq<AuditEvent>, fileId: string) {
    && |at| == |shown|
    && (forall i, j :: 0 <= i < j < |at| ==> at[i] > at[j])
    && (forall i :: 0 <= i < |at| ==> at[i] < |audit| && shown[i] == audit[at[i]])
    && (forall k: nat :: k in at <==> k < |audit| && audit[k].fileId == fileId)
  }

  /** `shown` is the whole log of the file, newest first. */
  ghost predicate NewestFirst(shown: seq<AuditEvent>, audit: seq<AuditEvent>, fileId: string) {
    exists at :: ListsAt(at, shown, audit, fileId)
  }

  predicate HasEventBy(audit: seq<AuditEvent>, fileId: string, userId: string) {
    exists i :: 0 <= i < |audit| && audit[i].fileId == fileId && audit[i].userId == userId
  }

  /** ON DELETE CASCADE. */
  function WithoutLinksOf(links: map<string, LinkRow>, fileId: string): map<string, LinkRow> {
    map l | l in links && links[l].fileId != fileId :: links[l]
  }

  /** The condition of the revoking UPDATE: `id = $1 AND file_id = $2 AND revoked_at IS NULL`. */
  predicate Revocable(s: Store, linkId: string, fileId: string) {
    linkId in s.links && s.links[linkId].fileId == fileId && s.links[linkId].revokedAt.None?
  }

  ghost predicate FileInsertable(s: Store, row: FileRow) {
    row.id !in s.files && !PathTaken(s, row.storagePath)
  }

  ghost predicate LinkInsertable(s: Store, link: LinkRow) {
    link.id !in s.links && link.fileId in s.files && !SignatureTaken(s, link.signature)
  }

  ghost function PerformBlob(s: Store, call: BlobCall): (Store, Reply) {
    match call
    case Save(location, data) => (s.(blobs := s.blobs[location := data]), Nothing)
    case Exists(location) => (s, Flag(location in s.blobs))
    case Read(location) => (s, if location in s.blobs then Content(s.blobs[location]) else Thrown)
    case Remove(location) => (s.(blobs := s.blobs - {location}), Nothing)
  }

  ghost function PerformFile(s: Store, call: FileCall): (Store, Reply) {
    match call
    case InsertFile(row) =>
      if FileInsertable(s, row) then (s.(files := s.files[row.id := row]), File(Some(row))) else (s, Thrown)
    case FindFile(id) => (s, File(if id in s.files then Some(s.files[id]) else None))
    case RenameFile(id, filename) =>
      if id in s.files then
        var row := s.files[id].(filename := filename);
        (s.(files := s.files[id := row]), File(Some(row)))
      else (s, File(None))
    case DeleteFile(id) =>
      if id in s.files then (s.(files := s.files - {id}, links := WithoutLinksOf(s.links, id)), Nothing)
          else (s, Nothing)
  }

  ghost function PerformLink(s: Store, call: LinkCall, now: int): (Store, Reply) {
    match call
    case InsertLink(link) =>
      if LinkInsertable(s, link) then (s.(links := s.links[link.id := link]), Nothing) else (s, Thrown)
    case FindLink(fileId, signature) => (s, Link(LinkFor(s, fileId, signature)))
    case RevokeLink(linkId, fileId) =>
      if Revocable(s, linkId, fileId)
      then (s.(links := s.links[linkId := s.links[linkId].(revokedAt := Some(now))]), Flag(true))
      else (s, Flag(false))
  }

  ghost function PerformAudit(s: Store, call: AuditCall): (Store, Reply) {
    match call
    case Append(event) => (s.(audit := s.audit + [event]), Nothing)
    case HasEvent(fileId, userId) => (s, Flag(HasEventBy(s.audit, fileId, userId)))
    case ListEvents(fileId) => (s, Events(EventsOf(s.audit, fileId)))
  }

  ghost function Perform(s: Store, call: Call, now: int): (Store, Reply) {
    match call
    case OnBlobs(b) => PerformBlob(s, b)
    case OnFiles(f) => PerformFile(s, f)
    case OnLinks(l) => PerformLink(s, l, now)
    case OnAudit(a) => PerformAudit(s, a)
  }

  // ---------- what a call can do to each part ----------

  predicate SameButName(a: FileRow, b: FileRow) {
    b == a.(filename := b.filename)
  }

  predicate SameButRevocation(a: LinkRow, b: LinkRow) {
    b == a.(revokedAt := b.revokedAt)
  }

  /** A file row after a call is the same row but for its name, or the row just inserted. */
  lemma FilesEffect(s: Store, call: Call, now: int)
    ensures var t := Perform(s, call, now).0;
            && (forall f :: f in t.files ==>
                  || (f in s.files && SameButName(s.files[f], t.files[f]))
                  || (call == OnFiles(InsertFile(t.files[f])) && f == t.files[f].id && f !in s.files))
            && (forall f :: f in s.files ==> f in t.files || call == OnFiles(DeleteFile(f)))
  {
  }

  /** A link row after a call is the same row but for its revocation, or the row just inserted; it goes only with
      its file. */
  lemma LinksEffect(s: Store, call: Call, now: int)
    ensures var t := Perform(s, call, now).0;
            && (forall l :: l in t.links ==>
                  || (l in s.links && SameButRevocation(s.links[l], t.links[l]))
                  || (call == OnLinks(InsertLink(t.links[l])) && l == t.links[l].id && l !in s.links))
            && (forall l :: l in s.links ==> l in t.links || call == OnFiles(DeleteFile(s.links[l].fileId)))
            && (forall l :: l in s.links && l in t.links && s.links[l].revokedAt.Some? ==> t.links[l] == s.links[l])
  {
  }

  lemma BlobsEffect(s: Store, call: Call, now: int)
    ensures var t := Perform(s, call, now).0;
            && (forall p :: p in t.blobs ==>
                  || (p in s.blobs && t.blobs[p] == s.blobs[p])
                  || call == OnBlobs(Save(p, t.blobs[p])))
            && (forall p :: p in s.blobs ==> p in t.blobs || call == OnBlobs(Remove(p)))
  {
  }

  lemma AuditEffect(s: Store, call: Call, now: int)
    ensures Perform(s, call, now).0.audit
            == if call.OnAudit? && call.audit.Append? then s.audit + [call.audit.event] else s.audit
  {
  }

  lemma FileCallKeepsConstraints(s: Store, call: FileCall)
    requires Constraints(s)
    ensures Constraints(PerformFile(s, call).0)
  {
  }

  lemma LinkCallKeepsConstraints(s: Store, call: LinkCall, now: int)
    requires Constraints(s)
    ensures Constraints(PerformLink(s, call, now).0)
  {
  }

  /** No call breaks a declared constraint. */
  lemma ConstraintsKept(s: Store, call: Call, now: int)
    requires Constraints(s)
    ensures Constraints(Perform(s, call, now).0)
  {
    match call
    case OnFiles(f) => FileCallKeepsConstraints(s, f);
    case OnLinks(l) => LinkCallKeepsConstraints(s, l, now);
    case _ =>
  }

  /** UNIQUE makes the lookup by signature a partial function: it finds the row wherever there is one. */
  lemma LinkForUnique(s: Store, l: string)
    requires Constraints(s) && l in s.links
    ensures LinkFor(s, s.links[l].fileId, s.links[l].signature) == Some(s.links[l])
  {
    assert IsLinkFor(s, s.links[l].fileId, s.links[l].signature, l);
  }

  // ---------- the listing of a file's events ----------

  lemma {:induction false} EventsOfListed(audit: seq<AuditEvent>, fileId: string) returns (at: seq<nat>)
    ensures ListsAt(at, EventsOf(audit, fileId), audit, fileId)
    decreases |audit|
  {
    if audit == [] {
      at := [];
    } else {
      var n := |audit| - 1;
      at := EventsOfListed(audit[..n], fileId);
      var shown := EventsOf(audit[..n], fileId);
      hide ListsAt;
      assert audit == audit[..n] + [audit[n]];
      if audit[n].fileId == fileId {
        ListsSnoc(at, shown, audit[..n], audit[n], fileId);
        at := [n] + at;
      } else {
        ListsSkip(at, shown, audit[..n], audit[n], fileId);
        assert [] + shown == shown;
      }
    }
  }

  lemma ListsSnoc(at: seq<nat>, shown: seq<AuditEvent>, audit: seq<AuditEvent>, event: AuditEvent, fileId: string)
    requires ListsAt(at, shown, audit, fileId) && event.fileId == fileId
    ensures ListsAt([|audit|] + at, [event] + shown, audit + [event], fileId)
  {
    var n, more, grown := |audit|, [|audit|] + at, audit + [event];
    forall i | 0 <= i < |more|
      ensures more[i] < |grown| && ([event] + shown)[i] == grown[more[i]]
    {
      if i > 0 {
        assert more[i] == at[i - 1];
      }
    }
    forall i, j | 0 <= i < j < |more|
      ensures more[i] > more[j]
    {
      assert more[j] == at[j - 1];
      if i > 0 {
        assert more[i] == at[i - 1];
      }
    }
    forall k: nat
      ensures k in more <==> k < |grown| && grown[k].fileId == fileId
    {
      assert k in more <==> k == n || k in at;
      assert k < n ==> grown[k] == audit[k];
    }
  }

  lemma ListsSkip(at: seq<nat>, shown: seq<AuditEvent>, audit: seq<AuditEvent>, event: AuditEvent, fileId: string)
    requires ListsAt(at, shown, audit, fileId) && event.fileId != fileId
    ensures ListsAt(at, shown, audit + [event], fileId)
  {
    assert forall k: nat :: k < |audit| ==> (audit + [event])[k] == audit[k];
  }

  /** Two descending lists of the same numbers are the same list. */
  lemma {:induction false} SameDescent(a: seq<nat>, b: seq<nat>)
    requires forall i, j :: 0 <= i < j < |a| ==> a[i] > a[j]
    requires forall i, j :: 0 <= i < j < |b| ==> b[i] > b[j]
    requires forall k: nat :: k in a <==> k in b
    ensures a == b
    decreases |a|
  {
    SomeMember(a);
    SomeMember(b);
    if a != [] {
      assert a[0] in b && b[0] in a;
      assert a[0] == b[0];
      forall k: nat
        ensures k in a[1..] <==> k in b[1..]
      {
        assert k in a[1..] <==> k in a && k != a[0];
        assert k in b[1..] <==> k in b && k != b[0];
      }
      SameDescent(a[1..], b[1..]);
    }
  }

  lemma SomeMember(s: seq<nat>)
    ensures s != [] ==> exists k :: k in s
  {
    if s != [] {
      assert s[0] in s;
    }
  }

  /** The query's answer is the one listing of all the file's events, newest first. */
  lemma EventsOfInOrder(audit: seq<AuditEvent>, fileId: string, shown: seq<AuditEvent>)
    ensures shown == EventsOf(audit, fileId) <==> NewestFirst(shown, audit, fileId)
  {
    var at := EventsOfListed(audit, fileId);
    if NewestFirst(shown, audit, fileId) {
      var other :| ListsAt(other, shown, audit, fileId);
      SameDescent(at, other);
    }
  }

  lemma KeyIsId(s: Store, f: string)
    requires Constraints(s) && f in s.files
    ensures s.files[f].id == f
  {
  }
}
