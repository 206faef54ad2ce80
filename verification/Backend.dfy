/** The database and the blob storage as the services see them: fields that the repositories' statements and the
    storage's operations change in place, behind the wrapper that repeats and gives up on calls. */
module Backend {
  import opened Wrappers
  import opened Tables
  import opened Sequential

  class Stores {
    var files: map<string, FileRow>
    var links: map<string, LinkRow>
    var audit: seq<AuditEvent>
    var blobs: map<string, Bytes>
    var turn: nat
    const course: Course

    constructor (course: Course)
      ensures Valid() && State() == World(EmptyStore, 0) && this.course == course
    {
      files, links, audit, blobs, turn := map[], map[], [], map[], 0;
      this.course := course;
    }

    function View(): Store
      reads this
    {
      Store(files, links, audit, blobs)
    }

    function State(): World
      reads this
    {
      World(View(), turn)
    }

    /** The declared constraints hold. */
    ghost predicate Valid()
      reads this
    {
      Constraints(View())
    }

    /** The clock, and the UUID drawn, at the coming call. */
    function Now(): int
      reads this
    {
      course(turn).now
    }

    function NewId(): string
      reads this
    {
      course(turn).id
    }

    // ---------- files ----------

    method InsertFile(row: FileRow) returns (reply: Reply)
      requires Valid()
      modifies `files
      ensures Valid() && (View(), reply) == PerformFile(old(View()), FileCall.InsertFile(row))
    {
      FileCallKeepsConstraints(View(), FileCall.InsertFile(row));
      if row.id in files || exists f :: f in files && files[f].storagePath == row.storagePath {
        reply := Thrown;
      } else {
        files := files[row.id := row];
        reply := File(Some(row));
      }
    }

    method RenameFile(id: string, filename: string) returns (reply: Reply)
      requires Valid()
      modifies `files
      ensures Valid() && (View(), reply) == PerformFile(old(View()), FileCall.RenameFile(id, filename))
    {
      FileCallKeepsConstraints(View(), FileCall.RenameFile(id, filename));
      if id in files {
        var row := files[id].(filename := filename);
        files := files[id := row];
        reply := File(Some(row));
      } else {
        reply := File(None);
      }
    }

    method DeleteFile(id: string) returns (reply: Reply)
      requires Valid()
      modifies `files, `links
      ensures Valid() && (View(), reply) == PerformFile(old(View()), FileCall.DeleteFile(id))
    {
      FileCallKeepsConstraints(View(), FileCall.DeleteFile(id));
      if id in files {
        files := files - {id};
        links := WithoutLinksOf(links, id);
      }
      reply := Nothing;
    }

    method OnFileTable(call: FileCall) returns (reply: Reply)
      requires Valid()
      modifies `files, `links
      ensures Valid() && (View(), reply) == PerformFile(old(View()), call)
    {
      match call
      case InsertFile(row) => reply := InsertFile(row);
      case FindFile(id) => reply := File(if id in files then Some(files[id]) else None);
      case RenameFile(id, filename) => reply := RenameFile(id, filename);
      case DeleteFile(id) => reply := DeleteFile(id);
    }

    // ---------- signed links ----------

    method InsertLink(link: LinkRow) returns (reply: Reply)
      requires Valid()
      modifies `links
      ensures Valid() && (View(), reply) == PerformLink(old(View()), LinkCall.InsertLink(link), Now())
    {
      LinkCallKeepsConstraints(View(), LinkCall.InsertLink(link), Now());
      if link.id in links || link.fileId !in files || exists l :: l in links && links[l].signature == link.signature {
        reply := Thrown;
      } else {
        links := links[link.id := link];
        reply := Nothing;
      }
    }

    method FindLink(fileId: string, signature: string) returns (reply: Reply)
      requires Valid()
      ensures reply == PerformLink(View(), LinkCall.FindLink(fileId, signature), Now()).1
    {
      if exists l :: l in links && links[l].fileId == fileId && links[l].signature == signature {
        var l :| l in links && links[l].fileId == fileId && links[l].signature == signature;
        LinkForUnique(View(), l);
        reply := Link(Some(links[l]));
      } else {
        assert forall l :: !IsLinkFor(View(), fileId, signature, l);
        reply := Link(None);
      }
    }

    method RevokeLink(linkId: string, fileId: string) returns (reply: Reply)
      requires Valid()
      modifies `links
      ensures Valid() && (View(), reply) == PerformLink(old(View()), LinkCall.RevokeLink(linkId, fileId), Now())
    {
      LinkCallKeepsConstraints(View(), LinkCall.RevokeLink(linkId, fileId), Now());
      if linkId in links && links[linkId].fileId == fileId && links[linkId].revokedAt.None? {
        links := links[linkId := links[linkId].(revokedAt := Some(Now()))];
        reply := Flag(true);
      } else {
        reply := Flag(false);
      }
    }

    method OnLinkTable(call: LinkCall) returns (reply: Reply)
      requires Valid()
      modifies `links
      ensures Valid() && (View(), reply) == PerformLink(old(View()), call, Now())
    {
      match call
      case InsertLink(link) => reply := InsertLink(link);
      case FindLink(fileId, signature) => reply := FindLink(fileId, signature);
      case RevokeLink(linkId, fileId) => reply := RevokeLink(linkId, fileId);
    }

    // ---------- audit events and blobs ----------

    /** All of a file's events, newest first: `ORDER BY created_at DESC`. */
    method ListEvents(fileId: string) returns (found: seq<AuditEvent>)
      ensures NewestFirst(found, audit, fileId)
      ensures found == EventsOf(audit, fileId)
    {
      found := [];
      var i := 0;
      while i < |audit|
        invariant 0 <= i <= |audit|
        invariant found == EventsOf(audit[..i], fileId)
      {
        assert audit[..i + 1][..i] == audit[..i];
        if audit[i].fileId == fileId {
          found := [audit[i]] + found;
        }
        i := i + 1;
      }
      assert audit[..|audit|] == audit;
      EventsOfInOrder(audit, fileId, found);
    }

    method OnAuditTable(call: AuditCall) returns (reply: Reply)
      requires Valid()
      modifies `audit
      ensures Valid() && (View(), reply) == PerformAudit(old(View()), call)
    {
      match call
      case Append(event) =>
        audit := audit + [event];
        reply := Nothing;
      case HasEvent(fileId, userId) => reply := Flag(HasEventBy(audit, fileId, userId));
      case ListEvents(fileId) =>
        var found := ListEvents(fileId);
        reply := Events(found);
    }

    method OnBlobStore(call: BlobCall) returns (reply: Reply)
      requires Valid()
      modifies `blobs
      ensures Valid() && (View(), reply) == PerformBlob(old(View()), call)
    {
      reply := Nothing;
      match call
      case Save(location, data) => blobs := blobs[location := data];
      case Exists(location) => reply := Flag(location in blobs);
      case Read(location) => reply := if location in blobs then Content(blobs[location]) else Thrown;
      case Remove(location) => blobs := blobs - {location};
    }

    // ---------- the wrapper ----------

    /** One attempt of any call. */
    method Attempt(call: Call) returns (reply: Reply)
      requires Valid()
      modifies `files, `links, `audit, `blobs
      ensures Valid() && (View(), reply) == Perform(old(View()), call, Now())
    {
      match call
      case OnBlobs(b) => reply := OnBlobStore(b);
      case OnFiles(f) => reply := OnFileTable(f);
      case OnLinks(l) => reply := OnLinkTable(l);
      case OnAudit(a) => reply := OnAuditTable(a);
    }

    /** A call with its retries: the earlier attempts, then the one whose result or error the caller gets. */
    method Invoke(call: Call) returns (reply: Reply)
      requires Valid()
      modifies this
      ensures Valid() && (State(), reply) == Serve(old(State()), call, course)
    {
      hide Perform;
      var here := course(turn);
      var k := 0;
      while k < |here.lapses|
        invariant 0 <= k <= |here.lapses| && turn == old(turn) && Valid()
        invariant AfterLapses(View(), call, here.now, here.lapses[k..])
                == AfterLapses(old(View()), call, here.now, here.lapses)
      {
        assert here.lapses[k..][1..] == here.lapses[k + 1..];
        if here.lapses[k] {
          var _ := Attempt(call);
        }
        k := k + 1;
      }
      assert here.lapses[k..] == [];
      reply := Thrown;
      if !here.last.FailsClean? {
        var got := Attempt(call);
        if here.last.Works? {
          reply := got;
        }
      }
      turn := turn + 1;
    }
  }
}
