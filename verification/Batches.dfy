/** Batch delete and batch upload: loops over the single services that isolate each item's failure. */
module Batches {
  import opened Wrappers
  import opened Codec
  import opened Tables
  import opened Domain
  import opened Requests
  import opened Sequential
  import opened Services
  import opened Outcomes

  datatype BatchFault = EmptyBatch | BatchTooLarge

  /** An item that failed; the code is that of the domain error, absent for an infrastructure error. */
  datatype Failure = Failure(item: string, code: Option<Code>)

  datatype DeleteReport = DeleteReport(deleted: seq<string>, failed: seq<Failure>)

  datatype UploadReport = UploadReport(uploaded: seq<FileRow>, failed: seq<Failure>)

  /** `assertBatchSize`. */
  function SizeFault(count: nat, max: nat): Option<BatchFault> {
    if count == 0 then Some(EmptyBatch) else if count > max then Some(BatchTooLarge) else None
  }

  function FailureOf(item: string, response: Response): Failure {
    Failure(item, if response.Rejected? then Some(response.code) else None)
  }

  function DeleteAsks(userId: string, fileIds: seq<string>): seq<Ask> {
    seq(|fileIds|, i requires 0 <= i < |fileIds| => AskDelete(fileIds[i], userId))
  }

  function UploadAsks(userId: string, uploads: seq<Upload>): seq<Ask> {
    seq(|uploads|, i requires 0 <= i < |uploads| => AskUpload(userId, uploads[i]))
  }

  /** What `pick` takes from the items, in their order. */
  function Gathered<R, T>(items: seq<R>, pick: R -> Option<T>): seq<T> {
    if items == [] then []
    else
      var last := |items| - 1;
      Gathered(items[..last], pick) + (match pick(items[last]) case Some(x) => [x] case None => [])
  }

  function Zip<A, B>(a: seq<A>, b: seq<B>): seq<(A, B)>
    requires |a| == |b|
  {
    seq(|a|, i requires 0 <= i < |a| => (a[i], b[i]))
  }

  function DeletedId(item: (string, Response)): Option<string> {
    if item.1.Deleted? then Some(item.0) else None
  }

  function DeleteFailure(item: (string, Response)): Option<Failure> {
    if item.1.Deleted? then None else Some(FailureOf(item.0, item.1))
  }

  function UploadedRow(item: (Upload, Response)): Option<FileRow> {
    if item.1.Uploaded? then Some(item.1.row) else None
  }

  function UploadFailure(item: (Upload, Response)): Option<Failure> {
    if item.1.Uploaded? then None else Some(FailureOf(item.0.filename, item.1))
  }

  function DeleteReportOf(items: seq<(string, Response)>): DeleteReport {
    DeleteReport(Gathered(items, DeletedId), Gathered(items, DeleteFailure))
  }

  function UploadReportOf(items: seq<(Upload, Response)>): UploadReport {
    UploadReport(Gathered(items, UploadedRow), Gathered(items, UploadFailure))
  }

  lemma GatheredSnoc<R, T>(items: seq<R>, item: R, pick: R -> Option<T>)
    ensures Gathered(items + [item], pick)
            == Gathered(items, pick) + (match pick(item) case Some(x) => [x] case None => [])
  {
    assert (items + [item])[..|items|] == items;
  }

  lemma {:induction false} ResponsePerAsk(cfg: Config, w: World, asks: seq<Ask>, course: Course)
    ensures |HandleAll(cfg, w, asks, course).1| == |asks|
    decreases |asks|
  {
    if asks != [] {
      ResponsePerAsk(cfg, Handle(cfg, w, asks[0], course).0, asks[1..], course);
    }
  }

  lemma DeleteReportSnoc(fileIds: seq<string>, responses: seq<Response>, i: nat)
    requires i < |fileIds| == |responses|
    ensures var report := DeleteReportOf(Zip(fileIds[..i], responses[..i]));
            DeleteReportOf(Zip(fileIds[..i + 1], responses[..i + 1]))
            == if responses[i].Deleted? then report.(deleted := report.deleted + [fileIds[i]])
               else report.(failed := report.failed + [FailureOf(fileIds[i], responses[i])])
  {
    var items, item := Zip(fileIds[..i], responses[..i]), (fileIds[i], responses[i]);
    assert Zip(fileIds[..i + 1], responses[..i + 1]) == items + [item];
    GatheredSnoc(items, item, DeletedId);
    GatheredSnoc(items, item, DeleteFailure);
  }

  lemma UploadReportSnoc(uploads: seq<Upload>, responses: seq<Response>, i: nat)
    requires i < |uploads| == |responses|
    ensures var report := UploadReportOf(Zip(uploads[..i], responses[..i]));
            UploadReportOf(Zip(uploads[..i + 1], responses[..i + 1]))
            == if responses[i].Uploaded? then report.(uploaded := report.uploaded + [responses[i].row])
               else report.(failed := report.failed + [FailureOf(uploads[i].filename, responses[i])])
  {
    var items, item := Zip(uploads[..i], responses[..i]), (uploads[i], responses[i]);
    assert Zip(uploads[..i + 1], responses[..i + 1]) == items + [item];
    GatheredSnoc(items, item, UploadedRow);
    GatheredSnoc(items, item, UploadFailure);
  }

  /** Before the first item there is nothing to ask or to report. */
  lemma BatchStart(userId: string, fileIds: seq<string>, uploads: seq<Upload>, responses: seq<Response>)
    ensures DeleteReportOf(Zip(fileIds[..0], responses[..0])) == DeleteReport([], [])
    ensures UploadReportOf(Zip(uploads[..0], responses[..0])) == UploadReport([], [])
    ensures |DeleteAsks(userId, fileIds)| == |fileIds| && |UploadAsks(userId, uploads)| == |uploads|
    ensures forall i :: 0 <= i < |fileIds| ==> DeleteAsks(userId, fileIds)[i] == AskDelete(fileIds[i], userId)
    ensures forall i :: 0 <= i < |uploads| ==> UploadAsks(userId, uploads)[i] == AskUpload(userId, uploads[i])
  {
  }

  // ---------- the loops ----------

  class BatchDeleteFilesService {
    const deleteFile: DeleteFileService
    const maxBatchSize: nat

    constructor (deleteFile: DeleteFileService, maxBatchSize: nat)
      ensures this.deleteFile == deleteFile && this.maxBatchSize == maxBatchSize
    {
      this.deleteFile, this.maxBatchSize := deleteFile, maxBatchSize;
    }

    /** The whole batch is its items handled one after the other, whatever becomes of each. */
    method Execute(userId: string, fileIds: seq<string>) returns (r: Result<DeleteReport, BatchFault>)
      requires deleteFile.access.db == deleteFile.db && deleteFile.db.Valid()
      modifies deleteFile.db
      ensures deleteFile.db.Valid()
      ensures fileIds == [] ==> r == Err(EmptyBatch) && deleteFile.db.State() == old(deleteFile.db.State())
      ensures |fileIds| > 0 && |fileIds| > maxBatchSize ==>
                r == Err(BatchTooLarge) && deleteFile.db.State() == old(deleteFile.db.State())
      ensures 0 < |fileIds| <= maxBatchSize ==>
                var asks := DeleteAsks(userId, fileIds);
                var (end, responses) := HandleAll(deleteFile.cfg, old(deleteFile.db.State()), asks,
                    deleteFile.db.course);
                deleteFile.db.State() == end && |responses| == |fileIds|
                    && r == Ok(DeleteReportOf(Zip(fileIds, responses)))
    {
      hide Handle, Gathered, DeleteReportOf, DeleteAsks, Zip;
      var db, cfg := deleteFile.db, deleteFile.cfg;
      var fault := SizeFault(|fileIds|, maxBatchSize);
      if fault.Some? {
        return Err(fault.value);
      }
      var report := DeleteReport([], []);
      ghost var asks := DeleteAsks(userId, fileIds);
      ghost var (end, all) := HandleAll(cfg, db.State(), asks, db.course);
      ResponsePerAsk(cfg, db.State(), asks, db.course);
      BatchStart(userId, fileIds, [], all);
      for i := 0 to |fileIds|
        invariant db.Valid()
        invariant HandleAll(cfg, db.State(), asks[i..], db.course) == (end, all[i..])
        invariant report == DeleteReportOf(Zip(fileIds[..i], all[..i]))
      {
        var response := deleteFile.Execute(fileIds[i], userId);
        assert asks[i..][0] == AskDelete(fileIds[i], userId) && asks[i..][1..] == asks[i + 1..];
        assert all[i..][1..] == all[i + 1..] && all[i..][0] == response;
        DeleteReportSnoc(fileIds, all, i);
        if response.Deleted? {
          report := report.(deleted := report.deleted + [fileIds[i]]);
        } else {
          report := report.(failed := report.failed + [FailureOf(fileIds[i], response)]);
        }
      }
      assert fileIds[..|fileIds|] == fileIds && all[..|fileIds|] == all;
      return Ok(report);
    }
  }

  class BatchUploadFilesService {
    const uploadFile: UploadFileService
    const maxBatchSize: nat

    constructor (uploadFile: UploadFileService, maxBatchSize: nat)
      ensures this.uploadFile == uploadFile && this.maxBatchSize == maxBatchSize
    {
      this.uploadFile, this.maxBatchSize := uploadFile, maxBatchSize;
    }

    method Execute(userId: string, uploads: seq<Upload>) returns (r: Result<UploadReport, BatchFault>)
      requires uploadFile.db.Valid()
      modifies uploadFile.db
      ensures uploadFile.db.Valid()
      ensures uploads == [] ==> r == Err(EmptyBatch) && uploadFile.db.State() == old(uploadFile.db.State())
      ensures |uploads| > 0 && |uploads| > maxBatchSize ==>
                r == Err(BatchTooLarge) && uploadFile.db.State() == old(uploadFile.db.State())
      ensures 0 < |uploads| <= maxBatchSize ==>
                var asks := UploadAsks(userId, uploads);
                var (end, responses) := HandleAll(uploadFile.cfg, old(uploadFile.db.State()), asks,
                    uploadFile.db.course);
                uploadFile.db.State() == end && |responses| == |uploads|
                    && r == Ok(UploadReportOf(Zip(uploads, responses)))
    {
      hide Handle, Gathered, UploadReportOf, UploadAsks, Zip;
      var db, cfg := uploadFile.db, uploadFile.cfg;
      var fault := SizeFault(|uploads|, maxBatchSize);
      if fault.Some? {
        return Err(fault.value);
      }
      var report := UploadReport([], []);
      ghost var asks := UploadAsks(userId, uploads);
      ghost var (end, all) := HandleAll(cfg, db.State(), asks, db.course);
      ResponsePerAsk(cfg, db.State(), asks, db.course);
      BatchStart(userId, [], uploads, all);
      for i := 0 to |uploads|
        invariant db.Valid()
        invariant HandleAll(cfg, db.State(), asks[i..], db.course) == (end, all[i..])
        invariant report == UploadReportOf(Zip(uploads[..i], all[..i]))
      {
        var response := uploadFile.Execute(userId, uploads[i]);
        assert asks[i..][0] == AskUpload(userId, uploads[i]) && asks[i..][1..] == asks[i + 1..];
        assert all[i..][1..] == all[i + 1..] && all[i..][0] == response;
        UploadReportSnoc(uploads, all, i);
        if response.Uploaded? {
          report := report.(uploaded := report.uploaded + [response.row]);
        } else {
          report := report.(failed := report.failed + [FailureOf(uploads[i].filename, response)]);
        }
      }
      assert uploads[..|uploads|] == uploads && all[..|uploads|] == all;
      return Ok(report);
    }
  }

  // ---------- the reports partition the batch ----------

  /** `at` lists, in order, the positions of the items that `pick` takes. */
  ghost predicate Positions<R, T>(at: seq<nat>, items: seq<R>, pick: R -> Option<T>) {
    && (forall i, j :: 0 <= i < j < |at| ==> at[i] < at[j])
    && (forall i :: 0 <= i < |at| ==> at[i] < |items| && pick(items[at[i]]).Some?)
    && (forall k :: 0 <= k < |items| && pick(items[k]).Some? ==> k in at)
  }

  /** `at` does list them, and `taken` is what `pick` makes of them. */
  ghost predicate Takes<R, T>(at: seq<nat>, items: seq<R>, pick: R -> Option<T>, taken: seq<T>) {
    && Positions(at, items, pick) && |taken| == |at|
    && forall i :: 0 <= i < |at| ==> pick(items[at[i]]) == Some(taken[i])
  }

  lemma TakesSnoc<R, T>(at: seq<nat>, items: seq<R>, item: R, pick: R -> Option<T>, taken: seq<T>)
    requires Takes(at, items, pick, taken)
    ensures pick(item).None? ==> Takes(at, items + [item], pick, taken)
    ensures pick(item).Some? ==> Takes(at + [|items|], items + [item], pick, taken + [pick(item).value])
  {
    var more := at + [|items|];
    assert more[|at|] == |items|;
    forall k | 0 <= k < |items| && pick(items[k]).Some?
      ensures k in at && k in more
    {
      var i :| 0 <= i < |at| && at[i] == k;
      assert more[i] == k;
    }
  }

  lemma {:induction false} GatheredInOrder<R, T>(items: seq<R>, pick: R -> Option<T>) returns (at: seq<nat>)
    ensures Takes(at, items, pick, Gathered(items, pick))
    decreases |items|
  {
    if items == [] {
      at := [];
    } else {
      var init, item := items[..|items| - 1], items[|items| - 1];
      at := GatheredInOrder(init, pick);
      TakesSnoc(at, init, item, pick, Gathered(init, pick));
      hide Takes, Gathered;
      GatheredSnoc(init, item, pick);
      assert items == init + [item];
      if pick(item).Some? {
        at := at + [|init|];
      } else {
        assert Gathered(init, pick) + [] == Gathered(init, pick);
      }
    }
  }

  /** The report of a batch delete is an order-preserving partition of the input: every item is in exactly one of
      the two lists, each list is in the order of the input, and each failure carries the id of its own item, and a
      code exactly when that item was refused with it. */
  lemma DeletePartition(items: seq<(string, Response)>) returns (good: seq<nat>, bad: seq<nat>)
    ensures Positions(good, items, DeletedId) && Positions(bad, items, DeleteFailure)
    ensures forall k: nat :: k < |items| ==>
            (k in good <==> items[k].1.Deleted?) && (k in bad <==> !items[k].1.Deleted?)
    ensures var report := DeleteReportOf(items);
            && |report.deleted| == |good| && (forall i :: 0 <= i < |good| ==> report.deleted[i] == items[good[i]].0)
            && |report.failed| == |bad|
            && (forall i :: 0 <= i < |bad| ==> report.failed[i].item == items[bad[i]].0)
            && (forall i, c :: 0 <= i < |bad| ==>
                  (report.failed[i].code == Some(c) <==> items[bad[i]].1 == Rejected(c)))
  {
    good := GatheredInOrder(items, DeletedId);
    bad := GatheredInOrder(items, DeleteFailure);
    hide Gathered;
    assert forall i :: 0 <= i < |good| ==> DeletedId(items[good[i]]) == Some(DeleteReportOf(items).deleted[i]);
    assert forall i :: 0 <= i < |bad| ==> DeleteFailure(items[bad[i]]) == Some(DeleteReportOf(items).failed[i]);
  }

  lemma UploadPartition(items: seq<(Upload, Response)>) returns (good: seq<nat>, bad: seq<nat>)
    ensures Positions(good, items, UploadedRow) && Positions(bad, items, UploadFailure)
    ensures forall k: nat :: k < |items| ==>
            (k in good <==> items[k].1.Uploaded?) && (k in bad <==> !items[k].1.Uploaded?)
    ensures var report := UploadReportOf(items);
            && |report.uploaded| == |good|
                 && (forall i :: 0 <= i < |good| ==> items[good[i]].1 == Uploaded(report.uploaded[i]))
            && |report.failed| == |bad|
            && (forall i :: 0 <= i < |bad| ==> report.failed[i].item == items[bad[i]].0.filename)
            && (forall i, c :: 0 <= i < |bad| ==>
                  (report.failed[i].code == Some(c) <==> items[bad[i]].1 == Rejected(c)))
  {
    good := GatheredInOrder(items, UploadedRow);
    bad := GatheredInOrder(items, UploadFailure);
    hide Gathered;
    assert forall i :: 0 <= i < |good| ==> UploadedRow(items[good[i]]) == Some(UploadReportOf(items).uploaded[i]);
    assert forall i :: 0 <= i < |bad| ==> UploadFailure(items[bad[i]]) == Some(UploadReportOf(items).failed[i]);
  }

  // ---------- what a batch does to the stores ----------

  /** A delete never adds a file, and one that answers success has removed a file that was there. */
  lemma DeleteRemoves(cfg: Config, w: World, fileId: string, userId: string, course: Course)
    requires Constraints(w.store)
    ensures var (end, response) := Handle(cfg, w, AskDelete(fileId, userId), course);
            && Constraints(end.store) && end.store.files.Keys <= w.store.files.Keys && !response.Uploaded?
            && (response.Deleted? ==> Canon(fileId) in w.store.files && Canon(fileId) !in end.store.files)
            && (response.Rejected? ==> end.store == w.store)
  {
    hide Handle, Canon, IsUuid;
    DeleteOutcome(cfg, w, fileId, userId, course);
    FileCallKeepsConstraints(w.store, DeleteFile(Canon(fileId)));
  }

  /** No file is reported deleted twice, however often and in whatever case the batch names it, and whatever fails: the
      ids reported deleted are ids of different files, which were there before the batch and are not there after it. */
  lemma {:induction false} DeletedOnce(cfg: Config, w: World, userId: string, fileIds: seq<string>, course: Course)
    requires Constraints(w.store)
    ensures var (end, responses) := HandleAll(cfg, w, DeleteAsks(userId, fileIds), course);
            && |responses| == |fileIds| && end.store.files.Keys <= w.store.files.Keys
            && (forall i :: 0 <= i < |responses| ==> !responses[i].Uploaded?)
            && (forall i :: 0 <= i < |responses| && responses[i].Deleted? ==>
                  Canon(fileIds[i]) in w.store.files && Canon(fileIds[i]) !in end.store.files)
            && (forall i, j :: 0 <= i < j < |responses| && responses[i].Deleted? && responses[j].Deleted? ==>
                  Canon(fileIds[i]) != Canon(fileIds[j]))
    decreases |fileIds|
  {
    hide Handle, Canon, Constraints;
    if fileIds != [] {
      var asks := DeleteAsks(userId, fileIds);
      assert asks[1..] == DeleteAsks(userId, fileIds[1..]);
      var (mid, first) := Handle(cfg, w, asks[0], course);
      DeleteRemoves(cfg, w, fileIds[0], userId, course);
      DeletedOnce(cfg, mid, userId, fileIds[1..], course);
      var (end, responses) := HandleAll(cfg, w, asks, course);
      assert forall i :: 1 <= i < |responses| ==>
        responses[i] == HandleAll(cfg, mid, asks[1..], course).1[i - 1] && fileIds[i] == fileIds[1..][i - 1];
    }
  }

  lemma {:induction false} HandlePrefix(cfg: Config, w: World, asks: seq<Ask>, course: Course, i: nat)
    requires i < |asks|
    ensures var before := HandleAll(cfg, w, asks[..i], course).0;
            && |HandleAll(cfg, w, asks, course).1| == |asks|
            && HandleAll(cfg, w, asks[..i + 1], course).0 == Handle(cfg, before, asks[i], course).0
            && HandleAll(cfg, w, asks, course).1[i] == Handle(cfg, before, asks[i], course).1
    decreases |asks|
  {
    hide Handle;
    ResponsePerAsk(cfg, w, asks, course);
    var mid := Handle(cfg, w, asks[0], course).0;
    assert asks[..i + 1][0] == asks[0] && asks[..i + 1][1..] == asks[1..][..i];
    if i == 0 {
      assert asks[..0] == [];
    } else {
      assert asks[..i][0] == asks[0] && asks[..i][1..] == asks[1..][..i - 1];
      HandlePrefix(cfg, mid, asks[1..], course, i - 1);
    }
  }

  lemma {:induction false} DeletesKeepConstraints(
      cfg: Config, w: World, userId: string, fileIds: seq<string>, course: Course)
    requires Constraints(w.store)
    ensures Constraints(HandleAll(cfg, w, DeleteAsks(userId, fileIds), course).0.store)
    decreases |fileIds|
  {
    hide Handle, Canon, Constraints;
    if fileIds != [] {
      var asks := DeleteAsks(userId, fileIds);
      assert asks[1..] == DeleteAsks(userId, fileIds[1..]);
      DeleteRemoves(cfg, w, fileIds[0], userId, course);
      DeletesKeepConstraints(cfg, Handle(cfg, w, asks[0], course).0, userId, fileIds[1..], course);
    }
  }

  /** An item of a batch delete that fails with a code left all four stores as it found them. */
  lemma CodedDeleteFailureChangesNothing(
      cfg: Config, w: World, userId: string, fileIds: seq<string>, course: Course, i: nat)
    requires Constraints(w.store) && i < |fileIds|
    ensures var asks := DeleteAsks(userId, fileIds);
            var responses := HandleAll(cfg, w, asks, course).1;
            && |responses| == |fileIds|
            && (responses[i].Rejected? ==>
                  HandleAll(cfg, w, asks[..i + 1], course).0.store == HandleAll(cfg, w, asks[..i], course).0.store)
  {
    hide Handle, Constraints;
    var asks := DeleteAsks(userId, fileIds);
    HandlePrefix(cfg, w, asks, course, i);
    assert asks[..i] == DeleteAsks(userId, fileIds[..i]);
    DeletesKeepConstraints(cfg, w, userId, fileIds[..i], course);
    DeleteRemoves(cfg, HandleAll(cfg, w, asks[..i], course).0, fileIds[i], userId, course);
  }

  lemma UploadResponse(cfg: Config, w: World, userId: string, upload: Upload, course: Course)
    ensures var (end, response) := Handle(cfg, w, AskUpload(userId, upload), course);
            && !response.Deleted?
            && (response.Rejected? ==> end.store == w.store)
  {
    UploadOutcome(cfg, w, userId, upload, course);
    hide Handle;
  }

  /** An item of a batch upload that fails with a code left all four stores as it found them. */
  lemma CodedUploadFailureChangesNothing(
      cfg: Config, w: World, userId: string, uploads: seq<Upload>, course: Course, i: nat)
    requires i < |uploads|
    ensures var asks := UploadAsks(userId, uploads);
            var responses := HandleAll(cfg, w, asks, course).1;
            && |responses| == |uploads|
            && (responses[i].Rejected? ==>
                  HandleAll(cfg, w, asks[..i + 1], course).0.store == HandleAll(cfg, w, asks[..i], course).0.store)
  {
    hide Handle;
    var asks := UploadAsks(userId, uploads);
    HandlePrefix(cfg, w, asks, course, i);
    UploadResponse(cfg, HandleAll(cfg, w, asks[..i], course).0, userId, uploads[i], course);
  }

  // ---------- counting uploads ----------

  /** Failures without effect: one more row if the upload succeeds, otherwise the same rows. */
  lemma HonestUploadCounts(cfg: Config, w: World, userId: string, upload: Upload, course: Course)
    requires Honest(course)
    ensures var (end, response) := Handle(cfg, w, AskUpload(userId, upload), course);
            |end.store.files| == |w.store.files| + (if response.Uploaded? then 1 else 0)
  {
    UploadOutcome(cfg, w, userId, upload, course);
    hide Handle;
    assert course(w.turn).Honest() && course(w.turn + 1).Honest();
  }

  lemma NothingUploaded()
    ensures UploadReportOf(Zip([], [])).uploaded == []
  {
  }

  /** Whatever the stores hold, while failures have no effect, a batch upload adds exactly as many rows as it
      reports. */
  lemma {:induction false} BatchAddsWhatItReports(
      cfg: Config, w: World, userId: string, uploads: seq<Upload>, course: Course)
    requires Honest(course)
    ensures var (end, responses) := HandleAll(cfg, w, UploadAsks(userId, uploads), course);
            && |responses| == |uploads|
            && |end.store.files| == |w.store.files| + |UploadReportOf(Zip(uploads, responses)).uploaded|
    decreases |uploads|
  {
    hide Handle, UploadReportOf;
    var asks := UploadAsks(userId, uploads);
    ResponsePerAsk(cfg, w, asks, course);
    if uploads == [] {
      NothingUploaded();
    } else {
      assert asks[1..] == UploadAsks(userId, uploads[1..]);
      var mid := Handle(cfg, w, asks[0], course).0;
      HonestUploadCounts(cfg, w, userId, uploads[0], course);
      BatchAddsWhatItReports(cfg, mid, userId, uploads[1..], course);
      var all := HandleAll(cfg, w, asks, course).1;
      assert all[1..] == HandleAll(cfg, mid, asks[1..], course).1;
      UploadedCount(uploads, all);
    }
  }

  /** The count does not care which end of the batch comes first. */
  lemma {:induction false} UploadedCount(uploads: seq<Upload>, responses: seq<Response>)
    requires |uploads| == |responses| && responses != []
    ensures |UploadReportOf(Zip(uploads, responses)).uploaded|
            == (if responses[0].Uploaded? then 1 else 0) + |UploadReportOf(Zip(uploads[1..], responses[1..])).uploaded|
    decreases |responses|
  {
    var n := |responses| - 1;
    var items, tail := Zip(uploads, responses), Zip(uploads[1..], responses[1..]);
    if n == 0 {
      assert items == [] + [items[0]] && tail == [];
      GatheredSnoc([], items[0], UploadedRow);
    } else {
      UploadedCount(uploads[..n], responses[..n]);
      assert items == Zip(uploads[..n], responses[..n]) + [items[n]];
      assert tail == Zip(uploads[..n][1..], responses[..n][1..]) + [items[n]];
      GatheredSnoc(Zip(uploads[..n], responses[..n]), items[n], UploadedRow);
      GatheredSnoc(Zip(uploads[..n][1..], responses[..n][1..]), items[n], UploadedRow);
    }
  }
}
