# Verified model of the secure file service

A file service: owners upload, rename and delete files, sign expiring download links for them, revoke those links, and
read an audit history that outlives the files; anyone with a link downloads. This project models its core in Dafny and
proves what it is for: that a download is granted only on a live, unrevoked, unexpired link and returns the uploaded
bytes, that revocation and deletion last, that every file row has its bytes, that the owner alone is shown a file's history,
and that the log agrees with the tables. Where such a promise can fail it gives a run in which it does, and proves it under
the condition that decides it: for revocation, deletion, rows with their bytes and the reading of histories, exactly.

## How the model is built

- `Codec`, `UrlSigner`, `Filenames`, `Retry` hold the arithmetic: decimal and hexadecimal text, signing and verifying,
  file names and storage locations, the retry loop with its backoff, metrics and error classes.
- `Tables` holds the state -- `files`, `signed_links`, `audit_events`, blobs -- and gives every SQL statement and storage
  operation its effect under the declared constraints (primary keys, both UNIQUE columns, the cascading foreign key, no
  foreign key on the log).
- `Domain` and `Requests` (one module per service) cut each service at its awaits: the pending call, and the code from
  one reply to the next await, return or throw.
- `System` is the service at work: any number of requests in flight over shared tables, one atomic call at a time, in any
  order. A call may succeed, or fail with or without having taken effect, and then be retried or given up; a request may
  be lost at any point; the clock may advance at any point. A run is a sequence of such events.
- `Invariants` and `Preservation` prove one invariant of all runs, and `Traces` looks back along a run from where a request
  stands to the events that brought it there. `Guarantees`, `Answers`, `Lifecycle`, `Revocation`, `StoredBytes`,
  `OrphanedBlobs`, `AuditFacts`, `RevocationLog`, `LogCounts`, `Quiescence`, `RacingRenames` and `HistoryAccess` draw the promises
  from them.
  `Phases` holds pieces of runs, and `Witnesses` the runs that break a promise.
- `Sequential` runs one request at a time (`Handle`), with every way its calls can fail, and proves each such run a run of
  `System`. `RetriedCalls` proves that what the retry loop does to the stores is what `Sequential` says of a call. `Outcomes`
  gives for each of the seven operations the stores and the answer, for every input and every way its calls can fail, in terms
  of the tables alone; `TwoPhase`, `Accounting` and `Replay` draw exact results about requests run alone from it.
- `Backend`, `Services` and `Batches` are the imperative side: a class whose fields the repositories' statements change,
  one class per service with the awaited calls, early returns and compensation in the source's order, and the two batch
  loops. Each method is proved to do what `Handle` says, so everything proved of `Handle` and of runs holds of it.
- `Container` shows that the services as they are put together meet the assumptions made of their configuration.

## What is assumed

- `randomUUID` never returns a UUID already drawn; the clock never runs backwards; a crash loses only requests in flight.
- The keyed hash prints 64 lower-case hexadecimal characters. That it has no collisions is not assumed, since no hash can
  satisfy it: wherever a result needs it, the result names the two payloads that would have to collide.
- `Number` reads a plain run of digits in the safe range as the number it denotes, and `String` prints integers below 10^21
  in decimal.
- Link lifetimes are at most half of the safe integer range (the configuration allows one year).

## What was found

- A deleted file can come back. If the row insert of an upload takes effect but is reported as a lost connection, the owner
  can see and delete the file before the retry puts the row in again (`Witnesses.DeletedFileReturns`). A file without a row
  never has one again exactly when its upload can no longer insert it (`Lifecycle.GoneForGoodIff`).
- So revocation is not always permanent: signing the file that came back for the same second yields an unrevoked row with
  the revoked signature (`Witnesses.UnsettledRevocationReachable`). It is permanent exactly when the file's upload can no
  longer insert, or the signature cannot be issued for that file again (`Revocation.PermanentIff`); until the link's final
  second, exactly when the upload can no longer insert (`Revocation.PermanentIffSettled`).
- A row can lose its blob the same way: the retried insert meets its own row, and the compensation removes the blob under it
  (`Witnesses.RowWithoutBlobReachable`). A file is safe from this for good exactly when its row, if any, has its blob, its
  upload has ended and no delete of it is about to remove the blob (`StoredBytes.BlobSafeIff`).
- An audit append that took effect in an attempt reported as failed is repeated, so one link can have two events of its
  making and two of its revocation (`Witnesses.LinkLoggedTwice`). With every event reported truly, a file that came back leaves
  the log telling of a link that is gone (`Witnesses.LogTellsOfNoLink`), or of a revocation of a link that is not revoked, and
  then of two (`Witnesses.LinkRevokedTwice`). A link's revocation is in the log at most once for good exactly when it is now, the
  link is revoked, no request is about to log it, and the link cannot be put in again (`RevocationLog.RevokedOnceIff`). While
  failures have no effect, the log tells of no more links than a live file has exactly as `LogCounts.WithinIff` says.
- A revocation whose update took effect in an attempt reported as failed is answered "not found" and never logged
  (`Outcomes.RevokeOutcome`).
- Two renames that race, with no failure at all, can leave the row with one name and the log ending in the other
  (`Witnesses.RacingRenamesDisagree`). The pending appends are sure to leave row and log agreeing exactly when each of them is of
  a rename to the name the row has, or none is pending and they agree already (`RacingRenames.RenamesAgreeIff`). Links and
  revocations do not suffer from races: once nothing is in flight the log tells them exactly (`Quiescence.QuietLogTells`).
- A rename that finds its row gone logs itself all the same, and is answered with no row (`Answers.RenamedIsJustified`): with no
  failure at all, a log can go on after the deletion of its file (`Witnesses.DeletedFileRenamed`).
- An upload lost between its two writes, or a removal that fails, leaves bytes without a row (`Witnesses.OrphanReachable`). They
  are there for good exactly when the upload has ended and no delete that found the row is under way
  (`OrphanedBlobs.OrphanedForGoodIff`): nothing else ever removes a blob.
- The signature is checked leniently (either case, trailing text) but looked up exactly, so a lenient spelling passes the
  first phase and is then rejected and logged as an unknown link (`UrlSigner.HexEqualMeaning`, `TwoPhase.TwoPhasesAreOneLook`).
- Link ids are logged as the caller spelled them, so matching a revocation event to its link needs the canonical form.
- A caller whose user id is literally "unknown" is shown the history of a file that has no row, if an unknown link was ever
  rejected for it (`Witnesses.StrangerReadsHistory`). He is the only one but the owner (`HistoryAccess.ShownToOwner`), and
  exactly when is `HistoryAccess.ListingAnsweredIff`.

## Model

| member | source | states |
|---|---|---|
| `Codec.DecimalRoundTrip` | src/infrastructure/crypto/url-signer.ts:29 | reading back the decimal text of any natural number gives that number |
| `Codec.DigitsRoundTrip` | src/infrastructure/crypto/url-signer.ts:63 | and printing the value of a run of digits without leading zeros gives that run, so the signed number has one text |
| `Codec.DecimalInjective` | src/infrastructure/crypto/url-signer.ts:63 | two integers with the same decimal text are equal |
| `Codec.DecodeAgreement` | src/infrastructure/crypto/url-signer.ts:67-74 | a text decodes to the same bytes as a digest exactly when it spells the digest, in either case, followed by no further hexadecimal pair |
| `Codec.DecodeInjective` | src/infrastructure/crypto/url-signer.ts:67-74 | hexadecimal decoding is injective on canonical digests |
| `Codec.UuidGroups` | src/common/validation/uuid.ts:1-9 | an id is accepted exactly when it is runs of 8, 4, 4, 4 and 12 hexadecimal digits joined by hyphens |
| `Codec.CanonIsCanonical` | src/common/validation/uuid.ts:3-9 | the database's spelling of an accepted UUID is again an accepted UUID, and stable |
| `UrlSigner.HexEqualMeaning` | src/infrastructure/crypto/url-signer.ts:67-74 | against a digest the comparison accepts exactly the texts that spell it, in either case, whatever follows short of another pair |
| `UrlSigner.HexEqualCanonical` | src/infrastructure/crypto/url-signer.ts:67-74 | between digests the comparison is equality |
| `UrlSigner.PayloadInjective` | src/infrastructure/crypto/url-signer.ts:62-64 | the signed text determines file and expiry, whatever notation the number is printed in |
| `UrlSigner.ClaimMatchesIssue` | src/infrastructure/crypto/url-signer.ts:54-57 | a claim that matches another payload's signature names that file and expiry, or the hash collides on the two payloads |
| `UrlSigner.VerifyMeaning` | src/infrastructure/crypto/url-signer.ts:37-60 | accepted if and only if the expiry reads as an integer and is not past, a file is named, and the signature spells the keyed hash of file, dot and expiry; otherwise the reason is that of the first condition that fails |
| `UrlSigner.AcceptedUntilExpiry` | src/infrastructure/crypto/url-signer.ts:23-60 | a signed link is accepted at every moment before the end of its expiry second and refused as expired ever after |
| `UrlSigner.LinkLifetime` | src/infrastructure/crypto/url-signer.ts:23-52 | it lives at least ttl seconds and less than one more, and once expired stays expired |
| `Filenames.SafeIffFixed` | src/infrastructure/storage/local-blob-storage.ts:35-38 | a name is left alone by sanitising exactly when it is non-empty, at most 180 long and made of allowed characters |
| `Filenames.SanitizedIsSafe` | src/infrastructure/storage/spaces-blob-storage.ts:86-90 | both sanitisers yield such a name from any string |
| `Filenames.SanitizeIdempotent` | src/infrastructure/storage/local-blob-storage.ts:35-38 | sanitising twice is sanitising once |
| `Filenames.SanitizersAgree` | src/infrastructure/storage/spaces-blob-storage.ts:86-90 | the two sanitisers agree on every name without backslash and trailing slash |
| `Filenames.RunBecomesUnderscore` | src/infrastructure/storage/local-blob-storage.ts:36 | each whole run of other characters becomes one underscore, whatever surrounds it |
| `Filenames.OnlyTheNameCounts` | src/infrastructure/storage/spaces-blob-storage.ts:87 | only the last part of a path counts: on disk after the last slash but for trailing ones, in the object store after the last slash or backslash |
| `Filenames.AllowedIsClipped` | src/infrastructure/storage/local-blob-storage.ts:35-38 | a name of allowed characters is cut after 180 of them and in no other way, and an empty one becomes "upload.bin" |
| `Filenames.LocationInjective` | src/infrastructure/storage/local-blob-storage.ts:11-15 | files with different ids never share a location, whatever their names, on either backend |
| `Filenames.LocalStaysInRoot` | src/infrastructure/storage/local-blob-storage.ts:11-15 | a location on disk is an entry of the upload directory itself, whatever the client called the file |
| `Retry.BackoffDelay` | src/infrastructure/resilience/backoff.ts:2-6 | the delay is the millisecond nearest to a share of the capped delay that goes with the draw from one half to all of it |
| `Retry.CappedDelayDoubles` | src/infrastructure/resilience/backoff.ts:3-4 | the capped delay is the base at first and doubles with each attempt, both cut off at the maximum |
| `Retry.WithRetry` | src/infrastructure/resilience/with-retry.ts:19-73 | every call before the last failed with a retryable error, in time and with an attempt left; the last succeeded, failed for good, was the last allowed, or ended past the time; it ends as that call did, at the time computed from durations and delays; the counters move by the retries and the exhaustion |
| `Retry.CallCountUnique` | src/infrastructure/resilience/with-retry.ts:31-41 | the number of calls is determined and within the allowed attempts |
| `Retry.CallCountMeaning` | src/infrastructure/resilience/with-retry.ts:31-44 | a number of calls is the one made if and only if it is allowed, each call before it is retried, and it meets a reason to stop |
| `Retry.NeverGivesUpEarly` | src/infrastructure/resilience/with-retry.ts:31-67 | an allowed call that every earlier one is retried towards is made, and if it succeeds it is the last |
| `Retry.CallsStartInTime` | src/infrastructure/resilience/with-retry.ts:37-41 | every call starts before the time budget plus one maximal delay (a single call at zero when both are zero) |
| `Retry.SleepBounds` | src/infrastructure/resilience/with-retry.ts:61-66 | time asleep is at most both (n-1) maximal delays and the doubling sum, and at least half of the capped delays; elapsed time is calls plus sleep |
| `Retry.Resilient` | src/infrastructure/resilience/resilient-proxy.ts:35-48 | if calls 1 to k-1 fail with retryable errors in time, call k is made, and its success is returned; the final error is "retries exhausted" exactly when its cause is retryable, which happens only at the last allowed attempt or past the time; how operations, calls and both counters move, so that they stay conserved over any sequence |
| `Retry.TransientCodes` | src/infrastructure/resilience/error-classifiers.ts:10-50 | the codes worth a retry, for the database and for the storage; none is so for both |
| `RetriedCalls.LoopIsTurn` | src/infrastructure/resilience/resilient-proxy.ts:35-48 | what the attempts of the retry loop do to the stores is what the services' view of one call says; the value the loop returns is the one that view gives the caller, and it throws exactly when that view does |
| `Tables.ConstraintsKept` | src/infrastructure/database/migrations.ts:4-25 | no statement or storage operation breaks a declared constraint |
| `Tables.FilesEffect` | src/modules/files/file.repository.ts:18-54 | after any call a file row is the same but for its name, or the one inserted; it goes only by its own delete |
| `Tables.LinksEffect` | src/modules/signed-links/signed-link.repository.ts:18-52 | after any call a link row is the same but for its revocation, or the one inserted; it goes only with its file; a revocation time is never overwritten |
| `Tables.LinkForUnique` | src/modules/signed-links/signed-link.repository.ts:34-43 | the lookup by file and signature finds the row wherever there is one |
| `Tables.EventsOfInOrder` | src/modules/audit/audit.repository.ts:30-39 | a sequence is what the query answers if and only if it lists, latest position first, every event of the file in the log and nothing else |
| `System.RunGrows` | src/infrastructure/database/migrations.ts:29-39 | over any run the log only grows at its end, and births, drawn ids and the clock never go back |
| `Preservation.StepKeepsInv` | src/modules/files/services/delete-file.service.ts:18-34 | every event -- call, failure, retry, crash, arrival, tick -- keeps the invariant of all tables and requests |
| `Preservation.ReachableInv` | src/modules/downloads/services/download-file.service.ts:27-41 | the invariant holds in every reachable state, under every interleaving and every failure |
| `Guarantees.GrantedAtLookup` | src/modules/signed-links/services/redeem-signed-link.service.ts:16-55 | whoever holds a grant arrived with its claim at the clock time it was checked against, and at its own later lookup found that row, with that signature, in the table and unrevoked |
| `Guarantees.DownloadIsJustified` | src/modules/downloads/services/download-file.service.ts:27-41 | a download that returns did so; its claimed expiry was not before the clock at its arrival; the row's file and expiry are the claimed ones, or the hash collides; it returns exactly the uploaded bytes and is logged |
| `Guarantees.LinkTable` | src/modules/signed-links/services/create-signed-link.service.ts:29-49 | every link's file is live, its user that file's owner, its signature that of its own file and expiry, its ttl in range; at most one link per file and second; the lookup finds it |
| `Answers.RevokedIsJustified` | src/modules/signed-links/services/revoke-signed-link.service.ts:14-31 | in every run, whoever is answered that a link was revoked asked for it, then revoked it himself where it was still to be revoked, then logged it |
| `Answers.RevokerMayRely` | src/modules/signed-links/services/revoke-signed-link.service.ts:18-31 | from his update on, if the file cannot come back or the signature not be issued again, no request is granted the link that was not granted it before |
| `Answers.DeletedIsJustified` | src/modules/files/services/delete-file.service.ts:18-34 | whoever is answered that a file was deleted asked for it, owned it, logged it, then removed the row, then the blob |
| `Answers.SignedIsJustified` | src/modules/signed-links/services/create-signed-link.service.ts:29-66 | whoever is given a link asked for it, owned the file, had its expiry counted from the clock, inserted it and logged it; the answer is that link's |
| `Answers.RenamedIsJustified` | src/modules/files/services/update-file.service.ts:14-39 | whoever is answered with a renamed row asked for it, owned the file, renamed that row and logged it; answered with none, he found it gone and logged all the same |
| `Witnesses.DeletedFileRenamed` | src/modules/files/services/update-file.service.ts:27-38 | a concrete run without failures ends with a rename logged after the deletion of its file and answered with no row |
| `HistoryAccess.HistoryOutlivesFile` | src/modules/audit/services/list-audit-events.service.ts:18-31 | the owner's listing of a file that ever had a row is never refused, in any continuation, even if the file is deleted between its reads |
| `HistoryAccess.LogIsTheOwners` | src/modules/files/services/delete-file.service.ts:18-33 | every file gone was deleted by its owner on the record; every event is the owner's or the rejection of an unknown link |
| `HistoryAccess.HistoryIsJustified` | src/modules/audit/services/list-audit-events.service.ts:18-31 | an answered listing arrived, then looked for the file and was admitted by the row or by a record of its caller, then shows every event of the file in the log as it was when read, newest first, ending with all that was logged before it arrived |
| `HistoryAccess.ShownToOwner` | src/modules/audit/services/list-audit-events.service.ts:21-28 | in every run, whoever was shown a history is the owner, or is called "unknown", found no row, and has the rejection of an unknown link on record |
| `HistoryAccess.ListingAnsweredIff` | src/modules/audit/services/list-audit-events.service.ts:18-31 | in any reachable state an undisturbed listing is answered, with every event of the file, newest first, if and only if its id is well formed and its caller is the owner, or is called "unknown" while there is no row and such a rejection is on record |
| `Lifecycle.GoneForGoodIff` | src/modules/files/file.repository.ts:18-54 | a file without a row has none in any continuation, if and only if its upload can no longer insert it |
| `Revocation.RevocationPermanent` | src/modules/signed-links/signed-link.repository.ts:45-52 | over every continuation the lookup finds no row or the same revoked one, once the file cannot come back or the signature cannot be issued again |
| `Revocation.NeverGrantedAgain` | src/modules/signed-links/services/redeem-signed-link.service.ts:31-44 | from then on no request that does not hold a grant on that file and signature already is ever granted it |
| `Revocation.PermanentIff` | src/modules/signed-links/signed-link.repository.ts:18-52 | at any time, expired or not: revocation is permanent if and only if the file's upload can no longer insert its row, or the signature cannot be issued for that file again |
| `Revocation.PermanentIffSettled` | src/modules/signed-links/signed-link.repository.ts:18-52 | until the link's final second: if and only if the file's upload can no longer insert its row |
| `Witnesses.DeletedFileReturns` | src/infrastructure/resilience/with-retry.ts:31-67 | a concrete run deletes a file, on the record, and has it back |
| `Witnesses.UnsettledRevocationReachable` | src/infrastructure/resilience/with-retry.ts:31-67 | a concrete run reaches a link, revoked before its final second, whose revocation is not permanent |
| `StoredBytes.EveryRowHasItsBlob` | src/modules/files/services/upload-file.service.ts:14-33 | in every reachable state each row whose insert was reported truly has its blob, with exactly the uploaded bytes and the recorded size, within the limit |
| `StoredBytes.BlobSafeIff` | src/modules/files/services/upload-file.service.ts:17-32 | in every continuation the file's row, whenever it has one, has its blob -- if and only if it has it now, its upload has ended and no delete of it is about to remove the blob, or it has no row and its upload can no longer insert one |
| `Witnesses.RowWithoutBlobReachable` | src/modules/files/services/upload-file.service.ts:29-31 | a concrete run leaves a row without its blob |
| `OrphanedBlobs.OrphanedForGoodIff` | src/modules/files/services/upload-file.service.ts:17-32 | in every continuation the uploaded bytes are stored without a row -- if and only if they are now, the upload has ended, and no delete that found the row is under way |
| `Witnesses.OrphanReachable` | src/modules/files/services/upload-file.service.ts:17-20 | a concrete run, lost between its two writes, leaves such bytes for good |
| `AuditFacts.RevocationsAreFacts` | src/modules/signed-links/services/revoke-signed-link.service.ts:14-31 | however many revokers race, each link has at most one revocation event, and every such event of a live file names a revoked link of that file, for files whose insert and link events were never misreported (the second needs only the insert) |
| `AuditFacts.NoMoreEventsThanLinks` | src/modules/signed-links/services/create-signed-link.service.ts:42-57 | such a live file never has more generation events than links |
| `Witnesses.LinkLoggedTwice` | src/modules/audit/audit.repository.ts:14-28 | with misreported appends both fail: a concrete run with one link, two events of its making and two of its revocation |
| `Witnesses.LogTellsOfNoLink` | src/infrastructure/resilience/with-retry.ts:31-67 | with a misreported insert and no misreported event the count fails: a concrete run ends with a live file, no links and one generation event |
| `Witnesses.LinkRevokedTwice` | src/infrastructure/resilience/with-retry.ts:31-67 | with misreported inserts and no misreported event the other fails in both halves: a concrete run has a live file whose log says an unrevoked link was revoked, and then two revocations of one link |
| `RevocationLog.RevokedOnceIff` | src/modules/signed-links/services/revoke-signed-link.service.ts:18-31 | in every continuation the log has at most one revocation of a link -- if and only if it has at most one now, the link is revoked, no request is about to log that in any spelling, and its file's upload can no longer insert the row or no request is about to insert the link |
| `RevocationLog.ReachableOwnRows` | src/modules/signed-links/services/create-signed-link.service.ts:40-49 | in every reachable state a row whose id belongs to a request still at its insert is, but for revocation, the row that request inserts |
| `LogCounts.WithinIff` | src/modules/signed-links/services/create-signed-link.service.ts:42-57 | for a live file whose upload is settled: in every continuation whose failures have no effect the log tells of no more links than there are, as long as the file lives -- if and only if this holds now, counting the requests about to log |
| `LogCounts.UnsettledExceeds` | src/modules/signed-links/services/create-signed-link.service.ts:42-57 | for a live file whose upload can still insert it, such a continuation breaks it, if anything is or is about to be logged of its links or its owner can sign it |
| `LogCounts.MisreportsExceed` | src/modules/audit/audit.repository.ts:14-28 | once appends may be misreported no state is safe: a continuation breaks it whenever a request is about to log or the owner can sign |
| `Quiescence.QuietLogTells` | src/modules/signed-links/services/revoke-signed-link.service.ts:18-31 | after any failure-free run, however interleaved, with nothing in flight: for each live file the log tells of exactly as many links of each lifetime and expiry as there are, and exactly of the revoked ones as revoked |
| `AuditFacts.RunKeepsLogInv` | src/modules/signed-links/services/revoke-signed-link.service.ts:18-31 | the facts behind both are kept by every run |
| `Sequential.RepeatsActOnce` | src/infrastructure/resilience/resilient-proxy.ts:35-48 | a call other than an audit append, however often repeated, acts once or not at all |
| `Sequential.AppendsAccumulate` | src/modules/audit/audit.repository.ts:14-28 | an audit append leaves one event for every attempt that took effect |
| `Sequential.ResumeDescends` | src/modules/downloads/services/download-file.service.ts:27-41 | every reply brings every service nearer its end |
| `Sequential.HandleIsRun` | src/modules/downloads/services/download-file.service.ts:27-41 | a request handled alone is a run of the system |
| `Sequential.HandleAllIsRun` | src/modules/files/services/batch-delete-files.service.ts:17-34 | requests handled one after another are a run of the system |
| `TwoPhase.DownloadAlone` | src/modules/downloads/services/download-file.service.ts:27-35 | an undisturbed download gets past its checks exactly when both phases pass |
| `TwoPhase.TwoPhasesAreOneLook` | src/modules/downloads/services/download-file.service.ts:27-35 | in any reachable state it does so if and only if the table holds the row with this file and signature, unrevoked, with the claimed expiry, not expired -- or the hash collides |
| `Outcomes.UploadOutcome` | src/modules/files/services/upload-file.service.ts:14-55 | for any upload and every way its three calls can end: which code refuses it, when the row, field by field, is there, when the blob is there, and when the caller is told so |
| `Accounting.UploadAnsweredIff` | src/modules/files/services/upload-file.service.ts:14-55 | in any reachable state, undisturbed and under a fresh id: answered if and only if user and file are named and the content is neither empty nor above the limit, with the row field by field and the bytes stored; otherwise nothing changes and the code is that of the first condition that fails |
| `Outcomes.RowWithoutBlobIff` | src/modules/files/services/upload-file.service.ts:20-32 | an upload leaves a row without its blob if and only if the insert took effect in an attempt reported as failed and the compensation took effect |
| `Outcomes.DeleteOutcome` | src/modules/files/services/delete-file.service.ts:18-34 | for any delete and every way its calls can end: refusals have their codes and change nothing; event, row with its links, then blob go, each only after what precedes it was reported done |
| `Outcomes.DeleteUndoesUpload` | src/modules/files/services/delete-file.service.ts:18-34 | deleting what was just uploaded restores files, links and blobs, and the log gains one event |
| `Outcomes.SignOutcome` | src/modules/signed-links/services/create-signed-link.service.ts:29-66 | for any signing and every way its calls can end: which code refuses it, when the link, field by field, is there, how many events are written, and what the owner is told |
| `Outcomes.RevokeOutcome` | src/modules/signed-links/services/revoke-signed-link.service.ts:14-31 | likewise for any revocation, of a link that is there to revoke or not, including the revoked link the owner is told was not found |
| `Outcomes.DownloadOutcome` | src/modules/downloads/services/download-file.service.ts:27-41 | for any download and every way its calls can end: the code of each refusal; for a revoked link, an unknown one and a good one each its own event, once per effective append, and its own answer; nothing else changes |
| `Accounting.EveryChangeAccounted` | src/modules/signed-links/services/create-signed-link.service.ts:42-57 | undisturbed, every request changes no table and no blob, or adds the file it answers with and exactly its bytes, or makes one change and writes the one event that reports it, and only a delete touches a blob, its own |
| `Outcomes.RenameOutcome` | src/modules/files/services/update-file.service.ts:14-38 | for any rename and every way its calls can end: which code refuses it; the row has the trimmed name exactly when the update took effect; the log gets one event with the name replaced and the name set per effective append, exactly when the update was reported; and what the owner is told |
| `Outcomes.HistoryOutcome` | src/modules/audit/services/list-audit-events.service.ts:18-31 | for every way its calls can end: a listing changes nothing and is answered with every event of the file, newest first, refused with the code the case calls for, or broken |
| `Replay.LogReplaysToTables` | src/modules/files/services/update-file.service.ts:28-36 | after any undisturbed sequence from an empty service the log speaks only of uploaded files, its deletions are exactly those of them without a row, and for every live file it gives the name (renames chained), the links by ttl and expiry, and the revoked link ids |
| `Witnesses.RacingRenamesDisagree` | src/modules/files/services/update-file.service.ts:28-36 | names can disagree when renames race: a concrete run leaves the row with one name and the log ending in the other |
| `RacingRenames.RenamesAgreeIff` | src/modules/files/services/update-file.service.ts:28-36 | delivering the pending rename events in any order leaves the log's last name equal to the row's -- if and only if every pending one is of a rename to the name the row has, or none is pending and they are equal now |
| `Witnesses.StrangerReadsHistory` | src/modules/audit/services/list-audit-events.service.ts:26-31 | a concrete run shows a caller named "unknown" the history of a file that was never his |
| `Backend.Stores.ListEvents` | src/modules/audit/audit.repository.ts:30-39 | the listing loop returns every event of the file, newest first |
| `Backend.Stores.FindLink` | src/modules/signed-links/signed-link.repository.ts:34-43 | the lookup answers as the table's lookup function |
| `Backend.Stores.InsertFile` | src/modules/files/file.repository.ts:18-26 | the insert adds the row, or violates a constraint and changes nothing |
| `Backend.Stores.DeleteFile` | src/modules/files/file.repository.ts:52-54 | the delete removes the row and, by cascade, its links |
| `Backend.Stores.InsertLink` | src/modules/signed-links/signed-link.repository.ts:18-24 | the insert adds the link, or violates a constraint and changes nothing |
| `Backend.Stores.RevokeLink` | src/modules/signed-links/signed-link.repository.ts:45-52 | the conditional update sets the time on an unrevoked link of that file, and says whether it did |
| `Backend.Stores.Invoke` | src/infrastructure/resilience/resilient-proxy.ts:28-48 | a wrapped call performs its attempts in order and answers as the last one |
| `Services.FileAccessService.GetOwned` | src/modules/files/services/file-access.service.ts:10-25 | malformed id, absent file, foreign file and own file, each with its answer |
| `Services.UploadFileService.Execute` | src/modules/files/services/upload-file.service.ts:14-33 | stores and response are those of an upload handled alone, for every way its calls can end |
| `Services.UpdateFileService.Execute` | src/modules/files/services/update-file.service.ts:14-39 | likewise for a rename |
| `Services.DeleteFileService.Execute` | src/modules/files/services/delete-file.service.ts:18-34 | likewise for a delete |
| `Services.CreateSignedLinkService.Execute` | src/modules/signed-links/services/create-signed-link.service.ts:29-66 | likewise for signing |
| `Services.RevokeSignedLinkService.Execute` | src/modules/signed-links/services/revoke-signed-link.service.ts:14-32 | likewise for a revocation |
| `Services.RedeemSignedLinkService.Execute` | src/modules/signed-links/services/redeem-signed-link.service.ts:16-56 | the lookup and the one event of each branch, between the download's access check and its blob read |
| `Services.DownloadFileService.Execute` | src/modules/downloads/services/download-file.service.ts:27-41 | likewise for a download |
| `Services.ListAuditEventsService.Execute` | src/modules/audit/services/list-audit-events.service.ts:18-31 | likewise for a history listing |
| `Batches.BatchDeleteFilesService.Execute` | src/modules/files/services/batch-delete-files.service.ts:17-34 | an empty batch and one above the limit are refused with their codes and change nothing; otherwise the batch is its items handled one after another, and the report is theirs |
| `Batches.BatchUploadFilesService.Execute` | src/modules/files/services/batch-upload-files.service.ts:18-34 | likewise for uploads |
| `Batches.DeletePartition` | src/modules/files/services/batch-delete-files.service.ts:20-33 | deleted and failed are an order-preserving partition of the input, each failure with the id of its own item, and with a code exactly when that item was refused with it |
| `Batches.UploadPartition` | src/modules/files/services/batch-upload-files.service.ts:21-33 | likewise for uploads, with the row of each success and the name of each failure |
| `Batches.DeletedOnce` | src/modules/files/services/batch-delete-files.service.ts:20-24 | no file is reported deleted twice, however often and in whatever case it is named and whatever fails; each was there before and is not there after |
| `Batches.CodedDeleteFailureChangesNothing` | src/modules/files/services/batch-delete-files.service.ts:25-31 | an item that was refused with a code left all four stores unchanged |
| `Batches.CodedUploadFailureChangesNothing` | src/modules/files/services/batch-upload-files.service.ts:25-31 | likewise for uploads |
| `Batches.BatchAddsWhatItReports` | src/modules/files/services/batch-upload-files.service.ts:18-34 | whatever the stores hold, while failures have no effect, the number of rows grows by exactly the number of uploads reported |
| `Container.BuiltAsAssumed` | src/container.ts:101-170 | the services as put together, on either backend, meet every assumption the results about runs make of them, with the limits, the trimming and the naming scheme they were given |

## Left out

- StoredBytes.EveryRowHasItsBlob: excludes files whose insert took effect in an attempt reported as failed, because for those it can fail (`Witnesses.RowWithoutBlobReachable`); the condition that decides it for any file and any interleaving is that of `StoredBytes.BlobSafeIff`.
- AuditFacts.RevocationsAreFacts: excludes files with a misreported insert (`Witnesses.LinkRevokedTwice`) and, for uniqueness, with a misreported append of an event about making or revoking a link (`Witnesses.LinkLoggedTwice`), because for those it can fail; the condition that decides uniqueness for any link in the table and any interleaving is that of `RevocationLog.RevokedOnceIff`.
- AuditFacts.NoMoreEventsThanLinks: the same exclusions (`Witnesses.LogTellsOfNoLink`, `Witnesses.LinkLoggedTwice`); the condition on the state, while failures have no effect, is that of `LogCounts.WithinIff` and `LogCounts.UnsettledExceeds`, and with misreported appends there is none that a file which can be signed meets (`LogCounts.MisreportsExceed`).
- LogCounts.UnsettledExceeds: leaves open a live file whose upload can still insert it, of which nothing was ever logged and which can no longer be signed because every remaining expiry's signature is taken.
- HistoryAccess.HistoryOutlivesFile: promises that the owner is not refused; an infrastructure failure of one of the reads is still an error.
- Replay.LogReplaysToTables: the name a file was uploaded under is not in the log, so the fold starts from the upload's own answer.
- Outcomes.UploadOutcome: the exact outcomes are for a request no other is interleaved with, whose attempts of one call share one clock reading; the results about runs do not have these limits.
- HTTP routes, controllers, request schemas, URL building and the OpenAPI document: thin adapters over the services.
- HMAC-SHA256 itself and the timing of the comparison; the hash is a parameter.
- The pg driver, the S3 client and the file system: their calls are the operations of `Tables`. An effect that arrives after its attempt was already reported as failed and retried is not modelled.
- `exists` on local disk answers false for every error of the file system, and on Spaces rethrows all but "not found"; here an existence check answers truly or throws.
- `created_at` columns and ties between equal timestamps: the log is ordered by insertion.
- The read-only services `GetFileService`, `ListFilesService` and `ListSignedLinksService`: lookups behind the same ownership guard.
- Hexadecimal decoding of characters outside ASCII, and `expires` texts that `Number` reads as non-integers: the first is out of scope, the second are refused as invalid.
- Numbers of 10^21 and more print in exponent notation through two uninterpreted functions; only the "e" between them matters here.
- A `ttlSeconds` that is not an integer, and expiry dates beyond the range of `Date`: the first is rejected like one out of range; the configured limit keeps the second away until the clock itself nears the end of that range.
- Backoff uses real numbers and rounds half up; sleeping takes exactly the computed delay.
- Logging, the text of error messages and the metrics registry; the two retry counters are kept.
- Health checks, configuration parsing, connection pooling and running the migrations.
