# Email scanner service: the incremental mail-scan pipeline

A Dafny model of the scan pipeline of a Python service. The service polls a
mailbox through the Microsoft Graph API. For each new message it records a row
in PostgreSQL, uploads the message's attachments to S3, records one document
row per attachment, and publishes the message's work id to SQS. At the end of a
run it writes a per-mailbox watermark: the received time and id of the latest
message it saw. The next run uses that watermark to bound its query window.

Layout, one module per file:

- `fetch_email.dfy` (`FetchEmail`) covers one run of `fetch_new_emails_from_graph`.
  - `FetchNewEmails` is the imperative run: a `while` loop over pages, an inner loop over messages, and a final watermark write.
  - `FetchNewEmails` is proved equal to the pure specification `RunSpec`. The proof goes through `PageLoop`, `MsgFold` and `MsgStep`.
  - Every outcome the run cannot know in advance is a parameter of type `Env`: authentication, the folder listings, each GET of the listing, the per-message storage outcomes, fresh ids and "now".
- `scan_properties.dfy` (`ScanProperties`) holds what is proved about a run:
  - the subject filter;
  - the per-message pipeline;
  - the watermark being the latest tracked message;
  - the requests following `@odata.nextLink`;
  - the counters agreeing with the results;
  - the watermark write at most once, never for a run that tracked nothing.
- `attachments.dfy` (`Attachments`) covers `process_attachments`. `ProcessAttachments` is a loop method proved equal to `ProcessSpec`, with lemmas on counting and per-item isolation.
- `db.dfy` (`Db`) is the database as a class holding three tables as sequences. Its three writing calls are methods: `InsertEmail`, `InsertDocument` and `UpdateScannerState`.
- The read-only and record-building parts, as functions:
  - `email_records.dfy`: the email row and the duplicate lookup.
  - `document_records.dfy`: the document row.
  - `scanner_state.dfy`: the watermark table's upsert and its latest-timestamp lookup.
- `push_s3.dfy` covers the S3 key and URL. The bucket is a class with an upload method.
- Pure helpers:
  - `document_type.dfy`: the extension allow-list.
  - `folder_id.dfy`: folder lookup.
  - `settings.dfy`: `SQS_QUEUE_URL` and `VERIFY_SSL`.
  - `scan_name.dfy`: the scan label.
- `scheduler.dfy` covers the scheduler flag of `main.py`, as a class.
- `common.dfy` holds `Option`, `Result`, `DbCall` and Python string helpers. `LexLess` is Python's `<` on `str`.

Modelling conventions:

- **Storage call outcomes.** A storage call ends in one of three ways:
  - `NoConnection`: the connection factory gave None;
  - `StatementError`: the statement raised;
  - `Completed`.
- **Received times** are strings compared lexicographically, as the code compares them (`service/fetch_email.py:110`).
- **The query lower bound** is integer minutes. Parsing a stored timestamp is a partial function given as a parameter.
- **The listing** is a finite sequence of GET responses. A GET beyond its end fails, so a listing whose `nextLink` never ends shows up as a failed run.
- **Tracked state.** The tracked pair `last_timestamp`/`last_email_id` uses `""` for None. Every path that finds the timestamp falsy overwrites both, so the two encodings behave alike.

Behaviours of the code that the model keeps as written:

- **Skipped messages.**
  - `RE:`/`FW:` messages are skipped (`service/fetch_email.py:103-104`) before the tracking step (`:110-112`), so they never move the watermark. Every message that passes the subject filter does, whatever its outcome: duplicates, null senders, messages without a recipient and failed inserts included.
  - `ScanProperties.SkippedMessageUntouched` and `ScanProperties.NothingTrackedNoWrite` state this: a run of only skipped messages writes nothing.
- **Messages without a recipient.**
  - The recorder's debug line reads the first recipient without a guard (`db/insert_email.py:25`). With no truthy to-address it raises IndexError after the work id is drawn, so the insert returns None (`:62-66`).
  - The orchestrator then counts a failure (`service/fetch_email.py:149-153`). Such a message is never recorded (`ScanProperties.NoRecipientNeverRecorded`).
- **Message ids longer than 255 characters.**
  - The recorder stores the message id in full (`db/insert_email.py:38`).
  - The duplicate lookup searches for its first 255 characters (`db/check_email.py:24`).
  - So a recorded message with a longer id is never found again (`EmailRecords.RecordedLongIdNotFound`). This is modelled as written.
- **The watermark update branch.** Each run generates a fresh scanner id and entity id. So the orchestrator never takes the update branch of the watermark upsert (`ScanProperties.FreshKeyInserts`). The run's `scan_count` is the new-message count of that run alone.

## Model

| member | source | states |
|---|---|---|
| Common.Take | db/insert_email.py:39-43 | `s[:n]` is the prefix of `s` of length `min(n, |s|)`: equal to `s` when it fits, exactly `n` long otherwise |
| Common.LexLessTransitive | service/fetch_email.py:110 | the string `<` the tracking compares with is transitive |
| Common.LexLessTotal | service/fetch_email.py:110 | of two distinct strings one is `<` the other, so "latest" is well defined |
| Settings.GetEnv | config/settings.py:9 | an unset variable yields the default; a set one, even `""`, keeps its value |
| Settings.LoadConfig | config/settings.py:9-35 | Graph endpoint and bucket default to `https://graph.microsoft.com/v1.0` and `invoice-attachments` when unset; the endpoint URL is kept as is |
| Settings.SqsQueueUrl | config/settings.py:38-49 | a URL exists iff the queue name is truthy; it ends in `/name`; with an endpoint it starts `endpoint/000000000000/`, otherwise `https://sqs.<region>.amazonaws.com/<account or None>/`; its length is that prefix's plus the name's |
| Settings.VerifySsl | config/settings.py:32 | on when unset; otherwise on iff the lower-cased value is `true`, `1` or `yes` |
| Settings.VerifySslCaseInsensitive | config/settings.py:32 | two values equal up to letter case give the same flag; only 1-, 3- or 4-character values can switch it on |
| DocumentType.GetDocumentType | utils/document_type.py:21-33 | Ok iff the lower-cased suffix of the last path component that is neither empty nor `.` is in the allow-list; the result is one of the ten types and equals the suffix without its dot; otherwise the `Unsupported document type: '<ext>'` error |
| DocumentType.NeverInvoice | utils/document_type.py:7-18 | no file name maps to `INVOICE` |
| DocumentType.NameSuffix | utils/document_type.py:26 | the suffix is `""` or starts at a dot that is neither first nor last, contains no other dot, and ends the name |
| DocumentType.ExtensionOfName | utils/document_type.py:26 | for `stem + ext` with no directory part, the extension is `ext` lower-cased, whatever dots the stem holds |
| DocumentType.LastSuffixDecides | utils/document_type.py:26-33 | the type of `stem.ext` is decided by `.ext` alone, in any letter case |
| DocumentType.InnerSuffixIgnored | utils/document_type.py:26 | `a.zip.pdf` is `pdf` |
| DocumentType.OuterSuffixDecides | utils/document_type.py:26 | `a.pdf.zip` is rejected |
| DocumentType.UpperCaseAccepted | utils/document_type.py:26 | `SCAN.PDF` is `pdf` |
| DocumentType.HiddenFileRejected | utils/document_type.py:26 | a file named `.pdf` has no suffix and is rejected |
| DocumentType.TrailingComponentsIgnored | utils/document_type.py:26 | a trailing `/` or `/.` does not change the type: `x.pdf/.` is `pdf` |
| ScanName.Digits | utils/scan_name.py:6 | a zero-padded field has exactly its width, all digits |
| ScanName.DigitsRoundTrip | utils/scan_name.py:6 | reading a padded field back gives the number |
| ScanName.FormatUtcLayout | utils/scan_name.py:6 | the stamp is 23 characters with its separators and ` UTC` at fixed places |
| ScanName.ShortId | utils/scan_name.py:5 | the short id is 6 upper-case hex characters |
| ScanName.ScanNameLayout | utils/scan_name.py:4-7 | `SCAN \| folder \| email \| stamp \| #ID`: folder first, both names unchanged, each part set off by ` \| `, the stamp in place, `#` and the short id of the uuid at the end, length 46 plus the two names |
| FolderId.FirstMatch | graph/folder_id.py:28-35 | the position of the first folder whose display name equals the name, or none when no folder has it |
| FolderId.GetFolderId | graph/folder_id.py:8-66 | a failed first fetch is re-raised; a top-level match wins; otherwise a failed children fetch is re-raised and the first matching child wins; a result is the id of a matching folder of either list; the not-found error only when neither list matches |
| FolderId.ChildrenOnlyOnMiss | graph/folder_id.py:37-53 | with a top-level match, the inbox children (even a failure to fetch them) do not affect the answer |
| FolderId.CaseSensitive | graph/folder_id.py:29 | `inbox` does not find `Inbox` |
| FolderId.FirstListedWins | graph/folder_id.py:28-35 | of two top-level folders with the name, the first listed wins |
| PushS3.ContentTypeParam | aws/push_s3.py:26-27 | ContentType is sent iff the content type is truthy |
| PushS3.KeysNamespacedAndDistinct | aws/push_s3.py:17-18 | every key lies under `emails/<id>/attachments/`; distinct uuids give distinct keys whatever the file names |
| PushS3.UrlLayout | aws/push_s3.py:31 | the URL is endpoint (or `None`), `/`, bucket, `/`, key, and nothing else: its length is the three parts' plus 2 |
| PushS3.Bucket.UploadAttachment | aws/push_s3.py:10-39 | on success one object is added under the generated key and its URL returned; on any failure None and the bucket unchanged |
| EmailRecords.RowNormalisation | db/insert_email.py:15-54 | the id is kept whole; thread id, sender address and name, first recipient are prefixes cut to 255 and subject to 500 (`""` if empty): equal when they fit, exactly the width when they do not; cc holds each entry's address, `""` where it has none; status `RECEIVED`; body and received time fill both columns; work and entity ids as given |
| EmailRecords.HasRow | db/check_email.py:23 | the `EXISTS` query: true iff some row carries exactly the key |
| EmailRecords.CheckEmail | db/check_email.py:4-44 | false whenever the call does not complete; an id that fits 255 characters is found iff some row carries it; a longer id is found iff some row carries a 255-character prefix of it, never by a row holding the id itself |
| EmailRecords.RecordedShortIdFound | db/check_email.py:23-26 | a recorded message whose id fits 255 characters is found |
| EmailRecords.RecordedLongIdNotFound | db/check_email.py:24 | a recorded message with a longer id is not found |
| DocumentRecords.PrimaryFlag | db/insert_document.py:26 | for a type other than `INVOICE` the flag is false and the content type is not read |
| DocumentRecords.BuildDocumentRow | db/insert_document.py:16-31 | a row exists iff the name is present and has a supported type; the row carries that type, is never primary, is `PENDING`, and links the given document id, work id and URL |
| DocumentRecords.NeverPrimary | db/insert_document.py:26 | `is_primary` is false for every mapped type, even with a missing content type |
| ScannerState.UpsertExisting | db/update_scanner.py:22-34 | an existing row keeps its place, adds the count, and takes the new timestamp, id and status |
| ScannerState.UpsertNew | db/update_scanner.py:35-46 | without a row for the key exactly one row is appended, counting the argument |
| ScannerState.UpsertFrame | db/update_scanner.py:15-46 | other keys' rows are unchanged, no row is removed, and unique keys stay unique |
| ScannerState.MaxTimestamp | db/fetch_last_timestamp.py:14-20 | the greatest non-null timestamp among the account's rows, or none when they are all null |
| ScannerState.LastProcessedTimestamp | db/fetch_last_timestamp.py:6-36 | a value only when the call completes, no row of the account is null (NULLs sort first) and it is non-empty; it is a stored timestamp not below any other of the account |
| ScannerState.EmptyMaxMeansAllEmpty | db/fetch_last_timestamp.py:26-32 | a greatest timestamp of `""` means every stored one is `""` |
| ScannerState.WatermarkNeverRegresses | db/fetch_last_timestamp.py:14-30 | after a write under a fresh key, the account's lookup is not below the one before |
| Db.Database.InsertEmail | db/insert_email.py:6-70 | a missing connection raises; otherwise with no recipient, or a failing statement, None and no row; on completion with a recipient one row under the fresh work id is appended and the id returned; other tables unchanged |
| Db.Database.InsertDocument | db/insert_document.py:7-48 | an id iff the call completes and the row can be built; then exactly that row is appended; otherwise nothing |
| Db.Database.UpdateScannerState | db/update_scanner.py:5-62 | true iff the call completes, with the table upserted; otherwise the table unchanged |
| Attachments.ItemStepEffect | graph/attachments.py:53-123 | one attachment adds at most one object and one row, a row only with its object, and counts exactly when it individually succeeds |
| Attachments.FoldEffect | graph/attachments.py:53-123 | the loop's count is the number of attachments that succeed; counted ≤ rows ≤ objects ≤ listed; stores only grow |
| Attachments.CountBounded | graph/attachments.py:34-138 | a failed or empty listing returns 0 and stores nothing; otherwise the count is the successes, never more than listed |
| Attachments.SkippedUncounted | graph/attachments.py:63-75 | inline entries and entries without content change nothing and are not counted |
| Attachments.UndecodableIsolated | graph/attachments.py:77-123 | an undecodable entry is passed over and the loop goes on as if it were absent |
| Attachments.UnsupportedLeavesOrphan | graph/attachments.py:82-102 | an unsupported extension leaves its uploaded object, with no row and no count |
| Attachments.ProcessItem | graph/attachments.py:63-123 | one pass of the loop leaves the bucket, the document table and the count as `ItemStep` says; emails and watermark tables unchanged |
| Attachments.ProcessAttachments | graph/attachments.py:10-138 | the loop ends in the state `ProcessSpec` describes (the argument list is ignored); emails and watermark tables unchanged |
| Scheduler.FlagWord | main.py:83 | `running` iff the flag is set, `stopped` iff not |
| Scheduler.Scheduler.constructor | main.py:25 | the flag starts cleared |
| Scheduler.Scheduler.Start | main.py:103-119 | when running: `already_running`, flag kept; otherwise the flag is set and `success` with the interval |
| Scheduler.Scheduler.Stop | main.py:122-133 | when stopped: `not_running`; otherwise the flag is cleared and `success` |
| Scheduler.Scheduler.Status | main.py:136-143 | reports the flag, the interval and `running`/`stopped` as the flag says |
| Scheduler.Scheduler.Health | main.py:77-85 | the service is always `running`; the scheduler part follows the flag |
| Scheduler.ReportsAgree | main.py:77-143 | the status and health endpoints never disagree about the scheduler |
| FetchEmail.Recipients | service/fetch_email.py:123-128 | every kept address is a truthy entry of the list; every truthy entry is kept; the result is empty iff no entry is truthy; its first address is that of the first truthy entry |
| FetchEmail.RecipientsAppend | service/fetch_email.py:123-128 | the comprehension works entry by entry: the list for `a + b` is the list for `a` followed by the list for `b`, so order and repetitions are kept |
| FetchEmail.RecipientsSingle | service/fetch_email.py:126-127 | one entry yields its address iff it is truthy |
| FetchEmail.MsgStep | service/fetch_email.py:98-227 | a message moves the tracked pair exactly as the tracking rule says and never touches the page count or requests |
| FetchEmail.ProcessMessage | service/fetch_email.py:98-227 | the loop body on the database and bucket ends in the state `MsgStep` describes; the watermark table is unchanged |
| FetchEmail.FetchNewEmails | service/fetch_email.py:22-266 | returns the list, counters and requests of `RunSpec` and leaves the stores as `RunSpec` says |
| ScanProperties.ReplyOrForwardShape | service/fetch_email.py:103 | a subject is filtered iff its first three characters are `re:` or `fw:` in any case |
| ScanProperties.SubjectFilterCases | service/fetch_email.py:103 | `RE:`, `Re:`, `re:`, `FW:`, `fw:` are filtered; `Fwd:` and plain subjects are not |
| ScanProperties.SkippedMessageUntouched | service/fetch_email.py:100-104 | a filtered (or null-subject) message changes nothing, watermark included |
| ScanProperties.DuplicateOnlyCounted | service/fetch_email.py:110-118 | a duplicate moves the watermark and `duplicates_skipped` only: no insert, attachment, publish or result |
| ScanProperties.LookupFailureReachesInsert | db/check_email.py:18-37 | a lookup that cannot run treats the message as new: no duplicate counted; with a recipient it is inserted, without one it fails and is counted failed |
| ScanProperties.NullSenderCountsNothing | service/fetch_email.py:133-227 | a null sender aborts the message after tracking, with no counter and no store change |
| ScanProperties.InsertFailureCounted | service/fetch_email.py:148-153 | an insert with no work id (None, exception, or empty) adds one failure and nothing else; the row stays only when the statement committed |
| ScanProperties.NoRecipientNeverRecorded | db/insert_email.py:20-66 | a new message with no truthy to-address is never recorded, whatever the database does: one failure counted, the tracked pair moved, nothing else changed |
| ScanProperties.RecordedMessagePipeline | service/fetch_email.py:149-210 | a recorded message (one with a recipient) counts as new, gets attachments iff flagged, is published (counted iff it succeeds) and appended to results either way |
| ScanProperties.MsgFoldTracked | service/fetch_email.py:98-112 | on a page the tracked pair depends only on the messages, not on any storage outcome |
| ScanProperties.TrackedIsLatest | service/fetch_email.py:110-112 | the tracked time is not below any tracked message's; it belongs to the first message with that time; nothing tracked means none |
| ScanProperties.MsgStepConsistent | service/fetch_email.py:149-210 | one message keeps results and new count equal, publishes ≤ new, results' attachment count 0, and moves at most one of new/duplicate/failed |
| ScanProperties.MsgFoldConsistent | service/fetch_email.py:98-227 | the same over a page, at most one counter step per message |
| ScanProperties.PageLoopTracked | service/fetch_email.py:91-229 | over the page loop the tracked pair is that of the messages of the pages gone through, which never go past the end of the listing |
| ScanProperties.PageLoopCounts | service/fetch_email.py:91-229 | over the page loop the counters stay consistent with the results, and no more messages are counted than the pages gone through hold |
| ScanProperties.PageLoopRequests | service/fetch_email.py:91-93 | one request per page, appended after the earlier ones; none when the URL is falsy |
| ScanProperties.PageLoopRequestsFor | service/fetch_email.py:89-93 | the first request goes to the start URL; every request's URL is truthy and it carries the parameters iff that URL is the base URL |
| ScanProperties.PageLoopLinks | service/fetch_email.py:229 | every later request goes to the nextLink of the page the request before it fetched |
| ScanProperties.PageLoopStops | service/fetch_email.py:91-229 | a request is made iff the URL is truthy; a failed loop ends at a GET past the listing or one that failed; otherwise at a page without a truthy nextLink |
| ScanProperties.GuardsStopEarly | service/fetch_email.py:43-49 | without a user email or queue URL: `[]`, no request, no store or counter change |
| ScanProperties.SetupFailureWritesNothing | service/fetch_email.py:75-88 | a setup failure returns `[]`, makes no listing request and writes nothing |
| ScanProperties.RunRequests | service/fetch_email.py:80-94 | lower bound = stored watermark or now − 7 days, minus 30 minutes; order `receivedDateTime desc`; parameters only on the base URL; later URLs follow nextLink |
| ScanProperties.RunWatermark | service/fetch_email.py:231-266 | the tracked pair is that of the messages fetched; one write with `new_emails` and status `error` iff an exception ended the run; `[]` on failure, the results otherwise |
| ScanProperties.FreshKeyInserts | service/fetch_email.py:232-236 | with the run's fresh key the watermark table is unchanged or gains exactly one row |
| ScanProperties.NothingTrackedNoWrite | service/fetch_email.py:232 | a listing with no tracked message leaves the watermark table untouched |
| ScanProperties.DuplicatesStillTracked | service/fetch_email.py:109-118 | the tracked pair of a page is the same whatever the duplicate outcomes |

## Left out

- Network, authentication and the HTTP session (`graph/auth.py`, `graph/client.py`) are outcomes given as parameters, and so are boto3 and the database connections.
- The publish to SQS is a boolean outcome; `aws/push_sqs.py` is not part of this model.
- `uuid.uuid4`, `datetime.utcnow`, base64 decoding and ISO timestamp parsing are parameters. The regex of the subject filter is a three-character case-insensitive prefix test.
- Letter case is ASCII-only. That is exact for the fixed strings compared (`re:`, `fw:`, the ten extensions, `true`/`1`/`yes`).
- Threads, `time.sleep`, the `/scan` endpoint, `scheduler_job` and concurrent runs are left out. Their point is concurrency; the last writer of the watermark wins.
- The scheduler interval is a constructor argument; parsing `SCHEDULER_INTERVAL_MINUTES` is not modelled.
- Logging and `time.perf_counter` latencies are left out. The scan name is only logged, so `ScanName.BuildScanName` is not called by the run.
- FetchEmail.FetchNewEmails: the message id is always a string. A null id makes the lookup fail open (`db/check_email.py:16`, `:35-37`), then the recorder's id slice raises after the work id is drawn (`db/insert_email.py:22`), so one failure is counted. That case is not modelled.
- FetchEmail.FetchNewEmails: a null `conversationId` or a null sender name or address is not modelled. Each makes the recorder's slice raise (`db/insert_email.py:39-42`), returning None and counting one failure.
- FetchEmail.FetchNewEmails: a null `body` is not modelled. `.get` on None raises at `service/fetch_email.py:140`, and the per-message handler drops the message with no counter.
- FetchEmail.FetchNewEmails: a null `toRecipients`, or a to entry whose `emailAddress` is null, is not modelled. Either raises at `service/fetch_email.py:124-128` and drops the message with no counter.
- FetchEmail.FetchNewEmails: a cc entry whose `emailAddress` is null is not modelled. It raises in the recorder before the work id is bound (`db/insert_email.py:17`), so the handler itself raises and one failure is counted.
- FetchEmail.FetchNewEmails: a null `receivedDateTime` is not modelled. After a tracked message, `None > str` raises at `service/fetch_email.py:110` and the message is dropped unrecorded with no counter.
- FetchEmail.FetchNewEmails: a page whose `value` is null is not modelled. Iterating it raises at `service/fetch_email.py:98`, which ends the run through the run's handler.
- EmailRecords.RowNormalisation: a cc entry whose address is null, rather than absent, is stored as a NULL array element (`db/insert_email.py:17`); the model has one "no address" case and stores `""` for it, as for an absent address.
- Attachments.ProcessAttachments: listing entries are well-formed objects. A malformed entry, which raises outside the per-item handler and returns the count so far, is not modelled.
- ScannerState.LastProcessedTimestamp: the stored timestamp is a string already in `%Y-%m-%dT%H:%M:%SZ` form; datetime formatting is the identity.
- The watermark table is a sequence of rows rather than a map. The key is `(scanner_id, entity_id, account)`, and `UniqueKeys` states one row per key.
