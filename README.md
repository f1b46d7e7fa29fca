# SPHEREx S3 upload agent — a verified model

This project models the core of the SPHEREx S3 upload agent:

- **The upload pipeline of a job.**
  - The entries of the job's manifest are selected (`entries[:count]`).
  - Each entry is uploaded in order by a worker, either as one `put_object` or as a multipart session (initiate, numbered parts, complete, or abort on failure).
  - Each entry gets exactly one progress record.
  - The job is then reported COMPLETED.
- **The shared helpers.**
  - The progress counter.
  - The manifest and job lookups against the control-plane service.
  - The job-creation payload.
  - The unit choice of a human-readable size.
- **The two listing-comparison tools.**
  - They extract a `qr…` name from each line of an `ls` listing with the pattern `.*\s(qr\S+)`.
  - They report the local names missing from the S3 names.
  - The S3-against-local tool also lists the bucket, with a depth filter, numbered lines and a size rendering.
- **The job command-line tool.**
  - Flag-priority dispatch.
  - The "exactly one pending job" run rule.
  - Cancellation of every active job.
  - The report against the first job's manifest.
  - The status counts of a query.
- **The records and enumerations** of the agent, with their defaults.

## How the model is built

There is one module per source file, plus two shared modules:

- `Wrappers`: Option, Result, the Python exception kinds, and Python truthiness of an optional string.
- `Text`: `str(n)`, `f"{n:,}"`, `f"{n:06d}"`, `str.strip`, `len(str.split)` and `\s`.

Code that changes state step by step is modelled as methods with loops. Most methods are proved against a specification function, and the properties are proved as lemmas about that function:

- the multipart part loop, the queue and the worker (`Multipart`, `Uploader`);
- the listing loops and `do_diff` (`QrListing`, `S3Diff`, `LinksDiff`);
- the cancellation loop (`JobsCli`);
- `MessageHandler`'s run of updates (`Utils.HandleUpdates`, against `Utils.Totals`).

Two methods state their result directly in their `ensures` instead: `Utils.HumanReadableSize` (the unit chosen and the scaled value) and `Utils.MessageHandler.HandleUpdate` (the new counts and the logged message).

The object store and the progress handler are classes that record, in order, every request and every event they receive:

- the store's answer to each request is a fixed function of the request;
- the file system is a map from path to bytes;
- a saved listing file is its sequence of lines;
- the control-plane service is a value of functions (`Utils.ControlPlane`);
- the clock is a sequence of readings (`Models.Clock`), one per call of `get_current_time`.

## Model

| member | source | states |
|---|---|---|
| Models.NewManifest | app/models.py:34-45 | a manifest built from its required fields has no data folders, total size "0B", zero bytes and files, and no timestamp or entries |
| Models.ParseJobStatus | app/models.py:48-53 | a wire value parses only to the status whose value it is |
| Models.JobStatusRoundTrip | app/models.py:48-53 | each of the five job statuses parses back from its wire value |
| Models.NewJob | app/models.py:58-74 | a new job is PENDING, with 0 files and bytes, not mock, and with no count, no anonymity flag, no manifest and no timestamps |
| Models.NewJobUpdate | app/models.py:76-84 | a new update has every field unset except the byte count, which is 0 |
| Models.NewJobEntryLogRequest | app/models.py:110-118 | a new entry record has no message or timestamps and a zero byte count |
| Multipart.SplitParts | app/uploader.py:277-287 | the file cut into parts of P bytes and a shorter last part; its properties are the lemmas below |
| Multipart.SplitPartsReassemble | app/uploader.py:273-304 | the parts read at successive offsets, concatenated, are exactly the file's bytes |
| Multipart.SplitPartsCount | app/uploader.py:276-304 | the number n of parts satisfies (n-1)·P < size <= n·P, with no part exactly when the file is empty |
| Multipart.CeilDivision | app/uploader.py:278-279 | that count is ceil(size / P) in integer arithmetic |
| Multipart.OffsetIsProduct | app/uploader.py:277-304 | the offset of part i is i·P |
| Multipart.SplitPartsAt | app/uploader.py:279-287 | part i starts at offset i·P inside the file and is the slice up to min(offset + P, size) |
| Multipart.PartSizes | app/uploader.py:279 | every part but the last holds P bytes, and the last holds size − P·(n−1) |
| Multipart.PartsFrom | app/uploader.py:273-304 | the part loop from a given part onwards, as a function of the store's answers; its shape is `Multipart.PartsFromShape` |
| Multipart.PartsFromShape | app/uploader.py:273-304 | the part loop sends the file's parts in order, numbered from 1, up to and including the first one the store fails, and stops with that error; with no failure it collects one {ETag, PartNumber} per part, in order |
| Multipart.MultipartUpload | app/uploader.py:256-321 | the request sequence and error of the whole multipart protocol; its properties are the two lemmas below |
| Multipart.MultipartSessionShape | app/uploader.py:266-321 | once a session is open, a failed part is followed by the abort; a full part run is followed by the completion with one tag per part; a failed completion is followed by the abort and its error is raised |
| Multipart.MultipartAbortLast | app/uploader.py:266-321 | the run starts with the initiation; an abort with the session's UploadId is sent at most once, last, and exactly when a session was opened and then failed; a failed initiation is raised with no further request |
| Multipart.UploadLargeFileMultipart | app/uploader.py:256-321 | the requests sent and the error raised are those of the protocol function, the abort's own failure being swallowed |
| Multipart.UploadParts | app/uploader.py:273-304 | the `while offset < file_size` loop sends, collects and fails exactly as the closed-form part loop |
| Uploader.SourceConfigNeverMultipart | app/uploader.py:51-53 | with the source's constants (multipart off, 50 MiB, 8 MiB) no file is sent in parts |
| Uploader.PrefixSlice | app/uploader.py:121-123 | Python's `s[:n]` is a prefix of length min(n, len) for n >= 0, and drops the last −n elements for n < 0 |
| Uploader.SelectEntries | app/uploader.py:120-125 | the processed entries are a prefix of the manifest's: all of them without a count, else the first `count` |
| Uploader.OpsPath | app/uploader.py:158 | the file path ends with the entry's key, starts with the root unless the key is absolute, and is the key itself when the key is absolute |
| Uploader.Transfer | app/uploader.py:230-242 | a missing file raises before any request; otherwise the multipart protocol or one put, by the mode choice |
| Uploader.UploadFile | app/uploader.py:196-253 | one entry's requests and its single record, started at one clock reading and completed at a later one; its properties are the lemmas below |
| Uploader.UploadFileToS3 | app/uploader.py:196-253 | the requests sent and the single entry record reported are those of the one-entry function |
| Uploader.MockTouchesNothing | app/uploader.py:223-228 | a mock job sends no request, does not depend on the files or the store, and reports COMPLETED with "Uploaded {path} (mock)" |
| Uploader.MissingFileIsError | app/uploader.py:230-248 | a path that is not a file is reported ERROR with "Error uploading file {path}: {path}", no completion time and no store request |
| Uploader.EntryOutcome | app/uploader.py:216-253 | every entry record ends COMPLETED or ERROR, never STARTED; it has a completion time exactly when COMPLETED; it carries the job, entry and start time; its message is the path's success or error message |
| Uploader.ErrorIffTransferFails | app/uploader.py:231-248 | outside mock mode an entry is ERROR exactly when the file is missing or the store raised |
| Uploader.ReliableStoreFailsOnlyOnMissing | app/uploader.py:231-248 | with a store that accepts everything, an entry fails exactly when its file is missing, in either mode |
| Uploader.SinglePut | app/uploader.py:236-242 | without multipart an existing file is sent in exactly one `put_object` of its whole bytes |
| Uploader.MultipartUsed | app/uploader.py:236-238 | when multipart applies, an existing file's requests are exactly those of the multipart protocol on its bytes |
| Uploader.UseMultipartIff | app/uploader.py:236-242 | outside mock mode an existing file's first request is the multipart initiation iff multipart is enabled, the size reaches the threshold and the job is not anonymous; otherwise its requests are the single put of the whole file |
| Uploader.SourceConfigSinglePut | app/uploader.py:236-242 | with the source's constants every existing file goes in one put |
| Uploader.EntriesRun | app/uploader.py:149-172 | the entries uploaded one after the other, each given its queue position; its properties are `Uploader.OneReportPerEntry` |
| Uploader.OneReportPerEntry | app/uploader.py:149-172 | one report per entry, the i-th being entry i's own whatever the others gave; the requests are the entries' requests in order |
| Uploader.BatchUpload | app/uploader.py:86-192 | the whole batch: the selected entries in order, entry i reading the clock at 2i and 2i + 1, then the COMPLETED update at the following reading |
| Uploader.BatchReports | app/uploader.py:86-192 | without a manifest or entries nothing is reported; otherwise one report per selected entry, then exactly one job update, COMPLETED, regardless of entry errors |
| Uploader.BatchClockOrder | app/uploader.py:188-251 | with a clock that never runs backwards, each entry completes no earlier than it started, entries start in queue order, and the job completes no earlier than any entry |
| Uploader.UploadToS3InBatch | app/uploader.py:86-192 | the batch driver's requests and events are those of the batch function, the entries being queued in order |
| Uploader.Worker | app/uploader.py:153-172 | the worker takes the queue first in first out and uploads each entry once, a failure not stopping the next |
| Collaborators.S3Client.Send | app/uploader.py:242 | a request is recorded after those already sent, and its answer is the store's fixed answer to it |
| Collaborators.ProgressSink.HandleJobEntryUpdate | app/uploader.py:223-253 | an entry record is recorded after the events already received |
| Collaborators.ProgressSink.HandleJobUpdate | app/uploader.py:188-192 | a job update is recorded after the events already received, with its status, time and message |
| Utils.MessageHandler.constructor | app/utils.py:249-253 | a new handler has counted nothing |
| Utils.MessageHandler.HandleUpdate | app/utils.py:255-268 | a completed update adds one file and its bytes; any other update leaves the counts alone; the total never changes; a message is logged with the counter after the update |
| Utils.Totals | app/utils.py:257-259 | the count of completed files after a run of updates is at most the number of updates |
| Utils.HandleUpdates | app/utils.py:257-259 | feeding updates in order raises the counts by their totals and leaves the total files alone |
| Utils.TotalsCountCompleted | app/utils.py:257-259 | the file count reached is exactly the number of completed updates |
| Utils.TotalsSumCompletedBytes | app/utils.py:257-259 | the byte total reached is exactly the sum of the sizes the completed updates carry |
| Utils.JobQueryOf | app/utils.py:105-111 | a filter is sent exactly when its value is truthy, and with that value |
| Utils.GetJobs | app/utils.py:101-116 | the service's answer to the query whose filters are the truthy arguments, by `Utils.JobQueryOf` |
| Utils.GetManifestByLoadId | app/utils.py:52-55 | an empty answer raises ValueError naming the load; otherwise the first record is returned |
| Utils.ListManifests | app/utils.py:71-81 | the result is the first min(4, n) records in service order; the load id filters only when truthy |
| Utils.FindManifest | app/utils.py:83-89 | the manifest by id, else by load id, else a ValueError; its properties are the two lemmas below |
| Utils.FindManifestPriority | app/utils.py:83-89 | a manifest id wins whatever the load id; the load id is used only without one; with neither a ValueError is raised |
| Utils.FindManifestFails | app/utils.py:83-89 | the lookup fails exactly when no id is given, or only a load id is given and it has no manifest |
| Utils.GetActiveJobs | app/utils.py:126-131 | the active jobs are the pending query's answer followed by the running query's |
| Utils.ActiveJobsArePendingThenRunning | app/utils.py:126-131 | against a service that answers status queries honestly, every active job is pending or running, pending ones first |
| Utils.CreateJobPayload | app/utils.py:136-141 | the payload always has `manifest_id` as a string and `mock`, has `count` iff a count is given, and nothing else |
| Utils.HumanReadableSize | app/utils.py:222-231 | 0 gives "0B"; otherwise the unit is the largest of B..TiB that the size reaches, and the shown value times 1024^i is the size |
| JobsCli.Choose | scripts/spherex-s3-jobs.py:24-39 | exactly one action runs: create, else run, else cancel, else report, else query |
| JobsCli.CreateJob | scripts/spherex-s3-jobs.py:42-61 | the create action as a function of the service's answers; its properties are `JobsCli.CreateJobPostsFoundManifest` |
| JobsCli.CreateJobPostsFoundManifest | scripts/spherex-s3-jobs.py:42-61 | a lookup error is raised; otherwise the post carries the found manifest's id, the mock flag and the count; an HTTP status error only ends the action |
| JobsCli.RunJob | scripts/spherex-s3-jobs.py:86-112 | the run action's decision from the pending jobs; its properties are `JobsCli.RunJobRunsOnlyTheSinglePending` |
| JobsCli.RunJobRunsOnlyTheSinglePending | scripts/spherex-s3-jobs.py:86-112 | without an id a ValueError; no pending job, nothing runs; several, all reported by id and none runs; a job runs iff it is the only pending one |
| JobsCli.UpdateRequest | app/utils.py:149-165 | the status update carries the given fields, the current time as `updated_at`, and nothing else |
| JobsCli.JobService.UpdateJob | app/utils.py:149-176 | one update is sent for the job, with the given status |
| JobsCli.Cancellations | scripts/spherex-s3-jobs.py:125-131 | the updates the cancel loop sends, the i-th stamped with the i-th clock reading; its properties are `JobsCli.CancellationsOnePerJob` |
| JobsCli.CancellationsOnePerJob | scripts/spherex-s3-jobs.py:125-131 | exactly one update per job, the i-th for the i-th job, each setting CANCELLED with its own clock reading as `updated_at` and nothing else |
| JobsCli.CancelJob | scripts/spherex-s3-jobs.py:114-131 | without an id a ValueError and no update; otherwise one cancellation per active job in active-list order, none when no job is active |
| JobsCli.ReportJobStatus | scripts/spherex-s3-jobs.py:133-149 | the report action: each job paired with the manifest it is reported against; its properties are `JobsCli.ReportUsesFirstJobsManifest` |
| JobsCli.ReportUsesFirstJobsManifest | scripts/spherex-s3-jobs.py:133-149 | one report per job, in order, each against the manifest of the first job |
| JobsCli.QuerySummary | scripts/spherex-s3-jobs.py:76-84 | the total line with the pending, running and completed counts, none for no jobs |
| JobsCli.QueryJobs | scripts/spherex-s3-jobs.py:65-84 | the query action; its properties are `JobsCli.QueryJobsOutcome` |
| JobsCli.QueryJobsOutcome | scripts/spherex-s3-jobs.py:65-84 | without an id a ValueError; no summary for no jobs; otherwise the total line with the pending, running and completed counts |
| JobsCli.WithStatus | scripts/spherex-s3-jobs.py:80-82 | a status selection is no longer than the jobs |
| JobsCli.WithStatusExact | scripts/spherex-s3-jobs.py:80-82 | each count keeps exactly the jobs of that status, with their multiplicity |
| JobsCli.StatusCountsPartition | scripts/spherex-s3-jobs.py:80-84 | the five status counts sum to the total, so pending + running + completed is at most the total |
| Text.Decimal | scripts/spherex-s3-diff.py:137 | `str(n)` has at least one digit, only digits, and no leading zero |
| Text.DecimalRoundTrip | scripts/spherex-s3-diff.py:137 | the digits of `str(n)` denote n |
| Text.GroupThousandsDigits | scripts/spherex-s3-diff.py:123 | removing the commas of `f"{n:,}"` gives `str(n)` back |
| Text.GroupThousandsLength | scripts/spherex-s3-diff.py:123 | grouping inserts (d − 1) / 3 commas into d digits |
| Text.ZeroPad | scripts/spherex-s3-diff.py:97 | padding right-aligns the text in the width with '0's and keeps a longer text whole |
| Text.ZeroPadDecimal | scripts/spherex-s3-diff.py:97 | `f"{n:06d}"` is all digits, denotes n, and is six wide when n has at most six digits |
| Text.DecimalLength | scripts/spherex-s3-diff.py:97 | a number below 10^k has at most k digits |
| Text.StripLeftShape | scripts/spherex-s3-diff.py:77 | `lstrip(c)` drops exactly the leading run of c |
| Text.StripRightShape | scripts/spherex-s3-diff.py:77 | `rstrip(c)` drops exactly the trailing run of c |
| QrListing.QrName | scripts/spherex-s3-diff.py:25 | the group of `.*\s(qr\S+)` matched on a line; its properties are the lemmas below |
| QrListing.SearchFromFinds | scripts/spherex-s3-diff.py:25 | the search succeeds from a start exactly when the tail `\sqr\S` occurs at or after it, and then at a valid position |
| QrListing.QrNameIff | scripts/spherex-s3-diff.py:25 | a line yields a name iff it has a whitespace character followed by "qr" and a non-whitespace character |
| QrListing.MatchedGroup | scripts/spherex-s3-diff.py:25 | the name is the group from "qr" to the end of the non-whitespace run at the match |
| QrListing.QrNameShape | scripts/spherex-s3-diff.py:25 | the name starts with "qr", has at least three characters and holds no whitespace |
| QrListing.QrNameMaximal | scripts/spherex-s3-diff.py:25 | the name follows a whitespace character and is followed by whitespace or the end of the line |
| QrListing.QrNameIsRightmost | scripts/spherex-s3-diff.py:25 | on a line without an inner newline, no occurrence of `\sqr\S` lies right of the match (greedy `.*`) |
| QrListing.Names | scripts/spherex-s3-diff.py:129-135 | there are no more names than lines |
| QrListing.NamesFromLines | scripts/spherex-s3-diff.py:129-135 | every collected name is the name of some line |
| QrListing.LinesGiveNames | scripts/spherex-s3-diff.py:129-135 | every matching line contributes its name; non-matching lines are skipped |
| QrListing.NamesKeepDuplicates | scripts/spherex-s3-diff.py:129-137 | a repeated line gives its name twice, so the printed count includes duplicates |
| QrListing.Missing | scripts/spherex-s3-diff.py:149-152 | the local names absent from S3, in local order; its properties are the lemmas below |
| QrListing.MissingCounts | scripts/spherex-s3-diff.py:149-152 | a name is reported as often as it occurs locally when S3 lacks it, and never when S3 has it |
| QrListing.MissingIff | scripts/spherex-s3-diff.py:149-152 | a name is reported iff it is local and not in S3; the report is no longer than the local list |
| QrListing.MissingEmptyIff | scripts/spherex-s3-diff.py:149-154 | nothing is missing iff every local name is in S3 |
| QrListing.CollectNames | scripts/spherex-s3-diff.py:129-135 | the line loop collects exactly the names of the lines, and the dictionary's keys are those names, each mapped to 1 |
| QrListing.MissingNames | scripts/spherex-s3-diff.py:149-152 | the loop over the local names keeps exactly the ordered difference against the dictionary's keys |
| S3Diff.Dispatch | scripts/spherex-s3-diff.py:36-52 | `--run-s3-ls` first, then `--run-local-ls`; a RuntimeError iff no ls option, no `--compare` and not both listings are given |
| S3Diff.DispatchDiffs | scripts/spherex-s3-diff.py:45-52 | `--compare` wins over the two listings, which diff only together; one alone or none raises its own message |
| S3Diff.NoOptionsIsAttributeError | scripts/spherex-s3-diff.py:36-52 | with the options the parser defines, no option at all raises AttributeError on `s3_ls` instead of the "no options" RuntimeError |
| S3Diff.DispatchParsed | scripts/spherex-s3-diff.py:36-52 | `main` as written over the options the parser defines; its properties are the two lemmas around it |
| S3Diff.DispatchParsedAgrees | scripts/spherex-s3-diff.py:193-211 | over the parsed options the dispatch as written agrees with the full dispatch except where the undefined options are read |
| S3Diff.SplitFirst | scripts/spherex-s3-diff.py:63 | `split(sep, 1)` succeeds iff sep occurs; the head has no sep, and head + sep + rest is the text |
| S3Diff.SplitFirstUnique | scripts/spherex-s3-diff.py:63 | the split is at the first separator |
| S3Diff.S3PathSplit | scripts/spherex-s3-diff.py:63 | `S3_PATH` splits into bucket "nasa-irsa-spherex" and prefix "qr2/" |
| S3Diff.PrefixDepth | scripts/spherex-s3-diff.py:77-78 | the segments of the prefix stripped of '/', none for an empty one |
| S3Diff.S3PrefixDepth | scripts/spherex-s3-diff.py:77-78 | the prefix "qr2/" has depth 1 |
| S3Diff.Kept | scripts/spherex-s3-diff.py:81-97 | the kept objects are no more than the listed ones |
| S3Diff.KeptAll | scripts/spherex-s3-diff.py:81-97 | when no object is skipped, every object is kept, in order |
| S3Diff.KeptIff | scripts/spherex-s3-diff.py:81-97 | everything listed is some object's stripped entry, and every unskipped object is listed |
| S3Diff.NoMaxDepthSkipsNothing | scripts/spherex-s3-diff.py:90-92 | with max_depth <= 0 no key is skipped |
| S3Diff.DepthFilterIff | scripts/spherex-s3-diff.py:85-92 | with max_depth > 0 a key is skipped iff its segments exceed prefix_depth + max_depth |
| S3Diff.SizeToString | scripts/spherex-s3-diff.py:107-123 | GB iff size > 1024³, MB iff 1024² < size <= 1024³, KB iff 1024 < size <= 1024², else bytes (strict thresholds) |
| S3Diff.SizeToStringAmount | scripts/spherex-s3-diff.py:117-123 | a unit's amount exceeds 1 and, below GB, is at most 1024; the bytes text is the comma-grouped digits of the size followed by " bytes" |
| S3Diff.SizeOf1024 | scripts/spherex-s3-diff.py:121-123 | 1024 renders as "1,024 bytes" |
| S3Diff.ListStep | scripts/spherex-s3-diff.py:91-97 | an object is listed after the others when kept, and changes nothing when skipped |
| S3Diff.ListKeys | scripts/spherex-s3-diff.py:72-97 | the keys and printed lines are those of the depth-filtered objects of all pages in order, numbered from 1 |
| S3Diff.ListPage | scripts/spherex-s3-diff.py:84-97 | one page's objects are listed after those already printed, the count being the lines so far |
| S3Diff.ListedNumbering | scripts/spherex-s3-diff.py:80-97 | the i-th line is numbered i + 1, in six digits while the count has at most six |
| S3Diff.RunS3LsListsAll | scripts/spherex-s3-diff.py:63-72 | the listing with the default max_depth of 0 prints every object of every page, in order |
| S3Diff.MatchLineIsNotMissingLine | scripts/spherex-s3-diff.py:154-158 | the match line and the missing line can never be equal |
| S3Diff.Verdict | scripts/spherex-s3-diff.py:149-158 | the one verdict line; its properties are the three lemmas around it |
| S3Diff.VerdictMatches | scripts/spherex-s3-diff.py:154-155 | the match line with the local count is printed iff every local name is in S3 |
| S3Diff.VerdictCountsMissing | scripts/spherex-s3-diff.py:158 | otherwise the printed count is the number of missing local names, duplicates included, and is positive |
| S3Diff.DiffReport | scripts/spherex-s3-diff.py:125-158 | the lines `do_diff` prints, or its FileNotFound; its loops are `S3Diff.DoDiff` |
| S3Diff.DoDiff | scripts/spherex-s3-diff.py:125-158 | the printed lines and the error are those of the report function: the S3 count, the local count, the verdict, and a FileNotFound for a missing listing |
| S3Diff.CompareNames | scripts/spherex-s3-diff.py:149-158 | the verdict the loop prints is the one on the ordered difference |
| LinksDiff.Main | scripts/diff.py:24-36 | the steps of `main` and its error; its properties are `LinksDiff.MainOutcome` and `LinksDiff.BothLsRun` |
| LinksDiff.MainOutcome | scripts/diff.py:24-36 | the ls runs come first; the diff follows iff both listings are named; otherwise the run ends in the matching RuntimeError even after an ls ran |
| LinksDiff.BothLsRun | scripts/diff.py:25-29 | both ls commands run, S3 first, when both are asked for |
| LinksDiff.Verdict | scripts/diff.py:81-87 | the verdict lines; their properties are `LinksDiff.VerdictLists` |
| LinksDiff.VerdictLists | scripts/diff.py:81-87 | with nothing missing only the match line with the links count; otherwise the missing count, then exactly the names S3 lacks |
| LinksDiff.LinksReport | scripts/diff.py:49-87 | the lines `do_diff` prints, or its FileNotFound; its loops are `LinksDiff.DoDiff` |
| LinksDiff.DoDiff | scripts/diff.py:49-87 | the report is always that of the listings named by the options; the file names passed in are ignored |
| LinksDiff.CompareNames | scripts/diff.py:76-87 | the loops print the verdict on the ordered difference |
| LinksDiff.PrintEach | scripts/diff.py:86-87 | one line per missing name, in order |

## Left out

- The asyncio worker pool, the semaphore, `q.join` and task cancellation are modelled as one sequential FIFO worker. Interleavings are not modelled.
- `asyncio.to_thread`, file reads and `path.stat` are modelled as a lookup in a map from path to bytes.
- `Path` normalisation is not modelled: the entry path is joined as text (`Uploader.OpsPath`).
- The S3 client (aiobotocore, `AioConfig`, retries, unsigned signatures) is modelled as an abstract client whose answer to each request is a fixed function of the request. The paginator is modelled as a given sequence of pages.
- `settings.WORKER_CONCURRENCY`, `S3_MAX_CONCURRENCY` and `MAX_POOL_CONNECTIONS` are not defined in the configuration. They only size the pool, so they do not appear in the model.
- `get_job_upload_handler` does not exist in app/utils.py. The handler is modelled as an abstract progress sink that records its events.
- The progress sink never fails in the model, so the worker's `except Exception` around each entry (app/uploader.py:169-170) is never taken, and a handler failure does not appear.
- `run_job` in app/uploader.py (lookups, RUNNING update, final log lines) is not modelled: it is HTTP glue around the batch driver.
- The httpx calls to the control-plane service are modelled as the answers of a `ControlPlane` value.
  - This covers `get_*`, `create_job`'s post, `update_job`, `post_entry_log` and `create_manifest`.
  - `raise_for_status` and pydantic validation of responses are not modelled.
  - The ValueError handlers around the job queries in scripts/spherex-s3-jobs.py therefore never fire in the model.
- scripts/spherex-s3-upload.py and scripts/spherex-s3-manifests.py are HTTP CRUD plus logging and are not part of this model.
- The clock: `get_current_time` is a sequence of readings (`Models.Clock`). The batch gives entry i the readings 2i (start) and 2i + 1 (completion), and the job's completion the reading after the last entry's. An entry that fails leaves its second reading unused. That the readings never go backwards is the assumption `Models.Monotone` of `Uploader.BatchClockOrder`, not a property of the model. `JobsCli.CancelJob` gives the i-th cancellation reading i. `get_elapsed_time` and `get_transfer_rate` are given as strings to `Utils.MessageHandler.HandleUpdate`.
- Utils.HumanReadableSize: does not model the `.1f` rendering. It returns the scaled value and the unit.
- S3Diff.SizeToString: does not model the `.2f` rendering of the GB, MB and KB amounts. It returns the exact quotient as a real; the bytes form is rendered in full.
- The lines `print_job_report` logs are not modelled. `JobsCli.ReportJobStatus` returns each job paired with the manifest it is reported against.
- The log lines of the job tool (`model_dump_json` of each job) are not modelled. `JobsCli.QueryJobs` returns only the total line.
- Logging (loguru) and argparse are not modelled. The tools' options are explicit option values (`S3Diff.Args`, `LinksDiff.Args`, `JobsCli.Flags`).
- `run_subprocess_tail`, `run_local_ls` and the `aws s3 ls` and `find` runs are not executed. They appear as steps (`LinksDiff.Step`) or actions (`S3Diff.Action`).
- Opening a listing file is a lookup in a map from name to lines; a missing name is a FileNotFound error. Other read errors and text decoding are not modelled.
- The `manifest is None` check in `create_job` (scripts/spherex-s3-jobs.py:50-51) cannot fire, because `find_manifest` returns a manifest or raises. It is not modelled.
- Text in the regex model is a sequence of Unicode code points; `\s` is Python's `str.isspace`. Neither re's other flags nor bytes input are modelled.
- The uploader's `total_files` locals (app/uploader.py:94, 213) are computed and never used, so they are not modelled.

## Findings

| source | as written | input that shows it | evidently intended | confidence | as-written member | corrected member |
|---|---|---|---|---|---|---|
| scripts/spherex-s3-diff.py:36-52 | `main` reads `self.args.s3_ls` and `self.args.local_ls`, but `parse_args` (lines 193-211) defines only `--run-s3-ls`, `--run-local-ls` and `--compare`, so the attribute read raises AttributeError | running the tool with no options | the "no options, please check --help" RuntimeError, and a diff when both listing files are given | not executed | S3Diff.NoOptionsIsAttributeError | S3Diff.Dispatch |
