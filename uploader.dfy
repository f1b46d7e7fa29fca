/** The upload pipeline of one job: the entries of its manifest are selected, queued and
    uploaded one after the other, each with one progress report, and the job is then reported
    COMPLETED. */
module Uploader {
  import opened Wrappers
  import opened Models
  import opened Collaborators
  import opened Multipart

  /** The upload tunables: whether multipart is on, the size from which it is used, and the
      size of one part. */
  datatype UploadConfig = UploadConfig(multipartEnabled: bool, threshold: nat, partSize: nat)

  /** The tunables as the uploader sets them: multipart off, 50 MiB threshold, 8 MiB parts. */
  const SourceConfig := UploadConfig(false, 50 * 1024 * 1024, 8 * 1024 * 1024)

  /** Multipart is used only when it is enabled, the file reaches the threshold and the job
      is not anonymous; an unset `awsUnsigned` counts as signed. */
  predicate UseMultipart(cfg: UploadConfig, size: nat, awsUnsigned: Option<bool>) {
    cfg.multipartEnabled && size >= cfg.threshold && awsUnsigned != Some(true)
  }

  /** With the uploader's own tunables no file is ever sent in parts. */
  lemma SourceConfigNeverMultipart(size: nat, awsUnsigned: Option<bool>)
    ensures !UseMultipart(SourceConfig, size, awsUnsigned)
    ensures SourceConfig.partSize > 0 && SourceConfig.threshold == 52428800 && SourceConfig.partSize == 8388608
  {
  }

  /** Python's `s[:n]`: the first n elements, or for a negative n all but the last -n, clamped
      to the sequence. */
  function PrefixSlice<T>(s: seq<T>, n: int): (r: seq<T>)
    ensures |r| <= |s| && r == s[..|r|]
    ensures n >= 0 ==> |r| == Min(n, |s|)
    ensures n < 0 ==> |r| == if |s| + n >= 0 then |s| + n else 0
  {
    if n >= 0 then s[..Min(n, |s|)]
    else if |s| + n >= 0 then s[..|s| + n]
    else []
  }

  /** The entries a job processes: the first `count` of them when a count is set, else all. */
  function SelectEntries(entries: seq<ManifestEntry>, count: Option<int>): (r: seq<ManifestEntry>)
    ensures |r| <= |entries| && r == entries[..|r|]
    ensures count.None? ==> r == entries
    ensures count.Some? && count.value >= 0 ==> |r| == Min(count.value, |entries|)
  {
    if count.Some? then PrefixSlice(entries, count.value) else entries
  }

  /** `Path(root) / Path(key)`: a key that is absolute replaces the root; an empty root is the
      current directory. */
  function OpsPath(root: string, opsKey: string): (p: string)
    ensures |opsKey| > 0 && opsKey[0] == '/' ==> p == opsKey
    ensures |p| >= |opsKey| && p[|p| - |opsKey|..] == opsKey
    ensures !(|opsKey| > 0 && opsKey[0] == '/') && root != "" ==> |p| >= |root| && p[..|root|] == root
  {
    if |opsKey| > 0 && opsKey[0] == '/' then opsKey
    else if root == "" then opsKey
    else if root[|root| - 1] == '/' then root + opsKey
    else root + "/" + opsKey
  }

  /** The store traffic of one file: a missing file is an error before any request; otherwise
      the file goes in parts or in one put, by `UseMultipart`. */
  function Transfer(cfg: UploadConfig, respond: Request -> Response, awsUnsigned: Option<bool>,
                    fs: map<string, Bytes>, filePath: string, bucket: string, key: string): StoreRun
    requires cfg.partSize > 0
  {
    if filePath !in fs then StoreRun([], Some(filePath))
    else
      var data := fs[filePath];
      if UseMultipart(cfg, |data|, awsUnsigned) then MultipartUpload(respond, bucket, key, data, cfg.partSize)
      else
        var put := PutObject(bucket, key, data);
        StoreRun([put], if respond(put).Failure? then Some(respond(put).error) else None)
  }

  /** What uploading one entry does: the requests it sends and the one progress record it reports. */
  datatype EntryRun = EntryRun(requests: seq<Request>, entryLog: JobEntryLogRequest)

  /** One entry of a job: the record starts STARTED at the clock reading `started`; a mock job
      reports it COMPLETED without touching the file or the store; otherwise it is COMPLETED
      when the transfer went through and ERROR, with no completion time, when it raised. A
      completion is stamped with the later reading `finished`. */
  function UploadFile(cfg: UploadConfig, respond: Request -> Response, job: Job, entry: ManifestEntry,
                      fs: map<string, Bytes>, filePath: string, bucket: string, key: string,
                      started: Timestamp, finished: Timestamp): EntryRun
    requires cfg.partSize > 0
  {
    var record := JobEntryLogRequest(job.id, entry.id, STARTED, None, Some(started), None, 0);
    if job.mock then
      EntryRun([], record.(status := JobEntryStatus.COMPLETED, completedAt := Some(finished),
                            message := Some("Uploaded " + filePath + " (mock)")))
    else
      var t := Transfer(cfg, respond, job.awsUnsigned, fs, filePath, bucket, key);
      if t.error.Some? then
        EntryRun(t.requests, record.(status := JobEntryStatus.ERROR,
                                      message := Some("Error uploading file " + filePath + ": " + t.error.value)))
      else
        EntryRun(t.requests, record.(status := JobEntryStatus.COMPLETED, completedAt := Some(finished),
                                      message := Some("Uploaded " + filePath)))
  }

  /** Uploads one entry and reports its outcome to `sink`. */
  method UploadFileToS3(cfg: UploadConfig, job: Job, entry: ManifestEntry, fs: map<string, Bytes>,
                        filePath: string, bucket: string, key: string, client: S3Client,
                        sink: ProgressSink, started: Timestamp, finished: Timestamp)
    requires cfg.partSize > 0
    modifies client, sink
    ensures var run := UploadFile(cfg, client.respond, job, entry, fs, filePath, bucket, key, started, finished);
            && client.requests == old(client.requests) + run.requests
            && sink.events == old(sink.events) + [EntryUpdate(run.entryLog)]
  {
    var entryLog := JobEntryLogRequest(job.id, entry.id, STARTED, None, Some(started), None, 0);
    if job.mock {
      entryLog := entryLog.(status := JobEntryStatus.COMPLETED, completedAt := Some(finished),
                            message := Some("Uploaded " + filePath + " (mock)"));
      sink.HandleJobEntryUpdate(entryLog);
      return;
    }
    var error: Option<string>;
    if filePath !in fs {
      error := Some(filePath);
    } else {
      var size := |fs[filePath]|;
      if UseMultipart(cfg, size, job.awsUnsigned) {
        error := UploadLargeFileMultipart(client, bucket, key, fs[filePath], cfg.partSize);
      } else {
        var body := fs[filePath];
        var resp := client.Send(PutObject(bucket, key, body));
        error := if resp.Failure? then Some(resp.error) else None;
      }
    }
    if error.Some? {
      entryLog := entryLog.(status := JobEntryStatus.ERROR,
                            message := Some("Error uploading file " + filePath + ": " + error.value));
      sink.HandleJobEntryUpdate(entryLog);
      return;
    }
    entryLog := entryLog.(status := JobEntryStatus.COMPLETED, completedAt := Some(finished),
                          message := Some("Uploaded " + filePath));
    sink.HandleJobEntryUpdate(entryLog);
  }

  /** A mock job sends nothing to the store, and its report depends neither on the files nor
      on the store. */
  lemma MockTouchesNothing(cfg: UploadConfig, respond: Request -> Response, respond': Request -> Response,
                           job: Job, entry: ManifestEntry, fs: map<string, Bytes>, fs': map<string, Bytes>,
                           filePath: string, bucket: string, key: string, started: Timestamp, finished: Timestamp)
    requires cfg.partSize > 0 && job.mock
    ensures var run := UploadFile(cfg, respond, job, entry, fs, filePath, bucket, key, started, finished);
            && run.requests == []
            && run == UploadFile(cfg, respond', job, entry, fs', filePath, bucket, key, started, finished)
            && run.entryLog.status == JobEntryStatus.COMPLETED
            && run.entryLog.message == Some("Uploaded " + filePath + " (mock)")
  {
  }

  /** A path that is not a file is reported ERROR, with the path as the error, and the store
      is never called. */
  lemma MissingFileIsError(cfg: UploadConfig, respond: Request -> Response, job: Job, entry: ManifestEntry,
                           fs: map<string, Bytes>, filePath: string, bucket: string, key: string, started: Timestamp, finished: Timestamp)
    requires cfg.partSize > 0 && !job.mock && filePath !in fs
    ensures var run := UploadFile(cfg, respond, job, entry, fs, filePath, bucket, key, started, finished);
            && run.requests == []
            && run.entryLog.status == JobEntryStatus.ERROR
            && run.entryLog.message == Some("Error uploading file " + filePath + ": " + filePath)
            && run.entryLog.completedAt.None?
  {
  }

  /** The report of every entry: never left STARTED, a completion time exactly when COMPLETED,
      the start time and ids of the job and entry, no byte count, and the message of its path. */
  lemma EntryOutcome(cfg: UploadConfig, respond: Request -> Response, job: Job, entry: ManifestEntry,
                     fs: map<string, Bytes>, filePath: string, bucket: string, key: string, started: Timestamp, finished: Timestamp)
    requires cfg.partSize > 0
    ensures var log := UploadFile(cfg, respond, job, entry, fs, filePath, bucket, key, started, finished).entryLog;
            && (log.status == JobEntryStatus.COMPLETED || log.status == JobEntryStatus.ERROR)
            && (log.completedAt.Some? <==> log.status == JobEntryStatus.COMPLETED)
            && (log.completedAt.Some? ==> log.completedAt.value == finished)
            && log.startedAt == Some(started) && log.jobId == job.id && log.entryId == entry.id
            && log.uploadedSizeBytes == 0
            && (log.status == JobEntryStatus.COMPLETED && job.mock ==>
                  log.message == Some("Uploaded " + filePath + " (mock)"))
            && (log.status == JobEntryStatus.COMPLETED && !job.mock ==>
                  log.message == Some("Uploaded " + filePath))
            && (log.status == JobEntryStatus.ERROR ==>
                  log.message.Some? && log.message.value[..|"Error uploading file " + filePath + ": "|]
                                       == "Error uploading file " + filePath + ": ")
  {
  }

  /** An entry is reported ERROR exactly when its file is missing or the store raised. */
  lemma ErrorIffTransferFails(cfg: UploadConfig, respond: Request -> Response, job: Job, entry: ManifestEntry,
                              fs: map<string, Bytes>, filePath: string, bucket: string, key: string, started: Timestamp, finished: Timestamp)
    requires cfg.partSize > 0 && !job.mock
    ensures UploadFile(cfg, respond, job, entry, fs, filePath, bucket, key, started, finished).entryLog.status == JobEntryStatus.ERROR
        <==> Transfer(cfg, respond, job.awsUnsigned, fs, filePath, bucket, key).error.Some?
  {
  }

  /** With a store that accepts every request, an entry fails exactly when its file is missing. */
  lemma {:induction false} ReliableStoreFailsOnlyOnMissing(cfg: UploadConfig, respond: Request -> Response,
                                                            job: Job, entry: ManifestEntry, fs: map<string, Bytes>,
                                                            filePath: string, bucket: string, key: string,
                                                            started: Timestamp, finished: Timestamp)
    requires cfg.partSize > 0 && !job.mock
    requires forall r :: respond(r).Success?
    ensures UploadFile(cfg, respond, job, entry, fs, filePath, bucket, key, started, finished).entryLog.status == JobEntryStatus.ERROR
        <==> filePath !in fs
  {
    if filePath in fs && UseMultipart(cfg, |fs[filePath]|, job.awsUnsigned) {
      var data := fs[filePath];
      MultipartSessionShape(respond, bucket, key, data, cfg.partSize);
      var uploadId := respond(CreateMultipartUpload(bucket, key)).value;
      var reqs := PartRequests(bucket, key, uploadId, SplitParts(data, cfg.partSize), 1);
      assert FirstFailure(respond, reqs) == |reqs|;
    }
  }

  /** Below the threshold, or with multipart off, an existing file goes in exactly one put of
      its whole contents. */
  lemma SinglePut(cfg: UploadConfig, respond: Request -> Response, job: Job, entry: ManifestEntry,
                  fs: map<string, Bytes>, filePath: string, bucket: string, key: string, started: Timestamp, finished: Timestamp)
    requires cfg.partSize > 0 && !job.mock && filePath in fs
    requires !UseMultipart(cfg, |fs[filePath]|, job.awsUnsigned)
    ensures UploadFile(cfg, respond, job, entry, fs, filePath, bucket, key, started, finished).requests
         == [PutObject(bucket, key, fs[filePath])]
  {
  }

  /** With the uploader's own tunables every existing file goes in one put. */
  lemma SourceConfigSinglePut(respond: Request -> Response, job: Job, entry: ManifestEntry,
                              fs: map<string, Bytes>, filePath: string, bucket: string, key: string,
                              started: Timestamp, finished: Timestamp)
    requires !job.mock && filePath in fs
    ensures UploadFile(SourceConfig, respond, job, entry, fs, filePath, bucket, key, started, finished).requests
         == [PutObject(bucket, key, fs[filePath])]
  {
    SourceConfigNeverMultipart(|fs[filePath]|, job.awsUnsigned);
    SinglePut(SourceConfig, respond, job, entry, fs, filePath, bucket, key, started, finished);
  }

  /** When multipart applies, an existing file goes through the multipart protocol and
      nothing else. */
  lemma MultipartUsed(cfg: UploadConfig, respond: Request -> Response, job: Job, entry: ManifestEntry,
                      fs: map<string, Bytes>, filePath: string, bucket: string, key: string,
                      started: Timestamp, finished: Timestamp)
    requires cfg.partSize > 0 && !job.mock && filePath in fs
    requires UseMultipart(cfg, |fs[filePath]|, job.awsUnsigned)
    ensures UploadFile(cfg, respond, job, entry, fs, filePath, bucket, key, started, finished).requests
         == MultipartUpload(respond, bucket, key, fs[filePath], cfg.partSize).requests
  {
  }

  /** The mode choice as the store sees it: an existing file's upload opens a multipart
      session exactly when multipart applies to its size and the job, and is otherwise the
      single put of the whole file. */
  lemma UseMultipartIff(cfg: UploadConfig, respond: Request -> Response, job: Job, entry: ManifestEntry,
                        fs: map<string, Bytes>, filePath: string, bucket: string, key: string,
                        started: Timestamp, finished: Timestamp)
    requires cfg.partSize > 0 && !job.mock && filePath in fs
    ensures var reqs := UploadFile(cfg, respond, job, entry, fs, filePath, bucket, key, started, finished).requests;
            && |reqs| >= 1
            && (reqs[0] == CreateMultipartUpload(bucket, key) <==> UseMultipart(cfg, |fs[filePath]|, job.awsUnsigned))
            && (!UseMultipart(cfg, |fs[filePath]|, job.awsUnsigned) ==> reqs == [PutObject(bucket, key, fs[filePath])])
  {
    if UseMultipart(cfg, |fs[filePath]|, job.awsUnsigned) {
      MultipartUsed(cfg, respond, job, entry, fs, filePath, bucket, key, started, finished);
      MultipartAbortLast(respond, bucket, key, fs[filePath], cfg.partSize);
    } else {
      SinglePut(cfg, respond, job, entry, fs, filePath, bucket, key, started, finished);
    }
  }

  /** What a run over some entries sends to the store and reports to the progress handler. */
  datatype BatchRun = BatchRun(requests: seq<Request>, events: seq<ProgressEvent>)

  /** The upload of the entry at position i of a job: its file under the manifest's root
      directory, sent to its own bucket key, started at reading 2i and completed at reading
      2i + 1 of the clock. */
  function EntryStep(cfg: UploadConfig, respond: Request -> Response, job: Job, rootDir: string,
                     fs: map<string, Bytes>, bucket: string, clock: Clock): (nat, ManifestEntry) -> EntryRun
    requires cfg.partSize > 0
  {
    (i: nat, e: ManifestEntry) =>
      UploadFile(cfg, respond, job, e, fs, OpsPath(rootDir, e.opsKey), bucket, e.bucketKey, clock(2 * i), clock(2 * i + 1))
  }

  /** The entries uploaded one after the other, in order, by `step`, each given its position. */
  function EntriesRun(step: (nat, ManifestEntry) -> EntryRun, entries: seq<ManifestEntry>): BatchRun
    decreases |entries|
  {
    if |entries| == 0 then BatchRun([], [])
    else
      var prev := EntriesRun(step, entries[..|entries| - 1]);
      var r := step(|entries| - 1, entries[|entries| - 1]);
      BatchRun(prev.requests + r.requests, prev.events + [EntryUpdate(r.entryLog)])
  }

  /** The run over one more entry is the run so far followed by that entry's upload. */
  lemma EntriesRunStep(step: (nat, ManifestEntry) -> EntryRun, entries: seq<ManifestEntry>, i: nat)
    requires i < |entries|
    ensures var prev := EntriesRun(step, entries[..i]);
            EntriesRun(step, entries[..i + 1])
              == BatchRun(prev.requests + step(i, entries[i]).requests,
                          prev.events + [EntryUpdate(step(i, entries[i]).entryLog)])
  {
    assert entries[..i + 1][..i] == entries[..i];
  }

  /** What has been sent and reported grows by one entry's run when that entry is uploaded. */
  lemma RunAdvances(step: (nat, ManifestEntry) -> EntryRun, entries: seq<ManifestEntry>, i: nat,
                    requests: seq<Request>, events: seq<ProgressEvent>, r: EntryRun)
    requires i < |entries| && r == step(i, entries[i])
    ensures var prev := EntriesRun(step, entries[..i]);
            var next := EntriesRun(step, entries[..i + 1]);
            && requests + next.requests == (requests + prev.requests) + r.requests
            && events + next.events == (events + prev.events) + [EntryUpdate(r.entryLog)]
  {
    EntriesRunStep(step, entries, i);
    var prev := EntriesRun(step, entries[..i]);
    ConcatAssoc(requests, prev.requests, r.requests);
    ConcatAssoc(events, prev.events, [EntryUpdate(r.entryLog)]);
  }

  /** Every entry is handed to the upload exactly once, in order: there is one report per
      entry, the i-th being entry i's own, however the others went, and the requests are
      those of the entries one after the other. */
  lemma {:induction false} OneReportPerEntry(step: (nat, ManifestEntry) -> EntryRun, entries: seq<ManifestEntry>)
    ensures var run := EntriesRun(step, entries);
            && |run.events| == |entries|
            && (forall i :: 0 <= i < |entries| ==> run.events[i] == EntryUpdate(step(i, entries[i]).entryLog))
            && (|entries| > 0 ==>
                  run.requests == EntriesRun(step, entries[..|entries| - 1]).requests
                                  + step(|entries| - 1, entries[|entries| - 1]).requests)
    decreases |entries|
  {
    if |entries| > 0 {
      var n := |entries| - 1;
      var prefix := entries[..n];
      OneReportPerEntry(step, prefix);
      var prev := EntriesRun(step, prefix);
      var run := EntriesRun(step, entries);
      forall i | 0 <= i < |entries|
        ensures run.events[i] == EntryUpdate(step(i, entries[i]).entryLog)
      {
        if i < n {
          assert run.events[i] == prev.events[i];
          assert entries[i] == prefix[i];
        }
      }
    }
  }

  /** A job that has entries to process. */
  predicate HasEntries(job: Job) {
    job.manifest.Some? && job.manifest.value.entries.Some? && |job.manifest.value.entries.value| > 0
  }

  /** The whole batch: nothing at all when the job has no manifest or no entries; otherwise
      the selected entries in order, then one COMPLETED job update, stamped with the clock
      reading after the last entry's, whatever the entries gave. */
  function BatchUpload(cfg: UploadConfig, respond: Request -> Response, job: Job,
                       fs: map<string, Bytes>, bucket: string, clock: Clock): BatchRun
    requires cfg.partSize > 0
  {
    if !HasEntries(job) then BatchRun([], [])
    else
      var manifest := job.manifest.value;
      var entries := SelectEntries(manifest.entries.value, job.count);
      var run := EntriesRun(EntryStep(cfg, respond, job, manifest.opsRootDir, fs, bucket, clock), entries);
      BatchRun(run.requests, run.events + [JobUpdateEvent(JobStatus.COMPLETED, clock(2 * |entries|), "Job completed")])
  }

  /** A job with entries ends with exactly one job update, COMPLETED, after one report per
      selected entry; a job without entries reports nothing. */
  lemma BatchReports(cfg: UploadConfig, respond: Request -> Response, job: Job,
                     fs: map<string, Bytes>, bucket: string, clock: Clock)
    requires cfg.partSize > 0
    ensures var run := BatchUpload(cfg, respond, job, fs, bucket, clock);
            if !HasEntries(job) then
              run.events == [] && run.requests == []
            else
              var manifest := job.manifest.value;
              var entries := SelectEntries(manifest.entries.value, job.count);
              var step := EntryStep(cfg, respond, job, manifest.opsRootDir, fs, bucket, clock);
              && |run.events| == |entries| + 1
              && run.events[|entries|] == JobUpdateEvent(JobStatus.COMPLETED, clock(2 * |entries|), "Job completed")
              && (forall i :: 0 <= i < |entries| ==> run.events[i] == EntryUpdate(step(i, entries[i]).entryLog))
              && (forall i :: 0 <= i < |entries| ==> !run.events[i].JobUpdateEvent?)
  {
    if HasEntries(job) {
      var manifest := job.manifest.value;
      var entries := SelectEntries(manifest.entries.value, job.count);
      OneReportPerEntry(EntryStep(cfg, respond, job, manifest.opsRootDir, fs, bucket, clock), entries);
    }
  }

  /** With a clock that never runs backwards, every entry completes no earlier than it started,
      the entries start in queue order, and the job is completed no earlier than any entry. */
  lemma BatchClockOrder(cfg: UploadConfig, respond: Request -> Response, job: Job,
                        fs: map<string, Bytes>, bucket: string, clock: Clock)
    requires cfg.partSize > 0 && Monotone(clock) && HasEntries(job)
    ensures var run := BatchUpload(cfg, respond, job, fs, bucket, clock);
            && |run.events| >= 1
            && var n := |run.events| - 1;
            && run.events[n].JobUpdateEvent?
            && (forall i :: 0 <= i < n ==>
                  && run.events[i].EntryUpdate?
                  && run.events[i].entryLog.startedAt.Some?
                  && run.events[i].entryLog.startedAt.value <= run.events[n].completedAt
                  && (run.events[i].entryLog.completedAt.Some? ==>
                        run.events[i].entryLog.startedAt.value <= run.events[i].entryLog.completedAt.value
                        <= run.events[n].completedAt))
            && (forall i, k :: 0 <= i < k < n ==>
                  run.events[i].EntryUpdate? && run.events[k].EntryUpdate?
                  && run.events[i].entryLog.startedAt.Some? && run.events[k].entryLog.startedAt.Some?
                  && run.events[i].entryLog.startedAt.value <= run.events[k].entryLog.startedAt.value)
  {
    BatchReports(cfg, respond, job, fs, bucket, clock);
    var manifest := job.manifest.value;
    var entries := SelectEntries(manifest.entries.value, job.count);
    var n := |entries|;
    var step := EntryStep(cfg, respond, job, manifest.opsRootDir, fs, bucket, clock);
    var run := BatchUpload(cfg, respond, job, fs, bucket, clock);
    forall i | 0 <= i < n
      ensures run.events[i].entryLog.startedAt == Some(clock(2 * i))
      ensures run.events[i].entryLog.completedAt.Some? ==> run.events[i].entryLog.completedAt.value == clock(2 * i + 1)
    {
      var e := entries[i];
      EntryOutcome(cfg, respond, job, e, fs, OpsPath(manifest.opsRootDir, e.opsKey), bucket, e.bucketKey,
                   clock(2 * i), clock(2 * i + 1));
    }
    assert forall i: nat :: i < n ==> clock(2 * i) <= clock(2 * i + 1) <= clock(2 * n);
    assert forall i: nat, k: nat :: i < k ==> clock(2 * i) <= clock(2 * k);
  }

  /** Uploads the selected entries of `job`: they are queued in order and taken from the
      queue one by one, and the job is then reported COMPLETED. */
  method UploadToS3InBatch(cfg: UploadConfig, job: Job, fs: map<string, Bytes>, bucket: string,
                           client: S3Client, sink: ProgressSink, clock: Clock)
    requires cfg.partSize > 0
    modifies client, sink
    ensures var run := BatchUpload(cfg, client.respond, job, fs, bucket, clock);
            && client.requests == old(client.requests) + run.requests
            && sink.events == old(sink.events) + run.events
  {
    if job.manifest.None? || job.manifest.value.entries.None? || |job.manifest.value.entries.value| == 0 {
      return;
    }
    var manifest := job.manifest.value;
    var entries: seq<ManifestEntry>;
    if job.count.Some? {
      entries := PrefixSlice(manifest.entries.value, job.count.value);
    } else {
      entries := manifest.entries.value;
    }
    var queue: seq<ManifestEntry> := [];
    for i := 0 to |entries|
      invariant queue == entries[..i]
    {
      queue := queue + [entries[i]];
    }
    assert queue == entries;
    Worker(cfg, job, manifest.opsRootDir, queue, fs, bucket, client, sink, clock);
    sink.HandleJobUpdate(JobStatus.COMPLETED, clock(2 * |queue|), "Job completed");
  }

  /** The worker: takes the queued entries one by one, first in first out, and uploads each;
      an entry that fails is reported and the next one is taken all the same. */
  method Worker(cfg: UploadConfig, job: Job, rootDir: string, entries: seq<ManifestEntry>,
                fs: map<string, Bytes>, bucket: string, client: S3Client, sink: ProgressSink, clock: Clock)
    requires cfg.partSize > 0
    modifies client, sink
    ensures var run := EntriesRun(EntryStep(cfg, client.respond, job, rootDir, fs, bucket, clock), entries);
            && client.requests == old(client.requests) + run.requests
            && sink.events == old(sink.events) + run.events
  {
    ghost var step := EntryStep(cfg, client.respond, job, rootDir, fs, bucket, clock);
    var queue := entries;
    var done := 0;
    while |queue| > 0
      invariant 0 <= done <= |entries| && queue == entries[done..]
      invariant var run := EntriesRun(step, entries[..done]);
                && client.requests == old(client.requests) + run.requests
                && sink.events == old(sink.events) + run.events
      decreases |queue|
    {
      var entry := queue[0];
      assert entry == entries[done];
      queue := queue[1..];
      var opsFile := OpsPath(rootDir, entry.opsKey);
      ghost var r := UploadFile(cfg, client.respond, job, entry, fs, opsFile, bucket, entry.bucketKey,
                                clock(2 * done), clock(2 * done + 1));
      assert step(done, entry) == r;
      UploadFileToS3(cfg, job, entry, fs, opsFile, bucket, entry.bucketKey, client, sink,
                     clock(2 * done), clock(2 * done + 1));
      RunAdvances(step, entries, done, old(client.requests), old(sink.events), r);
      done := done + 1;
    }
    assert entries[..done] == entries;
  }
}
