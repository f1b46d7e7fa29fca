/** The records and enumerations of the upload agent, with the defaults their fields take
    when a record is created without them. */
module Models {
  import opened Wrappers

  /** Identifiers are kept in their textual form. */
  type Uuid = string
  type Timestamp = int

  /** The successive readings of the clock: the n-th time the program asks for the current
      time it is given clock(n). */
  type Clock = nat -> Timestamp

  /** A clock never runs backwards. */
  ghost predicate Monotone(clock: Clock) {
    forall i: nat, j: nat :: i <= j ==> clock(i) <= clock(j)
  }

  /** One file of a manifest: where it lies under the manifest's root, and where it goes in the bucket. */
  datatype ManifestEntry = ManifestEntry(id: Uuid, opsKey: string, bucketKey: string)

  datatype Manifest = Manifest(
    id: Uuid,
    loadId: string,
    manifestFile: string,
    opsRootDir: string,
    s3BucketName: string,
    dataFolders: seq<string>,
    totalSize: string,
    totalSizeBytes: int,
    totalFiles: int,
    createdAt: Option<Timestamp>,
    entries: Option<seq<ManifestEntry>>)

  /** A manifest built from its required fields only. */
  function NewManifest(id: Uuid, loadId: string, manifestFile: string, opsRootDir: string,
                       s3BucketName: string): (m: Manifest)
    ensures m.id == id && m.loadId == loadId && m.manifestFile == manifestFile
    ensures m.opsRootDir == opsRootDir && m.s3BucketName == s3BucketName
    ensures m.dataFolders == [] && m.totalSize == "0B" && m.totalSizeBytes == 0 && m.totalFiles == 0
    ensures m.createdAt.None? && m.entries.None?
  {
    Manifest(id, loadId, manifestFile, opsRootDir, s3BucketName, [], "0B", 0, 0, None, None)
  }

  datatype JobStatus = PENDING | CANCELLED | RUNNING | COMPLETED | ERROR

  /** The string value each job status has on the wire. */
  function JobStatusValue(s: JobStatus): string {
    match s
    case PENDING => "PENDING"
    case CANCELLED => "CANCELLED"
    case RUNNING => "RUNNING"
    case COMPLETED => "COMPLETED"
    case ERROR => "ERROR"
  }

  /** The status a wire value denotes, if any. */
  function ParseJobStatus(v: string): (r: Option<JobStatus>)
    ensures r.Some? ==> JobStatusValue(r.value) == v
  {
    if v == "PENDING" then Some(PENDING)
    else if v == "CANCELLED" then Some(CANCELLED)
    else if v == "RUNNING" then Some(RUNNING)
    else if v == "COMPLETED" then Some(JobStatus.COMPLETED)
    else if v == "ERROR" then Some(JobStatus.ERROR)
    else None
  }

  lemma JobStatusRoundTrip(s: JobStatus)
    ensures ParseJobStatus(JobStatusValue(s)) == Some(s)
  {
  }

  datatype Job = Job(
    id: Uuid,
    manifestId: Uuid,
    status: JobStatus,
    createdAt: Option<Timestamp>,
    updatedAt: Option<Timestamp>,
    startedAt: Option<Timestamp>,
    completedAt: Option<Timestamp>,
    elapsedTime: Option<string>,
    uploadedFiles: int,
    uploadedSize: Option<string>,
    uploadedSizeBytes: int,
    mock: bool,
    count: Option<int>,
    awsUnsigned: Option<bool>,
    manifest: Option<Manifest>)

  /** A job built from its required fields only. */
  function NewJob(id: Uuid, manifestId: Uuid): (j: Job)
    ensures j.id == id && j.manifestId == manifestId
    ensures j.status == PENDING
    ensures j.uploadedFiles == 0 && j.uploadedSizeBytes == 0 && !j.mock
    ensures j.count.None? && j.awsUnsigned.None? && j.manifest.None?
    ensures j.createdAt.None? && j.updatedAt.None? && j.startedAt.None? && j.completedAt.None?
    ensures j.elapsedTime.None? && j.uploadedSize.None?
  {
    Job(id, manifestId, PENDING, None, None, None, None, None, 0, None, 0, false, None, None, None)
  }

  /** A partial update of a job: every field may be absent except the byte count. */
  datatype JobUpdate = JobUpdate(
    status: Option<JobStatus>,
    uploadedFiles: Option<int>,
    uploadedSizeBytes: int,
    startedAt: Option<Timestamp>,
    completedAt: Option<Timestamp>,
    elapsedTime: Option<string>,
    updatedAt: Option<Timestamp>)

  function NewJobUpdate(): (u: JobUpdate)
    ensures u.status.None? && u.uploadedFiles.None? && u.uploadedSizeBytes == 0
    ensures u.startedAt.None? && u.completedAt.None? && u.elapsedTime.None? && u.updatedAt.None?
  {
    JobUpdate(None, None, 0, None, None, None, None)
  }

  datatype JobEntryStatus = STARTED | COMPLETED | ERROR

  /** The string value each entry status has on the wire. */
  function JobEntryStatusValue(s: JobEntryStatus): string {
    match s
    case STARTED => "STARTED"
    case COMPLETED => "COMPLETED"
    case ERROR => "ERROR"
  }

  datatype JobEntryLog = JobEntryLog(
    id: Uuid,
    jobId: Uuid,
    entryId: Uuid,
    status: JobEntryStatus,
    message: Option<string>,
    startedAt: Option<Timestamp>,
    completedAt: Option<Timestamp>)

  /** The per-entry progress record the uploader reports. */
  datatype JobEntryLogRequest = JobEntryLogRequest(
    jobId: Uuid,
    entryId: Uuid,
    status: JobEntryStatus,
    message: Option<string>,
    startedAt: Option<Timestamp>,
    completedAt: Option<Timestamp>,
    uploadedSizeBytes: int)

  function NewJobEntryLogRequest(jobId: Uuid, entryId: Uuid, status: JobEntryStatus): (r: JobEntryLogRequest)
    ensures r.jobId == jobId && r.entryId == entryId && r.status == status
    ensures r.message.None? && r.startedAt.None? && r.completedAt.None? && r.uploadedSizeBytes == 0
  {
    JobEntryLogRequest(jobId, entryId, status, None, None, None, 0)
  }
}
