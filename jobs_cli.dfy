/** The job command-line tool: which action a run takes, and what each action asks of the
    control-plane service. */
module JobsCli {
  import opened Wrappers
  import opened Text
  import opened Models
  import opened Utils

  // ---------------------------------------------------------------------------------------
  // Dispatch

  /** The action flags of the command line. */
  datatype Flags = Flags(create: bool, run: bool, cancel: bool, report: bool)

  datatype Command = Create | Run | Cancel | Report | Query

  /** `main`: the first flag set, in the order create, run, cancel, report, wins; with none
      the jobs are queried. */
  function Choose(f: Flags): (c: Command)
    ensures c == Create <==> f.create
    ensures c == Run <==> !f.create && f.run
    ensures c == Cancel <==> !f.create && !f.run && f.cancel
    ensures c == Report <==> !f.create && !f.run && !f.cancel && f.report
    ensures c == Query <==> !f.create && !f.run && !f.cancel && !f.report
  {
    if f.create then Create
    else if f.run then Run
    else if f.cancel then Cancel
    else if f.report then Report
    else Query
  }

  /** The error run, cancel, report and query raise when neither id is given. */
  const IdsRequired: Error := ValueError("Error: --manifest_id or --load_id is required for querying jobs")

  predicate HasIds(manifestId: Option<Uuid>, loadId: Option<string>) {
    Truthy(manifestId) || Truthy(loadId)
  }

  // ---------------------------------------------------------------------------------------
  // Create

  /** The request a creation sends, and the job the service returned, if it accepted it. */
  datatype CreateOutcome = CreateOutcome(payload: map<string, Json>, job: Option<Job>)

  /** `create_job`: finds the manifest, then posts a job for it; a rejection by the service is
      logged and ends the action. `post` stands for the service. */
  function CreateJob(cp: ControlPlane, post: map<string, Json> -> Result<Job>, loadId: Option<string>,
                     manifestId: Option<Uuid>, mock: bool, count: Option<int>): Result<CreateOutcome>
  {
    match FindManifest(cp, loadId, manifestId)
    case Err(e) => Err(e)
    case Ok(manifest) =>
      var payload := CreateJobPayload(manifest.id, mock, count);
      match post(payload)
      case Ok(job) => Ok(CreateOutcome(payload, Some(job)))
      case Err(e) => if e.HttpStatusError? then Ok(CreateOutcome(payload, None)) else Err(e)
  }

  /** A creation posts for the manifest the lookup found, with the mock flag and the count as
      given; it fails exactly when the lookup fails or the service fails other than by an
      HTTP status. */
  lemma CreateJobPostsFoundManifest(cp: ControlPlane, post: map<string, Json> -> Result<Job>, loadId: Option<string>,
                                    manifestId: Option<Uuid>, mock: bool, count: Option<int>)
    ensures var r := CreateJob(cp, post, loadId, manifestId, mock, count);
            var found := FindManifest(cp, loadId, manifestId);
            && (found.Err? ==> r == Err(found.error))
            && (found.Ok? && r.Ok? ==>
                  && r.value.payload["manifest_id"] == JString(found.value.id)
                  && r.value.payload["mock"] == JBool(mock)
                  && ("count" in r.value.payload <==> count.Some?)
                  && (r.value.job.Some? <==> post(r.value.payload).Ok?))
            && (found.Ok? ==>
                  var answer := post(CreateJobPayload(found.value.id, mock, count));
                  r.Err? <==> answer.Err? && !answer.error.HttpStatusError?)
  {
  }

  // ---------------------------------------------------------------------------------------
  // Run

  /** What `run_job` decides: no pending job, several (reported by id), or the one to run. */
  datatype RunDecision = NoPending | ManyPending(ids: seq<Uuid>) | RunOne(job: Job)

  function RunJob(cp: ControlPlane, manifestId: Option<Uuid>, loadId: Option<string>): Result<RunDecision> {
    if !HasIds(manifestId, loadId) then Err(IdsRequired)
    else
      var jobs := GetJobs(cp, manifestId, loadId, Some(PENDING));
      if |jobs| == 0 then Ok(NoPending)
      else if |jobs| > 1 then Ok(ManyPending(seq(|jobs|, i requires 0 <= i < |jobs| => jobs[i].id)))
      else Ok(RunOne(jobs[0]))
  }

  /** A job runs exactly when some id is given and it is the only pending job; without an
      id the action fails, and several pending jobs are all reported and none runs. */
  lemma RunJobRunsOnlyTheSinglePending(cp: ControlPlane, manifestId: Option<Uuid>, loadId: Option<string>)
    ensures var r := RunJob(cp, manifestId, loadId);
            var pending := GetJobs(cp, manifestId, loadId, Some(PENDING));
            && (r.Err? <==> !HasIds(manifestId, loadId))
            && (r.Err? ==> r.error == IdsRequired)
            && (forall j :: r == Ok(RunOne(j)) <==> HasIds(manifestId, loadId) && pending == [j])
            && (r.Ok? && r.value.ManyPending? ==>
                  && |pending| > 1 && |r.value.ids| == |pending|
                  && forall i :: 0 <= i < |pending| ==> r.value.ids[i] == pending[i].id)
            && (r == Ok(NoPending) <==> HasIds(manifestId, loadId) && pending == [])
  {
    var pending := GetJobs(cp, manifestId, loadId, Some(PENDING));
    if |pending| == 1 {
      assert pending == [pending[0]];
    }
  }

  // ---------------------------------------------------------------------------------------
  // Cancel

  /** The status update `update_job` sends: the given fields, stamped with the current time,
      the rest unset. */
  function UpdateRequest(status: Option<JobStatus>, completedAt: Option<Timestamp>, startedAt: Option<Timestamp>,
                         uploadedFiles: Option<int>, now: Timestamp): (u: JobUpdate)
    ensures u.status == status && u.completedAt == completedAt && u.startedAt == startedAt
    ensures u.uploadedFiles == uploadedFiles && u.updatedAt == Some(now)
    ensures u.uploadedSizeBytes == 0 && u.elapsedTime.None?
  {
    NewJobUpdate().(status := status, completedAt := completedAt, updatedAt := Some(now),
                     startedAt := startedAt, uploadedFiles := uploadedFiles)
  }

  /** The control-plane service as the job tool uses it: it answers queries from `cp` and
      records the updates it is sent. */
  class JobService {
    const cp: ControlPlane
    var updates: seq<(Uuid, JobUpdate)>

    constructor (cp: ControlPlane)
      ensures this.cp == cp && updates == []
    {
      this.cp := cp;
      updates := [];
    }

    method UpdateJob(jobId: Uuid, status: Option<JobStatus>, now: Timestamp)
      modifies this
      ensures updates == old(updates) + [(jobId, UpdateRequest(status, None, None, None, now))]
    {
      updates := updates + [(jobId, UpdateRequest(status, None, None, None, now))];
    }
  }

  /** One cancellation per job, in order, the i-th stamped with the i-th clock reading. */
  function Cancellations(jobs: seq<Job>, clock: Clock): (r: seq<(Uuid, JobUpdate)>)
    decreases |jobs|
  {
    if |jobs| == 0 then []
    else
      var last := |jobs| - 1;
      Cancellations(jobs[..last], clock) + [(jobs[last].id, UpdateRequest(Some(CANCELLED), None, None, None, clock(last)))]
  }

  /** Exactly one update per job, the i-th for the i-th job, each setting CANCELLED and
      nothing but its own time stamp besides. */
  lemma {:induction false} CancellationsOnePerJob(jobs: seq<Job>, clock: Clock)
    ensures |Cancellations(jobs, clock)| == |jobs|
    ensures forall i :: 0 <= i < |jobs| ==> Cancellations(jobs, clock)[i].0 == jobs[i].id
    ensures forall i :: 0 <= i < |jobs| ==>
              var u := Cancellations(jobs, clock)[i].1;
              u.status == Some(CANCELLED) && u.updatedAt == Some(clock(i)) && u.completedAt.None?
              && u.startedAt.None? && u.uploadedFiles.None?
    decreases |jobs|
  {
    if |jobs| > 0 {
      CancellationsOnePerJob(jobs[..|jobs| - 1], clock);
    }
  }

  /** The jobs the cancel action looks at: the pending ones, then the running ones. */
  function ActiveJobs(cp: ControlPlane, manifestId: Option<Uuid>, loadId: Option<string>): seq<Job> {
    GetJobs(cp, manifestId, loadId, Some(PENDING)) + GetJobs(cp, manifestId, loadId, Some(RUNNING))
  }

  /** `cancel_job`: without an id it fails and sends nothing; otherwise it sends one
      CANCELLED update per active job, in order. */
  method CancelJob(service: JobService, manifestId: Option<Uuid>, loadId: Option<string>, clock: Clock)
    returns (error: Option<Error>)
    modifies service
    ensures !HasIds(manifestId, loadId) ==> error == Some(IdsRequired) && service.updates == old(service.updates)
    ensures HasIds(manifestId, loadId) ==>
              && error.None?
              && service.updates == old(service.updates) + Cancellations(ActiveJobs(service.cp, manifestId, loadId), clock)
  {
    if !(Truthy(manifestId) || Truthy(loadId)) {
      return Some(IdsRequired);
    }
    var jobs := GetActiveJobs(service.cp, manifestId, loadId);
    if |jobs| == 0 {
      return None;
    }
    for i := 0 to |jobs|
      invariant service.updates == old(service.updates) + Cancellations(jobs[..i], clock)
    {
      assert jobs[..i + 1][..i] == jobs[..i];
      service.UpdateJob(jobs[i].id, Some(CANCELLED), clock(i));
    }
    assert jobs[..|jobs|] == jobs;
    error := None;
  }

  // ---------------------------------------------------------------------------------------
  // Report

  /** What `report_job_status` prints reports for: each job with the manifest it is shown
      against. */
  datatype JobReport = JobReport(job: Job, manifest: Manifest)

  function ReportJobStatus(cp: ControlPlane, manifestId: Option<Uuid>, loadId: Option<string>): Result<seq<JobReport>> {
    if !HasIds(manifestId, loadId) then Err(IdsRequired)
    else
      var jobs := GetJobs(cp, manifestId, loadId, None);
      if |jobs| == 0 then Ok([])
      else
        var manifest := cp.manifestById(jobs[0].manifestId);
        Ok(seq(|jobs|, i requires 0 <= i < |jobs| => JobReport(jobs[i], manifest)))
  }

  /** One report per job, in order, every one against the manifest of the first job. */
  lemma ReportUsesFirstJobsManifest(cp: ControlPlane, manifestId: Option<Uuid>, loadId: Option<string>)
    requires HasIds(manifestId, loadId)
    ensures var jobs := GetJobs(cp, manifestId, loadId, None);
            var r := ReportJobStatus(cp, manifestId, loadId);
            && r.Ok? && |r.value| == |jobs|
            && forall i :: 0 <= i < |jobs| ==>
                 r.value[i].job == jobs[i] && r.value[i].manifest == cp.manifestById(jobs[0].manifestId)
  {
  }

  // ---------------------------------------------------------------------------------------
  // Query

  /** The jobs with a given status, in order. */
  function WithStatus(jobs: seq<Job>, s: JobStatus): (r: seq<Job>)
    ensures |r| <= |jobs|
    decreases |jobs|
  {
    if |jobs| == 0 then []
    else WithStatus(jobs[..|jobs| - 1], s) + (if jobs[|jobs| - 1].status == s then [jobs[|jobs| - 1]] else [])
  }

  /** The total line `query_jobs` logs, or None when there are no jobs. */
  function QuerySummary(jobs: seq<Job>): Option<string> {
    if |jobs| == 0 then None
    else Some("=== Total jobs: " + Decimal(|jobs|)
              + " (Pending: " + Decimal(|WithStatus(jobs, PENDING)|)
              + ", Running: " + Decimal(|WithStatus(jobs, RUNNING)|)
              + ", Completed: " + Decimal(|WithStatus(jobs, JobStatus.COMPLETED)|) + ")")
  }

  function QueryJobs(cp: ControlPlane, manifestId: Option<Uuid>, loadId: Option<string>): Result<Option<string>> {
    if !HasIds(manifestId, loadId) then Err(IdsRequired)
    else Ok(QuerySummary(GetJobs(cp, manifestId, loadId, None)))
  }

  /** Without an id the query fails; with one, nothing is summed up for no jobs, and otherwise
      the total line gives the number of jobs and, in order, the pending, running and
      completed counts. */
  lemma QueryJobsOutcome(cp: ControlPlane, manifestId: Option<Uuid>, loadId: Option<string>)
    ensures var r := QueryJobs(cp, manifestId, loadId);
            var jobs := GetJobs(cp, manifestId, loadId, None);
            && (r.Err? <==> !HasIds(manifestId, loadId))
            && (r.Err? ==> r.error == IdsRequired)
            && (r.Ok? ==> (r.value.None? <==> |jobs| == 0))
            && (r.Ok? && r.value.Some? ==>
                  r.value.value == "=== Total jobs: " + Decimal(|jobs|)
                                   + " (Pending: " + Decimal(|WithStatus(jobs, PENDING)|)
                                   + ", Running: " + Decimal(|WithStatus(jobs, RUNNING)|)
                                   + ", Completed: " + Decimal(|WithStatus(jobs, JobStatus.COMPLETED)|) + ")")
  {
  }

  /** The jobs a status keeps are exactly those of that status, in order, with their
      multiplicity. */
  lemma {:induction false} WithStatusExact(jobs: seq<Job>, s: JobStatus)
    ensures forall j :: multiset(WithStatus(jobs, s))[j] == if j.status == s then multiset(jobs)[j] else 0
    decreases |jobs|
  {
    if |jobs| > 0 {
      var k := |jobs| - 1;
      WithStatusExact(jobs[..k], s);
      assert jobs == jobs[..k] + [jobs[k]];
    }
  }

  /** The five status counts add up to the total, so pending, running and completed together
      are at most the total. */
  lemma {:induction false} StatusCountsPartition(jobs: seq<Job>)
    ensures |WithStatus(jobs, PENDING)| + |WithStatus(jobs, CANCELLED)| + |WithStatus(jobs, RUNNING)|
            + |WithStatus(jobs, JobStatus.COMPLETED)| + |WithStatus(jobs, JobStatus.ERROR)| == |jobs|
    ensures |WithStatus(jobs, PENDING)| + |WithStatus(jobs, RUNNING)| + |WithStatus(jobs, JobStatus.COMPLETED)| <= |jobs|
    decreases |jobs|
  {
    if |jobs| > 0 {
      StatusCountsPartition(jobs[..|jobs| - 1]);
    }
  }
}
