/** The helpers the uploader and the command-line tools share: the progress counter, the
    lookups against the control-plane service, the job-creation payload and the unit choice
    of a human-readable size. */
module Utils {
  import opened Wrappers
  import opened Text
  import opened Models

  /** Counts the files and bytes of a job run as the progress updates come in. */
  class MessageHandler {
    var totalFiles: int
    var startedAt: Timestamp
    var uploadedFiles: int
    var uploadedSizeBytes: int

    /** A new handler for a run of `totalFiles` files started at `now`: nothing counted yet. */
    constructor (totalFiles: int, now: Timestamp)
      ensures this.totalFiles == totalFiles && startedAt == now
      ensures uploadedFiles == 0 && uploadedSizeBytes == 0
    {
      this.totalFiles := totalFiles;
      startedAt := now;
      uploadedFiles := 0;
      uploadedSizeBytes := 0;
    }

    /** The `[uploaded/total]` counter a progress line ends with. */
    function Counter(): string
      reads this
    {
      "[" + IntDecimal(uploadedFiles) + "/" + IntDecimal(totalFiles) + "]"
    }

    /** One progress update: a completed file adds one file and its bytes; any other update
        leaves the counts alone. The line logged for a message carries the elapsed time and
        the rate, which are given, and the counter after the update. */
    method HandleUpdate(message: Option<string>, completed: bool, sizeBytes: int,
                        elapsed: string, rate: string) returns (logged: Option<string>)
      modifies this
      ensures totalFiles == old(totalFiles) && startedAt == old(startedAt)
      ensures completed ==> uploadedFiles == old(uploadedFiles) + 1
                            && uploadedSizeBytes == old(uploadedSizeBytes) + sizeBytes
      ensures !completed ==> uploadedFiles == old(uploadedFiles) && uploadedSizeBytes == old(uploadedSizeBytes)
      ensures logged.Some? <==> message.Some?
      ensures message.Some? ==> logged.value == message.value + " elapsed " + elapsed + " " + rate + " " + Counter()
    {
      if completed {
        uploadedFiles := uploadedFiles + 1;
        uploadedSizeBytes := uploadedSizeBytes + sizeBytes;
      }
      if message.Some? {
        logged := Some(message.value + " elapsed " + elapsed + " " + rate + " " + Counter());
      } else {
        logged := None;
      }
    }
  }

  /** The counts a handler reaches from zero after a sequence of updates, each given as
      (completed, bytes). */
  function Totals(updates: seq<(bool, int)>): (t: (nat, int))
    ensures t.0 <= |updates|
    decreases |updates|
  {
    if |updates| == 0 then (0, 0)
    else
      var prev := Totals(updates[..|updates| - 1]);
      var u := updates[|updates| - 1];
      if u.0 then (prev.0 + 1, prev.1 + u.1) else prev
  }

  /** Feeds `updates` to the handler in order. */
  method HandleUpdates(h: MessageHandler, updates: seq<(bool, int)>)
    modifies h
    ensures h.totalFiles == old(h.totalFiles)
    ensures h.uploadedFiles == old(h.uploadedFiles) + Totals(updates).0
    ensures h.uploadedSizeBytes == old(h.uploadedSizeBytes) + Totals(updates).1
  {
    for i := 0 to |updates|
      invariant h.totalFiles == old(h.totalFiles)
      invariant h.uploadedFiles == old(h.uploadedFiles) + Totals(updates[..i]).0
      invariant h.uploadedSizeBytes == old(h.uploadedSizeBytes) + Totals(updates[..i]).1
    {
      var _ := h.HandleUpdate(None, updates[i].0, updates[i].1, "", "");
      assert updates[..i + 1][..i] == updates[..i];
    }
    assert updates[..|updates|] == updates;
  }

  /** The number of updates that report a completed file. */
  function CompletedCount(updates: seq<(bool, int)>): nat
    decreases |updates|
  {
    if |updates| == 0 then 0 else CompletedCount(updates[1..]) + (if updates[0].0 then 1 else 0)
  }

  /** A handler counts exactly the completed updates, however they are interleaved with the others. */
  lemma {:induction false} TotalsCountCompleted(updates: seq<(bool, int)>)
    ensures Totals(updates).0 == CompletedCount(updates)
    decreases |updates|
  {
    if |updates| > 0 {
      var n := |updates| - 1;
      TotalsCountCompleted(updates[..n]);
      CompletedCountSplit(updates[..n], [updates[n]]);
      assert updates[..n] + [updates[n]] == updates;
      assert [updates[n]][1..] == [];
    }
  }

  lemma {:induction false} CompletedCountSplit(a: seq<(bool, int)>, b: seq<(bool, int)>)
    ensures CompletedCount(a + b) == CompletedCount(a) + CompletedCount(b)
    decreases |a|
  {
    if |a| > 0 {
      assert (a + b)[1..] == a[1..] + b;
      CompletedCountSplit(a[1..], b);
    } else {
      assert a + b == b;
    }
  }

  /** The bytes of the updates that report a completed file, added up. */
  function CompletedBytes(updates: seq<(bool, int)>): int
    decreases |updates|
  {
    if |updates| == 0 then 0 else CompletedBytes(updates[1..]) + (if updates[0].0 then updates[0].1 else 0)
  }

  /** A handler's byte total is the sum of the sizes the completed updates carry, and of
      nothing else. */
  lemma {:induction false} TotalsSumCompletedBytes(updates: seq<(bool, int)>)
    ensures Totals(updates).1 == CompletedBytes(updates)
    decreases |updates|
  {
    if |updates| > 0 {
      var n := |updates| - 1;
      TotalsSumCompletedBytes(updates[..n]);
      CompletedBytesSplit(updates[..n], [updates[n]]);
      assert updates[..n] + [updates[n]] == updates;
      assert [updates[n]][1..] == [];
    }
  }

  lemma {:induction false} CompletedBytesSplit(a: seq<(bool, int)>, b: seq<(bool, int)>)
    ensures CompletedBytes(a + b) == CompletedBytes(a) + CompletedBytes(b)
    decreases |a|
  {
    if |a| > 0 {
      assert (a + b)[1..] == a[1..] + b;
      CompletedBytesSplit(a[1..], b);
    } else {
      assert a + b == b;
    }
  }

  /** The answers of the control-plane service, as the lookups below read them: a manifest by
      id, the manifests matching an optional load id, and the jobs matching a query. */
  datatype ControlPlane = ControlPlane(
    manifestById: Uuid -> Manifest,
    manifests: Option<string> -> seq<Manifest>,
    jobs: JobQuery -> seq<Job>)

  /** The filters of a job query; a filter is sent only when its value is truthy. */
  datatype JobQuery = JobQuery(manifestId: Option<Uuid>, loadId: Option<string>, status: Option<JobStatus>)

  function JobQueryOf(manifestId: Option<Uuid>, loadId: Option<string>, status: Option<JobStatus>): (q: JobQuery)
    ensures q.manifestId.Some? <==> Truthy(manifestId)
    ensures q.loadId.Some? <==> Truthy(loadId)
    ensures q.manifestId.Some? ==> q.manifestId == manifestId
    ensures q.loadId.Some? ==> q.loadId == loadId
    ensures q.status == status
  {
    JobQuery(if Truthy(manifestId) then manifestId else None,
             if Truthy(loadId) then loadId else None,
             status)
  }

  function GetJobs(cp: ControlPlane, manifestId: Option<Uuid>, loadId: Option<string>,
                   status: Option<JobStatus>): seq<Job>
  {
    cp.jobs(JobQueryOf(manifestId, loadId, status))
  }

  /** The manifest of a load: the first one the service lists for it, or a ValueError naming
      the load when it lists none. */
  function GetManifestByLoadId(cp: ControlPlane, loadId: string): (r: Result<Manifest>)
    ensures r.Ok? <==> |cp.manifests(Some(loadId))| > 0
    ensures r.Ok? ==> r.value == cp.manifests(Some(loadId))[0]
    ensures r.Err? ==> r.error == ValueError("No manifest found for load_id: " + loadId)
  {
    var data := cp.manifests(Some(loadId));
    if |data| == 0 then Err(ValueError("No manifest found for load_id: " + loadId)) else Ok(data[0])
  }

  /** At most four manifests, the first ones in the service's order; the load id filters only
      when it is truthy. */
  function ListManifests(cp: ControlPlane, loadId: Option<string>): (r: seq<Manifest>)
    ensures var data := cp.manifests(if Truthy(loadId) then loadId else None);
            |r| == Min(4, |data|) && r == data[..|r|]
  {
    var data := cp.manifests(if Truthy(loadId) then loadId else None);
    if |data| > 4 then data[..4] else data
  }

  function FindManifest(cp: ControlPlane, loadId: Option<string>, manifestId: Option<Uuid>): (r: Result<Manifest>)
  {
    if Truthy(manifestId) then Ok(cp.manifestById(manifestId.value))
    else if Truthy(loadId) then GetManifestByLoadId(cp, loadId.value)
    else Err(ValueError("Either load_id or manifest_id must be provided to find a manifest"))
  }

  /** A manifest id wins over a load id, whatever the load id; the load id is used only
      without one; with neither the lookup fails with a ValueError. */
  lemma FindManifestPriority(cp: ControlPlane, loadId: Option<string>, loadId': Option<string>,
                             manifestId: Option<Uuid>)
    ensures Truthy(manifestId) ==>
              FindManifest(cp, loadId, manifestId) == FindManifest(cp, loadId', manifestId)
              && FindManifest(cp, loadId, manifestId) == Ok(cp.manifestById(manifestId.value))
    ensures !Truthy(manifestId) && Truthy(loadId) ==>
              FindManifest(cp, loadId, manifestId) == GetManifestByLoadId(cp, loadId.value)
    ensures !Truthy(manifestId) && !Truthy(loadId) ==>
              FindManifest(cp, loadId, manifestId)
                == Err(ValueError("Either load_id or manifest_id must be provided to find a manifest"))
  {
  }

  /** The lookup fails exactly when no id is given or the load has no manifest. */
  lemma FindManifestFails(cp: ControlPlane, loadId: Option<string>, manifestId: Option<Uuid>)
    ensures FindManifest(cp, loadId, manifestId).Err? <==>
              !Truthy(manifestId) && (!Truthy(loadId) || |cp.manifests(loadId)| == 0)
  {
    if Truthy(loadId) {
      assert Some(loadId.value) == loadId;
    }
  }

  /** The active jobs: the pending ones, then the running ones, each in the service's order. */
  method GetActiveJobs(cp: ControlPlane, manifestId: Option<Uuid>, loadId: Option<string>)
    returns (jobs: seq<Job>)
    ensures jobs == GetJobs(cp, manifestId, loadId, Some(PENDING)) + GetJobs(cp, manifestId, loadId, Some(RUNNING))
  {
    jobs := [];
    jobs := jobs + GetJobs(cp, manifestId, loadId, Some(PENDING));
    jobs := jobs + GetJobs(cp, manifestId, loadId, Some(RUNNING));
  }

  /** The service answers a status query only with jobs of that status. */
  ghost predicate HonestStatusQueries(cp: ControlPlane) {
    forall q: JobQuery, j :: q.status.Some? && j in cp.jobs(q) ==> j.status == q.status.value
  }

  /** Against an honest service, every active job is pending or running, and the pending
      ones come first. */
  lemma ActiveJobsArePendingThenRunning(cp: ControlPlane, manifestId: Option<Uuid>, loadId: Option<string>)
    requires HonestStatusQueries(cp)
    ensures var pending := GetJobs(cp, manifestId, loadId, Some(PENDING));
            var jobs := pending + GetJobs(cp, manifestId, loadId, Some(RUNNING));
            && (forall i :: 0 <= i < |jobs| ==> jobs[i].status == PENDING || jobs[i].status == RUNNING)
            && (forall i, k :: 0 <= i < k < |jobs| && jobs[k].status == PENDING ==> jobs[i].status == PENDING)
  {
    var pending := GetJobs(cp, manifestId, loadId, Some(PENDING));
    var running := GetJobs(cp, manifestId, loadId, Some(RUNNING));
    var jobs := pending + running;
    forall i | 0 <= i < |jobs|
      ensures jobs[i].status == (if i < |pending| then PENDING else RUNNING)
    {
      if i < |pending| {
        assert pending[i] in cp.jobs(JobQueryOf(manifestId, loadId, Some(PENDING)));
      } else {
        assert running[i - |pending|] in cp.jobs(JobQueryOf(manifestId, loadId, Some(RUNNING)));
      }
    }
  }

  /** The JSON values a payload holds. */
  datatype Json = JString(s: string) | JBool(b: bool) | JInt(i: int)

  /** The body of a job-creation request: the manifest id as a string and the mock flag
      always, the count only when one is given. */
  function CreateJobPayload(manifestId: Uuid, mock: bool, count: Option<int>): (p: map<string, Json>)
    ensures "manifest_id" in p && p["manifest_id"] == JString(manifestId)
    ensures "mock" in p && p["mock"] == JBool(mock)
    ensures "count" in p <==> count.Some?
    ensures count.Some? ==> p["count"] == JInt(count.value)
    ensures p.Keys <= {"manifest_id", "mock", "count"}
  {
    var base := map["manifest_id" := JString(manifestId), "mock" := JBool(mock)];
    if count.Some? then base["count" := JInt(count.value)] else base
  }

  /** The units a size is shown in. */
  const Units: seq<string> := ["B", "KiB", "MiB", "GiB", "TiB"]

  function Pow1024(i: nat): (p: real)
    ensures p >= 1.0
    decreases i
  {
    if i == 0 then 1.0 else 1024.0 * Pow1024(i - 1)
  }

  /** A human-readable size before its one-decimal rendering: "0B" for nothing, else the size
      scaled to a unit. */
  datatype SizeText = ZeroBytes | Scaled(value: real, unit: string)

  /** Picks the unit of a size: the largest of B, KiB, MiB, GiB and TiB that the size reaches,
      with B for anything below 1 KiB, and scales the size to it. */
  method HumanReadableSize(sizeBytes: real) returns (r: SizeText, i: nat)
    ensures sizeBytes == 0.0 <==> r == ZeroBytes
    ensures r.Scaled? ==> && i < |Units| && r.unit == Units[i]
                          && (i > 0 ==> sizeBytes >= Pow1024(i))
                          && (i < |Units| - 1 ==> sizeBytes < Pow1024(i + 1))
                          && r.value * Pow1024(i) == sizeBytes
  {
    i := 0;
    if sizeBytes == 0.0 {
      return ZeroBytes, i;
    }
    var size := sizeBytes;
    while size >= 1024.0 && i < |Units| - 1
      invariant 0 <= i < |Units|
      invariant size * Pow1024(i) == sizeBytes
      invariant i > 0 ==> sizeBytes >= Pow1024(i)
      decreases |Units| - i
    {
      size := size / 1024.0;
      i := i + 1;
    }
    r := Scaled(size, Units[i]);
  }
}
