/** The collaborators the uploader calls but does not own: the object-store client and the
    progress handler. Each records what it was asked to do, in order. */
module Collaborators {
  import opened Models

  type Bytes = seq<bv8>

  /** One entry of the part list sent on completion. */
  datatype PartTag = PartTag(etag: string, partNumber: nat)

  /** The object-store operations the uploader issues. */
  datatype Request =
    | PutObject(bucket: string, key: string, body: Bytes)
    | CreateMultipartUpload(bucket: string, key: string)
    | UploadPart(bucket: string, key: string, partNumber: nat, uploadId: string, body: Bytes)
    | CompleteMultipartUpload(bucket: string, key: string, uploadId: string, parts: seq<PartTag>)
    | AbortMultipartUpload(bucket: string, key: string, uploadId: string)

  /** What a request came back with: the value the uploader reads from the response (the
      UploadId of a new session, the ETag of a part), or the message of the error raised. */
  datatype Response = Success(value: string) | Failure(error: string)

  /** An object-store client whose answer to each request is fixed by `respond`. */
  class S3Client {
    const respond: Request -> Response
    var requests: seq<Request>

    constructor (respond: Request -> Response)
      ensures this.respond == respond && requests == []
    {
      this.respond := respond;
      requests := [];
    }

    method Send(r: Request) returns (resp: Response)
      modifies this
      ensures requests == old(requests) + [r]
      ensures resp == respond(r)
    {
      requests := requests + [r];
      resp := respond(r);
    }
  }

  /** The events a progress handler receives. */
  datatype ProgressEvent =
    | EntryUpdate(entryLog: JobEntryLogRequest)
    | JobUpdateEvent(status: JobStatus, completedAt: Timestamp, message: string)

  /** The progress handler of one job run. */
  class ProgressSink {
    var events: seq<ProgressEvent>

    constructor ()
      ensures events == []
    {
      events := [];
    }

    method HandleJobEntryUpdate(entryLog: JobEntryLogRequest)
      modifies this
      ensures events == old(events) + [EntryUpdate(entryLog)]
    {
      events := events + [EntryUpdate(entryLog)];
    }

    method HandleJobUpdate(status: JobStatus, completedAt: Timestamp, message: string)
      modifies this
      ensures events == old(events) + [JobUpdateEvent(status, completedAt, message)]
    {
      events := events + [JobUpdateEvent(status, completedAt, message)];
    }
  }
}
