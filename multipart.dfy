/** The multipart write protocol: open a session, upload the file in fixed-size parts
    numbered from 1, then complete the session with the list of part tags, or abort it. */
module Multipart {
  import opened Wrappers
  import opened Collaborators

  /** The parts the upload loop reads: from offset 0, each `min(partSize, size - offset)`
      bytes long, until the offset reaches the size. */
  function SplitParts<T>(data: seq<T>, partSize: nat): seq<seq<T>>
    requires partSize > 0
    decreases |data|
  {
    if |data| == 0 then []
    else
      var c := Min(partSize, |data|);
      [data[..c]] + SplitParts(data[c..], partSize)
  }

  function Flatten<T>(ss: seq<seq<T>>): seq<T>
    decreases |ss|
  {
    if |ss| == 0 then [] else ss[0] + Flatten(ss[1..])
  }

  /** The parts put back together are the file. */
  lemma {:induction false} SplitPartsReassemble<T>(data: seq<T>, partSize: nat)
    requires partSize > 0
    ensures Flatten(SplitParts(data, partSize)) == data
    decreases |data|
  {
    if |data| > 0 {
      var c := Min(partSize, |data|);
      var parts := SplitParts(data, partSize);
      assert parts[1..] == SplitParts(data[c..], partSize);
      SplitPartsReassemble(data[c..], partSize);
      assert data[..c] + data[c..] == data;
    }
  }

  /** There are ceil(size / partSize) parts: n parts hold more than (n - 1) full parts and
      at most n full parts. */
  lemma {:induction false} SplitPartsCount<T>(data: seq<T>, partSize: nat)
    requires partSize > 0
    ensures var n := |SplitParts(data, partSize)|;
            (n == 0 <==> |data| == 0) && (n - 1) * partSize < |data| <= n * partSize
    decreases |data|
  {
    if |data| > partSize {
      SplitPartsCount(data[partSize..], partSize);
      var n := |SplitParts(data, partSize)|;
      assert n == |SplitParts(data[partSize..], partSize)| + 1;
      assert (n - 1) * partSize == (n - 2) * partSize + partSize;
      assert n * partSize == (n - 1) * partSize + partSize;
    }
  }

  /** The same count in the closed form of integer division. */
  lemma CeilDivision(size: nat, partSize: nat, n: nat)
    requires partSize > 0
    requires (n - 1) * partSize < size <= n * partSize
    ensures n == (size + partSize - 1) / partSize
  {
    var q := (size + partSize - 1) / partSize;
    var r := (size + partSize - 1) % partSize;
    assert size + partSize - 1 == q * partSize + r;
    assert n * partSize == (n - 1) * partSize + partSize;
    assert (n + 1) * partSize == n * partSize + partSize;
    MultiplyLess(n - 1, q, partSize);
    MultiplyLess(q, n + 1, partSize);
  }

  lemma MultiplyMonotonic(a: int, b: int, m: nat)
    requires a <= b
    ensures a * m <= b * m
  {
  }

  lemma MultiplyLess(a: int, b: int, m: nat)
    ensures a * m < b * m ==> a < b
  {
    if a >= b {
      MultiplyMonotonic(b, a, m);
    }
  }

  /** The offset part i is read at: i steps of `partSize` from the start. */
  function Offset(i: nat, partSize: nat): nat
    decreases i
  {
    if i == 0 then 0 else Offset(i - 1, partSize) + partSize
  }

  lemma {:induction false} OffsetIsProduct(i: nat, partSize: nat)
    ensures Offset(i, partSize) == i * partSize
    decreases i
  {
    if i > 0 {
      OffsetIsProduct(i - 1, partSize);
      assert i * partSize == (i - 1) * partSize + partSize;
    }
  }

  /** Part i starts at offset i * partSize, inside the file, and ends at the next multiple or
      at the end of the file. */
  lemma {:induction false} SplitPartsAt<T>(data: seq<T>, partSize: nat, i: nat)
    requires partSize > 0
    requires i < |SplitParts(data, partSize)|
    ensures Offset(i, partSize) < |data|
    ensures SplitParts(data, partSize)[i] == data[Offset(i, partSize) .. Min(Offset(i, partSize) + partSize, |data|)]
    decreases i
  {
    if i > 0 {
      var c := Min(partSize, |data|);
      var rest := data[c..];
      assert SplitParts(data, partSize)[i] == SplitParts(rest, partSize)[i - 1];
      SplitPartsAt(rest, partSize, i - 1);
      var lo := Offset(i - 1, partSize);
      ShiftedSlice(data, partSize, lo, Min(lo + partSize, |rest|));
    }
  }

  lemma ShiftedSlice<T>(data: seq<T>, d: nat, lo: nat, hi: nat)
    requires d <= |data| && lo <= hi <= |data| - d
    ensures data[d..][lo..hi] == data[lo + d..hi + d]
  {
  }

  /** Every part but the last is exactly `partSize` bytes; the last holds what remains. */
  lemma {:induction false} PartSizes<T>(data: seq<T>, partSize: nat)
    requires partSize > 0
    ensures var parts := SplitParts(data, partSize);
            && (forall i :: 0 <= i < |parts| - 1 ==> |parts[i]| == partSize)
            && (|parts| > 0 ==> |parts[|parts| - 1]| == |data| - partSize * (|parts| - 1))
    decreases |data|
  {
    if |data| > partSize {
      var parts := SplitParts(data, partSize);
      var tail := SplitParts(data[partSize..], partSize);
      PartSizes(data[partSize..], partSize);
      assert parts == [data[..partSize]] + tail;
      var n := |parts|;
      assert n - 1 == |tail| > 0;
      assert partSize * (n - 1) == partSize * (n - 2) + partSize;
      forall i | 0 <= i < n - 1
        ensures |parts[i]| == partSize
      {
        if i > 0 {
          assert parts[i] == tail[i - 1];
        }
      }
    }
  }

  /** The part requests of a session, numbered from `first` in byte order. */
  function PartRequests(bucket: string, key: string, uploadId: string, parts: seq<Bytes>,
                        first: nat): seq<Request> {
    seq(|parts|, i requires 0 <= i < |parts| => UploadPart(bucket, key, first + i, uploadId, parts[i]))
  }

  /** The index of the first request the store fails, or the number of requests if none fails. */
  function FirstFailure(respond: Request -> Response, reqs: seq<Request>): (k: nat)
    ensures k <= |reqs|
    ensures forall j :: 0 <= j < k ==> respond(reqs[j]).Success?
    ensures k < |reqs| ==> respond(reqs[k]).Failure?
    decreases |reqs|
  {
    if |reqs| == 0 then 0
    else if respond(reqs[0]).Failure? then 0
    else 1 + FirstFailure(respond, reqs[1..])
  }

  /** The value a successful response carries. */
  function ValueOf(r: Response): string {
    if r.Success? then r.value else ""
  }

  /** The completion list of part requests numbered from `first`: one {ETag, PartNumber}
      per part, in upload order. */
  function Tags(respond: Request -> Response, reqs: seq<Request>, first: nat): seq<PartTag> {
    seq(|reqs|, i requires 0 <= i < |reqs| => PartTag(ValueOf(respond(reqs[i])), first + i))
  }

  /** What the part loop sends, the tags it collects and the error it stops at, if any. */
  datatype PartsRun = PartsRun(requests: seq<Request>, tags: seq<PartTag>, error: Option<string>)

  /** The part loop from the part numbered `partNumber` on, over the bytes `rest` that remain
      from its offset to the end of the file. */
  function PartsFrom(respond: Request -> Response, bucket: string, key: string, uploadId: string,
                     rest: Bytes, partSize: nat, partNumber: nat): PartsRun
    requires partSize > 0
    decreases |rest|
  {
    if |rest| == 0 then PartsRun([], [], None)
    else
      var c := Min(partSize, |rest|);
      var req := UploadPart(bucket, key, partNumber, uploadId, rest[..c]);
      match respond(req)
      case Failure(e) => PartsRun([req], [], Some(e))
      case Success(etag) =>
        var tail := PartsFrom(respond, bucket, key, uploadId, rest[c..], partSize, partNumber + 1);
        PartsRun([req] + tail.requests, [PartTag(etag, partNumber)] + tail.tags, tail.error)
  }

  /** `run` is what sending `reqs` in order gives: every request up to and including the
      first one the store fails; that request's error; and with no failure one tag per request,
      numbered from `first`. */
  ghost predicate Shaped(respond: Request -> Response, run: PartsRun, reqs: seq<Request>, first: nat) {
    var f := FirstFailure(respond, reqs);
    && (run.error.None? <==> f == |reqs|)
    && (f < |reqs| ==> run.requests == reqs[..f + 1] && run.error == Some(respond(reqs[f]).error))
    && (f == |reqs| ==> run.requests == reqs && run.tags == Tags(respond, reqs, first))
  }

  /** The part loop in closed form: the parts of the file are requested in order, numbered
      from `partNumber`, up to and including the first one the store fails; the error is that
      part's, and with no failure the tags are one per part. */
  lemma {:induction false} PartsFromShape(respond: Request -> Response, bucket: string, key: string,
                                          uploadId: string, rest: Bytes, partSize: nat, partNumber: nat)
    requires partSize > 0
    ensures Shaped(respond, PartsFrom(respond, bucket, key, uploadId, rest, partSize, partNumber),
                   PartRequests(bucket, key, uploadId, SplitParts(rest, partSize), partNumber), partNumber)
    decreases |rest|
  {
    var reqs := PartRequests(bucket, key, uploadId, SplitParts(rest, partSize), partNumber);
    if |rest| == 0 {
      assert reqs == [];
    } else {
      var c := Min(partSize, |rest|);
      var tailReqs := PartRequests(bucket, key, uploadId, SplitParts(rest[c..], partSize), partNumber + 1);
      var req := UploadPart(bucket, key, partNumber, uploadId, rest[..c]);
      assert reqs == [req] + tailReqs;
      match respond(req)
      case Failure(e) =>
        ShapedFailure(respond, req, tailReqs, partNumber);
      case Success(etag) =>
        PartsFromShape(respond, bucket, key, uploadId, rest[c..], partSize, partNumber + 1);
        ShapedSuccess(respond, req,
                      PartsFrom(respond, bucket, key, uploadId, rest[c..], partSize, partNumber + 1),
                      tailReqs, partNumber);
    }
  }

  lemma ShapedFailure(respond: Request -> Response, req: Request, tailReqs: seq<Request>, first: nat)
    requires respond(req).Failure?
    ensures Shaped(respond, PartsRun([req], [], Some(respond(req).error)), [req] + tailReqs, first)
  {
    assert ([req] + tailReqs)[..1] == [req];
  }

  lemma ShapedSuccess(respond: Request -> Response, req: Request, tail: PartsRun,
                      tailReqs: seq<Request>, first: nat)
    requires respond(req).Success?
    requires Shaped(respond, tail, tailReqs, first + 1)
    ensures Shaped(respond, PartsRun([req] + tail.requests, [PartTag(respond(req).value, first)] + tail.tags,
                                     tail.error), [req] + tailReqs, first)
  {
    var reqs := [req] + tailReqs;
    assert reqs[1..] == tailReqs;
    var f := FirstFailure(respond, tailReqs);
    assert FirstFailure(respond, reqs) == f + 1;
    if f < |tailReqs| {
      assert reqs[..f + 2] == [req] + tailReqs[..f + 1];
    } else {
      assert Tags(respond, reqs, first) == [PartTag(respond(req).value, first)] + Tags(respond, tailReqs, first + 1);
    }
  }

  /** What an upload sends to the store, in order, and the error it raises, if any. */
  datatype StoreRun = StoreRun(requests: seq<Request>, error: Option<string>)

  /** The protocol as a function of the store's answers: a failed initiation is raised with
      no abort; otherwise the parts are sent from part 1, and a failed part or a failed
      completion is followed by exactly one abort, whose own failure is ignored, and the
      original error is raised. */
  function MultipartUpload(respond: Request -> Response, bucket: string, key: string,
                           data: Bytes, partSize: nat): StoreRun
    requires partSize > 0
  {
    var create := CreateMultipartUpload(bucket, key);
    match respond(create)
    case Failure(e) => StoreRun([create], Some(e))
    case Success(uploadId) =>
      var parts := PartsFrom(respond, bucket, key, uploadId, data, partSize, 1);
      var abort := AbortMultipartUpload(bucket, key, uploadId);
      if parts.error.Some? then
        StoreRun([create] + parts.requests + [abort], parts.error)
      else
        var complete := CompleteMultipartUpload(bucket, key, uploadId, parts.tags);
        match respond(complete)
        case Failure(e) => StoreRun([create] + parts.requests + [complete, abort], Some(e))
        case Success(_) => StoreRun([create] + parts.requests + [complete], None)
  }

  /** The protocol in closed form once the session is open: the parts of the file go out in
      byte order numbered 1, 2, ..., up to the first one the store fails, which is followed by
      the abort; with no part failing the completion carries one tag per part, and its
      failure is followed by the abort. */
  lemma MultipartSessionShape(respond: Request -> Response, bucket: string, key: string,
                              data: Bytes, partSize: nat)
    requires partSize > 0
    requires respond(CreateMultipartUpload(bucket, key)).Success?
    ensures var create := CreateMultipartUpload(bucket, key);
            var uploadId := respond(create).value;
            var reqs := PartRequests(bucket, key, uploadId, SplitParts(data, partSize), 1);
            var f := FirstFailure(respond, reqs);
            var complete := CompleteMultipartUpload(bucket, key, uploadId, Tags(respond, reqs, 1));
            var abort := AbortMultipartUpload(bucket, key, uploadId);
            var run := MultipartUpload(respond, bucket, key, data, partSize);
            && (f < |reqs| ==>
                  run == StoreRun([create] + reqs[..f + 1] + [abort], Some(respond(reqs[f]).error)))
            && (f == |reqs| && respond(complete).Failure? ==>
                  run == StoreRun([create] + reqs + [complete, abort], Some(respond(complete).error)))
            && (f == |reqs| && respond(complete).Success? ==>
                  run == StoreRun([create] + reqs + [complete], None))
  {
    var uploadId := respond(CreateMultipartUpload(bucket, key)).value;
    PartsFromShape(respond, bucket, key, uploadId, data, partSize, 1);
  }

  /** The run opens with the initiation; an abort is sent at most once, as the last request,
      and exactly when the session was opened and then failed; a failed initiation is raised
      on its own. */
  lemma MultipartAbortLast(respond: Request -> Response, bucket: string, key: string,
                           data: Bytes, partSize: nat)
    requires partSize > 0
    ensures var create := CreateMultipartUpload(bucket, key);
            var run := MultipartUpload(respond, bucket, key, data, partSize);
            var n := |run.requests|;
            && n >= 1 && run.requests[0] == create
            && (forall i :: 0 <= i < n - 1 ==> !run.requests[i].AbortMultipartUpload?)
            && (run.requests[n - 1].AbortMultipartUpload? <==> respond(create).Success? && run.error.Some?)
            && (run.requests[n - 1].AbortMultipartUpload? ==>
                  run.requests[n - 1] == AbortMultipartUpload(bucket, key, respond(create).value))
            && (respond(create).Failure? ==> run.requests == [create] && run.error == Some(respond(create).error))
  {
    var create := CreateMultipartUpload(bucket, key);
    if respond(create).Success? {
      MultipartSessionShape(respond, bucket, key, data, partSize);
      var uploadId := respond(create).value;
      var reqs := PartRequests(bucket, key, uploadId, SplitParts(data, partSize), 1);
      var f := FirstFailure(respond, reqs);
      var sent := if f < |reqs| then reqs[..f + 1] else reqs;
      assert forall j :: 0 <= j < |sent| ==> sent[j].UploadPart?;
      var run := MultipartUpload(respond, bucket, key, data, partSize);
      assert run.requests[..|sent| + 1] == [create] + sent;
      forall i | 0 <= i < |run.requests| - 1
        ensures !run.requests[i].AbortMultipartUpload?
      {
        if 0 < i <= |sent| {
          assert run.requests[i] == ([create] + sent)[i] == sent[i - 1];
        }
      }
    }
  }

  /** Uploads `data` to `key` as a multipart upload, reading each part at its offset. */
  method UploadLargeFileMultipart(client: S3Client, bucket: string, key: string, data: Bytes,
                                  partSize: nat) returns (error: Option<string>)
    requires partSize > 0
    modifies client
    ensures client.requests == old(client.requests) + MultipartUpload(client.respond, bucket, key, data, partSize).requests
    ensures error == MultipartUpload(client.respond, bucket, key, data, partSize).error
  {
    var create := CreateMultipartUpload(bucket, key);
    var resp := client.Send(create);
    if resp.Failure? {
      return Some(resp.error);
    }
    var uploadId := resp.value;
    ghost var start := client.requests;
    var tags;
    tags, error := UploadParts(client, bucket, key, uploadId, data, partSize);
    ghost var parts := PartsFrom(client.respond, bucket, key, uploadId, data, partSize, 1);
    ConcatAssoc(old(client.requests), [create], parts.requests);
    var abort := AbortMultipartUpload(bucket, key, uploadId);
    if error.None? {
      var complete := CompleteMultipartUpload(bucket, key, uploadId, tags);
      var done := client.Send(complete);
      if done.Failure? {
        error := Some(done.error);
      }
    }
    if error.Some? {
      // the abort is best effort: its own failure is swallowed
      var _ := client.Send(abort);
    }
  }

  /** The part loop of an open session: reads and uploads part after part until the offset
      reaches the end of the file or the store fails a part. */
  method UploadParts(client: S3Client, bucket: string, key: string, uploadId: string,
                     data: Bytes, partSize: nat) returns (tags: seq<PartTag>, error: Option<string>)
    requires partSize > 0
    modifies client
    ensures var run := PartsFrom(client.respond, bucket, key, uploadId, data, partSize, 1);
            client.requests == old(client.requests) + run.requests && tags == run.tags && error == run.error
  {
    ghost var whole := PartsFrom(client.respond, bucket, key, uploadId, data, partSize, 1);
    tags := [];
    var partNumber: nat := 1;
    var fileSize := |data|;
    var offset := 0;
    error := None;
    while offset < fileSize
      invariant 0 <= offset <= fileSize
      invariant var run := PartsFrom(client.respond, bucket, key, uploadId, data[offset..], partSize, partNumber);
                && client.requests + run.requests == old(client.requests) + whole.requests
                && tags + run.tags == whole.tags
                && run.error == whole.error
      invariant error.None?
      decreases fileSize - offset
    {
      var chunkSize := Min(partSize, fileSize - offset);
      var chunk := data[offset..offset + chunkSize];
      ghost var run := PartsFrom(client.respond, bucket, key, uploadId, data[offset..], partSize, partNumber);
      ghost var tail := PartsFrom(client.respond, bucket, key, uploadId, data[offset + chunkSize..], partSize, partNumber + 1);
      assert data[offset..][..chunkSize] == chunk;
      assert data[offset..][chunkSize..] == data[offset + chunkSize..];
      ghost var before := client.requests;
      var r := client.Send(UploadPart(bucket, key, partNumber, uploadId, chunk));
      if r.Failure? {
        error := Some(r.error);
        return;
      }
      ConcatAssoc(before, [UploadPart(bucket, key, partNumber, uploadId, chunk)], tail.requests);
      ConcatAssoc(tags, [PartTag(r.value, partNumber)], tail.tags);
      tags := tags + [PartTag(r.value, partNumber)];
      partNumber := partNumber + 1;
      offset := offset + chunkSize;
    }
    assert data[offset..] == [];
  }
}
