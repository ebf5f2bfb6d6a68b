/**
 * The multipart strategy (`infrastructure/aws/s3_multi_uploader.py`): initiate one multipart
 * upload, presign one `upload_part` URL per 20 MiB part, and complete with the parts the
 * client reports.
 */
module MultiUploader {
  import opened Wrappers
  import opened Types
  import opened PyText
  import opened KeyBuilder
  import opened Partitioning
  import opened S3

  /** Validity of each presigned part URL, in seconds. */
  const PART_EXPIRES_IN: int := 3600

  const INCOMPLETE_ERROR: Exception := Exception(ValueError, "multipart completion requires mpu_upload_id and parts")

  /** The strategy with its storage client and the configured bucket. */
  datatype S3MultiPartFileUploader = S3MultiPartFileUploader(s3: S3Client, bucket: string)

  /** `create_multipart_upload(Bucket=..., Key=..., ContentType=...)`. */
  function InitiateCall(bucket: string, key: string, contentType: string): S3Call {
    CreateMultipartUpload(bucket, key, contentType)
  }

  /** The presign call for part `partNumber`: same bucket, key and multipart id, 3600 s. */
  function PartCall(bucket: string, key: string, mpuUploadId: string, partNumber: int): S3Call {
    GeneratePresignedUrl("upload_part",
      map["Bucket" := PStr(bucket), "Key" := PStr(key), "UploadId" := PStr(mpuUploadId), "PartNumber" := PInt(partNumber)],
      PART_EXPIRES_IN)
  }

  /** The client's answer to the presign of part `i + 1`, issued as call `base + i`. */
  function PartReply(reply: Reply, base: nat, bucket: string, key: string, mpuUploadId: string, i: nat): Result<string, Exception> {
    reply(base + i, PartCall(bucket, key, mpuUploadId, i + 1))
  }

  /**
   * Presigning parts `1..n` in order, starting at call `base`: the calls issued and either
   * the URLs or the error of the first presign that failed, which ends the run.
   */
  function PresignParts(reply: Reply, base: nat, bucket: string, key: string, mpuUploadId: string, n: nat): (r: Run<seq<string>>)
    ensures |r.calls| <= n
    ensures r.outcome.Success? ==> |r.calls| == n && |r.outcome.value| == n
    decreases n
  {
    if n == 0 then Run([], Success([]))
    else
      var prev := PresignParts(reply, base, bucket, key, mpuUploadId, n - 1);
      if prev.outcome.Failure? then prev
      else
        var call := PartCall(bucket, key, mpuUploadId, n);
        var url := reply(base + n - 1, call);
        Run(prev.calls + [call], if url.Failure? then Failure(url.error) else Success(prev.outcome.value + [url.value]))
  }

  /** The run issues the presigns of parts `1, 2, ...` in order. */
  lemma {:induction false} PresignPartsCalls(reply: Reply, base: nat, bucket: string, key: string, mpuUploadId: string, n: nat)
    ensures var r := PresignParts(reply, base, bucket, key, mpuUploadId, n);
      forall i :: 0 <= i < |r.calls| ==> r.calls[i] == PartCall(bucket, key, mpuUploadId, i + 1)
    decreases n
  {
    if n > 0 {
      PresignPartsCalls(reply, base, bucket, key, mpuUploadId, n - 1);
      var prev := PresignParts(reply, base, bucket, key, mpuUploadId, n - 1);
      if prev.outcome.Success? {
        PresignPartsStep(reply, base, bucket, key, mpuUploadId, n);
      }
    }
  }

  /** One more part after a successful run: its presign is appended and decides the outcome. */
  lemma PresignPartsStep(reply: Reply, base: nat, bucket: string, key: string, mpuUploadId: string, n: nat)
    requires n >= 1 && PresignParts(reply, base, bucket, key, mpuUploadId, n - 1).outcome.Success?
    ensures var prev := PresignParts(reply, base, bucket, key, mpuUploadId, n - 1);
      var url := PartReply(reply, base, bucket, key, mpuUploadId, n - 1);
      && |prev.calls| == n - 1
      && PresignParts(reply, base, bucket, key, mpuUploadId, n)
         == Run(prev.calls + [PartCall(bucket, key, mpuUploadId, n)],
                if url.Failure? then Failure(url.error) else Success(prev.outcome.value + [url.value]))
  {
  }

  /** The run yields URLs exactly when every presign of parts `1..n` succeeds. */
  lemma {:induction false} PresignPartsSucceeds(reply: Reply, base: nat, bucket: string, key: string, mpuUploadId: string, n: nat)
    ensures PresignParts(reply, base, bucket, key, mpuUploadId, n).outcome.Success?
       <==> forall i :: 0 <= i < n ==> PartReply(reply, base, bucket, key, mpuUploadId, i).Success?
    decreases n
  {
    if n > 0 {
      PresignPartsSucceeds(reply, base, bucket, key, mpuUploadId, n - 1);
      var prev := PresignParts(reply, base, bucket, key, mpuUploadId, n - 1);
      if prev.outcome.Success? {
        PresignPartsStep(reply, base, bucket, key, mpuUploadId, n);
      }
    }
  }

  /** URL `i` of a successful run is the client's answer for part `i + 1`. */
  lemma {:induction false} PresignPartsUrls(reply: Reply, base: nat, bucket: string, key: string, mpuUploadId: string, n: nat)
    ensures var r := PresignParts(reply, base, bucket, key, mpuUploadId, n);
      r.outcome.Success? ==>
        forall i :: 0 <= i < n ==> Success(r.outcome.value[i]) == PartReply(reply, base, bucket, key, mpuUploadId, i)
    decreases n
  {
    if n > 0 {
      PresignPartsUrls(reply, base, bucket, key, mpuUploadId, n - 1);
      var r := PresignParts(reply, base, bucket, key, mpuUploadId, n);
      if r.outcome.Success? {
        var prev := PresignParts(reply, base, bucket, key, mpuUploadId, n - 1);
        assert r.outcome.value == prev.outcome.value + [r.outcome.value[n - 1]];
      }
    }
  }

  /** A failed run stops at the first presign that failed, with that presign's error. */
  lemma {:induction false} PresignPartsFails(reply: Reply, base: nat, bucket: string, key: string, mpuUploadId: string, n: nat)
    ensures var r := PresignParts(reply, base, bucket, key, mpuUploadId, n);
      r.outcome.Failure? ==>
        && |r.calls| >= 1
        && PartReply(reply, base, bucket, key, mpuUploadId, |r.calls| - 1) == Failure(r.outcome.error)
        && forall i :: 0 <= i < |r.calls| - 1 ==> PartReply(reply, base, bucket, key, mpuUploadId, i).Success?
    decreases n
  {
    if n > 0 {
      PresignPartsFails(reply, base, bucket, key, mpuUploadId, n - 1);
      PresignPartsSucceeds(reply, base, bucket, key, mpuUploadId, n - 1);
    }
  }

  /** Once a presign has failed, running to a larger part count changes nothing. */
  lemma {:induction false} PresignPartsStops(reply: Reply, base: nat, bucket: string, key: string, mpuUploadId: string, k: nat, n: nat)
    requires k <= n
    requires PresignParts(reply, base, bucket, key, mpuUploadId, k).outcome.Failure?
    ensures PresignParts(reply, base, bucket, key, mpuUploadId, n) == PresignParts(reply, base, bucket, key, mpuUploadId, k)
    decreases n
  {
    if k < n {
      PresignPartsStops(reply, base, bucket, key, mpuUploadId, k, n - 1);
    }
  }

  /**
   * What `plan` does with a client whose log holds `base` calls and with `sessionId` as the
   * fresh uuid: initiate, then presign parts `1..total_parts`, then build the plan.
   */
  function PlanRun(reply: Reply, base: nat, bucket: string, ctx: UploadCtx, sessionId: string): Run<UploadPlan> {
    var key := KeyForMultipart(ctx.prefix, sessionId, ctx.fileMeta.filename);
    var initiate := InitiateCall(bucket, key, ctx.fileMeta.contentType);
    var mpu := reply(base, initiate);
    if mpu.Failure? then Run([initiate], Failure(mpu.error))
    else
      var (partSize, totalParts) := PlanPartSize(ctx.fileMeta.sizeBytes);
      var parts := PresignParts(reply, base + 1, bucket, key, mpu.value, totalParts);
      Run([initiate] + parts.calls,
        if parts.outcome.Failure? then Failure(parts.outcome.error)
        else Success(UploadPlan(MultiPart, sessionId, bucket, key, Some(partSize), Some(totalParts), None,
                                Some(parts.outcome.value),
                                Some(CompleteUrlPayload(bucket, key, sessionId, Some(mpu.value), Some([]))))))
  }

  /** `PlanRun` after a successful initiate that returned `mpu`. */
  lemma PlanRunAfterInitiate(reply: Reply, base: nat, bucket: string, ctx: UploadCtx, sessionId: string, mpu: string)
    requires reply(base, InitiateCall(bucket, KeyForMultipart(ctx.prefix, sessionId, ctx.fileMeta.filename), ctx.fileMeta.contentType)) == Success(mpu)
    ensures var key := KeyForMultipart(ctx.prefix, sessionId, ctx.fileMeta.filename);
      var initiate := InitiateCall(bucket, key, ctx.fileMeta.contentType);
      var (partSize, totalParts) := PlanPartSize(ctx.fileMeta.sizeBytes);
      var parts := PresignParts(reply, base + 1, bucket, key, mpu, totalParts);
      PlanRun(reply, base, bucket, ctx, sessionId)
      == Run([initiate] + parts.calls,
           if parts.outcome.Failure? then Failure(parts.outcome.error)
           else Success(UploadPlan(MultiPart, sessionId, bucket, key, Some(partSize), Some(totalParts), None,
                                   Some(parts.outcome.value),
                                   Some(CompleteUrlPayload(bucket, key, sessionId, Some(mpu), Some([]))))))
  {
  }

  /** `plan` initiates exactly once, before anything else, and stops there if that fails. */
  lemma {:induction false} PlanRunInitiatesFirst(reply: Reply, base: nat, bucket: string, ctx: UploadCtx, sessionId: string)
    ensures var run := PlanRun(reply, base, bucket, ctx, sessionId);
      var key := KeyForMultipart(ctx.prefix, sessionId, ctx.fileMeta.filename);
      var initiate := CreateMultipartUpload(bucket, key, ctx.fileMeta.contentType);
      && |run.calls| >= 1 && run.calls[0] == initiate
      && (forall i :: 1 <= i < |run.calls| ==> run.calls[i].GeneratePresignedUrl?)
      && (reply(base, initiate).Failure? ==> run == Run([initiate], Failure(reply(base, initiate).error)))
  {
    var run := PlanRun(reply, base, bucket, ctx, sessionId);
    var key := KeyForMultipart(ctx.prefix, sessionId, ctx.fileMeta.filename);
    var initiate := CreateMultipartUpload(bucket, key, ctx.fileMeta.contentType);
    var mpu := reply(base, initiate);
    if mpu.Success? {
      PlanRunAfterInitiate(reply, base, bucket, ctx, sessionId, mpu.value);
      var totalParts := PlanPartSize(ctx.fileMeta.sizeBytes).1;
      var parts := PresignParts(reply, base + 1, bucket, key, mpu.value, totalParts);
      PresignPartsCalls(reply, base + 1, bucket, key, mpu.value, totalParts);
      assert run.calls == [initiate] + parts.calls;
      forall i | 1 <= i < |run.calls|
        ensures run.calls[i].GeneratePresignedUrl?
      {
        assert run.calls[i] == parts.calls[i - 1];
      }
    }
  }

  /**
   * A plan that comes back is multipart, sized by `plan_part_size`, with no single PUT URL
   * and one part URL per part, and its completion payload carries the initiate's multipart id
   * and an empty part list.
   */
  lemma {:induction false} PlanRunPlan(reply: Reply, base: nat, bucket: string, ctx: UploadCtx, sessionId: string)
    requires PlanRun(reply, base, bucket, ctx, sessionId).outcome.Success?
    ensures var run := PlanRun(reply, base, bucket, ctx, sessionId);
      var p := run.outcome.value;
      var key := KeyForMultipart(ctx.prefix, sessionId, ctx.fileMeta.filename);
      var initiate := CreateMultipartUpload(bucket, key, ctx.fileMeta.contentType);
      && reply(base, initiate).Success?
      && p.uploadType == MultiPart && p.uploadId == sessionId && p.bucket == bucket && p.key == key
      && p.partSize.Some? && p.totalParts.Some?
      && (p.partSize.value, p.totalParts.value) == PlanPartSize(ctx.fileMeta.sizeBytes)
      && p.putUrl == None
      && p.partUrls.Some? && |p.partUrls.value| == p.totalParts.value
      && |run.calls| == 1 + p.totalParts.value
      && p.completeUrlPayload == Some(CompleteUrlPayload(p.bucket, p.key, p.uploadId, Some(reply(base, initiate).value), Some([])))
  {
  }

  /**
   * In a plan that comes back, call `1 + i` presigned part number `i + 1` on the plan's bucket
   * and key with the initiate's multipart id, and part URL `i` is what that call returned.
   */
  lemma {:induction false} PlanRunPartUrls(reply: Reply, base: nat, bucket: string, ctx: UploadCtx, sessionId: string)
    requires PlanRun(reply, base, bucket, ctx, sessionId).outcome.Success?
    ensures var run := PlanRun(reply, base, bucket, ctx, sessionId);
      var p := run.outcome.value;
      var initiate := CreateMultipartUpload(bucket, p.key, ctx.fileMeta.contentType);
      && reply(base, initiate).Success? && p.partUrls.Some? && |run.calls| == 1 + |p.partUrls.value|
      && forall i :: 0 <= i < |p.partUrls.value| ==>
           && run.calls[1 + i] == PartCall(bucket, p.key, reply(base, initiate).value, i + 1)
           && Success(p.partUrls.value[i]) == reply(base + 1 + i, run.calls[1 + i])
  {
    var run := PlanRun(reply, base, bucket, ctx, sessionId);
    var key := KeyForMultipart(ctx.prefix, sessionId, ctx.fileMeta.filename);
    var mpu := reply(base, CreateMultipartUpload(bucket, key, ctx.fileMeta.contentType)).value;
    PlanRunAfterInitiate(reply, base, bucket, ctx, sessionId, mpu);
    var totalParts := PlanPartSize(ctx.fileMeta.sizeBytes).1;
    var parts := PresignParts(reply, base + 1, bucket, key, mpu, totalParts);
    PresignPartsCalls(reply, base + 1, bucket, key, mpu, totalParts);
    PresignPartsUrls(reply, base + 1, bucket, key, mpu, totalParts);
    assert run.calls == [CreateMultipartUpload(bucket, key, ctx.fileMeta.contentType)] + parts.calls;
    forall i | 0 <= i < totalParts
      ensures run.calls[1 + i] == parts.calls[i]
    {
    }
  }

  /** A planned key lies under `prefix + upload_id + "/"` and ends in the sanitised filename. */
  lemma {:induction false} PlanKeyLayout(reply: Reply, base: nat, bucket: string, ctx: UploadCtx, sessionId: string)
    requires PlanRun(reply, base, bucket, ctx, sessionId).outcome.Success?
    ensures var p := PlanRun(reply, base, bucket, ctx, sessionId).outcome.value;
      var parts := Split(p.key, '/');
      && StartsWith(p.key, ctx.prefix + p.uploadId + "/")
      && parts[|parts| - 1] == SafeName(ctx.fileMeta.filename)
      && Join(parts[..|parts| - 1], '/') == ctx.prefix + p.uploadId
  {
    KeyForMultipartStartsWithPrefix(ctx.prefix, sessionId, ctx.fileMeta.filename);
    KeyForMultipartLastSegment(ctx.prefix, sessionId, ctx.fileMeta.filename);
  }

  /** `plan(ctx)`, with the uuid it draws passed in as `sessionId`. */
  method Plan(u: S3MultiPartFileUploader, ctx: UploadCtx, sessionId: string) returns (r: Result<UploadPlan, Exception>)
    modifies u.s3
    ensures var run := PlanRun(u.s3.reply, |old(u.s3.log)|, u.bucket, ctx, sessionId);
      u.s3.log == old(u.s3.log) + run.calls && r == run.outcome
  {
    var key := KeyForMultipart(ctx.prefix, sessionId, ctx.fileMeta.filename);
    var initiate := InitiateCall(u.bucket, key, ctx.fileMeta.contentType);
    var init := u.s3.Call(initiate);
    if init.Failure? {
      return Failure(init.error);
    }
    var mpuUploadId := init.value;
    PlanRunAfterInitiate(u.s3.reply, |old(u.s3.log)|, u.bucket, ctx, sessionId, mpuUploadId);
    var (partSize, totalParts) := PlanPartSize(ctx.fileMeta.sizeBytes);
    var partUrls :- PresignAll(u, key, mpuUploadId, totalParts);
    r := Success(UploadPlan(MultiPart, sessionId, u.bucket, key, Some(partSize), Some(totalParts), None, Some(partUrls),
                            Some(CompleteUrlPayload(u.bucket, key, sessionId, Some(mpuUploadId), Some([])))));
  }

  /** The part-URL comprehension: presign parts `1..totalParts` in order, stopping at an error. */
  method PresignAll(u: S3MultiPartFileUploader, key: string, mpuUploadId: string, totalParts: nat)
    returns (r: Result<seq<string>, Exception>)
    modifies u.s3
    ensures var run := PresignParts(u.s3.reply, |old(u.s3.log)|, u.bucket, key, mpuUploadId, totalParts);
      u.s3.log == old(u.s3.log) + run.calls && r == run.outcome
  {
    ghost var base := |old(u.s3.log)|;
    var partUrls: seq<string> := [];
    var i := 1;
    while i <= totalParts
      invariant 1 <= i <= totalParts + 1
      invariant u.s3.log == old(u.s3.log) + PresignParts(u.s3.reply, base, u.bucket, key, mpuUploadId, i - 1).calls
      invariant PresignParts(u.s3.reply, base, u.bucket, key, mpuUploadId, i - 1).outcome == Success(partUrls)
    {
      PresignPartsStep(u.s3.reply, base, u.bucket, key, mpuUploadId, i);
      var url := u.s3.Call(PartCall(u.bucket, key, mpuUploadId, i));
      if url.Failure? {
        PresignPartsStops(u.s3.reply, base, u.bucket, key, mpuUploadId, i, totalParts);
        return Failure(url.error);
      }
      partUrls := partUrls + [url.value];
      i := i + 1;
    }
    r := Success(partUrls);
  }

  // ---------------------------------------------------------------------------
  // complete
  // ---------------------------------------------------------------------------

  /** `not payload.mpu_upload_id or not payload.parts`: a falsy id or a falsy part list. */
  predicate Incomplete(p: CompletionPayload) {
    p.mpuUploadId.None? || p.mpuUploadId.value == "" || p.parts.None? || p.parts.value == []
  }

  /** `complete_multipart_upload(...)` with exactly the payload's parts, in its order. */
  function CompleteCall(p: CompletionPayload): S3Call
    requires !Incomplete(p)
  {
    CompleteMultipartUpload(p.bucket, p.key, p.mpuUploadId.value, p.parts.value)
  }

  /**
   * `complete(payload)`: rejects a payload without a multipart id or without parts before any
   * call; otherwise submits the parts as given and raises what the client raises.
   */
  method Complete(u: S3MultiPartFileUploader, payload: CompletionPayload) returns (r: Outcome)
    modifies u.s3
    ensures Incomplete(payload) ==> u.s3.log == old(u.s3.log) && r == Fail(INCOMPLETE_ERROR)
    ensures !Incomplete(payload) ==>
      && u.s3.log == old(u.s3.log) + [CompleteCall(payload)]
      && var answer := u.s3.reply(|old(u.s3.log)|, CompleteCall(payload));
         r == if answer.Failure? then Fail(answer.error) else Pass
  {
    if Incomplete(payload) {
      return Fail(INCOMPLETE_ERROR);
    }
    var answer := u.s3.Call(CompleteCall(payload));
    r := if answer.Failure? then Fail(answer.error) else Pass;
  }

  /**
   * The payload a plan hands out cannot be submitted unchanged: its part list is empty, so
   * completing with it raises `ValueError` before any storage call.
   */
  lemma {:induction false} PlanPayloadIncomplete(reply: Reply, base: nat, bucket: string, ctx: UploadCtx, sessionId: string, provider: Provider)
    requires PlanRun(reply, base, bucket, ctx, sessionId).outcome.Success?
    ensures var p := PlanRun(reply, base, bucket, ctx, sessionId).outcome.value;
      p.completeUrlPayload.Some? && Incomplete(PayloadFromPlan(provider, p.completeUrlPayload.value))
  {
    PlanRunPlan(reply, base, bucket, ctx, sessionId);
  }
}
