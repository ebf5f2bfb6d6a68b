/**
 * The single-part strategy (`infrastructure/aws/s3_single_uploader.py`): one object key, one
 * presigned `put_object` URL, and a completion that has nothing to do.
 */
module SingleUploader {
  import opened Wrappers
  import opened Types
  import opened PyText
  import opened KeyBuilder
  import opened S3

  /** Validity of the presigned PUT URL, in seconds. */
  const PUT_EXPIRES_IN: int := 3600
  /** The sequence number the single object's key carries. */
  const SEQUENCE_NUMBER: int := 1

  /** The strategy with its storage client and the configured bucket. */
  datatype S3SingleFileUploader = S3SingleFileUploader(s3: S3Client, bucket: string)

  /** `generate_presigned_url("put_object", Params={...}, ExpiresIn=3600)`. */
  function PutCall(bucket: string, key: string, contentType: string): S3Call {
    GeneratePresignedUrl("put_object",
      map["Bucket" := PStr(bucket), "Key" := PStr(key), "ContentType" := PStr(contentType)],
      PUT_EXPIRES_IN)
  }

  /**
   * What `plan` does with a client whose log holds `base` calls and with `sessionId` as the
   * fresh uuid: the calls it issues and the plan or error it ends with.
   */
  function PlanRun(reply: Reply, base: nat, bucket: string, ctx: UploadCtx, sessionId: string): Run<UploadPlan> {
    var key := KeyForSingle(ctx.prefix, sessionId, SEQUENCE_NUMBER, ctx.fileMeta.filename);
    var call := PutCall(bucket, key, ctx.fileMeta.contentType);
    var url := reply(base, call);
    Run([call],
      if url.Failure? then Failure(url.error)
      else Success(UploadPlan(SinglePart, sessionId, bucket, key, None, None, Some(url.value), None,
                              Some(CompleteUrlPayload(bucket, key, sessionId, None, None)))))
  }

  /**
   * `plan` presigns exactly one `put_object` for the configured bucket, the key
   * `key_for_single(prefix, session_id, 1, filename)` and the file's content type, valid
   * 3600 s; it succeeds exactly when that call does, and its URL becomes `put_url`. The
   * plan is single-part with no part size, part count or part URLs, its upload id is the
   * session id, and its completion payload repeats the plan's bucket, key and upload id.
   */
  lemma {:induction false} PlanRunSpec(reply: Reply, base: nat, bucket: string, ctx: UploadCtx, sessionId: string)
    ensures var run := PlanRun(reply, base, bucket, ctx, sessionId);
      var key := KeyForSingle(ctx.prefix, sessionId, 1, ctx.fileMeta.filename);
      var call := GeneratePresignedUrl("put_object",
        map["Bucket" := PStr(bucket), "Key" := PStr(key), "ContentType" := PStr(ctx.fileMeta.contentType)], 3600);
      && run.calls == [call]
      && (run.outcome.Success? <==> reply(base, call).Success?)
      && (run.outcome.Failure? ==> run.outcome.error == reply(base, call).error)
      && (run.outcome.Success? ==>
           var p := run.outcome.value;
           && p.uploadType == SinglePart && p.uploadId == sessionId && p.bucket == bucket && p.key == key
           && p.partSize == None && p.totalParts == None && p.partUrls == None
           && p.putUrl == Some(reply(base, call).value)
           && p.completeUrlPayload == Some(CompleteUrlPayload(p.bucket, p.key, p.uploadId, None, None)))
  {
  }

  /**
   * A planned key lies under `prefix + upload_id + "/"`, and its last segment is
   * `0001__` followed by the sanitised filename.
   */
  lemma {:induction false} PlanKeyLayout(reply: Reply, base: nat, bucket: string, ctx: UploadCtx, sessionId: string)
    requires PlanRun(reply, base, bucket, ctx, sessionId).outcome.Success?
    ensures var p := PlanRun(reply, base, bucket, ctx, sessionId).outcome.value;
      var parts := Split(p.key, '/');
      && StartsWith(p.key, ctx.prefix + p.uploadId + "/")
      && parts[|parts| - 1] == "0001__" + SafeName(ctx.fileMeta.filename)
      && Join(parts[..|parts| - 1], '/') == ctx.prefix + p.uploadId
  {
    var p := PlanRun(reply, base, bucket, ctx, sessionId).outcome.value;
    assert p.key == KeyForSingle(ctx.prefix, sessionId, 1, ctx.fileMeta.filename) && p.uploadId == sessionId;
    KeyForSingleSequence(ctx.prefix, sessionId, 1, 1, ctx.fileMeta.filename);
    KeyForSingleLastSegment(ctx.prefix, sessionId, 1, ctx.fileMeta.filename);
    assert ZeroPad(1, 4) == "0001";
  }

  /** `plan(ctx)`, with the uuid it draws passed in as `sessionId`. */
  method Plan(u: S3SingleFileUploader, ctx: UploadCtx, sessionId: string) returns (r: Result<UploadPlan, Exception>)
    modifies u.s3
    ensures var run := PlanRun(u.s3.reply, |old(u.s3.log)|, u.bucket, ctx, sessionId);
      u.s3.log == old(u.s3.log) + run.calls && r == run.outcome
  {
    var key := KeyForSingle(ctx.prefix, sessionId, SEQUENCE_NUMBER, ctx.fileMeta.filename);
    var url := u.s3.Call(PutCall(u.bucket, key, ctx.fileMeta.contentType));
    if url.Failure? {
      return Failure(url.error);
    }
    r := Success(UploadPlan(SinglePart, sessionId, u.bucket, key, None, None, Some(url.value), None,
                            Some(CompleteUrlPayload(u.bucket, key, sessionId, None, None))));
  }

  /** `complete(payload)`: no verification is done, nothing is called, and nothing is raised. */
  method Complete(u: S3SingleFileUploader, payload: CompletionPayload) returns (r: Outcome)
    ensures r == Pass
  {
    r := Pass;
  }
}
