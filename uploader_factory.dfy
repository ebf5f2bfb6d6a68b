/** Strategy selection (`application/factories/uploader_factory.py`). */
module UploaderFactories {
  import opened Wrappers
  import opened Types
  import opened Partitioning
  import opened UploaderPort
  import SingleUploader
  import MultiUploader

  /**
   * The factory with the strategy each constructor builds and the size above which uploads
   * go multipart.
   */
  datatype UploaderFactory = UploaderFactory(
    s3Single: SingleUploader.S3SingleFileUploader,
    s3Multi: MultiUploader.S3MultiPartFileUploader,
    thresholdBytes: int)

  /** `UploaderFactory(s3_single, s3_multi)`: the threshold defaults to `THRESHOLD`. */
  function DefaultUploaderFactory(s3Single: SingleUploader.S3SingleFileUploader, s3Multi: MultiUploader.S3MultiPartFileUploader): (f: UploaderFactory)
    ensures f.thresholdBytes == 104857600
    ensures f.s3Single == s3Single && f.s3Multi == s3Multi
  {
    UploaderFactory(s3Single, s3Multi, THRESHOLD)
  }

  function NotImplemented(provider: Provider): Exception {
    Exception(NotImplementedError, "Uploader not implemented for provider=" + ProviderValue(provider))
  }

  /**
   * `for_ctx(ctx)`: for `aws`, the multipart strategy when the file is strictly larger than
   * the threshold and the single-part one otherwise; any other provider is not implemented,
   * whatever the size.
   */
  function ForCtx(f: UploaderFactory, ctx: UploadCtx): (r: Result<FileUploader, Exception>)
    ensures r.Success? <==> ctx.provider == Aws
    ensures r.Success? ==> (r.value.Multi? <==> ctx.fileMeta.sizeBytes > f.thresholdBytes)
    ensures r.Success? && r.value.Multi? ==> r.value.multi == f.s3Multi
    ensures r.Success? && r.value.Single? ==> r.value.single == f.s3Single
    ensures r.Failure? ==> r.error == NotImplemented(ctx.provider)
  {
    if ctx.provider == Aws then
      if ctx.fileMeta.sizeBytes > f.thresholdBytes then Success(Multi(f.s3Multi)) else Success(Single(f.s3Single))
    else
      Failure(NotImplemented(ctx.provider))
  }

  /** A file of exactly the threshold goes single-part. */
  lemma {:induction false} ForCtxAtThreshold(f: UploaderFactory, ctx: UploadCtx)
    requires ctx.provider == Aws && ctx.fileMeta.sizeBytes == f.thresholdBytes
    ensures ForCtx(f, ctx) == Success(Single(f.s3Single))
  {
  }

  /** Growing a file never moves it from multipart back to single-part. */
  lemma {:induction false} ForCtxMonotone(f: UploaderFactory, ctx1: UploadCtx, ctx2: UploadCtx)
    requires ForCtx(f, ctx1).Success? && ForCtx(f, ctx1).value.Multi?
    requires ctx2.provider == ctx1.provider && ctx2.fileMeta.sizeBytes >= ctx1.fileMeta.sizeBytes
    ensures ForCtx(f, ctx2) == ForCtx(f, ctx1)
  {
  }

  /** The choice looks only at the provider and the size. */
  lemma {:induction false} ForCtxReadsProviderAndSize(f: UploaderFactory, ctx1: UploadCtx, ctx2: UploadCtx)
    requires ctx1.provider == ctx2.provider && ctx1.fileMeta.sizeBytes == ctx2.fileMeta.sizeBytes
    ensures ForCtx(f, ctx1) == ForCtx(f, ctx2)
  {
  }

  /**
   * With the default threshold a file goes multipart exactly when it needs more than five
   * 20 MiB parts.
   */
  lemma {:induction false} DefaultMultiExactlyBeyondFiveParts(s3Single: SingleUploader.S3SingleFileUploader, s3Multi: MultiUploader.S3MultiPartFileUploader, ctx: UploadCtx)
    requires ctx.provider == Aws
    ensures var r := ForCtx(DefaultUploaderFactory(s3Single, s3Multi), ctx);
      r.Success? && (r.value.Multi? <==> PlanPartSize(ctx.fileMeta.sizeBytes).1 > 5)
  {
    var size := ctx.fileMeta.sizeBytes;
    var n := PlanPartSize(size).1;
    if size > THRESHOLD {
      assert (n - 1) * TARGET_PART < size <= n * TARGET_PART;
      assert 5 * TARGET_PART == THRESHOLD;
      assert n > 5;
    } else {
      PlanPartSizeIsLeast(size, 5);
    }
  }
}
