/** The upload size ceiling (`domain/validators/size_limit_validator.py`). */
module SizeLimit {
  import opened Types
  import opened PyText

  /** 5 GiB. */
  const DEFAULT_MAX_SIZE_BYTES: int := 5 * 1024 * 1024 * 1024

  datatype SizeLimitValidator = SizeLimitValidator(maxSizeBytes: int)

  function DefaultSizeLimitValidator(): (v: SizeLimitValidator)
    ensures v.maxSizeBytes == 5368709120
  {
    SizeLimitValidator(DEFAULT_MAX_SIZE_BYTES)
  }

  /** `SizeLimitValidator.handle(ctx)`: rejects a file larger than the ceiling, accepts all else. */
  function Handle(v: SizeLimitValidator, ctx: UploadCtx): (r: Outcome)
    ensures r.Fail? <==> ctx.fileMeta.sizeBytes > v.maxSizeBytes
    ensures r.Fail? ==> r.error == Exception(ValueError, "File size exceeds limit: " + IntToString(v.maxSizeBytes))
  {
    if ctx.fileMeta.sizeBytes > v.maxSizeBytes then
      Fail(Exception(ValueError, "File size exceeds limit: " + IntToString(v.maxSizeBytes)))
    else
      Pass
  }

  /** A file exactly at the ceiling is accepted. */
  lemma {:induction false} HandleAcceptsCeiling(v: SizeLimitValidator, ctx: UploadCtx)
    requires ctx.fileMeta.sizeBytes == v.maxSizeBytes
    ensures Handle(v, ctx) == Pass
  {
  }

  /** Once a size is rejected, every larger size is rejected too. */
  lemma {:induction false} HandleRejectionMonotone(v: SizeLimitValidator, ctx1: UploadCtx, ctx2: UploadCtx)
    requires Handle(v, ctx1).Fail?
    requires ctx2.fileMeta.sizeBytes >= ctx1.fileMeta.sizeBytes
    ensures Handle(v, ctx2) == Handle(v, ctx1)
  {
  }

  /** Only the size is inspected: contexts with equal sizes get equal verdicts. */
  lemma {:induction false} HandleReadsOnlySize(v: SizeLimitValidator, ctx1: UploadCtx, ctx2: UploadCtx)
    requires ctx1.fileMeta.sizeBytes == ctx2.fileMeta.sizeBytes
    ensures Handle(v, ctx1) == Handle(v, ctx2)
  {
  }
}
