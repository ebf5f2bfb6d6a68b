/** The download-key check (`domain/validators/empty_key_validator.py`). */
module EmptyKey {
  import opened Types

  /** The validator has no configuration. */
  datatype EmptyKeyValidator = EmptyKeyValidator

  /** `EmptyKeyValidator.handle(ctx)`: rejects exactly the empty key. */
  function Handle(v: EmptyKeyValidator, ctx: DownloadCtx): (r: Outcome)
    ensures r.Fail? <==> ctx.key == ""
    ensures r.Fail? ==> r.error == Exception(ValueError, "Key is required")
  {
    if |ctx.key| == 0 then Fail(Exception(ValueError, "Key is required")) else Pass
  }

  /** Any non-empty key passes, `" "` and `"/"` included; bucket and provider are not looked at. */
  lemma {:induction false} HandleReadsOnlyKey(v: EmptyKeyValidator, ctx1: DownloadCtx, ctx2: DownloadCtx)
    requires ctx1.key == ctx2.key
    ensures Handle(v, ctx1) == Handle(v, ctx2)
  {
  }

  lemma EmptyKeyExamples(v: EmptyKeyValidator)
    ensures Handle(v, DownloadCtx(Aws, "", " ")) == Pass
    ensures Handle(v, DownloadCtx(Gcp, "b", "/")) == Pass
    ensures Handle(v, DownloadCtx(Aws, "b", "")).Fail?
  {
  }
}
