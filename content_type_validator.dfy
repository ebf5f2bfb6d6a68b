/** The content-type allow-list (`domain/validators/content_type_validator.py`). */
module ContentType {
  import opened Types
  import opened PyText

  /** An empty allow-list (the default) admits every content type. */
  datatype ContentTypeValidator = ContentTypeValidator(allowedContentTypes: seq<string>)

  function DefaultContentTypeValidator(): ContentTypeValidator {
    ContentTypeValidator([])
  }

  /**
   * `ContentTypeValidator.handle(ctx)`: with a non-empty allow-list, the lower-cased content
   * type must be one of its entries, which are compared as written.
   */
  function Handle(v: ContentTypeValidator, ctx: UploadCtx): (r: Outcome)
    ensures r.Pass? <==> (v.allowedContentTypes == [] || exists e :: e in v.allowedContentTypes && e == Lower(ctx.fileMeta.contentType))
    ensures r.Fail? ==> r.error == Exception(ValueError, "Invalid content type: " + ctx.fileMeta.contentType)
  {
    var ct := Lower(ctx.fileMeta.contentType);
    if |v.allowedContentTypes| > 0 && ct !in v.allowedContentTypes then
      Fail(Exception(ValueError, "Invalid content type: " + ctx.fileMeta.contentType))
    else
      Pass
  }

  lemma {:induction false} EmptyAllowListAcceptsAll(ctx: UploadCtx)
    ensures Handle(DefaultContentTypeValidator(), ctx) == Pass
  {
  }

  /** The context's content type is compared case-insensitively (over ASCII letters). */
  lemma {:induction false} HandleIgnoresContextCase(v: ContentTypeValidator, ctx1: UploadCtx, ctx2: UploadCtx)
    requires Lower(ctx1.fileMeta.contentType) == Lower(ctx2.fileMeta.contentType)
    ensures Handle(v, ctx1).Pass? <==> Handle(v, ctx2).Pass?
  {
  }

  /** An entry holding an upper-case letter never matches: the lower-cased type has none. */
  lemma {:induction false} UpperCaseEntryNeverMatches(e: string, ctx: UploadCtx)
    requires HasAsciiUpper(e)
    ensures Lower(ctx.fileMeta.contentType) != e
  {
  }

  /** An empty content type is rejected by a non-empty list unless `""` is on it. */
  lemma {:induction false} EmptyContentType(v: ContentTypeValidator, ctx: UploadCtx)
    requires ctx.fileMeta.contentType == "" && v.allowedContentTypes != []
    ensures Handle(v, ctx).Pass? <==> "" in v.allowedContentTypes
  {
  }

  lemma ContentTypeExamples(ctx1: UploadCtx, ctx2: UploadCtx)
    requires ctx1.fileMeta.contentType == "APPLICATION/PDF"
    requires ctx2.fileMeta.contentType == "image/png"
    ensures Handle(ContentTypeValidator(["application/pdf"]), ctx1) == Pass
    ensures Handle(ContentTypeValidator(["application/pdf"]), ctx2).Fail?
  {
    assert Lower("APPLICATION/PDF") == "application/pdf";
    assert Lower("image/png") == "image/png";
  }
}
