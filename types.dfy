/**
 * The upload core's value types (the enums of `domain/models/types.py` and the frozen
 * dataclasses of `domain/models/dto.py`) and the exceptions its operations raise.
 */
module Types {
  import opened Wrappers

  // ---------------------------------------------------------------------------
  // Enumerations (str-valued enums)
  // ---------------------------------------------------------------------------

  datatype Provider = Aws | Azure | Gcp

  function ProviderValue(p: Provider): string {
    match p
    case Aws => "aws"
    case Azure => "azure"
    case Gcp => "gcp"
  }

  datatype UploadStatus = Uploading | Uploaded | Completing | Available | Error

  function StatusValue(s: UploadStatus): string {
    match s
    case Uploading => "uploading"
    case Uploaded => "uploaded"
    case Completing => "completing"
    case Available => "available"
    case Error => "error"
  }

  datatype UploadType = SinglePart | MultiPart | Resumable

  function UploadTypeValue(t: UploadType): string {
    match t
    case SinglePart => "single_part"
    case MultiPart => "multi_part"
    case Resumable => "resumable"
  }

  // ---------------------------------------------------------------------------
  // Request and response values
  // ---------------------------------------------------------------------------

  datatype FileMeta = FileMeta(filename: string, contentType: string, sizeBytes: int)

  datatype UploadCtx = UploadCtx(
    provider: Provider,
    userSub: string,
    projectId: string,
    fileMeta: FileMeta,
    prefix: string)

  datatype DownloadCtx = DownloadCtx(provider: Provider, bucket: string, key: string)

  /** One `{"PartNumber": n, "ETag": "..."}` entry of a multipart completion. */
  datatype PartAck = PartAck(partNumber: int, etag: string)

  /**
   * The `complete_url_payload` dictionary a plan hands back to the client. The single-part
   * uploader's dictionary has no `mpu_upload_id` and no `parts` entries (`None` here).
   */
  datatype CompleteUrlPayload = CompleteUrlPayload(
    bucket: string,
    key: string,
    sessionId: string,
    mpuUploadId: Option<string>,
    parts: Option<seq<PartAck>>)

  datatype UploadPlan = UploadPlan(
    uploadType: UploadType,
    uploadId: string,
    bucket: string,
    key: string,
    partSize: Option<int>,
    totalParts: Option<int>,
    putUrl: Option<string>,
    partUrls: Option<seq<string>>,
    completeUrlPayload: Option<CompleteUrlPayload>)

  datatype CompletionPayload = CompletionPayload(
    provider: Provider,
    bucket: string,
    key: string,
    sessionId: string,
    mpuUploadId: Option<string>,
    parts: Option<seq<PartAck>>,
    checksum: Option<string>)

  /** The completion payload a client builds from a plan's `complete_url_payload`. */
  function PayloadFromPlan(provider: Provider, p: CompleteUrlPayload): CompletionPayload {
    CompletionPayload(provider, p.bucket, p.key, p.sessionId, p.mpuUploadId, p.parts, None)
  }

  // ---------------------------------------------------------------------------
  // Exceptions
  // ---------------------------------------------------------------------------

  /**
   * The exception classes that reach the core's callers: Python built-ins, pydantic's
   * `ValidationError`, and botocore's `ClientError` (which the storage and table clients raise,
   * conditional-check failures included).
   */
  datatype ExceptionKind = ValueError | NotImplementedError | KeyError | ValidationError | ClientError

  datatype Exception = Exception(kind: ExceptionKind, message: string)

  /** `str(e)`: a `KeyError` shows its argument quoted. */
  function ExceptionStr(e: Exception): string {
    if e.kind == KeyError then "'" + e.message + "'" else e.message
  }

  /** `None` on success, or the exception a call raised. */
  datatype Outcome = Pass | Fail(error: Exception)
}
