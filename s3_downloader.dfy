/**
 * The GET presigner (`infrastructure/aws/s3_downloader.py`): build the `get_object` parameters
 * and presign them with one client call.
 */
module Downloader {
  import opened Wrappers
  import opened Types
  import opened S3

  /** The default validity of a presigned GET, in seconds. */
  const DEFAULT_EXPIRES: int := 900

  /** The presigner with its storage client and the configured bucket (`AWS_STORAGE_BUCKET_NAME`). */
  datatype S3Downloader = S3Downloader(s3: S3Client, defaultBucket: string)

  /**
   * The `Params` dictionary: `Bucket` (the given bucket, or the configured one when the given
   * one is empty) and `Key`, then every entry of non-empty response headers, which win over
   * entries of the same name.
   */
  function GetParams(defaultBucket: string, bucket: string, key: string, responseHeaders: Option<map<string, Param>>): map<string, Param> {
    var params := map["Bucket" := PStr(if bucket != "" then bucket else defaultBucket), "Key" := PStr(key)];
    if responseHeaders.Some? && |responseHeaders.value| > 0 then params + responseHeaders.value else params
  }

  /**
   * The parameters hold exactly `Bucket`, `Key` and the header names. A header entry is taken
   * as given; `Bucket` and `Key` not overridden by a header are the bucket (the configured one
   * when the given one is empty) and the key, unchanged.
   */
  lemma {:induction false} GetParamsContents(defaultBucket: string, bucket: string, key: string, responseHeaders: Option<map<string, Param>>)
    ensures var params := GetParams(defaultBucket, bucket, key, responseHeaders);
      var headers := responseHeaders.GetOr(map[]);
      && (forall name :: name in params <==> name == "Bucket" || name == "Key" || name in headers)
      && (forall name :: name in headers ==> params[name] == headers[name])
      && ("Bucket" !in headers ==> params["Bucket"] == PStr(if bucket == "" then defaultBucket else bucket))
      && ("Key" !in headers ==> params["Key"] == PStr(key))
  {
  }

  /** Without response headers the parameters are only `Bucket` and `Key`. */
  lemma {:induction false} GetParamsWithoutHeaders(defaultBucket: string, bucket: string, key: string)
    ensures GetParams(defaultBucket, bucket, key, None) == GetParams(defaultBucket, bucket, key, Some(map[]))
      == map["Bucket" := PStr(if bucket == "" then defaultBucket else bucket), "Key" := PStr(key)]
  {
  }

  /** `generate_presigned_url(ClientMethod="get_object", Params=params, ExpiresIn=expires)`. */
  function GetCall(params: map<string, Param>, expires: int): S3Call {
    GeneratePresignedUrl("get_object", params, expires)
  }

  /**
   * `presign_get(bucket, key, expires, response_headers=...)`: one `get_object` presign whose
   * answer, URL or client error, is what the call returns or raises.
   */
  method PresignGet(d: S3Downloader, bucket: string, key: string, expires: int, responseHeaders: Option<map<string, Param>>)
    returns (r: Result<string, Exception>)
    modifies d.s3
    ensures var call := GetCall(GetParams(d.defaultBucket, bucket, key, responseHeaders), expires);
      d.s3.log == old(d.s3.log) + [call] && r == d.s3.reply(|old(d.s3.log)|, call)
  {
    var params := map["Bucket" := PStr(if bucket != "" then bucket else d.defaultBucket), "Key" := PStr(key)];
    if responseHeaders.Some? && |responseHeaders.value| > 0 {
      params := params + responseHeaders.value;
    }
    r := d.s3.Call(GetCall(params, expires));
  }
}
