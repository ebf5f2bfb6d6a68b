/**
 * The storage client the strategies drive (boto3's S3 client), reduced to what the upload core
 * observes: the calls it receives, in order, and the value or error each call returns.
 */
module S3 {
  import opened Wrappers
  import opened Types

  /** A value of a boto3 `Params` dictionary. */
  datatype Param = PStr(s: string) | PInt(n: int)

  /** The client operations the core uses, with their arguments. */
  datatype S3Call =
    | GeneratePresignedUrl(clientMethod: string, params: map<string, Param>, expiresIn: int)
    | CreateMultipartUpload(bucket: string, key: string, contentType: string)
    | CompleteMultipartUpload(bucket: string, key: string, uploadId: string, parts: seq<PartAck>)

  /**
   * What the client answers to its `n`-th call (counted from 0): the presigned URL, the
   * `UploadId` of a created multipart upload, or the `ClientError` the call raises. A completed
   * multipart upload's answer is ignored by its caller.
   */
  type Reply = (nat, S3Call) -> Result<string, Exception>

  class S3Client {
    /** Every call received so far, oldest first. */
    var log: seq<S3Call>
    const reply: Reply

    constructor (reply: Reply)
      ensures log == [] && this.reply == reply
    {
      log := [];
      this.reply := reply;
    }

    /** Issue one call: it is recorded, and its answer is the one chosen for its position. */
    method Call(c: S3Call) returns (r: Result<string, Exception>)
      modifies this
      ensures log == old(log) + [c]
      ensures r == reply(|old(log)|, c)
    {
      r := reply(|log|, c);
      log := log + [c];
    }
  }

  /**
   * The calls a run of client operations issued and what it produced: a value or the error that
   * ended it. The strategies' specifications are functions that build one.
   */
  datatype Run<+T> = Run(calls: seq<S3Call>, outcome: Result<T, Exception>)
}
