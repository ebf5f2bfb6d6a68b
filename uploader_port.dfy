/**
 * The uploader protocol (`domain/ports/uploader.py`: `plan` and `complete`), closed over the
 * two storage strategies there are.
 */
module UploaderPort {
  import opened Wrappers
  import opened Types
  import opened S3
  import SingleUploader
  import MultiUploader

  datatype FileUploader =
    | Single(single: SingleUploader.S3SingleFileUploader)
    | Multi(multi: MultiUploader.S3MultiPartFileUploader)

  /** The storage client the strategy drives. */
  function Client(u: FileUploader): S3Client {
    match u
    case Single(s) => s.s3
    case Multi(m) => m.s3
  }

  /** What `u.plan(ctx)` does, starting at client call `base`, with `sessionId` as its uuid. */
  function PlanRun(u: FileUploader, base: nat, ctx: UploadCtx, sessionId: string): Run<UploadPlan>
    reads Client(u)
  {
    match u
    case Single(s) => SingleUploader.PlanRun(s.s3.reply, base, s.bucket, ctx, sessionId)
    case Multi(m) => MultiUploader.PlanRun(m.s3.reply, base, m.bucket, ctx, sessionId)
  }

  /**
   * What `u.complete(payload)` does, starting at client call `base`: the calls issued and
   * whether it returned or raised.
   */
  function CompleteRun(u: FileUploader, base: nat, payload: CompletionPayload): (r: (seq<S3Call>, Outcome))
    reads Client(u)
    ensures u.Single? ==> r == ([], Pass)
    ensures u.Multi? && MultiUploader.Incomplete(payload) ==> r == ([], Fail(MultiUploader.INCOMPLETE_ERROR))
    ensures u.Multi? && !MultiUploader.Incomplete(payload) ==>
      && r.0 == [MultiUploader.CompleteCall(payload)]
      && (r.1.Pass? <==> Client(u).reply(base, MultiUploader.CompleteCall(payload)).Success?)
  {
    match u
    case Single(_) => ([], Pass)
    case Multi(m) =>
      if MultiUploader.Incomplete(payload) then ([], Fail(MultiUploader.INCOMPLETE_ERROR))
      else
        var call := MultiUploader.CompleteCall(payload);
        var answer := m.s3.reply(base, call);
        ([call], if answer.Failure? then Fail(answer.error) else Pass)
  }

  /** `u.plan(ctx)`. */
  method Plan(u: FileUploader, ctx: UploadCtx, sessionId: string) returns (r: Result<UploadPlan, Exception>)
    modifies Client(u)
    ensures var run := PlanRun(u, |old(Client(u).log)|, ctx, sessionId);
      Client(u).log == old(Client(u).log) + run.calls && r == run.outcome
  {
    match u
    case Single(s) => r := SingleUploader.Plan(s, ctx, sessionId);
    case Multi(m) => r := MultiUploader.Plan(m, ctx, sessionId);
  }

  /** `u.complete(payload)`. */
  method Complete(u: FileUploader, payload: CompletionPayload) returns (r: Outcome)
    modifies Client(u)
    ensures var run := CompleteRun(u, |old(Client(u).log)|, payload);
      Client(u).log == old(Client(u).log) + run.0 && r == run.1
  {
    match u
    case Single(s) => r := SingleUploader.Complete(s, payload);
    case Multi(m) => r := MultiUploader.Complete(m, payload);
  }
}
