/**
 * The upload orchestration (`application/services/file_service.py`): validate, pick a storage
 * strategy, plan it and record the session; complete or abort a recorded session; presign a
 * download.
 */
module Services {
  import opened Wrappers
  import opened Types
  import opened S3
  import opened SessionRepository
  import opened UploaderPort
  import opened UploaderFactories
  import opened DownloaderFactories
  import opened Downloader
  import opened SizeLimit
  import opened ContentType
  import opened EmptyKey
  import opened PyText
  import opened DynamoItem
  import SingleUploader
  import MultiUploader

  // ---------------------------------------------------------------------------
  // Validator chains
  // ---------------------------------------------------------------------------

  /** The validators an upload context goes through. */
  datatype UploadValidator =
    | SizeLimitCheck(sizeLimit: SizeLimitValidator)
    | ContentTypeCheck(contentType: ContentTypeValidator)

  function HandleUpload(v: UploadValidator, ctx: UploadCtx): Outcome {
    match v
    case SizeLimitCheck(s) => SizeLimit.Handle(s, ctx)
    case ContentTypeCheck(c) => ContentType.Handle(c, ctx)
  }

  /** What each upload validator answers, in order. */
  function UploadChecks(vs: seq<UploadValidator>, ctx: UploadCtx): (os: seq<Outcome>)
    ensures |os| == |vs| && forall i :: 0 <= i < |vs| ==> os[i] == HandleUpload(vs[i], ctx)
  {
    seq(|vs|, i requires 0 <= i < |vs| => HandleUpload(vs[i], ctx))
  }

  /** What each download validator answers, in order. */
  function DownloadChecks(vs: seq<EmptyKeyValidator>, ctx: DownloadCtx): (os: seq<Outcome>)
    ensures |os| == |vs| && forall i :: 0 <= i < |vs| ==> os[i] == EmptyKey.Handle(vs[i], ctx)
  {
    seq(|vs|, i requires 0 <= i < |vs| => EmptyKey.Handle(vs[i], ctx))
  }

  /**
   * `for v in validators: v.handle(ctx)`: the first exception raised, in order, or none. Every
   * check passes exactly when the chain does.
   */
  function FirstFailure(os: seq<Outcome>): (r: Outcome)
    ensures r.Pass? <==> forall i :: 0 <= i < |os| ==> os[i].Pass?
    ensures r.Fail? ==> r in os
    decreases |os|
  {
    if os == [] then Pass
    else if os[0].Fail? then os[0]
    else FirstFailure(os[1..])
  }

  /** The chain raises what the first failing check raises, whatever the checks after it say. */
  lemma {:induction false} FirstFailureAt(os: seq<Outcome>, i: nat)
    requires i < |os| && os[i].Fail? && forall j :: 0 <= j < i ==> os[j].Pass?
    ensures FirstFailure(os) == os[i]
    decreases i
  {
    if i > 0 {
      FirstFailureAt(os[1..], i - 1);
    }
  }

  /** The default upload validators: the 5 GiB size limit, then an empty content-type allow-list. */
  function DefaultUploadValidators(): seq<UploadValidator> {
    [SizeLimitCheck(DefaultSizeLimitValidator()), ContentTypeCheck(ContentTypeValidator([]))]
  }

  /** The default download validators: the empty-key check alone. */
  function DefaultDownloadValidators(): seq<EmptyKeyValidator> {
    [EmptyKeyValidator]
  }

  /**
   * With the default validators an upload is refused exactly when the file is larger than
   * 5 GiB, with the size-limit message; the content type is never refused.
   */
  lemma {:induction false} DefaultUploadChecks(ctx: UploadCtx)
    ensures var r := FirstFailure(UploadChecks(DefaultUploadValidators(), ctx));
      && (r.Fail? <==> ctx.fileMeta.sizeBytes > 5368709120)
      && (r.Fail? ==> r.error == Exception(ValueError, "File size exceeds limit: " + IntToString(5368709120)))
  {
    var os := UploadChecks(DefaultUploadValidators(), ctx);
    assert os == [SizeLimit.Handle(DefaultSizeLimitValidator(), ctx), ContentType.Handle(ContentTypeValidator([]), ctx)];
    assert os[1] == Pass;
    if os[0].Fail? {
      FirstFailureAt(os, 0);
    }
  }

  /** With the default validators a download is refused exactly when its key is empty. */
  lemma {:induction false} DefaultDownloadChecks(ctx: DownloadCtx)
    ensures var r := FirstFailure(DownloadChecks(DefaultDownloadValidators(), ctx));
      && (r.Fail? <==> ctx.key == "")
      && (r.Fail? ==> r.error == Exception(ValueError, "Key is required"))
  {
    var os := DownloadChecks(DefaultDownloadValidators(), ctx);
    assert os == [EmptyKey.Handle(EmptyKeyValidator, ctx)];
    if os[0].Fail? {
      FirstFailureAt(os, 0);
    }
  }

  // ---------------------------------------------------------------------------
  // What the service does to the session table
  // ---------------------------------------------------------------------------

  /**
   * The repository side of one service call: the table it leaves, how many times it read the
   * clock, what it ends with, and the repository calls it made, oldest first.
   */
  datatype Effect = Effect(table: Table, clockReads: nat, outcome: Outcome, ops: seq<RepoOp>)

  /**
   * The multipart id `plan_upload` saves: the one in a multipart plan's completion payload, when
   * it is there and non-empty.
   */
  function MultipartIdToSave(plan: UploadPlan): (m: Option<string>)
    ensures m.Some? <==>
      (&& plan.uploadType == MultiPart && plan.completeUrlPayload.Some?
       && plan.completeUrlPayload.value.mpuUploadId.Some? && plan.completeUrlPayload.value.mpuUploadId.value != "")
    ensures m.Some? ==> m == plan.completeUrlPayload.value.mpuUploadId
  {
    if plan.uploadType == MultiPart && plan.completeUrlPayload.Some? then
      var mpu := plan.completeUrlPayload.value.mpuUploadId;
      if mpu.Some? && mpu.value != "" then mpu else None
    else None
  }

  /**
   * What `plan_upload` does to the table once the strategy has planned, given the two clock
   * readings `create_session` takes: create the session, save the multipart id if there is
   * one, set the status to `uploading`; the first of these to raise ends it.
   */
  function RecordPlan(t: Table, ttlNow: nat, startedAt: nat, ctx: UploadCtx, plan: UploadPlan): (e: Effect)
    requires ValidTable(t)
    ensures ValidTable(e.table) && e.clockReads == 2
  {
    var created := CreateSessionTable(t, ctx, plan, ttlNow, startedAt);
    var rest := if created.1.Fail? then Effect(created.0, 0, created.1, []) else RecordCreated(created.0, plan);
    Effect(rest.table, 2, rest.outcome, [CreateSessionOp(ctx, plan)] + rest.ops)
  }

  /** The part of `plan_upload` after `create_session` has returned: the optional save, then the status. */
  function RecordCreated(t: Table, plan: UploadPlan): (e: Effect)
    requires ValidTable(t)
    ensures ValidTable(e.table) && e.clockReads == 0
  {
    var mpu := MultipartIdToSave(plan);
    var saved := if mpu.Some? then SaveMultipartIdTable(t, plan.uploadId, mpu.value) else (t, Pass);
    var saveOps := if mpu.Some? then [SaveMultipartIdOp(plan.uploadId, mpu.value)] else [];
    if saved.1.Fail? then Effect(saved.0, 0, saved.1, saveOps)
    else
      var setStatus := SetStatusTable(saved.0, plan.uploadId, StatusValue(Uploading));
      Effect(setStatus.0, 0, setStatus.1, saveOps + [SetStatusOp(plan.uploadId, StatusValue(Uploading))])
  }

  /**
   * What `complete_upload` does to the table once the strategy's `complete` has answered
   * `done`, given the clock reading `mark_available` would take: on an exception, `mark_error`
   * with `UPLOAD_ERROR` and the exception's text, and the exception is raised again (or
   * `mark_error`'s own, if it raises); otherwise `mark_available` (which reads the clock once
   * the session is found) and then `set_status("available")`.
   */
  function RecordCompletion(t: Table, now: nat, plan: UploadPlan, done: Outcome): (e: Effect)
    requires ValidTable(t)
    ensures ValidTable(e.table)
  {
    var id := plan.uploadId;
    if done.Fail? then
      var marked := MarkErrorTable(t, id, "UPLOAD_ERROR", ExceptionStr(done.error));
      Effect(marked.0, 0, if marked.1.Fail? then marked.1 else done, [MarkErrorOp(id, "UPLOAD_ERROR", ExceptionStr(done.error))])
    else
      var available := MarkAvailableOp(id, plan.bucket, plan.key);
      var marked := MarkAvailableTable(t, id, now);
      if marked.1.Fail? then Effect(marked.0, 0, marked.1, [available])
      else
        var setStatus := SetStatusTable(marked.0, id, StatusValue(Available));
        Effect(setStatus.0, 1, setStatus.1, [available, SetStatusOp(id, StatusValue(Available))])
  }

  /** The repository calls `plan_upload` makes when none of them raises. */
  function PlanOps(ctx: UploadCtx, plan: UploadPlan): seq<RepoOp> {
    var mpu := MultipartIdToSave(plan);
    [CreateSessionOp(ctx, plan)]
      + (if mpu.Some? then [SaveMultipartIdOp(plan.uploadId, mpu.value)] else [])
      + [SetStatusOp(plan.uploadId, StatusValue(Uploading))]
  }

  // ---------------------------------------------------------------------------
  // Properties of the recorded effects
  // ---------------------------------------------------------------------------

  /**
   * `plan_upload` makes its repository calls in order and stops at the first that raises: the
   * calls made are a prefix of the full list, all of it when the plan is returned, and a call is
   * left out only after one has raised.
   */
  lemma {:induction false} RecordPlanStopsAtFirstFailure(t: Table, ttlNow: nat, startedAt: nat, ctx: UploadCtx, plan: UploadPlan)
    requires ValidTable(t)
    ensures var e := RecordPlan(t, ttlNow, startedAt, ctx, plan);
      && CreateSessionOp(ctx, plan) == e.ops[0]
      && e.ops <= PlanOps(ctx, plan)
      && (e.outcome.Pass? ==> e.ops == PlanOps(ctx, plan))
      && (|e.ops| < |PlanOps(ctx, plan)| ==> e.outcome.Fail?)
  {
    var created := CreateSessionTable(t, ctx, plan, ttlNow, startedAt);
    if created.1.Pass? {
      var rest := RecordCreated(created.0, plan);
      var mpu := MultipartIdToSave(plan);
      var saveOps := if mpu.Some? then [SaveMultipartIdOp(plan.uploadId, mpu.value)] else [];
      var setOp := SetStatusOp(plan.uploadId, StatusValue(Uploading));
      AppendAssoc([CreateSessionOp(ctx, plan)], saveOps, [setOp]);
      assert rest.ops == saveOps || rest.ops == saveOps + [setOp];
    }
  }

  /**
   * For a fresh upload id, once `create_session` has put the header, the rest of `plan_upload`
   * succeeds; afterwards `get_ctx` and `get_plan` answer what they did right after the put,
   * and `get_multipart_id` answers the multipart id the plan carried, if any.
   */
  lemma {:induction false} PlanRecordedReadsBack(t: Table, ttlNow: nat, startedAt: nat, ctx: UploadCtx, plan: UploadPlan)
    requires ValidTable(t) && Matches(t, plan.uploadId) == {}
    requires Trimmed(UnicodeWhiteSpace, ctx.userSub) && Trimmed(UnicodeWhiteSpace, plan.uploadId)
    requires CreateSessionTable(t, ctx, plan, ttlNow, startedAt).1.Pass?
    ensures var e := RecordPlan(t, ttlNow, startedAt, ctx, plan);
      var created := CreateSessionTable(t, ctx, plan, ttlNow, startedAt).0;
      var id := plan.uploadId;
      && e.outcome == Pass
      && GetCtxOf(e.table, id) == GetCtxOf(created, id)
      && GetPlanOf(e.table, id) == GetPlanOf(created, id)
      && GetMultipartIdOf(e.table, id) == Success(MultipartIdToSave(plan))
  {
    var id := plan.uploadId;
    var t1 := CreateSessionTable(t, ctx, plan, ttlNow, startedAt).0;
    CreatedSessionFound(t, ctx, plan, ttlNow, startedAt);
    CreatedSessionPlan(t, ctx, plan, ttlNow, startedAt);
    var mpu := MultipartIdToSave(plan);
    var t2 := if mpu.Some? then SaveMultipartIdTable(t1, id, mpu.value).0 else t1;
    if mpu.Some? {
      SaveMultipartIdTouchesOnlyTheSession(t1, id, mpu.value);
      RewriteKeepsLookup(t1, t2, GetByGsi1(t1, id).value, id);
      SaveThenGetMultipartId(t1, id, mpu.value);
      UpdatesKeepReads(t1, id, id, "", 0, "", "", mpu.value);
    }
    var uploading := StatusValue(Uploading);
    SetStatusTouchesOnlyTheSession(t2, id, uploading);
    UpdatesKeepReads(t2, id, id, uploading, 0, "", "", "");
    StatusWritesKeepMultipartId(t2, id, id, uploading, 0, "", "");
  }

  /**
   * `complete_upload` looks the strategy up again from the stored session, and finds the one
   * `plan_upload` used: the rebuilt context has the provider and the size the strategy was
   * chosen by.
   */
  lemma {:induction false} CompletionChoosesPlannedStrategy(f: UploaderFactory, t: Table, ttlNow: nat, startedAt: nat,
                                                            ctx: UploadCtx, plan: UploadPlan)
    requires ValidTable(t) && Matches(t, plan.uploadId) == {}
    requires Trimmed(UnicodeWhiteSpace, ctx.userSub) && Trimmed(UnicodeWhiteSpace, plan.uploadId)
    requires CreateSessionTable(t, ctx, plan, ttlNow, startedAt).1.Pass?
    requires ctx.provider == Aws
    ensures var e := RecordPlan(t, ttlNow, startedAt, ctx, plan);
      && GetCtxOf(e.table, plan.uploadId).Success?
      && ForCtx(f, GetCtxOf(e.table, plan.uploadId).value) == ForCtx(f, ctx)
  {
    var e := RecordPlan(t, ttlNow, startedAt, ctx, plan);
    PlanRecordedReadsBack(t, ttlNow, startedAt, ctx, plan);
    CreatedSessionCtx(t, ctx, plan, ttlNow, startedAt);
    ForCtxReadsProviderAndSize(f, GetCtxOf(e.table, plan.uploadId).value, ctx);
  }

  /**
   * A successful completion stamps `completed_at` with the clock reading and files the session
   * under `available`, reading the clock once and touching no other item.
   */
  lemma {:induction false} CompletionMarksAvailable(t: Table, now: nat, plan: UploadPlan)
    requires ValidTable(t) && Matches(t, plan.uploadId) != {}
    ensures var e := RecordCompletion(t, now, plan, Pass);
      var k := GetByGsi1(t, plan.uploadId).value;
      && e.outcome == Pass && e.clockReads == 1
      && e.ops == [MarkAvailableOp(plan.uploadId, plan.bucket, plan.key), SetStatusOp(plan.uploadId, "available")]
      && e.table.Keys == t.Keys && Unaffected(t, e.table, k)
      && e.table[k].completed_at == Some(N(now))
      && e.table[k].status == Some(S("available")) && e.table[k].GSI2PK == Some(S("STATUS#available"))
  {
    var id := plan.uploadId;
    var k := GetByGsi1(t, id).value;
    var marked := MarkAvailableTable(t, id, now);
    MarkAvailableTouchesOnlyTheSession(t, id, now);
    MarkAvailableOnlyStamps(t, id, now);
    RewriteKeepsLookup(t, marked.0, k, id);
    var available := SetStatusTable(marked.0, id, StatusValue(Available));
    SetStatusTouchesOnlyTheSession(marked.0, id, StatusValue(Available));
    assert RecordCompletion(t, now, plan, Pass)
      == Effect(available.0, 1, available.1, [MarkAvailableOp(id, plan.bucket, plan.key), SetStatusOp(id, StatusValue(Available))]);
    assert available.0[k] == WithStatus(marked.0[k], SkStamp(k), id, StatusValue(Available));
    UnaffectedTrans(t, marked.0, available.0, k);
    assert "STATUS#" + StatusValue(Available) == "STATUS#available";
  }

  /**
   * A completion that raised is recorded on the session as `UPLOAD_ERROR` with the exception's
   * text, and the same exception is raised again; the status index keeps its old status.
   */
  lemma {:induction false} CompletionFailureMarksError(t: Table, now: nat, plan: UploadPlan, error: Exception)
    requires ValidTable(t) && Matches(t, plan.uploadId) != {}
    ensures var e := RecordCompletion(t, now, plan, Fail(error));
      var k := GetByGsi1(t, plan.uploadId).value;
      && e.outcome == Fail(error) && e.clockReads == 0
      && e.ops == [MarkErrorOp(plan.uploadId, "UPLOAD_ERROR", ExceptionStr(error))]
      && e.table.Keys == t.Keys && Unaffected(t, e.table, k)
      && e.table[k].status == Some(S("error"))
      && e.table[k].error_code == Some(S("UPLOAD_ERROR")) && e.table[k].error_message == Some(S(ExceptionStr(error)))
      && e.table[k].GSI2PK == t[k].GSI2PK && e.table[k].GSI3PK == t[k].GSI3PK
  {
    MarkErrorTouchesOnlyTheSession(t, plan.uploadId, "UPLOAD_ERROR", ExceptionStr(error));
    MarkErrorKeepsStatusKeys(t, plan.uploadId, "UPLOAD_ERROR", ExceptionStr(error));
  }

  /**
   * Without a session header the recording raises `KeyError` and changes nothing; after a
   * failed completion that `KeyError` replaces the strategy's exception.
   */
  lemma {:induction false} CompletionOfMissingSession(t: Table, now: nat, plan: UploadPlan, done: Outcome)
    requires ValidTable(t) && Matches(t, plan.uploadId) == {}
    ensures var e := RecordCompletion(t, now, plan, done);
      && e.table == t && e.clockReads == 0 && e.outcome == Fail(NotFound(plan.uploadId))
  {
    if done.Fail? {
      MarkErrorTouchesOnlyTheSession(t, plan.uploadId, "UPLOAD_ERROR", ExceptionStr(done.error));
    } else {
      MarkAvailableTouchesOnlyTheSession(t, plan.uploadId, now);
    }
  }

  /**
   * `abort_upload` leaves the found session marked `UPLOAD_ABORTED` with status `error` (its
   * status index untouched) and returns; for an unknown id the `KeyError` of `mark_error` in
   * the `finally` is what it raises.
   */
  lemma {:induction false} AbortMarksAborted(t: Table, id: string)
    requires ValidTable(t)
    ensures var marked := MarkErrorTable(t, id, "UPLOAD_ABORTED", "Upload aborted");
      var r := Finally(Pass, marked.1);
      && (r.Pass? <==> Matches(t, id) != {})
      && (r.Fail? ==> r == Fail(NotFound(id)) && marked.0 == t)
      && (r.Pass? ==>
            var k := GetByGsi1(t, id).value;
            && marked.0.Keys == t.Keys && Unaffected(t, marked.0, k)
            && marked.0[k].status == Some(S("error"))
            && marked.0[k].error_code == Some(S("UPLOAD_ABORTED")) && marked.0[k].error_message == Some(S("Upload aborted"))
            && marked.0[k].GSI2PK == t[k].GSI2PK)
  {
    MarkErrorTouchesOnlyTheSession(t, id, "UPLOAD_ABORTED", "Upload aborted");
    if Matches(t, id) != {} {
      MarkErrorKeepsStatusKeys(t, id, "UPLOAD_ABORTED", "Upload aborted");
    }
  }

  lemma AppendAssoc<T>(a: seq<T>, b: seq<T>, c: seq<T>)
    ensures a + b + c == a + (b + c)
  {
  }

  /** `try: body finally: cleanup`: an exception the cleanup raises replaces the body's. */
  function Finally(body: Outcome, cleanup: Outcome): (r: Outcome)
    ensures cleanup.Fail? ==> r == cleanup
    ensures cleanup.Pass? ==> r == body
  {
    if cleanup.Fail? then cleanup else body
  }

  // ---------------------------------------------------------------------------
  // FileService
  // ---------------------------------------------------------------------------

  class FileService {
    const uploaderFactory: UploaderFactory
    const downloaderFactory: DownloaderFactory
    const sessions: DynamoSessionRepository
    const uploadValidators: seq<UploadValidator>
    const downloadValidators: seq<EmptyKeyValidator>

    ghost predicate Valid()
      reads sessions
    {
      sessions.Valid()
    }

    /** The storage client the other upload strategy drives. */
    function OtherClient(u: FileUploader): S3Client {
      if u.Multi? then uploaderFactory.s3Single.s3 else uploaderFactory.s3Multi.s3
    }

    /** `FileService(uploader_factory, downloader_factory, sessions, upload_validators, download_validators)`. */
    constructor (uploaderFactory: UploaderFactory, downloaderFactory: DownloaderFactory, sessions: DynamoSessionRepository,
                 uploadValidators: seq<UploadValidator>, downloadValidators: seq<EmptyKeyValidator>)
      ensures this.uploaderFactory == uploaderFactory && this.downloaderFactory == downloaderFactory
      ensures this.sessions == sessions
      ensures this.uploadValidators == uploadValidators && this.downloadValidators == downloadValidators
    {
      this.uploaderFactory := uploaderFactory;
      this.downloaderFactory := downloaderFactory;
      this.sessions := sessions;
      this.uploadValidators := uploadValidators;
      this.downloadValidators := downloadValidators;
    }

    /** `FileService(uploader_factory, downloader_factory, sessions)`, with the default validators. */
    constructor WithDefaults(uploaderFactory: UploaderFactory, downloaderFactory: DownloaderFactory, sessions: DynamoSessionRepository)
      ensures this.uploaderFactory == uploaderFactory && this.downloaderFactory == downloaderFactory
      ensures this.sessions == sessions
      ensures uploadValidators == DefaultUploadValidators() && downloadValidators == DefaultDownloadValidators()
    {
      this.uploaderFactory := uploaderFactory;
      this.downloaderFactory := downloaderFactory;
      this.sessions := sessions;
      this.uploadValidators := DefaultUploadValidators();
      this.downloadValidators := DefaultDownloadValidators();
    }

    /**
     * `plan_upload(ctx)`, with the uuid the strategy draws passed in as `sessionId`. A refusing
     * validator or an unknown provider ends it before anything is called; a strategy that raises
     * ends it before the table is touched; otherwise the plan is recorded as `RecordPlan` says,
     * with the next two clock readings, and returned unless that raised.
     */
    method PlanUpload(ctx: UploadCtx, sessionId: string) returns (r: Result<UploadPlan, Exception>)
      requires Valid()
      modifies sessions, sessions.clock, uploaderFactory.s3Single.s3, uploaderFactory.s3Multi.s3
      ensures Valid()
      ensures var checked := FirstFailure(UploadChecks(uploadValidators, ctx));
        checked.Fail? ==>
          && r == Failure(checked.error)
          && unchanged(sessions, sessions.clock, uploaderFactory.s3Single.s3, uploaderFactory.s3Multi.s3)
      ensures var chosen := ForCtx(uploaderFactory, ctx);
        FirstFailure(UploadChecks(uploadValidators, ctx)).Pass? && chosen.Failure? ==>
          && r == Failure(chosen.error)
          && unchanged(sessions, sessions.clock, uploaderFactory.s3Single.s3, uploaderFactory.s3Multi.s3)
      ensures var chosen := ForCtx(uploaderFactory, ctx);
        FirstFailure(UploadChecks(uploadValidators, ctx)).Pass? && chosen.Success? ==>
          var u := chosen.value;
          var run := UploaderPort.PlanRun(u, |old(Client(u).log)|, ctx, sessionId);
          && Client(u).log == old(Client(u).log) + run.calls
          && (OtherClient(u) != Client(u) ==> unchanged(OtherClient(u)))
          && (run.outcome.Failure? ==> r == Failure(run.outcome.error) && unchanged(sessions, sessions.clock))
          && (run.outcome.Success? ==>
                var ticks := old(sessions.clock.ticks);
                var e := RecordPlan(old(sessions.table), sessions.clock.Reading(ticks), sessions.clock.Reading(ticks + 1), ctx, run.outcome.value);
                && sessions.table == e.table && sessions.clock.ticks == ticks + e.clockReads
                && sessions.ops == old(sessions.ops) + e.ops
                && r == (if e.outcome.Fail? then Failure(e.outcome.error) else Success(run.outcome.value)))
    {
      for i := 0 to |uploadValidators|
        invariant forall j :: 0 <= j < i ==> UploadChecks(uploadValidators, ctx)[j].Pass?
      {
        var o := HandleUpload(uploadValidators[i], ctx);
        if o.Fail? {
          FirstFailureAt(UploadChecks(uploadValidators, ctx), i);
          return Failure(o.error);
        }
      }
      var chosen := ForCtx(uploaderFactory, ctx);
      if chosen.Failure? {
        return Failure(chosen.error);
      }
      var u := chosen.value;
      var planned := UploaderPort.Plan(u, ctx, sessionId);
      if planned.Failure? {
        return Failure(planned.error);
      }
      r := RecordPlanOn(ctx, planned.value);
    }

    /** The repository calls of `plan_upload`, for the plan the strategy returned. */
    method RecordPlanOn(ctx: UploadCtx, plan: UploadPlan) returns (r: Result<UploadPlan, Exception>)
      requires Valid()
      modifies sessions, sessions.clock
      ensures Valid()
      ensures var ticks := old(sessions.clock.ticks);
        var e := RecordPlan(old(sessions.table), sessions.clock.Reading(ticks), sessions.clock.Reading(ticks + 1), ctx, plan);
        && sessions.table == e.table && sessions.clock.ticks == ticks + e.clockReads
        && sessions.ops == old(sessions.ops) + e.ops
        && r == (if e.outcome.Fail? then Failure(e.outcome.error) else Success(plan))
    {
      var created := sessions.CreateSession(ctx, plan);
      if created.Fail? {
        r := Failure(created.error);
      } else {
        ghost var opsBefore, tableBefore := sessions.ops, sessions.table;
        r := RecordCreatedOn(plan);
        ghost var rest := RecordCreated(tableBefore, plan);
        AppendAssoc(old(sessions.ops), [CreateSessionOp(ctx, plan)], rest.ops);
      }
    }

    /** The repository calls of `plan_upload` after `create_session`. */
    method RecordCreatedOn(plan: UploadPlan) returns (r: Result<UploadPlan, Exception>)
      requires Valid()
      modifies sessions
      ensures Valid()
      ensures var e := RecordCreated(old(sessions.table), plan);
        && sessions.table == e.table
        && sessions.ops == old(sessions.ops) + e.ops
        && r == (if e.outcome.Fail? then Failure(e.outcome.error) else Success(plan))
    {
      var mpu := MultipartIdToSave(plan);
      if mpu.Some? {
        var saved := sessions.SaveMultipartId(plan.uploadId, mpu.value);
        if saved.Fail? {
          return Failure(saved.error);
        }
      }
      var setStatus := sessions.SetStatus(plan.uploadId, StatusValue(Uploading));
      r := if setStatus.Fail? then Failure(setStatus.error) else Success(plan);
    }

    /**
     * `complete_upload(payload)`. The lookups and the choice of strategy come before the `try`,
     * so an unknown session raises `KeyError` without marking anything. Once the header is
     * found the plan lookup finds it too, and the rebuilt context names `aws`, so the strategy
     * is always chosen; an exception from its `complete` is recorded with `mark_error` and
     * raised again, and a successful completion marks the session available.
     */
    method CompleteUpload(payload: CompletionPayload) returns (r: Outcome)
      requires Valid()
      modifies sessions, sessions.clock, uploaderFactory.s3Single.s3, uploaderFactory.s3Multi.s3
      ensures Valid()
      ensures var id := payload.sessionId;
        var ctx := GetCtxOf(old(sessions.table), id);
        ctx.Failure? ==>
          && r == Fail(ctx.error)
          && sessions.table == old(sessions.table) && sessions.ops == old(sessions.ops) + [GetCtxOp(id)]
          && unchanged(sessions.clock, uploaderFactory.s3Single.s3, uploaderFactory.s3Multi.s3)
      ensures var id := payload.sessionId;
        var ctx := GetCtxOf(old(sessions.table), id);
        ctx.Success? ==>
          && GetPlanOf(old(sessions.table), id).Success? && ForCtx(uploaderFactory, ctx.value).Success?
          && var u := ForCtx(uploaderFactory, ctx.value).value;
             var run := CompleteRun(u, |old(Client(u).log)|, payload);
             var e := RecordCompletion(old(sessions.table), sessions.clock.Reading(old(sessions.clock.ticks)),
                                       GetPlanOf(old(sessions.table), id).value, run.1);
             && Client(u).log == old(Client(u).log) + run.0
             && (OtherClient(u) != Client(u) ==> unchanged(OtherClient(u)))
             && sessions.table == e.table && sessions.clock.ticks == old(sessions.clock.ticks) + e.clockReads
             && sessions.ops == old(sessions.ops) + [GetCtxOp(id)] + [GetPlanOp(id)] + e.ops
             && r == e.outcome
    {
      var id := payload.sessionId;
      var ctx := sessions.GetCtx(id);
      if ctx.Failure? {
        return Fail(ctx.error);
      }
      var plan := sessions.GetPlan(id);
      var chosen := ForCtx(uploaderFactory, ctx.value);
      r := CompleteWith(chosen.value, payload, plan.value);
    }

    /** The `try` of `complete_upload`: the strategy's `complete`, then the repository calls. */
    method CompleteWith(u: FileUploader, payload: CompletionPayload, plan: UploadPlan) returns (r: Outcome)
      requires Valid()
      requires u == Single(uploaderFactory.s3Single) || u == Multi(uploaderFactory.s3Multi)
      modifies sessions, sessions.clock, Client(u)
      ensures Valid()
      ensures var run := CompleteRun(u, |old(Client(u).log)|, payload);
        var e := RecordCompletion(old(sessions.table), sessions.clock.Reading(old(sessions.clock.ticks)), plan, run.1);
        && Client(u).log == old(Client(u).log) + run.0
        && sessions.table == e.table && sessions.clock.ticks == old(sessions.clock.ticks) + e.clockReads
        && sessions.ops == old(sessions.ops) + e.ops
        && r == e.outcome
    {
      var done := UploaderPort.Complete(u, payload);
      r := RecordCompletionOn(plan, done);
    }

    /** The repository calls of `complete_upload` once the strategy has answered. */
    method RecordCompletionOn(plan: UploadPlan, done: Outcome) returns (r: Outcome)
      requires Valid()
      modifies sessions, sessions.clock
      ensures Valid()
      ensures var e := RecordCompletion(old(sessions.table), sessions.clock.Reading(old(sessions.clock.ticks)), plan, done);
        && sessions.table == e.table && sessions.clock.ticks == old(sessions.clock.ticks) + e.clockReads
        && sessions.ops == old(sessions.ops) + e.ops
        && r == e.outcome
    {
      if done.Fail? {
        var marked := sessions.MarkError(plan.uploadId, "UPLOAD_ERROR", ExceptionStr(done.error));
        r := if marked.Fail? then marked else done;
        return;
      }
      var available := sessions.MarkAvailable(plan.uploadId, plan.bucket, plan.key);
      if available.Fail? {
        return available;
      }
      r := sessions.SetStatus(plan.uploadId, StatusValue(Available));
    }

    /**
     * `abort_upload(session_id)`: `abort_multipart`, which does nothing, then, in the `finally`,
     * `mark_error` with `UPLOAD_ABORTED`; no storage call is made, so the multipart upload
     * itself stays open.
     */
    method AbortUpload(sessionId: string) returns (r: Outcome)
      requires Valid()
      modifies sessions
      ensures Valid()
      ensures var marked := MarkErrorTable(old(sessions.table), sessionId, "UPLOAD_ABORTED", "Upload aborted");
        && sessions.table == marked.0 && r == marked.1
        && sessions.ops == old(sessions.ops) + [AbortMultipartOp(sessionId), MarkErrorOp(sessionId, "UPLOAD_ABORTED", "Upload aborted")]
    {
      var aborted := sessions.AbortMultipart(sessionId);
      var marked := sessions.MarkError(sessionId, "UPLOAD_ABORTED", "Upload aborted");
      r := Finally(aborted, marked);
    }

    /**
     * `presign_download(ctx)`: the download validators, then the provider's presigner, which
     * presigns a GET of the context's bucket (the configured one when empty) and key for
     * 900 s with no response headers.
     */
    method PresignDownload(ctx: DownloadCtx) returns (r: Result<string, Exception>)
      modifies downloaderFactory.s3Downloader.s3
      ensures var checked := FirstFailure(DownloadChecks(downloadValidators, ctx));
        checked.Fail? ==> r == Failure(checked.error) && unchanged(downloaderFactory.s3Downloader.s3)
      ensures FirstFailure(DownloadChecks(downloadValidators, ctx)).Pass? && ctx.provider != Aws ==>
        r == Failure(DownloaderFactories.NotImplemented(ctx.provider)) && unchanged(downloaderFactory.s3Downloader.s3)
      ensures FirstFailure(DownloadChecks(downloadValidators, ctx)).Pass? && ctx.provider == Aws ==>
        var d := downloaderFactory.s3Downloader;
        var call := GetCall(GetParams(d.defaultBucket, ctx.bucket, ctx.key, None), DEFAULT_EXPIRES);
        d.s3.log == old(d.s3.log) + [call] && r == d.s3.reply(|old(d.s3.log)|, call)
    {
      for i := 0 to |downloadValidators|
        invariant forall j :: 0 <= j < i ==> DownloadChecks(downloadValidators, ctx)[j].Pass?
      {
        var o := EmptyKey.Handle(downloadValidators[i], ctx);
        if o.Fail? {
          FirstFailureAt(DownloadChecks(downloadValidators, ctx), i);
          return Failure(o.error);
        }
      }
      var dl := ForProvider(downloaderFactory, ctx.provider);
      if dl.Failure? {
        return Failure(dl.error);
      }
      r := PresignGet(dl.value, ctx.bucket, ctx.key, DEFAULT_EXPIRES, None);
    }
  }
}
