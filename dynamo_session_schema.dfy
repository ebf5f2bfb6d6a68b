/**
 * The session header record (`domain/schemas/dynamo_session_schema.py`): its key layout, the
 * validation pydantic performs on construction, and its DynamoDB item form.
 */
module SessionSchema {
  import opened Wrappers
  import opened Types
  import opened PyText
  import opened CivilTime
  import opened DynamoItem

  const ENTITY: string := "session"

  datatype FileUploadSessionSchema = FileUploadSessionSchema(
    pk: string,
    sk: string,
    gsi1Pk: string,
    gsi1Sk: string,
    gsi2Pk: string,
    gsi2Sk: string,
    gsi3Pk: Option<string>,
    gsi3Sk: Option<string>,
    uploadType: UploadType,
    uploadId: string,
    userSub: string,
    bucket: string,
    key: string,
    contentType: Option<string>,
    totalParts: Option<int>,
    partsReceived: int,
    partSize: Option<int>,
    bytesTotal: Option<int>,
    bytesUploaded: int,
    status: UploadStatus,
    startedAt: int,
    completedAt: Option<int>,
    ttl: Option<int>)

  // ---------------------------------------------------------------------------
  // Validation
  // ---------------------------------------------------------------------------

  function TrimOpt(o: Option<string>): Option<string> {
    if o.Some? then Some(Strip(UnicodeWhiteSpace, o.value)) else None
  }

  /** `str_strip_whitespace=True`: every string field arrives stripped. */
  function StripStrings(s: FileUploadSessionSchema): FileUploadSessionSchema {
    s.(pk := Strip(UnicodeWhiteSpace, s.pk), sk := Strip(UnicodeWhiteSpace, s.sk),
       gsi1Pk := Strip(UnicodeWhiteSpace, s.gsi1Pk), gsi1Sk := Strip(UnicodeWhiteSpace, s.gsi1Sk),
       gsi2Pk := Strip(UnicodeWhiteSpace, s.gsi2Pk), gsi2Sk := Strip(UnicodeWhiteSpace, s.gsi2Sk),
       gsi3Pk := TrimOpt(s.gsi3Pk), gsi3Sk := TrimOpt(s.gsi3Sk),
       uploadId := Strip(UnicodeWhiteSpace, s.uploadId), userSub := Strip(UnicodeWhiteSpace, s.userSub),
       bucket := Strip(UnicodeWhiteSpace, s.bucket), key := Strip(UnicodeWhiteSpace, s.key),
       contentType := TrimOpt(s.contentType))
  }

  predicate AtLeast(o: Option<int>, lo: int) {
    o.Some? ==> o.value >= lo
  }

  /** The field constraints and validators of the schema (`PositiveInt`, `NonNegativeInt`, the key prefixes). */
  predicate FieldConstraints(s: FileUploadSessionSchema) {
    && StartsWith(s.pk, "USER#")
    && StartsWith(s.sk, "SESS#")
    && AtLeast(s.totalParts, 1)
    && s.partsReceived >= 0
    && (s.totalParts.Some? ==> s.partsReceived <= s.totalParts.value)
    && AtLeast(s.partSize, 0)
    && AtLeast(s.bytesTotal, 0)
    && s.bytesUploaded >= 0
    && s.startedAt >= 1
    && AtLeast(s.completedAt, 1)
    && AtLeast(s.ttl, 1)
  }

  predicate OptTrimmed(o: Option<string>) {
    o.Some? ==> Trimmed(UnicodeWhiteSpace, o.value)
  }

  /** What every constructed record satisfies: its constraints hold and its strings are stripped. */
  predicate ValidSession(s: FileUploadSessionSchema) {
    && FieldConstraints(s)
    && Trimmed(UnicodeWhiteSpace, s.pk) && Trimmed(UnicodeWhiteSpace, s.sk)
    && Trimmed(UnicodeWhiteSpace, s.gsi1Pk) && Trimmed(UnicodeWhiteSpace, s.gsi1Sk)
    && Trimmed(UnicodeWhiteSpace, s.gsi2Pk) && Trimmed(UnicodeWhiteSpace, s.gsi2Sk)
    && OptTrimmed(s.gsi3Pk) && OptTrimmed(s.gsi3Sk)
    && Trimmed(UnicodeWhiteSpace, s.uploadId) && Trimmed(UnicodeWhiteSpace, s.userSub)
    && Trimmed(UnicodeWhiteSpace, s.bucket) && Trimmed(UnicodeWhiteSpace, s.key)
    && OptTrimmed(s.contentType)
  }

  const VALIDATION_ERROR: Exception := Exception(ValidationError, "validation error for FileUploadSessionSchema")

  /** Pydantic construction from raw field values: strip, then validate, or `ValidationError`. */
  function Construct(raw: FileUploadSessionSchema): (r: Result<FileUploadSessionSchema, Exception>)
    ensures r.Success? <==> FieldConstraints(StripStrings(raw))
    ensures r.Success? ==> r.value == StripStrings(raw) && ValidSession(r.value)
    ensures r.Failure? ==> r.error == VALIDATION_ERROR
  {
    var s := StripStrings(raw);
    if FieldConstraints(s) then Success(s) else Failure(VALIDATION_ERROR)
  }

  // ---------------------------------------------------------------------------
  // new
  // ---------------------------------------------------------------------------

  /** The raw field values `FileUploadSessionSchema.new` hands to the constructor, for a given `ts`. */
  function NewFields(
    userSub: string, uploadId: string, bucket: string, key: string, startedAt: int, ts: string,
    totalParts: Option<int>, bytesTotal: Option<int>, contentType: Option<string>, ttl: Option<int>
  ): FileUploadSessionSchema {
    var sk := "SESS#" + ts + "#" + uploadId;
    // The status keys carry `StatusValue(Uploading)`, written out (see `NewStatusKeys`).
    FileUploadSessionSchema(
      "USER#" + userSub, sk, "UPL#" + uploadId, sk,
      "STATUS#uploading", ts + "#USER#" + userSub + "#" + uploadId,
      Some("USER#" + userSub + "#STATUS#uploading"), Some(ts + "#" + uploadId),
      MultiPart, uploadId, userSub, bucket, key, contentType,
      totalParts, 0, None, bytesTotal, 0, Uploading, startedAt, None, ttl)
  }

  /**
   * `FileUploadSessionSchema.new(...)`: render `started_at` as the UTC `yyyyMMddHHmmss` stamp,
   * lay out the keys, and construct. It fails with `ValueError` past year 9999 and with
   * `ValidationError` exactly when a caller-supplied number is out of bounds.
   */
  function New(
    userSub: string, uploadId: string, bucket: string, key: string, startedAt: nat,
    totalParts: Option<int>, bytesTotal: Option<int>, contentType: Option<string>, ttl: Option<int>
  ): (r: Result<FileUploadSessionSchema, Exception>)
    ensures r.Success? <==>
      TimestampOf(startedAt).Success? && startedAt >= 1 && AtLeast(totalParts, 1) && AtLeast(bytesTotal, 0) && AtLeast(ttl, 1)
    ensures r.Success? ==> ValidSession(r.value)
    ensures r.Success? ==>
      && r.value.status == Uploading && r.value.uploadType == MultiPart
      && r.value.partsReceived == 0 && r.value.bytesUploaded == 0
      && r.value.partSize == None && r.value.completedAt == None
      && r.value.startedAt == startedAt && r.value.totalParts == totalParts
      && r.value.bytesTotal == bytesTotal && r.value.ttl == ttl
      && r.value.gsi3Pk.Some? && r.value.gsi3Sk.Some?
      && r.value.contentType == TrimOpt(contentType)
    ensures r.Failure? ==> r.error.kind == ValueError || r.error == VALIDATION_ERROR
  {
    var ts :- TimestampOf(startedAt);
    var raw := NewFields(userSub, uploadId, bucket, key, startedAt, ts, totalParts, bytesTotal, contentType, ttl);
    NewKeyPrefixes(userSub, uploadId, ts);
    Construct(raw)
  }

  /** The stripped PK and SK of a new record keep their `USER#` and `SESS#` prefixes. */
  lemma NewKeyPrefixes(userSub: string, uploadId: string, ts: string)
    ensures StartsWith(Strip(UnicodeWhiteSpace, "USER#" + userSub), "USER#")
    ensures StartsWith(Strip(UnicodeWhiteSpace, "SESS#" + ts + "#" + uploadId), "SESS#")
  {
    var pk, sk := "USER#" + userSub, "SESS#" + ts + "#" + uploadId;
    assert pk[..5] == "USER#" && sk[..5] == "SESS#";
    StripKeepsStart(UnicodeWhiteSpace, pk, "USER#");
    StripKeepsStart(UnicodeWhiteSpace, sk, "SESS#");
  }

  /** The status keys of a new record spell the `uploading` status value. */
  lemma NewStatusKeys(userSub: string)
    ensures "STATUS#uploading" == "STATUS#" + StatusValue(Uploading)
    ensures "USER#" + userSub + "#STATUS#uploading" == "USER#" + userSub + "#STATUS#" + StatusValue(Uploading)
  {
  }

  /** With a stripped user sub and upload id, the key strings `new` lays out are already stripped. */
  lemma {:induction false} NewKeysTrimmed(userSub: string, uploadId: string, ts: string)
    requires Trimmed(UnicodeWhiteSpace, userSub) && Trimmed(UnicodeWhiteSpace, uploadId)
    requires |ts| == 14 && AllDigits(ts)
    ensures Trimmed(UnicodeWhiteSpace, "USER#" + userSub)
    ensures Trimmed(UnicodeWhiteSpace, "SESS#" + ts + "#" + uploadId)
    ensures Trimmed(UnicodeWhiteSpace, "UPL#" + uploadId)
    ensures Trimmed(UnicodeWhiteSpace, "STATUS#uploading")
    ensures Trimmed(UnicodeWhiteSpace, ts + "#USER#" + userSub + "#" + uploadId)
    ensures Trimmed(UnicodeWhiteSpace, "USER#" + userSub + "#STATUS#uploading")
    ensures Trimmed(UnicodeWhiteSpace, ts + "#" + uploadId)
  {
    var w := UnicodeWhiteSpace;
    assert IsDigit(ts[0]) && IsDigit(ts[13]);
    assert Trimmed(w, "USER#") && Trimmed(w, "SESS#") && Trimmed(w, "#") && Trimmed(w, "UPL#")
      && Trimmed(w, "#USER#") && Trimmed(w, "#STATUS#uploading") && Trimmed(w, ts);
    TrimmedConcat(w, "USER#", userSub);
    TrimmedConcat(w, "SESS#", ts);
    TrimmedConcat(w, "SESS#" + ts, "#");
    TrimmedConcat(w, "SESS#" + ts + "#", uploadId);
    TrimmedConcat(w, "UPL#", uploadId);
    TrimmedConcat(w, ts, "#USER#");
    TrimmedConcat(w, ts + "#USER#", userSub);
    TrimmedConcat(w, ts + "#USER#" + userSub, "#");
    TrimmedConcat(w, ts + "#USER#" + userSub + "#", uploadId);
    TrimmedConcat(w, "USER#" + userSub, "#STATUS#uploading");
    TrimmedConcat(w, ts, "#");
    TrimmedConcat(w, ts + "#", uploadId);
  }

  /** A successful `new` is the construction of its raw fields for the rendered stamp. */
  lemma NewIsConstruct(
    userSub: string, uploadId: string, bucket: string, key: string, startedAt: nat,
    totalParts: Option<int>, bytesTotal: Option<int>, contentType: Option<string>, ttl: Option<int>)
    requires New(userSub, uploadId, bucket, key, startedAt, totalParts, bytesTotal, contentType, ttl).Success?
    ensures TimestampOf(startedAt).Success?
    ensures New(userSub, uploadId, bucket, key, startedAt, totalParts, bytesTotal, contentType, ttl).value
         == StripStrings(NewFields(userSub, uploadId, bucket, key, startedAt, TimestampOf(startedAt).value,
                                   totalParts, bytesTotal, contentType, ttl))
  {
  }

  /** With a stripped user sub and upload id, stripping leaves the key strings of `new` unchanged. */
  lemma {:induction false} NewKeysStripped(userSub: string, uploadId: string, ts: string)
    requires Trimmed(UnicodeWhiteSpace, userSub) && Trimmed(UnicodeWhiteSpace, uploadId)
    requires |ts| == 14 && AllDigits(ts)
    ensures Strip(UnicodeWhiteSpace, "USER#" + userSub) == "USER#" + userSub
    ensures Strip(UnicodeWhiteSpace, "SESS#" + ts + "#" + uploadId) == "SESS#" + ts + "#" + uploadId
    ensures Strip(UnicodeWhiteSpace, "UPL#" + uploadId) == "UPL#" + uploadId
    ensures Strip(UnicodeWhiteSpace, "STATUS#uploading") == "STATUS#uploading"
    ensures Strip(UnicodeWhiteSpace, ts + "#USER#" + userSub + "#" + uploadId) == ts + "#USER#" + userSub + "#" + uploadId
    ensures Strip(UnicodeWhiteSpace, "USER#" + userSub + "#STATUS#uploading") == "USER#" + userSub + "#STATUS#uploading"
    ensures Strip(UnicodeWhiteSpace, ts + "#" + uploadId) == ts + "#" + uploadId
    ensures Strip(UnicodeWhiteSpace, userSub) == userSub && Strip(UnicodeWhiteSpace, uploadId) == uploadId
  {
    var w := UnicodeWhiteSpace;
    NewKeysTrimmed(userSub, uploadId, ts);
    StripTrimmed(w, "USER#" + userSub);
    StripTrimmed(w, "SESS#" + ts + "#" + uploadId);
    StripTrimmed(w, "UPL#" + uploadId);
    StripTrimmed(w, "STATUS#uploading");
    StripTrimmed(w, ts + "#USER#" + userSub + "#" + uploadId);
    StripTrimmed(w, "USER#" + userSub + "#STATUS#uploading");
    StripTrimmed(w, ts + "#" + uploadId);
    StripTrimmed(w, userSub);
    StripTrimmed(w, uploadId);
  }

  /** The stripped keys of the raw fields, for any 14-digit stamp and stripped sub and id. */
  lemma {:induction false} FieldsKeyLayout(
    userSub: string, uploadId: string, bucket: string, key: string, startedAt: int, ts: string,
    totalParts: Option<int>, bytesTotal: Option<int>, contentType: Option<string>, ttl: Option<int>)
    requires Trimmed(UnicodeWhiteSpace, userSub) && Trimmed(UnicodeWhiteSpace, uploadId)
    requires |ts| == 14 && AllDigits(ts)
    ensures var r := StripStrings(NewFields(userSub, uploadId, bucket, key, startedAt, ts, totalParts, bytesTotal, contentType, ttl));
      && r.pk == "USER#" + userSub
      && r.sk == "SESS#" + ts + "#" + uploadId
      && r.gsi1Pk == "UPL#" + uploadId
      && r.gsi1Sk == r.sk
      && r.gsi2Pk == "STATUS#uploading"
      && r.gsi2Sk == ts + "#USER#" + userSub + "#" + uploadId
      && r.gsi3Pk == Some("USER#" + userSub + "#STATUS#uploading")
      && r.gsi3Sk == Some(ts + "#" + uploadId)
      && r.uploadId == uploadId && r.userSub == userSub
  {
    NewKeysStripped(userSub, uploadId, ts);
  }

  /**
   * With a stripped user sub and upload id, a new record's keys are exactly
   * `USER#<sub>`, `SESS#<ts>#<id>`, `UPL#<id>`, the SK again, `STATUS#uploading`,
   * `<ts>#USER#<sub>#<id>`, `USER#<sub>#STATUS#uploading` and `<ts>#<id>`.
   */
  lemma {:induction false} NewKeyLayout(
    userSub: string, uploadId: string, bucket: string, key: string, startedAt: nat,
    totalParts: Option<int>, bytesTotal: Option<int>, contentType: Option<string>, ttl: Option<int>)
    requires Trimmed(UnicodeWhiteSpace, userSub) && Trimmed(UnicodeWhiteSpace, uploadId)
    requires New(userSub, uploadId, bucket, key, startedAt, totalParts, bytesTotal, contentType, ttl).Success?
    ensures var r := New(userSub, uploadId, bucket, key, startedAt, totalParts, bytesTotal, contentType, ttl).value;
      var ts := TimestampOf(startedAt).value;
      && r.pk == "USER#" + userSub
      && r.sk == "SESS#" + ts + "#" + uploadId
      && r.gsi1Pk == "UPL#" + uploadId
      && r.gsi1Sk == r.sk
      && r.gsi2Pk == "STATUS#uploading"
      && r.gsi2Sk == ts + "#USER#" + userSub + "#" + uploadId
      && r.gsi3Pk == Some("USER#" + userSub + "#STATUS#uploading")
      && r.gsi3Sk == Some(ts + "#" + uploadId)
      && r.uploadId == uploadId && r.userSub == userSub
  {
    NewIsConstruct(userSub, uploadId, bucket, key, startedAt, totalParts, bytesTotal, contentType, ttl);
    FieldsKeyLayout(userSub, uploadId, bucket, key, startedAt, TimestampOf(startedAt).value,
                    totalParts, bytesTotal, contentType, ttl);
  }

  /** The second `#`-separated field of a stripped `SESS#<ts>#<id>` is `ts`, whatever the id. */
  lemma {:induction false} SessionSkStamp(ts: string, uploadId: string)
    requires |ts| == 14 && AllDigits(ts)
    ensures var sk := Strip(UnicodeWhiteSpace, "SESS#" + ts + "#" + uploadId);
      |Split(sk, '#')| >= 2 && Split(sk, '#')[1] == ts
  {
    var raw := "SESS#" + ts + "#" + uploadId;
    var head := "SESS#" + ts + "#";
    assert raw[..|head|] == head;
    assert head[0] == 'S' && head[|head| - 1] == '#';
    StripKeepsStart(UnicodeWhiteSpace, raw, head);
    var sk := Strip(UnicodeWhiteSpace, raw);
    var rest := sk[|head|..];
    assert sk == "SESS" + ['#'] + (ts + ['#'] + rest);
    SplitAfterHead("SESS", '#', ts + ['#'] + rest);
    assert '#' !in ts by {
      forall i | 0 <= i < |ts| ensures ts[i] != '#' {
        assert IsDigit(ts[i]);
      }
    }
    SplitAfterHead(ts, '#', rest);
  }

  /**
   * Whatever the upload id, the second `#`-separated field of a new record's SK is the 14-digit
   * time stamp, which is what `set_status` reads back.
   */
  lemma {:induction false} NewSkTimestamp(
    userSub: string, uploadId: string, bucket: string, key: string, startedAt: nat,
    totalParts: Option<int>, bytesTotal: Option<int>, contentType: Option<string>, ttl: Option<int>)
    requires New(userSub, uploadId, bucket, key, startedAt, totalParts, bytesTotal, contentType, ttl).Success?
    ensures var sk := New(userSub, uploadId, bucket, key, startedAt, totalParts, bytesTotal, contentType, ttl).value.sk;
      |Split(sk, '#')| >= 2 && Split(sk, '#')[1] == TimestampOf(startedAt).value
  {
    NewIsConstruct(userSub, uploadId, bucket, key, startedAt, totalParts, bytesTotal, contentType, ttl);
    SessionSkStamp(TimestampOf(startedAt).value, uploadId);
  }

  // ---------------------------------------------------------------------------
  // to_dynamo
  // ---------------------------------------------------------------------------

  function OptS(o: Option<string>): Attr {
    if o.Some? then S(o.value) else Null
  }

  function OptN(o: Option<int>): Attr {
    if o.Some? then N(o.value) else Null
  }

  /**
   * `model_dump(by_name=True)` as the repository's reads of `item["PK"]` and the GSI attributes
   * expect it: every field under its alias, `None` as NULL. This is an assumption: pydantic's
   * own keyword is `by_alias`, so the call as written is not what is modelled.
   */
  function ModelDump(s: FileUploadSessionSchema): Item {
    EMPTY.(
      PK := Some(S(s.pk)), SK := Some(S(s.sk)), GSI1PK := Some(S(s.gsi1Pk)), GSI1SK := Some(S(s.gsi1Sk)),
      GSI2PK := Some(S(s.gsi2Pk)), GSI2SK := Some(S(s.gsi2Sk)),
      GSI3PK := Some(OptS(s.gsi3Pk)), GSI3SK := Some(OptS(s.gsi3Sk)),
      entity := Some(S(ENTITY)), upload_type := Some(S(UploadTypeValue(s.uploadType))),
      upload_id := Some(S(s.uploadId)), user_sub := Some(S(s.userSub)),
      bucket := Some(S(s.bucket)), key := Some(S(s.key)), content_type := Some(OptS(s.contentType)),
      total_parts := Some(OptN(s.totalParts)), parts_received := Some(N(s.partsReceived)),
      part_size := Some(OptN(s.partSize)), bytes_total := Some(OptN(s.bytesTotal)),
      bytes_uploaded := Some(N(s.bytesUploaded)), status := Some(S(StatusValue(s.status))),
      started_at := Some(N(s.startedAt)), completed_at := Some(OptN(s.completedAt)), ttl := Some(OptN(s.ttl)))
  }

  /** `to_dynamo()`: the dumped fields whose value is not `None`. */
  function ToDynamo(s: FileUploadSessionSchema): Item {
    DropNulls(ModelDump(s))
  }

  /**
   * The item of a record carries its keys, its entity and upload type, its ids, owner and
   * object, its status, counters and start time, and an optional field (the TTL among them)
   * exactly when the record has a value for it; the attributes other writers add are absent.
   */
  lemma ItemAttributes(s: FileUploadSessionSchema)
    ensures var item := ToDynamo(s);
      && item.PK == Some(S(s.pk)) && item.SK == Some(S(s.sk))
      && item.GSI1PK == Some(S(s.gsi1Pk)) && item.GSI1SK == Some(S(s.gsi1Sk))
      && item.GSI2PK == Some(S(s.gsi2Pk)) && item.GSI2SK == Some(S(s.gsi2Sk))
      && item.GSI3PK == StoredS(s.gsi3Pk) && item.GSI3SK == StoredS(s.gsi3Sk)
      && item.entity == Some(S(ENTITY)) && item.upload_type == Some(S(UploadTypeValue(s.uploadType)))
      && item.upload_id == Some(S(s.uploadId))
      && item.user_sub == Some(S(s.userSub)) && item.bucket == Some(S(s.bucket)) && item.key == Some(S(s.key))
      && item.status == Some(S(StatusValue(s.status)))
      && item.parts_received == Some(N(s.partsReceived)) && item.bytes_uploaded == Some(N(s.bytesUploaded))
      && item.started_at == Some(N(s.startedAt))
      && item.content_type == StoredS(s.contentType)
      && item.total_parts == StoredN(s.totalParts)
      && item.part_size == StoredN(s.partSize)
      && item.bytes_total == StoredN(s.bytesTotal)
      && item.completed_at == StoredN(s.completedAt)
      && item.ttl == StoredN(s.ttl)
      && item.s3_mpu_id == None && item.project_id == None
      && item.error_code == None && item.error_message == None
  {
  }

  /** The stored form of an optional field: absent when `None`. */
  function StoredS(o: Option<string>): Option<Attr> {
    if o.Some? then Some(S(o.value)) else None
  }

  function StoredN(o: Option<int>): Option<Attr> {
    if o.Some? then Some(N(o.value)) else None
  }
}
