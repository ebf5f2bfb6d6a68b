/**
 * The multipart part record (`domain/schemas/dynamo_part_schema.py`): its key layout with the
 * five-digit part number, the validation pydantic performs on construction, and its item form.
 */
module PartSchema {
  import opened Wrappers
  import opened Types
  import opened PyText
  import opened DynamoItem

  const ENTITY: string := "part"
  /** Width of the zero-padded part number in the sort keys. */
  const PAD_WIDTH: nat := 5

  datatype FileUploadPartSchema = FileUploadPartSchema(
    pk: string,
    sk: string,
    gsi1Pk: Option<string>,
    gsi1Sk: Option<string>,
    partNumber: int,
    etag: string,
    size: int,
    uploadedAt: int)

  // ---------------------------------------------------------------------------
  // Validation
  // ---------------------------------------------------------------------------

  function TrimOpt(o: Option<string>): Option<string> {
    if o.Some? then Some(Strip(UnicodeWhiteSpace, o.value)) else None
  }

  /** `str_strip_whitespace=True`: every string field arrives stripped. */
  function StripStrings(s: FileUploadPartSchema): FileUploadPartSchema {
    s.(pk := Strip(UnicodeWhiteSpace, s.pk), sk := Strip(UnicodeWhiteSpace, s.sk),
       gsi1Pk := TrimOpt(s.gsi1Pk), gsi1Sk := TrimOpt(s.gsi1Sk),
       etag := Strip(UnicodeWhiteSpace, s.etag))
  }

  /** `PositiveInt`, `NonNegativeInt` and the two key-prefix validators. */
  predicate FieldConstraints(s: FileUploadPartSchema) {
    && StartsWith(s.pk, "USER#")
    && StartsWith(s.sk, "PART#")
    && s.partNumber >= 1
    && s.size >= 0
    && s.uploadedAt >= 1
  }

  const VALIDATION_ERROR: Exception := Exception(ValidationError, "validation error for FileUploadPartSchema")

  /** Pydantic construction from raw field values: strip, then validate, or `ValidationError`. */
  function Construct(raw: FileUploadPartSchema): (r: Result<FileUploadPartSchema, Exception>)
    ensures r.Success? <==> FieldConstraints(StripStrings(raw))
    ensures r.Success? ==> r.value == StripStrings(raw) && FieldConstraints(r.value)
    ensures r.Success? ==> Trimmed(UnicodeWhiteSpace, r.value.pk) && Trimmed(UnicodeWhiteSpace, r.value.sk)
    ensures r.Failure? ==> r.error == VALIDATION_ERROR
  {
    var s := StripStrings(raw);
    if FieldConstraints(s) then Success(s) else Failure(VALIDATION_ERROR)
  }

  // ---------------------------------------------------------------------------
  // new
  // ---------------------------------------------------------------------------

  /** `f"{part_number:05d}"`. */
  function Pad(partNumber: int): string {
    ZeroPad(partNumber, PAD_WIDTH)
  }

  /** The raw SK `PART#<upload_id>#<padded>`. */
  function RawSk(uploadId: string, partNumber: int): string {
    "PART#" + uploadId + "#" + Pad(partNumber)
  }

  /** The raw GSI1SK `PART#<padded>`. */
  function RawGsi1Sk(partNumber: int): string {
    "PART#" + Pad(partNumber)
  }

  function NewFields(userSub: string, uploadId: string, partNumber: int, etag: string, size: int, uploadedAt: int)
    : FileUploadPartSchema
  {
    FileUploadPartSchema(
      "USER#" + userSub, RawSk(uploadId, partNumber), Some("UPL#" + uploadId), Some(RawGsi1Sk(partNumber)),
      partNumber, etag, size, uploadedAt)
  }

  /**
   * `FileUploadPartSchema.new(...)`: lay out the keys around the padded part number and
   * construct; it fails with `ValidationError` exactly when a number is out of bounds. The part
   * number is stored as given, not padded.
   */
  function New(userSub: string, uploadId: string, partNumber: int, etag: string, size: int, uploadedAt: int)
    : (r: Result<FileUploadPartSchema, Exception>)
    ensures r.Success? <==> partNumber >= 1 && size >= 0 && uploadedAt >= 1
    ensures r.Success? ==>
      && r.value.partNumber == partNumber && r.value.size == size && r.value.uploadedAt == uploadedAt
      && r.value.etag == Strip(UnicodeWhiteSpace, etag)
      && r.value.gsi1Pk.Some? && r.value.gsi1Sk.Some?
      && StartsWith(r.value.pk, "USER#") && StartsWith(r.value.sk, "PART#")
      && StartsWith(r.value.gsi1Sk.value, "PART#")
    ensures r.Failure? ==> r.error == VALIDATION_ERROR
  {
    var raw := NewFields(userSub, uploadId, partNumber, etag, size, uploadedAt);
    NewKeyPrefixes(userSub, uploadId, partNumber);
    Construct(raw)
  }

  /** The stripped PK, SK and GSI1SK of a new part keep their `USER#` and `PART#` prefixes. */
  lemma NewKeyPrefixes(userSub: string, uploadId: string, partNumber: int)
    ensures StartsWith(Strip(UnicodeWhiteSpace, "USER#" + userSub), "USER#")
    ensures StartsWith(Strip(UnicodeWhiteSpace, RawSk(uploadId, partNumber)), "PART#")
    ensures StartsWith(Strip(UnicodeWhiteSpace, RawGsi1Sk(partNumber)), "PART#")
  {
    var pk, sk, g := "USER#" + userSub, RawSk(uploadId, partNumber), RawGsi1Sk(partNumber);
    assert pk[..5] == "USER#" && sk[..5] == "PART#" && g[..5] == "PART#";
    StripKeepsStart(UnicodeWhiteSpace, pk, "USER#");
    StripKeepsStart(UnicodeWhiteSpace, sk, "PART#");
    StripKeepsStart(UnicodeWhiteSpace, g, "PART#");
  }

  /** With a stripped user sub and upload id, the key strings of a valid part are already stripped. */
  lemma {:induction false} NewKeysStripped(userSub: string, uploadId: string, partNumber: int)
    requires Trimmed(UnicodeWhiteSpace, userSub) && Trimmed(UnicodeWhiteSpace, uploadId)
    requires partNumber >= 1
    ensures Strip(UnicodeWhiteSpace, "USER#" + userSub) == "USER#" + userSub
    ensures Strip(UnicodeWhiteSpace, RawSk(uploadId, partNumber)) == RawSk(uploadId, partNumber)
    ensures Strip(UnicodeWhiteSpace, "UPL#" + uploadId) == "UPL#" + uploadId
    ensures Strip(UnicodeWhiteSpace, RawGsi1Sk(partNumber)) == RawGsi1Sk(partNumber)
  {
    var w := UnicodeWhiteSpace;
    var pad := Pad(partNumber);
    ZeroPadDigits(partNumber, PAD_WIDTH);
    assert IsDigit(pad[0]) && IsDigit(pad[|pad| - 1]);
    assert Trimmed(w, "USER#") && Trimmed(w, "PART#") && Trimmed(w, "#") && Trimmed(w, "UPL#") && Trimmed(w, pad);
    TrimmedConcat(w, "USER#", userSub);
    TrimmedConcat(w, "PART#", uploadId);
    TrimmedConcat(w, "PART#" + uploadId, "#");
    TrimmedConcat(w, "PART#" + uploadId + "#", pad);
    TrimmedConcat(w, "UPL#", uploadId);
    TrimmedConcat(w, "PART#", pad);
    StripTrimmed(w, "USER#" + userSub);
    StripTrimmed(w, RawSk(uploadId, partNumber));
    StripTrimmed(w, "UPL#" + uploadId);
    StripTrimmed(w, RawGsi1Sk(partNumber));
  }

  /**
   * With a stripped user sub and upload id, a new part's keys are exactly `USER#<sub>`,
   * `PART#<id>#<padded>`, `UPL#<id>` and `PART#<padded>`, where a part number below 100000 pads
   * to its five-digit rendering.
   */
  lemma {:induction false} NewKeyLayout(
    userSub: string, uploadId: string, partNumber: int, etag: string, size: int, uploadedAt: int)
    requires Trimmed(UnicodeWhiteSpace, userSub) && Trimmed(UnicodeWhiteSpace, uploadId)
    requires New(userSub, uploadId, partNumber, etag, size, uploadedAt).Success?
    ensures var r := New(userSub, uploadId, partNumber, etag, size, uploadedAt).value;
      && r.pk == "USER#" + userSub
      && r.sk == "PART#" + uploadId + "#" + Pad(partNumber)
      && r.gsi1Pk == Some("UPL#" + uploadId)
      && r.gsi1Sk == Some("PART#" + Pad(partNumber))
    ensures partNumber < Pow10(PAD_WIDTH) ==> Pad(partNumber) == FixedDigits(partNumber, PAD_WIDTH)
  {
    NewKeysStripped(userSub, uploadId, partNumber);
    if partNumber < Pow10(PAD_WIDTH) {
      ZeroPadFixed(partNumber, PAD_WIDTH);
    }
  }

  // ---------------------------------------------------------------------------
  // Ordering of part keys
  // ---------------------------------------------------------------------------

  /** Padded part numbers 1..99999 sort as strings in numeric order. */
  lemma {:induction false} PadSorted(a: int, b: int)
    requires 1 <= a && 1 <= b && a < Pow10(PAD_WIDTH) && b < Pow10(PAD_WIDTH)
    ensures LexLess(Pad(a), Pad(b)) <==> a < b
  {
    ZeroPadFixed(a, PAD_WIDTH);
    ZeroPadFixed(b, PAD_WIDTH);
    if a < b {
      FixedDigitsSorted(a, b, PAD_WIDTH);
    } else if a == b {
      LexLessIrreflexive(Pad(a));
    } else {
      FixedDigitsSorted(b, a, PAD_WIDTH);
      if LexLess(Pad(a), Pad(b)) {
        LexLessTransitive(Pad(a), Pad(b), Pad(a));
        LexLessIrreflexive(Pad(a));
      }
    }
  }

  /**
   * For part numbers 1..99999 of one upload, both the SK and the GSI1SK sort lexicographically
   * exactly in part-number order.
   */
  lemma {:induction false} PartKeysSorted(uploadId: string, a: int, b: int)
    requires 1 <= a && 1 <= b && a < Pow10(PAD_WIDTH) && b < Pow10(PAD_WIDTH)
    ensures LexLess(RawSk(uploadId, a), RawSk(uploadId, b)) <==> a < b
    ensures LexLess(RawGsi1Sk(a), RawGsi1Sk(b)) <==> a < b
  {
    PadSorted(a, b);
    var p := "PART#" + uploadId + "#";
    assert RawSk(uploadId, a) == p + Pad(a) && RawSk(uploadId, b) == p + Pad(b);
    LexCommonPrefix(p, Pad(a), Pad(b));
    LexCommonPrefix("PART#", Pad(a), Pad(b));
  }

  /**
   * A new part's GSI1 partition key is the one a session with the same upload id carries, but its
   * GSI1 sort key starts with `PART#`, so a `begins_with "SESS#"` query on GSI1 never returns it.
   */
  lemma PartNotSessionKey(
    userSub: string, uploadId: string, partNumber: int, etag: string, size: int, uploadedAt: int)
    requires New(userSub, uploadId, partNumber, etag, size, uploadedAt).Success?
    ensures var r := New(userSub, uploadId, partNumber, etag, size, uploadedAt).value;
      && r.gsi1Pk == Some(Strip(UnicodeWhiteSpace, "UPL#" + uploadId))
      && r.gsi1Sk.Some? && !StartsWith(r.gsi1Sk.value, "SESS#")
  {
    var g := New(userSub, uploadId, partNumber, etag, size, uploadedAt).value.gsi1Sk.value;
    assert g[0] == 'P';
  }

  // ---------------------------------------------------------------------------
  // to_dynamo
  // ---------------------------------------------------------------------------

  function OptS(o: Option<string>): Attr {
    if o.Some? then S(o.value) else Null
  }

  /**
   * `to_dynamo()` calls `model_dump(by_name=True)`. The model assumes the dump this is meant to
   * give (every field under its alias, `None` as NULL), the one the reads of `PK`/`SK` expect;
   * pydantic's own keyword is `by_alias`, so the call as written is not what is modelled.
   */
  function ToDynamo(s: FileUploadPartSchema): Item {
    EMPTY.(
      PK := Some(S(s.pk)), SK := Some(S(s.sk)), GSI1PK := Some(OptS(s.gsi1Pk)), GSI1SK := Some(OptS(s.gsi1Sk)),
      entity := Some(S(ENTITY)), part_number := Some(N(s.partNumber)), etag := Some(S(s.etag)),
      size := Some(N(s.size)), uploaded_at := Some(N(s.uploadedAt)))
  }

  /**
   * Every field of a part reaches its item, an unset GSI1 key as a stored NULL rather than an
   * absent attribute, and the part number as the unpadded integer.
   */
  lemma ItemKeepsEveryField(s: FileUploadPartSchema)
    ensures var item := ToDynamo(s);
      && item.PK == Some(S(s.pk)) && item.SK == Some(S(s.sk))
      && item.GSI1PK.Some? && item.GSI1SK.Some?
      && (item.GSI1PK == Some(Null) <==> s.gsi1Pk.None?)
      && (item.GSI1SK == Some(Null) <==> s.gsi1Sk.None?)
      && item.entity == Some(S("part")) && item.part_number == Some(N(s.partNumber))
      && item.etag == Some(S(s.etag)) && item.size == Some(N(s.size)) && item.uploaded_at == Some(N(s.uploadedAt))
      && item.status == None && item.user_sub == None
  {
  }
}
