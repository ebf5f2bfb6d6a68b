/**
 * Session persistence (`infrastructure/repositories/dynamo_session_repository.py`): the
 * `file_upload_session` table keyed by (PK, SK), the session lookup through the GSI1 index,
 * and the conditional put and attribute updates the repository issues.
 */
module SessionRepository {
  import opened Wrappers
  import opened Types
  import opened PyText
  import opened DynamoItem
  import opened SessionSchema
  import opened CivilTime
  import opened KeyBuilder

  const TABLE_NAME: string := "file_upload_session"

  /** `timedelta(days=7)`, in seconds: how long a session lives past its creation. */
  const SESSION_TTL: nat := 604800

  /** The error a `put_item` whose `attribute_not_exists` condition fails raises. */
  const CONDITIONAL_CHECK_FAILED: Exception :=
    Exception(ClientError, "An error occurred (ConditionalCheckFailedException) when calling the PutItem operation: The conditional request failed")

  /**
   * The wall clock `_now_ts` reads: whole UTC seconds since the epoch. The `n`-th reading
   * (counted from 0) is `reading(n)`.
   */
  class Clock {
    var ticks: nat
    const reading: nat -> nat

    constructor (reading: nat -> nat)
      ensures ticks == 0 && this.reading == reading
    {
      ticks := 0;
      this.reading := reading;
    }

    /** The `n`-th reading, whatever the clock's state. */
    function Reading(n: nat): nat {
      reading(n)
    }

    /** `int(datetime.now(timezone.utc).timestamp())`. */
    method Now() returns (t: nat)
      modifies this
      ensures t == Reading(old(ticks)) && ticks == old(ticks) + 1
    {
      t := reading(ticks);
      ticks := ticks + 1;
    }
  }

  // ---------------------------------------------------------------------------
  // The table
  // ---------------------------------------------------------------------------

  /** An item's primary key: its PK and SK strings. */
  type TableKey = (string, string)

  type Table = map<TableKey, Item>

  /** The string an attribute holds, if it is a string. */
  function StrAttr(a: Option<Attr>): Option<string> {
    if a.Some? && a.value.S? then Some(a.value.s) else None
  }

  /** The number an attribute holds, if it is a number. */
  function NumAttr(a: Option<Attr>): Option<int> {
    if a.Some? && a.value.N? then Some(a.value.n) else None
  }

  predicate StrOrAbsent(a: Option<Attr>) {
    a.None? || a.value.S?
  }

  predicate NumOrAbsent(a: Option<Attr>) {
    a.None? || a.value.N?
  }

  /** Every item carries its own key as its `PK` and `SK` string attributes. */
  predicate Keyed(t: Table) {
    forall k :: k in t ==> t[k].PK == Some(S(k.0)) && t[k].SK == Some(S(k.1))
  }

  /** The item's `GSI1SK` string, `""` when it has none. */
  function Gsi1Sk(item: Item): string {
    StrAttr(item.GSI1SK).GetOr("")
  }

  /** The item sits in GSI1 under a `SESS#` sort key: a session header. */
  predicate SessionLike(item: Item) {
    StrAttr(item.GSI1SK).Some? && StartsWith(Gsi1Sk(item), "SESS#")
  }

  /**
   * The attributes of a session header have the types `create_session` and the updates write:
   * owner, bucket and key are strings, the SK has a `#` field separator, the counters are
   * numbers and the optional texts are strings.
   */
  predicate WellTyped(item: Item) {
    && StrAttr(item.user_sub).Some? && StrAttr(item.bucket).Some? && StrAttr(item.key).Some?
    && StrAttr(item.SK).Some? && '#' in StrAttr(item.SK).value
    && NumOrAbsent(item.total_parts) && NumOrAbsent(item.part_size) && NumOrAbsent(item.bytes_total)
    && StrOrAbsent(item.content_type) && StrOrAbsent(item.s3_mpu_id) && StrOrAbsent(item.project_id)
  }

  /** A table this repository alone writes: keyed items, and well-typed session headers. */
  predicate ValidTable(t: Table) {
    && Keyed(t)
    && forall k :: k in t && SessionLike(t[k]) ==> WellTyped(t[k])
  }

  // ---------------------------------------------------------------------------
  // _get_by_gsi1
  // ---------------------------------------------------------------------------

  /** The item is the session header of upload `id` in GSI1. */
  predicate SessionEntryFor(item: Item, id: string) {
    item.GSI1PK == Some(S("UPL#" + id)) && SessionLike(item)
  }

  /** The keys of the items the GSI1 query's key condition selects. */
  function Matches(t: Table, id: string): set<TableKey> {
    set k | k in t && SessionEntryFor(t[k], id)
  }

  /** The minima `QueryGsi1` takes are over non-empty sets, and they pin down one key. */
  lemma QueryWitnesses(t: Table, ms: set<TableKey>)
    requires ms != {} && forall k :: k in ms ==> k in t
    ensures (set k | k in ms :: Gsi1Sk(t[k])) != {}
    ensures var g := LexMin(set k | k in ms :: Gsi1Sk(t[k]));
      var atG := set k | k in ms && Gsi1Sk(t[k]) == g;
      && atG != {}
      && (set k | k in atG :: k.0) != {}
      && var p := LexMin(set k | k in atG :: k.0);
         && (set k | k in atG && k.0 == p :: k.1) != {}
         && (p, LexMin(set k | k in atG && k.0 == p :: k.1)) in atG
  {
    var k0 :| k0 in ms;
    var gs := set k | k in ms :: Gsi1Sk(t[k]);
    assert Gsi1Sk(t[k0]) in gs;
    var g := LexMin(gs);
    var atG := set k | k in ms && Gsi1Sk(t[k]) == g;
    var k1 :| k1 in ms && Gsi1Sk(t[k1]) == g;
    assert k1 in atG;
    var ps := set k | k in atG :: k.0;
    assert k1.0 in ps;
    var p := LexMin(ps);
    var k2 :| k2 in atG && k2.0 == p;
    var ss := set k | k in atG && k.0 == p :: k.1;
    assert k2.1 in ss;
    var s := LexMin(ss);
    var k3 :| k3 in atG && k3.0 == p && k3.1 == s;
    assert k3 == (p, s);
  }

  /**
   * The first item of `query(IndexName="GSI1", GSI1PK = "UPL#"+id, begins_with(GSI1SK, "SESS#"),
   * Limit=1)`: the match with the least GSI1SK. DynamoDB leaves the order of equal index keys
   * open; this model takes the least PK, then the least SK.
   */
  function QueryGsi1(t: Table, id: string): (r: Option<TableKey>)
    ensures r.None? <==> Matches(t, id) == {}
    ensures r.Some? ==> r.value in Matches(t, id)
    ensures r.Some? ==> forall k :: k in Matches(t, id) ==> LexLe(Gsi1Sk(t[r.value]), Gsi1Sk(t[k]))
    ensures r.Some? ==> forall k :: k in Matches(t, id) && Gsi1Sk(t[k]) == Gsi1Sk(t[r.value]) ==>
      LexLe(r.value.0, k.0) && (k.0 == r.value.0 ==> LexLe(r.value.1, k.1))
  {
    var ms := Matches(t, id);
    if ms == {} then None
    else
      QueryWitnesses(t, ms);
      var g := LexMin(set k | k in ms :: Gsi1Sk(t[k]));
      var atG := set k | k in ms && Gsi1Sk(t[k]) == g;
      var p := LexMin(set k | k in atG :: k.0);
      Some((p, LexMin(set k | k in atG && k.0 == p :: k.1)))
  }

  function NotFound(id: string): Exception {
    Exception(KeyError, "session not found: " + id)
  }

  /** `_get_by_gsi1(id)`: the first match, or `KeyError` when there is none. */
  function GetByGsi1(t: Table, id: string): (r: Result<TableKey, Exception>)
    ensures r.Success? <==> QueryGsi1(t, id).Some?
    ensures r.Success? ==> r.value == QueryGsi1(t, id).value && r.value in t && SessionEntryFor(t[r.value], id)
    ensures r.Failure? ==> r.error == NotFound(id)
  {
    var q := QueryGsi1(t, id);
    if q.None? then Failure(NotFound(id)) else Success(q.value)
  }

  // ---------------------------------------------------------------------------
  // The writes
  // ---------------------------------------------------------------------------

  /** Every item other than the one at `k` is as it was. */
  predicate Unaffected(t: Table, t': Table, k: TableKey) {
    forall k' :: k' in t && k' != k ==> k' in t' && t'[k'] == t[k']
  }

  /** The two versions of an item have the same key, GSI1 entry and typed attributes. */
  predicate SameIndexEntry(a: Item, b: Item) {
    && a.PK == b.PK && a.SK == b.SK && a.GSI1PK == b.GSI1PK && a.GSI1SK == b.GSI1SK
    && a.user_sub == b.user_sub && a.bucket == b.bucket && a.key == b.key
    && a.total_parts == b.total_parts && a.part_size == b.part_size && a.bytes_total == b.bytes_total
    && a.content_type == b.content_type && a.project_id == b.project_id
  }

  /** Rewriting one item without moving it in the index or retyping it keeps the table valid. */
  lemma UpdateKeepsValid(t: Table, k: TableKey, item: Item)
    requires ValidTable(t) && k in t && SameIndexEntry(t[k], item) && StrOrAbsent(item.s3_mpu_id)
    ensures ValidTable(t[k := item])
  {
  }

  /** ... and leaves every GSI1 query answering as before. */
  lemma {:induction false} UpdateKeepsQuery(t: Table, k: TableKey, item: Item, id: string)
    requires k in t && SameIndexEntry(t[k], item)
    ensures Matches(t[k := item], id) == Matches(t, id)
    ensures QueryGsi1(t[k := item], id) == QueryGsi1(t, id)
  {
    var t' := t[k := item];
    assert Matches(t', id) == Matches(t, id) by {
      forall k' ensures k' in Matches(t', id) <==> k' in Matches(t, id) {
        if k' == k {
          assert SessionEntryFor(t'[k'], id) == SessionEntryFor(t[k'], id);
        }
      }
    }
    var ms := Matches(t, id);
    if ms != {} {
      QueryWitnesses(t, ms);
      assert (set k' | k' in ms :: Gsi1Sk(t'[k'])) == (set k' | k' in ms :: Gsi1Sk(t[k']));
      var g := LexMin(set k' | k' in ms :: Gsi1Sk(t[k']));
      assert (set k' | k' in ms && Gsi1Sk(t'[k']) == g) == (set k' | k' in ms && Gsi1Sk(t[k']) == g);
    }
  }

  /** Putting a keyed, well-typed item keeps the table valid. */
  lemma PutKeepsValid(t: Table, key: TableKey, item: Item)
    requires ValidTable(t) && item.PK == Some(S(key.0)) && item.SK == Some(S(key.1)) && WellTyped(item)
    ensures ValidTable(t[key := item])
  {
  }

  /** The item of a constructed record is a keyed, well-typed session header. */
  lemma NewItemWellTyped(rec: FileUploadSessionSchema)
    requires ValidSession(rec)
    ensures var item := ToDynamo(rec);
      && item.PK == Some(S(rec.pk)) && item.SK == Some(S(rec.sk))
      && WellTyped(item) && item.s3_mpu_id == None
  {
    ItemAttributes(rec);
    assert rec.sk[4] == '#';
  }

  /**
   * The record `create_session` builds: the plan's upload id, bucket, key and part count, the
   * file's size and content type, started at `startedAt`, expiring 7 days after `ttlNow`.
   */
  function SessionRecord(ctx: UploadCtx, plan: UploadPlan, ttlNow: nat, startedAt: nat): Result<FileUploadSessionSchema, Exception> {
    New(ctx.userSub, plan.uploadId, plan.bucket, plan.key, startedAt, plan.totalParts,
        Some(ctx.fileMeta.sizeBytes), Some(ctx.fileMeta.contentType), Some(ttlNow + SESSION_TTL))
  }

  /** `put_item` of a record's item on condition that no item has its key: the table is unchanged when one does. */
  function PutSession(t: Table, rec: FileUploadSessionSchema): (r: (Table, Outcome))
    requires ValidTable(t) && ValidSession(rec)
    ensures ValidTable(r.0)
  {
    var key := (rec.pk, rec.sk);
    if key in t then (t, Fail(CONDITIONAL_CHECK_FAILED))
    else
      NewItemWellTyped(rec);
      PutKeepsValid(t, key, ToDynamo(rec));
      (t[key := ToDynamo(rec)], Pass)
  }

  /**
   * `create_session(ctx, plan)` with the two clock readings it takes (the TTL's first): the
   * record's item is put unless an item with its key exists, which is then left as it was.
   */
  function CreateSessionTable(t: Table, ctx: UploadCtx, plan: UploadPlan, ttlNow: nat, startedAt: nat): (r: (Table, Outcome))
    requires ValidTable(t)
    ensures ValidTable(r.0)
    ensures r.1.Fail? ==> r.0 == t
  {
    var rec := SessionRecord(ctx, plan, ttlNow, startedAt);
    if rec.Failure? then (t, Fail(rec.error)) else PutSession(t, rec.value)
  }

  /** The item `set_status` leaves: the status and the four status keys, rebuilt from the SK's stamp field. */
  function WithStatus(item: Item, ts: string, id: string, status: string): Item
    requires StrAttr(item.user_sub).Some?
  {
    var sub := StrAttr(item.user_sub).value;
    item.(status := Some(S(status)),
          GSI2PK := Some(S("STATUS#" + status)), GSI2SK := Some(S(ts + "#USER#" + sub + "#" + id)),
          GSI3PK := Some(S("USER#" + sub + "#STATUS#" + status)), GSI3SK := Some(S(ts + "#" + id)))
  }

  /** The second `#`-separated field of the found header's SK. */
  function SkStamp(k: TableKey): string
    requires '#' in k.1
  {
    SplitSinglePiece(k.1, '#');
    Split(k.1, '#')[1]
  }

  /** `set_status(id, status)`. */
  function SetStatusTable(t: Table, id: string, status: string): (r: (Table, Outcome))
    requires ValidTable(t)
    ensures ValidTable(r.0)
  {
    var found := GetByGsi1(t, id);
    if found.Failure? then (t, Fail(found.error))
    else
      var k := found.value;
      var item := WithStatus(t[k], SkStamp(k), id, status);
      UpdateKeepsValid(t, k, item);
      (t[k := item], Pass)
  }

  /** `mark_available(id, bucket, key)` with the clock reading it takes after the lookup. */
  function MarkAvailableTable(t: Table, id: string, now: nat): (r: (Table, Outcome))
    requires ValidTable(t)
    ensures ValidTable(r.0)
  {
    var found := GetByGsi1(t, id);
    if found.Failure? then (t, Fail(found.error))
    else
      var k := found.value;
      var item := t[k].(completed_at := Some(N(now)));
      UpdateKeepsValid(t, k, item);
      (t[k := item], Pass)
  }

  /** `mark_error(id, code, message)`. */
  function MarkErrorTable(t: Table, id: string, code: string, message: string): (r: (Table, Outcome))
    requires ValidTable(t)
    ensures ValidTable(r.0)
  {
    var found := GetByGsi1(t, id);
    if found.Failure? then (t, Fail(found.error))
    else
      var k := found.value;
      var item := t[k].(status := Some(S(StatusValue(Error))), error_code := Some(S(code)), error_message := Some(S(message)));
      UpdateKeepsValid(t, k, item);
      (t[k := item], Pass)
  }

  /** `save_multipart_id(id, mpu_upload_id)`. */
  function SaveMultipartIdTable(t: Table, id: string, mpuUploadId: string): (r: (Table, Outcome))
    requires ValidTable(t)
    ensures ValidTable(r.0)
  {
    var found := GetByGsi1(t, id);
    if found.Failure? then (t, Fail(found.error))
    else
      var k := found.value;
      var item := t[k].(s3_mpu_id := Some(S(mpuUploadId)));
      UpdateKeepsValid(t, k, item);
      (t[k := item], Pass)
  }

  /**
   * Each write raises `KeyError` and leaves the table as it was exactly when no session header
   * answers the GSI1 lookup; otherwise it rewrites that header alone, keeping its key, its GSI1
   * entry and its typed attributes.
   */
  lemma {:induction false} SetStatusTouchesOnlyTheSession(t: Table, id: string, status: string)
    requires ValidTable(t)
    ensures var r := SetStatusTable(t, id, status);
      && (r.1.Fail? <==> Matches(t, id) == {})
      && (r.1.Fail? ==> r == (t, Fail(NotFound(id))))
      && (r.1.Pass? ==> var k := GetByGsi1(t, id).value;
            r.0.Keys == t.Keys && Unaffected(t, r.0, k) && SameIndexEntry(t[k], r.0[k]))
  {
  }

  lemma {:induction false} MarkAvailableTouchesOnlyTheSession(t: Table, id: string, now: nat)
    requires ValidTable(t)
    ensures var r := MarkAvailableTable(t, id, now);
      && (r.1.Fail? <==> Matches(t, id) == {})
      && (r.1.Fail? ==> r == (t, Fail(NotFound(id))))
      && (r.1.Pass? ==> var k := GetByGsi1(t, id).value;
            r.0.Keys == t.Keys && Unaffected(t, r.0, k) && SameIndexEntry(t[k], r.0[k]))
  {
  }

  lemma {:induction false} MarkErrorTouchesOnlyTheSession(t: Table, id: string, code: string, message: string)
    requires ValidTable(t)
    ensures var r := MarkErrorTable(t, id, code, message);
      && (r.1.Fail? <==> Matches(t, id) == {})
      && (r.1.Fail? ==> r == (t, Fail(NotFound(id))))
      && (r.1.Pass? ==> var k := GetByGsi1(t, id).value;
            r.0.Keys == t.Keys && Unaffected(t, r.0, k) && SameIndexEntry(t[k], r.0[k]))
  {
  }

  lemma {:induction false} SaveMultipartIdTouchesOnlyTheSession(t: Table, id: string, mpuUploadId: string)
    requires ValidTable(t)
    ensures var r := SaveMultipartIdTable(t, id, mpuUploadId);
      && (r.1.Fail? <==> Matches(t, id) == {})
      && (r.1.Fail? ==> r == (t, Fail(NotFound(id))))
      && (r.1.Pass? ==> var k := GetByGsi1(t, id).value;
            r.0.Keys == t.Keys && Unaffected(t, r.0, k) && SameIndexEntry(t[k], r.0[k]))
  {
  }

  // ---------------------------------------------------------------------------
  // The reads
  // ---------------------------------------------------------------------------

  /**
   * The context `get_ctx` rebuilds from a header: provider `aws`, project `default` unless
   * stored, the key's last `/` segment as the filename and everything before it, plus `/`, as
   * the prefix, and defaults for a missing content type and size.
   */
  function CtxOfItem(item: Item): UploadCtx
    requires WellTyped(item)
  {
    var parts := Split(StrAttr(item.key).value, '/');
    UploadCtx(Aws, StrAttr(item.user_sub).value, StrAttr(item.project_id).GetOr("default"),
      FileMeta(parts[|parts| - 1], StrAttr(item.content_type).GetOr("application/octet-stream"),
               NumAttr(item.bytes_total).GetOr(0)),
      Join(parts[..|parts| - 1], '/') + "/")
  }

  /** `int(x or 0) or None` for a stored count: a missing or zero count is `None`. */
  function NonZero(a: Option<Attr>): Option<int> {
    if NumAttr(a).Some? && NumAttr(a).value != 0 then NumAttr(a) else None
  }

  /**
   * The plan `get_plan` rebuilds from a header: multipart exactly when a non-zero part count
   * is stored, with the queried id, the stored bucket and key, and no URLs or payload.
   */
  function PlanOfItem(item: Item, id: string): UploadPlan
    requires WellTyped(item)
  {
    UploadPlan(if NonZero(item.total_parts).Some? then MultiPart else SinglePart, id,
      StrAttr(item.bucket).value, StrAttr(item.key).value,
      NonZero(item.part_size), NonZero(item.total_parts), None, None, None)
  }

  /** `get_ctx(id)`. */
  function GetCtxOf(t: Table, id: string): (r: Result<UploadCtx, Exception>)
    requires ValidTable(t)
    ensures r.Success? <==> Matches(t, id) != {}
    ensures r.Success? ==> r.value.provider == Aws
    ensures r.Failure? ==> r.error == NotFound(id)
  {
    var k :- GetByGsi1(t, id);
    Success(CtxOfItem(t[k]))
  }

  /** `get_plan(id)`. */
  function GetPlanOf(t: Table, id: string): (r: Result<UploadPlan, Exception>)
    requires ValidTable(t)
    ensures r.Success? <==> Matches(t, id) != {}
    ensures r.Success? ==> r.value.uploadId == id
    ensures r.Failure? ==> r.error == NotFound(id)
  {
    var k :- GetByGsi1(t, id);
    Success(PlanOfItem(t[k], id))
  }

  /** `get_multipart_id(id)`: the stored multipart id, if any. */
  function GetMultipartIdOf(t: Table, id: string): (r: Result<Option<string>, Exception>)
    requires ValidTable(t)
    ensures r.Success? <==> Matches(t, id) != {}
    ensures r.Failure? ==> r.error == NotFound(id)
  {
    var k :- GetByGsi1(t, id);
    Success(StrAttr(t[k].s3_mpu_id))
  }

  // ---------------------------------------------------------------------------
  // Properties of the table operations
  // ---------------------------------------------------------------------------

  /**
   * `create_session` is a conditional put: it succeeds exactly when the record is valid and no
   * item has its key, and then adds the record's item under that key; otherwise the table is
   * left as it was.
   */
  lemma CreateSessionConditional(t: Table, ctx: UploadCtx, plan: UploadPlan, ttlNow: nat, startedAt: nat)
    requires ValidTable(t)
    ensures var rec := SessionRecord(ctx, plan, ttlNow, startedAt);
      var r := CreateSessionTable(t, ctx, plan, ttlNow, startedAt);
      && (r.1.Pass? <==> rec.Success? && (rec.value.pk, rec.value.sk) !in t)
      && (rec.Failure? ==> r == (t, Fail(rec.error)))
      && (rec.Success? && (rec.value.pk, rec.value.sk) in t ==> r == (t, Fail(CONDITIONAL_CHECK_FAILED)))
      && (r.1.Pass? ==> r.0 == t[(rec.value.pk, rec.value.sk) := ToDynamo(rec.value)])
  {
    var rec := SessionRecord(ctx, plan, ttlNow, startedAt);
    if rec.Success? {
      assert CreateSessionTable(t, ctx, plan, ttlNow, startedAt) == PutSession(t, rec.value);
    }
  }

  /** `create_session` never overwrites: every item already in the table is still there, unchanged. */
  lemma {:induction false} CreateSessionKeepsItems(t: Table, ctx: UploadCtx, plan: UploadPlan, ttlNow: nat, startedAt: nat)
    requires ValidTable(t)
    ensures var t' := CreateSessionTable(t, ctx, plan, ttlNow, startedAt).0;
      t.Keys <= t'.Keys && forall k :: k in t ==> t'[k] == t[k]
  {
    CreateSessionConditional(t, ctx, plan, ttlNow, startedAt);
  }

  /** The keys of the record of a successful `create_session`. */
  lemma CreatedRecordKeys(ctx: UploadCtx, plan: UploadPlan, ttlNow: nat, startedAt: nat)
    requires Trimmed(UnicodeWhiteSpace, ctx.userSub) && Trimmed(UnicodeWhiteSpace, plan.uploadId)
    requires SessionRecord(ctx, plan, ttlNow, startedAt).Success?
    ensures var rec := SessionRecord(ctx, plan, ttlNow, startedAt).value;
      var ts := TimestampOf(startedAt).value;
      && rec.pk == "USER#" + ctx.userSub && rec.sk == "SESS#" + ts + "#" + plan.uploadId
      && rec.gsi1Pk == "UPL#" + plan.uploadId && rec.gsi1Sk == rec.sk
      && rec.gsi2Pk == "STATUS#uploading" && rec.gsi2Sk == ts + "#USER#" + ctx.userSub + "#" + plan.uploadId
      && rec.gsi3Pk == Some("USER#" + ctx.userSub + "#STATUS#uploading") && rec.gsi3Sk == Some(ts + "#" + plan.uploadId)
      && '#' in rec.sk && |Split(rec.sk, '#')| >= 2 && Split(rec.sk, '#')[1] == ts
      && rec.userSub == ctx.userSub && rec.status == Uploading && ValidSession(rec)
  {
    var args := (ctx.userSub, plan.uploadId, plan.bucket, plan.key, startedAt, plan.totalParts,
                 Some(ctx.fileMeta.sizeBytes), Some(ctx.fileMeta.contentType), Some(ttlNow + SESSION_TTL));
    NewKeyLayout(args.0, args.1, args.2, args.3, args.4, args.5, args.6, args.7, args.8);
    NewSkTimestamp(args.0, args.1, args.2, args.3, args.4, args.5, args.6, args.7, args.8);
    SplitSinglePiece(SessionRecord(ctx, plan, ttlNow, startedAt).value.sk, '#');
  }

  /** The other fields of the record of a successful `create_session`. */
  lemma CreatedRecordFields(ctx: UploadCtx, plan: UploadPlan, ttlNow: nat, startedAt: nat)
    requires SessionRecord(ctx, plan, ttlNow, startedAt).Success?
    ensures var rec := SessionRecord(ctx, plan, ttlNow, startedAt).value;
      && rec.bucket == Strip(UnicodeWhiteSpace, plan.bucket) && rec.key == Strip(UnicodeWhiteSpace, plan.key)
      && rec.contentType == Some(Strip(UnicodeWhiteSpace, ctx.fileMeta.contentType))
      && rec.bytesTotal == Some(ctx.fileMeta.sizeBytes) && rec.totalParts == plan.totalParts
      && rec.partSize == None && (plan.totalParts.Some? ==> plan.totalParts.value >= 1)
      && rec.uploadId == Strip(UnicodeWhiteSpace, plan.uploadId)
      && rec.uploadType == MultiPart && rec.status == Uploading
      && rec.partsReceived == 0 && rec.bytesUploaded == 0 && rec.completedAt == None
      && rec.startedAt == startedAt && rec.ttl == Some(ttlNow + SESSION_TTL)
      && ValidSession(rec)
  {
    NewIsConstruct(ctx.userSub, plan.uploadId, plan.bucket, plan.key, startedAt, plan.totalParts,
                   Some(ctx.fileMeta.sizeBytes), Some(ctx.fileMeta.contentType), Some(ttlNow + SESSION_TTL));
  }

  /**
   * The item a successful `create_session` stores: entity `session`, type `multi_part` whatever
   * the plan, status `uploading`, no part count received and no byte uploaded, started at the
   * second clock reading and expiring seven days (604800 s) after the first.
   */
  lemma {:induction false} CreatedItemFields(t: Table, ctx: UploadCtx, plan: UploadPlan, ttlNow: nat, startedAt: nat)
    requires ValidTable(t)
    requires CreateSessionTable(t, ctx, plan, ttlNow, startedAt).1.Pass?
    ensures SessionRecord(ctx, plan, ttlNow, startedAt).Success?
    ensures var rec := SessionRecord(ctx, plan, ttlNow, startedAt).value;
      var t' := CreateSessionTable(t, ctx, plan, ttlNow, startedAt).0;
      && (rec.pk, rec.sk) in t'
      && var item := t'[(rec.pk, rec.sk)];
      && item.entity == Some(S("session")) && item.upload_type == Some(S("multi_part"))
      && item.upload_id == Some(S(Strip(UnicodeWhiteSpace, plan.uploadId)))
      && item.status == Some(S("uploading"))
      && item.parts_received == Some(N(0)) && item.bytes_uploaded == Some(N(0))
      && item.bytes_total == Some(N(ctx.fileMeta.sizeBytes))
      && item.started_at == Some(N(startedAt)) && item.ttl == Some(N(ttlNow + 604800))
      && item.completed_at == None && item.part_size == None
  {
    CreateSessionConditional(t, ctx, plan, ttlNow, startedAt);
    var rec := SessionRecord(ctx, plan, ttlNow, startedAt).value;
    CreatedRecordFields(ctx, plan, ttlNow, startedAt);
    ItemAttributes(rec);
  }

  /** Putting a session header for `id` into a table with none makes it the one the lookup finds. */
  lemma {:induction false} FreshHeaderFound(t: Table, key: TableKey, item: Item, id: string)
    requires ValidTable(t) && Matches(t, id) == {} && key !in t
    requires SessionEntryFor(item, id)
    ensures Matches(t[key := item], id) == {key}
    ensures GetByGsi1(t[key := item], id) == Success(key)
  {
    var t' := t[key := item];
    forall k | k in Matches(t', id) ensures k == key {
      assert k == key || k in Matches(t, id);
    }
    assert key in Matches(t', id);
  }

  /** ... and what the reads of `id` give back is then that header's context, plan and multipart id. */
  lemma {:induction false} FreshHeaderReads(t: Table, key: TableKey, item: Item, id: string)
    requires ValidTable(t) && Matches(t, id) == {} && key !in t
    requires SessionEntryFor(item, id) && WellTyped(item) && item.PK == Some(S(key.0)) && item.SK == Some(S(key.1))
    ensures ValidTable(t[key := item])
    ensures GetCtxOf(t[key := item], id) == Success(CtxOfItem(item))
    ensures GetPlanOf(t[key := item], id) == Success(PlanOfItem(item, id))
    ensures GetMultipartIdOf(t[key := item], id) == Success(StrAttr(item.s3_mpu_id))
  {
    PutKeepsValid(t, key, item);
    FreshHeaderFound(t, key, item, id);
  }

  /** The item `create_session` puts for a fresh upload id is that id's session header, stored under its own key. */
  lemma CreatedItem(ctx: UploadCtx, plan: UploadPlan, ttlNow: nat, startedAt: nat)
    requires Trimmed(UnicodeWhiteSpace, ctx.userSub) && Trimmed(UnicodeWhiteSpace, plan.uploadId)
    requires SessionRecord(ctx, plan, ttlNow, startedAt).Success?
    ensures var rec := SessionRecord(ctx, plan, ttlNow, startedAt).value;
      var item := ToDynamo(rec);
      && SessionEntryFor(item, plan.uploadId) && WellTyped(item)
      && item.PK == Some(S(rec.pk)) && item.SK == Some(S(rec.sk))
  {
    var rec := SessionRecord(ctx, plan, ttlNow, startedAt).value;
    CreatedRecordKeys(ctx, plan, ttlNow, startedAt);
    NewItemWellTyped(rec);
    ItemAttributes(rec);
    assert StartsWith(rec.gsi1Sk, "SESS#");
  }

  /**
   * A session created under an upload id no item answers to is the one GSI1 item for that id
   * afterwards, and the lookup finds it.
   */
  lemma {:induction false} CreatedSessionFound(t: Table, ctx: UploadCtx, plan: UploadPlan, ttlNow: nat, startedAt: nat)
    requires ValidTable(t) && Matches(t, plan.uploadId) == {}
    requires Trimmed(UnicodeWhiteSpace, ctx.userSub) && Trimmed(UnicodeWhiteSpace, plan.uploadId)
    requires CreateSessionTable(t, ctx, plan, ttlNow, startedAt).1.Pass?
    ensures var rec := SessionRecord(ctx, plan, ttlNow, startedAt).value;
      var t' := CreateSessionTable(t, ctx, plan, ttlNow, startedAt).0;
      && Matches(t', plan.uploadId) == {(rec.pk, rec.sk)}
      && GetByGsi1(t', plan.uploadId) == Success((rec.pk, rec.sk))
      && t'[(rec.pk, rec.sk)] == ToDynamo(rec)
  {
    var rec := SessionRecord(ctx, plan, ttlNow, startedAt).value;
    CreateSessionConditional(t, ctx, plan, ttlNow, startedAt);
    CreatedItem(ctx, plan, ttlNow, startedAt);
    FreshHeaderFound(t, (rec.pk, rec.sk), ToDynamo(rec), plan.uploadId);
  }

  /** After a successful `create_session` under a fresh upload id, the table is the old one plus that id's header, and nothing else. */
  lemma {:induction false} CreatedHeader(t: Table, ctx: UploadCtx, plan: UploadPlan, ttlNow: nat, startedAt: nat)
    requires ValidTable(t) && Matches(t, plan.uploadId) == {}
    requires Trimmed(UnicodeWhiteSpace, ctx.userSub) && Trimmed(UnicodeWhiteSpace, plan.uploadId)
    requires CreateSessionTable(t, ctx, plan, ttlNow, startedAt).1.Pass?
    ensures SessionRecord(ctx, plan, ttlNow, startedAt).Success?
    ensures var rec := SessionRecord(ctx, plan, ttlNow, startedAt).value;
      var item := ToDynamo(rec);
      && CreateSessionTable(t, ctx, plan, ttlNow, startedAt).0 == t[(rec.pk, rec.sk) := item]
      && (rec.pk, rec.sk) !in t
      && SessionEntryFor(item, plan.uploadId) && WellTyped(item)
      && item.PK == Some(S(rec.pk)) && item.SK == Some(S(rec.sk))
  {
    CreateSessionConditional(t, ctx, plan, ttlNow, startedAt);
    CreatedItem(ctx, plan, ttlNow, startedAt);
  }

  /**
   * The context `get_ctx` gives back for a session created under a fresh upload id: provider
   * `aws`, the owner, project `default`, the stripped content type, the size, and the filename
   * and prefix split off the stored (stripped) key.
   */
  lemma {:induction false} CreatedSessionCtx(t: Table, ctx: UploadCtx, plan: UploadPlan, ttlNow: nat, startedAt: nat)
    requires ValidTable(t) && Matches(t, plan.uploadId) == {}
    requires Trimmed(UnicodeWhiteSpace, ctx.userSub) && Trimmed(UnicodeWhiteSpace, plan.uploadId)
    requires CreateSessionTable(t, ctx, plan, ttlNow, startedAt).1.Pass?
    ensures var t' := CreateSessionTable(t, ctx, plan, ttlNow, startedAt).0;
      var parts := Split(Strip(UnicodeWhiteSpace, plan.key), '/');
      GetCtxOf(t', plan.uploadId) == Success(UploadCtx(Aws, ctx.userSub, "default",
        FileMeta(parts[|parts| - 1], Strip(UnicodeWhiteSpace, ctx.fileMeta.contentType), ctx.fileMeta.sizeBytes),
        Join(parts[..|parts| - 1], '/') + "/"))
  {
    var rec := SessionRecord(ctx, plan, ttlNow, startedAt).value;
    CreatedHeader(t, ctx, plan, ttlNow, startedAt);
    FreshHeaderReads(t, (rec.pk, rec.sk), ToDynamo(rec), plan.uploadId);
    CreatedRecordFields(ctx, plan, ttlNow, startedAt);
    CreatedRecordKeys(ctx, plan, ttlNow, startedAt);
    ItemAttributes(rec);
  }

  /**
   * The plan `get_plan` gives back for a session created under a fresh upload id: multipart
   * exactly when a part count was planned, the stripped bucket and key, the part count, and no
   * part size, which `create_session` never stores; and `get_multipart_id` has nothing yet.
   */
  lemma {:induction false} CreatedSessionPlan(t: Table, ctx: UploadCtx, plan: UploadPlan, ttlNow: nat, startedAt: nat)
    requires ValidTable(t) && Matches(t, plan.uploadId) == {}
    requires Trimmed(UnicodeWhiteSpace, ctx.userSub) && Trimmed(UnicodeWhiteSpace, plan.uploadId)
    requires CreateSessionTable(t, ctx, plan, ttlNow, startedAt).1.Pass?
    ensures var t' := CreateSessionTable(t, ctx, plan, ttlNow, startedAt).0;
      && GetPlanOf(t', plan.uploadId) == Success(UploadPlan(if plan.totalParts.Some? then MultiPart else SinglePart,
           plan.uploadId, Strip(UnicodeWhiteSpace, plan.bucket), Strip(UnicodeWhiteSpace, plan.key),
           None, plan.totalParts, None, None, None))
      && GetMultipartIdOf(t', plan.uploadId) == Success(None)
  {
    var rec := SessionRecord(ctx, plan, ttlNow, startedAt).value;
    CreatedHeader(t, ctx, plan, ttlNow, startedAt);
    FreshHeaderReads(t, (rec.pk, rec.sk), ToDynamo(rec), plan.uploadId);
    CreatedRecordFields(ctx, plan, ttlNow, startedAt);
    ItemAttributes(rec);
  }

  /**
   * The context `get_ctx` rebuilds splits the stored key at its last `/`: prefix and filename
   * together are the key, and the filename has no `/`. A key without `/` is all filename,
   * under the prefix `/`.
   */
  lemma {:induction false} CtxPrefixAndFilename(item: Item)
    requires WellTyped(item)
    ensures var c := CtxOfItem(item);
      var key := StrAttr(item.key).value;
      && '/' !in c.fileMeta.filename
      && ('/' in key ==> c.prefix + c.fileMeta.filename == key)
      && ('/' !in key ==> c.prefix == "/" && c.fileMeta.filename == key)
  {
    var key := StrAttr(item.key).value;
    var parts := Split(key, '/');
    if '/' in key {
      SplitLastPiece(key, '/');
    } else {
      SplitSinglePiece(key, '/');
      JoinSplit(key, '/');
      assert parts[..0] == [];
    }
  }

  /** Splitting `head/last` with a `/`-free `last` gives `last` as the final piece and `head` as the rest. */
  lemma {:induction false} SplitOffLast(head: string, last: string)
    requires '/' !in last
    ensures var parts := Split(head + ['/'] + last, '/');
      parts[|parts| - 1] == last && Join(parts[..|parts| - 1], '/') == head
  {
    SplitBeforeTail(head, '/', last);
    JoinSplit(head, '/');
    var parts := Split(head + ['/'] + last, '/');
    assert parts[..|parts| - 1] == Split(head, '/');
  }

  /**
   * For the keys the strategies build, the context `get_ctx` rebuilds has the sanitised
   * filename (behind `0001__` for a single-part key) and the prefix `prefix + upload_id + "/"`,
   * not the plan's prefix.
   */
  lemma {:induction false} StoredKeyRehydrates(prefix: string, uploadId: string, filename: string)
    ensures var parts := Split(KeyForMultipart(prefix, uploadId, filename), '/');
      parts[|parts| - 1] == SafeName(filename) && Join(parts[..|parts| - 1], '/') + "/" == prefix + uploadId + "/"
    ensures var parts := Split(KeyForSingle(prefix, uploadId, 1, filename), '/');
      parts[|parts| - 1] == "0001__" + SafeName(filename) && Join(parts[..|parts| - 1], '/') + "/" == prefix + uploadId + "/"
  {
    var head := prefix + uploadId;
    var name := SafeName(filename);
    SafeNameHasNoSlash(filename);
    assert KeyForMultipart(prefix, uploadId, filename) == head + ['/'] + name;
    SplitOffLast(head, name);
    SingleKeyShape(prefix, uploadId, filename);
    SplitOffLast(head, "0001__" + name);
  }

  /** The first single-part key is `prefix + upload_id`, a `/`, and a `/`-free `0001__<safe name>`. */
  lemma {:induction false} SingleKeyShape(prefix: string, uploadId: string, filename: string)
    ensures KeyForSingle(prefix, uploadId, 1, filename) == (prefix + uploadId) + ['/'] + ("0001__" + SafeName(filename))
    ensures '/' !in "0001__" + SafeName(filename)
  {
    var name := SafeName(filename);
    SafeNameHasNoSlash(filename);
    assert ZeroPad(1, 4) == "0001";
    var last := "0001__" + name;
    forall i | 0 <= i < |last| ensures last[i] != '/' {
      if i >= 6 {
        assert last[i] == name[i - 6];
      }
    }
  }

  /** Replacing one item without moving it in the index or changing what the reads take leaves every read as it was. */
  lemma {:induction false} UpdateKeepsReads(t: Table, k: TableKey, item: Item, id: string)
    requires ValidTable(t) && ValidTable(t[k := item]) && k in t && SameIndexEntry(t[k], item)
    ensures GetCtxOf(t[k := item], id) == GetCtxOf(t, id)
    ensures GetPlanOf(t[k := item], id) == GetPlanOf(t, id)
  {
    UpdateKeepsQuery(t, k, item, id);
  }

  /**
   * None of the four updates changes what `get_ctx` and `get_plan` answer, for any upload id:
   * they move no item in GSI1 and touch none of the attributes those reads take.
   */
  lemma {:induction false} UpdatesKeepReads(t: Table, id: string, other: string,
                                            status: string, now: nat, code: string, message: string, mpuUploadId: string)
    requires ValidTable(t)
    ensures var t' := SetStatusTable(t, id, status).0;
      GetCtxOf(t', other) == GetCtxOf(t, other) && GetPlanOf(t', other) == GetPlanOf(t, other)
    ensures var t' := MarkAvailableTable(t, id, now).0;
      GetCtxOf(t', other) == GetCtxOf(t, other) && GetPlanOf(t', other) == GetPlanOf(t, other)
    ensures var t' := MarkErrorTable(t, id, code, message).0;
      GetCtxOf(t', other) == GetCtxOf(t, other) && GetPlanOf(t', other) == GetPlanOf(t, other)
    ensures var t' := SaveMultipartIdTable(t, id, mpuUploadId).0;
      GetCtxOf(t', other) == GetCtxOf(t, other) && GetPlanOf(t', other) == GetPlanOf(t, other)
  {
    if Matches(t, id) != {} {
      var k := GetByGsi1(t, id).value;
      UpdateKeepsReads(t, k, SetStatusTable(t, id, status).0[k], other);
      UpdateKeepsReads(t, k, MarkAvailableTable(t, id, now).0[k], other);
      UpdateKeepsReads(t, k, MarkErrorTable(t, id, code, message).0[k], other);
      UpdateKeepsReads(t, k, SaveMultipartIdTable(t, id, mpuUploadId).0[k], other);
    }
  }

  /**
   * A write that keeps the table's keys, rewrites only the item at `k` and keeps that item's
   * GSI1 entry leaves every GSI1 lookup answering as before.
   */
  lemma {:induction false} RewriteKeepsLookup(t: Table, t': Table, k: TableKey, id: string)
    requires k in t && t'.Keys == t.Keys && Unaffected(t, t', k) && SameIndexEntry(t[k], t'[k])
    ensures Matches(t', id) == Matches(t, id) && GetByGsi1(t', id) == GetByGsi1(t, id)
  {
    assert t' == t[k := t'[k]];
    UpdateKeepsQuery(t, k, t'[k], id);
  }

  lemma {:induction false} RewriteKeepsMultipartId(t: Table, k: TableKey, item: Item, id: string)
    requires ValidTable(t) && ValidTable(t[k := item]) && k in t && SameIndexEntry(t[k], item)
    requires item.s3_mpu_id == t[k].s3_mpu_id
    ensures GetMultipartIdOf(t[k := item], id) == GetMultipartIdOf(t, id)
  {
    UpdateKeepsQuery(t, k, item, id);
  }

  /** Two writes that each leave every item but the one at `k` alone together leave them alone. */
  lemma UnaffectedTrans(t: Table, t': Table, t'': Table, k: TableKey)
    requires Unaffected(t, t', k) && Unaffected(t', t'', k)
    ensures Unaffected(t, t'', k)
  {
  }

  /** The status writes leave what `get_multipart_id` answers, for any upload id. */
  lemma {:induction false} StatusWritesKeepMultipartId(t: Table, id: string, other: string,
                                                       status: string, now: nat, code: string, message: string)
    requires ValidTable(t)
    ensures GetMultipartIdOf(SetStatusTable(t, id, status).0, other) == GetMultipartIdOf(t, other)
    ensures GetMultipartIdOf(MarkAvailableTable(t, id, now).0, other) == GetMultipartIdOf(t, other)
    ensures GetMultipartIdOf(MarkErrorTable(t, id, code, message).0, other) == GetMultipartIdOf(t, other)
  {
    if Matches(t, id) != {} {
      var k := GetByGsi1(t, id).value;
      RewriteKeepsMultipartId(t, k, SetStatusTable(t, id, status).0[k], other);
      RewriteKeepsMultipartId(t, k, MarkAvailableTable(t, id, now).0[k], other);
      RewriteKeepsMultipartId(t, k, MarkErrorTable(t, id, code, message).0[k], other);
    }
  }

  /** After `save_multipart_id(id, m)` succeeds, `get_multipart_id(id)` answers `m`. */
  lemma {:induction false} SaveThenGetMultipartId(t: Table, id: string, mpuUploadId: string)
    requires ValidTable(t) && Matches(t, id) != {}
    ensures GetMultipartIdOf(SaveMultipartIdTable(t, id, mpuUploadId).0, id) == Success(Some(mpuUploadId))
  {
    var k := GetByGsi1(t, id).value;
    UpdateKeepsQuery(t, k, t[k].(s3_mpu_id := Some(S(mpuUploadId))), id);
  }

  /** Setting the same status twice is setting it once. */
  lemma {:induction false} SetStatusIdempotent(t: Table, id: string, status: string)
    requires ValidTable(t)
    ensures var t1 := SetStatusTable(t, id, status);
      SetStatusTable(t1.0, id, status) == t1
  {
    if Matches(t, id) != {} {
      var k := GetByGsi1(t, id).value;
      var item := WithStatus(t[k], SkStamp(k), id, status);
      UpdateKeepsQuery(t, k, item, id);
      var t1 := t[k := item];
      assert WithStatus(t1[k], SkStamp(k), id, status) == item;
      assert t1[k := item] == t1;
    }
  }

  /** A `set_status` that would rewrite the found header to what it already is succeeds and changes nothing. */
  lemma SetStatusRewritingSame(t: Table, id: string, status: string)
    requires ValidTable(t) && Matches(t, id) != {}
    requires var k := GetByGsi1(t, id).value; WithStatus(t[k], SkStamp(k), id, status) == t[k]
    ensures SetStatusTable(t, id, status) == (t, Pass)
  {
    var k := GetByGsi1(t, id).value;
    assert t[k := t[k]] == t;
  }

  /** A header already filed under `uploading`, with its SK's stamp, is what `set_status` rebuilds for `uploading`. */
  lemma UploadingKeysRebuilt(rec: FileUploadSessionSchema, ts: string, id: string)
    requires rec.status == Uploading && '#' in rec.sk && |Split(rec.sk, '#')| >= 2 && Split(rec.sk, '#')[1] == ts
    requires rec.gsi2Pk == "STATUS#uploading" && rec.gsi2Sk == ts + "#USER#" + rec.userSub + "#" + id
    requires rec.gsi3Pk == Some("USER#" + rec.userSub + "#STATUS#uploading") && rec.gsi3Sk == Some(ts + "#" + id)
    ensures WithStatus(ToDynamo(rec), SkStamp((rec.pk, rec.sk)), id, StatusValue(Uploading)) == ToDynamo(rec)
  {
    ItemAttributes(rec);
    NewStatusKeys(rec.userSub);
  }

  /** The status keys of a new header are those `set_status` builds for `uploading` from its SK's stamp. */
  lemma CreatedItemHasUploadingKeys(ctx: UploadCtx, plan: UploadPlan, ttlNow: nat, startedAt: nat)
    requires Trimmed(UnicodeWhiteSpace, ctx.userSub) && Trimmed(UnicodeWhiteSpace, plan.uploadId)
    requires SessionRecord(ctx, plan, ttlNow, startedAt).Success?
    ensures var rec := SessionRecord(ctx, plan, ttlNow, startedAt).value;
      '#' in rec.sk &&
      WithStatus(ToDynamo(rec), SkStamp((rec.pk, rec.sk)), plan.uploadId, StatusValue(Uploading)) == ToDynamo(rec)
  {
    var rec := SessionRecord(ctx, plan, ttlNow, startedAt).value;
    CreatedRecordKeys(ctx, plan, ttlNow, startedAt);
    UploadingKeysRebuilt(rec, TimestampOf(startedAt).value, plan.uploadId);
  }

  /**
   * Right after a fresh session is created, `set_status(id, "uploading")` rewrites its status
   * and its four status keys to what `create_session` wrote: the stamp it takes from the SK is
   * the creation stamp.
   */
  lemma {:induction false} UploadingAfterCreateRewritesNothing(t: Table, ctx: UploadCtx, plan: UploadPlan, ttlNow: nat, startedAt: nat)
    requires ValidTable(t) && Matches(t, plan.uploadId) == {}
    requires Trimmed(UnicodeWhiteSpace, ctx.userSub) && Trimmed(UnicodeWhiteSpace, plan.uploadId)
    requires CreateSessionTable(t, ctx, plan, ttlNow, startedAt).1.Pass?
    ensures var t1 := CreateSessionTable(t, ctx, plan, ttlNow, startedAt).0;
      SetStatusTable(t1, plan.uploadId, StatusValue(Uploading)) == (t1, Pass)
  {
    var t1 := CreateSessionTable(t, ctx, plan, ttlNow, startedAt).0;
    CreatedSessionFound(t, ctx, plan, ttlNow, startedAt);
    CreatedItemHasUploadingKeys(ctx, plan, ttlNow, startedAt);
    SetStatusRewritingSame(t1, plan.uploadId, StatusValue(Uploading));
  }

  /**
   * `mark_error` sets the status, the code and the message and nothing else: the GSI2 and GSI3
   * status keys keep the status they were last written with.
   */
  lemma {:induction false} MarkErrorKeepsStatusKeys(t: Table, id: string, code: string, message: string)
    requires ValidTable(t) && Matches(t, id) != {}
    ensures var k := GetByGsi1(t, id).value;
      var item := MarkErrorTable(t, id, code, message).0[k];
      && item.status == Some(S("error")) && item.error_code == Some(S(code)) && item.error_message == Some(S(message))
      && item.GSI2PK == t[k].GSI2PK && item.GSI2SK == t[k].GSI2SK
      && item.GSI3PK == t[k].GSI3PK && item.GSI3SK == t[k].GSI3SK
  {
  }

  /**
   * So a session that fails right after it was created reads `status = "error"` while the
   * status index still files it under `STATUS#uploading`.
   */
  lemma {:induction false} ErrorAfterCreateLeavesStaleIndex(t: Table, ctx: UploadCtx, plan: UploadPlan, ttlNow: nat, startedAt: nat,
                                                            code: string, message: string)
    requires ValidTable(t) && Matches(t, plan.uploadId) == {}
    requires Trimmed(UnicodeWhiteSpace, ctx.userSub) && Trimmed(UnicodeWhiteSpace, plan.uploadId)
    requires CreateSessionTable(t, ctx, plan, ttlNow, startedAt).1.Pass?
    ensures var rec := SessionRecord(ctx, plan, ttlNow, startedAt).value;
      var t1 := CreateSessionTable(t, ctx, plan, ttlNow, startedAt).0;
      var item := MarkErrorTable(t1, plan.uploadId, code, message).0[(rec.pk, rec.sk)];
      && item.status == Some(S("error"))
      && item.GSI2PK == Some(S("STATUS#uploading"))
      && item.GSI3PK == Some(S("USER#" + ctx.userSub + "#STATUS#uploading"))
  {
    var rec := SessionRecord(ctx, plan, ttlNow, startedAt).value;
    var t1 := CreateSessionTable(t, ctx, plan, ttlNow, startedAt).0;
    CreatedSessionFound(t, ctx, plan, ttlNow, startedAt);
    CreatedRecordKeys(ctx, plan, ttlNow, startedAt);
    ItemAttributes(rec);
    MarkErrorKeepsStatusKeys(t1, plan.uploadId, code, message);
  }

  /**
   * `mark_available` stamps `completed_at` and leaves the status and its index keys alone:
   * the session only reads `available` once `set_status` has been called as well.
   */
  lemma {:induction false} MarkAvailableOnlyStamps(t: Table, id: string, now: nat)
    requires ValidTable(t) && Matches(t, id) != {}
    ensures var k := GetByGsi1(t, id).value;
      MarkAvailableTable(t, id, now).0[k] == t[k].(completed_at := Some(N(now)))
    ensures var k := GetByGsi1(t, id).value;
      var item := MarkAvailableTable(t, id, now).0[k];
      && item.status == t[k].status && item.GSI2PK == t[k].GSI2PK && item.GSI3PK == t[k].GSI3PK
  {
  }

  // ---------------------------------------------------------------------------
  // The calls and their effect
  // ---------------------------------------------------------------------------

  /** A call of the repository's API, with its arguments. */
  datatype RepoOp =
    | CreateSessionOp(ctx: UploadCtx, plan: UploadPlan)
    | SetStatusOp(sessionId: string, status: string)
    | MarkAvailableOp(sessionId: string, bucket: string, key: string)
    | MarkErrorOp(sessionId: string, code: string, message: string)
    | SaveMultipartIdOp(sessionId: string, mpuUploadId: string)
    | GetCtxOp(sessionId: string)
    | GetPlanOp(sessionId: string)
    | GetMultipartIdOp(sessionId: string)
    | AbortMultipartOp(sessionId: string)

  // ---------------------------------------------------------------------------
  // DynamoSessionRepository
  // ---------------------------------------------------------------------------

  class DynamoSessionRepository {
    const tableName: string
    const clock: Clock
    /** The table's items by (PK, SK). */
    var table: Table
    /** Every call made on the repository so far, oldest first. */
    ghost var ops: seq<RepoOp>

    ghost predicate Valid()
      reads this
    {
      ValidTable(table)
    }

    /** `DynamoSessionRepository(table_name)`, over a table with the given contents. */
    constructor (tableName: string, clock: Clock, contents: Table)
      requires ValidTable(contents)
      ensures this.tableName == tableName && this.clock == clock && table == contents
      ensures ops == [] && Valid()
    {
      this.tableName := tableName;
      this.clock := clock;
      table := contents;
      ops := [];
    }

    /** `create_session(ctx, plan)`: the TTL's clock reading first, then `started_at`'s. */
    method CreateSession(ctx: UploadCtx, plan: UploadPlan) returns (r: Outcome)
      requires Valid()
      modifies this, clock
      ensures Valid()
      ensures ops == old(ops) + [CreateSessionOp(ctx, plan)]
      ensures (table, r) == CreateSessionTable(old(table), ctx, plan, clock.Reading(old(clock.ticks)), clock.Reading(old(clock.ticks) + 1))
      ensures clock.ticks == old(clock.ticks) + 2
    {
      var ttlNow := clock.Now();
      var startedAt := clock.Now();
      var rec := SessionRecord(ctx, plan, ttlNow, startedAt);
      if rec.Failure? {
        r := Fail(rec.error);
      } else {
        var key := (rec.value.pk, rec.value.sk);
        if key in table {
          r := Fail(CONDITIONAL_CHECK_FAILED);
        } else {
          NewItemWellTyped(rec.value);
          PutKeepsValid(table, key, ToDynamo(rec.value));
          table := table[key := ToDynamo(rec.value)];
          r := Pass;
        }
      }
      ops := ops + [CreateSessionOp(ctx, plan)];
    }

    /** `set_status(id, status)`. */
    method SetStatus(id: string, status: string) returns (r: Outcome)
      requires Valid()
      modifies this
      ensures Valid()
      ensures ops == old(ops) + [SetStatusOp(id, status)]
      ensures (table, r) == SetStatusTable(old(table), id, status)
    {
      var found := GetByGsi1(table, id);
      if found.Failure? {
        r := Fail(found.error);
      } else {
        var k := found.value;
        var item := table[k];
        SplitSinglePiece(k.1, '#');
        var ts := Split(k.1, '#')[1];
        table := table[k := WithStatus(item, ts, id, status)];
        r := Pass;
      }
      ops := ops + [SetStatusOp(id, status)];
    }

    /** `mark_available(id, bucket, key)`: the clock is read only once the session is found. */
    method MarkAvailable(id: string, bucket: string, key: string) returns (r: Outcome)
      requires Valid()
      modifies this, clock
      ensures Valid()
      ensures ops == old(ops) + [MarkAvailableOp(id, bucket, key)]
      ensures (table, r) == MarkAvailableTable(old(table), id, clock.Reading(old(clock.ticks)))
      ensures clock.ticks == old(clock.ticks) + (if r.Fail? then 0 else 1)
    {
      var found := GetByGsi1(table, id);
      if found.Failure? {
        r := Fail(found.error);
      } else {
        var now := clock.Now();
        var k := found.value;
        table := table[k := table[k].(completed_at := Some(N(now)))];
        r := Pass;
      }
      ops := ops + [MarkAvailableOp(id, bucket, key)];
    }

    /** `mark_error(id, code, message)`. */
    method MarkError(id: string, code: string, message: string) returns (r: Outcome)
      requires Valid()
      modifies this
      ensures Valid()
      ensures ops == old(ops) + [MarkErrorOp(id, code, message)]
      ensures (table, r) == MarkErrorTable(old(table), id, code, message)
    {
      var found := GetByGsi1(table, id);
      if found.Failure? {
        r := Fail(found.error);
      } else {
        var k := found.value;
        table := table[k := table[k].(status := Some(S(StatusValue(Error))), error_code := Some(S(code)), error_message := Some(S(message)))];
        r := Pass;
      }
      ops := ops + [MarkErrorOp(id, code, message)];
    }

    /** `save_multipart_id(id, mpu_upload_id)`. */
    method SaveMultipartId(id: string, mpuUploadId: string) returns (r: Outcome)
      requires Valid()
      modifies this
      ensures Valid()
      ensures ops == old(ops) + [SaveMultipartIdOp(id, mpuUploadId)]
      ensures (table, r) == SaveMultipartIdTable(old(table), id, mpuUploadId)
    {
      var found := GetByGsi1(table, id);
      if found.Failure? {
        r := Fail(found.error);
      } else {
        var k := found.value;
        table := table[k := table[k].(s3_mpu_id := Some(S(mpuUploadId)))];
        r := Pass;
      }
      ops := ops + [SaveMultipartIdOp(id, mpuUploadId)];
    }

    /** `get_ctx(id)`. */
    method GetCtx(id: string) returns (r: Result<UploadCtx, Exception>)
      requires Valid()
      modifies this
      ensures Valid() && table == old(table)
      ensures ops == old(ops) + [GetCtxOp(id)]
      ensures r == GetCtxOf(table, id)
    {
      var found := GetByGsi1(table, id);
      if found.Failure? {
        r := Failure(found.error);
      } else {
        r := Success(CtxOfItem(table[found.value]));
      }
      ops := ops + [GetCtxOp(id)];
    }

    /** `get_plan(id)`. */
    method GetPlan(id: string) returns (r: Result<UploadPlan, Exception>)
      requires Valid()
      modifies this
      ensures Valid() && table == old(table)
      ensures ops == old(ops) + [GetPlanOp(id)]
      ensures r == GetPlanOf(table, id)
    {
      var found := GetByGsi1(table, id);
      if found.Failure? {
        r := Failure(found.error);
      } else {
        r := Success(PlanOfItem(table[found.value], id));
      }
      ops := ops + [GetPlanOp(id)];
    }

    /** `get_multipart_id(id)`. */
    method GetMultipartId(id: string) returns (r: Result<Option<string>, Exception>)
      requires Valid()
      modifies this
      ensures Valid() && table == old(table)
      ensures ops == old(ops) + [GetMultipartIdOp(id)]
      ensures r == GetMultipartIdOf(table, id)
    {
      var found := GetByGsi1(table, id);
      if found.Failure? {
        r := Failure(found.error);
      } else {
        r := Success(StrAttr(table[found.value].s3_mpu_id));
      }
      ops := ops + [GetMultipartIdOp(id)];
    }

    /** `abort_multipart(id)`: returns `None` without looking anything up or changing anything. */
    method AbortMultipart(id: string) returns (r: Outcome)
      requires Valid()
      modifies this
      ensures Valid() && table == old(table)
      ensures ops == old(ops) + [AbortMultipartOp(id)]
      ensures r == Pass
    {
      r := Pass;
      ops := ops + [AbortMultipartOp(id)];
    }
  }
}
